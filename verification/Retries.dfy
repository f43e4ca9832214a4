/** Unicast waiting with bounded retries. */
module Retries {
  import opened Basics

  /** What one attempt meets: when its request is completed, counted from the start of the wait (before it for a
      reply that beat the wait), and the reply stored by then. */
  datatype Waiting<R> = Waiting(doneAt: Option<real>, reply: R)

  /** What the caller of one attempt gets, and how long it waited. */
  datatype Attempt<R> = Attempt(replies: seq<R>, ok: bool, waited: real)

  function Positive(x: real): real {
    if x > 0.0 then x else 0.0
  }

  /** The wait of `send_and_wait_for_reply`: the reply if the request is completed in time, else nothing. */
  function Wait<R>(w: Waiting<R>, timeout: real): Attempt<R> {
    if w.doneAt.Some? && w.doneAt.value <= Positive(timeout) then Attempt([w.reply], true, Positive(w.doneAt.value))
    else Attempt([], false, Positive(timeout))
  }

  function AtLeastOne(attempts: int): nat {
    if attempts < 1 then 1 else attempts
  }

  /** The time spent waiting and pausing over a number of attempts. */
  function TotalWait<R>(seen: nat -> Waiting<R>, per: real, pause: real, sends: nat): real {
    if sends == 0 then 0.0
    else TotalWait(seen, per, pause, sends - 1) + (if sends > 1 then pause else 0.0) + Wait(seen(sends - 1), per).waited
  }

  /** `send_and_wait_with_retries`, where the k-th attempt meets `seen(k)`. */
  method SendWithRetries<R>(attempts: int, per: real, delay: real, seen: nat -> Waiting<R>)
      returns (replies: seq<R>, ok: bool, sends: nat, elapsed: real)
    ensures 1 <= sends <= AtLeastOne(attempts)
    ensures forall k :: 0 <= k < sends - 1 ==> !Wait(seen(k), per).ok
    ensures ok <==> exists k :: 0 <= k < AtLeastOne(attempts) && Wait(seen(k), per).ok
    ensures if ok then replies == [seen(sends - 1).reply] && Wait(seen(sends - 1), per).ok
            else replies == [] && sends == AtLeastOne(attempts)
    ensures elapsed == TotalWait(seen, per, Positive(delay), sends)
  {
    var n := AtLeastOne(attempts);
    replies, sends, elapsed := [], 0, 0.0;
    while sends < n
      invariant 0 <= sends <= n && replies == []
      invariant forall k :: 0 <= k < sends ==> !Wait(seen(k), per).ok
      invariant elapsed == TotalWait(seen, per, Positive(delay), sends) + if 0 < sends < n then Positive(delay) else 0.0
    {
      var a := Wait(seen(sends), per);
      sends := sends + 1;
      elapsed := elapsed + a.waited;
      replies := a.replies;
      if a.ok {
        return replies, true, sends, elapsed;
      }
      if sends < n && delay > 0.0 {
        elapsed := elapsed + delay;
      }
    }
    ok := false;
  }

  /** Whatever arrives when, n attempts wait at most n * per and pause n - 1 times. */
  lemma {:induction false} WaitIsBounded<R>(seen: nat -> Waiting<R>, per: real, pause: real, sends: nat)
    requires sends >= 1
    ensures TotalWait(seen, per, pause, sends) <= sends as real * Positive(per) + (sends - 1) as real * pause
    decreases sends
  {
    if sends == 1 {
      assert TotalWait(seen, per, pause, 0) == 0.0;
    } else {
      WaitIsBounded(seen, per, pause, sends - 1);
      OneMoreTerm(sends, Positive(per));
      OneMoreTerm(sends - 1, pause);
    }
  }

  lemma {:induction false} OneMoreTerm(n: nat, x: real)
    requires n >= 1
    ensures n as real * x == (n - 1) as real * x + x
  {
    assert n as real == (n - 1) as real + 1.0;
  }
}
