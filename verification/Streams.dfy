/** Sending a stream: one payload to many devices, repeated until every one of them has acknowledged it. */
module Streams {
  import opened Basics
  import opened Collector
  import opened Retries

  const OPC_STREAM := 0x07
  const OPC_ACK := 0x7E
  const IDLE_TIMEOUT := 0.6
  const BASE_TIMEOUT := 1.0
  const PER_DEVICE := 0.15
  const RETRY_DELAY := 0.1

  function CollectMaxTimeout(expected: int, ceiling: real): real {
    RealMin(ceiling, BASE_TIMEOUT + Max(0, expected) as real * PER_DEVICE)
  }

  datatype Ack = Ack(sender: Option<seq<byte>>, opc: int, ackOf: int)

  /** The predicate of a stream's collector. */
  function StreamAck(targets: set<seq<byte>>): Ack -> bool {
    (a: Ack) => a.opc == OPC_ACK && a.ackOf == OPC_STREAM && a.sender.Some? && a.sender.value in targets
  }

  function Senders(acks: seq<Ack>): set<seq<byte>> {
    set i | 0 <= i < |acks| && acks[i].sender.Some? :: acks[i].sender.value
  }

  /** What one attempt of a stream brings: the replies on the air, and how long sending it takes. */
  datatype OnAir = OnAir(trace: Trace<Ack>, sending: real)

  function StreamLimits(targets: set<seq<byte>>, timeout: real): Limits {
    Limits(Some(|targets|), IDLE_TIMEOUT, RealMin(timeout, CollectMaxTimeout(|targets|, timeout)))
  }

  /** The targets heard in one attempt. */
  function HeardBy(o: OnAir, targets: set<seq<byte>>, end: real): set<seq<byte>> {
    Senders(Events(Heard(o.trace, StreamAck(targets), end)))
  }

  /** The targets heard over the attempts that ended at `ends`. */
  function HeardFrom(air: nat -> OnAir, targets: set<seq<byte>>, ends: seq<real>): set<seq<byte>>
    decreases |ends|
  {
    if ends == [] then {}
    else
      var k := |ends| - 1;
      HeardFrom(air, targets, ends[..k]) + HeardBy(air(k), targets, ends[k])
  }

  ghost predicate StreamEnds(air: nat -> OnAir, targets: set<seq<byte>>, timeout: real, ends: seq<real>) {
    forall k :: 0 <= k < |ends| ==>
      EndsAt(air(k).trace, StreamAck(targets), StreamLimits(targets, timeout), air(k).sending, ends[k])
  }

  lemma {:induction false} OnlyTargets(air: nat -> OnAir, targets: set<seq<byte>>, ends: seq<real>)
    ensures HeardFrom(air, targets, ends) <= targets
    decreases |ends|
  {
    if ends != [] {
      var k := |ends| - 1;
      OnlyTargets(air, targets, ends[..k]);
      MatchingMembers(air(k).trace[..DueBy(air(k).trace, ends[k])], StreamAck(targets));
      var heard := Heard(air(k).trace, StreamAck(targets), ends[k]);
      forall i | 0 <= i < |heard| && heard[i].ev.sender.Some?
        ensures heard[i].ev.sender.value in targets
      {
        assert heard[i] in heard;
      }
    }
  }

  lemma {:induction false} SameSize<T>(a: set<T>, b: set<T>)
    requires a <= b
    ensures |a| <= |b|
    ensures |a| == |b| ==> a == b
  {
    assert b == a + (b - a);
    assert |b| == |a| + |b - a|;
  }

  /** None of the first `n` prefixes of the attempts has heard every target. */
  ghost predicate Incomplete(air: nat -> OnAir, targets: set<seq<byte>>, ends: seq<real>, n: nat) {
    forall k :: 0 <= k < n && k <= |ends| ==> HeardFrom(air, targets, ends[..k]) != targets
  }

  /** One pass of the stream's retry loop. */
  method StreamAttempt(o: OnAir, targets: set<seq<byte>>, timeout: real) returns (heard: set<seq<byte>>, end: real)
    requires InOrder(o.trace) && o.sending >= 0.0
    ensures EndsAt(o.trace, StreamAck(targets), StreamLimits(targets, timeout), o.sending, end)
    ensures heard == HeardBy(o, targets, end)
  {
    var l := StreamLimits(targets, timeout);
    var window := new Window(o.trace, StreamAck(targets), l.expected);
    var _, stop := window.Collect(o.trace, StreamAck(targets), l.expected, l.idle, l.hard, 0.0, o.sending);
    end := stop;
    heard := Senders(window.collected);
  }

  lemma {:induction false} OneMoreAttempt(air: nat -> OnAir, targets: set<seq<byte>>, timeout: real, ends: seq<real>, end: real)
    requires StreamEnds(air, targets, timeout, ends)
    requires EndsAt(air(|ends|).trace, StreamAck(targets), StreamLimits(targets, timeout), air(|ends|).sending, end)
    requires Incomplete(air, targets, ends, |ends| + 1)
    ensures var more := ends + [end];
            && StreamEnds(air, targets, timeout, more)
            && HeardFrom(air, targets, more) == HeardFrom(air, targets, ends) + HeardBy(air(|ends|), targets, end)
            && HeardFrom(air, targets, more) <= targets
            && Incomplete(air, targets, more, |more|)
            && (HeardFrom(air, targets, more) != targets ==> Incomplete(air, targets, more, |more| + 1))
  {
    var more := ends + [end];
    assert more[..|ends|] == ends;
    OnlyTargets(air, targets, more);
    StillIncomplete(air, targets, ends, end);
  }

  lemma {:induction false} StillIncomplete(air: nat -> OnAir, targets: set<seq<byte>>, ends: seq<real>, end: real)
    requires Incomplete(air, targets, ends, |ends| + 1)
    ensures var more := ends + [end];
            && Incomplete(air, targets, more, |more|)
            && (HeardFrom(air, targets, more) != targets ==> Incomplete(air, targets, more, |more| + 1))
  {
    var more := ends + [end];
    assert more[..|more|] == more;
    forall k | 0 <= k < |more|
      ensures HeardFrom(air, targets, more[..k]) != targets
    {
      assert more[..k] == ends[..k];
    }
  }

  /** `send_stream`: nothing is sent without targets; otherwise acknowledgements add up over at most `retries + 1`
      attempts, the first attempt that completes the targets is the last, and nobody but a target is counted. */
  method SendStream(targets: set<seq<byte>>, retries: int, timeout: real, air: nat -> OnAir)
      returns (acked: set<seq<byte>>, ends: seq<real>, elapsed: real)
    requires forall k: nat :: InOrder(air(k).trace) && air(k).sending >= 0.0
    ensures |ends| <= Max(0, retries) + 1 && (ends == [] <==> targets == {})
    ensures StreamEnds(air, targets, timeout, ends)
    ensures acked == HeardFrom(air, targets, ends) && acked <= targets
    ensures Incomplete(air, targets, ends, |ends|)
    ensures acked == targets || |ends| == Max(0, retries) + 1
    ensures elapsed == StreamElapsed(ends)
  {
    acked, ends, elapsed := {}, [], 0.0;
    if targets == {} {
      return;
    }
    while |ends| < Max(0, retries) + 1
      invariant 0 <= |ends| <= Max(0, retries) + 1
      invariant StreamEnds(air, targets, timeout, ends)
      invariant acked == HeardFrom(air, targets, ends) && acked <= targets
      invariant Incomplete(air, targets, ends, |ends| + 1)
      invariant elapsed == StreamElapsed(ends) + if 0 < |ends| < Max(0, retries) + 1 then RETRY_DELAY else 0.0
      decreases Max(0, retries) + 1 - |ends|
    {
      var attempt := |ends|;
      var heard, end := StreamAttempt(air(attempt), targets, timeout);
      OneMoreAttempt(air, targets, timeout, ends, end);
      acked := acked + heard;
      assert (ends + [end])[..attempt] == ends;
      ends := ends + [end];
      elapsed := elapsed + end;
      SameSize(acked, targets);
      if |acked| >= |targets| {
        return;
      }
      if attempt < retries {
        elapsed := elapsed + RETRY_DELAY;
      }
    }
  }

  /** The returned counts: never more acknowledged than expected, and equal exactly when every target was heard. */
  lemma {:induction false} AckedAtMostExpected(air: nat -> OnAir, targets: set<seq<byte>>, ends: seq<real>)
    ensures var acked := HeardFrom(air, targets, ends);
            |acked| <= |targets| && (|acked| == |targets| <==> acked == targets)
  {
    OnlyTargets(air, targets, ends);
    SameSize(HeardFrom(air, targets, ends), targets);
  }

  /** Every attempt of a stream ends within its window or when sending ends. */
  lemma {:induction false} StreamTime(air: nat -> OnAir, targets: set<seq<byte>>, timeout: real, ends: seq<real>, k: nat)
    requires StreamEnds(air, targets, timeout, ends) && k < |ends|
    ensures ends[k] <= timeout || ends[k] <= air(k).sending
  {
    EndsByDeadline(air(k).trace, StreamAck(targets), StreamLimits(targets, timeout), air(k).sending, ends[k]);
  }

  /** The clock time of a stream: its attempts and the pauses between them. */
  function StreamElapsed(ends: seq<real>): real
    decreases |ends|
  {
    if ends == [] then 0.0
    else
      var k := |ends| - 1;
      StreamElapsed(ends[..k]) + (if k > 0 then RETRY_DELAY else 0.0) + ends[k]
  }

  lemma {:induction false} StreamTimeTotal(air: nat -> OnAir, targets: set<seq<byte>>, timeout: real, ends: seq<real>)
    requires StreamEnds(air, targets, timeout, ends) && ends != []
    requires forall k :: 0 <= k < |ends| ==> air(k).sending <= timeout
    ensures StreamElapsed(ends) <= |ends| as real * timeout + (|ends| - 1) as real * RETRY_DELAY
  {
    forall k | 0 <= k < |ends| ensures ends[k] <= timeout {
      StreamTime(air, targets, timeout, ends, k);
    }
    ElapsedBound(timeout, ends);
  }

  lemma {:induction false} ElapsedBound(timeout: real, ends: seq<real>)
    requires ends != [] && forall k :: 0 <= k < |ends| ==> ends[k] <= timeout
    ensures StreamElapsed(ends) <= |ends| as real * timeout + (|ends| - 1) as real * RETRY_DELAY
    decreases |ends|
  {
    var k := |ends| - 1;
    if k == 0 {
      assert StreamElapsed(ends[..0]) == 0.0;
    } else {
      ElapsedBound(timeout, ends[..k]);
      OneMoreTerm(|ends|, timeout);
      OneMoreTerm(k, RETRY_DELAY);
    }
  }

  // ---- when a count means everybody --------------------------------------------------------

  /** How many entries repeat an earlier one. */
  function Repeats<T(==)>(s: seq<T>): nat
    decreases |s|
  {
    if s == [] then 0
    else Repeats(s[..|s| - 1]) + if s[|s| - 1] in s[..|s| - 1] then 1 else 0
  }

  function Values<T>(s: seq<T>): set<T> {
    set x | x in s
  }

  lemma {:induction false} RepeatsAndValues<T>(s: seq<T>)
    ensures |Values(s)| + Repeats(s) == |s|
    ensures Repeats(s) == 0 <==> Distinct(s)
    decreases |s|
  {
    if s == [] {
      assert Values(s) == {};
    } else {
      var front, last := s[..|s| - 1], s[|s| - 1];
      RepeatsAndValues(front);
      assert s == front + [last];
      if last in front {
        assert Values(s) == Values(front);
      } else {
        assert Values(s) == Values(front) + {last} && last !in Values(front);
      }
      assert forall i :: 0 <= i < |front| ==> front[i] == s[i];
    }
  }

  /** Who sent each reply. */
  function SenderList(heard: Trace<Ack>): (r: seq<Option<seq<byte>>>)
    ensures |r| == |heard| && forall i :: 0 <= i < |heard| ==> r[i] == heard[i].ev.sender
  {
    seq(|heard|, i requires 0 <= i < |heard| => heard[i].ev.sender)
  }

  lemma {:induction false} HeardAreTargets(o: OnAir, targets: set<seq<byte>>, end: real)
    ensures var heard := Heard(o.trace, StreamAck(targets), end);
            && (forall i :: 0 <= i < |heard| ==> heard[i].ev.sender.Some? && heard[i].ev.sender.value in targets)
            && HeardBy(o, targets, end) <= targets
            && |HeardBy(o, targets, end)| == |Values(SenderList(heard))|
  {
    var heard := Heard(o.trace, StreamAck(targets), end);
    MatchingMembers(o.trace[..DueBy(o.trace, end)], StreamAck(targets));
    forall i | 0 <= i < |heard|
      ensures heard[i].ev.sender.Some? && heard[i].ev.sender.value in targets
    {
      assert heard[i] in heard;
    }
    SameSenders(heard);
  }

  lemma {:induction false} SameSenders(heard: Trace<Ack>)
    requires forall i :: 0 <= i < |heard| ==> heard[i].ev.sender.Some?
    ensures |Senders(Events(heard))| == |Values(SenderList(heard))|
  {
    var plain, wrapped := Senders(Events(heard)), Values(SenderList(heard));
    assert wrapped == Wrapped(plain) by {
      forall x | x in wrapped
        ensures x in Wrapped(plain)
      {
        var i :| 0 <= i < |heard| && SenderList(heard)[i] == x;
        assert Events(heard)[i].sender.value in plain;
      }
      forall y | y in plain
        ensures Some(y) in wrapped
      {
        var i :| 0 <= i < |heard| && Events(heard)[i].sender.Some? && Events(heard)[i].sender.value == y;
        assert SenderList(heard)[i] == Some(y);
      }
    }
    WrappedSize(plain);
  }

  function Wrapped<T>(s: set<T>): set<Option<T>> {
    set x | x in s :: Some(x)
  }

  lemma {:induction false} WrappedSize<T>(s: set<T>)
    ensures |Wrapped(s)| == |s|
  {
    if s == {} {
      assert Wrapped(s) == {};
    } else {
      var x :| x in s;
      WrappedSize(s - {x});
      assert Wrapped(s) == Wrapped(s - {x}) + {Some(x)};
    }
  }

  /** Only the last reply heard came at this instant. */
  predicate CameAlone(heard: Trace<Ack>, end: real) {
    forall i :: 0 <= i < |heard| - 1 ==> heard[i].at < end
  }

  /** Without the last reply the count was not reached yet. */
  lemma {:induction false} CountIsTight(o: OnAir, targets: set<seq<byte>>, timeout: real, end: real)
    requires InOrder(o.trace) && o.sending < end
    requires EndsAt(o.trace, StreamAck(targets), StreamLimits(targets, timeout), o.sending, end)
    requires var heard := Heard(o.trace, StreamAck(targets), end);
             Full(heard, StreamLimits(targets, timeout)) && CameAlone(heard, end)
    ensures |Heard(o.trace, StreamAck(targets), end)| == |targets|
  {
    var pred, l := StreamAck(targets), StreamLimits(targets, timeout);
    var heard := Heard(o.trace, pred, end);
    HeardAreTargets(o, targets, end);
    assert heard[0].ev.sender.value in targets;
    if |heard| > 1 {
      var before := heard[|heard| - 2].at;
      var t := if before < o.sending then o.sending else before;
      OneFewer(o.trace, pred, t, end);
      assert !Over(Heard(o.trace, pred, t), l, t);
    }
  }

  /** Just before the last reply, all replies but that one were in. */
  lemma {:induction false} OneFewer<E>(trace: Trace<E>, pred: E -> bool, t: real, end: real)
    requires InOrder(trace) && t < end
    requires var heard := Heard(trace, pred, end); |heard| > 1 && heard[|heard| - 2].at <= t
    ensures |Heard(trace, pred, t)| >= |Heard(trace, pred, end)| - 1
  {
    var due, n := DueBy(trace, t), DueBy(trace, end);
    DueGrows(trace, t, end);
    forall k | due <= k < n
      ensures trace[k].at > t
    {
      assert trace[due].at <= trace[k].at;
    }
    AllButOne(trace, pred, t, due, n, Matching(trace[..n], pred));
  }

  /** The first `n` arrivals bring at most one match more than the first `due`, if only the last of them is late. */
  lemma {:induction false} AllButOne<E>(trace: Trace<E>, pred: E -> bool, t: real, due: nat, n: nat, heard: Trace<E>)
    requires due <= n <= |trace| && forall k :: due <= k < n ==> trace[k].at > t
    requires heard == Matching(trace[..n], pred) && |heard| > 1 && heard[|heard| - 2].at <= t
    ensures |Matching(trace[..due], pred)| >= |heard| - 1
    decreases n
  {
    if due < n {
      MatchingSnoc(trace, pred, n - 1);
      var front := Matching(trace[..n - 1], pred);
      if pred(trace[n - 1].ev) {
        LastOfFront(front, trace[n - 1]);
        NoneLate(trace, pred, t, due, n - 1, front);
      } else {
        AllButOne(trace, pred, t, due, n - 1, front);
      }
    }
  }

  lemma {:induction false} LastOfFront<T>(front: seq<T>, x: T)
    requires |front| > 0
    ensures var all := front + [x]; |all| - 1 == |front| && all[|all| - 2] == front[|front| - 1]
  {
  }

  lemma {:induction false} NoneLate<E>(trace: Trace<E>, pred: E -> bool, t: real, due: nat, n: nat, heard: Trace<E>)
    requires due <= n <= |trace| && forall k :: due <= k < n ==> trace[k].at > t
    requires heard == Matching(trace[..n], pred) && (heard == [] || heard[|heard| - 1].at <= t)
    ensures Matching(trace[..due], pred) == heard
    decreases n
  {
    if due < n {
      MatchingSnoc(trace, pred, n - 1);
      var front := Matching(trace[..n - 1], pred);
      if pred(trace[n - 1].ev) {
        assert false;
      } else {
        NoneLate(trace, pred, t, due, n - 1, front);
      }
    }
  }

  /** When an attempt that ended by count has heard everybody. The replies are at least as many as the targets, and
      every target was heard if and only if no more of them are repeats than there are replies to spare. When the
      count is reached after sending by a reply that came alone, there are none to spare: everybody was heard if and
      only if no target answered twice. */
  lemma {:induction false} CountHearsAllIff(o: OnAir, targets: set<seq<byte>>, timeout: real, end: real)
    requires InOrder(o.trace)
    requires EndsAt(o.trace, StreamAck(targets), StreamLimits(targets, timeout), o.sending, end)
    requires ReasonFor(Heard(o.trace, StreamAck(targets), end), StreamLimits(targets, timeout), end) == Count
    ensures var heard := Heard(o.trace, StreamAck(targets), end);
            var senders := SenderList(heard);
            && |senders| >= |targets|
            && (HeardBy(o, targets, end) == targets <==> Repeats(senders) == |senders| - |targets|)
            && (o.sending < end && CameAlone(heard, end) ==>
                  |senders| == |targets| && (HeardBy(o, targets, end) == targets <==> Distinct(senders)))
  {
    var heard := Heard(o.trace, StreamAck(targets), end);
    HeardAreTargets(o, targets, end);
    RepeatsAndValues(SenderList(heard));
    SameSize(HeardBy(o, targets, end), targets);
    if o.sending < end && CameAlone(heard, end) {
      CountIsTight(o, targets, timeout, end);
    }
  }

  /** An attempt completes a stream if and only if its senders include every target the earlier attempts missed;
      one that ends by count with no repeats to spare always does. */
  lemma {:induction false} AttemptCompletesIff(air: nat -> OnAir, targets: set<seq<byte>>, timeout: real, ends: seq<real>, k: nat)
    requires StreamEnds(air, targets, timeout, ends) && k < |ends| && InOrder(air(k).trace)
    ensures HeardFrom(air, targets, ends[..k + 1]) == targets
            <==> targets - HeardFrom(air, targets, ends[..k]) <= HeardBy(air(k), targets, ends[k])
    ensures var heard := Heard(air(k).trace, StreamAck(targets), ends[k]);
            Full(heard, StreamLimits(targets, timeout)) && Repeats(SenderList(heard)) == |heard| - |targets| ==>
              HeardFrom(air, targets, ends[..k + 1]) == targets
  {
    OnlyTargets(air, targets, ends[..k + 1]);
    assert ends[..k + 1][..k] == ends[..k];
    var heard := Heard(air(k).trace, StreamAck(targets), ends[k]);
    if Full(heard, StreamLimits(targets, timeout)) {
      CountHearsAllIff(air(k), targets, timeout, ends[k]);
    }
  }

  /** An instance: two acknowledgements from one of two targets end the attempt, which has not heard the other. */
  lemma {:induction false} RepeatedAckEndsAttempt(a: seq<byte>, b: seq<byte>, timeout: real)
    requires a != b && timeout >= 1.3
    ensures var ack := Ack(Some(a), OPC_ACK, OPC_STREAM);
            var o, targets := OnAir([Arrival(0.1, ack), Arrival(0.2, ack)], 0.0), {a, b};
            && EndsAt(o.trace, StreamAck(targets), StreamLimits(targets, timeout), o.sending, 0.2)
            && ReasonFor(Heard(o.trace, StreamAck(targets), 0.2), StreamLimits(targets, timeout), 0.2) == Count
            && HeardBy(o, targets, 0.2) != targets
  {
    var ack := Ack(Some(a), OPC_ACK, OPC_STREAM);
    var trace, targets := [Arrival(0.1, ack), Arrival(0.2, ack)], {a, b};
    var pred, l := StreamAck(targets), StreamLimits(targets, timeout);
    assert |targets| == 2;
    assert pred(ack);
    TwoArrivals(trace[0], trace[1], pred);
    forall t: real | 0.0 <= t < 0.2
      ensures !Over(Heard(trace, pred, t), l, t)
    {
      TwoArrivalsDue(trace[0], trace[1], t);
    }
    TwoArrivalsDue(trace[0], trace[1], 0.2);
    CountHearsAllIff(OnAir(trace, 0.0), targets, timeout, 0.2);
    var senders := SenderList(Heard(trace, pred, 0.2));
    assert senders[0] == senders[1];
  }

  /** Why the reply that completes the count must come alone: when two arrive at that instant, both are heard, so a
      target may have answered twice and yet nobody is missing. */
  lemma {:induction false} TiesLeaveRepliesToSpare(a: seq<byte>, b: seq<byte>, timeout: real)
    requires a != b && timeout >= 1.3
    ensures var x, y := Ack(Some(a), OPC_ACK, OPC_STREAM), Ack(Some(b), OPC_ACK, OPC_STREAM);
            var o, targets := OnAir([Arrival(0.1, x), Arrival(0.2, y), Arrival(0.2, x)], 0.0), {a, b};
            var heard := Heard(o.trace, StreamAck(targets), 0.2);
            && EndsAt(o.trace, StreamAck(targets), StreamLimits(targets, timeout), o.sending, 0.2)
            && HeardBy(o, targets, 0.2) == targets && !Distinct(SenderList(heard)) && !CameAlone(heard, 0.2)
  {
    var x, y := Ack(Some(a), OPC_ACK, OPC_STREAM), Ack(Some(b), OPC_ACK, OPC_STREAM);
    var trace := [Arrival(0.1, x), Arrival(0.2, y), Arrival(0.2, x)];
    TieEnds(a, b, timeout, trace);
    assert SenderList(trace)[0] == SenderList(trace)[2];
    assert Events(trace)[0].sender.value == a && Events(trace)[1].sender.value == b;
    assert !(trace[1].at < 0.2);
  }

  lemma {:induction false} TieEnds(a: seq<byte>, b: seq<byte>, timeout: real, trace: Trace<Ack>)
    requires a != b && timeout >= 1.3
    requires var x, y := Ack(Some(a), OPC_ACK, OPC_STREAM), Ack(Some(b), OPC_ACK, OPC_STREAM);
             trace == [Arrival(0.1, x), Arrival(0.2, y), Arrival(0.2, x)]
    ensures EndsAt(trace, StreamAck({a, b}), StreamLimits({a, b}, timeout), 0.0, 0.2)
    ensures Heard(trace, StreamAck({a, b}), 0.2) == trace
  {
    var targets := {a, b};
    var pred, l := StreamAck(targets), StreamLimits(targets, timeout);
    assert |targets| == 2;
    assert pred(trace[0].ev) && pred(trace[1].ev);
    ThreeArrivals(trace[0], trace[1], trace[2], pred);
    forall t: real | 0.0 <= t < 0.2
      ensures !Over(Heard(trace, pred, t), l, t)
    {
      ThreeArrivalsDue(trace[0], trace[1], trace[2], t);
    }
    ThreeArrivalsDue(trace[0], trace[1], trace[2], 0.2);
  }

  lemma {:induction false} ThreeArrivals<E>(x: Arrival<E>, y: Arrival<E>, z: Arrival<E>, pred: E -> bool)
    requires pred(x.ev) && pred(y.ev) && pred(z.ev)
    ensures Matching([x, y, z][..0], pred) == [] && Matching([x, y, z][..1], pred) == [x]
    ensures Matching([x, y, z][..3], pred) == [x, y, z]
  {
    MatchingSnoc([x, y, z], pred, 0);
    MatchingSnoc([x, y, z], pred, 1);
    MatchingSnoc([x, y, z], pred, 2);
    assert Matching([x, y, z][..0], pred) == [];
  }

  lemma {:induction false} ThreeArrivalsDue<E>(x: Arrival<E>, y: Arrival<E>, z: Arrival<E>, t: real)
    requires x.at <= y.at == z.at
    ensures DueBy([x, y, z], t) == if t < x.at then 0 else if t < y.at then 1 else 3
  {
    assert [x, y, z][1..] == [y, z];
    TwoArrivalsDue(y, z, t);
  }

  lemma {:induction false} TwoArrivals<E>(x: Arrival<E>, y: Arrival<E>, pred: E -> bool)
    requires pred(x.ev) && pred(y.ev)
    ensures Matching([x, y][..0], pred) == [] && Matching([x, y][..1], pred) == [x] && Matching([x, y][..2], pred) == [x, y]
  {
    MatchingSnoc([x, y], pred, 0);
    MatchingSnoc([x, y], pred, 1);
    assert Matching([x, y][..0], pred) == [];
  }

  lemma {:induction false} TwoArrivalsDue<E>(x: Arrival<E>, y: Arrival<E>, t: real)
    requires x.at <= y.at
    ensures DueBy([x, y], t) == if t < x.at then 0 else if t < y.at then 1 else 2
  {
    assert [x, y][1..] == [y] && [y][1..] == [];
    assert DueBy([y], t) == if t < y.at then 0 else 1;
  }
}
