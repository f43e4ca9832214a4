/** Waiting for an unknown number of replies. Time is what the monotonic clock shows; a wake-up sees everything that
    has arrived by then. */
module Collector {
  import opened Basics

  datatype Arrival<E> = Arrival(at: real, ev: E)

  type Trace<E> = seq<Arrival<E>>

  predicate InOrder<E>(trace: Trace<E>) {
    forall i, j :: 0 <= i < j < |trace| ==> trace[i].at <= trace[j].at
  }

  /** The arrivals the predicate passes, in order. */
  function Matching<E>(trace: Trace<E>, pred: E -> bool): Trace<E>
    decreases |trace|
  {
    if trace == [] then []
    else
      var front, last := Matching(trace[..|trace| - 1], pred), trace[|trace| - 1];
      if pred(last.ev) then front + [last] else front
  }

  /** How many arrivals are in by time `t`. */
  function DueBy<E>(trace: Trace<E>, t: real): (n: nat)
    ensures n <= |trace|
    ensures forall i :: 0 <= i < n ==> trace[i].at <= t
    ensures n < |trace| ==> trace[n].at > t
  {
    if trace == [] || trace[0].at > t then 0 else 1 + DueBy(trace[1..], t)
  }

  /** The matching replies in by time `t`. */
  function Heard<E>(trace: Trace<E>, pred: E -> bool, t: real): Trace<E> {
    Matching(trace[..DueBy(trace, t)], pred)
  }

  /** When to stop: on a count, after a gap, or at a deadline on the clock. */
  datatype Limits = Limits(expected: Option<int>, idle: real, hard: real)

  predicate Full<E>(heard: Trace<E>, l: Limits) {
    l.expected.Some? && heard != [] && |heard| >= l.expected.value
  }

  predicate GapOver<E>(heard: Trace<E>, l: Limits, t: real) {
    heard != [] && heard[|heard| - 1].at + l.idle <= t
  }

  predicate Over<E>(heard: Trace<E>, l: Limits, t: real) {
    Full(heard, l) || t >= l.hard || GapOver(heard, l, t)
  }

  datatype Reason = Count | Idle | MaxTimeout | NoReply

  function ReasonFor<E>(heard: Trace<E>, l: Limits, t: real): Reason {
    if Full(heard, l) then Count
    else if t >= l.hard then (if heard != [] then MaxTimeout else NoReply)
    else Idle
  }

  /** `end` is the first moment, from when the request has been sent, at which there is a reason to stop. */
  ghost predicate EndsAt<E>(trace: Trace<E>, pred: E -> bool, l: Limits, sent: real, end: real) {
    && sent <= end
    && Over(Heard(trace, pred, end), l, end)
    && forall t: real :: sent <= t < end ==> !Over(Heard(trace, pred, t), l, t)
  }

  lemma {:induction false} MatchingSnoc<E>(trace: Trace<E>, pred: E -> bool, i: nat)
    requires i < |trace|
    ensures Matching(trace[..i + 1], pred) == Matching(trace[..i], pred) + if pred(trace[i].ev) then [trace[i]] else []
  {
    assert trace[..i + 1][..i] == trace[..i];
  }

  lemma {:induction false} NoMatchBetween<E>(trace: Trace<E>, pred: E -> bool, i: nat, j: nat)
    requires i <= j <= |trace| && forall k :: i <= k < j ==> !pred(trace[k].ev)
    ensures Matching(trace[..j], pred) == Matching(trace[..i], pred)
  {
    if i < j {
      MatchingSnoc(trace, pred, j - 1);
      NoMatchBetween(trace, pred, i, j - 1);
    }
  }

  lemma {:induction false} DueGrows<E>(trace: Trace<E>, t: real, u: real)
    requires InOrder(trace) && t <= u
    ensures DueBy(trace, t) <= DueBy(trace, u)
  {
  }

  /** While nothing that matches arrives and no deadline passes, there is no reason to stop. */
  lemma {:induction false} QuietUntil<E>(trace: Trace<E>, pred: E -> bool, l: Limits, now: real, next: real, j: nat)
    requires InOrder(trace) && now <= next && !Over(Heard(trace, pred, now), l, now)
    requires next <= l.hard
    requires var h := Heard(trace, pred, now); h != [] ==> next <= h[|h| - 1].at + l.idle
    requires DueBy(trace, now) <= j <= |trace| && (j < |trace| ==> next <= trace[j].at)
    requires forall k :: DueBy(trace, now) <= k < j ==> !pred(trace[k].ev)
    ensures forall t: real :: now <= t < next ==> !Over(Heard(trace, pred, t), l, t)
  {
    forall t: real | now <= t < next
      ensures !Over(Heard(trace, pred, t), l, t)
    {
      DueGrows(trace, now, t);
      NoMatchBetween(trace, pred, DueBy(trace, now), DueBy(trace, t));
    }
  }

  function Events<E>(trace: Trace<E>): (r: seq<E>)
    ensures |r| == |trace| && forall i :: 0 <= i < |trace| ==> r[i] == trace[i].ev
  {
    seq(|trace|, i requires 0 <= i < |trace| => trace[i].ev)
  }

  /** What the listener callback and the waiting loop share. */
  class Window<E> {
    var collected: seq<E>
    var full: bool
    var lastMatch: Option<real>
    var delivered: nat

    ghost predicate Saw(trace: Trace<E>, pred: E -> bool, expected: Option<int>)
      reads this
    {
      && delivered <= |trace|
      && var heard := Matching(trace[..delivered], pred);
         && collected == Events(heard)
         && full == Full(heard, Limits(expected, 0.0, 0.0))
         && lastMatch == if heard == [] then None else Some(heard[|heard| - 1].at)
    }

    constructor (trace: Trace<E>, pred: E -> bool, expected: Option<int>)
      ensures Saw(trace, pred, expected) && delivered == 0
    {
      collected, full, lastMatch, delivered := [], false, None, 0;
    }

    /** The listener, called for one arrival. */
    method Callback(trace: Trace<E>, pred: E -> bool, expected: Option<int>)
      requires delivered < |trace| && Saw(trace, pred, expected)
      modifies this
      ensures delivered == old(delivered) + 1 && Saw(trace, pred, expected)
    {
      var a := trace[delivered];
      MatchingSnoc(trace, pred, delivered);
      if pred(a.ev) {
        collected := collected + [a.ev];
        lastMatch := Some(a.at);
        if expected.Some? && |collected| >= expected.value {
          full := true;
        }
      }
      delivered := delivered + 1;
    }

    /** Everything that has arrived by `now`. */
    method CatchUp(trace: Trace<E>, pred: E -> bool, expected: Option<int>, now: real)
      requires InOrder(trace) && Saw(trace, pred, expected) && delivered <= DueBy(trace, now)
      modifies this
      ensures delivered == DueBy(trace, now) && Saw(trace, pred, expected)
    {
      while delivered < |trace| && trace[delivered].at <= now
        invariant delivered <= DueBy(trace, now) && Saw(trace, pred, expected)
      {
        Callback(trace, pred, expected);
      }
    }

    /** The checks at the top of the waiting loop: a reason to stop, or how long to wait at most. */
    method Check(trace: Trace<E>, pred: E -> bool, l: Limits, now: real) returns (reason: Option<Reason>, deadline: real)
      requires Saw(trace, pred, l.expected)
      ensures var heard := Matching(trace[..delivered], pred);
              && (reason.Some? <==> Over(heard, l, now))
              && (reason.Some? ==> reason.value == ReasonFor(heard, l, now))
              && (reason.None? ==> deadline == Deadline(heard, l))
    {
      deadline := l.hard;
      if full {
        return Some(Count), deadline;
      }
      if now >= l.hard {
        return Some(if lastMatch.Some? then MaxTimeout else NoReply), deadline;
      }
      if lastMatch.Some? {
        deadline := RealMin(lastMatch.value + l.idle, l.hard);
        if deadline <= now {
          return Some(Idle), deadline;
        }
      }
      reason := None;
    }

    /** `send_and_collect`: the request is on its way at `sent`, and `max` counts from `start`. */
    method Collect(trace: Trace<E>, pred: E -> bool, expected: Option<int>, idle: real, max: real, start: real, sent: real)
        returns (reason: Reason, end: real)
      requires InOrder(trace) && start <= sent && Saw(trace, pred, expected) && delivered == 0
      modifies this
      ensures EndsAt(trace, pred, Limits(expected, idle, start + max), sent, end)
      ensures collected == Events(Heard(trace, pred, end))
      ensures reason == ReasonFor(Heard(trace, pred, end), Limits(expected, idle, start + max), end)
    {
      var l := Limits(expected, idle, start + max);
      end := sent;
      CatchUp(trace, pred, expected, end);
      while true
        invariant sent <= end && delivered == DueBy(trace, end) && Saw(trace, pred, expected)
        invariant forall t: real :: sent <= t < end ==> !Over(Heard(trace, pred, t), l, t)
        decreases |trace| - delivered, if Over(Heard(trace, pred, end), l, end) then 0 else 1
      {
        var stop, deadline := Check(trace, pred, l, end);
        if stop.Some? {
          return stop.value, end;
        }
        var j := NextMatch(trace, pred, delivered, deadline);
        Woken(trace, pred, l, end, deadline, j);
        end := WakeTime(trace, deadline, j);
        CatchUp(trace, pred, expected, end);
      }
    }
  }

  function RealMin(a: real, b: real): real {
    if a < b then a else b
  }

  /** The first arrival from `start` on that matches or is later than the deadline. */
  method NextMatch<E>(trace: Trace<E>, pred: E -> bool, start: nat, deadline: real) returns (j: nat)
    requires start <= |trace|
    ensures start <= j <= |trace| && forall k :: start <= k < j ==> !pred(trace[k].ev) && trace[k].at <= deadline
    ensures j < |trace| && trace[j].at <= deadline ==> pred(trace[j].ev)
  {
    j := start;
    while j < |trace| && trace[j].at <= deadline && !pred(trace[j].ev)
      invariant start <= j <= |trace|
      invariant forall k :: start <= k < j ==> !pred(trace[k].ev) && trace[k].at <= deadline
    {
      j := j + 1;
    }
  }

  /** How long a quiet wait lasts. */
  function Deadline<E>(heard: Trace<E>, l: Limits): real {
    if heard == [] then l.hard else RealMin(heard[|heard| - 1].at + l.idle, l.hard)
  }

  /** A wait ends with the arrival that notifies it, or at its deadline. */
  function WakeTime<E>(trace: Trace<E>, deadline: real, j: nat): real {
    if j < |trace| && trace[j].at <= deadline then trace[j].at else deadline
  }

  /** Until a wake-up there was no reason to stop, and it delivers a new arrival or reaches a reason to stop. */
  lemma {:induction false} Woken<E>(trace: Trace<E>, pred: E -> bool, l: Limits, now: real, deadline: real, j: nat)
    requires InOrder(trace) && !Over(Heard(trace, pred, now), l, now) && deadline == Deadline(Heard(trace, pred, now), l)
    requires DueBy(trace, now) <= j <= |trace|
    requires forall k :: DueBy(trace, now) <= k < j ==> !pred(trace[k].ev) && trace[k].at <= deadline
    ensures var next := WakeTime(trace, deadline, j);
            && now <= next && DueBy(trace, now) <= DueBy(trace, next)
            && (forall t: real :: now <= t < next ==> !Over(Heard(trace, pred, t), l, t))
            && (DueBy(trace, next) > DueBy(trace, now) || Over(Heard(trace, pred, next), l, next))
  {
    var next := WakeTime(trace, deadline, j);
    assert j < |trace| ==> trace[j].at > now;
    assert now < deadline;
    QuietUntil(trace, pred, l, now, next, j);
    DueGrows(trace, now, next);
  }

  // ---- what an ending means ---------------------------------------------------------------

  lemma {:induction false} MatchingMembers<E>(trace: Trace<E>, pred: E -> bool)
    ensures forall a :: a in Matching(trace, pred) <==> a in trace && pred(a.ev)
    decreases |trace|
  {
    if trace != [] {
      MatchingMembers(trace[..|trace| - 1], pred);
      assert trace == trace[..|trace| - 1] + [trace[|trace| - 1]];
    }
  }

  /** The collected replies are exactly those that pass the predicate and arrived in time. */
  lemma {:induction false} HeardExactly<E>(trace: Trace<E>, pred: E -> bool, t: real, a: Arrival<E>)
    requires InOrder(trace)
    ensures a in Heard(trace, pred, t) <==> a in trace && pred(a.ev) && a.at <= t
  {
    MatchingMembers(trace[..DueBy(trace, t)], pred);
    DueExactly(trace, t, a);
  }

  lemma {:induction false} DueExactly<E>(trace: Trace<E>, t: real, a: Arrival<E>)
    requires InOrder(trace)
    ensures a in trace[..DueBy(trace, t)] <==> a in trace && a.at <= t
  {
    var n := DueBy(trace, t);
    if a in trace && a.at <= t {
      var i :| 0 <= i < |trace| && trace[i] == a;
      assert n < |trace| ==> trace[n].at > t;
      assert i < n;
      assert trace[..n][i] == a;
    }
  }

  /** If the last reply heard by `u` was already in at `t`, nothing was heard in between. */
  lemma {:induction false} NothingSince<E>(trace: Trace<E>, pred: E -> bool, t: real, u: real)
    requires InOrder(trace) && t <= u
    requires var h := Heard(trace, pred, u); h == [] || h[|h| - 1].at <= t
    ensures Heard(trace, pred, t) == Heard(trace, pred, u)
  {
    DueGrows(trace, t, u);
    NothingAfter(trace, pred, t, DueBy(trace, u));
    NoMatchBetween(trace, pred, DueBy(trace, t), DueBy(trace, u));
  }

  lemma {:induction false} NothingAfter<E>(trace: Trace<E>, pred: E -> bool, t: real, n: nat)
    requires InOrder(trace) && DueBy(trace, t) <= n <= |trace|
    requires var h := Matching(trace[..n], pred); h == [] || h[|h| - 1].at <= t
    ensures forall k :: DueBy(trace, t) <= k < n ==> !pred(trace[k].ev)
    decreases n
  {
    if DueBy(trace, t) < n {
      MatchingSnoc(trace, pred, n - 1);
      assert trace[n - 1].at >= trace[DueBy(trace, t)].at > t;
      NothingAfter(trace, pred, t, n - 1);
    }
  }

  /** However the replies arrive, the collector stops by its deadline, or as soon as the request is sent. */
  lemma {:induction false} EndsByDeadline<E>(trace: Trace<E>, pred: E -> bool, l: Limits, sent: real, end: real)
    requires EndsAt(trace, pred, l, sent, end)
    ensures end <= if l.hard < sent then sent else l.hard
  {
    var t := if l.hard < sent then sent else l.hard;
    if t < end {
      assert Over(Heard(trace, pred, t), l, t);
    }
  }

  lemma {:induction false} EndIsUnique<E>(trace: Trace<E>, pred: E -> bool, l: Limits, sent: real, a: real, b: real)
    requires EndsAt(trace, pred, l, sent, a) && EndsAt(trace, pred, l, sent, b)
    ensures a == b
  {
    assert Over(Heard(trace, pred, a), l, a) && Over(Heard(trace, pred, b), l, b);
  }

  /** Every reason is exact: a count stops on the very reply that completes it, a gap one idle time after the last
      reply, and the other two on the deadline. */
  lemma {:induction false} ReasonsAreExact<E>(trace: Trace<E>, pred: E -> bool, l: Limits, sent: real, end: real)
    requires InOrder(trace) && EndsAt(trace, pred, l, sent, end) && sent < end && l.idle >= 0.0
    ensures var heard := Heard(trace, pred, end);
            match ReasonFor(heard, l, end)
            case Count => heard != [] && heard[|heard| - 1].at == end && |heard| >= l.expected.value
            case Idle => heard != [] && heard[|heard| - 1].at + l.idle == end < l.hard
            case MaxTimeout => heard != [] && end == l.hard
            case NoReply => heard == [] && end == l.hard
  {
    EndsByDeadline(trace, pred, l, sent, end);
    var heard := Heard(trace, pred, end);
    if heard != [] && !(end >= l.hard && !Full(heard, l)) {
      var last := heard[|heard| - 1].at;
      HeardExactly(trace, pred, end, heard[|heard| - 1]);
      var t := if Full(heard, l) then last else last + l.idle;
      var from := if t < sent then sent else t;
      if from < end {
        NothingSince(trace, pred, from, end);
        assert Over(Heard(trace, pred, from), l, from);
      }
    }
  }
}
