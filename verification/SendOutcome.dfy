/** Sending over the gateway link: one lock, one shared outcome slot, and a reader that fills it. A step is one
    byte written or one region that holds the lock; a step that needs a lock somebody holds does nothing. */
module SendOutcome {
  import opened Basics
  import FrameReader

  datatype Outcome = Success | Rejected(reason: byte) | Timeout | UsbError

  datatype Phase = Writing | Waiting | Returned

  /** One call: its frame, how much of it was written, and what was ever stored in its slot. */
  datatype Send = Send(frame: seq<byte>, sent: nat, phase: Phase, stored: seq<Outcome>)

  /** Sends are numbered in the order they took the lock. `shared` is the number whose slot is registered;
      `heard` records the outcome events handled so far. */
  datatype Link = Link(sends: seq<Send>, shared: Option<nat>, wire: seq<byte>, heard: seq<Outcome>)

  const EMPTY := Link([], None, [], [])

  datatype Step =
    | Begin(frame: seq<byte>)
    | WriteByte
    | WriteDone
    | WriteFails
    | Event(outcome: Outcome)
    | Wake(id: nat)
    | Expire(id: nat)

  /** The lock is free unless the newest send is still writing: waiting gives the lock up. */
  predicate Free(l: Link) {
    l.sends == [] || !l.sends[|l.sends| - 1].phase.Writing?
  }

  function Last(l: Link): Send
    requires l.sends != []
  {
    l.sends[|l.sends| - 1]
  }

  function SetSend(l: Link, i: nat, s: Send): Link
    requires i < |l.sends|
  {
    l.(sends := l.sends[i := s])
  }

  predicate WaitsAt(l: Link, i: nat) {
    Free(l) && i < |l.sends| && l.sends[i].phase.Waiting?
  }

  function Next(l: Link, step: Step): Link {
    var n := |l.sends|;
    match step
    case Begin(frame) =>
      if !Free(l) then l else l.(sends := l.sends + [Send(frame, 0, Writing, [])], shared := Some(n))
    case WriteByte =>
      if Free(l) || Last(l).sent >= |Last(l).frame| then l
      else SetSend(l, n - 1, Last(l).(sent := Last(l).sent + 1)).(wire := l.wire + [Last(l).frame[Last(l).sent]])
    case WriteDone =>
      if Free(l) || Last(l).sent < |Last(l).frame| then l else SetSend(l, n - 1, Last(l).(phase := Waiting))
    case WriteFails =>
      if Free(l) then l
      else SetSend(l, n - 1, Last(l).(phase := Returned, stored := Last(l).stored + [UsbError])).(shared := None)
    case Event(outcome) =>
      if !Free(l) then l else Fulfill(l, outcome).(heard := l.heard + [outcome])
    case Wake(i) =>
      if !WaitsAt(l, i) || l.sends[i].stored == [] then l
      else SetSend(l, i, l.sends[i].(phase := Returned)).(shared := None)
    case Expire(i) =>
      if !WaitsAt(l, i) || l.sends[i].stored != [] then l
      else SetSend(l, i, l.sends[i].(phase := Returned, stored := [Timeout])).(shared := None)
  }

  /** Fill the registered slot unless it is already filled; without one, drop the outcome. */
  function Fulfill(l: Link, outcome: Outcome): Link {
    if l.shared.None? || l.shared.value >= |l.sends| || l.sends[l.shared.value].stored != [] then l
    else SetSend(l, l.shared.value, l.sends[l.shared.value].(stored := [outcome]))
  }

  function Run(l: Link, steps: seq<Step>): Link
    decreases |steps|
  {
    if steps == [] then l else Run(Next(l, steps[0]), steps[1..])
  }

  lemma {:induction false} RunConcat(l: Link, a: seq<Step>, b: seq<Step>)
    ensures Run(l, a + b) == Run(Run(l, a), b)
    decreases |a|
  {
    if a == [] {
      assert a + b == b;
    } else {
      assert (a + b)[1..] == a[1..] + b;
      RunConcat(Next(l, a[0]), a[1..], b);
    }
  }

  // ---- what every run keeps --------------------------------------------------------------

  predicate SoundSend(s: Send) {
    && s.sent <= |s.frame|
    && |s.stored| <= 1
    && (s.phase.Writing? ==> s.stored == [])
    && (s.phase.Returned? ==> s.stored != [])
    && (s.sent < |s.frame| ==> s.phase.Writing? || s.stored == [UsbError])
  }

  /** What a call put on the wire. */
  function Sent(s: Send): seq<byte> {
    s.frame[..Min(s.sent, |s.frame|)]
  }

  function Written(sends: seq<Send>): (r: seq<seq<byte>>)
    ensures |r| == |sends| && forall i :: 0 <= i < |sends| ==> r[i] == Sent(sends[i])
  {
    seq(|sends|, i requires 0 <= i < |sends| => Sent(sends[i]))
  }

  /** Only the newest send can be writing or registered, and every slot is filled at most once. */
  ghost predicate Orderly(sends: seq<Send>, shared: Option<nat>) {
    var n := |sends| - 1;
    && (forall i :: 0 <= i <= n ==> SoundSend(sends[i]))
    && (forall i :: 0 <= i < n ==> !sends[i].phase.Writing?)
    && (shared.Some? ==> shared.value == n && !sends[n].phase.Returned?)
    && (n >= 0 && sends[n].phase.Writing? ==> shared.Some?)
  }

  /** The wire carries the frames one after the other in lock order, each whole unless its own write failed. */
  predicate Wired(l: Link) {
    l.wire == Concat(Written(l.sends))
  }

  ghost predicate Inv(l: Link) {
    Orderly(l.sends, l.shared) && Wired(l)
  }

  /** A slot goes from empty to one outcome, and frames never change. */
  ghost predicate OnlyFills(l: Link, k: Link) {
    && |l.sends| <= |k.sends|
    && forall i :: 0 <= i < |l.sends| ==> l.sends[i].frame == k.sends[i].frame && l.sends[i].stored <= k.sends[i].stored
  }

  lemma {:induction false} SameWritten(a: seq<Send>, b: seq<Send>)
    requires |a| == |b| && forall i :: 0 <= i < |a| ==> Sent(a[i]) == Sent(b[i])
    ensures Written(a) == Written(b)
  {
    assert forall i :: 0 <= i < |a| ==> Written(a)[i] == Written(b)[i];
  }

  lemma {:induction false} GrowLast(sends: seq<Send>, grown: Send, x: seq<byte>)
    requires sends != [] && Sent(grown) == Sent(sends[|sends| - 1]) + x
    ensures Concat(Written(sends[|sends| - 1 := grown])) == Concat(Written(sends)) + x
  {
    var n := |sends| - 1;
    var front := Written(sends)[..n];
    assert Written(sends) == front + [Sent(sends[n])];
    assert Written(sends[n := grown]) == front + [Sent(grown)];
    ConcatAppend(front, Sent(sends[n]));
    ConcatAppend(front, Sent(grown));
  }

  lemma {:induction false} NothingWritten(sends: seq<Send>, s: Send)
    requires s.sent == 0
    ensures Concat(Written(sends + [s])) == Concat(Written(sends))
  {
    assert Sent(s) == [];
    assert Written(sends + [s]) == Written(sends) + [Sent(s)];
    ConcatAppend(Written(sends), Sent(s));
  }

  lemma {:induction false} ByteWritten(sends: seq<Send>, s: Send)
    requires sends != [] && s == sends[|sends| - 1] && s.sent < |s.frame|
    ensures Concat(Written(sends[|sends| - 1 := s.(sent := s.sent + 1)])) == Concat(Written(sends)) + [s.frame[s.sent]]
  {
    assert s.frame[..s.sent + 1] == s.frame[..s.sent] + [s.frame[s.sent]];
    GrowLast(sends, s.(sent := s.sent + 1), [s.frame[s.sent]]);
  }

  /** One call changes without writing; everything stays in order. */
  lemma {:induction false} SetOrderly(sends: seq<Send>, i: nat, s: Send, before: Option<nat>, after: Option<nat>)
    requires Orderly(sends, before) && i < |sends| && SoundSend(s) && !s.phase.Writing?
    requires i == |sends| - 1 || !sends[|sends| - 1].phase.Writing?
    requires after.None? || (after == before && !s.phase.Returned?)
    ensures Orderly(sends[i := s], after)
  {
  }

  lemma {:induction false} OrderlyStep(l: Link, step: Step)
    requires Orderly(l.sends, l.shared)
    ensures var k := Next(l, step); Orderly(k.sends, k.shared) && OnlyFills(l, k)
  {
    match step
    case Begin(_) =>
    case WriteByte =>
    case WriteDone =>
    case WriteFails => FailOrderly(l);
    case Event(outcome) => EventOrderly(l, outcome);
    case Wake(i) => WakeOrderly(l, i);
    case Expire(i) => ExpireOrderly(l, i);
  }

  lemma {:induction false} FailOrderly(l: Link)
    requires Orderly(l.sends, l.shared)
    ensures var k := Next(l, WriteFails); Orderly(k.sends, k.shared) && OnlyFills(l, k)
  {
    if !Free(l) {
      var s := Last(l);
      SetOrderly(l.sends, |l.sends| - 1, s.(phase := Returned, stored := s.stored + [UsbError]), l.shared, None);
    }
  }

  lemma {:induction false} EventOrderly(l: Link, outcome: Outcome)
    requires Orderly(l.sends, l.shared)
    ensures var k := Next(l, Event(outcome)); Orderly(k.sends, k.shared) && OnlyFills(l, k)
  {
    if Free(l) && l.shared.Some? && Last(l).stored == [] {
      SetOrderly(l.sends, |l.sends| - 1, Last(l).(stored := [outcome]), l.shared, l.shared);
    }
  }

  lemma {:induction false} WakeOrderly(l: Link, i: nat)
    requires Orderly(l.sends, l.shared)
    ensures var k := Next(l, Wake(i)); Orderly(k.sends, k.shared) && OnlyFills(l, k)
  {
    if WaitsAt(l, i) && l.sends[i].stored != [] {
      SetOrderly(l.sends, i, l.sends[i].(phase := Returned), l.shared, None);
    }
  }

  lemma {:induction false} ExpireOrderly(l: Link, i: nat)
    requires Orderly(l.sends, l.shared)
    ensures var k := Next(l, Expire(i)); Orderly(k.sends, k.shared) && OnlyFills(l, k)
  {
    if WaitsAt(l, i) && l.sends[i].stored == [] {
      SetOrderly(l.sends, i, l.sends[i].(phase := Returned, stored := [Timeout]), l.shared, None);
    }
  }

  lemma {:induction false} OnlyFrames(l: Link, step: Step)
    requires !step.Begin? && !step.WriteByte?
    ensures var k := Next(l, step);
            k.wire == l.wire && |k.sends| == |l.sends| && forall i :: 0 <= i < |l.sends| ==> Sent(k.sends[i]) == Sent(l.sends[i])
  {
  }

  lemma {:induction false} WiredStep(l: Link, step: Step)
    requires Orderly(l.sends, l.shared) && Wired(l)
    ensures Wired(Next(l, step))
  {
    match step
    case Begin(frame) => NothingWritten(l.sends, Send(frame, 0, Writing, []));
    case WriteByte =>
      if !Free(l) && Last(l).sent < |Last(l).frame| {
        ByteWritten(l.sends, Last(l));
      }
    case _ =>
      OnlyFrames(l, step);
      SameWritten(l.sends, Next(l, step).sends);
  }

  lemma {:induction false} StepKeeps(l: Link, step: Step)
    requires Inv(l)
    ensures Inv(Next(l, step)) && OnlyFills(l, Next(l, step))
  {
    OrderlyStep(l, step);
    WiredStep(l, step);
  }

  /** Over every run, from any interleaving of any number of senders with the reader. */
  lemma {:induction false} RunKeeps(l: Link, steps: seq<Step>)
    requires Inv(l)
    ensures Inv(Run(l, steps)) && OnlyFills(l, Run(l, steps))
    decreases |steps|
  {
    if steps != [] {
      StepKeeps(l, steps[0]);
      RunKeeps(Next(l, steps[0]), steps[1..]);
    }
  }

  function FramesOf(sends: seq<Send>): (r: seq<seq<byte>>)
    ensures |r| == |sends| && forall i :: 0 <= i < |sends| ==> r[i] == sends[i].frame
  {
    seq(|sends|, i requires 0 <= i < |sends| => sends[i].frame)
  }

  /** When nobody is writing and no write failed, the wire is exactly the frames in lock order. */
  lemma {:induction false} FramesAreWhole(steps: seq<Step>)
    ensures var l := Run(EMPTY, steps);
            Free(l) && (forall i :: 0 <= i < |l.sends| ==> l.sends[i].stored != [UsbError])
            ==> l.wire == Concat(FramesOf(l.sends))
  {
    assert Inv(EMPTY);
    RunKeeps(EMPTY, steps);
    var l := Run(EMPTY, steps);
    if Free(l) && forall i :: 0 <= i < |l.sends| ==> l.sends[i].stored != [UsbError] {
      forall i | 0 <= i < |l.sends|
        ensures Written(l.sends)[i] == FramesOf(l.sends)[i]
      {
        assert SoundSend(l.sends[i]);
        assert l.sends[i].frame[..|l.sends[i].frame|] == l.sends[i].frame;
      }
      assert Written(l.sends) == FramesOf(l.sends);
    }
  }

  datatype Message = Message(typeFull: byte, receiver: seq<byte>, body: seq<byte>)

  ghost predicate Carries(frames: seq<seq<byte>>, messages: seq<Message>) {
    |frames| == |messages|
    && forall i :: 0 <= i < |frames| ==>
         FrameReader.HostFrame(messages[i].typeFull, messages[i].receiver, messages[i].body) == Ok(frames[i])
  }

  function PayloadsOf(messages: seq<Message>): seq<seq<byte>> {
    if messages == [] then []
    else [[messages[0].typeFull] + messages[0].receiver + messages[0].body] + PayloadsOf(messages[1..])
  }

  lemma {:induction false} WireReads(s: FrameReader.State, frames: seq<seq<byte>>, messages: seq<Message>)
    requires !s.inFrame && Carries(frames, messages)
    ensures FrameReader.Frames(s, Concat(frames)) == PayloadsOf(messages)
    decreases |frames|
  {
    if frames != [] {
      var m := messages[0];
      FrameReader.HostFrameReads(s, m.typeFull, m.receiver, m.body);
      FrameReader.Splits(s, frames[0], Concat(frames[1..]));
      forall i | 0 <= i < |frames[1..]|
        ensures FrameReader.HostFrame(messages[1..][i].typeFull, messages[1..][i].receiver, messages[1..][i].body) == Ok(frames[1..][i])
      {
        assert messages[1..][i] == messages[i + 1] && frames[1..][i] == frames[i + 1];
      }
      WireReads(FrameReader.After(s, frames[0]), frames[1..], messages[1..]);
    }
  }

  /** Any interleaving of sends without a failed write: a peer that reads the wire by the same framing gets every
      message, once, in lock order. */
  lemma {:induction false} WireDecodes(steps: seq<Step>, messages: seq<Message>)
    requires var l := Run(EMPTY, steps);
             Free(l) && (forall i :: 0 <= i < |l.sends| ==> l.sends[i].stored != [UsbError]) && Carries(FramesOf(l.sends), messages)
    ensures FrameReader.Frames(FrameReader.START, Run(EMPTY, steps).wire) == PayloadsOf(messages)
  {
    FramesAreWhole(steps);
    WireReads(FrameReader.START, FramesOf(Run(EMPTY, steps).sends), messages);
  }

  /** An outcome only ever reaches the newest send, whoever it was meant for. */
  lemma {:induction false} OutcomeGoesToNewest(l: Link, outcome: Outcome, i: nat)
    requires Inv(l) && i < |l.sends| && Next(l, Event(outcome)).sends[i] != l.sends[i]
    ensures i == |l.sends| - 1 && l.shared == Some(i) && l.sends[i].stored == []
    ensures Next(l, Event(outcome)).sends[i].stored == [outcome]
  {
  }

  // ---- one sender at a time -----------------------------------------------------------------

  predicate AllReturned(l: Link) {
    forall i :: 0 <= i < |l.sends| ==> l.sends[i].phase.Returned?
  }

  /** Nobody sends while an earlier send is still out. */
  predicate OneAtATime(l: Link, steps: seq<Step>)
    decreases |steps|
  {
    steps == [] || ((steps[0].Begin? ==> AllReturned(l)) && OneAtATime(Next(l, steps[0]), steps[1..]))
  }

  ghost predicate SingleInv(l: Link) {
    && Orderly(l.sends, l.shared)
    && (forall i :: 0 <= i < |l.sends| - 1 ==> l.sends[i].phase.Returned?)
    && (l.shared.Some? <==> l.sends != [] && !Last(l).phase.Returned?)
  }

  lemma {:induction false} SingleStep(l: Link, step: Step)
    requires SingleInv(l) && (step.Begin? ==> AllReturned(l))
    ensures SingleInv(Next(l, step))
  {
    OrderlyStep(l, step);
    OlderStay(l, step);
    SharedStays(l, step);
  }

  lemma {:induction false} OlderStay(l: Link, step: Step)
    requires SingleInv(l) && (step.Begin? ==> AllReturned(l))
    ensures var k := Next(l, step); forall i :: 0 <= i < |k.sends| - 1 ==> k.sends[i].phase.Returned?
  {
  }

  lemma {:induction false} SharedStays(l: Link, step: Step)
    requires SingleInv(l) && (step.Begin? ==> AllReturned(l))
    ensures var k := Next(l, step); k.shared.Some? <==> k.sends != [] && !Last(k).phase.Returned?
  {
  }

  /** With one sender at a time the slot is registered exactly while that sender is out. */
  lemma {:induction false} SharedIffOut(l: Link, steps: seq<Step>)
    requires SingleInv(l) && OneAtATime(l, steps)
    ensures var k := Run(l, steps);
            SingleInv(k)
            && (k.shared.Some? <==> exists i :: 0 <= i < |k.sends| && !k.sends[i].phase.Returned?)
            && (k.shared.Some? ==> !k.sends[k.shared.value].phase.Returned?)
    decreases |steps|
  {
    if steps == [] {
      if l.shared.Some? {
        assert !l.sends[|l.sends| - 1].phase.Returned?;
      }
    } else {
      SingleStep(l, steps[0]);
      SharedIffOut(Next(l, steps[0]), steps[1..]);
    }
  }

  /** How many frames the gateway has received. */
  function Delivered(l: Link): nat {
    if Free(l) then |l.sends| else |l.sends| - 1
  }

  /** No write fails, and the gateway answers every frame it receives once, in order and in time: its next answer is
      for the first frame it has not answered, and no wait expires before its frame was answered. */
  predicate InTime(l: Link, steps: seq<Step>)
    decreases |steps|
  {
    steps == [] || (Timely(l, steps[0]) && InTime(Next(l, steps[0]), steps[1..]))
  }

  predicate Timely(l: Link, step: Step) {
    match step
    case WriteFails => false
    case Expire(id) => id < |l.heard|
    case Event(_) => Free(l) && |l.heard| < Delivered(l)
    case _ => true
  }

  predicate Holds(s: Send, heard: seq<Outcome>, i: nat) {
    s.stored == if i < |heard| then [heard[i]] else []
  }

  /** From the n-th call on, the k-th answer heard is what the k-th slot holds; the calls before it are over and
      their frames answered, whatever they returned. */
  ghost predicate PairedFrom(l: Link, n: nat) {
    && SingleInv(l)
    && |l.sends| - 1 <= |l.heard| <= |l.sends|
    && n <= |l.heard|
    && (forall i :: 0 <= i < n ==> l.sends[i].phase.Returned?)
    && forall i :: n <= i < |l.sends| ==> Holds(l.sends[i], l.heard, i)
  }

  ghost predicate Paired(l: Link) {
    PairedFrom(l, 0)
  }

  lemma {:induction false} PairedBegin(l: Link, frame: seq<byte>, n: nat)
    requires PairedFrom(l, n) && AllReturned(l)
    ensures PairedFrom(Next(l, Begin(frame)), n)
  {
    SingleStep(l, Begin(frame));
    if |l.sends| > n {
      assert Holds(Last(l), l.heard, |l.sends| - 1) && SoundSend(Last(l));
    }
  }

  lemma {:induction false} PairedEvent(l: Link, outcome: Outcome, n: nat)
    requires PairedFrom(l, n) && Free(l) && |l.heard| < |l.sends|
    ensures PairedFrom(Next(l, Event(outcome)), n)
  {
    SingleStep(l, Event(outcome));
    var last, k := |l.sends| - 1, Next(l, Event(outcome));
    assert Holds(l.sends[last], l.heard, last) && SoundSend(l.sends[last]);
    forall i | n <= i < |k.sends|
      ensures Holds(k.sends[i], k.heard, i)
    {
      assert Holds(l.sends[i], l.heard, i);
    }
  }

  /** A step that neither begins a call nor hears an outcome. */
  lemma {:induction false} PairedRest(l: Link, step: Step, n: nat)
    requires PairedFrom(l, n) && (step.WriteByte? || step.WriteDone? || step.Wake?)
    ensures PairedFrom(Next(l, step), n)
  {
    SingleStep(l, step);
    StoresNothing(l, step);
    ReturnedStays(l, step);
    var k := Next(l, step);
    forall i | n <= i < |k.sends|
      ensures Holds(k.sends[i], k.heard, i)
    {
      assert Holds(l.sends[i], l.heard, i);
    }
  }

  lemma {:induction false} ReturnedStays(l: Link, step: Step)
    requires Orderly(l.sends, l.shared)
    ensures var k := Next(l, step);
            |l.sends| <= |k.sends| && forall i :: 0 <= i < |l.sends| && l.sends[i].phase.Returned? ==>
              k.sends[i].phase.Returned? && k.sends[i].stored == l.sends[i].stored
  {
    OrderlyStep(l, step);
    forall i | 0 <= i < |l.sends| && l.sends[i].phase.Returned?
      ensures SoundSend(l.sends[i])
    {
    }
  }

  /** With one sender at a time a wait whose frame was answered cannot expire. */
  lemma {:induction false} PairedExpire(l: Link, id: nat, n: nat)
    requires PairedFrom(l, n) && id < |l.heard|
    ensures Next(l, Expire(id)) == l
  {
    if n <= id < |l.sends| {
      assert Holds(l.sends[id], l.heard, id);
    }
  }

  lemma {:induction false} StoresNothing(l: Link, step: Step)
    requires step.WriteByte? || step.WriteDone? || step.Wake?
    ensures var k := Next(l, step);
            k.heard == l.heard && |k.sends| == |l.sends| && forall i :: 0 <= i < |l.sends| ==> k.sends[i].stored == l.sends[i].stored
  {
  }

  /** Every call from the n-th on that has returned returned the answer to its own frame. */
  predicate RightFrom(l: Link, n: nat) {
    forall i :: n <= i < |l.sends| && l.sends[i].phase.Returned? ==> i < |l.heard| && l.sends[i].stored == [l.heard[i]]
  }

  predicate Right(l: Link) {
    RightFrom(l, 0)
  }

  lemma {:induction false} PairedIsRight(l: Link, n: nat)
    requires PairedFrom(l, n)
    ensures RightFrom(l, n)
  {
    forall i | n <= i < |l.sends| && l.sends[i].phase.Returned?
      ensures i < |l.heard| && l.sends[i].stored == [l.heard[i]]
    {
      assert Holds(l.sends[i], l.heard, i) && SoundSend(l.sends[i]);
    }
  }

  lemma {:induction false} PairedStep(l: Link, step: Step, n: nat)
    requires PairedFrom(l, n) && (step.Begin? ==> AllReturned(l)) && Timely(l, step)
    ensures PairedFrom(Next(l, step), n)
  {
    match step
    case Begin(frame) => PairedBegin(l, frame, n);
    case Event(outcome) => PairedEvent(l, outcome, n);
    case WriteByte => PairedRest(l, WriteByte, n);
    case WriteDone => PairedRest(l, WriteDone, n);
    case Wake(id) => PairedRest(l, Wake(id), n);
    case Expire(id) => PairedExpire(l, id, n);
  }

  lemma {:induction false} StaysPaired(l: Link, steps: seq<Step>, n: nat)
    requires PairedFrom(l, n) && OneAtATime(l, steps) && InTime(l, steps)
    ensures PairedFrom(Run(l, steps), n) && RightFrom(Run(l, steps), n)
    decreases |steps|
  {
    if steps == [] {
      PairedIsRight(l, n);
    } else {
      PairedStep(l, steps[0], n);
      StaysPaired(Next(l, steps[0]), steps[1..], n);
    }
  }

  /** If nobody sends while an earlier send is out, and the gateway answers every frame once, in order and in time,
      the k-th call returns the answer to the k-th frame. */
  lemma {:induction false} AnswersReachTheirSenders(l: Link, steps: seq<Step>)
    requires Paired(l) && OneAtATime(l, steps) && InTime(l, steps)
    ensures Paired(Run(l, steps)) && Right(Run(l, steps))
  {
    StaysPaired(l, steps, 0);
  }

  // ---- one sender, late answers -----------------------------------------------------------------

  /** No write fails and the gateway answers every frame once and in order, however late; what it sends is never the
      timeout that the host makes up itself. */
  predicate Answering(l: Link, steps: seq<Step>)
    decreases |steps|
  {
    steps == [] || (Answers(l, steps[0]) && Answering(Next(l, steps[0]), steps[1..]))
  }

  predicate Answers(l: Link, step: Step) {
    match step
    case WriteFails => false
    case Event(outcome) => !outcome.Timeout? && Free(l) && |l.heard| < Delivered(l)
    case _ => true
  }

  /** The step ends a wait that has no outcome. */
  predicate Expires(l: Link, step: Step) {
    step.Expire? && WaitsAt(l, step.id) && l.sends[step.id].stored == []
  }

  predicate NoneExpires(l: Link, steps: seq<Step>)
    decreases |steps|
  {
    steps == [] || (!Expires(l, steps[0]) && NoneExpires(Next(l, steps[0]), steps[1..]))
  }

  /** Over every run of one sender at a time: each call returns its own answer if and only if no wait expires before
      its frame was answered. */
  lemma {:induction false} OneSenderRightIff(l: Link, steps: seq<Step>)
    requires Paired(l) && OneAtATime(l, steps) && Answering(l, steps)
    ensures Right(Run(l, steps)) <==> NoneExpires(l, steps)
    decreases |steps|
  {
    if steps == [] {
      PairedIsRight(l, 0);
    } else if Expires(l, steps[0]) {
      ExpiryOwes(l, steps[0].id);
      TimeoutStays(Next(l, steps[0]), steps[1..], steps[0].id);
    } else {
      UnexpiredStep(l, steps[0]);
      OneSenderRightIff(Next(l, steps[0]), steps[1..]);
    }
  }

  lemma {:induction false} UnexpiredStep(l: Link, step: Step)
    requires Paired(l) && (step.Begin? ==> AllReturned(l)) && Answers(l, step) && !Expires(l, step)
    ensures Paired(Next(l, step))
  {
    if !step.Expire? {
      PairedStep(l, step, 0);
    }
  }

  /** A wait that expires leaves its answer owed. */
  lemma {:induction false} ExpiryOwes(l: Link, id: nat)
    requires Paired(l) && Expires(l, Expire(id))
    ensures var k := Next(l, Expire(id));
            && SingleInv(k) && AllReturned(k) && id == |k.heard| == |k.sends| - 1 && k.sends[id].stored == [Timeout]
  {
    SingleStep(l, Expire(id));
    assert Holds(l.sends[id], l.heard, id);
  }

  /** A call that gave up with nothing stays that way, and its frame's answer comes too late for it. */
  lemma {:induction false} TimeoutStays(l: Link, steps: seq<Step>, id: nat)
    requires Orderly(l.sends, l.shared) && Answering(l, steps)
    requires id < |l.sends| && l.sends[id].phase.Returned? && l.sends[id].stored == [Timeout]
    requires id < |l.heard| ==> !l.heard[id].Timeout?
    ensures !Right(Run(l, steps))
    decreases |steps|
  {
    if steps != [] {
      OrderlyStep(l, steps[0]);
      ReturnedStays(l, steps[0]);
      HeardGrows(l, steps[0]);
      TimeoutStays(Next(l, steps[0]), steps[1..], id);
    }
  }

  lemma {:induction false} HeardGrows(l: Link, step: Step)
    requires Answers(l, step)
    ensures var k := Next(l, step);
            k.heard == l.heard || (|k.heard| == |l.heard| + 1 && k.heard[..|l.heard|] == l.heard && !k.heard[|l.heard|].Timeout?)
  {
  }

  /** How things may go on over a gateway that is in order and in time from here on, with one sender at a time. */
  ghost predicate GoesOnAlone(l: Link, steps: seq<Step>) {
    OneAtATime(l, steps) && InTime(l, steps)
  }

  /** Every later call returns its own answer, however things go on. */
  ghost predicate LaterCallsSafe(l: Link) {
    forall steps: seq<Step> :: GoesOnAlone(l, steps) ==> RightFrom(Run(l, steps), |l.sends|)
  }

  /** Between two calls of one sender, every later call is safe if and only if no answer is owed: what a wait that
      expired was waiting for goes to the next call that registers. */
  lemma {:induction false} LaterCallsSafeIff(l: Link)
    requires SingleInv(l) && AllReturned(l) && |l.heard| <= |l.sends|
    ensures LaterCallsSafe(l) <==> |l.heard| == |l.sends|
  {
    if |l.heard| == |l.sends| {
      forall steps: seq<Step> | GoesOnAlone(l, steps)
        ensures RightFrom(Run(l, steps), |l.sends|)
      {
        StaysPaired(l, steps, |l.sends|);
      }
    } else {
      var steps := LateAnswerGoesToNext(l, [], Success);
      assert GoesOnAlone(l, steps);
    }
  }

  /** Such a run: the next call sends, the owed answer arrives, and the call returns it as its own. */
  lemma {:induction false} LateAnswerGoesToNext(l: Link, g: seq<byte>, late: Outcome) returns (steps: seq<Step>)
    requires SingleInv(l) && AllReturned(l) && |l.heard| < |l.sends|
    ensures GoesOnAlone(l, steps)
    ensures var k := Run(l, steps);
            && k.sends == l.sends + [Send(g, |g|, Returned, [late])] && k.heard == l.heard + [late]
            && !RightFrom(k, |l.sends|)
  {
    var n, k := |l.sends|, Registered(l, g);
    var tail := [Event(late), Wake(n)];
    LastSteps(k, Event(late), Wake(n));
    steps := Bytes(|g|) + [WriteDone] + tail;
    AfterSending(l, g, tail);
    NoBeginIsOneAtATime(Next(l, Begin(g)), steps);
    steps := [Begin(g)] + steps;
    assert steps[1..] == Bytes(|g|) + [WriteDone] + tail;
    assert Run(l, steps).sends[n] == Send(g, |g|, Returned, [late]);
  }

  // ---- two senders ---------------------------------------------------------------------------

  function Bytes(n: nat): seq<Step> {
    if n == 0 then [] else [WriteByte] + Bytes(n - 1)
  }

  /** The whole first region of a call: take the lock, register, write, start to wait. */
  function Sending(frame: seq<byte>): seq<Step> {
    [Begin(frame)] + (Bytes(|frame|) + [WriteDone])
  }

  function Registered(l: Link, frame: seq<byte>): Link {
    Link(l.sends + [Send(frame, |frame|, Waiting, [])], Some(|l.sends|), l.wire + frame, l.heard)
  }

  lemma {:induction false} WriteOut(l: Link, n: nat)
    requires !Free(l) && Last(l).sent + n <= |Last(l).frame|
    ensures var s := Last(l);
            Run(l, Bytes(n)) == SetSend(l, |l.sends| - 1, s.(sent := s.sent + n)).(wire := l.wire + s.frame[s.sent..s.sent + n])
    decreases n
  {
    var s := Last(l);
    if n == 0 {
      assert l.sends[|l.sends| - 1 := s] == l.sends;
      assert l.wire + s.frame[s.sent..s.sent] == l.wire;
    } else {
      var k := Next(l, WriteByte);
      ConsStep(l, WriteByte, Bytes(n - 1));
      WriteOut(k, n - 1);
      OneByteMore(l, n);
    }
  }

  lemma {:induction false} OneByteMore(l: Link, n: nat)
    requires !Free(l) && 1 <= n && Last(l).sent + n <= |Last(l).frame|
    ensures var s, k := Last(l), Next(l, WriteByte);
            && !Free(k) && Last(k) == s.(sent := s.sent + 1) && k.shared == l.shared && k.heard == l.heard
            && k.sends[|l.sends| - 1 := s.(sent := s.sent + n)] == l.sends[|l.sends| - 1 := s.(sent := s.sent + n)]
            && k.wire + s.frame[s.sent + 1..s.sent + n] == l.wire + s.frame[s.sent..s.sent + n]
  {
  }

  lemma {:induction false} SendingEffect(l: Link, frame: seq<byte>)
    requires Free(l)
    ensures Run(l, Sending(frame)) == Registered(l, frame)
  {
    var k := Next(l, Begin(frame));
    assert Sending(frame)[1..] == Bytes(|frame|) + [WriteDone];
    RunConcat(k, Bytes(|frame|), [WriteDone]);
    WriteOut(k, |frame|);
    assert frame[0..|frame|] == frame;
    var w := Run(k, Bytes(|frame|));
    assert [WriteDone][1..] == [];
    assert Run(w, [WriteDone]) == Next(w, WriteDone);
    assert Next(w, WriteDone).sends == Registered(l, frame).sends;
  }

  lemma {:induction false} LastSteps(l: Link, a: Step, b: Step)
    ensures Run(l, [a, b]) == Next(Next(l, a), b)
    ensures InTime(l, [a, b]) <==> Timely(l, a) && Timely(Next(l, a), b)
  {
    assert [a, b] == [a] + ([b] + []);
    ConsStep(l, a, [b] + []);
    ConsStep(Next(l, a), b, []);
  }

  /** Waiting releases the lock, so a second sender can register over the first. The gateway answers both frames
      once and in order, yet the second call returns the first frame's answer and the first call times out. */
  lemma {:induction false} TwoSendersCross(f: seq<byte>, g: seq<byte>, answerF: Outcome, answerG: Outcome)
    ensures var l := Run(EMPTY, Sending(f) + (Sending(g) + ([Event(answerF), Event(answerG)] + [Wake(1), Expire(0)])));
            && l.heard == [answerF, answerG]
            && l.sends == [Send(f, |f|, Returned, [Timeout]), Send(g, |g|, Returned, [answerF])]
  {
    var x, y := [Event(answerF), Event(answerG)], [Wake(1), Expire(0)];
    BothSending(f, g, x + y);
    CrossedEnd(f, g, answerF, answerG);
  }

  /** Two sends out at once. */
  function BothOut(f: seq<byte>, g: seq<byte>): Link {
    Link([Send(f, |f|, Waiting, []), Send(g, |g|, Waiting, [])], Some(1), f + g, [])
  }

  lemma {:induction false} BothSending(f: seq<byte>, g: seq<byte>, rest: seq<Step>)
    ensures Run(EMPTY, Sending(f) + (Sending(g) + rest)) == Run(BothOut(f, g), rest)
  {
    RunConcat(EMPTY, Sending(f), Sending(g) + rest);
    SendingEffect(EMPTY, f);
    var a := Registered(EMPTY, f);
    RunConcat(a, Sending(g), rest);
    SendingEffect(a, g);
    assert [] + f == f;
    assert Registered(a, g) == BothOut(f, g);
  }

  lemma {:induction false} CrossedEnd(f: seq<byte>, g: seq<byte>, answerF: Outcome, answerG: Outcome)
    ensures var l := Run(BothOut(f, g), [Event(answerF), Event(answerG)] + [Wake(1), Expire(0)]);
            && l.heard == [answerF, answerG]
            && l.sends == [Send(f, |f|, Returned, [Timeout]), Send(g, |g|, Returned, [answerF])]
  {
    var b, x, y := BothOut(f, g), [Event(answerF), Event(answerG)], [Wake(1), Expire(0)];
    RunConcat(b, x, y);
    LastSteps(b, x[0], x[1]);
    LastSteps(Run(b, x), y[0], y[1]);
  }

  /** The first call's timeout clears the slot the second call registered, so the second frame's answer is lost. */
  lemma {:induction false} TimeoutClearsAnother(f: seq<byte>, g: seq<byte>, answerG: Outcome)
    ensures var l := Run(EMPTY, Sending(f) + (Sending(g) + ([Expire(0), Event(answerG)] + [Wake(1), Expire(1)])));
            l.heard == [answerG] && |l.sends| == 2 && l.sends[1].stored == [Timeout]
  {
    var x, y := [Expire(0), Event(answerG)], [Wake(1), Expire(1)];
    BothSending(f, g, x + y);
    LostEnd(f, g, answerG);
  }

  lemma {:induction false} LostEnd(f: seq<byte>, g: seq<byte>, answerG: Outcome)
    ensures var l := Run(BothOut(f, g), [Expire(0), Event(answerG)] + [Wake(1), Expire(1)]);
            l.heard == [answerG] && |l.sends| == 2 && l.sends[1].stored == [Timeout]
  {
    var b, x, y := BothOut(f, g), [Expire(0), Event(answerG)], [Wake(1), Expire(1)];
    RunConcat(b, x, y);
    LastSteps(b, x[0], x[1]);
    LastSteps(Run(b, x), y[0], y[1]);
  }

  // ---- exactly when it is right -----------------------------------------------------------------

  predicate NoBegin(steps: seq<Step>) {
    forall i :: 0 <= i < |steps| ==> !steps[i].Begin?
  }

  /** `rest` is how things may go on when a call begins with frame `g`, without a further call, over a gateway that
      answers every frame once, in order and in time. */
  ghost predicate GoesOn(l: Link, g: seq<byte>, rest: seq<Step>) {
    NoBegin(rest) && InTime(l, [Begin(g)] + rest)
  }

  ghost predicate SafeToBegin(l: Link, g: seq<byte>) {
    forall rest: seq<Step> :: GoesOn(l, g, rest) ==> Right(Run(l, [Begin(g)] + rest))
  }

  lemma {:induction false} NoBeginIsOneAtATime(l: Link, steps: seq<Step>)
    requires NoBegin(steps)
    ensures OneAtATime(l, steps)
    decreases |steps|
  {
    if steps != [] {
      NoBeginIsOneAtATime(Next(l, steps[0]), steps[1..]);
    }
  }

  lemma {:induction false} InTimeConcat(l: Link, a: seq<Step>, b: seq<Step>)
    requires InTime(l, a) && InTime(Run(l, a), b)
    ensures InTime(l, a + b)
    decreases |a|
  {
    if a == [] {
      assert a + b == b;
    } else {
      assert (a + b)[1..] == a[1..] + b && (a + b)[0] == a[0];
      InTimeConcat(Next(l, a[0]), a[1..], b);
    }
  }

  /** Writing is never out of time. */
  lemma {:induction false} WritesInTime(l: Link, steps: seq<Step>)
    requires forall i :: 0 <= i < |steps| ==> steps[i].Begin? || steps[i].WriteByte? || steps[i].WriteDone?
    ensures InTime(l, steps)
    decreases |steps|
  {
    if steps != [] {
      WritesInTime(Next(l, steps[0]), steps[1..]);
    }
  }

  lemma {:induction false} AllBytes(n: nat)
    ensures |Bytes(n)| == n && forall i :: 0 <= i < n ==> Bytes(n)[i] == WriteByte
  {
    if n > 0 {
      AllBytes(n - 1);
    }
  }

  lemma {:induction false} ConsStep(l: Link, a: Step, rest: seq<Step>)
    ensures Run(l, [a] + rest) == Run(Next(l, a), rest)
    ensures InTime(l, [a] + rest) <==> Timely(l, a) && InTime(Next(l, a), rest)
  {
    assert ([a] + rest)[1..] == rest && ([a] + rest)[0] == a;
  }

  lemma {:induction false} ThreeSteps(l: Link, a: Step, b: Step, c: Step)
    ensures Run(l, [a, b, c]) == Next(Next(Next(l, a), b), c)
    ensures InTime(l, [a, b, c]) <==> Timely(l, a) && Timely(Next(l, a), b) && Timely(Next(Next(l, a), b), c)
  {
    assert [a, b, c] == [a] + ([b] + ([c] + []));
    ConsStep(l, a, [b] + ([c] + []));
    ConsStep(Next(l, a), b, [c] + []);
    ConsStep(Next(Next(l, a), b), c, []);
  }

  ghost predicate EndsWrong(k: Link, tail: seq<Step>, n: nat) {
    var u := Run(k, tail);
    InTime(k, tail) && AllReturned(u) && |u.heard| == |u.sends| == n && !Right(u)
  }

  /** The overlap in which the first call has not been answered: the second takes the first one's answer. */
  lemma {:induction false} AnswerGoesAstray(l: Link, g: seq<byte>)
    requires Paired(l) && Free(l) && l.sends != [] && Last(l).phase.Waiting? && |l.heard| == |l.sends| - 1
    ensures var n := |l.sends|;
            var tail := [Event(Success)] + [Event(Rejected(0)), Wake(n), Expire(n - 1)];
            EndsWrong(Registered(l, g), tail, n + 1) && NoBegin(tail)
  {
    var n, k := |l.sends|, Registered(l, g);
    assert Holds(l.sends[n - 1], l.heard, n - 1);
    var k1 := Next(k, Event(Success));
    assert k1 == SetSend(k, n, k.sends[n].(stored := [Success])).(heard := l.heard + [Success]);
    var k2 := Next(k1, Event(Rejected(0)));
    assert k2 == k1.(heard := k1.heard + [Rejected(0)]);
    var k3 := Next(k2, Wake(n));
    assert k3.sends[n].phase.Returned? && k3.sends[n].stored == [Success] && k3.sends[n - 1] == l.sends[n - 1];
    var k4 := Next(k3, Expire(n - 1));
    ConsStep(k, Event(Success), [Event(Rejected(0)), Wake(n), Expire(n - 1)]);
    ThreeSteps(k1, Event(Rejected(0)), Wake(n), Expire(n - 1));
    assert k4.heard[n] == Rejected(0) && k4.sends[n].stored == [Success];
  }

  /** The overlap in which the first call has been answered in time: as it returns it clears the second one's
      registration, and the second one's answer finds nobody. */
  lemma {:induction false} WakeClearsAnother(l: Link, g: seq<byte>, answer: Outcome)
    requires Paired(l) && Free(l) && l.sends != [] && Last(l).phase.Waiting? && |l.heard| == |l.sends| && !answer.Timeout?
    ensures var n := |l.sends|;
            var tail, k := [Wake(n - 1), Event(answer), Expire(n)], Registered(l, g);
            && EndsWrong(k, tail, n + 1) && NoBegin(tail)
            && Run(k, tail).heard == l.heard + [answer]
            && Run(k, tail).sends[n - 1].stored == [l.heard[n - 1]] && Run(k, tail).sends[n].stored == [Timeout]
  {
    var n, k := |l.sends|, Registered(l, g);
    WakeFirst(l, g);
    var k1 := Next(k, Wake(n - 1));
    OrphanThenExpire(k1, answer);
    LostAtTheEnd(k1, answer);
    EndsAt(k, Wake(n - 1), Event(answer), Expire(n), Lost(k1, answer), n + 1);
  }

  lemma {:induction false} EndsAt(k: Link, a: Step, b: Step, c: Step, u: Link, n: nat)
    requires Timely(k, a) && Timely(Next(k, a), b) && Timely(Next(Next(k, a), b), c)
    requires Next(Next(Next(k, a), b), c) == u
    requires AllReturned(u) && |u.heard| == |u.sends| == n && !Right(u)
    ensures EndsWrong(k, [a, b, c], n) && Run(k, [a, b, c]) == u
  {
    ThreeSteps(k, a, b, c);
  }

  /** A call that is out without being registered: its answer is dropped, and its wait expires. */
  lemma {:induction false} OrphanThenExpire(k: Link, answer: Outcome)
    requires k.sends != [] && Last(k).phase.Waiting? && Last(k).stored == [] && k.shared.None? && |k.heard| == |k.sends| - 1
    ensures var n := |k.sends| - 1;
            && Timely(k, Event(answer)) && Timely(Next(k, Event(answer)), Expire(n))
            && Next(Next(k, Event(answer)), Expire(n)) == Lost(k, answer)
  {
  }

  function Lost(k: Link, answer: Outcome): Link
    requires k.sends != []
  {
    SetSend(k, |k.sends| - 1, Last(k).(phase := Returned, stored := [Timeout])).(heard := k.heard + [answer])
  }

  lemma {:induction false} LostAtTheEnd(k: Link, answer: Outcome)
    requires k.sends != [] && |k.heard| == |k.sends| - 1 && !answer.Timeout?
    requires forall i :: 0 <= i < |k.sends| - 1 ==> k.sends[i].phase.Returned?
    ensures var u := Lost(k, answer);
            AllReturned(u) && |u.heard| == |u.sends| == |k.sends| && !Right(u)
  {
    var u, n := Lost(k, answer), |k.sends| - 1;
    assert u.heard[n] == answer && u.sends[n].stored == [Timeout];
  }

  /** The first call returns what it heard; the second is out and no longer registered. */
  lemma {:induction false} WakeFirst(l: Link, g: seq<byte>)
    requires Paired(l) && Free(l) && l.sends != [] && Last(l).phase.Waiting? && |l.heard| == |l.sends|
    ensures var n := |l.sends|;
            var k := Next(Registered(l, g), Wake(n - 1));
            && Timely(Registered(l, g), Wake(n - 1))
            && |k.sends| == n + 1 && k.shared.None? && k.heard == l.heard && Last(k) == Send(g, |g|, Waiting, [])
            && k.sends[n - 1].stored == [l.heard[n - 1]] && forall i :: 0 <= i < n ==> k.sends[i].phase.Returned?
  {
    var n := |l.sends|;
    var k := Registered(l, g);
    assert Holds(l.sends[n - 1], l.heard, n - 1);
    RegisteredEntries(l, g);
    assert WaitsAt(k, n - 1) && k.sends[n - 1].stored != [];
    assert Next(k, Wake(n - 1)) == SetSend(k, n - 1, k.sends[n - 1].(phase := Returned)).(shared := None);
  }

  lemma {:induction false} RegisteredEntries(l: Link, g: seq<byte>)
    ensures var k := Registered(l, g);
            Free(k) && Last(k) == Send(g, |g|, Waiting, []) && forall i :: 0 <= i < |l.sends| ==> k.sends[i] == l.sends[i]
  {
  }

  /** Whenever a call begins while another is out, things can go on so that every frame is answered once, in order
      and in time, every call returns, and some call did not return its own answer. */
  lemma {:induction false} OverlapCanGoWrong(l: Link, g: seq<byte>) returns (rest: seq<Step>)
    requires Paired(l) && Free(l) && !AllReturned(l)
    ensures GoesOn(l, g, rest)
    ensures var k := Run(l, [Begin(g)] + rest); AllReturned(k) && |k.heard| == |k.sends| && !Right(k)
  {
    var n := |l.sends|;
    assert Last(l).phase.Waiting?;
    var tail: seq<Step>;
    if |l.heard| == n {
      tail := [Wake(n - 1), Event(Success), Expire(n)];
      WakeClearsAnother(l, g, Success);
    } else {
      tail := [Event(Success)] + [Event(Rejected(0)), Wake(n), Expire(n - 1)];
      AnswerGoesAstray(l, g);
    }
    rest := Bytes(|g|) + [WriteDone] + tail;
    AfterSending(l, g, tail);
  }

  /** What follows once a call is out follows from where it begins. */
  lemma {:induction false} AfterSending(l: Link, g: seq<byte>, tail: seq<Step>)
    requires Free(l) && InTime(Registered(l, g), tail) && NoBegin(tail)
    ensures var rest := Bytes(|g|) + [WriteDone] + tail;
            GoesOn(l, g, rest) && Run(l, [Begin(g)] + rest) == Run(Registered(l, g), tail)
  {
    var rest := Bytes(|g|) + [WriteDone] + tail;
    AllBytes(|g|);
    SendingEffect(l, g);
    WritesInTime(l, Sending(g));
    InTimeConcat(l, Sending(g), tail);
    RunConcat(l, Sending(g), tail);
    assert [Begin(g)] + rest == Sending(g) + tail;
  }

  /** When the lock is free, beginning a call is safe against every such gateway if and only if no other call is
      out. */
  lemma {:induction false} SafeToBeginIff(l: Link, g: seq<byte>)
    requires Paired(l) && Free(l)
    ensures SafeToBegin(l, g) <==> AllReturned(l)
  {
    if AllReturned(l) {
      forall rest: seq<Step> | GoesOn(l, g, rest)
        ensures Right(Run(l, [Begin(g)] + rest))
      {
        var steps := [Begin(g)] + rest;
        assert steps[1..] == rest;
        NoBeginIsOneAtATime(Next(l, Begin(g)), rest);
        AnswersReachTheirSenders(l, steps);
      }
    } else {
      var rest := OverlapCanGoWrong(l, g);
      assert GoesOn(l, g, rest);
    }
  }

  // ---- the transport object -----------------------------------------------------------------------

  /** A write that fails after `cut` bytes. */
  function Failing(frame: seq<byte>, cut: nat): seq<Step> {
    [Begin(frame)] + (Bytes(cut) + [WriteFails])
  }

  function Failed(l: Link, frame: seq<byte>, cut: nat): Link
    requires cut <= |frame|
  {
    Link(l.sends + [Send(frame, cut, Returned, [UsbError])], None, l.wire + frame[..cut], l.heard)
  }

  lemma {:induction false} FailingEffect(l: Link, frame: seq<byte>, cut: nat)
    requires Free(l) && cut <= |frame|
    ensures Run(l, Failing(frame, cut)) == Failed(l, frame, cut)
  {
    var k := Next(l, Begin(frame));
    assert Failing(frame, cut)[1..] == Bytes(cut) + [WriteFails];
    RunConcat(k, Bytes(cut), [WriteFails]);
    WriteOut(k, cut);
    var w := Run(k, Bytes(cut));
    assert [WriteFails][1..] == [];
    assert Run(w, [WriteFails]) == Next(w, WriteFails);
    assert Last(w).stored + [UsbError] == [UsbError] && frame[0..cut] == frame[..cut];
    assert Next(w, WriteFails).sends == Failed(l, frame, cut).sends;
  }

  /** Each method is one region that holds the lock. `port` is the serial port: how many bytes of the frame it
      takes before it raises, if it raises. */
  class Transport {
    var pending: Option<nat>
    var calls: seq<Send>
    var wire: seq<byte>
    var heard: seq<Outcome>

    constructor ()
      ensures Now() == EMPTY
    {
      pending, calls, wire, heard := None, [], [], [];
    }

    function Now(): Link
      reads this
    {
      Link(calls, pending, wire, heard)
    }

    method Transmit(frame: seq<byte>, port: Option<nat>) returns (id: nat)
      requires Free(Now()) && (port.Some? ==> port.value <= |frame|)
      modifies this
      ensures id == |old(calls)| < |calls|
      ensures Now() == Run(old(Now()), if port.None? then Sending(frame) else Failing(frame, port.value))
    {
      SendingEffect(Now(), frame);
      if port.Some? {
        FailingEffect(Now(), frame, port.value);
      }
      id := |calls|;
      pending := Some(id);
      if port.None? {
        wire := wire + frame;
        calls := calls + [Send(frame, |frame|, Waiting, [])];
      } else {
        wire := wire + frame[..port.value];
        calls := calls + [Send(frame, port.value, Returned, [UsbError])];
        pending := None;
      }
    }

    /** What the reader does with an outcome event. */
    method FulfillPending(outcome: Outcome)
      requires Inv(Now()) && Free(Now())
      modifies this
      ensures Now() == Next(old(Now()), Event(outcome))
    {
      heard := heard + [outcome];
      if pending.None? {
        return;
      }
      var id := pending.value;
      if calls[id].stored == [] {
        calls := calls[id := calls[id].(stored := [outcome])];
      }
    }

    /** The end of the wait: the slot's outcome, or a timeout if there is none. */
    method Finish(id: nat) returns (outcome: Outcome)
      requires Inv(Now()) && WaitsAt(Now(), id)
      modifies this
      ensures Now() == Next(old(Now()), if old(calls[id].stored) != [] then Wake(id) else Expire(id))
      ensures id < |calls| && calls[id].stored == [outcome] && calls[id].phase.Returned?
    {
      assert SoundSend(calls[id]);
      var s := calls[id];
      assert s.stored != [] ==> s.stored == [s.stored[0]];
      outcome := if s.stored != [] then s.stored[0] else Timeout;
      calls := calls[id := s.(phase := Returned, stored := [outcome])];
      pending := None;
    }
  }
}
