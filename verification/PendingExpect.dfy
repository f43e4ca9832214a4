/** The one pending unicast expectation: stamped by the sender, ended by the receiver with compare-and-clear. */
module PendingExpect {
  import opened Basics
  import JsonValues

  const OPC_ACK := 0x7E

  /** How the rule table says an opcode is answered. */
  datatype Answer = NoAnswer | Acknowledged | Specific(opcode: int)

  /** Senders are hexadecimal text. `opcode7` has its top bit cleared when it is compared. `device` is the address of
      the device the request went to, if it is known; `rule` and `stamp` are only carried along. */
  datatype Expectation = Expectation(device: Option<string>, rule: int, sender: string, opcode7: int, answer: Answer, stamp: real)

  datatype Inbound = Inbound(sender: string, opc: int, ackOf: Option<int>)

  predicate Matches(e: Expectation, ev: Inbound) {
    && ev.sender != ""
    && JsonValues.Upper(ev.sender) == JsonValues.Upper(e.sender)
    && match e.answer
       case NoAnswer => false
       case Acknowledged => ev.opc == OPC_ACK && (if ev.ackOf.Some? then ev.ackOf.value else -2) == e.opcode7 % 128
       case Specific(opcode) => ev.opc == opcode
  }

  /** What a receive handler acts on. */
  datatype Trigger = Arrived(ev: Inbound) | WindowClosed

  /** How an expectation ended. */
  datatype Fate = Matched(ev: Inbound) | Closed | Overwritten | Cleared

  datatype Stamped = Stamped(expectation: Expectation, fate: Option<Fate>)

  /** Stamps are numbered in order, which stands for the identity of the stored object. `current` is the field;
      `snapshots` holds what every handler saw that has not acted on it yet, as stamp and trigger. */
  datatype State = State(
    stamps: seq<Stamped>,
    current: Option<int>,
    snapshots: seq<Option<(int, Trigger)>>,
    online: map<string, bool>)        // the devices' last marks

  const EMPTY := State([], None, [], map[])

  datatype Step =
    | Stamp(expectation: Expectation)
    | Read(trigger: Trigger)          // a handler takes a snapshot
    | Settle(handler: int)            // and later acts on it
    | Clear

  function End(s: State, id: int, fate: Fate): State {
    if 0 <= id < |s.stamps| then s.(stamps := s.stamps[id := s.stamps[id].(fate := Some(fate))]) else s
  }

  /** Whether a handler that saw this expectation wants it gone. */
  function Verdict(e: Expectation, t: Trigger): Option<Fate> {
    match t
    case WindowClosed => Some(Closed)
    case Arrived(ev) => if Matches(e, ev) then Some(Matched(ev)) else None
  }

  /** Clear the field only if it still holds the expected stamp. */
  function ClearIf(s: State, id: int, fate: Fate): State {
    if s.current != Some(id) then s else End(s, id, fate).(current := None)
  }

  /** A reply marks its device online, a closed window marks it offline. */
  function Mark(online: map<string, bool>, e: Expectation, verdict: Option<Fate>): map<string, bool> {
    if e.device.None? || verdict.None? then online else online[e.device.value := verdict.value.Matched?]
  }

  function Next(s: State, step: Step): State {
    match step
    case Stamp(e) =>
      var t := if s.current.Some? then End(s, s.current.value, Overwritten) else s;
      t.(stamps := t.stamps + [Stamped(e, None)], current := Some(|s.stamps|))
    case Read(trigger) =>
      s.(snapshots := s.snapshots + [if s.current.Some? then Some((s.current.value, trigger)) else None])
    case Settle(h) =>
      if !(0 <= h < |s.snapshots|) || s.snapshots[h].None? || !(0 <= s.snapshots[h].value.0 < |s.stamps|) then s
      else
        var (id, trigger) := s.snapshots[h].value;
        var verdict := Verdict(s.stamps[id].expectation, trigger);
        (if verdict.None? then s else ClearIf(s, id, verdict.value)).(
          snapshots := s.snapshots[h := None], online := Mark(s.online, s.stamps[id].expectation, verdict))
    case Clear =>
      if s.current.None? then s else End(s, s.current.value, Cleared).(current := None)
  }

  function Run(s: State, steps: seq<Step>): State
    decreases |steps|
  {
    if steps == [] then s else Run(Next(s, steps[0]), steps[1..])
  }

  /** The field holds the newest stamp or nothing, a stamp has ended exactly when the field does not hold it,
      and only a reply that matches ends a stamp as matched. */
  predicate Inv(s: State) {
    && (s.current.Some? ==> s.current.value == |s.stamps| - 1 >= 0)
    && (forall id :: 0 <= id < |s.stamps| ==> (s.stamps[id].fate.None? <==> s.current == Some(id)))
    && (forall h :: 0 <= h < |s.snapshots| && s.snapshots[h].Some? ==> 0 <= s.snapshots[h].value.0 < |s.stamps|)
    && (forall id :: 0 <= id < |s.stamps| && s.stamps[id].fate.Some? && s.stamps[id].fate.value.Matched? ==>
          Matches(s.stamps[id].expectation, s.stamps[id].fate.value.ev))
  }

  /** Stamps are never edited, and a stamp that has ended keeps the one fate it got. */
  ghost predicate EndsOnce(s: State, t: State) {
    && |s.stamps| <= |t.stamps|
    && forall id :: 0 <= id < |s.stamps| ==>
         && t.stamps[id].expectation == s.stamps[id].expectation
         && (s.stamps[id].fate.Some? ==> t.stamps[id].fate == s.stamps[id].fate)
  }

  lemma {:induction false} StepKeeps(s: State, step: Step)
    requires Inv(s)
    ensures Inv(Next(s, step)) && EndsOnce(s, Next(s, step))
  {
  }

  /** Over every interleaving of stamps, snapshots, handlers and clears, with any number of handlers in flight:
      each stamp ends at most once, and at every moment all stamps but the one in the field have ended. */
  lemma {:induction false} RunKeeps(s: State, steps: seq<Step>)
    requires Inv(s)
    ensures Inv(Run(s, steps)) && EndsOnce(s, Run(s, steps))
    decreases |steps|
  {
    if steps != [] {
      StepKeeps(s, steps[0]);
      RunKeeps(Next(s, steps[0]), steps[1..]);
    }
  }

  lemma {:induction false} SnapshotStays(s: State, steps: seq<Step>, h: int)
    requires Inv(s) && 0 <= h < |s.snapshots|
    ensures |Run(s, steps).snapshots| >= |s.snapshots|
    ensures Run(s, steps).snapshots[h] == s.snapshots[h] || Run(s, steps).snapshots[h].None?
    decreases |steps|
  {
    if steps != [] {
      StepKeeps(s, steps[0]);
      SnapshotStays(Next(s, steps[0]), steps[1..], h);
    }
  }

  /** A handler that took its snapshot in `s` and acts after any other steps removes the stamp it saw or nothing:
      every other stamp, in particular each one made since, is left as it was. */
  lemma {:induction false} StaleClearIsHarmless(s: State, trigger: Trigger, steps: seq<Step>)
    requires Inv(s)
    ensures var before := Run(Next(s, Read(trigger)), steps);
            var after := Next(before, Settle(|s.snapshots|));
            && |after.stamps| == |before.stamps|
            && (before.current != s.current || s.current.None? ==> after.current == before.current && after.stamps == before.stamps)
            && forall id :: 0 <= id < |before.stamps| && Some(id) != s.current ==> after.stamps[id] == before.stamps[id]
  {
    var read := Next(s, Read(trigger));
    StepKeeps(s, Read(trigger));
    RunKeeps(read, steps);
    SnapshotStays(read, steps, |s.snapshots|);
  }

  /** Exactly what a handler does when it acts on a snapshot: the stamp it saw ends if and only if it is still in the
      field and the verdict is for ending it. The device is marked by the verdict alone, so a handler that comes too
      late still marks it. */
  lemma {:induction false} SettleEndsIff(s: State, h: int)
    requires Inv(s) && 0 <= h < |s.snapshots| && s.snapshots[h].Some?
    ensures var (id, trigger) := s.snapshots[h].value;
            var e := s.stamps[id].expectation;
            var t := Next(s, Settle(h));
            && (t.stamps != s.stamps <==> s.current == Some(id) && Verdict(e, trigger).Some?)
            && (t.stamps != s.stamps ==> t.current == None && t.stamps[id].fate == Verdict(e, trigger))
            && (t.stamps == s.stamps ==> t.current == s.current)
            && t.online == Mark(s.online, e, Verdict(e, trigger))
  {
    var (id, trigger) := s.snapshots[h].value;
    var t := Next(s, Settle(h));
    if s.current == Some(id) && Verdict(s.stamps[id].expectation, trigger).Some? {
      assert s.stamps[id].fate.None? && t.stamps[id].fate.Some?;
    }
  }

  /** How many stamps have ended. */
  function Ended(stamps: seq<Stamped>): nat {
    if stamps == [] then 0 else (if stamps[0].fate.Some? then 1 else 0) + Ended(stamps[1..])
  }

  lemma {:induction false} AllEnded(stamps: seq<Stamped>)
    requires forall id :: 0 <= id < |stamps| ==> stamps[id].fate.Some?
    ensures Ended(stamps) == |stamps|
  {
    if stamps != [] {
      AllEnded(stamps[1..]);
    }
  }

  lemma {:induction false} EndedSnoc(stamps: seq<Stamped>, last: Stamped)
    ensures Ended(stamps + [last]) == Ended(stamps) + if last.fate.Some? then 1 else 0
  {
    if stamps == [] {
      assert stamps + [last] == [last] && [last][1..] == [];
    } else {
      assert (stamps + [last])[1..] == stamps[1..] + [last];
      EndedSnoc(stamps[1..], last);
    }
  }

  /** Every stamp is accounted for: ended once, or still in the field. */
  lemma {:induction false} StampsAddUp(steps: seq<Step>)
    ensures var s := Run(EMPTY, steps);
            |s.stamps| == Ended(s.stamps) + if s.current.Some? then 1 else 0
  {
    var s := Run(EMPTY, steps);
    RunKeeps(EMPTY, steps);
    if s.current.Some? {
      var n := |s.stamps| - 1;
      AllEnded(s.stamps[..n]);
      EndedSnoc(s.stamps[..n], s.stamps[n]);
      assert s.stamps == s.stamps[..n] + [s.stamps[n]];
    } else {
      AllEnded(s.stamps);
    }
  }

  // ---- the controller's field ------------------------------------------------------------

  class Pending {
    const expectation: Expectation

    constructor (e: Expectation)
      ensures expectation == e
    {
      expectation := e;
    }
  }

  class Controller {
    var pendingExpect: Pending?
    var online: map<string, bool>

    constructor ()
      ensures pendingExpect == null && online == map[]
    {
      pendingExpect, online := null, map[];
    }

    method SetPendingExpect(device: Option<string>, rule: int, sender: string, opcode7: int, answer: Answer, stamp: real)
      modifies this`pendingExpect
      ensures pendingExpect != null && fresh(pendingExpect)
      ensures pendingExpect.expectation == Expectation(device, rule, JsonValues.Upper(sender), opcode7, answer, stamp)
    {
      pendingExpect := new Pending(Expectation(device, rule, JsonValues.Upper(sender), opcode7, answer, stamp));
    }

    /** True when the field held exactly this object, or both are absent. */
    method ClearPendingExpectIf(expected: Pending?) returns (cleared: bool)
      modifies this`pendingExpect
      ensures cleared <==> old(pendingExpect) == expected
      ensures pendingExpect == if cleared then null else old(pendingExpect)
    {
      cleared := pendingExpect == expected;
      if cleared {
        pendingExpect := null;
      }
    }

    /** The second half of `pending_try_match`, run on a snapshot that may be old by now. */
    method SettleMatch(p: Pending, ev: Inbound)
      modifies this
      ensures pendingExpect == if old(pendingExpect) == p && Matches(p.expectation, ev) then null else old(pendingExpect)
      ensures online == Mark(old(online), p.expectation, Verdict(p.expectation, Arrived(ev)))
    {
      if Matches(p.expectation, ev) {
        if p.expectation.device.Some? {
          online := online[p.expectation.device.value := true];
        }
        var _ := ClearPendingExpectIf(p);
      }
    }

    /** The second half of `pending_window_closed`. */
    method SettleClosed(p: Pending)
      modifies this
      ensures pendingExpect == if old(pendingExpect) == p then null else old(pendingExpect)
      ensures online == Mark(old(online), p.expectation, Some(Closed))
    {
      if p.expectation.device.Some? {
        online := online[p.expectation.device.value := false];
      }
      var _ := ClearPendingExpectIf(p);
    }
  }
}
