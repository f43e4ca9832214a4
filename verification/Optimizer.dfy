/** Planning the OPC_OFFSET sequence of a container: three strategies, the cheapest wins. */
module Optimizer {
  import opened Basics
  import opened JsonValues
  import opened Offsets
  import opened SceneActions
  import Packets

  /** The host's record of a device: the receiver bytes of its address and its stored group. */
  datatype HostDevice = HostDevice(last3: string, groupId: int)

  datatype Destination = ToGroup(group: int) | ToDevice(dev: HostDevice)

  datatype Sender = SendOffset | SendControl | SendPreset | SendSync | SendStartblock

  datatype Payload =
    | OffsetPayload(config: Offset)
    | EffectPayload(dest: Destination, params: Object)
    | SyncPayload(brightness: int, triggerArmed: bool)

  datatype Phase = TopLevel | OffsetPhase | ChildPhase(index: nat)

  /** One planned send; `bodyBytes` is the planner's prediction of the body length. */
  datatype WireOp = WireOp(sender: Sender, targetGroup: int, payload: Payload, bodyBytes: nat, phase: Phase)

  datatype Strategy = BroadcastFormula | PerGroupExplicit | FormulaPlusOverrides

  datatype SetupPlan = SetupPlan(strategy: Strategy, ops: seq<WireOp>)

  /** The keyword arguments kept for the sender; a modulo cycle below 1 becomes 1. */
  function PayloadConfig(c: Offset): Offset {
    if c.Computed? && c.f.Modulo? then Computed(c.f.(cycle := Max(1, c.f.cycle))) else c
  }

  function OffsetOp(group: int, c: Offset): WireOp {
    var config := PayloadConfig(c);
    WireOp(SendOffset, group, OffsetPayload(config), |Packets.BuildOffsetBody(group, config)|, TopLevel)
  }

  /** One EXPLICIT packet per group, carrying the value evaluated on the host. */
  function FixedOps(block: OffsetBlock, groups: seq<int>): (r: seq<WireOp>)
    ensures |r| == |groups| && forall i :: 0 <= i < |groups| ==> r[i] == OffsetOp(groups[i], Fixed(WantedMs(block, groups[i])))
  {
    if groups == [] then []
    else [OffsetOp(groups[0], Fixed(WantedMs(block, groups[0])))] + FixedOps(block, groups[1..])
  }

  /** One NONE packet per group. */
  function ClearOps(groups: seq<int>): (r: seq<WireOp>)
    ensures |r| == |groups| && forall i :: 0 <= i < |groups| ==> r[i] == OffsetOp(groups[i], NoOffset)
  {
    if groups == [] then [] else [OffsetOp(groups[0], NoOffset)] + ClearOps(groups[1..])
  }

  function Without(known: seq<int>, ids: seq<int>): (r: seq<int>)
    ensures forall g :: g in r <==> g in known && g !in ids
  {
    if known == [] then []
    else if known[0] in ids then Without(known[1..], ids)
    else [known[0]] + Without(known[1..], ids)
  }

  /** The configuration one broadcast packet can carry. */
  function WireConfig(block: OffsetBlock): Offset
    requires !block.ExplicitBlock?
  {
    if block.NoneBlock? then NoOffset else Computed(block.f)
  }

  function ConcreteGroups(target: Target, known: seq<int>): seq<int>
    requires !target.Device?
  {
    if target.Broadcast? then known else target.ids
  }

  // ---- the candidates ------------------------------------------------------------

  function CandidateA(target: Target, block: OffsetBlock): seq<SetupPlan> {
    if target.Broadcast? && !block.ExplicitBlock? then
      [SetupPlan(BroadcastFormula, [OffsetOp(BROADCAST_GROUP, WireConfig(block))])]
    else []
  }

  function CandidateB(target: Target, block: OffsetBlock, known: seq<int>): seq<SetupPlan>
    requires !target.Device?
  {
    var groups := ConcreteGroups(target, known);
    if block.NoneBlock? && !target.Broadcast? then [SetupPlan(PerGroupExplicit, ClearOps(groups))]
    else if groups != [] then [SetupPlan(PerGroupExplicit, FixedOps(block, groups))]
    else []
  }

  function CandidateC(target: Target, block: OffsetBlock, known: seq<int>): seq<SetupPlan>
    requires !target.Device?
  {
    if target.Groups? && block.FormulaBlock? && known != [] then
      [SetupPlan(FormulaPlusOverrides,
                 [OffsetOp(BROADCAST_GROUP, WireConfig(block))] + ClearOps(Without(known, target.ids)))]
    else []
  }

  function Candidates(target: Target, block: OffsetBlock, known: seq<int>): seq<SetupPlan>
    requires !target.Device?
  {
    CandidateA(target, block) + CandidateB(target, block, known) + CandidateC(target, block, known)
  }

  function Bytes(ops: seq<WireOp>): nat {
    if ops == [] then 0 else ops[0].bodyBytes + Bytes(ops[1..])
  }

  /** `(packet_count, total_bytes)` compared as Python tuples. */
  predicate Cheaper(p: SetupPlan, q: SetupPlan) {
    |p.ops| < |q.ops| || (|p.ops| == |q.ops| && Bytes(p.ops) < Bytes(q.ops))
  }

  /** The first of the cheapest. */
  function Cheapest(ps: seq<SetupPlan>): (r: SetupPlan)
    requires ps != []
    ensures r in ps && forall p :: p in ps ==> !Cheaper(p, r)
    decreases |ps|
  {
    if |ps| == 1 then ps[0]
    else
      var best := Cheapest(ps[..|ps| - 1]);
      assert ps == ps[..|ps| - 1] + [ps[|ps| - 1]];
      if Cheaper(ps[|ps| - 1], best) then ps[|ps| - 1] else best
  }

  function Setup(target: Target, block: OffsetBlock, known: seq<int>): SetupPlan
    requires !target.Device?
  {
    var c := Candidates(target, block, known);
    if c == [] then SetupPlan(BroadcastFormula, []) else Cheapest(c)
  }

  /** Builds the candidates one strategy at a time, overriding B for mode none at the end. */
  method BuildCandidates(target: Target, block: OffsetBlock, known: seq<int>) returns (candidates: seq<SetupPlan>)
    requires !target.Device?
    ensures candidates == Candidates(target, block, known)
  {
    var a: seq<SetupPlan>, b: seq<SetupPlan>, c: seq<SetupPlan> := [], [], [];
    if target.Broadcast? && !block.ExplicitBlock? {
      a := [SetupPlan(BroadcastFormula, [OffsetOp(BROADCAST_GROUP, WireConfig(block))])];
    }
    var groups := if target.Broadcast? then known else target.ids;
    if groups != [] {
      b := [SetupPlan(PerGroupExplicit, FixedOps(block, groups))];
    }
    if !target.Broadcast? && block.FormulaBlock? && known != [] {
      var ops := [OffsetOp(BROADCAST_GROUP, WireConfig(block))];
      ops := ops + ClearOps(Without(known, target.ids));
      c := [SetupPlan(FormulaPlusOverrides, ops)];
    }
    if block.NoneBlock? && !target.Broadcast? {
      b := [SetupPlan(PerGroupExplicit, ClearOps(groups))];
    }
    assert a == CandidateA(target, block);
    assert b == CandidateB(target, block, known);
    assert c == CandidateC(target, block, known);
    candidates := a + b + c;
  }

  /** The head of the stably sorted candidates. */
  method TakeCheapest(candidates: seq<SetupPlan>) returns (plan: SetupPlan)
    requires candidates != []
    ensures plan == Cheapest(candidates)
  {
    plan := candidates[0];
    for i := 1 to |candidates|
      invariant plan == Cheapest(candidates[..i])
    {
      assert candidates[..i + 1][..i] == candidates[..i];
      if Cheaper(candidates[i], plan) {
        plan := candidates[i];
      }
    }
    assert candidates[..|candidates|] == candidates;
  }

  method PlanOffsetSetup(target: Target, block: OffsetBlock, known: seq<int>) returns (plan: SetupPlan)
    requires !target.Device?
    ensures plan == Setup(target, block, known)
  {
    var candidates := BuildCandidates(target, block, known);
    if candidates == [] {
      return SetupPlan(BroadcastFormula, []);
    }
    plan := TakeCheapest(candidates);
  }

  // ---- which strategy wins --------------------------------------------------------

  lemma {:induction false} FixedOpBytes(group: int, ms: int)
    ensures OffsetOp(group, Fixed(ms)).bodyBytes == 4
  {
    Packets.OffsetBodyRoundTrip(group, Fixed(ms));
  }

  lemma {:induction false} FixedBytes(block: OffsetBlock, groups: seq<int>)
    ensures Bytes(FixedOps(block, groups)) == 4 * |groups|
  {
    if groups != [] {
      FixedBytes(block, groups[1..]);
      FixedOpBytes(groups[0], WantedMs(block, groups[0]));
      assert FixedOps(block, groups)[1..] == FixedOps(block, groups[1..]);
    }
  }

  lemma {:induction false} ClearBytes(groups: seq<int>)
    ensures Bytes(ClearOps(groups)) == 2 * |groups|
  {
    if groups != [] {
      ClearBytes(groups[1..]);
      Packets.OffsetBodyRoundTrip(groups[0], NoOffset);
      assert ClearOps(groups)[1..] == ClearOps(groups[1..]);
    }
  }

  /** Body length of one broadcast packet of the block: 2 without a formula, 6 or 7 with one. */
  function FormulaBytes(block: OffsetBlock): nat {
    match block
    case NoneBlock => 2
    case ExplicitBlock(_) => 4
    case FormulaBlock(f) => if f.Linear? then 6 else 7
  }

  lemma {:induction false} BroadcastOpBytes(block: OffsetBlock)
    requires !block.ExplicitBlock?
    ensures OffsetOp(BROADCAST_GROUP, WireConfig(block)).bodyBytes == FormulaBytes(block)
  {
    Packets.OffsetBodyRoundTrip(BROADCAST_GROUP, PayloadConfig(WireConfig(block)));
  }

  /** For concrete groups, strategy C wins exactly when it is strictly cheaper. */
  predicate OverridesWin(participants: nat, others: nat, formulaBytes: nat) {
    1 + others < participants || (1 + others == participants && formulaBytes + 2 * others < 4 * participants)
  }

  /** The strategy in closed form, for every container the validator can produce. */
  function StrategyFor(target: Target, block: OffsetBlock, known: seq<int>): Strategy
    requires !target.Device?
  {
    if target.Broadcast? then
      if block.ExplicitBlock? then PerGroupExplicit
      else if block.FormulaBlock? && |known| == 1 then PerGroupExplicit
      else BroadcastFormula
    else if block.FormulaBlock? && known != [] && OverridesWin(|target.ids|, |Without(known, target.ids)|, FormulaBytes(block))
    then FormulaPlusOverrides
    else PerGroupExplicit
  }

  function OpsFor(s: Strategy, target: Target, block: OffsetBlock, known: seq<int>): seq<WireOp>
    requires !target.Device?
    requires !s.PerGroupExplicit? ==> !block.ExplicitBlock?
  {
    match s
    case BroadcastFormula => [OffsetOp(BROADCAST_GROUP, WireConfig(block))]
    case PerGroupExplicit =>
      if block.NoneBlock? then ClearOps(ConcreteGroups(target, known)) else FixedOps(block, ConcreteGroups(target, known))
    case FormulaPlusOverrides =>
      [OffsetOp(BROADCAST_GROUP, WireConfig(block))]
      + (if target.Groups? then ClearOps(Without(known, target.ids)) else [])
  }

  /** The plan is the lexicographic (packets, bytes) minimum of the eligible candidates. In particular an
      EXPLICIT 0 is never sent for a broadcast of mode none, because one NONE packet is always cheaper. */
  lemma {:induction false} SetupClosedForm(target: Target, block: OffsetBlock, known: seq<int>)
    requires !target.Device?
    requires target.Groups? ==> target.ids != []
    requires target.Broadcast? && block.ExplicitBlock? ==> known != []
    ensures var s := StrategyFor(target, block, known);
            && (!s.PerGroupExplicit? ==> !block.ExplicitBlock?)
            && Setup(target, block, known) == SetupPlan(s, OpsFor(s, target, block, known))
    ensures forall p :: p in Candidates(target, block, known) ==> !Cheaper(p, Setup(target, block, known))
  {
    if target.Broadcast? {
      BroadcastClosedForm(target, block, known);
    } else {
      GroupsClosedForm(target, block, known);
    }
  }

  lemma {:induction false} CheapestOfTwo(p: SetupPlan, q: SetupPlan)
    ensures Cheapest([p]) == p
    ensures Cheapest([p, q]) == if Cheaper(q, p) then q else p
  {
    assert [p, q][..1] == [p];
  }

  lemma {:induction false} BroadcastClosedForm(target: Target, block: OffsetBlock, known: seq<int>)
    requires target.Broadcast? && (block.ExplicitBlock? ==> known != [])
    ensures var s := StrategyFor(target, block, known);
            && (!s.PerGroupExplicit? ==> !block.ExplicitBlock?)
            && Setup(target, block, known) == SetupPlan(s, OpsFor(s, target, block, known))
  {
    FixedBytes(block, known);
    var b := SetupPlan(PerGroupExplicit, FixedOps(block, known));
    if block.ExplicitBlock? {
      assert Candidates(target, block, known) == [b];
      CheapestOfTwo(b, b);
    } else {
      BroadcastOpBytes(block);
      var a := SetupPlan(BroadcastFormula, [OffsetOp(BROADCAST_GROUP, WireConfig(block))]);
      assert Bytes(a.ops) == FormulaBytes(block);
      CheapestOfTwo(a, b);
      assert Candidates(target, block, known) == if known == [] then [a] else [a, b];
    }
  }

  lemma {:induction false} GroupsClosedForm(target: Target, block: OffsetBlock, known: seq<int>)
    requires target.Groups? && target.ids != []
    ensures var s := StrategyFor(target, block, known);
            && (!s.PerGroupExplicit? ==> !block.ExplicitBlock?)
            && Setup(target, block, known) == SetupPlan(s, OpsFor(s, target, block, known))
  {
    var b := SetupPlan(PerGroupExplicit, if block.NoneBlock? then ClearOps(target.ids) else FixedOps(block, target.ids));
    if block.FormulaBlock? && known != [] {
      var others := Without(known, target.ids);
      var c := SetupPlan(FormulaPlusOverrides, [OffsetOp(BROADCAST_GROUP, WireConfig(block))] + ClearOps(others));
      OverridesCheaperIff(block, target.ids, others);
      CheapestOfTwo(b, c);
      assert Candidates(target, block, known) == [b, c];
    } else {
      CheapestOfTwo(b, b);
      assert Candidates(target, block, known) == [b];
    }
  }

  /** Strategy C against strategy B, in packets and bytes. */
  lemma {:induction false} OverridesCheaperIff(block: OffsetBlock, ids: seq<int>, others: seq<int>)
    requires block.FormulaBlock?
    ensures var b := SetupPlan(PerGroupExplicit, FixedOps(block, ids));
            var c := SetupPlan(FormulaPlusOverrides, [OffsetOp(BROADCAST_GROUP, WireConfig(block))] + ClearOps(others));
            Cheaper(c, b) <==> OverridesWin(|ids|, |others|, FormulaBytes(block))
  {
    FixedBytes(block, ids);
    ClearBytes(others);
    BroadcastOpBytes(block);
    var op := OffsetOp(BROADCAST_GROUP, WireConfig(block));
    assert ([op] + ClearOps(others))[1..] == ClearOps(others);
    assert Bytes([op] + ClearOps(others)) == FormulaBytes(block) + 2 * |others|;
  }
}
