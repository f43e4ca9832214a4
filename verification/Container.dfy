/** The meaning of a container: which devices its offset packets leave in offset mode, with which offset,
    and which devices its children reach. */
module Container {
  import opened Basics
  import opened JsonValues
  import opened Offsets
  import opened SceneActions
  import opened Optimizer
  import opened Planner
  import opened Fleet
  import Packets
  import ControlBody

  // ---- phase 1: offset packets ---------------------------------------------------------

  lemma {:induction false} OffsetOpReceived(n: Node, g: int, c: Offset, ts: int)
    requires 0 <= g <= 255 && ValidOffset(c)
    ensures var p := Transmit(OffsetOp(g, c), ts);
            && p.Some? && p.value.opcode == OPC_OFFSET
            && Receive(n, p.value) == if InGroup(n, g) then n.(pending := Some(c)) else n
  {
    assert PayloadConfig(c) == c && LowByte(g) == g;
    Packets.OffsetBodyRoundTrip(g, c);
    assert Packets.ParseOffsetBody(Transmit(OffsetOp(g, c), ts).value.body) == Ok(Packets.OffsetMessage(g, c));
  }

  ghost predicate OffsetPackets(ps: seq<Packet>) {
    forall i :: 0 <= i < |ps| ==> ps[i].opcode == OPC_OFFSET
  }

  lemma {:induction false} PrependSend(n: Node, op: WireOp, rest: seq<WireOp>, ts: int)
    requires Transmit(op, ts).Some? && AllSend(rest, ts)
    ensures AllSend([op] + rest, ts)
    ensures PacketsOf([op] + rest, ts) == [Transmit(op, ts).value] + PacketsOf(rest, ts)
    ensures Run(n, PacketsOf([op] + rest, ts)) == Run(Receive(n, Transmit(op, ts).value), PacketsOf(rest, ts))
  {
    assert ([op] + rest)[1..] == rest;
  }

  /** One offset packet and the packets after it. */
  lemma {:induction false} PhaseStep(n: Node, g: int, c: Offset, rest: seq<WireOp>, ts: int)
    requires 0 <= g <= 255 && ValidOffset(c) && AllSend(rest, ts) && OffsetPackets(PacketsOf(rest, ts))
    ensures var ops := [OffsetOp(g, c)] + rest;
            && AllSend(ops, ts) && OffsetPackets(PacketsOf(ops, ts))
            && Run(n, PacketsOf(ops, ts)) == Run(if InGroup(n, g) then n.(pending := Some(c)) else n, PacketsOf(rest, ts))
  {
    OffsetOpReceived(n, g, c, ts);
    PrependSend(n, OffsetOp(g, c), rest, ts);
  }

  /** After one EXPLICIT packet per group, exactly the listed groups hold their value. */
  lemma {:induction false} FixedPhase(n: Node, block: OffsetBlock, gs: seq<int>, ts: int)
    requires forall g :: g in gs ==> GroupId(g) && 0 <= WantedMs(block, g) <= OFFSET_MS_MAX
    ensures var ps := PacketsOf(FixedOps(block, gs), ts);
            && AllSend(FixedOps(block, gs), ts) && OffsetPackets(ps)
            && Run(n, ps) == if n.group in gs then n.(pending := Some(Fixed(WantedMs(block, n.group)))) else n
    decreases |gs|
  {
    if gs != [] {
      assert gs[0] in gs && gs == [gs[0]] + gs[1..];
      var c := Fixed(WantedMs(block, gs[0]));
      FixedPhase(if InGroup(n, gs[0]) then n.(pending := Some(c)) else n, block, gs[1..], ts);
      PhaseStep(n, gs[0], c, FixedOps(block, gs[1..]), ts);
    }
  }

  /** After one NONE packet per group, exactly the listed groups are cleared. */
  lemma {:induction false} ClearPhase(n: Node, gs: seq<int>, ts: int)
    requires forall g :: g in gs ==> GroupId(g)
    ensures var ps := PacketsOf(ClearOps(gs), ts);
            && AllSend(ClearOps(gs), ts) && OffsetPackets(ps)
            && Run(n, ps) == if n.group in gs then n.(pending := Some(NoOffset)) else n
    decreases |gs|
  {
    if gs != [] {
      assert gs[0] in gs && gs == [gs[0]] + gs[1..];
      ClearPhase(if InGroup(n, gs[0]) then n.(pending := Some(NoOffset)) else n, gs[1..], ts);
      PhaseStep(n, gs[0], NoOffset, ClearOps(gs[1..]), ts);
    }
  }

  ghost predicate ValidBlock(b: OffsetBlock) {
    match b
    case NoneBlock => true
    case FormulaBlock(f) => ValidFormula(f)
    case ExplicitBlock(values) => forall i :: 0 <= i < |values| ==> 0 <= values[i].ms <= OFFSET_MS_MAX
  }

  ghost predicate ValidGroups(gs: seq<int>) {
    forall g :: g in gs ==> GroupId(g)
  }

  /** What the optimizer is given for a canonical container, or for one that was collapsed to broadcast. */
  ghost predicate SetupInput(target: Target, block: OffsetBlock, known: seq<int>) {
    && !target.Device?
    && (target.Groups? ==> CanonicalIds(target.ids))
    && (target.Broadcast? && block.ExplicitBlock? ==> known != [])
    && ValidBlock(block) && ValidGroups(known)
  }

  lemma {:induction false} WantedInRange(block: OffsetBlock, g: int)
    requires ValidBlock(block) && GroupId(g)
    ensures 0 <= WantedMs(block, g) <= OFFSET_MS_MAX
  {
    match block
    case NoneBlock =>
    case ExplicitBlock(values) => ExplicitMsRange(values, g);
    case FormulaBlock(f) => HostAgreesWithDevice(Computed(f), g);
  }

  /** The known groups a container is meant for. */
  predicate Participates(target: Target, known: seq<int>, g: int) {
    match target
    case Broadcast => g in known
    case Groups(ids) => g in ids
    case Device(_) => false
  }

  /** The configuration a participant is left with; its spelling depends on the strategy. */
  function Imposed(s: Strategy, block: OffsetBlock, g: int): Offset {
    if block.NoneBlock? then NoOffset
    else if block.FormulaBlock? && !s.PerGroupExplicit? then Computed(block.f)
    else Fixed(WantedMs(block, g))
  }

  /** Whatever the strategy, it means the offset the operator asked for. */
  lemma {:induction false} ImposedMeansWanted(s: Strategy, block: OffsetBlock, g: byte)
    requires ValidBlock(block) && GroupId(g)
    ensures Imposed(s, block, g) != NoOffset <==> !block.NoneBlock?
    ensures DeviceOffsetMs(Imposed(s, block, g), g) == WantedMs(block, g)
  {
    if block.FormulaBlock? {
      HostAgreesWithDevice(Computed(block.f), g);
    }
  }

  /** The exact state every device is left in, by strategy. */
  function AfterSetup(n: Node, target: Target, block: OffsetBlock, known: seq<int>): Node
    requires !target.Device?
  {
    var s := StrategyFor(target, block, known);
    match s
    case BroadcastFormula => n.(pending := Some(Imposed(s, block, n.group)))
    case PerGroupExplicit =>
      if Participates(target, known, n.group) then n.(pending := Some(Imposed(s, block, n.group))) else n
    case FormulaPlusOverrides =>
      if n.group in known && !Participates(target, known, n.group) then n.(pending := Some(NoOffset))
      else n.(pending := Some(Imposed(s, block, n.group)))
  }

  lemma {:induction false} PerGroupPhase(n: Node, target: Target, block: OffsetBlock, known: seq<int>, ts: int)
    requires SetupInput(target, block, known)
    ensures var ops := OpsFor(PerGroupExplicit, target, block, known);
            && AllSend(ops, ts) && OffsetPackets(PacketsOf(ops, ts))
            && Run(n, PacketsOf(ops, ts))
               == if Participates(target, known, n.group) then n.(pending := Some(Imposed(PerGroupExplicit, block, n.group))) else n
  {
    var gs := ConcreteGroups(target, known);
    forall g | g in gs
      ensures GroupId(g) && 0 <= WantedMs(block, g) <= OFFSET_MS_MAX
    {
      if target.Groups? {
        var i :| 0 <= i < |gs| && gs[i] == g;
      }
      WantedInRange(block, g);
    }
    if block.NoneBlock? {
      ClearPhase(n, gs, ts);
    } else {
      FixedPhase(n, block, gs, ts);
    }
  }

  lemma {:induction false} BroadcastPhase(n: Node, block: OffsetBlock, others: seq<int>, ts: int)
    requires !block.ExplicitBlock? && ValidBlock(block) && ValidGroups(others)
    ensures var ops := [OffsetOp(BROADCAST_GROUP, WireConfig(block))] + ClearOps(others);
            && AllSend(ops, ts) && OffsetPackets(PacketsOf(ops, ts))
            && Run(n, PacketsOf(ops, ts)) == n.(pending := Some(if n.group in others then NoOffset else WireConfig(block)))
  {
    ClearPhase(n.(pending := Some(WireConfig(block))), others, ts);
    PhaseStep(n, BROADCAST_GROUP, WireConfig(block), ClearOps(others), ts);
  }

  /** The offset packets leave every device in `AfterSetup`, whichever strategy was picked. */
  lemma {:induction false} SetupPhase(n: Node, target: Target, block: OffsetBlock, known: seq<int>, ts: int)
    requires SetupInput(target, block, known)
    ensures var ops := Setup(target, block, known).ops;
            && AllSend(ops, ts) && OffsetPackets(PacketsOf(ops, ts))
            && Run(n, PacketsOf(ops, ts)) == AfterSetup(n, target, block, known)
  {
    SetupClosedForm(target, block, known);
    match StrategyFor(target, block, known)
    case BroadcastFormula =>
      BroadcastPhase(n, block, [], ts);
      var op := OffsetOp(BROADCAST_GROUP, WireConfig(block));
      assert [op] + ClearOps([]) == [op];
    case PerGroupExplicit => PerGroupPhase(n, target, block, known, ts);
    case FormulaPlusOverrides => BroadcastPhase(n, block, Without(known, target.ids), ts);
  }

  /** What that means for a device of a known or listed group: participants hold the wanted offset, and are
      in offset mode unless the mode is none; a known non-participant is cleared under strategy C and left
      alone otherwise. Nothing shown or armed changes. */
  lemma {:induction false} SetupMeaning(n: Node, target: Target, block: OffsetBlock, known: seq<int>)
    requires SetupInput(target, block, known)
    ensures var m := AfterSetup(n, target, block, known);
            && m.group == n.group && m.last3 == n.last3 && m.armed == n.armed && m.shown == n.shown
            && (Participates(target, known, n.group) ==>
                  (InOffsetMode(m) <==> !block.NoneBlock?) && OffsetMsOf(m) == WantedMs(block, n.group))
            && (n.group in known && !Participates(target, known, n.group) ==>
                  (InOffsetMode(m) <==> !StrategyFor(target, block, known).FormulaPlusOverrides? && InOffsetMode(n)))
  {
    if Participates(target, known, n.group) {
      if target.Groups? {
        var i :| 0 <= i < |target.ids| && target.ids[i] == n.group;
      }
      ImposedMeansWanted(StrategyFor(target, block, known), block, n.group);
    }
  }

  ghost predicate ExactlyParticipants(fleet: seq<Node>, target: Target, known: seq<int>) {
    forall i :: 0 <= i < |fleet| && fleet[i].group in known ==>
                  (InOffsetMode(fleet[i]) <==> Participates(target, known, fleet[i].group))
  }

  ghost predicate OthersOutside(fleet: seq<Node>, target: Target, known: seq<int>) {
    forall i :: 0 <= i < |fleet| && fleet[i].group in known && !Participates(target, known, fleet[i].group) ==>
                  !InOffsetMode(fleet[i])
  }

  /** Exactly the known participants end up in offset mode if and only if the known non-participants
      started outside it or strategy C cleared them. */
  lemma {:induction false} ExactlyParticipantsIff(fleet: seq<Node>, target: Target, block: OffsetBlock, known: seq<int>, ts: int)
    requires SetupInput(target, block, known) && !block.NoneBlock?
    ensures ExactlyParticipants(RunFleet(fleet, PacketsOf(Setup(target, block, known).ops, ts)), target, known)
            <==> StrategyFor(target, block, known).FormulaPlusOverrides? || OthersOutside(fleet, target, known)
    ensures forall i :: 0 <= i < |fleet| && Participates(target, known, fleet[i].group) ==>
              |RunFleet(fleet, PacketsOf(Setup(target, block, known).ops, ts))| == |fleet|
              && OffsetMsOf(RunFleet(fleet, PacketsOf(Setup(target, block, known).ops, ts))[i]) == WantedMs(block, fleet[i].group)
  {
    var ps := PacketsOf(Setup(target, block, known).ops, ts);
    var after := RunFleet(fleet, ps);
    FleetRunsApart(fleet, ps);
    forall i | 0 <= i < |fleet|
      ensures after[i] == AfterSetup(fleet[i], target, block, known)
      ensures after[i].group == fleet[i].group
      ensures Participates(target, known, fleet[i].group) ==>
                InOffsetMode(after[i]) && OffsetMsOf(after[i]) == WantedMs(block, fleet[i].group)
      ensures fleet[i].group in known && !Participates(target, known, fleet[i].group) ==>
                (InOffsetMode(after[i]) <==> !StrategyFor(target, block, known).FormulaPlusOverrides? && InOffsetMode(fleet[i]))
    {
      SetupPhase(fleet[i], target, block, known, ts);
      SetupMeaning(fleet[i], target, block, known);
    }
  }

  // ---- phase 2: the children -------------------------------------------------------------

  /** What an effect carries to every device it is sent to. */
  datatype Content = Content(opcode: byte, flags: byte, fields: seq<byte>)

  function ContentOf(k: EffectKind, params: Object): Option<Content> {
    if k.WledPreset? then
      var id, bri := ToInt(GetOr(params, "presetId", JInt(1))), ToInt(GetOr(params, "brightness", JInt(0)));
      if id.Err? || bri.Err? then None
      else Some(Content(OPC_PRESET, UserFlags(params, bri.value > 0), [LowByte(id.value), LowByte(bri.value)]))
    else
      var f := ControlFields(params);
      if f.Err? then None
      else
        var bri := if f.value.brightness.None? then 0 else LowByte(f.value.brightness.value);
        var flags := UserFlags(params, bri > 0);
        Some(Content(OPC_CONTROL, flags, ControlBody.Body(0, flags, f.value)[2..]))
  }

  function PacketTo(receiver: string, group: byte, c: Content): Packet {
    Packet(receiver, c.opcode, [group, c.flags] + c.fields)
  }

  lemma {:induction false} BodyHead(g: byte, flags: byte, f: ControlBody.Fields)
    ensures ControlBody.Body(g, flags, f) == [g, flags] + ControlBody.Body(0, flags, f)[2..]
  {
    ControlBody.LayoutHead(g, flags, ControlBody.MainChunks(f), ControlBody.ExtChunks(f));
  }

  lemma {:induction false} ControlContent(k: EffectKind, d: Destination, params: Object)
    requires !k.WledPreset?
    ensures ControlPacket(d, params)
         == if ContentOf(k, params).None? then None
            else Some(PacketTo(ReceiverOf(d), BodyGroupOf(d), ContentOf(k, params).value))
  {
    var f := ControlFields(params);
    if f.Ok? {
      var bri := if f.value.brightness.None? then 0 else LowByte(f.value.brightness.value);
      BodyHead(BodyGroupOf(d), UserFlags(params, bri > 0), f.value);
    }
  }

  lemma {:induction false} PresetContent(d: Destination, params: Object)
    ensures PresetPacket(d, params)
         == if ContentOf(WledPreset, params).None? then None
            else Some(PacketTo(ReceiverOf(d), BodyGroupOf(d), ContentOf(WledPreset, params).value))
  {
    var id, bri := ToInt(GetOr(params, "presetId", JInt(1))), ToInt(GetOr(params, "brightness", JInt(0)));
    if id.Ok? && bri.Ok? {
      var g, flags := BodyGroupOf(d), UserFlags(params, bri.value > 0);
      PresetBodyHead(g, flags, id.value, bri.value);
    }
  }

  lemma {:induction false} PresetBodyHead(g: byte, flags: byte, id: int, bri: int)
    ensures Packets.BuildPresetBody(g, flags, id, bri) == [g, flags] + [LowByte(id), LowByte(bri)]
  {
    assert LowByte(g) == g && LowByte(flags) == flags;
  }

  /** The destination only decides receiver and group byte. */
  lemma {:induction false} EffectTransmit(k: EffectKind, d: Destination, params: Object, bytes: nat, ts: int)
    requires !k.Startblock?
    ensures Transmit(EffectOp(k, d, params, bytes), ts)
         == if ContentOf(k, params).None? then None
            else Some(PacketTo(ReceiverOf(d), BodyGroupOf(d), ContentOf(k, params).value))
  {
    if k.WledPreset? {
      PresetContent(d, params);
    } else {
      ControlContent(k, d, params);
    }
  }

  lemma {:induction false} ContentFlag(k: EffectKind, params: Object)
    ensures ContentOf(k, params).Some? ==>
              var c := ContentOf(k, params).value;
              && (c.opcode == OPC_CONTROL || c.opcode == OPC_PRESET)
              && (HasBit(c.flags, Packets.FLAG_OFFSET_MODE) <==> Truthy(Get(params, "offset_mode")))
  {
    var bits := (on: bool) => Packets.Flags(on, true, Truthy(Get(params, "arm_on_sync")), Truthy(Get(params, "force_tt0")),
                                            Truthy(Get(params, "force_reapply")), Truthy(Get(params, "offset_mode")));
    Packets.FlagsByteBits(bits(true));
    Packets.FlagsByteBits(bits(false));
  }

  lemma {:induction false} MergedFlag(base: Object, persisted: map<string, bool>, override: map<string, bool>, k: string)
    requires k in FLAG_KEYS
    ensures Truthy(Get(MergeFlags(base, persisted, override), k)) <==> FlagValue(k, persisted, override)
  {
  }

  /** Inside a container the OFFSET_MODE flag is the container's, whatever preset or child say. */
  lemma {:induction false} ForcedFlag(e: Effect, env: Env, force: bool)
    requires Prepare(e, env, Some(force)).Prepared?
    ensures Truthy(Get(Prepare(e, env, Some(force)).params, "offset_mode")) <==> force
  {
    assert FLAG_KEYS[3] == "offset_mode";
    var m := Materialise(e, env.presets);
    MergedFlag(m.params, m.flags, Override(e, Some(force)), "offset_mode");
  }

  // ---- whom an effect reaches --------------------------------------------------------------

  /** Whether a target reaches a device; a device target needs the address and the host's group to fit. */
  predicate Reaches(t: Target, env: Env, n: Node) {
    match t
    case Broadcast => true
    case Groups(ids) => n.group in ids
    case Device(mac) =>
      && env.devices.Some? && mac in env.devices.value
      && (env.devices.value[mac].last3 == ALL_RECEIVERS || env.devices.value[mac].last3 == n.last3)
      && InGroup(n, LowByte(env.devices.value[mac].groupId))
  }

  /** An effect as a device past its gate takes it, with the given offset. */
  function PlayContent(n: Node, c: Content, offset: int): Node {
    var effect := Shown(c.opcode, c.flags, c.fields, offset);
    if HasBit(c.flags, Packets.FLAG_ARM_ON_SYNC) then n.(armed := Some(effect))
    else n.(active := Effective(n), pending := None, shown := n.shown + [effect])
  }

  /** One effect offered to one device that it reaches. */
  function Offer(n: Node, c: Content): Node {
    if HasBit(c.flags, Packets.FLAG_OFFSET_MODE) != InOffsetMode(n) then n else PlayContent(n, c, OffsetMsOf(n))
  }

  lemma {:induction false} ReceiveEffect(n: Node, receiver: string, group: byte, c: Content)
    requires c.opcode == OPC_CONTROL || c.opcode == OPC_PRESET
    ensures var p := PacketTo(receiver, group, c);
            && IsEffect(p)
            && Receive(n, p) == if Hears(n, p) && InGroup(n, group) then Offer(n, c) else n
  {
    var p := PacketTo(receiver, group, c);
    assert p.body[2..] == c.fields;
  }

  lemma {:induction false} OfferKeepsIdentity(n: Node, c: Content)
    ensures Offer(n, c).group == n.group && Offer(n, c).last3 == n.last3
    ensures Effective(Offer(n, c)) == Effective(n)
  {
  }

  /** The packets of an effect, one per destination. */
  lemma {:induction false} EffectSends(k: EffectKind, ds: seq<Destination>, params: Object, bytes: nat, c: Content, ts: int)
    requires !k.Startblock? && ContentOf(k, params) == Some(c)
    ensures var ops := EffectOps(k, ds, params, bytes);
            && AllSend(ops, ts) && |PacketsOf(ops, ts)| == |ds|
            && forall i :: 0 <= i < |ds| ==> PacketsOf(ops, ts)[i] == PacketTo(ReceiverOf(ds[i]), BodyGroupOf(ds[i]), c)
  {
    var ops := EffectOps(k, ds, params, bytes);
    forall i | 0 <= i < |ds|
      ensures Attempts(ops, ts)[i] == Some(PacketTo(ReceiverOf(ds[i]), BodyGroupOf(ds[i]), c))
    {
      AttemptAt(ops, ts, i);
      EffectTransmit(k, ds[i], params, bytes, ts);
    }
    UntilNoneOfSome(Attempts(ops, ts));
  }

  ghost predicate EffectContent(c: Content) {
    c.opcode == OPC_CONTROL || c.opcode == OPC_PRESET
  }

  /** A fan-out over distinct groups reaches a device once if its group is listed, else not at all. */
  lemma {:induction false} FanOut(n: Node, ids: seq<int>, c: Content, ps: seq<Packet>)
    requires EffectContent(c) && Distinct(ids) && ValidGroups(ids) && |ps| == |ids|
    requires forall i :: 0 <= i < |ids| ==> ps[i] == PacketTo(ALL_RECEIVERS, LowByte(ids[i]), c)
    ensures Run(n, ps) == if n.group in ids then Offer(n, c) else n
    decreases |ids|
  {
    if ids != [] {
      assert ids[0] in ids && ids == [ids[0]] + ids[1..];
      ReceiveEffect(n, ALL_RECEIVERS, LowByte(ids[0]), c);
      OfferKeepsIdentity(n, c);
      FanOut(Receive(n, ps[0]), ids[1..], c, ps[1..]);
    }
  }

  ghost predicate GroupsAreCanonical(t: Target) {
    t.Groups? ==> CanonicalIds(t.ids)
  }

  lemma {:induction false} AscendingIsDistinct(ids: seq<int>)
    requires CanonicalIds(ids)
    ensures Distinct(ids) && ValidGroups(ids)
  {
    forall g | g in ids
      ensures GroupId(g)
    {
      var i :| 0 <= i < |ids| && ids[i] == g;
    }
  }

  /** Sending prepared parameters to a resolved target. */
  lemma {:induction false} TargetRun(n: Node, t: Target, env: Env, c: Content, ps: seq<Packet>)
    requires GroupsAreCanonical(t) && EffectContent(c) && ResolveTarget(t, env.devices).Some?
    requires var ds := ResolveTarget(t, env.devices).value;
             && |ps| == |ds|
             && forall i :: 0 <= i < |ds| ==> ps[i] == PacketTo(ReceiverOf(ds[i]), BodyGroupOf(ds[i]), c)
    ensures Run(n, ps) == if Reaches(t, env, n) then Offer(n, c) else n
  {
    var ds := ResolveTarget(t, env.devices).value;
    if t.Groups? {
      AscendingIsDistinct(t.ids);
      FanOut(n, t.ids, c, ps);
    } else {
      assert ps == [ps[0]];
      RunOne(n, ps[0]);
      ReceiveEffect(n, ReceiverOf(ds[0]), BodyGroupOf(ds[0]), c);
    }
  }

  /** A planned effect reaches every device its target names exactly once. */
  lemma {:induction false} EffectRun(n: Node, e: Effect, env: Env, force: Option<bool>, ts: int)
    requires !e.kind.Startblock? && GroupsAreCanonical(e.target)
    requires PlanEffect(e, env, force).Plan? && !PlanEffect(e, env, force).degraded
    requires ContentOf(e.kind, Prepare(e, env, force).params).Some?
    ensures var ops := PlanEffect(e, env, force).ops;
            && AllSend(ops, ts)
            && Run(n, PacketsOf(ops, ts))
               == if Reaches(e.target, env, n) then Offer(n, ContentOf(e.kind, Prepare(e, env, force).params).value) else n
  {
    var p := Prepare(e, env, force);
    var c, ds := ContentOf(e.kind, p.params).value, ResolveTarget(e.target, env.devices).value;
    EffectSends(e.kind, ds, p.params, p.bytes, c, ts);
    ContentFlag(e.kind, p.params);
    TargetRun(n, e.target, env, c, PacketsOf(EffectOps(e.kind, ds, p.params, p.bytes), ts));
  }

  /** An effect whose sender raises puts nothing on the wire. */
  lemma {:induction false} EffectRaises(e: Effect, env: Env, force: Option<bool>, ts: int)
    requires !e.kind.Startblock? && GroupsAreCanonical(e.target)
    requires PlanEffect(e, env, force).Plan? && !PlanEffect(e, env, force).degraded
    requires ContentOf(e.kind, Prepare(e, env, force).params).None?
    ensures var ops := PlanEffect(e, env, force).ops; !AllSend(ops, ts) && PacketsOf(ops, ts) == []
  {
    var p, ops, ds := Prepare(e, env, force), PlanEffect(e, env, force).ops, ResolveTarget(e.target, env.devices).value;
    EffectTransmit(e.kind, ds[0], p.params, p.bytes, ts);
    AttemptAt(ops, ts, 0);
  }

  // ---- the whole container -------------------------------------------------------------------

  /** The children as one device should experience them when its gate is open: one effect, with the given
      offset, for each child that reaches it, in order. */
  function Play(n: Node, children: seq<Effect>, env: Env, force: bool, offset: int): Node
    decreases |children|
  {
    if children == [] then n else Play(PlayOne(n, children[0], env, force, offset), children[1..], env, force, offset)
  }

  function PlayOne(n: Node, e: Effect, env: Env, force: bool, offset: int): Node {
    var p := Prepare(e, env, Some(force));
    var c := if p.Prepared? then ContentOf(e.kind, p.params) else None;
    if c.None? || !Reaches(e.target, env, n) then n else PlayContent(n, c.value, offset)
  }

  lemma {:induction false} OfferIsPlay(n: Node, c: Content)
    ensures var m := PlayContent(n, c, OffsetMsOf(n));
            && Offer(n, c) == (if InOffsetMode(n) == HasBit(c.flags, Packets.FLAG_OFFSET_MODE) then m else n)
            && InOffsetMode(m) == InOffsetMode(n) && OffsetMsOf(m) == OffsetMsOf(n)
  {
  }

  /** One child, planned and sent. */
  lemma {:induction false} ChildRun(n: Node, e: Effect, env: Env, force: bool, phase: Phase, ts: int)
    requires !e.kind.Startblock? && GroupsAreCanonical(e.target)
    requires var plan := PlanEffect(e, env, Some(force)); plan.Plan? && !plan.degraded && AllSend(plan.ops, ts)
    ensures var m := PlayOne(n, e, env, force, OffsetMsOf(n));
            && Run(n, PacketsOf(TagOps(PlanEffect(e, env, Some(force)).ops, phase), ts))
               == (if InOffsetMode(n) == force then m else n)
            && InOffsetMode(m) == InOffsetMode(n) && OffsetMsOf(m) == OffsetMsOf(n)
  {
    var ops, params := PlanEffect(e, env, Some(force)).ops, Prepare(e, env, Some(force)).params;
    TagsDoNotTravel(ops, phase, ts);
    if ContentOf(e.kind, params).None? {
      EffectRaises(e, env, Some(force), ts);
    } else {
      EffectRun(n, e, env, Some(force), ts);
      ForcedFlag(e, env, force);
      ContentFlag(e.kind, params);
      OfferIsPlay(n, ContentOf(e.kind, params).value);
    }
  }

  /** An open gate plays the children with the device's own offset; a closed one changes nothing. */
  lemma {:induction false} ChildrenRun(n: Node, children: seq<Effect>, env: Env, force: bool, index: nat, ts: int)
    requires forall i :: 0 <= i < |children| ==> !children[i].kind.Startblock? && GroupsAreCanonical(children[i].target)
    requires var plan := PlanChildren(children, env, force, index); plan.Plan? && !plan.degraded && AllSend(plan.ops, ts)
    ensures Run(n, PacketsOf(PlanChildren(children, env, force, index).ops, ts))
         == if InOffsetMode(n) == force then Play(n, children, env, force, OffsetMsOf(n)) else n
    decreases |children|
  {
    if children != [] {
      var e := children[0];
      var head, tail := PlanEffect(e, env, Some(force)), PlanChildren(children[1..], env, force, index + 1);
      var tagged := TagOps(head.ops, ChildPhase(index));
      PacketsOfConcat(tagged, tail.ops, ts);
      TagsDoNotTravel(head.ops, ChildPhase(index), ts);
      ChildRun(n, e, env, force, ChildPhase(index), ts);
      var m := Run(n, PacketsOf(tagged, ts));
      RunConcat(n, PacketsOf(tagged, ts), PacketsOf(tail.ops, ts));
      ChildrenRun(m, children[1..], env, force, index + 1, ts);
    }
  }

  /** End to end, for a device of a known group and a canonical container whose plan is not degraded and
      whose senders do not raise: a participant plays exactly the children that reach it, once each and in
      order, with the offset the operator asked for; any other known device plays none, provided it started
      outside offset mode or was cleared (and, for mode none, provided it started in offset mode). */
  lemma {:induction false} ContainerRun(n: Node, target: Target, block: OffsetBlock, children: seq<Effect>, env: Env, ts: int)
    requires Canonical(OffsetGroup(target, block, children)) && ValidGroups(env.known) && n.group in env.known
    requires var plan := PlanContainer(target, block, children, env); plan.Plan? && !plan.degraded && AllSend(plan.ops, ts)
    ensures var m := AfterSetup(n, target, block, env.known);
            Run(n, PacketsOf(PlanContainer(target, block, children, env).ops, ts))
            == if Participates(target, env.known, n.group)
               then Play(m, children, env, !block.NoneBlock?, WantedMs(block, n.group))
               else if InOffsetMode(m) == !block.NoneBlock?
               then Play(m, children, env, !block.NoneBlock?, OffsetMsOf(m))
               else m
    ensures var m := AfterSetup(n, target, block, env.known);
            !Participates(target, env.known, n.group) && !block.NoneBlock?
            && (!InOffsetMode(n) || StrategyFor(target, block, env.known).FormulaPlusOverrides?) ==>
              Run(n, PacketsOf(PlanContainer(target, block, children, env).ops, ts)) == m && !InOffsetMode(m)
  {
    CanonicalSetupInput(target, block, children, env.known);
    var setup, kids := Setup(target, block, env.known).ops, PlanChildren(children, env, !block.NoneBlock?, 0);
    SetupPhase(n, target, block, env.known, ts);
    SetupMeaning(n, target, block, env.known);
    TagsDoNotTravel(setup, OffsetPhase, ts);
    PacketsOfConcat(TagOps(setup, OffsetPhase), kids.ops, ts);
    RunConcat(n, PacketsOf(setup, ts), PacketsOf(kids.ops, ts));
    ChildrenRun(AfterSetup(n, target, block, env.known), children, env, !block.NoneBlock?, 0, ts);
  }

  /** Playing children never moves a device in or out of offset mode, nor its offset. */
  lemma {:induction false} PlayKeepsOffset(n: Node, children: seq<Effect>, env: Env, force: bool, offset: int)
    ensures var m := Play(n, children, env, force, offset);
            Effective(m) == Effective(n) && InOffsetMode(m) == InOffsetMode(n) && OffsetMsOf(m) == OffsetMsOf(n)
    decreases |children|
  {
    if children != [] {
      PlayOneKeepsOffset(n, children[0], env, force, offset);
      PlayKeepsOffset(PlayOne(n, children[0], env, force, offset), children[1..], env, force, offset);
    }
  }

  lemma {:induction false} PlayOneKeepsOffset(n: Node, e: Effect, env: Env, force: bool, offset: int)
    ensures var m := PlayOne(n, e, env, force, offset);
            Effective(m) == Effective(n) && InOffsetMode(m) == InOffsetMode(n) && OffsetMsOf(m) == OffsetMsOf(n)
  {
  }

  /** What a container makes of one device of a known group. */
  function AfterContainer(n: Node, target: Target, block: OffsetBlock, children: seq<Effect>, env: Env): Node
    requires !target.Device?
  {
    var m := AfterSetup(n, target, block, env.known);
    if Participates(target, env.known, n.group) then Play(m, children, env, !block.NoneBlock?, WantedMs(block, n.group))
    else if InOffsetMode(m) == !block.NoneBlock? then Play(m, children, env, !block.NoneBlock?, OffsetMsOf(m))
    else m
  }

  /** The same for a whole fleet of devices of known groups that hear every packet in turn: each participant plays
      the children that reach it and still holds its wanted offset at the end, in offset mode unless the mode is
      none; and every other device that started outside offset mode is left with what it showed before. */
  lemma {:induction false} ContainerFleet(fleet: seq<Node>, target: Target, block: OffsetBlock, children: seq<Effect>, env: Env, ts: int)
    requires Canonical(OffsetGroup(target, block, children)) && ValidGroups(env.known)
    requires forall i :: 0 <= i < |fleet| ==> fleet[i].group in env.known
    requires var plan := PlanContainer(target, block, children, env); plan.Plan? && !plan.degraded && AllSend(plan.ops, ts)
    ensures var after := RunFleet(fleet, PacketsOf(PlanContainer(target, block, children, env).ops, ts));
            && |after| == |fleet|
            && forall i :: 0 <= i < |fleet| ==>
                 && after[i] == AfterContainer(fleet[i], target, block, children, env)
                 && (Participates(target, env.known, fleet[i].group) ==>
                       (InOffsetMode(after[i]) <==> !block.NoneBlock?) && OffsetMsOf(after[i]) == WantedMs(block, fleet[i].group))
                 && (!Participates(target, env.known, fleet[i].group) && !block.NoneBlock? && !InOffsetMode(fleet[i]) ==>
                       after[i].shown == fleet[i].shown && after[i].armed == fleet[i].armed && !InOffsetMode(after[i]))
  {
    var ps := PacketsOf(PlanContainer(target, block, children, env).ops, ts);
    FleetRunsApart(fleet, ps);
    CanonicalSetupInput(target, block, children, env.known);
    forall i | 0 <= i < |fleet|
      ensures RunFleet(fleet, ps)[i] == AfterContainer(fleet[i], target, block, children, env)
      ensures Participates(target, env.known, fleet[i].group) ==>
                var m := RunFleet(fleet, ps)[i];
                (InOffsetMode(m) <==> !block.NoneBlock?) && OffsetMsOf(m) == WantedMs(block, fleet[i].group)
      ensures !Participates(target, env.known, fleet[i].group) && !block.NoneBlock? && !InOffsetMode(fleet[i]) ==>
                var m := RunFleet(fleet, ps)[i];
                m.shown == fleet[i].shown && m.armed == fleet[i].armed && !InOffsetMode(m)
    {
      ContainerRun(fleet[i], target, block, children, env, ts);
      SetupMeaning(fleet[i], target, block, env.known);
      PlayKeepsOffset(AfterSetup(fleet[i], target, block, env.known), children, env, !block.NoneBlock?, WantedMs(block, fleet[i].group));
    }
  }

  lemma {:induction false} CanonicalSetupInput(target: Target, block: OffsetBlock, children: seq<Effect>, known: seq<int>)
    requires Canonical(OffsetGroup(target, block, children)) && ValidGroups(known)
    ensures SetupInput(target, block, known)
    ensures forall i :: 0 <= i < |children| ==> !children[i].kind.Startblock? && GroupsAreCanonical(children[i].target)
  {
  }

  // ---- the gate, packet by packet --------------------------------------------------------------

  lemma {:induction false} ChildPackets(children: seq<Effect>, env: Env, force: bool, index: nat, ts: int)
    requires forall i :: 0 <= i < |children| ==> !children[i].kind.Startblock?
    requires PlanChildren(children, env, force, index).Plan?
    ensures forall p :: p in PacketsOf(PlanChildren(children, env, force, index).ops, ts) ==>
              IsEffect(p) && (HasBit(p.body[1], Packets.FLAG_OFFSET_MODE) <==> force)
    decreases |children|
  {
    if children != [] {
      var head, tail := PlanEffect(children[0], env, Some(force)), PlanChildren(children[1..], env, force, index + 1);
      ChildPackets(children[1..], env, force, index + 1, ts);
      EffectPackets(children[0], env, force, ts);
      TagsDoNotTravel(head.ops, ChildPhase(index), ts);
      PacketsOfConcat(TagOps(head.ops, ChildPhase(index)), tail.ops, ts);
    }
  }

  lemma {:induction false} UntilNoneMember(s: seq<Option<Packet>>, p: Packet)
    requires p in UntilNone(s)
    ensures exists i :: 0 <= i < |s| && s[i] == Some(p)
  {
    if p != s[0].value {
      UntilNoneMember(s[1..], p);
      var i :| 0 <= i < |s[1..]| && s[1..][i] == Some(p);
      assert s[i + 1] == Some(p);
    }
  }

  lemma {:induction false} EffectPackets(e: Effect, env: Env, force: bool, ts: int)
    requires !e.kind.Startblock? && PlanEffect(e, env, Some(force)).Plan?
    ensures forall p :: p in PacketsOf(PlanEffect(e, env, Some(force)).ops, ts) ==>
              IsEffect(p) && (HasBit(p.body[1], Packets.FLAG_OFFSET_MODE) <==> force)
  {
    var ops := PlanEffect(e, env, Some(force)).ops;
    forall p | p in PacketsOf(ops, ts)
      ensures IsEffect(p) && (HasBit(p.body[1], Packets.FLAG_OFFSET_MODE) <==> force)
    {
      UntilNoneMember(Attempts(ops, ts), p);
      var i :| 0 <= i < |ops| && Attempts(ops, ts)[i] == Some(p);
      AttemptAt(ops, ts, i);
      var prep, ds := Prepare(e, env, Some(force)), ResolveTarget(e.target, env.devices).value;
      EffectTransmit(e.kind, ds[i], prep.params, prep.bytes, ts);
      ContentFlag(e.kind, prep.params);
      ForcedFlag(e, env, force);
    }
  }

  /** Against children packets alone, a device's gate stays as it is on entry. */
  lemma {:induction false} ChildGate(m: Node, k: seq<Packet>, force: bool, j: nat)
    requires j < |k|
    requires forall p :: p in k ==> IsEffect(p) && (HasBit(p.body[1], Packets.FLAG_OFFSET_MODE) <==> force)
    ensures IsEffect(k[j])
    ensures Accepts(Run(m, k[..j]), k[j]) <==> Addressed(m, k[j]) && InOffsetMode(m) == force
  {
    assert k[j] in k;
    forall q | 0 <= q < j
      ensures k[..j][q].opcode != OPC_OFFSET
    {
      assert k[q] in k;
    }
    StateChangesOnlyByOffset(m, k[..j]);
  }

  lemma {:induction false} ContainerPackets(target: Target, block: OffsetBlock, children: seq<Effect>, env: Env, ts: int)
    requires SetupInput(target, block, env.known) && PlanContainer(target, block, children, env).Plan?
    ensures var setup, kids := Setup(target, block, env.known).ops, PlanChildren(children, env, !block.NoneBlock?, 0);
            && PacketsOf(PlanContainer(target, block, children, env).ops, ts) == PacketsOf(setup, ts) + PacketsOf(kids.ops, ts)
            && |PacketsOf(setup, ts)| == |setup|
  {
    var setup, kids := Setup(target, block, env.known).ops, PlanChildren(children, env, !block.NoneBlock?, 0);
    SetupPhase(Node("", 0, NoOffset, None, None, []), target, block, env.known, ts);
    TagsDoNotTravel(setup, OffsetPhase, ts);
    PacketsOfConcat(TagOps(setup, OffsetPhase), kids.ops, ts);
    PacketsOfSending(setup, ts);
  }

  /** A preset child addressed to all, without parameters of its own. */
  predicate PlainChild(e: Effect) {
    e.kind.WledPreset? && e.target.Broadcast? && e.params == map[]
  }

  lemma {:induction false} PlainChildSends(e: Effect, env: Env, force: bool, ts: int)
    requires PlainChild(e)
    ensures var p := PlanEffect(e, env, Some(force)); p.Plan? && !p.degraded && |p.ops| == 1 && AllSend(p.ops, ts)
  {
    var params := Prepare(e, env, Some(force)).params;
    assert "presetId" !in params && "brightness" !in params;
    var c := ContentOf(e.kind, params).value;
    var ds := ResolveTarget(e.target, env.devices).value;
    EffectSends(e.kind, ds, params, Prepare(e, env, Some(force)).bytes, c, ts);
  }

  lemma {:induction false} PlainChildrenSend(children: seq<Effect>, env: Env, force: bool, index: nat, ts: int)
    requires forall i :: 0 <= i < |children| ==> PlainChild(children[i])
    ensures var p := PlanChildren(children, env, force, index);
            p.Plan? && !p.degraded && |p.ops| == |children| && AllSend(p.ops, ts)
    decreases |children|
  {
    if children != [] {
      var head := PlanEffect(children[0], env, Some(force));
      PlainChildSends(children[0], env, force, ts);
      PlainChildrenSend(children[1..], env, force, index + 1, ts);
      TagsDoNotTravel(head.ops, ChildPhase(index), ts);
      PacketsOfConcat(TagOps(head.ops, ChildPhase(index)), PlanChildren(children[1..], env, force, index + 1).ops, ts);
    }
  }

  /** Containers of such children always plan and send in full, so the theorems around this one speak about every
      canonical container with them: one packet per child after the offset packets. */
  lemma {:induction false} PlainContainerSends(target: Target, block: OffsetBlock, children: seq<Effect>, env: Env, ts: int)
    requires Canonical(OffsetGroup(target, block, children)) && ValidGroups(env.known)
    requires forall i :: 0 <= i < |children| ==> PlainChild(children[i])
    ensures var plan := PlanContainer(target, block, children, env);
            && plan.Plan? && !plan.degraded && AllSend(plan.ops, ts)
            && |PacketsOf(plan.ops, ts)| == |Setup(target, block, env.known).ops| + |children|
  {
    CanonicalSetupInput(target, block, children, env.known);
    var setup, kids := Setup(target, block, env.known).ops, PlanChildren(children, env, !block.NoneBlock?, 0);
    SetupSends(target, block, env.known, ts);
    PlainChildrenSend(children, env, !block.NoneBlock?, 0, ts);
    TagsDoNotTravel(setup, OffsetPhase, ts);
    PacketsOfConcat(TagOps(setup, OffsetPhase), kids.ops, ts);
    PacketsOfSending(TagOps(setup, OffsetPhase) + kids.ops, ts);
  }

  lemma {:induction false} SetupSends(target: Target, block: OffsetBlock, known: seq<int>, ts: int)
    requires SetupInput(target, block, known)
    ensures AllSend(Setup(target, block, known).ops, ts)
  {
    var anyone := Node("", 0, NoOffset, None, None, []);
    SetupPhase(anyone, target, block, known, ts);
  }

  /** Every child packet, at the moment it is sent and even if a later sender raises, is accepted by a known
      device exactly when it addresses the device and the device is a participant, or a non-participant
      whose own state happens to match the container's mode. */
  lemma {:induction false} ContainerGate(n: Node, target: Target, block: OffsetBlock, children: seq<Effect>, env: Env, ts: int, i: nat)
    requires Canonical(OffsetGroup(target, block, children)) && ValidGroups(env.known) && n.group in env.known
    requires PlanContainer(target, block, children, env).Plan?
    requires var ps := PacketsOf(PlanContainer(target, block, children, env).ops, ts);
             |Setup(target, block, env.known).ops| <= i < |ps|
    ensures var ps := PacketsOf(PlanContainer(target, block, children, env).ops, ts);
            && IsEffect(ps[i])
            && (Accepts(Run(n, ps[..i]), ps[i])
                <==> Addressed(n, ps[i])
                     && (Participates(target, env.known, n.group)
                         || (if block.NoneBlock? then !InOffsetMode(n)
                             else InOffsetMode(n) && !StrategyFor(target, block, env.known).FormulaPlusOverrides?)))
  {
    CanonicalSetupInput(target, block, children, env.known);
    var setup, kids := Setup(target, block, env.known).ops, PlanChildren(children, env, !block.NoneBlock?, 0);
    ContainerPackets(target, block, children, env, ts);
    SetupPhase(n, target, block, env.known, ts);
    SetupMeaning(n, target, block, env.known);
    ChildPackets(children, env, !block.NoneBlock?, 0, ts);
    SplitGate(n, PacketsOf(setup, ts), PacketsOf(kids.ops, ts), !block.NoneBlock?, i);
  }

  lemma {:induction false} SplitGate(n: Node, s: seq<Packet>, k: seq<Packet>, force: bool, i: nat)
    requires |s| <= i < |s| + |k|
    requires forall p :: p in k ==> IsEffect(p) && (HasBit(p.body[1], Packets.FLAG_OFFSET_MODE) <==> force)
    requires OffsetPackets(s)
    ensures IsEffect((s + k)[i])
    ensures Accepts(Run(n, (s + k)[..i]), (s + k)[i]) <==> Addressed(n, (s + k)[i]) && InOffsetMode(Run(n, s)) == force
  {
    var j := i - |s|;
    assert (s + k)[..i] == s + k[..j] && (s + k)[i] == k[j];
    RunConcat(n, s, k[..j]);
    ChildGate(Run(n, s), k, force, j);
    ArmedEffectIsASnapshot(n, s);
  }
}
