/** From a canonical action to the ordered list of sends, and from a send to the packet it transmits. */
module Planner {
  import opened Basics
  import opened JsonValues
  import opened Offsets
  import opened SceneActions
  import opened Optimizer
  import Packets
  import ControlBody

  datatype Preset = Preset(params: Object, flags: map<string, bool>)

  /** The planner's inputs besides the action. A missing lookup is a service that is not wired. */
  datatype Env = Env(known: seq<int>, presets: Option<map<Json, Preset>>, devices: Option<map<string, HostDevice>>)

  /** `Raised` is an exception out of the planner: a parameter that `int()` refuses. */
  datatype PlanResult = Plan(ops: seq<WireOp>, degraded: bool) | Raised

  // ---- targets, presets, flags ------------------------------------------------------

  function GroupDestinations(ids: seq<int>): (r: seq<Destination>)
    ensures |r| == |ids| && forall i :: 0 <= i < |ids| ==> r[i] == ToGroup(ids[i])
  {
    if ids == [] then [] else [ToGroup(ids[0])] + GroupDestinations(ids[1..])
  }

  function ResolveTarget(t: Target, devices: Option<map<string, HostDevice>>): Option<seq<Destination>> {
    match t
    case Broadcast => Some([ToGroup(BROADCAST_GROUP)])
    case Groups(ids) => if ids == [] then None else Some(GroupDestinations(ids))
    case Device(mac) =>
      if devices.None? || mac !in devices.value then None else Some([ToDevice(devices.value[mac])])
  }

  datatype Materialised = Ready(params: Object, flags: map<string, bool>) | NotFound | BadValue

  /** The parameters and persisted flags an effect starts from; `rl_preset` reads them from the preset. */
  function Materialise(e: Effect, presets: Option<map<Json, Preset>>): Materialised {
    if !e.kind.RlPreset? then Ready(e.params, map[])
    else
      var ref := Get(e.params, "presetId");
      if ref == JNull then NotFound
      else if presets.None? then Ready(e.params - {"presetId"}, map[])
      else if ref !in presets.value then NotFound
      else
        var p, bri := presets.value[ref], Get(e.params, "brightness");
        if bri == JNull then Ready(p.params, p.flags)
        else if ToInt(bri).Err? then BadValue
        else Ready(p.params["brightness" := JInt(ToInt(bri).value)], p.flags)
  }

  predicate FlagValue(k: string, persisted: map<string, bool>, override: map<string, bool>) {
    if k in override then override[k] else k in persisted && persisted[k]
  }

  /** True flags are written into the parameters, false ones are stripped from them. */
  function MergeFlags(base: Object, persisted: map<string, bool>, override: map<string, bool>): Object {
    (map k | k in base && k !in FLAG_KEYS :: base[k])
    + (map k | k in FLAG_KEYS && FlagValue(k, persisted, override) :: JBool(true))
  }

  method MergeFlagsLoop(base: Object, persisted: map<string, bool>, override: map<string, bool>) returns (merged: Object)
    ensures merged == MergeFlags(base, persisted, override)
  {
    merged := base;
    for i := 0 to |FLAG_KEYS|
      invariant forall k :: k in FLAG_KEYS[..i] ==> (k in merged <==> FlagValue(k, persisted, override))
      invariant forall k :: k in FLAG_KEYS[..i] && k in merged ==> merged[k] == JBool(true)
      invariant forall k :: k !in FLAG_KEYS[..i] ==> (k in merged <==> k in base)
      invariant forall k :: k !in FLAG_KEYS[..i] && k in base ==> merged[k] == base[k]
    {
      var key := FLAG_KEYS[i];
      assert FLAG_KEYS[..i + 1] == FLAG_KEYS[..i] + [key];
      merged := if FlagValue(key, persisted, override) then merged[key := JBool(true)] else merged - {key};
    }
    assert FLAG_KEYS[..|FLAG_KEYS|] == FLAG_KEYS;
    MergedIs(base, persisted, override, merged);
  }

  lemma {:induction false} MergedIs(base: Object, persisted: map<string, bool>, override: map<string, bool>, merged: Object)
    requires forall k :: k in FLAG_KEYS ==> (k in merged <==> FlagValue(k, persisted, override))
    requires forall k :: k in FLAG_KEYS && k in merged ==> merged[k] == JBool(true)
    requires forall k :: k !in FLAG_KEYS ==> (k in merged <==> k in base)
    requires forall k :: k !in FLAG_KEYS && k in base ==> merged[k] == base[k]
    ensures merged == MergeFlags(base, persisted, override)
  {
    var want := MergeFlags(base, persisted, override);
    forall k
      ensures k in merged <==> k in want
    {
    }
    forall k | k in merged
      ensures merged[k] == want[k]
    {
    }
  }

  function Override(e: Effect, force: Option<bool>): map<string, bool> {
    if force.None? then e.flags else e.flags["offset_mode" := force.value]
  }

  // ---- control fields --------------------------------------------------------------------

  function IntField(params: Object, k: string): Result<Option<int>> {
    if Get(params, k) == JNull then Ok(None)
    else
      var v :- ToInt(params[k]);
      Ok(Some(v))
  }

  function CheckField(params: Object, k: string): Option<bool> {
    if Get(params, k) == JNull then None else Some(Truthy(params[k]))
  }

  function ColorField(params: Object, k: string): Result<Option<ControlBody.Rgb>> {
    var c := Get(params, k);
    if c == JNull then Ok(None)
    else
      var items :- AsList(c);
      if |items| != 3 then Err(ValueError)
      else
        var r :- ToInt(items[0]);
        var g :- ToInt(items[1]);
        var b :- ToInt(items[2]);
        Ok(Some(ControlBody.Rgb(r, g, b)))
  }

  /** The fields of an OPC_CONTROL body that a parameter object supplies. */
  function ControlFields(params: Object): Result<ControlBody.Fields> {
    var brightness :- IntField(params, "brightness");
    var mode :- IntField(params, "mode");
    var speed :- IntField(params, "speed");
    var intensity :- IntField(params, "intensity");
    var custom1 :- IntField(params, "custom1");
    var custom2 :- IntField(params, "custom2");
    var custom3 :- IntField(params, "custom3");
    var palette :- IntField(params, "palette");
    var color1 :- ColorField(params, "color1");
    var color2 :- ColorField(params, "color2");
    var color3 :- ColorField(params, "color3");
    Ok(ControlBody.Fields(brightness, mode, speed, intensity, custom1, custom2, custom3,
                          CheckField(params, "check1"), CheckField(params, "check2"), CheckField(params, "check3"),
                          palette, color1, color2, color3))
  }

  /** The predicted OPC_CONTROL length, sized with group 0 and no flags. */
  function ControlBodyLen(params: Object): Result<nat> {
    var f :- ControlFields(params);
    Ok(|ControlBody.Body(0, 0, f)|)
  }

  // ---- effects ---------------------------------------------------------------------------

  function TargetGroupOf(d: Destination): int {
    match d
    case ToGroup(g) => g
    case ToDevice(dev) => if GroupId(dev.groupId) then dev.groupId else BROADCAST_GROUP
  }

  function SenderOf(k: EffectKind): Sender {
    match k
    case WledPreset => SendPreset
    case Startblock => SendStartblock
    case RlPreset => SendControl
    case WledControl => SendControl
  }

  function EffectOp(k: EffectKind, d: Destination, params: Object, bytes: nat): WireOp {
    WireOp(SenderOf(k), TargetGroupOf(d), EffectPayload(d, params), bytes, TopLevel)
  }

  function EffectOps(k: EffectKind, ds: seq<Destination>, params: Object, bytes: nat): (r: seq<WireOp>)
    ensures |r| == |ds| && forall i :: 0 <= i < |ds| ==> r[i] == EffectOp(k, ds[i], params, bytes)
  {
    if ds == [] then [] else [EffectOp(k, ds[0], params, bytes)] + EffectOps(k, ds[1..], params, bytes)
  }

  /** Merged parameters and predicted length of an effect, or why there are none. */
  datatype Prepared = Prepared(params: Object, bytes: nat) | Unprepared(raised: bool)

  function Prepare(e: Effect, env: Env, force: Option<bool>): Prepared {
    var m := Materialise(e, env.presets);
    if m.NotFound? then Unprepared(false)
    else if m.BadValue? then Unprepared(true)
    else
      var params := MergeFlags(m.params, m.flags, Override(e, force));
      if e.kind.WledPreset? then Prepared(params, |Packets.BuildPresetBody(0, 0, 0, 0)|)
      else
        var n := ControlBodyLen(params);
        if n.Err? then Unprepared(true) else Prepared(params, n.value)
  }

  function PlanEffect(e: Effect, env: Env, force: Option<bool>): PlanResult {
    var ds := ResolveTarget(e.target, env.devices);
    if ds.None? then Plan([], true)
    else
      var p := Prepare(e, env, force);
      if p.Unprepared? then (if p.raised then Raised else Plan([], true))
      else Plan(EffectOps(e.kind, ds.value, p.params, p.bytes), false)
  }

  // ---- containers and actions ----------------------------------------------------------------

  function TagOps(ops: seq<WireOp>, phase: Phase): (r: seq<WireOp>)
    ensures |r| == |ops| && forall i :: 0 <= i < |ops| ==> r[i] == ops[i].(phase := phase)
  {
    if ops == [] then [] else [ops[0].(phase := phase)] + TagOps(ops[1..], phase)
  }

  /** Plans of the children from `index` on; one raising child raises, one degraded child degrades. */
  function PlanChildren(children: seq<Effect>, env: Env, force: bool, index: nat): PlanResult
    decreases |children|
  {
    if children == [] then Plan([], false)
    else
      var head := PlanEffect(children[0], env, Some(force));
      if head.Raised? then Raised
      else
        var tail := PlanChildren(children[1..], env, force, index + 1);
        if tail.Raised? then Raised
        else Plan(TagOps(head.ops, ChildPhase(index)) + tail.ops, head.degraded || tail.degraded)
  }

  /** Offset packets first, then every child with the OFFSET_MODE flag forced by the container's mode. */
  function PlanContainer(target: Target, block: OffsetBlock, children: seq<Effect>, env: Env): PlanResult
    requires !target.Device?
  {
    Assemble(Setup(target, block, env.known).ops, PlanChildren(children, env, !block.NoneBlock?, 0))
  }

  function Assemble(setup: seq<WireOp>, kids: PlanResult): PlanResult {
    if kids.Raised? then Raised else Plan(TagOps(setup, OffsetPhase) + kids.ops, kids.degraded)
  }

  const SYNC_OP := WireOp(SendSync, BROADCAST_GROUP, SyncPayload(0, true),
                          |Packets.BuildSyncBody(0, 0, Packets.SYNC_TRIGGER_ARMED)|, TopLevel)

  /** A container addressed to a device never passes validation; the planner raises on it. */
  function PlanAction(a: Action, env: Env): PlanResult {
    match a
    case Act(e) => PlanEffect(e, env, None)
    case Sync => Plan([SYNC_OP], false)
    case Delay(_) => Plan([], false)
    case OffsetGroup(target, block, children) =>
      if target.Device? then Raised else PlanContainer(target, block, children, env)
  }

  lemma {:induction false} ChildStep(children: seq<Effect>, env: Env, force: bool, i: nat, kids: seq<WireOp>, degraded: bool)
    requires i < |children|
    ensures var child, rest := PlanEffect(children[i], env, Some(force)), PlanChildren(children[i..], env, force, i);
            var next := PlanChildren(children[i + 1..], env, force, i + 1);
            && (child.Raised? ==> rest.Raised?)
            && (child.Plan? ==> Extend(kids, degraded, rest)
                                == Extend(kids + TagOps(child.ops, ChildPhase(i)), degraded || child.degraded, next))
  {
    assert children[i..][1..] == children[i + 1..];
    var child, next := PlanEffect(children[i], env, Some(force)), PlanChildren(children[i + 1..], env, force, i + 1);
    if child.Plan? && next.Plan? {
      var tagged := TagOps(child.ops, ChildPhase(i));
      assert kids + (tagged + next.ops) == (kids + tagged) + next.ops;
    }
  }

  function Extend(ops: seq<WireOp>, degraded: bool, rest: PlanResult): PlanResult {
    if rest.Raised? then Raised else Plan(ops + rest.ops, degraded || rest.degraded)
  }

  /** The container loop: extends the op list child by child. */
  method PlanOffsetGroup(target: Target, block: OffsetBlock, children: seq<Effect>, env: Env) returns (r: PlanResult)
    requires !target.Device?
    ensures r == PlanContainer(target, block, children, env)
  {
    var setup := PlanOffsetSetup(target, block, env.known);
    var ops := TagOps(setup.ops, OffsetPhase);
    var anyDegraded, force := false, !block.NoneBlock?;
    ghost var all := PlanContainer(target, block, children, env);
    assert children[0..] == children;
    for i := 0 to |children|
      invariant all == Extend(ops, anyDegraded, PlanChildren(children[i..], env, force, i))
    {
      ChildStep(children, env, force, i, ops, anyDegraded);
      var child := PlanEffect(children[i], env, Some(force));
      if child.Raised? {
        return Raised;
      }
      if child.degraded {
        anyDegraded := true;
      }
      ops := ops + TagOps(child.ops, ChildPhase(i));
    }
    assert ops + [] == ops;
    r := Plan(ops, anyDegraded);
  }

  // ---- transmission ---------------------------------------------------------------------

  const OPC_PRESET: byte := 0x04
  const OPC_SYNC: byte := 0x06
  const OPC_STREAM: byte := 0x07
  const OPC_CONTROL: byte := 0x08
  const OPC_OFFSET: byte := 0x09

  const ALL_RECEIVERS := "FFFFFF"

  datatype Packet = Packet(receiver: string, opcode: byte, body: seq<byte>)

  function ReceiverOf(d: Destination): string {
    if d.ToGroup? then ALL_RECEIVERS else d.dev.last3
  }

  function BodyGroupOf(d: Destination): byte {
    if d.ToGroup? then LowByte(d.group) else LowByte(d.dev.groupId)
  }

  /** The flag byte both effect packets carry; POWER_ON follows the brightness. */
  function UserFlags(params: Object, powerOn: bool): byte {
    Packets.FlagsByte(Packets.Flags(
                        powerOn, true, Truthy(Get(params, "arm_on_sync")), Truthy(Get(params, "force_tt0")),
                        Truthy(Get(params, "force_reapply")), Truthy(Get(params, "offset_mode"))))
  }

  function ControlPacket(d: Destination, params: Object): Option<Packet> {
    var f := ControlFields(params);
    if f.Err? then None
    else
      var bri := if f.value.brightness.None? then 0 else LowByte(f.value.brightness.value);
      Some(Packet(ReceiverOf(d), OPC_CONTROL, ControlBody.Body(BodyGroupOf(d), UserFlags(params, bri > 0), f.value)))
  }

  function PresetPacket(d: Destination, params: Object): Option<Packet> {
    var id, bri := ToInt(GetOr(params, "presetId", JInt(1))), ToInt(GetOr(params, "brightness", JInt(0)));
    if id.Err? || bri.Err? then None
    else
      Some(Packet(ReceiverOf(d), OPC_PRESET,
                  Packets.BuildPresetBody(BodyGroupOf(d), UserFlags(params, bri.value > 0), id.value, bri.value)))
  }

  /** The packet a send puts on the wire at clock value `ts`; `None` is an exception in the sender. The
      bytes of a startblock stream are not modelled. */
  function Transmit(op: WireOp, ts: int): Option<Packet> {
    match op.payload
    case OffsetPayload(config) =>
      Some(Packet(ALL_RECEIVERS, OPC_OFFSET, Packets.BuildOffsetBody(LowByte(op.targetGroup), config)))
    case EffectPayload(d, params) =>
      if op.sender.SendPreset? then PresetPacket(d, params)
      else if op.sender.SendStartblock? then Some(Packet(ReceiverOf(d), OPC_STREAM, []))
      else ControlPacket(d, params)
    case SyncPayload(brightness, armed) =>
      Some(Packet(ALL_RECEIVERS, OPC_SYNC,
                  Packets.BuildSyncBody(ts, brightness, if armed then Packets.SYNC_TRIGGER_ARMED else 0)))
  }

  // ---- predicted and transmitted lengths --------------------------------------------------------

  /** The length of a control body does not depend on group or flags. */
  lemma {:induction false} PredictedControlLength(d: Destination, params: Object)
    ensures ControlBodyLen(params).Ok? <==> ControlPacket(d, params).Some?
    ensures ControlBodyLen(params).Ok? ==> |ControlPacket(d, params).value.body| == ControlBodyLen(params).value
  {
    var f := ControlFields(params);
    if f.Ok? {
      ControlBody.ControlBodyShape(0, 0, f.value);
      var bri := if f.value.brightness.None? then 0 else LowByte(f.value.brightness.value);
      ControlBody.ControlBodyShape(BodyGroupOf(d), UserFlags(params, bri > 0), f.value);
    }
  }

  /** A planned op predicts the length of the body its sender builds. */
  ghost predicate Predicted(op: WireOp, ts: int) {
    op.sender.SendStartblock? || (var p := Transmit(op, ts); p.Some? ==> |p.value.body| == op.bodyBytes)
  }

  ghost predicate AllPredicted(ops: seq<WireOp>, ts: int) {
    forall i :: 0 <= i < |ops| ==> Predicted(ops[i], ts)
  }

  lemma {:induction false} OffsetOpPredicted(g: int, c: Offset, ts: int)
    ensures Predicted(OffsetOp(g, c), ts)
  {
    Packets.OffsetBodyRoundTrip(g, PayloadConfig(c));
    Packets.OffsetBodyRoundTrip(LowByte(g), PayloadConfig(c));
  }

  lemma {:induction false} SetupPredicted(target: Target, block: OffsetBlock, known: seq<int>, ts: int)
    requires !target.Device?
    ensures AllPredicted(Setup(target, block, known).ops, ts)
  {
    var plan := Setup(target, block, known);
    if Candidates(target, block, known) != [] {
      assert plan in Candidates(target, block, known);
      assert plan in CandidateA(target, block) || plan in CandidateB(target, block, known) || plan in CandidateC(target, block, known);
      forall i | 0 <= i < |plan.ops|
        ensures exists g, c :: plan.ops[i] == OffsetOp(g, c)
      {
      }
      forall i | 0 <= i < |plan.ops|
        ensures Predicted(plan.ops[i], ts)
      {
        var g, c :| plan.ops[i] == OffsetOp(g, c);
        OffsetOpPredicted(g, c, ts);
      }
    }
  }

  lemma {:induction false} EffectPredicted(e: Effect, env: Env, force: Option<bool>, ts: int)
    ensures PlanEffect(e, env, force).Plan? ==> AllPredicted(PlanEffect(e, env, force).ops, ts)
  {
    var ds, p := ResolveTarget(e.target, env.devices), Prepare(e, env, force);
    if ds.Some? && p.Prepared? {
      forall i | 0 <= i < |ds.value|
        ensures Predicted(EffectOp(e.kind, ds.value[i], p.params, p.bytes), ts)
      {
        EffectOpPredicted(e.kind, ds.value[i], p.params, p.bytes, ts);
      }
    }
  }

  lemma {:induction false} EffectOpPredicted(k: EffectKind, d: Destination, params: Object, bytes: nat, ts: int)
    requires k.WledPreset? ==> bytes == 4
    requires k.RlPreset? || k.WledControl? ==> ControlBodyLen(params) == Ok(bytes)
    ensures Predicted(EffectOp(k, d, params, bytes), ts)
  {
    if k.RlPreset? || k.WledControl? {
      PredictedControlLength(d, params);
    }
  }

  lemma {:induction false} SyncPredicted(ts: int)
    ensures Predicted(SYNC_OP, ts)
  {
  }

  lemma {:induction false} ChildrenPredicted(children: seq<Effect>, env: Env, force: bool, index: nat, ts: int)
    ensures PlanChildren(children, env, force, index).Plan? ==> AllPredicted(PlanChildren(children, env, force, index).ops, ts)
    decreases |children|
  {
    if children != [] {
      EffectPredicted(children[0], env, Some(force), ts);
      ChildrenPredicted(children[1..], env, force, index + 1, ts);
      var head := PlanEffect(children[0], env, Some(force));
      if PlanChildren(children, env, force, index).Plan? {
        TagPredicted(head.ops, ChildPhase(index), ts);
        BothPredicted(TagOps(head.ops, ChildPhase(index)), PlanChildren(children[1..], env, force, index + 1).ops, ts);
      }
    }
  }

  lemma {:induction false} ContainerPredicted(target: Target, block: OffsetBlock, children: seq<Effect>, env: Env, ts: int)
    requires !target.Device?
    ensures PlanContainer(target, block, children, env).Plan? ==>
              AllPredicted(PlanContainer(target, block, children, env).ops, ts)
  {
    SetupPredicted(target, block, env.known, ts);
    ChildrenPredicted(children, env, !block.NoneBlock?, 0, ts);
    var kids := PlanChildren(children, env, !block.NoneBlock?, 0);
    TagPredicted(Setup(target, block, env.known).ops, OffsetPhase, ts);
    if kids.Plan? {
      BothPredicted(TagOps(Setup(target, block, env.known).ops, OffsetPhase), kids.ops, ts);
    }
  }

  lemma {:induction false} TagPredicted(ops: seq<WireOp>, phase: Phase, ts: int)
    requires AllPredicted(ops, ts)
    ensures AllPredicted(TagOps(ops, phase), ts)
  {
    forall i | 0 <= i < |ops|
      ensures Predicted(TagOps(ops, phase)[i], ts)
    {
      assert Predicted(ops[i], ts);
    }
  }

  lemma {:induction false} BothPredicted(a: seq<WireOp>, b: seq<WireOp>, ts: int)
    requires AllPredicted(a, ts) && AllPredicted(b, ts)
    ensures AllPredicted(a + b, ts)
  {
  }

  /** Every op of every plan, containers included, predicts the transmitted body length. */
  lemma {:induction false} PlanPredictsLengths(a: Action, env: Env, ts: int)
    ensures PlanAction(a, env).Plan? ==> AllPredicted(PlanAction(a, env).ops, ts)
  {
    match a
    case Act(e) => EffectPredicted(e, env, None, ts);
    case Sync => SyncPredicted(ts);
    case Delay(_) =>
    case OffsetGroup(target, block, children) =>
      if !target.Device? {
        ContainerPredicted(target, block, children, env, ts);
      }
  }
}
