/** Pricing a scene before it runs, and how the price relates to what a run dispatches. */
module Estimator {
  import opened Basics
  import opened JsonValues
  import opened Offsets
  import opened SceneActions
  import opened Optimizer
  import opened Planner
  import opened Fleet
  import opened Runner

  const RADIO_HEADER_BYTES := 7
  const USB_FRAMING_BYTES := 2
  const WIRE_OVERHEAD_MS := 12.0
  const LORA_SF := 7
  const LORA_CR := 5
  const SYMBOL_MS := 1.024  // 2^7 / 125 kHz
  const FIXED_SYMBOLS := 12.25

  function CeilDiv(a: int, b: int): int
    requires b > 0
  {
    -((-a) / b)
  }

  /** Payload symbols at SF7, explicit header, CRC on, no low-data-rate optimisation. */
  function PayloadSymbols(payload: int): int {
    Max(0, CeilDiv(8 * Max(1, payload) - 4 * LORA_SF + 28 + 16, 4 * LORA_SF)) * LORA_CR + 8
  }

  function AirtimeMs(payload: int): real {
    (FIXED_SYMBOLS + PayloadSymbols(payload) as real) * SYMBOL_MS
  }

  /** The ceiling is exact, so a packet pays for five more symbols each time 28 further bits are started,
      and a longer packet never costs less. */
  lemma {:induction false} AirtimeSteps(p: int, q: int)
    requires 1 <= p <= q
    ensures var blocks := (PayloadSymbols(p) - 8) / 5;
            PayloadSymbols(p) == 8 + 5 * blocks && 28 * (blocks - 1) < 8 * p + 16 <= 28 * blocks
    ensures AirtimeMs(p) <= AirtimeMs(q)
  {
    var a, b := CeilDiv(8 * p + 16, 28), CeilDiv(8 * q + 16, 28);
    assert 28 * (a - 1) < 8 * p + 16 <= 28 * a;
    assert 28 * (b - 1) < 8 * q + 16 <= 28 * b;
    assert a <= b;
    assert PayloadSymbols(p) == 5 * a + 8 && PayloadSymbols(q) == 5 * b + 8;
    assert FIXED_SYMBOLS + PayloadSymbols(p) as real <= FIXED_SYMBOLS + PayloadSymbols(q) as real;
  }

  /** Airtime of a list of ops: one frame each, header included. */
  function OpsAirtime(ops: seq<WireOp>): real {
    if ops == [] then 0.0 else AirtimeMs(ops[0].bodyBytes + RADIO_HEADER_BYTES) + OpsAirtime(ops[1..])
  }

  datatype Cost = Cost(packets: nat, bytes: nat, airtime: real, wallClock: real)

  /** The price of an action from the plan it gets. */
  function PriceOf(a: Action, env: Env): Option<Cost> {
    if a.Delay? then Some(Cost(0, 0, a.ms as real, a.ms as real))
    else
      var plan := PlanAction(a, env);
      if plan.Raised? then None else Some(CostOf(plan.ops))
  }

  class ActionCost {
    var packets: nat
    var bytes: nat
    var airtime: real
    var wallClock: real

    function Value(): Cost
      reads this
    {
      Cost(packets, bytes, airtime, wallClock)
    }

    constructor ()
      ensures Value() == Cost(0, 0, 0.0, 0.0)
    {
      packets, bytes, airtime, wallClock := 0, 0, 0.0, 0.0;
    }

    method AddPacket(bodyBytes: nat)
      modifies this
      ensures packets == old(packets) + 1
      ensures bytes == old(bytes) + bodyBytes + 9
      ensures airtime == old(airtime) + AirtimeMs(bodyBytes + 7)
      ensures wallClock == old(wallClock) + AirtimeMs(bodyBytes + 7) + WIRE_OVERHEAD_MS
    {
      packets := packets + 1;
      var frame := bodyBytes + RADIO_HEADER_BYTES;
      bytes := bytes + frame + USB_FRAMING_BYTES;
      var air := AirtimeMs(frame);
      airtime := airtime + air;
      wallClock := wallClock + air + WIRE_OVERHEAD_MS;
    }

    method Add(c: Cost)
      modifies this
      ensures Value() == Cost(old(packets) + c.packets, old(bytes) + c.bytes, old(airtime) + c.airtime, old(wallClock) + c.wallClock)
    {
      packets, bytes, airtime, wallClock := packets + c.packets, bytes + c.bytes, airtime + c.airtime, wallClock + c.wallClock;
    }
  }

  lemma {:induction false} BytesSplit(ops: seq<WireOp>, k: nat)
    requires k < |ops|
    ensures Bytes(ops[k..]) == ops[k].bodyBytes + Bytes(ops[k + 1..])
    ensures OpsAirtime(ops[k..]) == AirtimeMs(ops[k].bodyBytes + RADIO_HEADER_BYTES) + OpsAirtime(ops[k + 1..])
  {
    assert ops[k..][1..] == ops[k + 1..];
  }

  function CostOf(ops: seq<WireOp>): Cost {
    Cost(|ops|, Bytes(ops) + (RADIO_HEADER_BYTES + USB_FRAMING_BYTES) * |ops|, OpsAirtime(ops),
         OpsAirtime(ops) + |ops| as real * WIRE_OVERHEAD_MS)
  }

  /** Adds one packet per planned op. */
  method PriceOps(ops: seq<WireOp>) returns (c: Cost)
    ensures c == CostOf(ops)
  {
    var cost := new ActionCost();
    assert ops[0..] == ops;
    for k := 0 to |ops|
      invariant cost.packets == k
      invariant cost.bytes + Bytes(ops[k..]) == Bytes(ops) + 9 * k
      invariant cost.airtime + OpsAirtime(ops[k..]) == OpsAirtime(ops)
      invariant cost.wallClock == cost.airtime + k as real * WIRE_OVERHEAD_MS
    {
      BytesSplit(ops, k);
      cost.AddPacket(ops[k].bodyBytes);
    }
    c := cost.Value();
  }

  /** A delay costs its duration and no packet; an exception in the planner reaches the caller. */
  method EstimateAction(a: Action, env: Env) returns (r: Option<Cost>)
    ensures r == PriceOf(a, env)
  {
    if a.Delay? {
      return Some(Cost(0, 0, a.ms as real, a.ms as real));
    }
    var plan := PlanAction(a, env);
    if plan.Raised? {
      return None;
    }
    var c := PriceOps(plan.ops);
    r := Some(c);
  }

  function SumCosts(cs: seq<Cost>): Cost {
    if cs == [] then Cost(0, 0, 0.0, 0.0)
    else
      var last, rest := cs[|cs| - 1], SumCosts(cs[..|cs| - 1]);
      Cost(rest.packets + last.packets, rest.bytes + last.bytes, rest.airtime + last.airtime, rest.wallClock + last.wallClock)
  }

  /** One cost per action in scene order, and their total. */
  method EstimateScene(actions: seq<Action>, env: Env) returns (total: Option<Cost>, perAction: seq<Cost>)
    ensures total.Some? <==> forall i :: 0 <= i < |actions| ==> PriceOf(actions[i], env).Some?
    ensures total.Some? ==>
              && |perAction| == |actions|
              && (forall i :: 0 <= i < |actions| ==> Some(perAction[i]) == PriceOf(actions[i], env))
              && total.value == SumCosts(perAction)
  {
    var sum := new ActionCost();
    perAction := [];
    for i := 0 to |actions|
      invariant |perAction| == i
      invariant forall k :: 0 <= k < i ==> Some(perAction[k]) == PriceOf(actions[k], env)
      invariant sum.Value() == SumCosts(perAction)
    {
      var c := EstimateAction(actions[i], env);
      if c.None? {
        return None, perAction;
      }
      sum.Add(c.value);
      assert (perAction + [c.value])[..i] == perAction;
      perAction := perAction + [c.value];
    }
    total := Some(sum.Value());
  }

  // ---- plan, price and run -----------------------------------------------------------------

  /** Bytes a list of packets occupies on host link and radio. */
  function WireBytes(ps: seq<Packet>): nat {
    if ps == [] then 0 else |ps[0].body| + RADIO_HEADER_BYTES + USB_FRAMING_BYTES + WireBytes(ps[1..])
  }

  ghost predicate NoStartblock(ops: seq<WireOp>) {
    forall i :: 0 <= i < |ops| ==> !ops[i].sender.SendStartblock?
  }

  lemma {:induction false} PredictedWireBytes(ops: seq<WireOp>, ps: seq<Packet>, ts: int)
    requires |ps| == |ops|
    requires forall i :: 0 <= i < |ops| ==> |ps[i].body| == ops[i].bodyBytes
    ensures WireBytes(ps) == Bytes(ops) + 9 * |ops|
  {
    if ops != [] {
      PredictedWireBytes(ops[1..], ps[1..], ts);
    }
  }

  lemma {:induction false} BodiesAsPredicted(ops: seq<WireOp>, ts: int)
    requires AllPredicted(ops, ts) && AllSend(ops, ts) && NoStartblock(ops)
    ensures WireBytes(PacketsOf(ops, ts)) == Bytes(ops) + 9 * |ops|
  {
    var ps := PacketsOf(ops, ts);
    PacketsOfSending(ops, ts);
    forall i | 0 <= i < |ops|
      ensures |ps[i].body| == ops[i].bodyBytes
    {
      assert Predicted(ops[i], ts);
    }
    PredictedWireBytes(ops, ps, ts);
  }

  /** For every action, containers included, with no startblock op, whose plan is not degraded and whose
      senders do not raise: the run dispatches exactly the planned ops once each in order, and the price
      counts those packets and exactly the bytes that go out. */
  lemma {:induction false} PriceMatchesRun(a: Action, i: nat, env: Env, link: Link, ts: int)
    requires AlwaysUp(link)
    requires var plan := PlanAction(a, env); plan.Plan? && !plan.degraded && AllSend(plan.ops, ts) && NoStartblock(plan.ops)
    ensures var (r, t) := RunAction(a, i, env, link, ts);
            && t.ops == PlanAction(a, env).ops
            && |t.wire| == |t.ops|
            && PriceOf(a, env).Some?
            && PriceOf(a, env).value.packets == |t.wire|
            && PriceOf(a, env).value.bytes == WireBytes(t.wire)
  {
    var plan := PlanAction(a, env);
    ExecuteUp(plan.ops, i, 0, link, ts);
    PacketsOfSending(plan.ops, ts);
    PlanPredictsLengths(a, env, ts);
    BodiesAsPredicted(plan.ops, ts);
  }

  /** A degraded plan dispatches nothing but is still priced, so price and run agree on the packet count
      exactly when the plan is proper or empty. Only containers have degraded plans with ops. */
  lemma {:induction false} DegradedIsOverpriced(a: Action, i: nat, env: Env, link: Link, ts: int)
    requires AlwaysUp(link) && PlanAction(a, env).Plan? && !a.Delay?
    requires PlanAction(a, env).degraded || AllSend(PlanAction(a, env).ops, ts)
    ensures PriceOf(a, env).value.packets == |RunAction(a, i, env, link, ts).1.ops|
            <==> !PlanAction(a, env).degraded || PlanAction(a, env).ops == []
    ensures PlanAction(a, env).degraded && PlanAction(a, env).ops != [] ==> a.OffsetGroup?
  {
    var plan := PlanAction(a, env);
    if !plan.degraded {
      ExecuteUp(plan.ops, i, 0, link, ts);
    }
  }

  /** Such a container exists: its one child names a device nobody has seen. */
  lemma {:induction false} OverpricedContainer(link: Link, ts: int)
    requires AlwaysUp(link)
    ensures var child := Effect(WledPreset, Device("AABBCCDDEEFF"), map[], map[]);
            var a, env := OffsetGroup(Broadcast, NoneBlock, [child]), Env([1], None, Some(map[]));
            Canonical(a) && PriceOf(a, env).value.packets == 1 && RunAction(a, 0, env, link, ts).1.ops == []
  {
    var child := Effect(WledPreset, Device("AABBCCDDEEFF"), map[], map[]);
    var a, env := OffsetGroup(Broadcast, NoneBlock, [child]), Env([1], None, Some(map[]));
    UnseenChildIsCanonical();
    var ops := UnreachableChild(child, env);
    PriceAndRunOf(a, env, link, ts, ops);
  }

  lemma {:induction false} UnseenChildIsCanonical()
    ensures Canonical(OffsetGroup(Broadcast, NoneBlock, [Effect(WledPreset, Device("AABBCCDDEEFF"), map[], map[])]))
  {
  }

  lemma {:induction false} UnreachableChild(child: Effect, env: Env) returns (ops: seq<WireOp>)
    requires ResolveTarget(child.target, env.devices).None?
    ensures PlanAction(OffsetGroup(Broadcast, NoneBlock, [child]), env) == Plan(ops, true) && |ops| == 1
  {
    LoneDegradedChild(child, env, false);
    OneSetupOp(env.known);
    ops := TagOps(Setup(Broadcast, NoneBlock, env.known).ops, OffsetPhase) + [];
  }

  lemma {:induction false} LoneDegradedChild(child: Effect, env: Env, force: bool)
    requires ResolveTarget(child.target, env.devices).None?
    ensures PlanChildren([child], env, force, 0) == Plan([], true)
  {
    assert PlanEffect(child, env, Some(force)) == Plan([], true);
    assert PlanChildren([child][1..], env, force, 1) == Plan([], false);
  }

  lemma {:induction false} OneSetupOp(known: seq<int>)
    ensures |Setup(Broadcast, NoneBlock, known).ops| == 1
  {
    SetupClosedForm(Broadcast, NoneBlock, known);
  }

  lemma {:induction false} PriceAndRunOf(a: Action, env: Env, link: Link, ts: int, ops: seq<WireOp>)
    requires PlanAction(a, env) == Plan(ops, true) && !a.Delay?
    ensures PriceOf(a, env).Some? && PriceOf(a, env).value.packets == |ops|
    ensures RunAction(a, 0, env, link, ts).1.ops == []
  {
  }
}
