/** The receiving side: what a device does with each packet, by the header's rules for stored offsets and
    the acceptance gate. A fleet is any sequence of devices; running packets over it is the meaning of a
    plan. */
module Fleet {
  import opened Basics
  import opened Offsets
  import opened Optimizer
  import opened Planner
  import Packets

  /** An effect as a device applied it: packet content and the offset snapshot it was given. */
  datatype Shown = Shown(opcode: byte, flags: byte, content: seq<byte>, offsetMs: int)

  datatype Node = Node(last3: string, group: byte, active: Offset, pending: Option<Offset>, armed: Option<Shown>, shown: seq<Shown>)

  /** Pending if set, else active. */
  function Effective(n: Node): Offset {
    if n.pending.Some? then n.pending.value else n.active
  }

  predicate InOffsetMode(n: Node) {
    Effective(n) != NoOffset
  }

  function OffsetMsOf(n: Node): int {
    DeviceOffsetMs(Effective(n), n.group)
  }

  predicate Hears(n: Node, p: Packet) {
    p.receiver == ALL_RECEIVERS || p.receiver == n.last3
  }

  predicate InGroup(n: Node, g: byte) {
    g == BROADCAST_GROUP || g == n.group
  }

  predicate IsEffect(p: Packet) {
    (p.opcode == OPC_CONTROL || p.opcode == OPC_PRESET) && |p.body| >= 2
  }

  predicate Addressed(n: Node, p: Packet)
    requires IsEffect(p)
  {
    Hears(n, p) && InGroup(n, p.body[0])
  }

  /** The strict gate: the packet's OFFSET_MODE flag must match the device's effective state. */
  predicate Accepts(n: Node, p: Packet)
    requires IsEffect(p)
  {
    Addressed(n, p) && (HasBit(p.body[1], Packets.FLAG_OFFSET_MODE) <==> InOffsetMode(n))
  }

  /** An accepted effect is armed with its offset snapshot, or applied at once, which materialises the
      pending configuration. */
  function Apply(n: Node, p: Packet): Node
    requires IsEffect(p)
  {
    var effect := Shown(p.opcode, p.body[1], p.body[2..], OffsetMsOf(n));
    if HasBit(p.body[1], Packets.FLAG_ARM_ON_SYNC) then n.(armed := Some(effect))
    else n.(active := Effective(n), pending := None, shown := n.shown + [effect])
  }

  /** A sync with the trigger bit fires what is armed and materialises the pending configuration. */
  function Fire(n: Node, p: Packet): Node {
    if |p.body| == 5 && HasBit(p.body[4], Packets.SYNC_TRIGGER_ARMED) && n.armed.Some? then
      n.(active := Effective(n), pending := None, armed := None, shown := n.shown + [n.armed.value])
    else n
  }

  function Store(n: Node, p: Packet): Node {
    var m := Packets.ParseOffsetBody(p.body);
    if m.Ok? && InGroup(n, m.value.group) then n.(pending := Some(m.value.config)) else n
  }

  function Receive(n: Node, p: Packet): Node {
    if !Hears(n, p) then n
    else if p.opcode == OPC_OFFSET then Store(n, p)
    else if p.opcode == OPC_SYNC then Fire(n, p)
    else if IsEffect(p) && Accepts(n, p) then Apply(n, p)
    else n
  }

  function Run(n: Node, ps: seq<Packet>): Node
    decreases |ps|
  {
    if ps == [] then n else Run(Receive(n, ps[0]), ps[1..])
  }

  function ReceiveAll(fleet: seq<Node>, p: Packet): (r: seq<Node>)
    ensures |r| == |fleet| && forall i :: 0 <= i < |fleet| ==> r[i] == Receive(fleet[i], p)
  {
    if fleet == [] then [] else [Receive(fleet[0], p)] + ReceiveAll(fleet[1..], p)
  }

  /** The radio: every packet is offered to every device before the next one is sent. */
  function RunFleet(fleet: seq<Node>, ps: seq<Packet>): seq<Node>
    decreases |ps|
  {
    if ps == [] then fleet else RunFleet(ReceiveAll(fleet, ps[0]), ps[1..])
  }

  /** Devices do not influence one another. */
  lemma {:induction false} FleetRunsApart(fleet: seq<Node>, ps: seq<Packet>)
    ensures |RunFleet(fleet, ps)| == |fleet|
    ensures forall i :: 0 <= i < |fleet| ==> RunFleet(fleet, ps)[i] == Run(fleet[i], ps)
    decreases |ps|
  {
    if ps != [] {
      FleetRunsApart(ReceiveAll(fleet, ps[0]), ps[1..]);
    }
  }

  lemma {:induction false} RunConcat(n: Node, a: seq<Packet>, b: seq<Packet>)
    ensures Run(n, a + b) == Run(Run(n, a), b)
    decreases |a|
  {
    if a == [] {
      assert a + b == b;
    } else {
      assert (a + b)[1..] == a[1..] + b;
      RunConcat(Receive(n, a[0]), a[1..], b);
    }
  }

  lemma {:induction false} RunOne(n: Node, p: Packet)
    ensures Run(n, [p]) == Receive(n, p)
  {
  }

  ghost predicate NoOffsetPackets(ps: seq<Packet>) {
    forall i :: 0 <= i < |ps| ==> ps[i].opcode != OPC_OFFSET
  }

  /** Only OPC_OFFSET moves a device in or out of offset mode, or changes its offset: materialising a
      pending configuration leaves the effective one as it was. */
  lemma {:induction false} StateChangesOnlyByOffset(n: Node, ps: seq<Packet>)
    requires NoOffsetPackets(ps)
    ensures Effective(Run(n, ps)) == Effective(n)
    ensures Run(n, ps).group == n.group && Run(n, ps).last3 == n.last3
    decreases |ps|
  {
    if ps != [] {
      StateChangesOnlyByOffset(Receive(n, ps[0]), ps[1..]);
    }
  }

  /** OPC_OFFSET packets never touch an armed effect or one already shown. */
  lemma {:induction false} ArmedEffectIsASnapshot(n: Node, ps: seq<Packet>)
    requires forall i :: 0 <= i < |ps| ==> ps[i].opcode == OPC_OFFSET
    ensures var m := Run(n, ps);
            m.armed == n.armed && m.shown == n.shown && m.active == n.active && m.group == n.group && m.last3 == n.last3
    decreases |ps|
  {
    if ps != [] {
      ArmedEffectIsASnapshot(Receive(n, ps[0]), ps[1..]);
    }
  }

  // ---- equivalent devices ---------------------------------------------------------

  /** Same identity, same armed and shown effects, same offset state. How the offset is stored may differ. */
  predicate Similar(m: Node, n: Node) {
    && m.last3 == n.last3 && m.group == n.group && m.armed == n.armed && m.shown == n.shown
    && InOffsetMode(m) == InOffsetMode(n)
    && OffsetMsOf(m) == OffsetMsOf(n)
  }

  lemma {:induction false} SimilarStep(m: Node, n: Node, p: Packet)
    requires Similar(m, n)
    ensures Similar(Receive(m, p), Receive(n, p))
  {
  }

  /** Similar devices stay similar whatever they receive. */
  lemma {:induction false} SimilarRun(m: Node, n: Node, ps: seq<Packet>)
    requires Similar(m, n)
    ensures Similar(Run(m, ps), Run(n, ps))
    decreases |ps|
  {
    if ps != [] {
      SimilarStep(m, n, ps[0]);
      SimilarRun(Receive(m, ps[0]), Receive(n, ps[0]), ps[1..]);
    }
  }

  // ---- from ops to packets --------------------------------------------------------------

  function Attempts(ops: seq<WireOp>, ts: int): (r: seq<Option<Packet>>)
    ensures |r| == |ops|
  {
    if ops == [] then [] else [Transmit(ops[0], ts)] + Attempts(ops[1..], ts)
  }

  lemma {:induction false} AttemptAt(ops: seq<WireOp>, ts: int, i: nat)
    requires i < |ops|
    ensures Attempts(ops, ts)[i] == Transmit(ops[i], ts)
  {
    if i > 0 {
      AttemptAt(ops[1..], ts, i - 1);
    }
  }

  lemma {:induction false} AttemptsConcat(a: seq<WireOp>, b: seq<WireOp>, ts: int)
    ensures Attempts(a + b, ts) == Attempts(a, ts) + Attempts(b, ts)
    decreases |a|
  {
    if a == [] {
      assert a + b == b;
    } else {
      var first := Transmit(a[0], ts);
      assert (a + b)[1..] == a[1..] + b && (a + b)[0] == a[0];
      AttemptsConcat(a[1..], b, ts);
      assert [first] + (Attempts(a[1..], ts) + Attempts(b, ts)) == ([first] + Attempts(a[1..], ts)) + Attempts(b, ts);
    }
  }

  lemma {:induction false} TagTransmit(op: WireOp, phase: Phase, ts: int)
    ensures Transmit(op.(phase := phase), ts) == Transmit(op, ts)
  {
  }

  lemma {:induction false} AttemptsTagged(ops: seq<WireOp>, phase: Phase, ts: int)
    ensures Attempts(TagOps(ops, phase), ts) == Attempts(ops, ts)
  {
    if ops != [] {
      TagTransmit(ops[0], phase, ts);
      assert TagOps(ops, phase)[1..] == TagOps(ops[1..], phase);
      AttemptsTagged(ops[1..], phase, ts);
    }
  }

  function UntilNone(s: seq<Option<Packet>>): seq<Packet> {
    if s == [] || s[0].None? then [] else [s[0].value] + UntilNone(s[1..])
  }

  predicate AllSome(s: seq<Option<Packet>>) {
    forall i :: 0 <= i < |s| ==> s[i].Some?
  }

  /** No sender of the plan raises. */
  predicate AllSend(ops: seq<WireOp>, ts: int) {
    AllSome(Attempts(ops, ts))
  }

  /** The packets a plan puts on the wire: in order, up to the first sender that raises. */
  function PacketsOf(ops: seq<WireOp>, ts: int): seq<Packet> {
    UntilNone(Attempts(ops, ts))
  }

  lemma {:induction false} UntilNoneOfSome(s: seq<Option<Packet>>)
    requires AllSome(s)
    ensures |UntilNone(s)| == |s| && forall i :: 0 <= i < |s| ==> UntilNone(s)[i] == s[i].value
  {
    if s != [] {
      UntilNoneOfSome(s[1..]);
    }
  }

  lemma {:induction false} UntilNoneConcat(a: seq<Option<Packet>>, b: seq<Option<Packet>>)
    ensures UntilNone(a + b) == if AllSome(a) then UntilNone(a) + UntilNone(b) else UntilNone(a)
    decreases |a|
  {
    if a == [] {
      assert a + b == b;
    } else {
      assert (a + b)[1..] == a[1..] + b;
      UntilNoneConcat(a[1..], b);
      assert AllSome(a) <==> a[0].Some? && AllSome(a[1..]);
    }
  }

  lemma {:induction false} PacketsOfSending(ops: seq<WireOp>, ts: int)
    requires AllSend(ops, ts)
    ensures |PacketsOf(ops, ts)| == |ops|
    ensures forall i :: 0 <= i < |ops| ==> Some(PacketsOf(ops, ts)[i]) == Transmit(ops[i], ts)
  {
    UntilNoneOfSome(Attempts(ops, ts));
    forall i | 0 <= i < |ops|
      ensures Some(PacketsOf(ops, ts)[i]) == Transmit(ops[i], ts)
    {
      AttemptAt(ops, ts, i);
    }
  }

  lemma {:induction false} PacketsOfConcat(a: seq<WireOp>, b: seq<WireOp>, ts: int)
    ensures PacketsOf(a + b, ts) == if AllSend(a, ts) then PacketsOf(a, ts) + PacketsOf(b, ts) else PacketsOf(a, ts)
    ensures AllSend(a + b, ts) <==> AllSend(a, ts) && AllSend(b, ts)
  {
    AttemptsConcat(a, b, ts);
    UntilNoneConcat(Attempts(a, ts), Attempts(b, ts));
    AllSomeConcat(Attempts(a, ts), Attempts(b, ts));
  }

  lemma {:induction false} AllSomeConcat(a: seq<Option<Packet>>, b: seq<Option<Packet>>)
    ensures AllSome(a + b) <==> AllSome(a) && AllSome(b)
  {
    if AllSome(a + b) {
      forall i | 0 <= i < |b|
        ensures b[i].Some?
      {
        assert (a + b)[|a| + i].Some?;
      }
      forall i | 0 <= i < |a|
        ensures a[i].Some?
      {
        assert (a + b)[i].Some?;
      }
    }
  }

  lemma {:induction false} TagsDoNotTravel(ops: seq<WireOp>, phase: Phase, ts: int)
    ensures PacketsOf(TagOps(ops, phase), ts) == PacketsOf(ops, ts)
    ensures AllSend(TagOps(ops, phase), ts) <==> AllSend(ops, ts)
  {
    AttemptsTagged(ops, phase, ts);
  }
}
