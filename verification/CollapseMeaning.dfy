/** Collapsing "every known group" to broadcast changes nothing for a device of a known group. */
module CollapseMeaning {
  import opened Basics
  import opened JsonValues
  import opened Offsets
  import opened SceneActions
  import opened SceneEdits
  import opened Optimizer
  import opened Planner
  import opened Fleet
  import opened Container

  // ---- counting addressed packets ------------------------------------------------------

  /** How many effect packets address a device. */
  function AddressedCount(n: Node, ps: seq<Packet>): nat {
    if ps == [] then 0
    else (if IsEffect(ps[0]) && Addressed(n, ps[0]) then 1 else 0) + AddressedCount(n, ps[1..])
  }

  lemma {:induction false} CountConcat(n: Node, a: seq<Packet>, b: seq<Packet>)
    ensures AddressedCount(n, a + b) == AddressedCount(n, a) + AddressedCount(n, b)
    decreases |a|
  {
    if a == [] {
      assert a + b == b;
    } else {
      assert (a + b)[1..] == a[1..] + b;
      CountConcat(n, a[1..], b);
    }
  }

  lemma {:induction false} CountNone(n: Node, ps: seq<Packet>)
    requires forall i :: 0 <= i < |ps| ==> ps[i].opcode != OPC_CONTROL && ps[i].opcode != OPC_PRESET
    ensures AddressedCount(n, ps) == 0
  {
    if ps != [] {
      CountNone(n, ps[1..]);
    }
  }

  lemma {:induction false} CountFanOut(n: Node, ids: seq<int>, c: Content, ps: seq<Packet>)
    requires EffectContent(c) && Distinct(ids) && ValidGroups(ids) && |ps| == |ids|
    requires forall i :: 0 <= i < |ids| ==> ps[i] == PacketTo(ALL_RECEIVERS, LowByte(ids[i]), c)
    ensures AddressedCount(n, ps) == if n.group in ids then 1 else 0
  {
    if ids != [] {
      assert ids[0] in ids && ids == [ids[0]] + ids[1..];
      ReceiveEffect(n, ALL_RECEIVERS, LowByte(ids[0]), c);
      CountFanOut(n, ids[1..], c, ps[1..]);
    }
  }

  lemma {:induction false} TargetCount(n: Node, t: Target, env: Env, c: Content, ps: seq<Packet>)
    requires GroupsAreCanonical(t) && EffectContent(c) && ResolveTarget(t, env.devices).Some?
    requires var ds := ResolveTarget(t, env.devices).value;
             && |ps| == |ds|
             && forall i :: 0 <= i < |ds| ==> ps[i] == PacketTo(ReceiverOf(ds[i]), BodyGroupOf(ds[i]), c)
    ensures AddressedCount(n, ps) == if Reaches(t, env, n) then 1 else 0
  {
    var ds := ResolveTarget(t, env.devices).value;
    if t.Groups? {
      AscendingIsDistinct(t.ids);
      CountFanOut(n, t.ids, c, ps);
    } else {
      ReceiveEffect(n, ReceiverOf(ds[0]), BodyGroupOf(ds[0]), c);
      assert ps == [ps[0]] && AddressedCount(n, ps[1..]) == 0;
    }
  }

  /** A planned effect addresses a device that its target names with exactly one packet. */
  lemma {:induction false} EffectCount(n: Node, e: Effect, env: Env, force: Option<bool>, ts: int)
    requires !e.kind.Startblock? && GroupsAreCanonical(e.target)
    requires PlanEffect(e, env, force).Plan? && !PlanEffect(e, env, force).degraded
    requires ContentOf(e.kind, Prepare(e, env, force).params).Some?
    ensures AddressedCount(n, PacketsOf(PlanEffect(e, env, force).ops, ts)) == if Reaches(e.target, env, n) then 1 else 0
  {
    var p := Prepare(e, env, force);
    var c, ds := ContentOf(e.kind, p.params).value, ResolveTarget(e.target, env.devices).value;
    EffectSends(e.kind, ds, p.params, p.bytes, c, ts);
    ContentFlag(e.kind, p.params);
    TargetCount(n, e.target, env, c, PacketsOf(EffectOps(e.kind, ds, p.params, p.bytes), ts));
  }

  // ---- one effect -------------------------------------------------------------------------

  /** Two plans that differ only in how they address a known device. */
  ghost predicate SameFor(n: Node, p: PlanResult, q: PlanResult, ts: int) {
    && p.Raised? == q.Raised?
    && (p.Plan? ==>
          && p.degraded == q.degraded
          && AllSend(p.ops, ts) == AllSend(q.ops, ts)
          && AddressedCount(n, PacketsOf(p.ops, ts)) == AddressedCount(n, PacketsOf(q.ops, ts))
          && Run(n, PacketsOf(p.ops, ts)) == Run(n, PacketsOf(q.ops, ts)))
  }

  lemma {:induction false} StartblockRun(n: Node, ds: seq<Destination>, params: Object, bytes: nat, ts: int)
    ensures var ops := EffectOps(Startblock, ds, params, bytes);
            AllSend(ops, ts) && AddressedCount(n, PacketsOf(ops, ts)) == 0 && Run(n, PacketsOf(ops, ts)) == n
  {
    var ops := EffectOps(Startblock, ds, params, bytes);
    forall i | 0 <= i < |ds|
      ensures Attempts(ops, ts)[i] == Some(Packet(ReceiverOf(ds[i]), OPC_STREAM, []))
    {
      AttemptAt(ops, ts, i);
    }
    UntilNoneOfSome(Attempts(ops, ts));
    CountNone(n, PacketsOf(ops, ts));
    StreamIgnored(n, PacketsOf(ops, ts));
  }

  lemma {:induction false} StreamIgnored(n: Node, ps: seq<Packet>)
    requires forall i :: 0 <= i < |ps| ==> ps[i].opcode == OPC_STREAM
    ensures Run(n, ps) == n
    decreases |ps|
  {
    if ps != [] {
      StreamIgnored(n, ps[1..]);
    }
  }

  lemma {:induction false} CollapsedTarget(n: Node, t: Target, env: Env)
    requires CanonicalTarget(t) && n.group in env.known
    ensures var c := CollapseTarget(t, Members(env.known));
            && GroupsAreCanonical(c)
            && ResolveTarget(c, env.devices).Some? == ResolveTarget(t, env.devices).Some?
            && Reaches(c, env, n) == Reaches(t, env, n)
            && Participates(c, env.known, n.group) == Participates(t, env.known, n.group)
  {
    assert n.group in Members(env.known);
  }

  ghost predicate Proper(e: Effect, env: Env, force: Option<bool>) {
    PlanEffect(e, env, force).Plan? && !PlanEffect(e, env, force).degraded
  }

  /** Two effects with the same kind and parameters that reach the device alike are the same for it. */
  lemma {:induction false} SameReach(n: Node, e: Effect, c: Effect, env: Env, force: Option<bool>, ts: int)
    requires Proper(e, env, force) && Proper(c, env, force)
    requires GroupsAreCanonical(e.target) && GroupsAreCanonical(c.target)
    requires c.kind == e.kind && Prepare(c, env, force) == Prepare(e, env, force)
    requires Reaches(c.target, env, n) == Reaches(e.target, env, n)
    ensures SameFor(n, PlanEffect(e, env, force), PlanEffect(c, env, force), ts)
  {
    var p := Prepare(e, env, force);
    if e.kind.Startblock? {
      StartblockRun(n, ResolveTarget(e.target, env.devices).value, p.params, p.bytes, ts);
      StartblockRun(n, ResolveTarget(c.target, env.devices).value, p.params, p.bytes, ts);
    } else if ContentOf(e.kind, p.params).None? {
      EffectRaises(e, env, force, ts);
      EffectRaises(c, env, force, ts);
    } else {
      EffectRun(n, e, env, force, ts);
      EffectRun(n, c, env, force, ts);
      EffectCount(n, e, env, force, ts);
      EffectCount(n, c, env, force, ts);
    }
  }

  lemma {:induction false} CollapsedEffect(n: Node, e: Effect, env: Env, force: Option<bool>, ts: int)
    requires CanonicalEffect(e) && n.group in env.known
    ensures SameFor(n, PlanEffect(e, env, force), PlanEffect(CollapseEffect(e, Members(env.known)), env, force), ts)
  {
    var c := CollapseEffect(e, Members(env.known));
    CollapsedTarget(n, e.target, env);
    CollapsedPreparation(e, c.target, env, force);
    if Proper(e, env, force) {
      SameReach(n, e, c, env, force, ts);
    }
  }

  /** The target plays no part in preparing parameters, and only its being resolvable matters to the plan. */
  lemma {:induction false} CollapsedPreparation(e: Effect, t: Target, env: Env, force: Option<bool>)
    requires ResolveTarget(t, env.devices).Some? == ResolveTarget(e.target, env.devices).Some?
    ensures var c := e.(target := t);
            && Prepare(c, env, force) == Prepare(e, env, force)
            && PlanEffect(c, env, force).Raised? == PlanEffect(e, env, force).Raised?
            && (PlanEffect(e, env, force).Plan? ==>
                  && PlanEffect(c, env, force).degraded == PlanEffect(e, env, force).degraded
                  && (PlanEffect(e, env, force).degraded ==> PlanEffect(c, env, force) == PlanEffect(e, env, force)))
  {
    PrepareIgnoresTarget(e, t, env, force);
    SamePlanShape(e, e.(target := t), env, force);
  }

  lemma {:induction false} PrepareIgnoresTarget(e: Effect, t: Target, env: Env, force: Option<bool>)
    ensures Prepare(e.(target := t), env, force) == Prepare(e, env, force)
  {
    var c := e.(target := t);
    assert Materialise(c, env.presets) == Materialise(e, env.presets);
    assert Override(c, force) == Override(e, force);
  }

  lemma {:induction false} SamePlanShape(e: Effect, c: Effect, env: Env, force: Option<bool>)
    requires c.kind == e.kind && Prepare(c, env, force) == Prepare(e, env, force)
    requires ResolveTarget(c.target, env.devices).Some? == ResolveTarget(e.target, env.devices).Some?
    ensures PlanEffect(c, env, force).Raised? == PlanEffect(e, env, force).Raised?
    ensures PlanEffect(e, env, force).Plan? ==>
              && PlanEffect(c, env, force).degraded == PlanEffect(e, env, force).degraded
              && (PlanEffect(e, env, force).degraded ==> PlanEffect(c, env, force) == PlanEffect(e, env, force))
  {
  }

  // ---- children and containers ------------------------------------------------------------

  lemma {:induction false} CountIgnoresState(m: Node, n: Node, ps: seq<Packet>)
    requires m.group == n.group && m.last3 == n.last3
    ensures AddressedCount(m, ps) == AddressedCount(n, ps)
  {
    if ps != [] {
      CountIgnoresState(m, n, ps[1..]);
    }
  }

  lemma {:induction false} RunKeepsIdentity(n: Node, ps: seq<Packet>)
    ensures Run(n, ps).group == n.group && Run(n, ps).last3 == n.last3
    decreases |ps|
  {
    if ps != [] {
      RunKeepsIdentity(Receive(n, ps[0]), ps[1..]);
    }
  }

  /** Appending plans that are the same for a device gives plans that are the same for it. */
  lemma {:induction false} SameConcat(n: Node, a: seq<WireOp>, b: seq<WireOp>, c: seq<WireOp>, d: seq<WireOp>, ts: int)
    requires SameFor(n, Plan(a, false), Plan(b, false), ts)
    requires SameFor(Run(n, PacketsOf(a, ts)), Plan(c, false), Plan(d, false), ts)
    ensures SameFor(n, Plan(a + c, false), Plan(b + d, false), ts)
  {
    PacketsOfConcat(a, c, ts);
    PacketsOfConcat(b, d, ts);
    var pa, pb, pc, pd := PacketsOf(a, ts), PacketsOf(b, ts), PacketsOf(c, ts), PacketsOf(d, ts);
    RunConcat(n, pa, pc);
    RunConcat(n, pb, pd);
    CountConcat(n, pa, pc);
    CountConcat(n, pb, pd);
    RunKeepsIdentity(n, pa);
    CountIgnoresState(n, Run(n, pa), pc);
    CountIgnoresState(n, Run(n, pa), pd);
  }

  lemma {:induction false} SameTagged(n: Node, a: seq<WireOp>, b: seq<WireOp>, phase: Phase, ts: int)
    requires SameFor(n, Plan(a, false), Plan(b, false), ts)
    ensures SameFor(n, Plan(TagOps(a, phase), false), Plan(TagOps(b, phase), false), ts)
    ensures PacketsOf(TagOps(a, phase), ts) == PacketsOf(a, ts)
  {
    TagsDoNotTravel(a, phase, ts);
    TagsDoNotTravel(b, phase, ts);
  }

  lemma {:induction false} CollapsedChildren(n: Node, children: seq<Effect>, env: Env, force: bool, index: nat, ts: int)
    requires forall i :: 0 <= i < |children| ==> CanonicalEffect(children[i])
    requires n.group in env.known
    ensures SameFor(n, PlanChildren(children, env, force, index),
                    PlanChildren(CollapseEffects(children, Members(env.known)), env, force, index), ts)
    decreases |children|
  {
    if children != [] {
      var collapsed := CollapseEffects(children, Members(env.known));
      assert collapsed[1..] == CollapseEffects(children[1..], Members(env.known));
      var p, q := PlanEffect(children[0], env, Some(force)), PlanEffect(collapsed[0], env, Some(force));
      CollapsedEffect(n, children[0], env, Some(force), ts);
      if p.Plan? {
        var m := Run(n, PacketsOf(p.ops, ts));
        RunKeepsIdentity(n, PacketsOf(p.ops, ts));
        CollapsedChildren(m, children[1..], env, force, index + 1, ts);
        var r, s := PlanChildren(children[1..], env, force, index + 1), PlanChildren(collapsed[1..], env, force, index + 1);
        SameTagged(n, p.ops, q.ops, ChildPhase(index), ts);
        if r.Plan? {
          SameConcat(n, TagOps(p.ops, ChildPhase(index)), TagOps(q.ops, ChildPhase(index)), r.ops, s.ops, ts);
        }
      } else {
        assert q.Raised?;
      }
    }
  }

  /** Like `SameFor`, but the offset may be stored differently as long as the device behaves the same. */
  ghost predicate AlikeFor(n: Node, p: PlanResult, q: PlanResult, ts: int) {
    && p.Raised? == q.Raised?
    && (p.Plan? ==>
          && p.degraded == q.degraded
          && AllSend(p.ops, ts) == AllSend(q.ops, ts)
          && AddressedCount(n, PacketsOf(p.ops, ts)) == AddressedCount(n, PacketsOf(q.ops, ts))
          && Similar(Run(n, PacketsOf(p.ops, ts)), Run(n, PacketsOf(q.ops, ts))))
  }

  lemma {:induction false} SetupOpsExist(target: Target, block: OffsetBlock, known: seq<int>)
    requires SetupInput(target, block, known) && known != []
    ensures Setup(target, block, known).ops != []
  {
    SetupClosedForm(target, block, known);
  }

  /** Even where the strategy changes, the offset packets leave a known device alike. */
  lemma {:induction false} CollapsedSetup(n: Node, target: Target, block: OffsetBlock, env: Env, ts: int)
    requires SetupInput(target, block, env.known) && CanonicalTarget(target) && n.group in env.known
    ensures var c := CollapseTarget(target, Members(env.known));
            && SetupInput(c, block, env.known)
            && AlikeFor(n, Plan(Setup(target, block, env.known).ops, false), Plan(Setup(c, block, env.known).ops, false), ts)
  {
    var c := CollapseTarget(target, Members(env.known));
    CollapsedTarget(n, target, env);
    SetupPhase(n, target, block, env.known, ts);
    SetupPhase(n, c, block, env.known, ts);
    SetupMeaning(n, target, block, env.known);
    SetupMeaning(n, c, block, env.known);
    CountNone(n, PacketsOf(Setup(target, block, env.known).ops, ts));
    CountNone(n, PacketsOf(Setup(c, block, env.known).ops, ts));
  }

  lemma {:induction false} CollapsedContainer(n: Node, target: Target, block: OffsetBlock, children: seq<Effect>, env: Env, ts: int)
    requires Canonical(OffsetGroup(target, block, children)) && ValidGroups(env.known) && n.group in env.known
    ensures var c := CollapseTarget(target, Members(env.known));
            && !c.Device?
            && AlikeFor(n, PlanContainer(target, block, children, env),
                        PlanContainer(c, block, CollapseEffects(children, Members(env.known)), env), ts)
  {
    var c, kids := CollapseTarget(target, Members(env.known)), CollapseEffects(children, Members(env.known));
    var s, t := Setup(target, block, env.known).ops, Setup(c, block, env.known).ops;
    var p, q := PlanChildren(children, env, !block.NoneBlock?, 0), PlanChildren(kids, env, !block.NoneBlock?, 0);
    CollapsedParts(n, target, block, children, env, ts);
    AlikeAssembly(n, s, t, p, q, ts);
  }

  /** The two halves of a container, before they are put together. */
  lemma {:induction false} CollapsedParts(n: Node, target: Target, block: OffsetBlock, children: seq<Effect>, env: Env, ts: int)
    requires Canonical(OffsetGroup(target, block, children)) && ValidGroups(env.known) && n.group in env.known
    ensures var c, kids := CollapseTarget(target, Members(env.known)), CollapseEffects(children, Members(env.known));
            && !c.Device?
            && var s := Setup(target, block, env.known).ops;
               && AlikeFor(n, Plan(s, false), Plan(Setup(c, block, env.known).ops, false), ts) && AllSend(s, ts)
               && SameFor(Run(n, PacketsOf(s, ts)), PlanChildren(children, env, !block.NoneBlock?, 0),
                          PlanChildren(kids, env, !block.NoneBlock?, 0), ts)
  {
    CanonicalSetupInput(target, block, children, env.known);
    CollapsedSetup(n, target, block, env, ts);
    SetupPhase(n, target, block, env.known, ts);
    var packets := PacketsOf(Setup(target, block, env.known).ops, ts);
    RunKeepsIdentity(n, packets);
    CollapsedChildren(Run(n, packets), children, env, !block.NoneBlock?, 0, ts);
  }

  lemma {:induction false} AlikeAssembly(n: Node, s: seq<WireOp>, t: seq<WireOp>, p: PlanResult, q: PlanResult, ts: int)
    requires AlikeFor(n, Plan(s, false), Plan(t, false), ts) && AllSend(s, ts)
    requires SameFor(Run(n, PacketsOf(s, ts)), p, q, ts)
    ensures AlikeFor(n, Assemble(s, p), Assemble(t, q), ts)
  {
    if p.Plan? {
      AlikeConcat(n, s, t, p.ops, q.ops, p.degraded, ts);
    }
  }

  lemma {:induction false} AlikeConcat(n: Node, s: seq<WireOp>, t: seq<WireOp>, p: seq<WireOp>, q: seq<WireOp>,
                                       degraded: bool, ts: int)
    requires AlikeFor(n, Plan(s, false), Plan(t, false), ts) && AllSend(s, ts)
    requires SameFor(Run(n, PacketsOf(s, ts)), Plan(p, false), Plan(q, false), ts)
    ensures AlikeFor(n, Plan(TagOps(s, OffsetPhase) + p, degraded), Plan(TagOps(t, OffsetPhase) + q, degraded), ts)
  {
    var m, m' := Run(n, PacketsOf(s, ts)), Run(n, PacketsOf(t, ts));
    TagsDoNotTravel(s, OffsetPhase, ts);
    TagsDoNotTravel(t, OffsetPhase, ts);
    PacketsOfConcat(TagOps(s, OffsetPhase), p, ts);
    PacketsOfConcat(TagOps(t, OffsetPhase), q, ts);
    RunConcat(n, PacketsOf(s, ts), PacketsOf(p, ts));
    RunConcat(n, PacketsOf(t, ts), PacketsOf(q, ts));
    CountConcat(n, PacketsOf(s, ts), PacketsOf(p, ts));
    CountConcat(n, PacketsOf(t, ts), PacketsOf(q, ts));
    RunKeepsIdentity(n, PacketsOf(s, ts));
    CountIgnoresState(n, m, PacketsOf(p, ts));
    CountIgnoresState(n, m, PacketsOf(q, ts));
    SimilarRun(m, m', PacketsOf(q, ts));
  }

  // ---- actions and scenes ---------------------------------------------------------------------

  /** The packets an action puts on the wire: none if its plan raises or is degraded. */
  function ActionPackets(a: Action, env: Env, ts: int): seq<Packet> {
    var r := PlanAction(a, env);
    if r.Raised? || r.degraded then [] else PacketsOf(r.ops, ts)
  }

  /** Whether the runner reports a plain failure while the transport accepts every frame. */
  predicate Failed(a: Action, env: Env, ts: int) {
    var r := PlanAction(a, env);
    r.Raised? || (!r.degraded && (!AllSend(r.ops, ts) || (a.OffsetGroup? && r.ops == [])))
  }

  function ScenePackets(actions: seq<Action>, env: Env, ts: int, stopOnError: bool): seq<Packet> {
    if actions == [] then []
    else if stopOnError && Failed(actions[0], env, ts) then ActionPackets(actions[0], env, ts)
    else ActionPackets(actions[0], env, ts) + ScenePackets(actions[1..], env, ts, stopOnError)
  }

  lemma {:induction false} CollapsedAction(n: Node, a: Action, env: Env, ts: int)
    requires Canonical(a) && ValidGroups(env.known) && n.group in env.known
    ensures var c := CollapseAction(a, Members(env.known));
            && AlikeFor(n, PlanAction(a, env), PlanAction(c, env), ts)
            && Failed(a, env, ts) == Failed(c, env, ts)
  {
    match a
    case Act(e) => CollapsedEffect(n, e, env, None, ts);
    case Sync =>
    case Delay(_) =>
    case OffsetGroup(target, block, children) =>
      CollapsedContainer(n, target, block, children, env, ts);
      CanonicalSetupInput(target, block, children, env.known);
      CollapsedSetup(n, target, block, env, ts);
      SetupOpsExist(target, block, env.known);
      SetupOpsExist(CollapseTarget(target, Members(env.known)), block, env.known);
  }

  /** Running a scene and running its collapsed form leave a device of a known group with the same effects,
      the same armed effect and the same offset state, addressed by the same number of effect packets, with
      and without stop-on-error. */
  lemma {:induction false} CollapsePreservesMeaning(n: Node, actions: seq<Action>, env: Env, ts: int, stopOnError: bool)
    requires forall i :: 0 <= i < |actions| ==> Canonical(actions[i])
    requires ValidGroups(env.known) && n.group in env.known
    ensures var c := CollapseActions(actions, Members(env.known));
            var before, after := ScenePackets(actions, env, ts, stopOnError), ScenePackets(c, env, ts, stopOnError);
            && Similar(Run(n, before), Run(n, after))
            && AddressedCount(n, before) == AddressedCount(n, after)
    decreases |actions|
  {
    if actions != [] {
      var a, c := actions[0], CollapseAction(actions[0], Members(env.known));
      var rest, crest := actions[1..], CollapseActions(actions[1..], Members(env.known));
      assert CollapseActions(actions, Members(env.known))[1..] == crest;
      CollapsedAction(n, a, env, ts);
      var p, q := ActionPackets(a, env, ts), ActionPackets(c, env, ts);
      assert Similar(Run(n, p), Run(n, q)) && AddressedCount(n, p) == AddressedCount(n, q);
      RunKeepsIdentity(n, p);
      CollapsePreservesMeaning(Run(n, p), rest, env, ts, stopOnError);
      StepAlike(n, p, q, ScenePackets(rest, env, ts, stopOnError), ScenePackets(crest, env, ts, stopOnError));
    }
  }

  lemma {:induction false} StepAlike(n: Node, p: seq<Packet>, q: seq<Packet>, r: seq<Packet>, s: seq<Packet>)
    requires Similar(Run(n, p), Run(n, q)) && AddressedCount(n, p) == AddressedCount(n, q)
    requires Similar(Run(Run(n, p), r), Run(Run(n, p), s)) && AddressedCount(Run(n, p), r) == AddressedCount(Run(n, p), s)
    ensures Similar(Run(n, p + r), Run(n, q + s)) && AddressedCount(n, p + r) == AddressedCount(n, q + s)
  {
    RunConcat(n, p, r);
    RunConcat(n, q, s);
    CountConcat(n, p, r);
    CountConcat(n, q, s);
    RunKeepsIdentity(n, p);
    CountIgnoresState(n, Run(n, p), r);
    CountIgnoresState(n, Run(n, p), s);
    SimilarRun(Run(n, p), Run(n, q), s);
  }
}
