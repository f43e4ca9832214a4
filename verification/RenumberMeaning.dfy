/** What deleting a group means on the fleet: the devices of the deleted group move to group 0, the groups above it
    move down, and the stored scenes are renumbered with them. When does a device keep its part in a scene? */
module RenumberMeaning {
  import opened Basics
  import opened JsonValues
  import opened Offsets
  import opened SceneActions
  import opened SceneEdits
  import opened Renumbering
  import opened Optimizer
  import opened Planner
  import opened Fleet
  import opened Container
  import opened CollapseMeaning
  import Canonicalisation

  // ---- which groups merge ------------------------------------------------------------------

  /** The other group that gets the same new number: group 0 and the deleted one merge. */
  function Twin(g: int, deleted: int): Option<int> {
    if deleted == 0 then (if g == 0 then Some(1) else if g == 1 then Some(0) else None)
    else if g == 0 then Some(deleted)
    else if g == deleted then Some(0)
    else None
  }

  lemma {:induction false} TwinIff(g: int, h: int, deleted: int)
    requires 0 <= deleted
    ensures ShiftGroup(g, deleted) == ShiftGroup(h, deleted) <==> g == h || Twin(g, deleted) == Some(h)
  {
  }

  /** The host's records after the deletion: every stored group moves the same way, and the known groups are the
      groups of the records. */
  function MovedDevices(devices: Option<map<string, HostDevice>>, deleted: int): Option<map<string, HostDevice>> {
    if devices.None? then None
    else Some(map mac | mac in devices.value :: devices.value[mac].(groupId := ShiftGroup(devices.value[mac].groupId, deleted)))
  }

  function MovedEnv(env: Env, deleted: int): Env {
    Env(SortIds(Dedup(ShiftIds(env.known, deleted))), env.presets, MovedDevices(env.devices, deleted))
  }

  ghost predicate Recorded(env: Env) {
    && ValidGroups(env.known)
    && (env.devices.Some? ==> forall mac :: mac in env.devices.value ==> GroupId(env.devices.value[mac].groupId))
  }

  lemma {:induction false} MovedKnown(env: Env, deleted: int)
    requires ValidGroups(env.known) && 0 <= deleted
    ensures ValidGroups(MovedEnv(env, deleted).known)
    ensures forall g :: g in env.known ==> ShiftGroup(g, deleted) in MovedEnv(env, deleted).known
  {
    var s := ShiftIds(env.known, deleted);
    ShiftIdsMembers(env.known, deleted);
    DedupMembers(s);
    DedupDistinct(s);
    SortIdsAscending(Dedup(s));
    forall h | h in MovedEnv(env, deleted).known
      ensures GroupId(h)
    {
      var g :| g in env.known && ShiftGroup(g, deleted) == h;
      ShiftStaysInRange(g, deleted);
    }
  }

  // ---- whom a target reaches ------------------------------------------------------------------

  /** A device that a target did not name and names after the deletion, because its group merged with a named one. */
  predicate Gains(t: Target, env: Env, n: Node, deleted: int) {
    var twin := Twin(n.group, deleted);
    match t
    case Broadcast => false
    case Groups(ids) => n.group !in ids && twin.Some? && twin.value in ids
    case Device(mac) =>
      && env.devices.Some? && mac in env.devices.value
      && (env.devices.value[mac].last3 == ALL_RECEIVERS || env.devices.value[mac].last3 == n.last3)
      && twin == Some(env.devices.value[mac].groupId)
  }

  /** A stored target after the deletion. */
  function MovedTarget(t: Target, deleted: int): Target {
    SettleTarget(ShiftTarget(t, deleted))
  }

  lemma {:induction false} MovedIds(ids: seq<int>, deleted: int)
    requires CanonicalIds(ids) && 0 <= deleted
    ensures MovedTarget(Groups(ids), deleted).ids != []
    ensures forall h :: h in MovedTarget(Groups(ids), deleted).ids <==> exists g :: g in ids && ShiftGroup(g, deleted) == h
  {
    ShiftedTargetIsImage(ids, deleted);
    LooseTargetReloads(ShiftTarget(Groups(ids), deleted));
  }

  lemma {:induction false} NamedIff(ids: seq<int>, g: int, deleted: int)
    requires CanonicalIds(ids) && 0 <= deleted
    ensures ShiftGroup(g, deleted) in MovedTarget(Groups(ids), deleted).ids
            <==> g in ids || (Twin(g, deleted).Some? && Twin(g, deleted).value in ids)
  {
    MovedIds(ids, deleted);
    if ShiftGroup(g, deleted) in MovedTarget(Groups(ids), deleted).ids {
      var h :| h in ids && ShiftGroup(h, deleted) == ShiftGroup(g, deleted);
      TwinIff(g, h, deleted);
    }
    if Twin(g, deleted).Some? {
      TwinIff(g, Twin(g, deleted).value, deleted);
    }
  }

  /** The same device, before and after: its group has moved, it is in offset mode or not as before and with the same
      offset, and it shows and has armed the same effects. How it stores its offset may differ. */
  predicate Follows(n: Node, m: Node, deleted: int) {
    && m.group == ShiftGroup(n.group, deleted) && m.last3 == n.last3
    && m.armed == n.armed && m.shown == n.shown
    && InOffsetMode(m) == InOffsetMode(n) && OffsetMsOf(m) == OffsetMsOf(n)
  }

  /** After the deletion a stored target reaches a device if and only if it did before, or the device's group merged
      with a named one. */
  lemma {:induction false} RenumberedReachIff(n: Node, m: Node, t: Target, env: Env, deleted: int)
    requires CanonicalTarget(t) && Recorded(env) && 0 <= deleted
    requires GroupId(n.group) && m.group == ShiftGroup(n.group, deleted) && m.last3 == n.last3
    ensures Reaches(MovedTarget(t, deleted), MovedEnv(env, deleted), m) <==> Reaches(t, env, n) || Gains(t, env, n, deleted)
    ensures !(Reaches(t, env, n) && Gains(t, env, n, deleted))
  {
    match t
    case Broadcast =>
    case Groups(ids) => NamedIff(ids, n.group, deleted);
    case Device(mac) =>
      if env.devices.Some? && mac in env.devices.value {
        var g := env.devices.value[mac].groupId;
        ShiftStaysInRange(g, deleted);
        TwinIff(n.group, g, deleted);
      }
  }

  // ---- one effect ----------------------------------------------------------------------------

  /** Two plans, each for its own one of two devices, do the same to both. */
  ghost predicate Along(n: Node, m: Node, deleted: int, p: PlanResult, q: PlanResult, ts: int) {
    && p.Raised? == q.Raised?
    && (p.Plan? ==>
          && p.degraded == q.degraded
          && AllSend(p.ops, ts) == AllSend(q.ops, ts)
          && AddressedCount(n, PacketsOf(p.ops, ts)) == AddressedCount(m, PacketsOf(q.ops, ts))
          && Follows(Run(n, PacketsOf(p.ops, ts)), Run(m, PacketsOf(q.ops, ts)), deleted))
  }

  lemma {:induction false} OfferFollows(n: Node, m: Node, c: Content, deleted: int)
    requires Follows(n, m, deleted)
    ensures Follows(Offer(n, c), Offer(m, c), deleted)
  {
  }

  function MovedEffect(e: Effect, deleted: int): Effect {
    SettleEffect(ShiftEffect(e, deleted))
  }

  lemma {:induction false} MovedPreparation(e: Effect, env: Env, force: Option<bool>, deleted: int)
    requires CanonicalEffect(e) && 0 <= deleted
    ensures var c, moved := MovedEffect(e, deleted), MovedEnv(env, deleted);
            && c.kind == e.kind && GroupsAreCanonical(c.target)
            && Prepare(c, moved, force) == Prepare(e, env, force)
            && ResolveTarget(c.target, moved.devices).Some? == ResolveTarget(e.target, env.devices).Some?
  {
    var c, moved := MovedEffect(e, deleted), MovedEnv(env, deleted);
    assert Materialise(c, moved.presets) == Materialise(e, env.presets);
    assert Override(c, force) == Override(e, force);
    if e.target.Groups? {
      MovedIds(e.target.ids, deleted);
      MovedIsCanonical(e.target, deleted);
    }
  }

  lemma {:induction false} MovedIsCanonical(t: Target, deleted: int)
    requires CanonicalTarget(t) && 0 <= deleted
    ensures CanonicalTarget(MovedTarget(t, deleted))
  {
    ShiftedTarget(t, deleted);
    LooseTargetReloads(ShiftTarget(t, deleted));
    Canonicalisation.CanonTargetSound(EncodeTarget(ShiftTarget(t, deleted)));
  }

  lemma {:induction false} PlanShape(e: Effect, env: Env, force: Option<bool>, c: Effect, moved: Env)
    requires Prepare(c, moved, force) == Prepare(e, env, force)
    requires ResolveTarget(c.target, moved.devices).Some? == ResolveTarget(e.target, env.devices).Some?
    ensures var p, q := PlanEffect(e, env, force), PlanEffect(c, moved, force);
            && p.Raised? == q.Raised?
            && (p.Plan? ==> p.degraded == q.degraded && (p.degraded ==> p.ops == [] && q.ops == []))
  {
  }

  /** A renumbered effect does to the moved device what the effect did to the device, unless it gains it. */
  lemma {:induction false} RenumberedEffect(n: Node, m: Node, e: Effect, env: Env, force: Option<bool>, deleted: int, ts: int)
    requires Follows(n, m, deleted) && GroupId(n.group) && CanonicalEffect(e) && Recorded(env) && 0 <= deleted
    requires !Gains(e.target, env, n, deleted)
    ensures Along(n, m, deleted, PlanEffect(e, env, force), PlanEffect(MovedEffect(e, deleted), MovedEnv(env, deleted), force), ts)
  {
    var c, moved := MovedEffect(e, deleted), MovedEnv(env, deleted);
    MovedPreparation(e, env, force, deleted);
    PlanShape(e, env, force, c, moved);
    RenumberedReachIff(n, m, e.target, env, deleted);
    if Proper(e, env, force) {
      ProperEffect(n, m, e, env, force, c, moved, deleted, ts);
    }
  }

  lemma {:induction false} ProperEffect(n: Node, m: Node, e: Effect, env: Env, force: Option<bool>, c: Effect,
                                        moved: Env, deleted: int, ts: int)
    requires Follows(n, m, deleted) && Proper(e, env, force) && Proper(c, moved, force)
    requires GroupsAreCanonical(e.target) && GroupsAreCanonical(c.target)
    requires c.kind == e.kind && Prepare(c, moved, force) == Prepare(e, env, force)
    requires Reaches(c.target, moved, m) == Reaches(e.target, env, n)
    ensures Along(n, m, deleted, PlanEffect(e, env, force), PlanEffect(c, moved, force), ts)
  {
    var p := Prepare(e, env, force);
    if e.kind.Startblock? {
      StartblockRun(n, ResolveTarget(e.target, env.devices).value, p.params, p.bytes, ts);
      StartblockRun(m, ResolveTarget(c.target, moved.devices).value, p.params, p.bytes, ts);
    } else if ContentOf(e.kind, p.params).None? {
      EffectRaises(e, env, force, ts);
      EffectRaises(c, moved, force, ts);
    } else {
      EffectRun(n, e, env, force, ts);
      EffectRun(m, c, moved, force, ts);
      EffectCount(n, e, env, force, ts);
      EffectCount(m, c, moved, force, ts);
      OfferFollows(n, m, ContentOf(e.kind, p.params).value, deleted);
    }
  }

  // ---- plans one after the other ---------------------------------------------------------------

  lemma {:induction false} AlongConcat(n: Node, m: Node, deleted: int, a: seq<WireOp>, b: seq<WireOp>,
                                       c: seq<WireOp>, e: seq<WireOp>,
                                       d1: bool, d2: bool, ts: int)
    requires Along(n, m, deleted, Plan(a, d1), Plan(b, d1), ts)
    requires Along(Run(n, PacketsOf(a, ts)), Run(m, PacketsOf(b, ts)), deleted, Plan(c, d2), Plan(e, d2), ts)
    ensures Along(n, m, deleted, Plan(a + c, d1 || d2), Plan(b + e, d1 || d2), ts)
  {
    PacketsOfConcat(a, c, ts);
    PacketsOfConcat(b, e, ts);
    if AllSend(a, ts) {
      PacketsConcat(n, PacketsOf(a, ts), PacketsOf(c, ts));
      PacketsConcat(m, PacketsOf(b, ts), PacketsOf(e, ts));
    }
  }

  lemma {:induction false} PacketsConcat(n: Node, a: seq<Packet>, b: seq<Packet>)
    ensures Run(n, a + b) == Run(Run(n, a), b)
    ensures AddressedCount(n, a + b) == AddressedCount(n, a) + AddressedCount(Run(n, a), b)
  {
    RunConcat(n, a, b);
    CountConcat(n, a, b);
    RunKeepsIdentity(n, a);
    CountIgnoresState(n, Run(n, a), b);
  }

  lemma {:induction false} AlongTagged(n: Node, m: Node, deleted: int, a: seq<WireOp>, b: seq<WireOp>, phase: Phase,
                                       degraded: bool, ts: int)
    requires Along(n, m, deleted, Plan(a, degraded), Plan(b, degraded), ts)
    ensures Along(n, m, deleted, Plan(TagOps(a, phase), degraded), Plan(TagOps(b, phase), degraded), ts)
    ensures PacketsOf(TagOps(a, phase), ts) == PacketsOf(a, ts) && PacketsOf(TagOps(b, phase), ts) == PacketsOf(b, ts)
  {
    TagsDoNotTravel(a, phase, ts);
    TagsDoNotTravel(b, phase, ts);
  }

  function MovedEffects(es: seq<Effect>, deleted: int): (r: seq<Effect>)
    ensures |r| == |es| && forall i :: 0 <= i < |es| ==> r[i] == MovedEffect(es[i], deleted)
  {
    Map(SettleEffect, ShiftEffects(es, deleted))
  }

  lemma {:induction false} MovedTail(es: seq<Effect>, deleted: int)
    requires es != []
    ensures MovedEffects(es, deleted)[1..] == MovedEffects(es[1..], deleted)
  {
  }

  ghost predicate NoneGained(es: seq<Effect>, env: Env, n: Node, deleted: int) {
    forall i :: 0 <= i < |es| ==> !Gains(es[i].target, env, n, deleted)
  }

  lemma {:induction false} RenumberedChildren(n: Node, m: Node, es: seq<Effect>, env: Env, force: bool, index: nat,
                                              deleted: int, ts: int)
    requires Follows(n, m, deleted) && GroupId(n.group) && Recorded(env) && 0 <= deleted
    requires (forall i :: 0 <= i < |es| ==> CanonicalEffect(es[i])) && NoneGained(es, env, n, deleted)
    ensures Along(n, m, deleted, PlanChildren(es, env, force, index),
                  PlanChildren(MovedEffects(es, deleted), MovedEnv(env, deleted), force, index), ts)
    decreases |es|
  {
    if es != [] {
      var moved, menv := MovedEffects(es, deleted), MovedEnv(env, deleted);
      MovedTail(es, deleted);
      var p, q := PlanEffect(es[0], env, Some(force)), PlanEffect(moved[0], menv, Some(force));
      RenumberedEffect(n, m, es[0], env, Some(force), deleted, ts);
      if p.Plan? {
        RunKeepsIdentity(n, PacketsOf(p.ops, ts));
        SameGains(es[1..], env, n, Run(n, PacketsOf(p.ops, ts)), deleted);
        RenumberedChildren(Run(n, PacketsOf(p.ops, ts)), Run(m, PacketsOf(q.ops, ts)), es[1..], env, force, index + 1, deleted, ts);
        AlongTagged(n, m, deleted, p.ops, q.ops, ChildPhase(index), p.degraded, ts);
        var r, s := PlanChildren(es[1..], env, force, index + 1), PlanChildren(moved[1..], menv, force, index + 1);
        if r.Plan? {
          AlongConcat(n, m, deleted, TagOps(p.ops, ChildPhase(index)), TagOps(q.ops, ChildPhase(index)), r.ops, s.ops,
                      p.degraded, r.degraded, ts);
        }
      }
    }
  }

  lemma {:induction false} SameGains(es: seq<Effect>, env: Env, n: Node, k: Node, deleted: int)
    requires NoneGained(es, env, n, deleted) && k.group == n.group && k.last3 == n.last3
    ensures NoneGained(es, env, k, deleted)
  {
  }

  // ---- containers ---------------------------------------------------------------------------------

  function MovedBlock(b: OffsetBlock, deleted: int): OffsetBlock {
    SettleBlock(ShiftBlock(b, deleted))
  }

  /** The offset that the renumbered container wants for the device is the one it wanted before. A known device that
      takes no part is instead left alone or cleared as before. */
  predicate KeepsOffset(target: Target, block: OffsetBlock, known: seq<int>, movedKnown: seq<int>, g: int, deleted: int)
    requires !target.Device?
  {
    if Participates(target, known, g)
    then WantedMs(MovedBlock(block, deleted), ShiftGroup(g, deleted)) == WantedMs(block, g)
    else StrategyFor(MovedTarget(target, deleted), MovedBlock(block, deleted), movedKnown) == StrategyFor(target, block, known)
  }

  lemma {:induction false} MovedActionIsCanonical(a: Action, deleted: int)
    requires Canonical(a) && Revalidates(a, deleted) && 0 <= deleted
    ensures Canonical(Settle(Renumber(a, deleted)))
  {
    RenumberedReloads(a, deleted);
    Canonicalisation.AcceptedIsCanonical(EncodeAction(Renumber(a, deleted)));
  }

  lemma {:induction false} MovedContainer(target: Target, block: OffsetBlock, children: seq<Effect>, env: Env, deleted: int)
    requires Canonical(OffsetGroup(target, block, children)) && Revalidates(OffsetGroup(target, block, children), deleted)
    requires ValidGroups(env.known) && 0 <= deleted
    ensures Canonical(OffsetGroup(MovedTarget(target, deleted), MovedBlock(block, deleted), MovedEffects(children, deleted)))
    ensures SetupInput(target, block, env.known)
    ensures SetupInput(MovedTarget(target, deleted), MovedBlock(block, deleted), MovedEnv(env, deleted).known)
    ensures forall i :: 0 <= i < |children| ==> CanonicalEffect(children[i])
  {
    var moved := OffsetGroup(MovedTarget(target, deleted), MovedBlock(block, deleted), MovedEffects(children, deleted));
    MovedIsSettled(target, block, children, deleted);
    MovedActionIsCanonical(OffsetGroup(target, block, children), deleted);
    CanonicalSetupInput(target, block, children, env.known);
    MovedKnown(env, deleted);
    CanonicalSetupInput(moved.target, moved.block, moved.children, MovedEnv(env, deleted).known);
    CanonicalKids(OffsetGroup(target, block, children));
  }

  lemma {:induction false} MovedIsSettled(target: Target, block: OffsetBlock, children: seq<Effect>, deleted: int)
    ensures Settle(Renumber(OffsetGroup(target, block, children), deleted))
         == OffsetGroup(MovedTarget(target, deleted), MovedBlock(block, deleted), MovedEffects(children, deleted))
  {
  }

  lemma {:induction false} CanonicalKids(a: Action)
    requires Canonical(a) && a.OffsetGroup?
    ensures forall i :: 0 <= i < |a.children| ==> CanonicalEffect(a.children[i])
  {
    forall i | 0 <= i < |a.children|
      ensures CanonicalEffect(a.children[i])
    {
      assert CanonicalChild(a.children[i], a.target);
    }
  }

  lemma {:induction false} SamePart(target: Target, env: Env, n: Node, deleted: int)
    requires !target.Device? && CanonicalTarget(target) && !Gains(target, env, n, deleted)
    requires ValidGroups(env.known) && n.group in env.known && 0 <= deleted
    ensures Participates(MovedTarget(target, deleted), MovedEnv(env, deleted).known, ShiftGroup(n.group, deleted))
         == Participates(target, env.known, n.group)
    ensures ShiftGroup(n.group, deleted) in MovedEnv(env, deleted).known
  {
    MovedKnown(env, deleted);
    if target.Groups? {
      NamedIff(target.ids, n.group, deleted);
    }
  }

  /** The setup packets leave the two devices alike. */
  lemma {:induction false} SetupFollows(n: Node, m: Node, target: Target, block: OffsetBlock, env: Env, deleted: int)
    requires Follows(n, m, deleted) && !target.Device? && CanonicalTarget(target) && !Gains(target, env, n, deleted)
    requires ValidGroups(env.known) && n.group in env.known && 0 <= deleted
    requires SetupInput(target, block, env.known)
    requires SetupInput(MovedTarget(target, deleted), MovedBlock(block, deleted), MovedEnv(env, deleted).known)
    requires KeepsOffset(target, block, env.known, MovedEnv(env, deleted).known, n.group, deleted)
    ensures Follows(AfterSetup(n, target, block, env.known),
                    AfterSetup(m, MovedTarget(target, deleted), MovedBlock(block, deleted), MovedEnv(env, deleted).known), deleted)
  {
    SamePart(target, env, n, deleted);
    SetupMeaning(n, target, block, env.known);
    SetupMeaning(m, MovedTarget(target, deleted), MovedBlock(block, deleted), MovedEnv(env, deleted).known);
  }

  lemma {:induction false} RenumberedSetup(n: Node, m: Node, target: Target, block: OffsetBlock, env: Env, deleted: int, ts: int)
    requires Follows(n, m, deleted) && !target.Device? && CanonicalTarget(target) && !Gains(target, env, n, deleted)
    requires ValidGroups(env.known) && n.group in env.known && 0 <= deleted
    requires SetupInput(target, block, env.known)
    requires SetupInput(MovedTarget(target, deleted), MovedBlock(block, deleted), MovedEnv(env, deleted).known)
    requires KeepsOffset(target, block, env.known, MovedEnv(env, deleted).known, n.group, deleted)
    ensures var s := Setup(target, block, env.known).ops;
            var t := Setup(MovedTarget(target, deleted), MovedBlock(block, deleted), MovedEnv(env, deleted).known).ops;
            Along(n, m, deleted, Plan(s, false), Plan(t, false), ts) && AllSend(s, ts) && s != [] && t != []
  {
    var menv, mtarget, mblock := MovedEnv(env, deleted), MovedTarget(target, deleted), MovedBlock(block, deleted);
    SetupFollows(n, m, target, block, env, deleted);
    SamePart(target, env, n, deleted);
    SetupPhase(n, target, block, env.known, ts);
    SetupPhase(m, mtarget, mblock, menv.known, ts);
    CountNone(n, PacketsOf(Setup(target, block, env.known).ops, ts));
    CountNone(m, PacketsOf(Setup(mtarget, mblock, menv.known).ops, ts));
    SetupOpsExist(target, block, env.known);
    SetupOpsExist(mtarget, mblock, menv.known);
  }

  /** The plan of the renumbered container. */
  function MovedPlan(target: Target, block: OffsetBlock, children: seq<Effect>, env: Env, deleted: int): PlanResult
    requires !target.Device?
  {
    PlanContainer(MovedTarget(target, deleted), MovedBlock(block, deleted), MovedEffects(children, deleted), MovedEnv(env, deleted))
  }

  lemma {:induction false} RenumberedContainer(n: Node, m: Node, target: Target, block: OffsetBlock,
                                               children: seq<Effect>, env: Env,
                                               deleted: int, ts: int)
    requires Canonical(OffsetGroup(target, block, children)) && Revalidates(OffsetGroup(target, block, children), deleted)
    requires Follows(n, m, deleted) && GroupId(n.group) && Recorded(env) && n.group in env.known && 0 <= deleted
    requires !Gains(target, env, n, deleted) && NoneGained(children, env, n, deleted)
    requires KeepsOffset(target, block, env.known, MovedEnv(env, deleted).known, n.group, deleted)
    ensures Along(n, m, deleted, PlanContainer(target, block, children, env),
                  MovedPlan(target, block, children, env, deleted), ts)
  {
    var menv, mtarget, mblock := MovedEnv(env, deleted), MovedTarget(target, deleted), MovedBlock(block, deleted);
    MovedContainer(target, block, children, env, deleted);
    RenumberedSetup(n, m, target, block, env, deleted, ts);
    var s, t := Setup(target, block, env.known).ops, Setup(mtarget, mblock, menv.known).ops;
    RunKeepsIdentity(n, PacketsOf(s, ts));
    SameGains(children, env, n, Run(n, PacketsOf(s, ts)), deleted);
    RenumberedChildren(Run(n, PacketsOf(s, ts)), Run(m, PacketsOf(t, ts)), children, env, !block.NoneBlock?, 0, deleted, ts);
    AssembledAlong(n, m, deleted, s, t, PlanChildren(children, env, !block.NoneBlock?, 0),
                   PlanChildren(MovedEffects(children, deleted), menv, !block.NoneBlock?, 0), ts);
  }

  lemma {:induction false} AssembledAlong(n: Node, m: Node, deleted: int, s: seq<WireOp>, t: seq<WireOp>,
                                          p: PlanResult, q: PlanResult, ts: int)
    requires Along(n, m, deleted, Plan(s, false), Plan(t, false), ts)
    requires Along(Run(n, PacketsOf(s, ts)), Run(m, PacketsOf(t, ts)), deleted, p, q, ts)
    ensures Along(n, m, deleted, Assemble(s, p), Assemble(t, q), ts)
  {
    if p.Plan? {
      AlongTagged(n, m, deleted, s, t, OffsetPhase, false, ts);
      AlongConcat(n, m, deleted, TagOps(s, OffsetPhase), TagOps(t, OffsetPhase), p.ops, q.ops, false, p.degraded, ts);
    }
  }

  // ---- when the offset stays --------------------------------------------------------------------

  /** For a device that takes part, the offset after the renumbered container is the one after the original if and
      only if the container still wants the same one. */
  lemma {:induction false} RenumberedOffsetIff(n: Node, m: Node, target: Target, block: OffsetBlock,
                                               children: seq<Effect>, env: Env,
                                               deleted: int, ts: int)
    requires Canonical(OffsetGroup(target, block, children)) && Revalidates(OffsetGroup(target, block, children), deleted)
    requires m.group == ShiftGroup(n.group, deleted)
    requires ValidGroups(env.known) && n.group in env.known && Participates(target, env.known, n.group) && 0 <= deleted
    requires var p := PlanContainer(target, block, children, env); p.Plan? && !p.degraded && AllSend(p.ops, ts)
    requires var q := MovedPlan(target, block, children, env, deleted);
             q.Plan? && !q.degraded && AllSend(q.ops, ts)
    ensures var p := PlanContainer(target, block, children, env);
            var q := MovedPlan(target, block, children, env, deleted);
            OffsetMsOf(Run(m, PacketsOf(q.ops, ts))) == OffsetMsOf(Run(n, PacketsOf(p.ops, ts)))
            <==> KeepsOffset(target, block, env.known, MovedEnv(env, deleted).known, n.group, deleted)
  {
    MovedContainer(target, block, children, env, deleted);
    SamePart(target, env, n, deleted);
    ParticipantOffset(n, target, block, children, env, ts);
    ParticipantOffset(m, MovedTarget(target, deleted), MovedBlock(block, deleted), MovedEffects(children, deleted),
                      MovedEnv(env, deleted), ts);
  }

  lemma {:induction false} ParticipantOffset(n: Node, target: Target, block: OffsetBlock, children: seq<Effect>,
                                             env: Env, ts: int)
    requires Canonical(OffsetGroup(target, block, children)) && ValidGroups(env.known) && n.group in env.known
    requires Participates(target, env.known, n.group)
    requires var p := PlanContainer(target, block, children, env); p.Plan? && !p.degraded && AllSend(p.ops, ts)
    ensures OffsetMsOf(Run(n, PacketsOf(PlanContainer(target, block, children, env).ops, ts))) == WantedMs(block, n.group)
  {
    CanonicalSetupInput(target, block, children, env.known);
    ContainerRun(n, target, block, children, env, ts);
    SetupMeaning(n, target, block, env.known);
    PlayKeepsOffset(AfterSetup(n, target, block, env.known), children, env, !block.NoneBlock?, WantedMs(block, n.group));
  }

  /** An explicit offset goes with its group, unless the group merges with group 0 and group 0 had another one. */
  lemma {:induction false} ExplicitOffsetKeptIff(a: Action, known: seq<int>, movedKnown: seq<int>, g: int, deleted: int)
    requires Canonical(a) && 0 <= deleted && a.OffsetGroup? && a.block.ExplicitBlock?
    requires Distinct(Canonicalisation.IdsOf(a.block.values))
    requires g in a.target.ids
    ensures KeepsOffset(a.target, a.block, known, movedKnown, g, deleted)
            <==> WantedMs(a.block, Supplier(a.target.ids, g, deleted)) == WantedMs(a.block, g)
  {
    OffsetsMoveWithGroups(a, deleted, g);
  }

  /** A linear offset that stays within its range goes with its group only if the group keeps its number or the step is
      zero. */
  lemma {:induction false} LinearOffsetKeptIff(base: int, step: int, g: int, deleted: int)
    requires GroupId(g) && 0 <= deleted
    requires 0 <= base + g * step <= OFFSET_MS_MAX && 0 <= base + ShiftGroup(g, deleted) * step <= OFFSET_MS_MAX
    ensures var block := FormulaBlock(Linear(base, step));
            WantedMs(MovedBlock(block, deleted), ShiftGroup(g, deleted)) == WantedMs(block, g)
            <==> step == 0 || ShiftGroup(g, deleted) == g
  {
    var h := ShiftGroup(g, deleted);
    ShiftStaysInRange(g, deleted);
    assert LowByte(g) == g && LowByte(h) == h;
    LinearValue(base, step, g);
    LinearValue(base, step, h);
    SameProduct(g, h, step);
  }

  lemma {:induction false} LinearValue(base: int, step: int, g: int)
    requires LowByte(g) == g && 0 <= base + g * step <= OFFSET_MS_MAX
    ensures WantedMs(FormulaBlock(Linear(base, step)), g) == base + g * step
  {
  }

  lemma {:induction false} SameProduct(g: int, h: int, step: int)
    ensures g * step == h * step <==> step == 0 || g == h
  {
    assert (g - h) * step == g * step - h * step;
  }

  /** So renumbering changes the offsets of a formula container that still aims at the same devices: before, each device
      plays at its old group's place in the wave, and after at its new group's. */
  lemma {:induction false} FormulaOffsetsMove(n: Node, m: Node, ids: seq<int>, f: Formula, env: Env, deleted: int, ts: int)
    requires SetupInput(Groups(ids), FormulaBlock(f), env.known) && 0 <= deleted
    requires n.group in ids && m.group == ShiftGroup(n.group, deleted)
    ensures var block := FormulaBlock(f);
            && OffsetMsOf(Run(n, PacketsOf(Setup(Groups(ids), block, env.known).ops, ts))) == WantedMs(block, n.group)
            && OffsetMsOf(Run(m, PacketsOf(Setup(MovedTarget(Groups(ids), deleted), block, MovedEnv(env, deleted).known).ops, ts)))
               == WantedMs(block, m.group)
  {
    var block, moved := FormulaBlock(f), MovedTarget(Groups(ids), deleted);
    MovedKnown(env, deleted);
    MovedIsCanonical(Groups(ids), deleted);
    NamedIff(ids, n.group, deleted);
    SetupOffset(n, Groups(ids), block, env.known, ts);
    SetupOffset(m, moved, block, MovedEnv(env, deleted).known, ts);
  }

  lemma {:induction false} SetupOffset(n: Node, target: Target, block: OffsetBlock, known: seq<int>, ts: int)
    requires SetupInput(target, block, known) && Participates(target, known, n.group)
    ensures OffsetMsOf(Run(n, PacketsOf(Setup(target, block, known).ops, ts))) == WantedMs(block, n.group)
  {
    SetupPhase(n, target, block, known, ts);
    SetupMeaning(n, target, block, known);
  }

  /** One such container: group 5 with 100 ms a group, when group 2 is deleted. It validates again, and group 5, now 4,
      is to play at 400 instead of 500. */
  lemma {:induction false} FormulaOffsetMoves(known: seq<int>, movedKnown: seq<int>)
    ensures var a := OffsetGroup(Groups([5]), FormulaBlock(Linear(0, 100)), []);
            && Canonical(a) && Revalidates(a, 2)
            && WantedMs(a.block, 5) == 500 && WantedMs(MovedBlock(a.block, 2), 4) == 400
            && !KeepsOffset(a.target, a.block, known, movedKnown, 5, 2)
  {
    LinearValue(0, 100, 5);
    LinearValue(0, 100, 4);
    assert 5 in [5];
  }

  // ---- whole scenes -------------------------------------------------------------------------------

  function MovedAction(a: Action, deleted: int): Action {
    Settle(Renumber(a, deleted))
  }

  /** The deletion keeps the device's part in an action. */
  predicate KeepsPart(a: Action, env: Env, n: Node, deleted: int) {
    match a
    case Act(e) => !Gains(e.target, env, n, deleted)
    case Sync => true
    case Delay(_) => true
    case OffsetGroup(target, block, children) =>
      && !target.Device? && Revalidates(a, deleted)
      && !Gains(target, env, n, deleted)
      && (forall i :: 0 <= i < |children| ==> !Gains(children[i].target, env, n, deleted))
      && KeepsOffset(target, block, env.known, MovedEnv(env, deleted).known, n.group, deleted)
  }

  ghost predicate KeepsParts(actions: seq<Action>, env: Env, n: Node, deleted: int) {
    forall i :: 0 <= i < |actions| ==> Canonical(actions[i]) && KeepsPart(actions[i], env, n, deleted)
  }

  lemma {:induction false} SyncAlong(n: Node, m: Node, deleted: int, ts: int)
    requires Follows(n, m, deleted)
    ensures Along(n, m, deleted, Plan([SYNC_OP], false), Plan([SYNC_OP], false), ts)
  {
    var ps := PacketsOf([SYNC_OP], ts);
    SyncPackets(ts);
    CountNone(n, ps);
    CountNone(m, ps);
    if ps != [] {
      RunOne(n, ps[0]);
      RunOne(m, ps[0]);
      FireFollows(n, m, deleted, ps[0]);
    }
  }

  lemma {:induction false} SyncPackets(ts: int)
    ensures var ps := PacketsOf([SYNC_OP], ts);
            ps == [] || (ps == [ps[0]] && ps[0].opcode == OPC_SYNC)
  {
    AttemptAt([SYNC_OP], ts, 0);
    var s := Attempts([SYNC_OP], ts);
    assert s[1..] == [];
    assert UntilNone(s) == if s[0].None? then [] else [s[0].value];
  }

  lemma {:induction false} FireFollows(n: Node, m: Node, deleted: int, p: Packet)
    requires Follows(n, m, deleted) && p.opcode == OPC_SYNC
    ensures Follows(Receive(n, p), Receive(m, p), deleted)
  {
  }

  lemma {:induction false} RenumberedAction(n: Node, m: Node, a: Action, env: Env, deleted: int, ts: int)
    requires Canonical(a) && KeepsPart(a, env, n, deleted)
    requires Follows(n, m, deleted) && GroupId(n.group) && Recorded(env) && n.group in env.known && 0 <= deleted
    ensures var b, menv := MovedAction(a, deleted), MovedEnv(env, deleted);
            && Along(n, m, deleted, PlanAction(a, env), PlanAction(b, menv), ts)
            && Failed(a, env, ts) == Failed(b, menv, ts)
  {
    match a
    case Act(e) => RenumberedEffect(n, m, e, env, None, deleted, ts);
    case Sync => SyncAlong(n, m, deleted, ts);
    case Delay(_) =>
    case OffsetGroup(target, block, children) =>
      MovedIsSettled(target, block, children, deleted);
      RenumberedContainer(n, m, target, block, children, env, deleted, ts);
      MovedContainer(target, block, children, env, deleted);
      RenumberedSetup(n, m, target, block, env, deleted, ts);
      SameFailure(n, m, a, MovedAction(a, deleted), env, MovedEnv(env, deleted), deleted, ts);
  }

  /** Containers whose offset packets are sent fail alike. */
  lemma {:induction false} SameFailure(n: Node, m: Node, a: Action, b: Action, env: Env, menv: Env, deleted: int, ts: int)
    requires a.OffsetGroup? && b.OffsetGroup? && !a.target.Device? && !b.target.Device?
    requires Along(n, m, deleted, PlanAction(a, env), PlanAction(b, menv), ts)
    requires Setup(a.target, a.block, env.known).ops != [] && Setup(b.target, b.block, menv.known).ops != []
    ensures Failed(a, env, ts) == Failed(b, menv, ts)
  {
    NotEmpty(a, env);
    NotEmpty(b, menv);
  }

  lemma {:induction false} NotEmpty(a: Action, env: Env)
    requires a.OffsetGroup? && !a.target.Device? && Setup(a.target, a.block, env.known).ops != []
    ensures PlanAction(a, env).Plan? ==> PlanAction(a, env).ops != []
  {
  }

  function MovedActions(actions: seq<Action>, deleted: int): (r: seq<Action>)
    ensures |r| == |actions| && forall i :: 0 <= i < |actions| ==> r[i] == MovedAction(actions[i], deleted)
  {
    Map(Settle, RenumberAll(actions, deleted))
  }

  lemma {:induction false} MovedActionsTail(actions: seq<Action>, deleted: int)
    requires actions != []
    ensures MovedActions(actions, deleted)[1..] == MovedActions(actions[1..], deleted)
  {
  }

  lemma {:induction false} SameParts(actions: seq<Action>, env: Env, n: Node, k: Node, deleted: int)
    requires KeepsParts(actions, env, n, deleted) && k.group == n.group && k.last3 == n.last3
    ensures KeepsParts(actions, env, k, deleted)
  {
  }

  /** Running a stored scene before a group is deleted, and its renumbered form after, leaves a device whose part is
      kept in the same state up to its group: the same effects shown and armed, in offset mode or not as before and with
      the same offset, addressed by the same number of effect packets, with and without stop-on-error. */
  lemma {:induction false} RenumberPreservesMeaning(n: Node, m: Node, actions: seq<Action>, env: Env, deleted: int,
                                                    ts: int, stopOnError: bool)
    requires KeepsParts(actions, env, n, deleted)
    requires Follows(n, m, deleted) && GroupId(n.group) && Recorded(env) && n.group in env.known && 0 <= deleted
    ensures var before := ScenePackets(actions, env, ts, stopOnError);
            var after := ScenePackets(MovedActions(actions, deleted), MovedEnv(env, deleted), ts, stopOnError);
            Follows(Run(n, before), Run(m, after), deleted) && AddressedCount(n, before) == AddressedCount(m, after)
    decreases |actions|
  {
    if actions != [] {
      var b, menv := MovedAction(actions[0], deleted), MovedEnv(env, deleted);
      var p, q := ActionPackets(actions[0], env, ts), ActionPackets(b, menv, ts);
      FirstAlong(n, m, actions[0], env, deleted, ts);
      SameParts(actions[1..], env, n, Run(n, p), deleted);
      RenumberPreservesMeaning(Run(n, p), Run(m, q), actions[1..], env, deleted, ts, stopOnError);
      MovedActionsTail(actions, deleted);
      SceneCons(actions, env, ts, stopOnError);
      SceneCons(MovedActions(actions, deleted), menv, ts, stopOnError);
      var abort := stopOnError && Failed(actions[0], env, ts);
      var r := if abort then [] else ScenePackets(actions[1..], env, ts, stopOnError);
      var s := if abort then [] else ScenePackets(MovedActions(actions[1..], deleted), menv, ts, stopOnError);
      StepsAlong(n, m, deleted, p, q, r, s);
    }
  }

  lemma {:induction false} FirstAlong(n: Node, m: Node, a: Action, env: Env, deleted: int, ts: int)
    requires Canonical(a) && KeepsPart(a, env, n, deleted)
    requires Follows(n, m, deleted) && GroupId(n.group) && Recorded(env) && n.group in env.known && 0 <= deleted
    ensures var b, menv := MovedAction(a, deleted), MovedEnv(env, deleted);
            var p, q := ActionPackets(a, env, ts), ActionPackets(b, menv, ts);
            && Follows(Run(n, p), Run(m, q), deleted) && AddressedCount(n, p) == AddressedCount(m, q)
            && Run(n, p).group == n.group && Run(n, p).last3 == n.last3
            && Failed(a, env, ts) == Failed(b, menv, ts)
  {
    var b, menv := MovedAction(a, deleted), MovedEnv(env, deleted);
    RenumberedAction(n, m, a, env, deleted, ts);
    ActionAlong(n, m, a, b, env, menv, deleted, ts);
    RunKeepsIdentity(n, ActionPackets(a, env, ts));
  }

  lemma {:induction false} StepsAlong(n: Node, m: Node, deleted: int, p: seq<Packet>, q: seq<Packet>, r: seq<Packet>,
                                      s: seq<Packet>)
    requires AddressedCount(n, p) == AddressedCount(m, q)
    requires Follows(Run(Run(n, p), r), Run(Run(m, q), s), deleted)
    requires AddressedCount(Run(n, p), r) == AddressedCount(Run(m, q), s)
    ensures Follows(Run(n, p + r), Run(m, q + s), deleted) && AddressedCount(n, p + r) == AddressedCount(m, q + s)
  {
    PacketsConcat(n, p, r);
    PacketsConcat(m, q, s);
  }

  lemma {:induction false} ActionAlong(n: Node, m: Node, a: Action, b: Action, env: Env, menv: Env, deleted: int, ts: int)
    requires Follows(n, m, deleted) && Along(n, m, deleted, PlanAction(a, env), PlanAction(b, menv), ts)
    ensures Follows(Run(n, ActionPackets(a, env, ts)), Run(m, ActionPackets(b, menv, ts)), deleted)
    ensures AddressedCount(n, ActionPackets(a, env, ts)) == AddressedCount(m, ActionPackets(b, menv, ts))
  {
  }

  lemma {:induction false} SceneCons(actions: seq<Action>, env: Env, ts: int, stopOnError: bool)
    requires actions != []
    ensures ScenePackets(actions, env, ts, stopOnError)
         == ActionPackets(actions[0], env, ts)
            + if stopOnError && Failed(actions[0], env, ts) then [] else ScenePackets(actions[1..], env, ts, stopOnError)
  {
  }
}
