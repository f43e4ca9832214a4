/** What renumbering after a group deletion does to a canonical action: when the result validates again,
    which groups it names, and which offset each surviving group keeps. */
module Renumbering {
  import opened Basics
  import opened JsonValues
  import opened Offsets
  import opened SceneActions
  import opened Canonicalisation
  import opened SceneEdits

  /** Validation also sorts: the action as it is stored after a rewrite. */
  function SettleTarget(t: Target): Target {
    if t.Groups? then Groups(SortIds(t.ids)) else t
  }

  function SettleBlock(b: OffsetBlock): OffsetBlock {
    if b.ExplicitBlock? then ExplicitBlock(SortBy(b.values, EntryId)) else b
  }

  function SettleEffect(e: Effect): Effect {
    e.(target := SettleTarget(e.target))
  }

  function Settle(a: Action): Action {
    match a
    case Act(e) => Act(SettleEffect(e))
    case Sync => a
    case Delay(_) => a
    case OffsetGroup(target, block, children) =>
      OffsetGroup(SettleTarget(target), SettleBlock(block), Map(SettleEffect, children))
  }

  // ---- lists ---------------------------------------------------------------------

  ghost predicate LooseIds(ids: seq<int>) {
    ids != [] && Distinct(ids) && AllGroupIds(ids)
  }

  ghost predicate LooseTarget(t: Target) {
    match t
    case Broadcast => true
    case Groups(ids) => LooseIds(ids)
    case Device(mac) => IsMac12(mac)
  }

  lemma {:induction false} LooseTargetReloads(t: Target)
    requires LooseTarget(t)
    ensures CanonTarget(EncodeTarget(t)) == Ok(SettleTarget(t))
    ensures t.Groups? ==> |SettleTarget(t).ids| == |t.ids| && forall g :: g in SettleTarget(t).ids <==> g in t.ids
  {
    if t.Groups? {
      IntsOfEncoded(t.ids);
      SortIdsAscending(t.ids);
    } else {
      CanonTargetOfEncoded(t);
    }
  }

  lemma {:induction false} ShiftStaysInRange(g: int, deleted: int)
    requires 0 <= deleted && GroupId(g)
    ensures GroupId(ShiftGroup(g, deleted))
  {
  }

  lemma {:induction false} ShiftIdsMembers(ids: seq<int>, deleted: int)
    ensures forall g :: g in ids ==> ShiftGroup(g, deleted) in ShiftIds(ids, deleted)
    ensures forall h :: h in ShiftIds(ids, deleted) ==> exists g :: g in ids && ShiftGroup(g, deleted) == h
  {
    var s := ShiftIds(ids, deleted);
    forall g | g in ids
      ensures ShiftGroup(g, deleted) in s
    {
      var k :| 0 <= k < |ids| && ids[k] == g;
      assert s[k] in s;
    }
    forall h | h in s
      ensures exists g :: g in ids && ShiftGroup(g, deleted) == h
    {
      var k :| 0 <= k < |s| && s[k] == h;
      assert ids[k] in ids && ShiftGroup(ids[k], deleted) == h;
    }
  }

  /** A shifted target list is the set image of the old one under the shift. */
  lemma {:induction false} ShiftedTargetIsImage(ids: seq<int>, deleted: int)
    requires CanonicalIds(ids) && 0 <= deleted
    ensures LooseIds(Dedup(ShiftIds(ids, deleted)))
    ensures |Dedup(ShiftIds(ids, deleted))| <= |ids|
    ensures forall h :: h in Dedup(ShiftIds(ids, deleted)) <==> exists g :: g in ids && ShiftGroup(g, deleted) == h
  {
    var s := ShiftIds(ids, deleted);
    ShiftIdsMembers(ids, deleted);
    DedupMembers(s);
    DedupDistinct(s);
    DedupSize(s);
    assert ShiftGroup(ids[0], deleted) in s && Dedup(s) != [];
    forall i | 0 <= i < |Dedup(s)|
      ensures GroupId(Dedup(s)[i])
    {
      var h := Dedup(s)[i];
      assert h in Dedup(s);
      var g :| g in ids && ShiftGroup(g, deleted) == h;
      ShiftStaysInRange(g, deleted);
    }
  }

  lemma {:induction false} ShiftedTarget(t: Target, deleted: int)
    requires CanonicalTarget(t) && 0 <= deleted
    ensures LooseTarget(ShiftTarget(t, deleted))
  {
    if t.Groups? {
      ShiftedTargetIsImage(t.ids, deleted);
    }
  }

  // ---- explicit values -----------------------------------------------------------

  lemma {:induction false} HasId(values: seq<GroupMs>, id: int)
    ensures id in IdsOf(values) <==> exists i :: 0 <= i < |values| && values[i].id == id
  {
    if id in IdsOf(values) {
      var i :| 0 <= i < |values| && IdsOf(values)[i] == id;
      assert values[i].id == id;
    }
    if i :| 0 <= i < |values| && values[i].id == id {
      assert IdsOf(values)[i] == id;
    }
  }

  lemma {:induction false} DedupSnoc(s: seq<int>, x: int)
    ensures Dedup(s + [x]) == if x in s then Dedup(s) else Dedup(s) + [x]
  {
    assert (s + [x])[..|s|] == s;
  }

  lemma {:induction false} IdsSnoc(front: seq<GroupMs>, last: GroupMs)
    ensures IdsOf(front + [last]) == IdsOf(front) + [last.id]
  {
  }

  lemma {:induction false} ShiftedIdsSnoc(front: seq<GroupMs>, last: GroupMs, deleted: int)
    ensures ShiftIds(IdsOf(front + [last]), deleted) == ShiftIds(IdsOf(front), deleted) + [ShiftGroup(last.id, deleted)]
  {
    IdsSnoc(front, last);
  }

  lemma {:induction false} ShiftValuesSnoc(front: seq<GroupMs>, last: GroupMs, deleted: int)
    ensures var head, id := ShiftValues(front, deleted), ShiftGroup(last.id, deleted);
            ShiftValues(front + [last], deleted) == if id in IdsOf(head) then head else head + [GroupMs(id, last.ms)]
  {
    var all := front + [last];
    assert all[..|all| - 1] == front;
    HasId(ShiftValues(front, deleted), ShiftGroup(last.id, deleted));
  }

  lemma {:induction false} ShiftedValueIds(values: seq<GroupMs>, deleted: int)
    ensures IdsOf(ShiftValues(values, deleted)) == Dedup(ShiftIds(IdsOf(values), deleted))
    decreases |values|
  {
    if values != [] {
      var front, last := values[..|values| - 1], values[|values| - 1];
      assert values == front + [last];
      ShiftedValueIds(front, deleted);
      OneMoreId(front, last, deleted);
    }
  }

  lemma {:induction false} OneMoreId(front: seq<GroupMs>, last: GroupMs, deleted: int)
    requires IdsOf(ShiftValues(front, deleted)) == Dedup(ShiftIds(IdsOf(front), deleted))
    ensures IdsOf(ShiftValues(front + [last], deleted)) == Dedup(ShiftIds(IdsOf(front + [last]), deleted))
  {
    var head, s, id := ShiftValues(front, deleted), ShiftIds(IdsOf(front), deleted), ShiftGroup(last.id, deleted);
    ShiftValuesSnoc(front, last, deleted);
    ShiftedIdsSnoc(front, last, deleted);
    DedupSnoc(s, id);
    DedupMembers(s);
    IdsSnoc(head, GroupMs(id, last.ms));
  }

  lemma {:induction false} ShiftedValueRange(values: seq<GroupMs>, deleted: int)
    requires forall i :: 0 <= i < |values| ==> 0 <= values[i].ms <= OFFSET_MS_MAX
    ensures forall e :: e in ShiftValues(values, deleted) ==> 0 <= e.ms <= OFFSET_MS_MAX
    decreases |values|
  {
    if values != [] {
      ShiftedValueRange(values[..|values| - 1], deleted);
    }
  }

  /** The first entry whose id shifts to `h` supplies the value of `h`. */
  lemma {:induction false} FirstEntryWins(values: seq<GroupMs>, deleted: int, k: nat)
    requires k < |values|
    requires forall j :: 0 <= j < k ==> ShiftGroup(values[j].id, deleted) != ShiftGroup(values[k].id, deleted)
    ensures GroupMs(ShiftGroup(values[k].id, deleted), values[k].ms) in ShiftValues(values, deleted)
    decreases |values|
  {
    var n := |values| - 1;
    var front := values[..n];
    var e := GroupMs(ShiftGroup(values[k].id, deleted), values[k].ms);
    if k < n {
      FirstEntryWins(front, deleted, k);
      assert e in ShiftValues(front, deleted);
    } else {
      var head := ShiftValues(front, deleted);
      forall i | 0 <= i < |head|
        ensures head[i].id != e.id
      {
        EntrySource(front, deleted, i);
      }
      assert ShiftValues(values, deleted) == head + [e];
    }
  }

  lemma {:induction false} EntrySource(values: seq<GroupMs>, deleted: int, i: nat)
    requires i < |ShiftValues(values, deleted)|
    ensures exists j :: 0 <= j < |values| && ShiftGroup(values[j].id, deleted) == ShiftValues(values, deleted)[i].id
    decreases |values|
  {
    var n := |values| - 1;
    var head := ShiftValues(values[..n], deleted);
    if i < |head| {
      EntrySource(values[..n], deleted, i);
      var j :| 0 <= j < n && ShiftGroup(values[..n][j].id, deleted) == head[i].id;
      assert values[j] == values[..n][j];
    } else {
      assert ShiftGroup(values[n].id, deleted) == ShiftValues(values, deleted)[i].id;
    }
  }

  lemma {:induction false} LookupMember(values: seq<GroupMs>, e: GroupMs)
    requires Distinct(IdsOf(values)) && e in values
    ensures ExplicitMs(values, e.id) == e.ms
  {
    var k :| 0 <= k < |values| && values[k] == e;
    forall i, j | 0 <= i < j < |values|
      ensures values[i].id != values[j].id
    {
      assert IdsOf(values)[i] != IdsOf(values)[j];
    }
    ExplicitMsOfDistinct(values, k);
  }

  /** Sorting entries with distinct ids changes no group's value. */
  lemma {:induction false} SortedEntries(values: seq<GroupMs>)
    requires Distinct(IdsOf(values))
    ensures Distinct(IdsOf(SortBy(values, EntryId)))
    ensures |SortBy(values, EntryId)| == |values| && forall e :: e in SortBy(values, EntryId) <==> e in values
  {
    var sorted := SortBy(values, EntryId);
    SortByProperties(values, EntryId);
    forall g
      ensures g in IdsOf(values) <==> g in IdsOf(sorted)
    {
      if g in IdsOf(values) {
        var k :| 0 <= k < |values| && IdsOf(values)[k] == g;
        assert values[k] in sorted;
        var j :| 0 <= j < |sorted| && sorted[j] == values[k];
        assert IdsOf(sorted)[j] == g;
      }
      if g in IdsOf(sorted) {
        var k :| 0 <= k < |sorted| && IdsOf(sorted)[k] == g;
        assert sorted[k] in values;
        var j :| 0 <= j < |values| && values[j] == sorted[k];
        assert IdsOf(values)[j] == g;
      }
    }
    DistinctCount(IdsOf(values), IdsOf(sorted));
  }

  // ---- blocks ----------------------------------------------------------------------

  /** Every group ends up on a group id that some value ends up on too. */
  predicate Covered(values: seq<GroupMs>, ids: seq<int>, deleted: int) {
    forall g :: g in ids ==> exists i :: 0 <= i < |values| && ShiftGroup(values[i].id, deleted) == ShiftGroup(g, deleted)
  }

  /** The condition under which a renumbered action validates again; only explicit containers can miss it. */
  predicate Revalidates(a: Action, deleted: int) {
    a.OffsetGroup? && a.block.ExplicitBlock? && a.target.Groups? ==> Covered(a.block.values, a.target.ids, deleted)
  }

  lemma {:induction false} ShiftedValuesInside(values: seq<GroupMs>, ids: seq<int>, deleted: int)
    requires forall i :: 0 <= i < |values| ==> values[i].id in ids
    ensures forall h :: h in IdsOf(ShiftValues(values, deleted)) ==> h in Dedup(ShiftIds(ids, deleted))
  {
    ShiftedValueIds(values, deleted);
    DedupMembers(ShiftIds(ids, deleted));
    DedupMembers(ShiftIds(IdsOf(values), deleted));
    ShiftIdsMembers(ids, deleted);
    ShiftIdsMembers(IdsOf(values), deleted);
    forall h | h in IdsOf(ShiftValues(values, deleted))
      ensures h in Dedup(ShiftIds(ids, deleted))
    {
      var g :| g in IdsOf(values) && ShiftGroup(g, deleted) == h;
      var k :| 0 <= k < |values| && IdsOf(values)[k] == g;
      assert values[k].id in ids;
    }
  }

  lemma {:induction false} ImageMembers(values: seq<GroupMs>, deleted: int, h: int)
    ensures h in Members(ShiftIds(IdsOf(values), deleted))
            <==> exists i :: 0 <= i < |values| && ShiftGroup(values[i].id, deleted) == h
  {
    var s := ShiftIds(IdsOf(values), deleted);
    if h in Members(s) {
      var i :| 0 <= i < |s| && s[i] == h;
      assert ShiftGroup(values[i].id, deleted) == h;
    }
    if i :| 0 <= i < |values| && ShiftGroup(values[i].id, deleted) == h {
      assert s[i] == h;
    }
  }

  lemma {:induction false} ImageInside(values: seq<GroupMs>, ids: seq<int>, deleted: int)
    requires forall i :: 0 <= i < |values| ==> values[i].id in ids
    ensures Members(ShiftIds(IdsOf(values), deleted)) <= Members(ShiftIds(ids, deleted))
  {
    ShiftIdsMembers(ids, deleted);
    forall h | h in Members(ShiftIds(IdsOf(values), deleted))
      ensures h in Members(ShiftIds(ids, deleted))
    {
      ImageMembers(values, deleted, h);
      var i :| 0 <= i < |values| && ShiftGroup(values[i].id, deleted) == h;
      assert values[i].id in ids;
    }
  }

  lemma {:induction false} CoveredIffSameImage(values: seq<GroupMs>, ids: seq<int>, deleted: int)
    ensures Covered(values, ids, deleted) <==> Members(ShiftIds(ids, deleted)) <= Members(ShiftIds(IdsOf(values), deleted))
  {
    var have, want := Members(ShiftIds(IdsOf(values), deleted)), Members(ShiftIds(ids, deleted));
    ShiftIdsMembers(ids, deleted);
    if Covered(values, ids, deleted) {
      forall h | h in want
        ensures h in have
      {
        var g :| g in ids && ShiftGroup(g, deleted) == h;
        ImageMembers(values, deleted, h);
      }
    }
    if want <= have {
      forall g | g in ids
        ensures exists i :: 0 <= i < |values| && ShiftGroup(values[i].id, deleted) == ShiftGroup(g, deleted)
      {
        assert ShiftGroup(g, deleted) in want;
        ImageMembers(values, deleted, ShiftGroup(g, deleted));
      }
    }
  }

  /** The two lists keep the same length exactly when every group shares its new id with a value. */
  lemma {:induction false} LengthsAgree(values: seq<GroupMs>, ids: seq<int>, deleted: int)
    requires forall i :: 0 <= i < |values| ==> values[i].id in ids
    ensures |ShiftValues(values, deleted)| == |Dedup(ShiftIds(ids, deleted))| <==> Covered(values, ids, deleted)
  {
    ShiftedLength(values, deleted);
    DedupSize(ShiftIds(ids, deleted));
    CoveredIffSameImage(values, ids, deleted);
    ImageInside(values, ids, deleted);
    SameSize(Members(ShiftIds(IdsOf(values), deleted)), Members(ShiftIds(ids, deleted)));
  }

  lemma {:induction false} ShiftedLength(values: seq<GroupMs>, deleted: int)
    ensures |ShiftValues(values, deleted)| == |Members(ShiftIds(IdsOf(values), deleted))|
  {
    ShiftedValueIds(values, deleted);
    assert |ShiftValues(values, deleted)| == |IdsOf(ShiftValues(values, deleted))|;
    DedupSize(ShiftIds(IdsOf(values), deleted));
  }

  lemma {:induction false} SameSize(a: set<int>, b: set<int>)
    requires a <= b
    ensures |a| == |b| <==> b <= a
  {
    var extra := b - a;
    assert b == a + extra && a !! extra;
    assert |b| == |a| + |extra|;
    if extra == {} {
      assert b <= a;
    }
    if b <= a {
      assert a == b;
    }
  }

  lemma {:induction false} SmallerSubset(a: set<int>, b: set<int>, x: int)
    requires a <= b && x in b && x !in a
    ensures |a| < |b|
  {
    assert a <= b - {x};
    SubsetSize(a, b - {x});
  }

  lemma {:induction false} SubsetSize(a: set<int>, b: set<int>)
    requires a <= b
    ensures |a| <= |b|
  {
    assert b == a + (b - a);
  }

  lemma {:induction false} ShiftedEntriesFit(values: seq<GroupMs>, target: Target, deleted: int)
    requires CanonicalTarget(target) && CanonicalBlock(ExplicitBlock(values), target) && 0 <= deleted
    ensures var shifted, ids := ShiftValues(values, deleted), SettleTarget(ShiftTarget(target, deleted)).ids;
            && |ids| == |Dedup(ShiftIds(target.ids, deleted))|
            && (forall i :: 0 <= i < |shifted| ==> shifted[i].id in ids && 0 <= shifted[i].ms <= OFFSET_MS_MAX)
            && forall g :: g in ids ==> GroupId(g)
  {
    var shifted, ids := ShiftValues(values, deleted), SettleTarget(ShiftTarget(target, deleted)).ids;
    ShiftedTargetIsImage(target.ids, deleted);
    LooseTargetReloads(ShiftTarget(target, deleted));
    ShiftedValuesInside(values, target.ids, deleted);
    ShiftedValueRange(values, deleted);
    forall i | 0 <= i < |shifted|
      ensures shifted[i].id in ids && 0 <= shifted[i].ms <= OFFSET_MS_MAX
    {
      assert shifted[i] in shifted && IdsOf(shifted)[i] in IdsOf(shifted);
    }
    forall g | g in ids
      ensures GroupId(g)
    {
      assert g in ShiftTarget(target, deleted).ids;
    }
  }

  lemma {:induction false} ShiftedBlockReloads(values: seq<GroupMs>, target: Target, deleted: int)
    requires CanonicalTarget(target) && CanonicalBlock(ExplicitBlock(values), target) && 0 <= deleted
    ensures var b, t := ExplicitBlock(ShiftValues(values, deleted)), SettleTarget(ShiftTarget(target, deleted));
            CanonBlock(EncodeBlock(b), t)
            == if Covered(values, target.ids, deleted) then Ok(SettleBlock(b)) else Err(ValueError)
  {
    var shifted, t := ShiftValues(values, deleted), SettleTarget(ShiftTarget(target, deleted));
    ShiftedEntriesFit(values, target, deleted);
    LengthsAgree(values, target.ids, deleted);
    FittingBlockReloads(shifted, t);
  }

  /** Entries that fit a target make a block of it exactly when there are as many as groups. */
  lemma {:induction false} FittingBlockReloads(values: seq<GroupMs>, t: Target)
    requires t.Groups? && forall g :: g in t.ids ==> GroupId(g)
    requires forall i :: 0 <= i < |values| ==> values[i].id in t.ids && 0 <= values[i].ms <= OFFSET_MS_MAX
    ensures CanonBlock(EncodeBlock(ExplicitBlock(values)), t)
         == if |values| == |t.ids| then Ok(SettleBlock(ExplicitBlock(values))) else Err(ValueError)
  {
    CanonEntriesOfEncoded(values, t.ids);
    ExplicitBlockJson(Map(EntryJson, values), t);
  }

  lemma {:induction false} ExplicitBlockJson(raw: seq<Json>, t: Target)
    requires t.Groups?
    ensures CanonBlock(JObj(map["mode" := JStr("explicit"), "values" := JArr(raw)]), t)
         == if |raw| != |t.ids| then Err(ValueError)
            else
              var entries := CanonEntries(raw, t.ids);
              if entries.Err? then Err(entries.error) else Ok(ExplicitBlock(SortBy(entries.value, EntryId)))
  {
  }

  // ---- effects and whole actions -------------------------------------------------------

  lemma {:induction false} ShiftedEffectReloads(e: Effect, deleted: int)
    requires CanonicalEffect(e) && 0 <= deleted
    ensures var s := ShiftEffect(e, deleted);
            && EncodeEffect(s).JObj? && EffectKindOf(Get(EncodeEffect(s).m, "kind")) == Some(e.kind)
            && "target" in EncodeEffect(s).m && EncodeEffect(s).m["target"] == EncodeTarget(s.target)
            && CanonEffect(EncodeEffect(s).m, e.kind) == Ok(SettleEffect(s))
  {
    ShiftedTarget(e.target, deleted);
    LooseTargetReloads(ShiftTarget(e.target, deleted));
    CanonFlagsOfEncoded(e.flags);
  }

  /** A child stays inside its container. */
  lemma {:induction false} ShiftedChildReloads(e: Effect, parent: Target, deleted: int)
    requires CanonicalChild(e, parent) && CanonicalTarget(parent) && 0 <= deleted
    ensures CanonChild(EncodeEffect(ShiftEffect(e, deleted)), SettleTarget(ShiftTarget(parent, deleted)))
         == Ok(SettleEffect(ShiftEffect(e, deleted)))
  {
    ShiftedEffectReloads(e, deleted);
    ShiftedTarget(parent, deleted);
    LooseTargetReloads(ShiftTarget(parent, deleted));
    if e.target.Groups? && parent.Groups? {
      ShiftedTargetIsImage(e.target.ids, deleted);
      ShiftedTargetIsImage(parent.ids, deleted);
      LooseTargetReloads(ShiftTarget(e.target, deleted));
      forall h | h in SettleTarget(ShiftTarget(e.target, deleted)).ids
        ensures h in SettleTarget(ShiftTarget(parent, deleted)).ids
      {
        var g :| g in e.target.ids && ShiftGroup(g, deleted) == h;
        assert g in parent.ids;
      }
    }
  }

  lemma {:induction false} ShiftedChildrenReload(es: seq<Effect>, parent: Target, deleted: int)
    requires CanonicalTarget(parent) && 0 <= deleted
    requires forall i :: 0 <= i < |es| ==> CanonicalChild(es[i], parent)
    ensures CanonChildren(Map(EncodeEffect, ShiftEffects(es, deleted)), SettleTarget(ShiftTarget(parent, deleted)))
         == Ok(Map(SettleEffect, ShiftEffects(es, deleted)))
  {
    if es != [] {
      var shifted := ShiftEffects(es, deleted);
      var raw := Map(EncodeEffect, shifted);
      assert shifted[1..] == ShiftEffects(es[1..], deleted);
      assert raw[1..] == Map(EncodeEffect, shifted[1..]);
      ShiftedChildrenReload(es[1..], parent, deleted);
      ShiftedChildReloads(es[0], parent, deleted);
      assert Map(SettleEffect, shifted) == [SettleEffect(shifted[0])] + Map(SettleEffect, shifted[1..]);
    }
  }

  /** A renumbered canonical action validates again exactly under `Revalidates`, and what is stored is
      the renumbered action with its lists sorted. */
  lemma {:induction false} RenumberedReloads(a: Action, deleted: int)
    requires Canonical(a) && 0 <= deleted
    ensures CanonAction(EncodeAction(Renumber(a, deleted)))
         == if Revalidates(a, deleted) then Ok(Settle(Renumber(a, deleted))) else Err(ValueError)
  {
    match a
    case Act(e) => ShiftedActReloads(e, deleted);
    case Sync => CanonicalIffReloads(a);
    case Delay(_) => CanonicalIffReloads(a);
    case OffsetGroup(_, _, _) => ShiftedContainerReloads(a, deleted);
  }

  /** Some action of the list misses the condition. */
  predicate SomeUncovered(actions: seq<Action>, deleted: int) {
    exists k :: 0 <= k < |actions| && !Revalidates(actions[k], deleted)
  }

  lemma {:induction false} UncoveredCons(actions: seq<Action>, deleted: int)
    requires actions != []
    ensures SomeUncovered(actions, deleted) <==> !Revalidates(actions[0], deleted) || SomeUncovered(actions[1..], deleted)
  {
    if SomeUncovered(actions[1..], deleted) {
      var k :| 0 <= k < |actions[1..]| && !Revalidates(actions[1..][k], deleted);
      assert actions[k + 1] == actions[1..][k];
    }
    if k :| 1 <= k < |actions| && !Revalidates(actions[k], deleted) {
      assert actions[1..][k - 1] == actions[k];
    }
  }

  lemma {:induction false} ListCons(raw: seq<Json>)
    requires raw != []
    ensures var head, tail := CanonAction(raw[0]), CanonList(raw[1..]);
            CanonList(raw) == if head.Err? then Err(head.error) else if tail.Err? then Err(tail.error) else Ok([head.value] + tail.value)
  {
  }

  /** A renumbered list validates again exactly when every action of it does. */
  lemma {:induction false} RenumberedListReloads(actions: seq<Action>, deleted: int)
    requires CanonicalList(actions) && 0 <= deleted
    ensures CanonList(Map(EncodeAction, RenumberAll(actions, deleted)))
         == if SomeUncovered(actions, deleted) then Err(ValueError) else Ok(Map(Settle, RenumberAll(actions, deleted)))
  {
    if actions != [] {
      var all, raw := RenumberAll(actions, deleted), Map(EncodeAction, RenumberAll(actions, deleted));
      assert all[1..] == RenumberAll(actions[1..], deleted) && raw[1..] == Map(EncodeAction, all[1..]);
      RenumberedReloads(actions[0], deleted);
      RenumberedListReloads(actions[1..], deleted);
      UncoveredCons(actions, deleted);
      ListCons(raw);
      assert Map(Settle, all) == [Settle(all[0])] + Map(Settle, all[1..]);
    }
  }

  lemma {:induction false} ShiftedActReloads(e: Effect, deleted: int)
    requires CanonicalEffect(e) && 0 <= deleted
    ensures CanonAction(EncodeEffect(ShiftEffect(e, deleted))) == Ok(Act(SettleEffect(ShiftEffect(e, deleted))))
  {
    var s := ShiftEffect(e, deleted);
    ShiftedEffectReloads(e, deleted);
    EncodedEffectFields(s);
    TargetIsNotLegacy(s.target);
    PlainEffect(EncodeEffect(s).m, SettleEffect(s));
  }

  lemma {:induction false} ShiftedContainerBlock(block: OffsetBlock, target: Target, deleted: int)
    requires CanonicalTarget(target) && CanonicalBlock(block, target) && 0 <= deleted
    ensures CanonBlock(EncodeBlock(ShiftBlock(block, deleted)), SettleTarget(ShiftTarget(target, deleted)))
         == if block.ExplicitBlock? && !Covered(block.values, target.ids, deleted) then Err(ValueError)
            else Ok(SettleBlock(ShiftBlock(block, deleted)))
  {
    match block
    case NoneBlock => CanonBlockOfEncoded(block, Broadcast);
    case FormulaBlock(_) => CanonBlockOfEncoded(block, Broadcast);
    case ExplicitBlock(values) => ShiftedBlockReloads(values, target, deleted);
  }

  lemma {:induction false} ShiftedContainerReloads(a: Action, deleted: int)
    requires a.OffsetGroup? && Canonical(a) && 0 <= deleted
    ensures CanonAction(EncodeAction(Renumber(a, deleted)))
         == if Revalidates(a, deleted) then Ok(Settle(Renumber(a, deleted))) else Err(ValueError)
  {
    var b := Renumber(a, deleted);
    ShiftedTarget(a.target, deleted);
    LooseTargetReloads(b.target);
    if a.target.Groups? {
      ShiftedTargetIsImage(a.target.ids, deleted);
    }
    ShiftedChildrenReload(a.children, a.target, deleted);
    ShiftedContainerBlock(a.block, a.target, deleted);
    ContainerFields(EncodeTarget(b.target), EncodeBlock(b.block), Map(EncodeEffect, b.children));
    ValidatedContainer(EncodeTarget(b.target), EncodeBlock(b.block), Map(EncodeEffect, b.children), SettleTarget(b.target));
  }

  /** The validator on a well-formed container object, in terms of its parts. */
  lemma {:induction false} ValidatedContainer(t: Json, offset: Json, kids: seq<Json>, target: Target)
    requires t.JObj? && Get(t.m, "kind") != JStr("groups_offset")
    requires CanonTarget(t) == Ok(target) && !target.Device?
    requires target.Groups? ==> |target.ids| <= MAX_GROUPS_OFFSET_ENTRIES
    requires |kids| <= MAX_OFFSET_GROUP_CHILDREN
    ensures var block, children := CanonBlock(offset, target), CanonChildren(kids, target);
            CanonAction(JObj(ContainerJson(t, offset, kids)))
            == if block.Err? then Err(block.error)
               else if children.Err? then Err(children.error)
               else Ok(OffsetGroup(target, block.value, children.value))
  {
    ContainerFields(t, offset, kids);
  }

  // ---- what the stored action says ---------------------------------------------------------

  /** Distinct value ids are enough. */
  lemma {:induction false} DistinctIdsRevalidate(a: Action, deleted: int)
    requires Canonical(a)
    requires a.OffsetGroup? && a.block.ExplicitBlock? ==> Distinct(IdsOf(a.block.values))
    ensures Revalidates(a, deleted)
  {
    if a.OffsetGroup? && a.block.ExplicitBlock? {
      var values, ids := a.block.values, a.target.ids;
      CoverEveryGroup(values, ids);
      forall g | g in ids
        ensures exists i :: 0 <= i < |values| && ShiftGroup(values[i].id, deleted) == ShiftGroup(g, deleted)
      {
        var k :| 0 <= k < |values| && values[k].id == g;
        assert ShiftGroup(values[k].id, deleted) == ShiftGroup(g, deleted);
      }
    }
  }

  lemma {:induction false} CoverEveryGroup(values: seq<GroupMs>, ids: seq<int>)
    requires Distinct(IdsOf(values)) && |values| == |ids|
    requires forall i :: 0 <= i < |values| ==> values[i].id in ids
    ensures forall g :: g in ids ==> exists k :: 0 <= k < |values| && values[k].id == g
  {
    var have := IdsOf(values);
    DistinctSize(have);
    SizeDistinct(ids);
    forall g | g in Members(have)
      ensures g in Members(ids)
    {
      var k :| 0 <= k < |have| && have[k] == g;
      assert values[k].id in ids;
    }
    forall g | g in ids
      ensures exists k :: 0 <= k < |values| && values[k].id == g
    {
      if g !in have {
        SmallerSubset(Members(have), Members(ids), g);
        assert false;
      }
      var k :| 0 <= k < |have| && have[k] == g;
      assert values[k].id == g;
    }
  }

  /** Which old group supplies the offset of the group that `g` becomes: the deleted group joins group 0,
      and group 0 comes first in id order. */
  function Supplier(ids: seq<int>, g: int, deleted: int): int {
    if ShiftGroup(g, deleted) == 0 && 0 in ids then 0 else g
  }

  lemma {:induction false} SettledLookup(values: seq<GroupMs>, deleted: int, k: nat)
    requires k < |values| && Distinct(IdsOf(values))
    requires forall j :: 0 <= j < k ==> ShiftGroup(values[j].id, deleted) != ShiftGroup(values[k].id, deleted)
    ensures ExplicitMs(SortBy(ShiftValues(values, deleted), EntryId), ShiftGroup(values[k].id, deleted))
         == ExplicitMs(values, values[k].id)
  {
    var shifted := ShiftValues(values, deleted);
    FirstEntryWins(values, deleted, k);
    LookupMember(values, values[k]);
    ShiftedValueIds(values, deleted);
    DedupDistinct(ShiftIds(IdsOf(values), deleted));
    SortedEntries(shifted);
    LookupMember(SortBy(shifted, EntryId), GroupMs(ShiftGroup(values[k].id, deleted), values[k].ms));
  }

  /** No entry before the supplier's shifts to the same id. */
  lemma {:induction false} SupplierIsFirst(values: seq<GroupMs>, ids: seq<int>, g: int, deleted: int, k: nat)
    requires CanonicalIds(ids) && 0 <= deleted && g in ids
    requires CanonicalBlock(ExplicitBlock(values), Groups(ids)) && Distinct(IdsOf(values))
    requires k < |values| && values[k].id == Supplier(ids, g, deleted)
    ensures forall j :: 0 <= j < k ==> ShiftGroup(values[j].id, deleted) != ShiftGroup(g, deleted)
  {
    forall j | 0 <= j < k
      ensures ShiftGroup(values[j].id, deleted) != ShiftGroup(g, deleted)
    {
      assert EntryId(values[j]) <= EntryId(values[k]) && IdsOf(values)[j] != IdsOf(values)[k];
      assert values[j].id in ids;
      var i :| 0 <= i < |ids| && ids[i] == values[j].id;
      assert GroupId(ids[i]);
    }
  }

  /** The explicit offset of every surviving group moves with it; on a collision the first entry in id
      order wins. */
  lemma {:induction false} OffsetsMoveWithGroups(a: Action, deleted: int, g: int)
    requires Canonical(a) && 0 <= deleted
    requires a.OffsetGroup? && a.block.ExplicitBlock? && Distinct(IdsOf(a.block.values))
    requires g in a.target.ids
    ensures WantedMs(Settle(Renumber(a, deleted)).block, ShiftGroup(g, deleted))
         == WantedMs(a.block, Supplier(a.target.ids, g, deleted))
  {
    var values, ids := a.block.values, a.target.ids;
    var w := Supplier(ids, g, deleted);
    CoverEveryGroup(values, ids);
    var k :| 0 <= k < |values| && values[k].id == w;
    assert ShiftGroup(w, deleted) == ShiftGroup(g, deleted);
    SupplierIsFirst(values, ids, g, deleted, k);
    SettledLookup(values, deleted, k);
  }

  /** Duplicate ids pass validation but can fail after a renumbering that does not even touch them. */
  lemma {:induction false} DuplicateIdsFailRevalidation()
    ensures var a := OffsetGroup(Groups([1, 2]), ExplicitBlock([GroupMs(1, 5), GroupMs(1, 6)]), []);
            Canonical(a) && CanonAction(EncodeAction(Renumber(a, 9))) == Err(ValueError)
  {
    var a := OffsetGroup(Groups([1, 2]), ExplicitBlock([GroupMs(1, 5), GroupMs(1, 6)]), []);
    assert 2 in a.target.ids && ShiftGroup(2, 9) == 2;
    assert !Revalidates(a, 9);
    RenumberedReloads(a, 9);
  }
}
