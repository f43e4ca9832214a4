/** The two rewrites of stored actions: collapsing "every known group" to broadcast at save time, and
    renumbering group references after a group was deleted. */
module SceneEdits {
  import opened Basics
  import opened JsonValues
  import opened Offsets
  import opened SceneActions
  import opened Canonicalisation

  // ---- collapse ------------------------------------------------------------------

  function CollapseTarget(t: Target, known: set<int>): Target {
    if t.Groups? && t.ids != [] && known != {} && known <= Members(t.ids) then Broadcast else t
  }

  function CollapseEffect(e: Effect, known: set<int>): Effect {
    e.(target := CollapseTarget(e.target, known))
  }

  function CollapseEffects(es: seq<Effect>, known: set<int>): (r: seq<Effect>)
    ensures |r| == |es| && forall i :: 0 <= i < |es| ==> r[i] == CollapseEffect(es[i], known)
  {
    if es == [] then [] else [CollapseEffect(es[0], known)] + CollapseEffects(es[1..], known)
  }

  function CollapseAction(a: Action, known: set<int>): Action {
    match a
    case Act(e) => Act(CollapseEffect(e, known))
    case Sync => a
    case Delay(_) => a
    case OffsetGroup(target, block, children) =>
      OffsetGroup(CollapseTarget(target, known), block, CollapseEffects(children, known))
  }

  function CollapseActions(actions: seq<Action>, known: set<int>): (r: seq<Action>)
    ensures |r| == |actions| && forall i :: 0 <= i < |actions| ==> r[i] == CollapseAction(actions[i], known)
  {
    if actions == [] then [] else [CollapseAction(actions[0], known)] + CollapseActions(actions[1..], known)
  }

  method CollapseEffectStep(e: Effect, known: set<int>) returns (r: Effect, changed: bool)
    ensures r == CollapseEffect(e, known) && (changed <==> r != e)
  {
    var t := CollapseTarget(e.target, known);
    changed := t != e.target;
    r := if changed then e.(target := t) else e;
  }

  method CollapseActionStep(a: Action, known: set<int>) returns (r: Action, changed: bool)
    ensures r == CollapseAction(a, known) && (changed <==> r != a)
  {
    r, changed := a, false;
    match a
    case Act(e) =>
      var ne, c := CollapseEffectStep(e, known);
      if c {
        r, changed := Act(ne), true;
      }
    case Sync =>
    case Delay(_) =>
    case OffsetGroup(target, block, children) =>
      var t := CollapseTarget(target, known);
      if t != target {
        r, changed := r.(target := t), true;
      }
      var kids, kidsChanged := CollapseChildren(children, known);
      if kidsChanged {
        r, changed := r.(children := kids), true;
      }
  }

  method CollapseChildren(children: seq<Effect>, known: set<int>) returns (kids: seq<Effect>, changed: bool)
    ensures kids == CollapseEffects(children, known) && (changed <==> kids != children)
  {
    kids, changed := [], false;
    ghost var spec := CollapseEffects(children, known);
    for i := 0 to |children|
      invariant kids == spec[..i]
      invariant changed <==> kids != children[..i]
    {
      var e, c := CollapseEffectStep(children[i], known);
      if c {
        changed := true;
      }
      NextDiffers(kids, children, spec, i, e);
      kids := kids + [e];
    }
    assert children[..|children|] == children && spec[..|children|] == spec;
  }

  /** Walks the list, remembers whether anything changed, and hands the original list back otherwise. */
  method CollapseToBroadcast(actions: seq<Action>, knownIds: seq<int>) returns (r: seq<Action>)
    ensures r == CollapseActions(actions, Members(knownIds))
  {
    if knownIds == [] {
      NothingKnown(actions);
      return actions;
    }
    var known, list, anyChanged := Members(knownIds), [], false;
    ghost var spec := CollapseActions(actions, known);
    for i := 0 to |actions|
      invariant list == spec[..i]
      invariant anyChanged <==> list != actions[..i]
    {
      var a, changed := CollapseActionStep(actions[i], known);
      if changed {
        anyChanged := true;
      }
      NextDiffers(list, actions, spec, i, a);
      list := list + [a];
    }
    assert actions[..|actions|] == actions && spec[..|actions|] == spec;
    r := if anyChanged then list else actions;
  }

  /** One step of a rewriting walk: the prefix differs from the original if it did before or the entry does. */
  lemma {:induction false} NextDiffers<T>(list: seq<T>, original: seq<T>, spec: seq<T>, i: nat, x: T)
    requires i < |original| == |spec| && list == spec[..i] && spec[i] == x
    ensures list + [x] == spec[..i + 1]
    ensures list + [x] != original[..i + 1] <==> list != original[..i] || x != original[i]
  {
    assert original[..i + 1] == original[..i] + [original[i]];
    assert (list + [x])[..i] == list && (list + [x])[i] == x;
    assert original[..i + 1][..i] == original[..i] && original[..i + 1][i] == original[i];
  }

  lemma NothingKnown(actions: seq<Action>)
    ensures CollapseActions(actions, Members([])) == actions
  {
    assert Members([]) == {};
    forall i | 0 <= i < |actions|
      ensures CollapseAction(actions[i], {}) == actions[i]
    {
      if actions[i].OffsetGroup? {
        assert CollapseEffects(actions[i].children, {}) == actions[i].children;
      }
    }
  }

  /** The one action that saving can spoil: an explicit-mode container that covers every known group. */
  predicate CollapsesExplicit(a: Action, known: set<int>) {
    a.OffsetGroup? && a.block.ExplicitBlock? && CollapseTarget(a.target, known) != a.target
  }

  /** Collapsing keeps a canonical action canonical exactly when it is not an explicit container that
      loses its group list. */
  lemma CollapseKeepsCanonical(a: Action, known: set<int>)
    requires Canonical(a)
    ensures Canonical(CollapseAction(a, known)) <==> !CollapsesExplicit(a, known)
  {
    if a.OffsetGroup? {
      var c := CollapseAction(a, known);
      forall i | 0 <= i < |a.children|
        ensures CanonicalChild(c.children[i], c.target)
      {
        CollapseChild(a.children[i], a.target, known);
      }
    }
  }

  lemma CollapseChild(e: Effect, parent: Target, known: set<int>)
    requires CanonicalChild(e, parent)
    ensures CanonicalChild(CollapseEffect(e, known), CollapseTarget(parent, known))
  {
  }

  // ---- renumbering ------------------------------------------------------------------

  /** The deleted group becomes 0 and the groups above it move down by one. */
  function ShiftGroup(g: int, deleted: int): int {
    if g == deleted then 0 else if g > deleted then g - 1 else g
  }

  function ShiftIds(ids: seq<int>, deleted: int): (r: seq<int>)
    ensures |r| == |ids| && forall i :: 0 <= i < |ids| ==> r[i] == ShiftGroup(ids[i], deleted)
  {
    if ids == [] then [] else [ShiftGroup(ids[0], deleted)] + ShiftIds(ids[1..], deleted)
  }

  function ShiftTarget(t: Target, deleted: int): Target {
    if t.Groups? then Groups(Dedup(ShiftIds(t.ids, deleted))) else t
  }

  /** Shifts the id of every entry and keeps the first entry of each id. */
  function ShiftValues(values: seq<GroupMs>, deleted: int): seq<GroupMs>
    decreases |values|
  {
    if values == [] then []
    else
      var head, last := ShiftValues(values[..|values| - 1], deleted), values[|values| - 1];
      var id := ShiftGroup(last.id, deleted);
      if exists i :: 0 <= i < |head| && head[i].id == id then head else head + [GroupMs(id, last.ms)]
  }

  function ShiftBlock(b: OffsetBlock, deleted: int): OffsetBlock {
    if b.ExplicitBlock? then ExplicitBlock(ShiftValues(b.values, deleted)) else b
  }

  function ShiftEffect(e: Effect, deleted: int): Effect {
    e.(target := ShiftTarget(e.target, deleted))
  }

  function ShiftEffects(es: seq<Effect>, deleted: int): (r: seq<Effect>)
    ensures |r| == |es| && forall i :: 0 <= i < |es| ==> r[i] == ShiftEffect(es[i], deleted)
  {
    if es == [] then [] else [ShiftEffect(es[0], deleted)] + ShiftEffects(es[1..], deleted)
  }

  function Renumber(a: Action, deleted: int): Action {
    match a
    case Act(e) => Act(ShiftEffect(e, deleted))
    case Sync => a
    case Delay(_) => a
    case OffsetGroup(target, block, children) =>
      OffsetGroup(ShiftTarget(target, deleted), ShiftBlock(block, deleted), ShiftEffects(children, deleted))
  }

  function RenumberAll(actions: seq<Action>, deleted: int): (r: seq<Action>)
    ensures |r| == |actions| && forall i :: 0 <= i < |actions| ==> r[i] == Renumber(actions[i], deleted)
  {
    if actions == [] then [] else [Renumber(actions[0], deleted)] + RenumberAll(actions[1..], deleted)
  }

  // The loops. Each returns the rewritten value and whether it differs from its input.

  method ShiftTargetStep(t: Target, deleted: int) returns (r: Target, changed: bool)
    ensures r == ShiftTarget(t, deleted) && (changed <==> r != t)
  {
    if !t.Groups? {
      return t, false;
    }
    var shifted := ShiftIds(t.ids, deleted);
    var seen: set<int>, deduped: seq<int> := {}, [];
    for i := 0 to |shifted|
      invariant deduped == Dedup(shifted[..i])
      invariant forall g :: g in seen <==> g in shifted[..i]
    {
      assert shifted[..i + 1][..i] == shifted[..i];
      assert shifted[..i + 1] == shifted[..i] + [shifted[i]];
      if shifted[i] !in seen {
        seen := seen + {shifted[i]};
        deduped := deduped + [shifted[i]];
      }
    }
    assert shifted[..|shifted|] == shifted;
    changed := deduped != t.ids;
    r := if changed then Groups(deduped) else t;
  }

  method ShiftValuesStep(values: seq<GroupMs>, deleted: int) returns (r: seq<GroupMs>, changed: bool)
    ensures r == ShiftValues(values, deleted) && (changed <==> r != values)
  {
    var seen: set<int> := {};
    r, changed := [], false;
    for i := 0 to |values|
      invariant r == ShiftValues(values[..i], deleted)
      invariant forall g :: g in seen <==> exists k :: 0 <= k < |r| && r[k].id == g
      invariant |r| <= i
      invariant changed <==> r != values[..i]
    {
      assert values[..i + 1][..i] == values[..i];
      assert values[..i + 1] == values[..i] + [values[i]];
      var shifted := ShiftGroup(values[i].id, deleted);
      if shifted != values[i].id {
        changed := true;
      }
      if shifted in seen {
        changed := true;
      } else {
        ghost var before := r;
        seen := seen + {shifted};
        r := r + [GroupMs(shifted, values[i].ms)];
        assert r[..|before|] == before && r[|before|].id == shifted;
        assert r == values[..i + 1] ==> |before| == i && before == values[..i];
      }
    }
    assert values[..|values|] == values;
  }

  method RenumberStep(a: Action, deleted: int) returns (r: Action, changed: bool)
    ensures r == Renumber(a, deleted) && (changed <==> r != a)
  {
    r, changed := a, false;
    match a
    case Act(e) =>
      var t, c := ShiftTargetStep(e.target, deleted);
      if c {
        r, changed := Act(e.(target := t)), true;
      }
    case Sync =>
    case Delay(_) =>
    case OffsetGroup(target, block, children) =>
      var t, targetChanged := ShiftTargetStep(target, deleted);
      var kids, kidsChanged := RenumberChildren(children, deleted);
      var b, blockChanged := block, false;
      if block.ExplicitBlock? {
        var values, c := ShiftValuesStep(block.values, deleted);
        if c {
          b, blockChanged := ExplicitBlock(values), true;
        }
      }
      if targetChanged || kidsChanged || blockChanged {
        r, changed := OffsetGroup(t, b, kids), true;
      }
  }

  method RenumberChildren(children: seq<Effect>, deleted: int) returns (r: seq<Effect>, changed: bool)
    ensures r == ShiftEffects(children, deleted) && (changed <==> r != children)
  {
    ghost var spec := ShiftEffects(children, deleted);
    var kids := [];
    changed := false;
    for i := 0 to |children|
      invariant kids == spec[..i]
      invariant changed <==> kids != children[..i]
    {
      var t, c := ShiftTargetStep(children[i].target, deleted);
      var e := children[i].(target := t);
      if c {
        changed := true;
      }
      NextDiffers(kids, children, spec, i, e);
      kids := kids + [e];
    }
    assert children[..|children|] == children && spec[..|children|] == spec;
    r := if changed then kids else children;
  }

  /** The list walk: the changed flag is set exactly when the content differs. */
  method RenumberList(actions: seq<Action>, deleted: int) returns (r: seq<Action>, changed: bool)
    ensures r == RenumberAll(actions, deleted) && (changed <==> r != actions)
  {
    ghost var spec := RenumberAll(actions, deleted);
    var list := [];
    changed := false;
    for i := 0 to |actions|
      invariant list == spec[..i]
      invariant changed <==> list != actions[..i]
    {
      var a, c := RenumberStep(actions[i], deleted);
      if c {
        changed := true;
      }
      NextDiffers(list, actions, spec, i, a);
      list := list + [a];
    }
    assert actions[..|actions|] == actions && spec[..|actions|] == spec;
    r := if changed then list else actions;
  }
}
