/** What the validator guarantees: everything it accepts is canonical, canonical actions survive a
    write and a reload unchanged, and the older spellings mean what the current ones mean. */
module Canonicalisation {
  import opened Basics
  import opened JsonValues
  import opened Offsets
  import opened SceneActions

  // ---- ids and targets ----------------------------------------------------------

  lemma {:induction false} CanonIdsSound(a: seq<Json>)
    ensures CanonIds(a).Ok? ==>
              && CanonicalIds(CanonIds(a).value)
              && |CanonIds(a).value| == |a|
              && forall g :: g in CanonIds(a).value <==> g in IntsOf(a).value
    ensures CanonIds(a).Err? ==> CanonIds(a).error == ValueError
  {
    var r := CanonIds(a);
    if r.Ok? {
      var ids := IntsOf(a).value;
      IntsLength(a);
      SortIdsAscending(ids);
      forall i | 0 <= i < |r.value|
        ensures GroupId(r.value[i])
      {
        assert r.value[i] in r.value;
        var k :| 0 <= k < |ids| && ids[k] == r.value[i];
      }
    }
  }

  lemma {:induction false} IntsLength(a: seq<Json>)
    ensures IntsOf(a).Some? ==> |IntsOf(a).value| == |a|
  {
    if a != [] {
      IntsLength(a[1..]);
    }
  }

  lemma {:induction false} IntsOfEncoded(ids: seq<int>)
    ensures IntsOf(Map(IntJson, ids)) == Some(ids)
  {
    if ids != [] {
      IntsOfEncoded(ids[1..]);
      assert Map(IntJson, ids)[1..] == Map(IntJson, ids[1..]);
      assert ids == [ids[0]] + ids[1..];
    }
  }

  lemma {:induction false} CanonIdsOfEncoded(ids: seq<int>)
    requires CanonicalIds(ids)
    ensures CanonIds(Map(IntJson, ids)) == Ok(ids)
  {
    IntsOfEncoded(ids);
    SortIdsIdentity(ids);
  }

  lemma {:induction false} CanonTargetSound(raw: Json)
    ensures CanonTarget(raw).Ok? ==> CanonicalTarget(CanonTarget(raw).value)
    ensures CanonTarget(raw).Err? ==> CanonTarget(raw).error == ValueError
  {
    var t := MigrateTarget(raw);
    if t.JObj? && Get(t.m, "value").JArr? {
      CanonIdsSound(Get(t.m, "value").a);
    }
  }

  lemma {:induction false} CanonTargetOfEncoded(t: Target)
    requires CanonicalTarget(t)
    ensures CanonTarget(EncodeTarget(t)) == Ok(t)
  {
    match t
    case Broadcast =>
    case Groups(ids) => CanonIdsOfEncoded(ids);
    case Device(mac) => MacIsFixed(mac);
  }

  // ---- offset blocks --------------------------------------------------------------

  lemma {:induction false} CanonEntriesSound(raw: seq<Json>, groups: seq<int>)
    ensures var r := CanonEntries(raw, groups);
            && (r.Err? ==> r.error == ValueError)
            && (r.Ok? ==>
                  && |r.value| == |raw|
                  && forall e :: e in r.value ==> e.id in groups && 0 <= e.ms <= OFFSET_MS_MAX)
  {
    if raw != [] {
      CanonEntriesSound(raw[1..], groups);
    }
  }

  lemma {:induction false} CanonEntryOfEncoded(e: GroupMs, groups: seq<int>)
    requires e.id in groups && GroupId(e.id) && 0 <= e.ms <= OFFSET_MS_MAX
    ensures CanonEntry(EntryJson(e), groups) == Ok(e)
  {
  }

  lemma {:induction false} EntriesCons(raw: seq<Json>, groups: seq<int>, head: GroupMs, tail: seq<GroupMs>)
    requires raw != [] && CanonEntry(raw[0], groups) == Ok(head) && CanonEntries(raw[1..], groups) == Ok(tail)
    ensures CanonEntries(raw, groups) == Ok([head] + tail)
  {
  }

  lemma {:induction false} EntriesPointwise(raw: seq<Json>, groups: seq<int>, values: seq<GroupMs>)
    requires |raw| == |values| && forall i :: 0 <= i < |raw| ==> CanonEntry(raw[i], groups) == Ok(values[i])
    ensures CanonEntries(raw, groups) == Ok(values)
  {
    if raw != [] {
      EntriesPointwise(raw[1..], groups, values[1..]);
      EntriesCons(raw, groups, values[0], values[1..]);
      assert values == [values[0]] + values[1..];
    }
  }

  lemma {:induction false} CanonEntriesOfEncoded(values: seq<GroupMs>, groups: seq<int>)
    requires forall i :: 0 <= i < |values| ==> values[i].id in groups && 0 <= values[i].ms <= OFFSET_MS_MAX
    requires forall g :: g in groups ==> GroupId(g)
    ensures CanonEntries(Map(EntryJson, values), groups) == Ok(values)
  {
    forall i | 0 <= i < |values|
      ensures CanonEntry(EntryJson(values[i]), groups) == Ok(values[i])
    {
      CanonEntryOfEncoded(values[i], groups);
    }
    EntriesPointwise(Map(EntryJson, values), groups, values);
  }

  lemma {:induction false} CanonBlockSound(raw: Json, target: Target)
    ensures CanonBlock(raw, target).Ok? ==> CanonicalBlock(CanonBlock(raw, target).value, target)
    ensures CanonBlock(raw, target).Err? ==> CanonBlock(raw, target).error == ValueError
  {
    if raw.JObj? && Get(raw.m, "mode") == JStr("explicit") && Get(raw.m, "values").JArr? && target.Groups? {
      var values := Get(raw.m, "values").a;
      CanonEntriesSound(values, target.ids);
      var r := CanonEntries(values, target.ids);
      if r.Ok? {
        SortByProperties(r.value, EntryId);
        var sorted := SortBy(r.value, EntryId);
        forall i | 0 <= i < |sorted|
          ensures sorted[i].id in target.ids && 0 <= sorted[i].ms <= OFFSET_MS_MAX
        {
          assert sorted[i] in sorted;
        }
      }
    }
  }

  lemma {:induction false} CanonFormulaOfEncoded(f: Formula, target: Target)
    requires ValidFormula(f)
    ensures CanonBlock(EncodeBlock(FormulaBlock(f)), target) == Ok(FormulaBlock(f))
  {
    var m := EncodeBlock(FormulaBlock(f)).m;
    assert GetOr(m, "base_ms", JInt(0)) == JInt(f.base) && GetOr(m, "step_ms", JInt(0)) == JInt(f.step);
  }

  lemma {:induction false} CanonExplicitOfEncoded(values: seq<GroupMs>, target: Target)
    requires CanonicalTarget(target) && CanonicalBlock(ExplicitBlock(values), target)
    ensures CanonBlock(EncodeBlock(ExplicitBlock(values)), target) == Ok(ExplicitBlock(values))
  {
    var m := EncodeBlock(ExplicitBlock(values)).m;
    assert Get(m, "mode") == JStr("explicit") && Get(m, "values") == JArr(Map(EntryJson, values));
    CanonEntriesOfEncoded(values, target.ids);
    SortByProperties(values, EntryId);
  }

  lemma {:induction false} CanonBlockOfEncoded(b: OffsetBlock, target: Target)
    requires CanonicalTarget(target) && CanonicalBlock(b, target)
    ensures CanonBlock(EncodeBlock(b), target) == Ok(b)
  {
    match b
    case NoneBlock =>
    case ExplicitBlock(values) => CanonExplicitOfEncoded(values, target);
    case FormulaBlock(f) => CanonFormulaOfEncoded(f, target);
  }

  // ---- effects ------------------------------------------------------------------

  lemma {:induction false} CanonFlagsOfEncoded(flags: map<string, bool>)
    requires forall k :: k in flags ==> k in FLAG_KEYS
    ensures CanonFlags(FlagsJson(flags)) == Ok(flags)
  {
    var j := FlagsJson(flags);
    if flags == map[] {
      assert j.m == map[];
    } else {
      var k :| k in flags;
      assert k in j.m;
      assert CanonFlags(j).value == flags;
    }
  }

  lemma {:induction false} CanonEffectSound(m: Object, kind: EffectKind)
    ensures var r := CanonEffect(m, kind);
            && (r.Ok? ==> CanonicalEffect(r.value) && r.value.kind == kind)
            && (r.Err? ==> r.error == ValueError)
  {
    if "target" in m {
      CanonTargetSound(m["target"]);
    }
  }

  lemma {:induction false} EncodedEffectFields(e: Effect)
    ensures EncodeEffect(e).JObj?
    ensures var m := EncodeEffect(e).m;
            && "target" in m && m["target"] == EncodeTarget(e.target) && Get(m, "kind") == KindJson(e.kind)
            && Get(m, "params") == JObj(e.params)
            && Get(m, "flags_override") == (if e.kind.Startblock? then JNull else FlagsJson(e.flags))
  {
  }

  lemma {:induction false} CanonEffectOfEncoded(e: Effect)
    requires CanonicalEffect(e)
    ensures EncodeEffect(e).JObj? && EffectKindOf(Get(EncodeEffect(e).m, "kind")) == Some(e.kind)
    ensures CanonEffect(EncodeEffect(e).m, e.kind) == Ok(e)
  {
    EncodedEffectFields(e);
    EffectOfFields(EncodeEffect(e).m, e);
  }

  lemma {:induction false} EffectOfFields(m: Object, e: Effect)
    requires CanonicalEffect(e) && "target" in m && m["target"] == EncodeTarget(e.target)
    requires Get(m, "params") == JObj(e.params)
    requires Get(m, "flags_override") == if e.kind.Startblock? then JNull else FlagsJson(e.flags)
    ensures CanonEffect(m, e.kind) == Ok(e)
  {
    CanonTargetOfEncoded(e.target);
    CanonFlagsOfEncoded(e.flags);
  }

  lemma {:induction false} CanonChildrenSound(raw: seq<Json>, parent: Target)
    ensures var r := CanonChildren(raw, parent);
            && (r.Err? ==> r.error == ValueError)
            && (r.Ok? ==> |r.value| == |raw| && forall i :: 0 <= i < |raw| ==> CanonicalChild(r.value[i], parent))
  {
    if raw != [] {
      CanonChildrenSound(raw[1..], parent);
      if raw[0].JObj? && EffectKindOf(Get(raw[0].m, "kind")).Some? {
        CanonEffectSound(raw[0].m, EffectKindOf(Get(raw[0].m, "kind")).value);
      }
    }
  }

  lemma {:induction false} CanonChildrenOfEncoded(children: seq<Effect>, parent: Target)
    requires forall i :: 0 <= i < |children| ==> CanonicalChild(children[i], parent)
    ensures CanonChildren(Map(EncodeEffect, children), parent) == Ok(children)
  {
    forall i | 0 <= i < |children|
      ensures CanonChild(EncodeEffect(children[i]), parent) == Ok(children[i])
    {
      CanonChildOfEncoded(children[i], parent);
    }
    ChildrenPointwise(Map(EncodeEffect, children), parent, children);
  }

  lemma {:induction false} CanonChildOfEncoded(e: Effect, parent: Target)
    requires CanonicalChild(e, parent)
    ensures CanonChild(EncodeEffect(e), parent) == Ok(e)
  {
    CanonEffectOfEncoded(e);
  }

  lemma {:induction false} ChildrenPointwise(raw: seq<Json>, parent: Target, children: seq<Effect>)
    requires |raw| == |children| && forall i :: 0 <= i < |raw| ==> CanonChild(raw[i], parent) == Ok(children[i])
    ensures CanonChildren(raw, parent) == Ok(children)
  {
    if raw != [] {
      ChildrenPointwise(raw[1..], parent, children[1..]);
      ChildrenCons(raw, parent, children[0], children[1..]);
      assert children == [children[0]] + children[1..];
    }
  }

  lemma {:induction false} ChildrenCons(raw: seq<Json>, parent: Target, head: Effect, tail: seq<Effect>)
    requires raw != [] && CanonChild(raw[0], parent) == Ok(head) && CanonChildren(raw[1..], parent) == Ok(tail)
    ensures CanonChildren(raw, parent) == Ok([head] + tail)
  {
  }

  // ---- whole actions ------------------------------------------------------------

  lemma {:induction false} CanonContainerSound(m: Object)
    ensures CanonContainer(m).Ok? ==> Canonical(CanonContainer(m).value)
    ensures CanonContainer(m).Err? ==> CanonContainer(m).error == ValueError
  {
    var raw := ContainerTargetJson(m);
    if raw.Ok? {
      CanonTargetSound(raw.value);
      var target := CanonTarget(raw.value);
      if target.Ok? {
        CanonBlockSound(Get(m, "offset"), target.value);
        if Get(m, "actions").JArr? {
          CanonChildrenSound(Get(m, "actions").a, target.value);
        }
      }
    }
  }

  /** Every accepted action is canonical: target lists ascending, duplicate-free and in 0..254, child
      groups inside the container's, parameters in range, and no more than the permitted sizes. Only the
      legacy rewrite can fail with anything but a ValueError. */
  lemma {:induction false} AcceptedIsCanonical(raw: Json)
    ensures CanonAction(raw).Ok? ==> Canonical(CanonAction(raw).value)
    ensures CanonAction(raw).Err? && !(raw.JObj? && IsLegacyGroupsOffset(raw.m)) ==> CanonAction(raw).error == ValueError
  {
    if raw.JObj? {
      PlainSound(raw.m);
      if IsLegacyGroupsOffset(raw.m) && MigrateGroupsOffset(raw.m).Ok? {
        PlainSound(MigrateGroupsOffset(raw.m).value);
      }
    }
  }

  lemma {:induction false} PlainSound(m: Object)
    ensures CanonPlain(m).Ok? ==> Canonical(CanonPlain(m).value)
    ensures CanonPlain(m).Err? ==> CanonPlain(m).error == ValueError
  {
    CanonContainerSound(m);
    if EffectKindOf(Get(m, "kind")).Some? {
      CanonEffectSound(m, EffectKindOf(Get(m, "kind")).value);
    }
  }

  lemma {:induction false} ContainerOfEncoded(a: Action)
    requires a.OffsetGroup? && Canonical(a)
    ensures CanonAction(EncodeAction(a)) == Ok(a)
  {
    CanonTargetOfEncoded(a.target);
    CanonBlockOfEncoded(a.block, a.target);
    CanonChildrenOfEncoded(a.children, a.target);
    PlainContainer(EncodeTarget(a.target), EncodeBlock(a.block), Map(EncodeEffect, a.children), a.target, a.block, a.children);
  }

  /** A container whose parts are accepted is accepted. */
  lemma {:induction false} PlainContainer(t: Json, offset: Json, kids: seq<Json>, target: Target, block: OffsetBlock, children: seq<Effect>)
    requires t.JObj? && Get(t.m, "kind") != JStr("groups_offset")
    requires CanonTarget(t) == Ok(target) && !target.Device?
    requires target.Groups? ==> |target.ids| <= MAX_GROUPS_OFFSET_ENTRIES
    requires CanonBlock(offset, target) == Ok(block)
    requires CanonChildren(kids, target) == Ok(children) && |kids| <= MAX_OFFSET_GROUP_CHILDREN
    ensures CanonPlain(ContainerJson(t, offset, kids)) == Ok(OffsetGroup(target, block, children))
    ensures CanonAction(JObj(ContainerJson(t, offset, kids))) == Ok(OffsetGroup(target, block, children))
  {
    ContainerFields(t, offset, kids);
  }

  /** The container's fields as the validator reads them. */
  lemma {:induction false} ContainerFields(target: Json, offset: Json, kids: seq<Json>)
    requires target.JObj? && Get(target.m, "kind") != JStr("groups_offset")
    ensures var m := ContainerJson(target, offset, kids);
            && !IsLegacyGroupsOffset(m)
            && Get(m, "kind") == JStr("offset_group")
            && ContainerTargetJson(m) == Ok(target)
            && Get(m, "offset") == offset
            && (if Truthy(Get(m, "actions")) then Get(m, "actions") else JArr([])) == JArr(kids)
            && "params" !in m && "flags_override" !in m && "duration_ms" !in m
  {
  }

  lemma {:induction false} EffectOfEncoded(e: Effect)
    requires CanonicalEffect(e)
    ensures CanonAction(EncodeEffect(e)) == Ok(Act(e))
  {
    CanonEffectOfEncoded(e);
    EncodedEffectFields(e);
    TargetIsNotLegacy(e.target);
    PlainEffect(EncodeEffect(e).m, e);
  }

  lemma {:induction false} PlainEffect(m: Object, e: Effect)
    requires EffectKindOf(Get(m, "kind")) == Some(e.kind) && CanonEffect(m, e.kind) == Ok(e) && !IsLegacyGroupsOffset(m)
    ensures CanonAction(JObj(m)) == Ok(Act(e))
  {
  }

  /** A canonical action is exactly one that survives being written and read back. */
  lemma {:induction false} CanonicalIffReloads(a: Action)
    ensures CanonAction(EncodeAction(a)) == Ok(a) <==> Canonical(a)
  {
    if Canonical(a) {
      match a
      case Act(e) => EffectOfEncoded(e);
      case Sync =>
      case Delay(ms) =>
      case OffsetGroup(_, _, _) => ContainerOfEncoded(a);
    }
    AcceptedIsCanonical(EncodeAction(a));
  }

  /** Validation is idempotent on everything it accepts, whatever spelling it came in. */
  lemma {:induction false} Idempotent(raw: Json)
    requires CanonAction(raw).Ok?
    ensures CanonAction(EncodeAction(CanonAction(raw).value)) == CanonAction(raw)
  {
    AcceptedIsCanonical(raw);
    CanonicalIffReloads(CanonAction(raw).value);
  }

  ghost predicate CanonicalList(actions: seq<Action>) {
    forall i :: 0 <= i < |actions| ==> Canonical(actions[i])
  }

  lemma {:induction false} CanonListOfEncoded(actions: seq<Action>)
    ensures CanonList(Map(EncodeAction, actions)) == Ok(actions) <==> CanonicalList(actions)
  {
    if actions != [] {
      assert Map(EncodeAction, actions)[1..] == Map(EncodeAction, actions[1..]);
      CanonListOfEncoded(actions[1..]);
      CanonicalIffReloads(actions[0]);
      assert actions == [actions[0]] + actions[1..];
      assert CanonicalList(actions) <==> Canonical(actions[0]) && CanonicalList(actions[1..]);
    }
  }

  lemma {:induction false} CanonListSound(raw: seq<Json>)
    ensures CanonList(raw).Ok? ==> |CanonList(raw).value| == |raw| && CanonicalList(CanonList(raw).value)
  {
    if raw != [] {
      AcceptedIsCanonical(raw[0]);
      CanonListSound(raw[1..]);
    }
  }

  /** A scene's action list: accepted lists are canonical and short, and reload exactly when they are. */
  lemma {:induction false} CanonActionsSound(raw: Json)
    ensures CanonActions(raw).Ok? ==>
              CanonicalList(CanonActions(raw).value) && |CanonActions(raw).value| <= MAX_ACTIONS_PER_SCENE
  {
    if raw.JArr? {
      CanonListSound(raw.a);
    }
  }

  lemma {:induction false} ActionsReloadIffCanonical(actions: seq<Action>)
    ensures CanonActions(JArr(Map(EncodeAction, actions))) == Ok(actions)
            <==> CanonicalList(actions) && |actions| <= MAX_ACTIONS_PER_SCENE
  {
    CanonListOfEncoded(actions);
  }

  // ---- older spellings --------------------------------------------------------------

  /** A single `group` is the one-element list, for every value it may hold, bad ones included. */
  lemma {:induction false} SingleGroupMeansList(m: Object)
    requires Get(m, "kind") == JStr("group")
    ensures CanonTarget(JObj(m)) == CanonTarget(GroupsJson([Get(m, "value")]))
  {
    var v := ToInt(Get(m, "value"));
    if v.Ok? {
      assert IntsOf([JInt(v.value)]) == Some([v.value] + []);
      assert IntsOf([Get(m, "value")]) == Some([v.value] + []);
    } else {
      assert IntsOf([Get(m, "value")]).None?;
    }
  }

  /** A container that still spells its target in `groups` means the container with that target. */
  lemma {:induction false} GroupsFieldMeansTarget(m: Object)
    requires Get(m, "kind") == JStr("offset_group") && Get(m, "target") == JNull
    requires var g := Get(m, "groups"); g == JStr("all") || g == JInt(255) || g == JReal(255.0) || g.JArr?
    ensures var g := Get(m, "groups");
            CanonAction(JObj(m)) == CanonAction(JObj(m["target" := if g.JArr? then GroupsJson(g.a) else BROADCAST_JSON]))
  {
    var g := Get(m, "groups");
    var target := if g.JArr? then GroupsJson(g.a) else BROADCAST_JSON;
    assert "value" in GroupsJson([]).m && "value" !in BROADCAST_JSON.m;
    assert g.JArr? ==> "value" in target.m;
    SameContainer(m, m["target" := target], target);
  }

  lemma {:induction false} SameContainer(m: Object, n: Object, target: Json)
    requires Get(m, "kind") == JStr("offset_group") && Get(m, "target") == JNull
    requires n == m["target" := target]
    requires target == BROADCAST_JSON || (Get(m, "groups").JArr? && target == GroupsJson(Get(m, "groups").a))
    requires Get(m, "groups").JArr? <==> target != BROADCAST_JSON
    requires var g := Get(m, "groups"); g == JStr("all") || g == JInt(255) || g == JReal(255.0) || g.JArr?
    ensures CanonAction(JObj(m)) == CanonAction(JObj(n))
  {
    assert forall k :: k != "target" ==> Get(n, k) == Get(m, k) && (k in n <==> k in m);
    if Get(m, "groups") == JArr([]) {
      assert CanonIds([]) == Err(ValueError);
      assert CanonTarget(target) == Err(ValueError);
      assert ContainerTargetJson(m) == Err(ValueError) && ContainerTargetJson(n) == Ok(target);
    } else {
      assert ContainerTargetJson(m) == Ok(target) == ContainerTargetJson(n);
    }
    SameContainerParts(m, n, target);
  }

  lemma {:induction false} SameContainerParts(m: Object, n: Object, target: Json)
    requires Get(m, "kind") == Get(n, "kind") == JStr("offset_group") && !IsLegacyGroupsOffset(m) && !IsLegacyGroupsOffset(n)
    requires forall k :: k != "target" ==> Get(n, k) == Get(m, k) && (k in n <==> k in m)
    requires ContainerTargetJson(n) == Ok(target)
    requires ContainerTargetJson(m) == Ok(target) || (ContainerTargetJson(m) == Err(ValueError) && CanonTarget(target) == Err(ValueError))
    ensures CanonAction(JObj(m)) == CanonAction(JObj(n))
  {
    assert "params" in m <==> "params" in n;
    assert "flags_override" in m <==> "flags_override" in n;
    assert "duration_ms" in m <==> "duration_ms" in n;
    assert Get(n, "offset") == Get(m, "offset") && Get(n, "actions") == Get(m, "actions");
    SameParts(m, n, target);
  }

  lemma {:induction false} SameParts(m: Object, n: Object, target: Json)
    requires "params" in m <==> "params" in n
    requires "flags_override" in m <==> "flags_override" in n
    requires "duration_ms" in m <==> "duration_ms" in n
    requires Get(n, "offset") == Get(m, "offset") && Get(n, "actions") == Get(m, "actions")
    requires ContainerTargetJson(n) == Ok(target)
    requires ContainerTargetJson(m) == Ok(target) || (ContainerTargetJson(m) == Err(ValueError) && CanonTarget(target) == Err(ValueError))
    ensures CanonContainer(m) == CanonContainer(n)
  {
  }

  // ---- per-group offsets of earlier eras --------------------------------------------------------

  /** The child an earlier effect becomes, with whatever its fields hold. */
  function ChildJson(kind: Json, params: Object, flags: Object): Json {
    JObj(map["kind" := kind, "target" := BROADCAST_JSON, "params" := JObj(params), "flags_override" := JObj(flags)])
  }

  /** `dict(j or {})` raises. */
  predicate NotDict(j: Json) {
    Truthy(j) && !j.JObj?
  }

  function DictError(j: Json): Failure {
    if j.JStr? then ValueError else OtherError
  }

  function ObjectOr(j: Json): Object {
    if j.JObj? then j.m else map[]
  }

  /** The exception raised by an earlier effect whose parameters or flags are neither absent nor objects. */
  function ChildError(m: Object): Option<Failure> {
    var params, flags := Get(m, "params"), Get(m, "flags_override");
    if NotDict(params) then Some(DictError(params)) else if NotDict(flags) then Some(DictError(flags)) else None
  }

  function ChildOf(m: Object): Json {
    ChildJson(Get(m, "kind"), ObjectOr(Get(m, "params")), ObjectOr(Get(m, "flags_override")))
  }

  lemma {:induction false} LegacyChildIs(m: Object)
    ensures LegacyChild(m) == if ChildError(m).Some? then Err(ChildError(m).value) else Ok(ChildOf(m))
  {
  }

  lemma {:induction false} MigratedLikeContainer(m: Object, t: Json, offset: Json, kids: seq<Json>)
    requires t.JObj? && Get(t.m, "kind") != JStr("groups_offset")
    requires IsLegacyGroupsOffset(m) && MigrateGroupsOffset(m) == Ok(ContainerJson(t, offset, kids))
    ensures CanonAction(JObj(m)) == CanonAction(JObj(ContainerJson(t, offset, kids)))
  {
    ContainerFields(t, offset, kids);
  }

  predicate SpellsAll(g: Json) {
    g == JStr("all") || g == JInt(255) || g == JReal(255.0)
  }

  predicate EntryEra(m: Object)
    requires IsLegacyGroupsOffset(m)
  {
    var g := Get(m["target"].m, "groups");
    g.JArr? && g.a != [] && g.a[0].JObj?
  }

  /** The block of the formula era; a missing or empty one is mode none. */
  function FormulaEraOffset(m: Object): Json
    requires IsLegacyGroupsOffset(m)
  {
    var offset := Get(m["target"].m, "offset");
    if Truthy(offset) then offset else JObj(map["mode" := JStr("none")])
  }

  /** Every action of the formula era is accepted, and rejected, exactly like the container it stands for; one whose
      parameters, flags or groups do not convert raises what the conversion raises. */
  lemma {:induction false} FormulaEraAlike(m: Object)
    requires IsLegacyGroupsOffset(m) && !EntryEra(m)
    ensures var g := Get(m["target"].m, "groups");
            CanonAction(JObj(m))
            == if ChildError(m).Some? then Err(ChildError(m).value)
               else if SpellsAll(g) then CanonAction(JObj(ContainerJson(BROADCAST_JSON, FormulaEraOffset(m), [ChildOf(m)])))
               else if AsList(g).Err? then Err(AsList(g).error)
               else CanonAction(JObj(ContainerJson(GroupsJson(AsList(g).value), FormulaEraOffset(m), [ChildOf(m)])))
  {
    var g := Get(m["target"].m, "groups");
    LegacyChildIs(m);
    if ChildError(m).None? {
      if SpellsAll(g) {
        assert Get(BROADCAST_JSON.m, "kind") == JStr("broadcast");
        MigratedLikeContainer(m, BROADCAST_JSON, FormulaEraOffset(m), [ChildOf(m)]);
      } else if AsList(g).Ok? {
        assert Get(GroupsJson(AsList(g).value).m, "kind") == JStr("groups");
        MigratedLikeContainer(m, GroupsJson(AsList(g).value), FormulaEraOffset(m), [ChildOf(m)]);
      }
    }
  }

  /** So is every action of the oldest era, once its entries convert; whatever does not convert raises the same
      exception, ids before offsets and offsets before the child. */
  lemma {:induction false} EntryEraAlike(m: Object)
    requires IsLegacyGroupsOffset(m) && EntryEra(m)
    ensures var t := m["target"].m;
            var entries := Get(t, "groups").a;
            var ids, offset := LegacyIds(entries), LegacyOffset(entries, Get(t, "ui_hints"));
            CanonAction(JObj(m))
            == if ids.Err? then Err(ids.error)
               else if offset.Err? then Err(offset.error)
               else if ChildError(m).Some? then Err(ChildError(m).value)
               else CanonAction(JObj(ContainerJson(GroupsJson(ids.value), offset.value, [ChildOf(m)])))
  {
    var t := m["target"].m;
    var entries := Get(t, "groups").a;
    var ids, offset := LegacyIds(entries), LegacyOffset(entries, Get(t, "ui_hints"));
    LegacyChildIs(m);
    if ids.Ok? && offset.Ok? && ChildError(m).None? {
      assert Get(GroupsJson(ids.value).m, "kind") == JStr("groups");
      MigratedLikeContainer(m, GroupsJson(ids.value), offset.value, [ChildOf(m)]);
    }
  }

  // ---- what well-formed ones mean ---------------------------------------------------------------

  function LegacyAction(kind: EffectKind, target: Json, params: Object, flags: map<string, bool>): Object {
    map["kind" := KindJson(kind), "target" := target, "params" := JObj(params), "flags_override" := FlagsJson(flags)]
  }

  ghost predicate ChildParts(kind: EffectKind, flags: map<string, bool>) {
    !kind.Startblock? && forall k :: k in flags ==> k in FLAG_KEYS
  }

  /** The single child is the earlier effect, addressed to the whole container. */
  lemma {:induction false} LegacyChildMeaning(kind: EffectKind, target: Json, params: Object, flags: map<string, bool>, parent: Target)
    requires ChildParts(kind, flags)
    ensures var m := LegacyAction(kind, target, params, flags);
            && m["target"] == target
            && ChildError(m).None?
            && CanonChildren([ChildOf(m)], parent) == Ok([Effect(kind, Broadcast, params, flags)])
  {
    var m, e := LegacyAction(kind, target, params, flags), Effect(kind, Broadcast, params, flags);
    assert Get(m, "kind") == KindJson(kind) && Get(m, "params") == JObj(params) && Get(m, "flags_override") == FlagsJson(flags);
    assert ChildOf(m) == EncodeEffect(e);
    CanonChildrenOfEncoded([e], parent);
    assert Map(EncodeEffect, [e]) == [ChildOf(m)];
  }

  function FormulaEraTarget(target: Target, block: OffsetBlock): Json
    requires !target.Device?
  {
    var groups := if target.Broadcast? then JStr("all") else JArr(Map(IntJson, target.ids));
    JObj(map["kind" := JStr("groups_offset"), "groups" := groups, "offset" := EncodeBlock(block)])
  }

  lemma {:induction false} FormulaEraFields(target: Target, block: OffsetBlock)
    requires !target.Device?
    ensures var t := FormulaEraTarget(target, block).m;
            && Get(t, "kind") == JStr("groups_offset")
            && Get(t, "groups") == (if target.Broadcast? then JStr("all") else JArr(Map(IntJson, target.ids)))
            && Get(t, "offset") == EncodeBlock(block) && Truthy(EncodeBlock(block))
  {
    assert "mode" in EncodeBlock(block).m;
  }

  lemma {:induction false} FormulaEraReads(m: Object, target: Target, block: OffsetBlock)
    requires !target.Device? && (target.Groups? ==> target.ids != [])
    requires "target" in m && m["target"] == FormulaEraTarget(target, block) && ChildError(m).None?
    ensures CanonAction(JObj(m)) == CanonAction(JObj(ContainerJson(EncodeTarget(target), EncodeBlock(block), [ChildOf(m)])))
  {
    FormulaEraFields(target, block);
    if target.Groups? {
      assert Map(IntJson, target.ids)[0] == JInt(target.ids[0]);
    }
    FormulaEraAlike(m);
  }

  /** The formula-era spelling: the target carried the groups and the offset block. */
  lemma {:induction false} FormulaEraMeaning(kind: EffectKind, target: Target, block: OffsetBlock, params: Object, flags: map<string, bool>)
    requires ChildParts(kind, flags)
    requires Canonical(OffsetGroup(target, block, []))
    ensures CanonAction(JObj(LegacyAction(kind, FormulaEraTarget(target, block), params, flags)))
         == Ok(OffsetGroup(target, block, [Effect(kind, Broadcast, params, flags)]))
  {
    var m := LegacyAction(kind, FormulaEraTarget(target, block), params, flags);
    LegacyChildMeaning(kind, FormulaEraTarget(target, block), params, flags, target);
    FormulaEraReads(m, target, block);
    CanonicalContainerParts(target, block);
    PlainContainer(EncodeTarget(target), EncodeBlock(block), [ChildOf(m)], target, block, [Effect(kind, Broadcast, params, flags)]);
  }

  lemma {:induction false} CanonicalContainerParts(target: Target, block: OffsetBlock)
    requires Canonical(OffsetGroup(target, block, []))
    ensures CanonTarget(EncodeTarget(target)) == Ok(target) && CanonBlock(EncodeBlock(block), target) == Ok(block)
    ensures EncodeTarget(target).JObj? && Get(EncodeTarget(target).m, "kind") != JStr("groups_offset")
  {
    CanonTargetOfEncoded(target);
    CanonBlockOfEncoded(block, target);
    TargetIsNotLegacy(target);
  }

  lemma {:induction false} TargetIsNotLegacy(t: Target)
    ensures EncodeTarget(t).JObj? && Get(EncodeTarget(t).m, "kind") != JStr("groups_offset")
  {
  }

  function IdsOf(values: seq<GroupMs>): seq<int> {
    Map(EntryId, values)
  }

  function HintJson(hint: Option<(int, int)>): Json {
    if hint.None? then JNull else LinearJson(hint.value.0, hint.value.1)
  }

  function EntryEraTarget(entries: seq<GroupMs>, hint: Option<(int, int)>): Json {
    JObj(map["kind" := JStr("groups_offset"), "groups" := JArr(Map(EntryJson, entries)), "ui_hints" := HintJson(hint)])
  }

  lemma {:induction false} EntryEraFields(entries: seq<GroupMs>, hint: Option<(int, int)>)
    ensures var t := EntryEraTarget(entries, hint).m;
            && Get(t, "kind") == JStr("groups_offset")
            && Get(t, "groups") == JArr(Map(EntryJson, entries))
            && Get(t, "ui_hints") == HintJson(hint)
  {
  }

  function EntryEraOffset(entries: seq<GroupMs>, hint: Option<(int, int)>): Json {
    if hint.None? then JObj(map["mode" := JStr("explicit"), "values" := JArr(Map(EntryJson, entries))]) else HintJson(hint)
  }

  function EntryEraBlock(entries: seq<GroupMs>, hint: Option<(int, int)>): OffsetBlock {
    if hint.None? then ExplicitBlock(SortBy(entries, EntryId)) else FormulaBlock(Linear(hint.value.0, hint.value.1))
  }

  ghost predicate EntryEraInput(entries: seq<GroupMs>, hint: Option<(int, int)>) {
    && 1 <= |entries| <= MAX_GROUPS_OFFSET_ENTRIES
    && (forall i :: 0 <= i < |entries| ==> GroupId(entries[i].id) && 0 <= entries[i].ms <= OFFSET_MS_MAX)
    && Distinct(IdsOf(entries))
    && (hint.Some? ==> Int16(hint.value.0) && Int16(hint.value.1))
  }

  /** The oldest spelling listed `{id, offset_ms}` per group. Without a linear hint it means the explicit
      container over the sorted groups, with one it means the linear container. */
  lemma {:induction false} EntryEraMeaning(kind: EffectKind, entries: seq<GroupMs>, hint: Option<(int, int)>, params: Object,
                        flags: map<string, bool>)
    requires ChildParts(kind, flags) && EntryEraInput(entries, hint)
    ensures CanonAction(JObj(LegacyAction(kind, EntryEraTarget(entries, hint), params, flags)))
         == Ok(OffsetGroup(Groups(SortIds(IdsOf(entries))), EntryEraBlock(entries, hint), [Effect(kind, Broadcast, params, flags)]))
  {
    var m := LegacyAction(kind, EntryEraTarget(entries, hint), params, flags);
    var target := Groups(SortIds(IdsOf(entries)));
    LegacyChildMeaning(kind, EntryEraTarget(entries, hint), params, flags, target);
    EntryEraFields(entries, hint);
    assert Map(EntryJson, entries)[0] == EntryJson(entries[0]);
    LegacyListOfEntries(entries);
    HintedOffset(entries, hint);
    EntryEraAlike(m);
    EntryEraContainer(entries, hint, ChildOf(m), Effect(kind, Broadcast, params, flags));
  }

  lemma {:induction false} EntryEraContainer(entries: seq<GroupMs>, hint: Option<(int, int)>, child: Json, e: Effect)
    requires EntryEraInput(entries, hint) && CanonChildren([child], Groups(SortIds(IdsOf(entries)))) == Ok([e])
    ensures CanonAction(JObj(ContainerJson(GroupsJson(Map(IntJson, IdsOf(entries))), EntryEraOffset(entries, hint), [child])))
         == Ok(OffsetGroup(Groups(SortIds(IdsOf(entries))), EntryEraBlock(entries, hint), [e]))
  {
    var t := GroupsJson(Map(IntJson, IdsOf(entries)));
    assert Get(t.m, "kind") == JStr("groups");
    EntryEraParts(entries, hint);
    PlainContainer(t, EntryEraOffset(entries, hint), [child], Groups(SortIds(IdsOf(entries))), EntryEraBlock(entries, hint), [e]);
  }

  lemma {:induction false} HintedOffset(entries: seq<GroupMs>, hint: Option<(int, int)>)
    ensures LegacyOffset(Map(EntryJson, entries), HintJson(hint)) == Ok(EntryEraOffset(entries, hint))
  {
    LegacyListOfEntries(entries);
    if hint.Some? {
      var h := HintJson(hint);
      assert h.m["base_ms"] == JInt(hint.value.0) && h.m["step_ms"] == JInt(hint.value.1) && h.m["mode"] == JStr("linear");
      assert Truthy(h);
    }
  }

  lemma {:induction false} EntryEraParts(entries: seq<GroupMs>, hint: Option<(int, int)>)
    requires EntryEraInput(entries, hint)
    ensures var target := Groups(SortIds(IdsOf(entries)));
            && CanonTarget(GroupsJson(Map(IntJson, IdsOf(entries)))) == Ok(target)
            && |target.ids| == |entries|
            && CanonBlock(EntryEraOffset(entries, hint), target) == Ok(EntryEraBlock(entries, hint))
  {
    var plain := IdsOf(entries);
    var target := Groups(SortIds(plain));
    IntsOfEncoded(plain);
    assert AllGroupIds(plain) && NoDuplicates(plain);
    SortIdsAscending(plain);
    if hint.Some? {
      CanonFormulaOfEncoded(Linear(hint.value.0, hint.value.1), target);
    } else {
      EntriesInTarget(entries, target.ids);
      CanonEntriesOfEncoded(entries, target.ids);
    }
  }

  lemma {:induction false} EntriesInTarget(entries: seq<GroupMs>, ids: seq<int>)
    requires forall i :: 0 <= i < |entries| ==> GroupId(entries[i].id)
    requires forall g :: g in ids <==> g in IdsOf(entries)
    ensures forall i :: 0 <= i < |entries| ==> entries[i].id in ids
    ensures forall g :: g in ids ==> GroupId(g)
  {
    var plain := IdsOf(entries);
    forall i | 0 <= i < |entries|
      ensures entries[i].id in ids
    {
      assert plain[i] in plain;
    }
    forall g | g in ids
      ensures GroupId(g)
    {
      assert g in plain;
    }
  }

  lemma {:induction false} LegacyListOfEntries(entries: seq<GroupMs>)
    ensures LegacyIds(Map(EntryJson, entries)) == Ok(Map(IntJson, IdsOf(entries)))
    ensures LegacyValues(Map(EntryJson, entries)) == Ok(Map(EntryJson, entries))
  {
    if entries != [] {
      var raw := Map(EntryJson, entries);
      assert raw[1..] == Map(EntryJson, entries[1..]);
      LegacyListOfEntries(entries[1..]);
      assert IdsOf(entries)[1..] == IdsOf(entries[1..]);
      assert raw == [raw[0]] + raw[1..];
    }
  }
}
