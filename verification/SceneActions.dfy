/** Scene actions: their typed shape, the JSON they are persisted as, and the validator that takes
    untrusted JSON to the typed shape. */
module SceneActions {
  import opened Basics
  import opened JsonValues
  import opened Offsets

  const MAX_ACTIONS_PER_SCENE := 20
  const MAX_DELAY_MS := 60_000
  const MAX_GROUPS_OFFSET_ENTRIES := 64
  const MAX_OFFSET_GROUP_CHILDREN := 16

  datatype EffectKind = RlPreset | WledPreset | WledControl | Startblock

  datatype Target = Broadcast | Groups(ids: seq<int>) | Device(mac: string)

  datatype Effect = Effect(kind: EffectKind, target: Target, params: Object, flags: map<string, bool>)

  datatype Action =
    | Act(effect: Effect)
    | Sync
    | Delay(ms: int)
    | OffsetGroup(target: Target, block: OffsetBlock, children: seq<Effect>)

  const FLAG_KEYS: seq<string> := ["arm_on_sync", "force_tt0", "force_reapply", "offset_mode"]

  // ---- what canonical means --------------------------------------------------

  ghost predicate CanonicalIds(ids: seq<int>) {
    ids != [] && Ascending(ids) && forall i :: 0 <= i < |ids| ==> GroupId(ids[i])
  }

  ghost predicate CanonicalTarget(t: Target) {
    match t
    case Broadcast => true
    case Groups(ids) => CanonicalIds(ids)
    case Device(mac) => IsMac12(mac)
  }

  ghost predicate CanonicalEffect(e: Effect) {
    && CanonicalTarget(e.target)
    && (forall k :: k in e.flags ==> k in FLAG_KEYS)
    && (e.kind.Startblock? ==> e.flags == map[])
  }

  ghost predicate CanonicalChild(e: Effect, parent: Target) {
    && CanonicalEffect(e)
    && !e.kind.Startblock?
    && (e.target.Groups? && parent.Groups? ==> forall g :: g in e.target.ids ==> g in parent.ids)
  }

  function EntryId(e: GroupMs): int {
    e.id
  }

  ghost predicate CanonicalBlock(b: OffsetBlock, target: Target) {
    match b
    case NoneBlock => true
    case FormulaBlock(f) => ValidFormula(f)
    case ExplicitBlock(values) =>
      && target.Groups?
      && |values| == |target.ids|
      && SortedBy(values, EntryId)
      && forall i :: 0 <= i < |values| ==> values[i].id in target.ids && 0 <= values[i].ms <= OFFSET_MS_MAX
  }

  ghost predicate Canonical(a: Action) {
    match a
    case Act(e) => CanonicalEffect(e)
    case Sync => true
    case Delay(ms) => 0 <= ms <= MAX_DELAY_MS
    case OffsetGroup(target, block, children) =>
      && !target.Device?
      && CanonicalTarget(target)
      && (target.Groups? ==> |target.ids| <= MAX_GROUPS_OFFSET_ENTRIES)
      && CanonicalBlock(block, target)
      && |children| <= MAX_OFFSET_GROUP_CHILDREN
      && forall i :: 0 <= i < |children| ==> CanonicalChild(children[i], target)
  }

  // ---- targets ----------------------------------------------------------------

  function GroupsJson(v: seq<Json>): Json {
    JObj(map["kind" := JStr("groups"), "value" := JArr(v)])
  }

  const BROADCAST_JSON := JObj(map["kind" := JStr("broadcast")])

  /** `scope` becomes `broadcast`, a single `group` becomes a one-element list. */
  function MigrateTarget(raw: Json): Json {
    if !raw.JObj? then raw
    else if Get(raw.m, "kind") == JStr("scope") then BROADCAST_JSON
    else if Get(raw.m, "kind") == JStr("group") then
      var v := ToInt(Get(raw.m, "value"));
      if v.Err? then raw else GroupsJson([JInt(v.value)])
    else raw
  }

  function IntsOf(a: seq<Json>): Option<seq<int>> {
    if a == [] then Some([])
    else
      var head, tail := ToInt(a[0]), IntsOf(a[1..]);
      if head.Err? || tail.None? then None else Some([head.value] + tail.value)
  }

  predicate AllGroupIds(s: seq<int>) {
    forall i :: 0 <= i < |s| ==> GroupId(s[i])
  }

  predicate NoDuplicates(s: seq<int>) {
    forall i, j :: 0 <= i < j < |s| ==> s[i] != s[j]
  }

  /** A non-empty list of distinct ids in 0..254, sorted. */
  function CanonIds(a: seq<Json>): Result<seq<int>> {
    var ids := IntsOf(a);
    if a != [] && ids.Some? && AllGroupIds(ids.value) && NoDuplicates(ids.value) then Ok(SortIds(ids.value))
    else Err(ValueError)
  }

  function CanonTarget(raw: Json): Result<Target> {
    var t := MigrateTarget(raw);
    if !t.JObj? then Err(ValueError)
    else
      var kind, v := Get(t.m, "kind"), Get(t.m, "value");
      if kind == JStr("broadcast") then Ok(Broadcast)
      else if kind == JStr("groups") then
        if !v.JArr? then Err(ValueError)
        else
          var ids :- CanonIds(v.a);
          Ok(Groups(ids))
      else if kind == JStr("device") && v.JStr? && IsMac12(Upper(Strip(v.s))) then Ok(Device(Upper(Strip(v.s))))
      else Err(ValueError)
  }

  // ---- the offset block ----------------------------------------------------------

  function ValidateInt(raw: Json, lo: int, hi: int): Result<int> {
    var v := ToInt(raw);
    if v.Err? || v.value < lo || v.value > hi then Err(ValueError) else v
  }

  function CanonEntry(raw: Json, groups: seq<int>): Result<GroupMs> {
    if !raw.JObj? then Err(ValueError)
    else
      var id :- ValidateInt(Get(raw.m, "id"), 0, GROUP_ID_MAX);
      if id !in groups then Err(ValueError)
      else
        var ms :- ValidateInt(Get(raw.m, "offset_ms"), 0, OFFSET_MS_MAX);
        Ok(GroupMs(id, ms))
  }

  function CanonEntries(raw: seq<Json>, groups: seq<int>): Result<seq<GroupMs>> {
    if raw == [] then Ok([])
    else
      var head :- CanonEntry(raw[0], groups);
      var tail :- CanonEntries(raw[1..], groups);
      Ok([head] + tail)
  }

  function CanonFormula(m: Object): Result<OffsetBlock> {
    var base :- ValidateInt(GetOr(m, "base_ms", JInt(0)), INT16_MIN, INT16_MAX);
    var step :- ValidateInt(GetOr(m, "step_ms", JInt(0)), INT16_MIN, INT16_MAX);
    var mode := Get(m, "mode");
    if mode == JStr("linear") then Ok(FormulaBlock(Linear(base, step)))
    else if mode == JStr("vshape") then
      var center :- ValidateInt(GetOr(m, "center", JInt(0)), 0, GROUP_ID_MAX);
      Ok(FormulaBlock(VShape(base, step, center)))
    else
      var cycle :- ValidateInt(GetOr(m, "cycle", JInt(1)), 1, 255);
      Ok(FormulaBlock(Modulo(base, step, cycle)))
  }

  function CanonBlock(raw: Json, target: Target): Result<OffsetBlock> {
    if !raw.JObj? then Err(ValueError)
    else
      var mode := Get(raw.m, "mode");
      if mode == JStr("none") then Ok(NoneBlock)
      else if mode == JStr("explicit") then
        var values := Get(raw.m, "values");
        if !target.Groups? || !values.JArr? || |values.a| != |target.ids| then Err(ValueError)
        else
          var entries :- CanonEntries(values.a, target.ids);
          Ok(ExplicitBlock(SortBy(entries, EntryId)))
      else if mode == JStr("linear") || mode == JStr("vshape") || mode == JStr("modulo") then CanonFormula(raw.m)
      else Err(ValueError)
  }

  // ---- effects ----------------------------------------------------------------

  function EffectKindOf(j: Json): Option<EffectKind> {
    if j == JStr("rl_preset") then Some(RlPreset)
    else if j == JStr("wled_preset") then Some(WledPreset)
    else if j == JStr("wled_control") then Some(WledControl)
    else if j == JStr("startblock") then Some(Startblock)
    else None
  }

  /** `raw or {}`, keeping only the four user flags. */
  function CanonFlags(raw: Json): Result<map<string, bool>> {
    if !Truthy(raw) then Ok(map[])
    else if !raw.JObj? then Err(ValueError)
    else Ok(map k | k in raw.m && k in FLAG_KEYS :: Truthy(raw.m[k]))
  }

  function CanonParams(raw: Json): Result<Object> {
    if raw == JNull then Ok(map[])
    else if !raw.JObj? then Err(ValueError)
    else Ok(raw.m)
  }

  function CanonEffect(m: Object, kind: EffectKind): Result<Effect> {
    if "target" !in m then Err(ValueError)
    else
      var target :- CanonTarget(m["target"]);
      var params :- CanonParams(Get(m, "params"));
      if kind.Startblock? then Ok(Effect(kind, target, params, map[]))
      else
        var flags :- CanonFlags(Get(m, "flags_override"));
        Ok(Effect(kind, target, params, flags))
  }

  function CanonChild(raw: Json, parent: Target): Result<Effect> {
    if !raw.JObj? then Err(ValueError)
    else
      var kind := EffectKindOf(Get(raw.m, "kind"));
      if kind.None? || kind.value.Startblock? then Err(ValueError)
      else
        var e :- CanonEffect(raw.m, kind.value);
        if e.target.Groups? && parent.Groups? && exists g :: g in e.target.ids && g !in parent.ids then Err(ValueError)
        else Ok(e)
  }

  function CanonChildren(raw: seq<Json>, parent: Target): Result<seq<Effect>> {
    if raw == [] then Ok([])
    else
      var head :- CanonChild(raw[0], parent);
      var tail :- CanonChildren(raw[1..], parent);
      Ok([head] + tail)
  }

  // ---- containers -------------------------------------------------------------

  /** The older container spelled its target in a `groups` field. */
  function ContainerTargetJson(m: Object): Result<Json> {
    var t, g := Get(m, "target"), Get(m, "groups");
    if t != JNull then Ok(t)
    else if g == JStr("all") || g == JInt(255) || g == JReal(255.0) then Ok(BROADCAST_JSON)
    else if g.JArr? && g.a != [] then Ok(GroupsJson(g.a))
    else Err(ValueError)
  }

  function CanonContainer(m: Object): Result<Action> {
    if "params" in m || "flags_override" in m || "duration_ms" in m then Err(ValueError)
    else
      var raw :- ContainerTargetJson(m);
      var target :- CanonTarget(raw);
      if target.Device? || (target.Groups? && |target.ids| > MAX_GROUPS_OFFSET_ENTRIES) then Err(ValueError)
      else
        var block :- CanonBlock(Get(m, "offset"), target);
        var kids := if Truthy(Get(m, "actions")) then Get(m, "actions") else JArr([]);
        if !kids.JArr? || |kids.a| > MAX_OFFSET_GROUP_CHILDREN then Err(ValueError)
        else
          var children :- CanonChildren(kids.a, target);
          Ok(OffsetGroup(target, block, children))
  }

  /** The first spelling of per-group offsets: an effect whose target carried the offsets. */
  predicate IsLegacyGroupsOffset(m: Object) {
    var t := Get(m, "target");
    t.JObj? && Get(t.m, "kind") == JStr("groups_offset")
  }

  function LegacyId(d: Json): Result<int> {
    if !d.JObj? then Err(OtherError) else ToInt(Get(d.m, "id"))
  }

  function LegacyIds(a: seq<Json>): Result<seq<Json>> {
    if a == [] then Ok([])
    else
      var head :- LegacyId(a[0]);
      var tail :- LegacyIds(a[1..]);
      Ok([JInt(head)] + tail)
  }

  function EntryJson(e: GroupMs): Json {
    JObj(map["id" := JInt(e.id), "offset_ms" := JInt(e.ms)])
  }

  function LegacyValues(a: seq<Json>): Result<seq<Json>> {
    if a == [] then Ok([])
    else
      var id :- LegacyId(a[0]);
      var ms :- ToInt(GetOr(a[0].m, "offset_ms", JInt(0)));
      var tail :- LegacyValues(a[1..]);
      Ok([EntryJson(GroupMs(id, ms))] + tail)
  }

  function LinearJson(base: int, step: int): Json {
    JObj(map["mode" := JStr("linear"), "base_ms" := JInt(base), "step_ms" := JInt(step)])
  }

  /** Offsets of the oldest shape: a linear hint if there is a complete one, else the explicit values. */
  function LegacyOffset(a: seq<Json>, hintsJson: Json): Result<Json> {
    if Truthy(hintsJson) && !hintsJson.JObj? then Err(OtherError)
    else
      var hints := if Truthy(hintsJson) then hintsJson.m else map[];
      if Get(hints, "mode") == JStr("linear") && Get(hints, "base_ms") != JNull && Get(hints, "step_ms") != JNull then
        var base :- ToInt(hints["base_ms"]);
        var step :- ToInt(hints["step_ms"]);
        Ok(LinearJson(base, step))
      else
        var values :- LegacyValues(a);
        Ok(JObj(map["mode" := JStr("explicit"), "values" := JArr(values)]))
  }

  /** `list(groups)`. */
  function AsList(j: Json): Result<seq<Json>> {
    match j
    case JArr(a) => Ok(a)
    case JStr(s) => Ok(seq(|s|, i requires 0 <= i < |s| => JStr([s[i]])))
    case _ => Err(OtherError)
  }

  /** `dict(raw or {})`. */
  function AsDict(j: Json): Result<Json> {
    if !Truthy(j) then Ok(JObj(map[]))
    else if j.JObj? then Ok(j)
    else Err(if j.JStr? then ValueError else OtherError)
  }

  function ContainerJson(target: Json, offset: Json, children: seq<Json>): Object {
    map["kind" := JStr("offset_group"), "target" := target, "offset" := offset, "actions" := JArr(children)]
  }

  function MigrateGroupsOffset(m: Object): Result<Object>
    requires IsLegacyGroupsOffset(m)
  {
    var legacy := m["target"].m;
    var g := Get(legacy, "groups");
    if g.JArr? && g.a != [] && g.a[0].JObj? then
      var ids :- LegacyIds(g.a);
      var offset :- LegacyOffset(g.a, Get(legacy, "ui_hints"));
      var child :- LegacyChild(m);
      Ok(ContainerJson(GroupsJson(ids), offset, [child]))
    else
      var offset := if Truthy(Get(legacy, "offset")) then legacy["offset"] else JObj(map["mode" := JStr("none")]);
      var child :- LegacyChild(m);
      if g == JStr("all") || g == JInt(255) || g == JReal(255.0) then Ok(ContainerJson(BROADCAST_JSON, offset, [child]))
      else
        var list :- AsList(g);
        Ok(ContainerJson(GroupsJson(list), offset, [child]))
  }

  function LegacyChild(m: Object): Result<Json> {
    var params :- AsDict(Get(m, "params"));
    var flags :- AsDict(Get(m, "flags_override"));
    Ok(JObj(map["kind" := Get(m, "kind"), "target" := BROADCAST_JSON, "params" := params, "flags_override" := flags]))
  }

  // ---- actions ----------------------------------------------------------------

  function CanonPlain(m: Object): Result<Action> {
    var kind := Get(m, "kind");
    if kind == JStr("offset_group") then CanonContainer(m)
    else if kind == JStr("delay") then
      var ms :- ValidateInt(GetOr(m, "duration_ms", JInt(0)), 0, MAX_DELAY_MS);
      if "target" in m || "params" in m || "flags_override" in m then Err(ValueError) else Ok(Delay(ms))
    else if kind == JStr("sync") then
      if "target" in m || "params" in m || "flags_override" in m || "duration_ms" in m then Err(ValueError) else Ok(Sync)
    else if EffectKindOf(kind).Some? then
      var e :- CanonEffect(m, EffectKindOf(kind).value);
      Ok(Act(e))
    else Err(ValueError)
  }

  function CanonAction(raw: Json): Result<Action> {
    if !raw.JObj? then Err(ValueError)
    else if IsLegacyGroupsOffset(raw.m) then
      var m :- MigrateGroupsOffset(raw.m);
      CanonPlain(m)
    else CanonPlain(raw.m)
  }

  function CanonList(raw: seq<Json>): Result<seq<Action>> {
    if raw == [] then Ok([])
    else
      var head :- CanonAction(raw[0]);
      var tail :- CanonList(raw[1..]);
      Ok([head] + tail)
  }

  function CanonActions(raw: Json): Result<seq<Action>> {
    if raw == JNull then Ok([])
    else if !raw.JArr? || |raw.a| > MAX_ACTIONS_PER_SCENE then Err(ValueError)
    else CanonList(raw.a)
  }

  // ---- the persisted form ----------------------------------------------------------

  function IntJson(i: int): Json {
    JInt(i)
  }

  function EncodeTarget(t: Target): Json {
    match t
    case Broadcast => BROADCAST_JSON
    case Groups(ids) => GroupsJson(Map(IntJson, ids))
    case Device(mac) => JObj(map["kind" := JStr("device"), "value" := JStr(mac)])
  }

  function EncodeBlock(b: OffsetBlock): Json {
    match b
    case NoneBlock => JObj(map["mode" := JStr("none")])
    case ExplicitBlock(values) => JObj(map["mode" := JStr("explicit"), "values" := JArr(Map(EntryJson, values))])
    case FormulaBlock(Linear(base, step)) => LinearJson(base, step)
    case FormulaBlock(VShape(base, step, center)) =>
      JObj(map["mode" := JStr("vshape"), "base_ms" := JInt(base), "step_ms" := JInt(step), "center" := JInt(center)])
    case FormulaBlock(Modulo(base, step, cycle)) =>
      JObj(map["mode" := JStr("modulo"), "base_ms" := JInt(base), "step_ms" := JInt(step), "cycle" := JInt(cycle)])
  }

  function KindJson(k: EffectKind): Json {
    match k
    case RlPreset => JStr("rl_preset")
    case WledPreset => JStr("wled_preset")
    case WledControl => JStr("wled_control")
    case Startblock => JStr("startblock")
  }

  function FlagsJson(flags: map<string, bool>): Json {
    JObj(map k | k in flags :: JBool(flags[k]))
  }

  function EncodeEffect(e: Effect): Json {
    var m: Object := map["kind" := KindJson(e.kind), "target" := EncodeTarget(e.target), "params" := JObj(e.params)];
    JObj(if e.kind.Startblock? then m else m["flags_override" := FlagsJson(e.flags)])
  }

  function EncodeAction(a: Action): Json {
    match a
    case Act(e) => EncodeEffect(e)
    case Sync => JObj(map["kind" := JStr("sync")])
    case Delay(ms) => JObj(map["kind" := JStr("delay"), "duration_ms" := JInt(ms)])
    case OffsetGroup(target, block, children) =>
      JObj(ContainerJson(EncodeTarget(target), EncodeBlock(block), Map(EncodeEffect, children)))
  }
}
