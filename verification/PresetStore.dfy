/** The preset store: fourteen optional effect fields and four flags per preset. */
module PresetStore {
  import opened Basics
  import opened JsonValues
  import opened SceneActions
  import opened IdLedger
  import opened VersionedStore
  import opened StoreProofs
  import ControlBody
  import Planner
  import Packets

  datatype PresetPayload = PresetPayload(params: ControlBody.Fields, flags: map<string, bool>)

  function ByteField(m: Object, k: string): Result<Option<int>> {
    var v :- Planner.IntField(m, k);
    Ok(ControlBody.MaskedInt(v))
  }

  /** A list of three numbers, masked; anything else is a ValueError. */
  function ColorParam(m: Object, k: string): Result<Option<ControlBody.Rgb>> {
    var c := Get(m, k);
    if c == JNull then Ok(None)
    else if !c.JArr? || |c.a| != 3 then Err(ValueError)
    else
      var r :- ToInt(c.a[0]);
      var g :- ToInt(c.a[1]);
      var b :- ToInt(c.a[2]);
      Ok(Some(ControlBody.Rgb(LowByte(r), LowByte(g), LowByte(b))))
  }

  function ParamsOf(m: Object): Result<ControlBody.Fields> {
    var mode :- ByteField(m, "mode");
    var speed :- ByteField(m, "speed");
    var intensity :- ByteField(m, "intensity");
    var custom1 :- ByteField(m, "custom1");
    var custom2 :- ByteField(m, "custom2");
    var custom3 :- ByteField(m, "custom3");
    var palette :- ByteField(m, "palette");
    var color1 :- ColorParam(m, "color1");
    var color2 :- ColorParam(m, "color2");
    var color3 :- ColorParam(m, "color3");
    var brightness :- ByteField(m, "brightness");
    Ok(ControlBody.Fields(brightness, mode, speed, intensity, custom1, custom2, custom3,
                          Planner.CheckField(m, "check1"), Planner.CheckField(m, "check2"), Planner.CheckField(m, "check3"),
                          palette, color1, color2, color3))
  }

  /** `raw or {}`, then every field coerced and masked. */
  function CanonPresetParams(raw: Json): Result<ControlBody.Fields> {
    if !Truthy(raw) then ParamsOf(map[]) else if !raw.JObj? then Err(OtherError) else ParamsOf(raw.m)
  }

  /** All four flags, missing ones false. */
  function CanonPresetFlags(raw: Json): Result<map<string, bool>> {
    if Truthy(raw) && !raw.JObj? then Err(OtherError)
    else
      var m := if Truthy(raw) then raw.m else map[];
      Ok(map k | k in FLAG_KEYS :: Truthy(Get(m, k)))
  }

  function PresetPayloadOf(params: Json, flags: Json): Result<PresetPayload> {
    var p :- CanonPresetParams(params);
    var f :- CanonPresetFlags(flags);
    Ok(PresetPayload(p, f))
  }

  function LoadPreset(m: Object): Result<PresetPayload> {
    PresetPayloadOf(Get(m, "params"), Get(m, "flags"))
  }

  function OptInt(o: Option<int>): Json {
    if o.None? then JNull else JInt(o.value)
  }

  function OptBool(o: Option<bool>): Json {
    if o.None? then JNull else JBool(o.value)
  }

  function OptRgb(o: Option<ControlBody.Rgb>): Json {
    if o.None? then JNull else JArr([JInt(o.value.r), JInt(o.value.g), JInt(o.value.b)])
  }

  const PARAM_KEYS: set<string> :=
    {"mode", "speed", "intensity", "custom1", "custom2", "custom3", "check1", "check2", "check3",
     "palette", "color1", "color2", "color3", "brightness"}

  function ParamJson(f: ControlBody.Fields, k: string): Json {
    if k == "mode" then OptInt(f.mode)
    else if k == "speed" then OptInt(f.speed)
    else if k == "intensity" then OptInt(f.intensity)
    else if k == "custom1" then OptInt(f.custom1)
    else if k == "custom2" then OptInt(f.custom2)
    else if k == "custom3" then OptInt(f.custom3)
    else if k == "check1" then OptBool(f.check1)
    else if k == "check2" then OptBool(f.check2)
    else if k == "check3" then OptBool(f.check3)
    else if k == "palette" then OptInt(f.palette)
    else if k == "color1" then OptRgb(f.color1)
    else if k == "color2" then OptRgb(f.color2)
    else if k == "color3" then OptRgb(f.color3)
    else OptInt(f.brightness)
  }

  /** Every key is written; `null` means the field is absent. */
  function SaveParams(f: ControlBody.Fields): Object {
    map k | k in PARAM_KEYS :: ParamJson(f, k)
  }

  function SavePreset(p: PresetPayload): Object {
    map["params" := JObj(SaveParams(p.params)), "flags" := FlagsJson(p.flags)]
  }

  /** Presets claim their id before validating, and rewrite files of schema 1. */
  function PresetCodec(): Codec<PresetPayload> {
    Codec(LoadPreset, SavePreset, 2, true, true)
  }

  predicate IsByte(o: Option<int>) {
    o.Some? ==> 0 <= o.value < 256
  }

  predicate IsByteRgb(o: Option<ControlBody.Rgb>) {
    o.Some? ==> 0 <= o.value.r < 256 && 0 <= o.value.g < 256 && 0 <= o.value.b < 256
  }

  predicate ByteFields(f: ControlBody.Fields) {
    && IsByte(f.brightness) && IsByte(f.mode) && IsByte(f.speed) && IsByte(f.intensity)
    && IsByte(f.custom1) && IsByte(f.custom2) && IsByte(f.custom3) && IsByte(f.palette)
    && IsByteRgb(f.color1) && IsByteRgb(f.color2) && IsByteRgb(f.color3)
  }

  predicate CanonicalPreset(p: PresetPayload) {
    ByteFields(p.params) && p.flags.Keys == set k | k in FLAG_KEYS
  }

  lemma {:induction false} SavedKey(f: ControlBody.Fields, k: string)
    requires k in PARAM_KEYS
    ensures Get(SaveParams(f), k) == ParamJson(f, k)
  {
  }

  lemma {:induction false} SavedSliders(f: ControlBody.Fields)
    ensures var m := SaveParams(f);
            && Get(m, "mode") == OptInt(f.mode) && Get(m, "speed") == OptInt(f.speed) && Get(m, "intensity") == OptInt(f.intensity)
            && Get(m, "custom1") == OptInt(f.custom1) && Get(m, "custom2") == OptInt(f.custom2) && Get(m, "custom3") == OptInt(f.custom3)
  {
    SavedKey(f, "mode"); SavedKey(f, "speed"); SavedKey(f, "intensity");
    SavedKey(f, "custom1"); SavedKey(f, "custom2"); SavedKey(f, "custom3");
  }

  lemma {:induction false} SavedChecks(f: ControlBody.Fields)
    ensures var m := SaveParams(f);
            && Get(m, "check1") == OptBool(f.check1) && Get(m, "check2") == OptBool(f.check2) && Get(m, "check3") == OptBool(f.check3)
            && Get(m, "palette") == OptInt(f.palette)
  {
    SavedKey(f, "check1"); SavedKey(f, "check2"); SavedKey(f, "check3"); SavedKey(f, "palette");
  }

  lemma {:induction false} SavedColors(f: ControlBody.Fields)
    ensures var m := SaveParams(f);
            && Get(m, "color1") == OptRgb(f.color1) && Get(m, "color2") == OptRgb(f.color2) && Get(m, "color3") == OptRgb(f.color3)
            && Get(m, "brightness") == OptInt(f.brightness)
  {
    SavedKey(f, "color1"); SavedKey(f, "color2"); SavedKey(f, "color3"); SavedKey(f, "brightness");
  }

  /** The saved object `m` read back key by key. */
  predicate Saves(m: Object, f: ControlBody.Fields) {
    && Get(m, "mode") == OptInt(f.mode) && Get(m, "speed") == OptInt(f.speed) && Get(m, "intensity") == OptInt(f.intensity)
    && Get(m, "custom1") == OptInt(f.custom1) && Get(m, "custom2") == OptInt(f.custom2) && Get(m, "custom3") == OptInt(f.custom3)
    && Get(m, "check1") == OptBool(f.check1) && Get(m, "check2") == OptBool(f.check2) && Get(m, "check3") == OptBool(f.check3)
    && Get(m, "palette") == OptInt(f.palette) && Get(m, "brightness") == OptInt(f.brightness)
    && Get(m, "color1") == OptRgb(f.color1) && Get(m, "color2") == OptRgb(f.color2) && Get(m, "color3") == OptRgb(f.color3)
  }

  lemma {:induction false} SavedKeys(f: ControlBody.Fields)
    ensures Saves(SaveParams(f), f) && SaveParams(f) != map[]
  {
    SavedSliders(f);
    SavedChecks(f);
    SavedColors(f);
    assert "mode" in SaveParams(f);
  }

  lemma {:induction false} SavedByte(m: Object, k: string, o: Option<int>)
    requires Get(m, k) == OptInt(o)
    ensures Planner.IntField(m, k) == Ok(o)
    ensures IsByte(o) ==> ByteField(m, k) == Ok(o)
  {
  }

  lemma {:induction false} SavedColor(m: Object, k: string, o: Option<ControlBody.Rgb>)
    requires Get(m, k) == OptRgb(o)
    ensures Planner.ColorField(m, k) == Ok(o)
    ensures IsByteRgb(o) ==> ColorParam(m, k) == Ok(o)
  {
  }

  lemma {:induction false} SavedCheck(m: Object, k: string, o: Option<bool>)
    requires Get(m, k) == OptBool(o)
    ensures Planner.CheckField(m, k) == o
  {
  }

  lemma {:induction false} SavedInts(m: Object, f: ControlBody.Fields)
    requires Saves(m, f)
    ensures Planner.ControlFields(m) == Ok(f)
  {
    SavedByte(m, "brightness", f.brightness); SavedByte(m, "mode", f.mode); SavedByte(m, "speed", f.speed);
    SavedByte(m, "intensity", f.intensity); SavedByte(m, "custom1", f.custom1); SavedByte(m, "custom2", f.custom2);
    SavedByte(m, "custom3", f.custom3); SavedByte(m, "palette", f.palette);
    SavedCheck(m, "check1", f.check1); SavedCheck(m, "check2", f.check2); SavedCheck(m, "check3", f.check3);
    SavedColor(m, "color1", f.color1); SavedColor(m, "color2", f.color2); SavedColor(m, "color3", f.color3);
  }

  lemma {:induction false} SavedBytes(m: Object, f: ControlBody.Fields)
    requires Saves(m, f) && ByteFields(f)
    ensures ParamsOf(m) == Ok(f)
  {
    SavedByte(m, "brightness", f.brightness); SavedByte(m, "mode", f.mode); SavedByte(m, "speed", f.speed);
    SavedByte(m, "intensity", f.intensity); SavedByte(m, "custom1", f.custom1); SavedByte(m, "custom2", f.custom2);
    SavedByte(m, "custom3", f.custom3); SavedByte(m, "palette", f.palette);
    SavedCheck(m, "check1", f.check1); SavedCheck(m, "check2", f.check2); SavedCheck(m, "check3", f.check3);
    SavedColor(m, "color1", f.color1); SavedColor(m, "color2", f.color2); SavedColor(m, "color3", f.color3);
  }

  /** A stored preset can always be sent: the fields that reach the packet builder are the stored ones, and
      a receiver decodes them. */
  lemma {:induction false} StoredPresetReachesReceiver(f: ControlBody.Fields, groupId: int, flags: int)
    ensures Planner.ControlFields(SaveParams(f)) == Ok(f)
    ensures ControlBody.Decode(ControlBody.Body(groupId, flags, f))
         == Some(ControlBody.Message(LowByte(groupId), LowByte(flags), ControlBody.Masked(f)))
  {
    SavedKeys(f);
    SavedInts(SaveParams(f), f);
    ControlBody.ControlBodyRoundTrip(groupId, flags, f);
  }

  lemma {:induction false} SavedParamsLoad(f: ControlBody.Fields)
    requires ByteFields(f)
    ensures CanonPresetParams(JObj(SaveParams(f))) == Ok(f)
  {
    SavedKeys(f);
    SavedBytes(SaveParams(f), f);
  }

  lemma {:induction false} SavedFlagsLoad(flags: map<string, bool>)
    requires flags.Keys == set k | k in FLAG_KEYS
    ensures CanonPresetFlags(FlagsJson(flags)) == Ok(flags)
  {
    var m := FlagsJson(flags).m;
    assert FLAG_KEYS[0] in FLAG_KEYS && FLAG_KEYS[0] in flags && FLAG_KEYS[0] in m;
    assert CanonPresetFlags(FlagsJson(flags)).value == flags;
  }

  /** Whatever the validator accepts is canonical, and a canonical preset survives a write and a load. */
  lemma {:induction false} PresetsComeBack(i: Item<PresetPayload>)
    requires CanonicalPreset(i.payload) && Truthy(i.created) && Truthy(i.updated)
    ensures ComesBack(PresetCodec(), i)
  {
    var m := EncodeItem(PresetCodec(), i).m;
    assert Get(m, "params") == JObj(SaveParams(i.payload.params)) && Get(m, "flags") == FlagsJson(i.payload.flags);
    SavedParamsLoad(i.payload.params);
    SavedFlagsLoad(i.payload.flags);
    assert PresetCodec().load(m) == LoadPreset(m);
  }

  lemma {:induction false} ByteFieldSound(m: Object, k: string)
    ensures ByteField(m, k).Ok? ==> IsByte(ByteField(m, k).value)
  {
  }

  lemma {:induction false} ColorParamSound(m: Object, k: string)
    ensures ColorParam(m, k).Ok? ==> IsByteRgb(ColorParam(m, k).value)
  {
  }

  lemma {:induction false} ParamsSound(m: Object)
    ensures ParamsOf(m).Ok? ==> ByteFields(ParamsOf(m).value)
  {
    ByteFieldSound(m, "mode"); ByteFieldSound(m, "speed"); ByteFieldSound(m, "intensity"); ByteFieldSound(m, "brightness");
    ByteFieldSound(m, "custom1"); ByteFieldSound(m, "custom2"); ByteFieldSound(m, "custom3"); ByteFieldSound(m, "palette");
    ColorParamSound(m, "color1"); ColorParamSound(m, "color2"); ColorParamSound(m, "color3");
  }

  lemma {:induction false} AcceptedPresetIsCanonical(params: Json, flags: Json)
    ensures PresetPayloadOf(params, flags).Ok? ==> CanonicalPreset(PresetPayloadOf(params, flags).value)
  {
    ParamsSound(map[]);
    if params.JObj? {
      ParamsSound(params.m);
    }
    AcceptedPreset(CanonPresetParams(params), flags);
  }

  lemma {:induction false} AcceptedPreset(p: Result<ControlBody.Fields>, flags: Json)
    requires p.Ok? ==> ByteFields(p.value)
    ensures p.Ok? && CanonPresetFlags(flags).Ok? ==> CanonicalPreset(PresetPayload(p.value, CanonPresetFlags(flags).value))
  {
  }

  /** Validating a stored preset again changes nothing. */
  lemma {:induction false} PresetIdempotent(params: Json, flags: Json)
    requires PresetPayloadOf(params, flags).Ok?
    ensures var p := PresetPayloadOf(params, flags).value;
            PresetPayloadOf(JObj(SaveParams(p.params)), FlagsJson(p.flags)) == Ok(p)
  {
    AcceptedPresetIsCanonical(params, flags);
    var p := PresetPayloadOf(params, flags).value;
    SavedParamsLoad(p.params);
    SavedFlagsLoad(p.flags);
  }

  // ---- calls -----------------------------------------------------------------------------------

  datatype PresetEntry = PresetEntry(slug: string, name: string, created: Json, updated: Json, params: Json, flags: Json)

  datatype PresetCall =
    | CreatePreset(slug: string, name: string, params: Json, flags: Json)
    | UpdatePreset(key: string, newLabel: Option<string>, newParams: Option<Json>, newFlags: Option<Json>)
    | DeletePreset(victim: string)
    | ReplacePresets(entries: seq<PresetEntry>)
    | RestartService

  /** Only the given parts are validated and replaced. */
  function EditPreset(params: Option<Json>, flags: Option<Json>): PresetPayload -> Result<PresetPayload> {
    (p: PresetPayload) =>
      var newParams := if params.Some? then CanonPresetParams(params.value) else Ok(p.params);
      var newFlags := if flags.Some? then CanonPresetFlags(flags.value) else Ok(p.flags);
      if newParams.Err? then Err(newParams.error)
      else if newFlags.Err? then Err(newFlags.error)
      else Ok(PresetPayload(newParams.value, newFlags.value))
  }

  function ImportsOf(entries: seq<PresetEntry>, now: Json): seq<Import<PresetPayload>> {
    if entries == [] then []
    else
      var e := entries[0];
      [Import(e.slug, e.name, Or(e.created, now), Or(e.updated, now), PresetPayloadOf(e.params, e.flags))]
      + ImportsOf(entries[1..], now)
  }

  function OpOf(call: PresetCall, now: Json): Op<PresetPayload> {
    match call
    case CreatePreset(slug, name, params, flags) => Create(slug, name, PresetPayloadOf(params, flags))
    case UpdatePreset(key, newLabel, params, flags) => Update(key, newLabel, EditPreset(params, flags))
    case DeletePreset(key) => Delete(key)
    case ReplacePresets(entries) => ReplaceAll(ImportsOf(entries, now))
    case RestartService => Restart
  }

  /** Duplicating is creating with the stored values of the source. */
  function DuplicateCall(src: Item<PresetPayload>, slug: string, name: string): PresetCall {
    CreatePreset(slug, name, JObj(SaveParams(src.payload.params)), FlagsJson(src.payload.flags))
  }

  lemma {:induction false} DuplicateKeepsPreset(src: Item<PresetPayload>, slug: string, name: string, now: Json)
    requires CanonicalPreset(src.payload)
    ensures OpOf(DuplicateCall(src, slug, name), now) == Create(slug, name, Ok(src.payload))
  {
    SavedParamsLoad(src.payload.params);
    SavedFlagsLoad(src.payload.flags);
  }

  ghost predicate GoodPreset(i: Item<PresetPayload>) {
    Truthy(i.created) && Truthy(i.updated) && CanonicalPreset(i.payload)
  }

  ghost predicate AllGood(items: seq<Item<PresetPayload>>) {
    forall k :: 0 <= k < |items| ==> GoodPreset(items[k])
  }

  /** A preset survives a write and a load exactly when it is canonical and has its timestamps. */
  lemma {:induction false} PresetComesBackIff(i: Item<PresetPayload>)
    ensures ComesBack(PresetCodec(), i) <==> GoodPreset(i)
  {
    if GoodPreset(i) {
      PresetsComeBack(i);
    } else if Truthy(i.created) && Truthy(i.updated) {
      var m := EncodeItem(PresetCodec(), i).m;
      LoadedPresetIsCanonical(m);
    }
  }

  lemma {:induction false} LoadedPresetIsCanonical(m: Object)
    ensures PresetCodec().load(m).Ok? ==> CanonicalPreset(PresetCodec().load(m).value)
  {
    AcceptedPresetIsCanonical(Get(m, "params"), Get(m, "flags"));
  }

  lemma {:induction false} AllComeBackIff(items: seq<Item<PresetPayload>>)
    ensures AllComeBack(PresetCodec(), items) <==> AllGood(items)
  {
    forall k | 0 <= k < |items|
      ensures ComesBack(PresetCodec(), items[k]) <==> GoodPreset(items[k])
    {
      PresetComesBackIff(items[k]);
    }
  }

  lemma {:induction false} EditKeepsCanonical(params: Option<Json>, flags: Option<Json>, p: PresetPayload)
    requires CanonicalPreset(p)
    ensures EditPreset(params, flags)(p).Ok? ==> CanonicalPreset(EditPreset(params, flags)(p).value)
  {
    if params.Some? {
      ParamsSound(map[]);
      if params.value.JObj? {
        ParamsSound(params.value.m);
      }
    }
  }

  lemma {:induction false} CreatedPresetGood(l: Loaded<PresetPayload>, slug: string, name: string,
                                             payload: Result<PresetPayload>, now: Json)
    requires AllGood(l.items) && Truthy(now) && (payload.Ok? ==> CanonicalPreset(payload.value))
    ensures AllGood(CreateEffect(PresetCodec(), l, slug, name, payload, now).items)
  {
  }

  lemma {:induction false} UpdatedPresetGood(l: Loaded<PresetPayload>, key: string, newLabel: Option<string>,
                                             edit: PresetPayload -> Result<PresetPayload>, now: Json)
    requires AllGood(l.items) && Truthy(now)
    requires forall p: PresetPayload :: CanonicalPreset(p) && edit(p).Ok? ==> CanonicalPreset(edit(p).value)
    ensures AllGood(UpdateEffect(l, key, newLabel, edit, now).items)
  {
    var at := FirstWithKey(l.items, key);
    if at.Some? {
      assert GoodPreset(l.items[at.value]);
    }
  }

  lemma {:induction false} KeptPresets(items: seq<Item<PresetPayload>>, key: string)
    requires AllGood(items)
    ensures AllGood(WithoutKey(items, key))
  {
    forall k | 0 <= k < |WithoutKey(items, key)|
      ensures GoodPreset(WithoutKey(items, key)[k])
    {
      WithoutKeySource(items, key, k);
    }
  }

  ghost predicate GoodImport(i: Import<PresetPayload>) {
    Truthy(i.created) && Truthy(i.updated) && (i.payload.Ok? ==> CanonicalPreset(i.payload.value))
  }

  lemma {:induction false} ImportsAreGood(entries: seq<PresetEntry>, now: Json)
    requires Truthy(now)
    ensures forall k :: 0 <= k < |ImportsOf(entries, now)| ==> GoodImport(ImportsOf(entries, now)[k])
  {
    if entries != [] {
      AcceptedPresetIsCanonical(entries[0].params, entries[0].flags);
      ImportsAreGood(entries[1..], now);
    }
  }

  lemma {:induction false} ImportedPresetsGood(imports: seq<Import<PresetPayload>>, seen: set<string>, next: int)
    requires forall k :: 0 <= k < |imports| ==> GoodImport(imports[k])
    ensures ImportItems(imports, seen, next).0.Ok? ==> AllGood(ImportItems(imports, seen, next).0.value)
    decreases |imports|
  {
    if imports != [] {
      assert GoodImport(imports[0]);
      var key := if imports[0].slug in seen then UniqueKey(imports[0].slug, seen) else Ok(imports[0].slug);
      if key.Ok? {
        ImportedPresetsGood(imports[1..], seen + {key.value}, next + 1);
      }
    }
  }

  /** Every call stores canonical presets only. */
  lemma {:induction false} PresetCallKeepsGood(l: Loaded<PresetPayload>, call: PresetCall, now: Json)
    requires AllGood(l.items) && Truthy(now) && !call.RestartService?
    ensures Apply(PresetCodec(), l, OpOf(call, now), now).wrote ==> AllGood(Apply(PresetCodec(), l, OpOf(call, now), now).items)
  {
    match call
    case CreatePreset(slug, name, params, flags) =>
      AcceptedPresetIsCanonical(params, flags);
      CreatedPresetGood(l, slug, name, PresetPayloadOf(params, flags), now);
    case UpdatePreset(key, newLabel, params, flags) =>
      var edit := EditPreset(params, flags);
      forall p: PresetPayload
        ensures CanonicalPreset(p) && edit(p).Ok? ==> CanonicalPreset(edit(p).value)
      {
        if CanonicalPreset(p) {
          EditKeepsCanonical(params, flags, p);
        }
      }
      UpdatedPresetGood(l, key, newLabel, edit, now);
    case DeletePreset(key) => KeptPresets(l.items, key);
    case ReplacePresets(entries) =>
      ImportsAreGood(entries, now);
      ImportedPresetsGood(ImportsOf(entries, now), {}, l.next);
  }

  // ---- the service over a run of calls ----------------------------------------------------------

  /** A duplicate is looked up before it is created; its label and the slug of the label come from the source. */
  datatype ServiceCall = Direct(call: PresetCall) | Duplicate(source: string, newLabel: Option<string>, slugify: string -> string)

  /** What a call amounts to while these presets are stored; `None` is a duplicate without a source. */
  function Resolve(items: seq<Item<PresetPayload>>, call: ServiceCall): Option<PresetCall> {
    match call
    case Direct(c) => Some(c)
    case Duplicate(source, newLabel, slugify) =>
      var at := FirstWithKey(items, source);
      if at.None? then None
      else
        var name := CopyLabel(items[at.value].name, newLabel);
        Some(DuplicateCall(items[at.value], slugify(name), name))
  }

  /** One call against disk and cache. A duplicate opens the store to find its source. */
  function ServiceStep(m: Machine<PresetPayload>, call: ServiceCall, now: Json): Machine<PresetPayload> {
    match call
    case Direct(c) => Step(PresetCodec(), m, OpOf(c, now), now).0
    case Duplicate(_, _, _) =>
      var o := Open(PresetCodec(), m, now);
      if o.Err? then m
      else
        var r := Resolve(o.value.cache.value, call);
        if r.None? then o.value else Step(PresetCodec(), o.value, OpOf(r.value, now), now).0
  }

  datatype TimedCall = TimedCall(call: ServiceCall, now: Json)

  function RunService(m: Machine<PresetPayload>, calls: seq<TimedCall>): Machine<PresetPayload>
    decreases |calls|
  {
    if calls == [] then m else RunService(ServiceStep(m, calls[0].call, calls[0].now), calls[1..])
  }

  lemma {:induction false} ServiceStepMirrors(m: Machine<PresetPayload>, items: seq<Item<PresetPayload>>, next: int,
                                              call: ServiceCall, now: Json)
      returns (items': seq<Item<PresetPayload>>, next': int)
    requires Mirrors(PresetCodec(), m, items, next) && Truthy(now)
    ensures Mirrors(PresetCodec(), ServiceStep(m, call, now), items', next') && next <= next'
  {
    items', next' := items, next;
    AllComeBackIff(items);
    var r := Resolve(items, call);
    if r.Some? {
      PresetWritesGood(items, next, r.value, now);
    }
    match call
    case Direct(c) => items', next' := StepMirrors(PresetCodec(), m, items, next, OpOf(c, now), now);
    case Duplicate(_, _, _) =>
      OpenMirrors(PresetCodec(), m, items, next, now);
      if r.Some? {
        items', next' := StepMirrors(PresetCodec(), Open(PresetCodec(), m, now).value, items, next, OpOf(r.value, now), now);
      }
  }

  /** After any run of create, update, delete, duplicate, bulk replace and restart, valid or not, the preset file loads
      to definite canonical presets, a filled cache holds exactly those, and the file's next id has not gone down. */
  lemma {:induction false} PresetsStayMirrored(m: Machine<PresetPayload>, items: seq<Item<PresetPayload>>, next: int,
                                               calls: seq<TimedCall>)
      returns (items': seq<Item<PresetPayload>>, next': int)
    requires Mirrors(PresetCodec(), m, items, next) && forall k :: 0 <= k < |calls| ==> Truthy(calls[k].now)
    ensures Mirrors(PresetCodec(), RunService(m, calls), items', next') && AllGood(items') && next <= next'
    decreases |calls|
  {
    AllComeBackIff(items);
    items', next' := items, next;
    if calls != [] {
      items', next' := ServiceStepMirrors(m, items, next, calls[0].call, calls[0].now);
      items', next' := PresetsStayMirrored(ServiceStep(m, calls[0].call, calls[0].now), items', next', calls[1..]);
    }
  }

  lemma {:induction false} PresetWritesGood(items: seq<Item<PresetPayload>>, next: int, call: PresetCall, now: Json)
    requires AllGood(items) && Truthy(now)
    ensures WritesGood(PresetCodec(), items, next, OpOf(call, now), now)
  {
    if !call.RestartService? {
      var op := OpOf(call, now);
      forall n: int | n >= next
        ensures Apply(PresetCodec(), Loaded(items, n), op, now).wrote ==>
                  AllComeBack(PresetCodec(), Apply(PresetCodec(), Loaded(items, n), op, now).items)
      {
        PresetCallKeepsGood(Loaded(items, n), call, now);
        AllComeBackIff(Apply(PresetCodec(), Loaded(items, n), op, now).items);
      }
    }
  }

  lemma {:induction false} NoFileMirrorsNothing()
    ensures Mirrors(PresetCodec(), Machine(Absent, None, None), [], 0)
  {
  }

  /** A run may start from a file, hand-edited ones included, exactly when its counter is not negative and either each
      entry that is loaded carries its creation time or the file is of the older schema, which opening it rewrites. */
  lemma {:induction false} OpenedFileMirrorsIff(f: File, now: Json)
    requires Truthy(now) && Load(PresetCodec(), f, now).Ok?
    ensures var o, l := Open(PresetCodec(), Machine(f, None, None), now), Load(PresetCodec(), f, now).value;
            var fit := FileNext(f) >= 0 && (Stale(PresetCodec(), f) || Stamped(EntriesOf(f)));
            && o.Ok?
            && (fit ==> Mirrors(PresetCodec(), o.value, l.items, l.next))
            && forall items, next :: Mirrors(PresetCodec(), o.value, items, next) ==> fit
  {
    forall m: Object
      ensures PresetCodec().load(m).Ok? ==> CanonicalPreset(PresetCodec().load(m).value)
    {
      LoadedPresetIsCanonical(m);
    }
    LoadedItemsGood(PresetCodec(), EntriesOf(f), 0, {}, now, p => CanonicalPreset(p));
    AllComeBackIff(Load(PresetCodec(), f, now).value.items);
    OpenedMirrorsIff(PresetCodec(), f, now);
  }

  // ---- when memory and file agree on the next id ---------------------------------------------

  /** Some entry of a bulk replace is invalid, or no key can be derived for it. */
  predicate EntriesRefused(entries: seq<PresetEntry>, seen: set<string>)
    decreases |entries|
  {
    entries != []
    && var e := entries[0];
       var key := if e.slug in seen then UniqueKey(e.slug, seen) else Ok(e.slug);
       key.Err? || PresetPayloadOf(e.params, e.flags).Err? || EntriesRefused(entries[1..], seen + {key.value})
  }

  /** A create with a label and a free key whose values are invalid, or a bulk replace that is refused. */
  predicate ClaimsLate(call: PresetCall, items: seq<Item<PresetPayload>>) {
    match call
    case CreatePreset(slug, name, params, flags) =>
      name != "" && UniqueKey(slug, KeysOf(items)).Ok? && PresetPayloadOf(params, flags).Err?
    case ReplacePresets(entries) => EntriesRefused(entries, {})
    case _ => false
  }

  lemma {:induction false} EntriesRefusedAgree(entries: seq<PresetEntry>, seen: set<string>, now: Json)
    ensures ImportsRefused(ImportsOf(entries, now), seen) <==> EntriesRefused(entries, seen)
    decreases |entries|
  {
    if entries != [] {
      var e := entries[0];
      var key := if e.slug in seen then UniqueKey(e.slug, seen) else Ok(e.slug);
      assert ImportsOf(entries, now)[1..] == ImportsOf(entries[1..], now);
      if key.Ok? {
        EntriesRefusedAgree(entries[1..], seen + {key.value}, now);
      }
    }
  }

  /** With slugs that differ, a bulk replace is refused exactly when one of its entries is invalid. */
  lemma {:induction false} RefusedIffInvalid(entries: seq<PresetEntry>, seen: set<string>)
    requires forall i, j :: 0 <= i < j < |entries| ==> entries[i].slug != entries[j].slug
    requires forall i :: 0 <= i < |entries| ==> entries[i].slug !in seen
    ensures EntriesRefused(entries, seen)
            <==> exists k :: 0 <= k < |entries| && PresetPayloadOf(entries[k].params, entries[k].flags).Err?
    decreases |entries|
  {
    if entries != [] {
      var rest := entries[1..];
      assert forall i :: 0 <= i < |rest| ==> rest[i] == entries[i + 1];
      forall i | 0 <= i < |rest|
        ensures rest[i].slug !in seen + {entries[0].slug}
      {
        assert entries[0].slug != entries[i + 1].slug;
      }
      RefusedIffInvalid(rest, seen + {entries[0].slug});
      if k :| 0 <= k < |entries| && PresetPayloadOf(entries[k].params, entries[k].flags).Err? {
        assert k > 0 ==> rest[k - 1] == entries[k];
      }
    }
  }

  /** Exactly when the next id in memory and the next id in the file agree after a call: unless the call is a create
      with a label and a free key and invalid values, or a refused bulk replace. */
  lemma {:induction false} PresetCountersAgreeIff(m: Machine<PresetPayload>, items: seq<Item<PresetPayload>>, next: int,
                                                  call: PresetCall, now: Json)
    requires Mirrors(PresetCodec(), m, items, next) && InStep(m) && Truthy(now)
    ensures InStep(Step(PresetCodec(), m, OpOf(call, now), now).0) <==> !ClaimsLate(call, items)
  {
    AllComeBackIff(items);
    PresetWritesGood(items, next, call, now);
    CountersAgreeIff(PresetCodec(), m, items, next, OpOf(call, now), now);
    if call.ReplacePresets? {
      EntriesRefusedAgree(call.entries, {}, now);
    }
  }

  /** A duplicate never does that: what it creates was stored, so it is valid. */
  lemma {:induction false} DuplicateKeepsCounters(m: Machine<PresetPayload>, items: seq<Item<PresetPayload>>, next: int,
                                                  call: ServiceCall, now: Json)
    requires Mirrors(PresetCodec(), m, items, next) && InStep(m) && Truthy(now) && call.Duplicate?
    ensures InStep(ServiceStep(m, call, now))
  {
    AllComeBackIff(items);
    OpenMirrors(PresetCodec(), m, items, next, now);
    var o, at := Open(PresetCodec(), m, now).value, FirstWithKey(items, call.source);
    assert Load(PresetCodec(), m.file, now) == Ok(Loaded(items, next));
    assert InStep(o);
    if at.Some? {
      var r := Resolve(items, call).value;
      assert GoodPreset(items[at.value]);
      DuplicateKeepsPreset(items[at.value], r.slug, r.name, now);
      PresetCountersAgreeIff(o, items, next, r, now);
    }
  }

  /** One such input: a create with invalid values. Its id is claimed, the file knows nothing of it. */
  lemma {:induction false} FailedCreateClaimsId(m: Machine<PresetPayload>, items: seq<Item<PresetPayload>>, next: int,
                                                slug: string, name: string, params: Json, flags: Json, now: Json)
    requires Mirrors(PresetCodec(), m, items, next) && InStep(m)
    requires name != "" && UniqueKey(slug, KeysOf(items)).Ok? && PresetPayloadOf(params, flags).Err?
    ensures var (m', r) := Step(PresetCodec(), m, OpOf(CreatePreset(slug, name, params, flags), now), now);
            && r == Report([], Some(PresetPayloadOf(params, flags).error))
            && m' == Machine(m.file, Some(items), Some(next + 1))
  {
    LateRefusal(PresetCodec(), m, items, next, slug, name, PresetPayloadOf(params, flags), now);
  }

  /** The other: a bulk replace whose first invalid entry is the k-th. It has claimed k + 1 ids and writes nothing. */
  lemma {:induction false} FailedReplaceClaimsIds(m: Machine<PresetPayload>, items: seq<Item<PresetPayload>>, next: int,
                                                  entries: seq<PresetEntry>, k: nat, now: Json)
    requires Mirrors(PresetCodec(), m, items, next) && InStep(m) && k < |entries|
    requires forall i, j :: 0 <= i < j < |entries| ==> entries[i].slug != entries[j].slug
    requires forall i :: 0 <= i < k ==> PresetPayloadOf(entries[i].params, entries[i].flags).Ok?
    requires PresetPayloadOf(entries[k].params, entries[k].flags).Err?
    ensures var (m', r) := Step(PresetCodec(), m, OpOf(ReplacePresets(entries), now), now);
            && r == Report([], Some(PresetPayloadOf(entries[k].params, entries[k].flags).error))
            && m' == Machine(m.file, Some(items), Some(next + k + 1))
  {
    var imports := ImportsOf(entries, now);
    ImportsAt(entries, now);
    assert forall i, j :: 0 <= i < j < |imports| ==> imports[i].slug != imports[j].slug;
    assert imports[k].payload == PresetPayloadOf(entries[k].params, entries[k].flags);
    LateReplacement(PresetCodec(), m, items, next, imports, k, now);
  }

  lemma {:induction false} ImportsAt(entries: seq<PresetEntry>, now: Json)
    ensures |ImportsOf(entries, now)| == |entries|
    ensures forall i :: 0 <= i < |entries| ==>
              && ImportsOf(entries, now)[i].slug == entries[i].slug
              && ImportsOf(entries, now)[i].payload == PresetPayloadOf(entries[i].params, entries[i].flags)
  {
    if entries != [] {
      ImportsAt(entries[1..], now);
    }
  }
}
