/** The scene store: what a scene's payload is, which calls change it, and when cache and disk agree. */
module SceneStore {
  import opened Basics
  import opened JsonValues
  import opened SceneActions
  import opened Canonicalisation
  import opened SceneEdits
  import opened VersionedStore
  import opened StoreProofs
  import Renumbering

  datatype ScenePayload = ScenePayload(actions: seq<Action>, stopOnError: bool)

  function LowerChar(c: char): char {
    if 'A' <= c <= 'Z' then ((c - 'A') as int + 'a' as int) as char else c
  }

  function Lower(s: string): string {
    if s == "" then "" else [LowerChar(s[0])] + Lower(s[1..])
  }

  function CoerceBool(j: Json, default: bool): bool {
    match j
    case JBool(b) => b
    case JInt(i) => i != 0
    case JStr(s) =>
      var t := Lower(Strip(s));
      if t == "true" || t == "1" || t == "yes" || t == "on" then true
      else if t == "false" || t == "0" || t == "no" || t == "off" then false
      else default
    case _ => default
  }

  /** An action list that fails validation is dropped; any other exception stops the load. */
  function LoadScene(m: Object): Result<ScenePayload> {
    var a := CanonActions(Get(m, "actions"));
    if a.Err? && a.error != ValueError then Err(a.error)
    else Ok(ScenePayload(if a.Err? then [] else a.value, CoerceBool(Get(m, "stop_on_error"), true)))
  }

  function SaveScene(p: ScenePayload): Object {
    map["actions" := JArr(Map(EncodeAction, p.actions)), "stop_on_error" := JBool(p.stopOnError)]
  }

  function SceneCodec(): Codec<ScenePayload> {
    Codec(LoadScene, SaveScene, 1, false, false)
  }

  ghost predicate CanonicalScene(p: ScenePayload) {
    CanonicalList(p.actions) && |p.actions| <= MAX_ACTIONS_PER_SCENE
  }

  /** A scene survives a write and a load exactly when its actions are canonical. */
  lemma {:induction false} SceneComesBackIff(i: Item<ScenePayload>)
    requires Truthy(i.created) && Truthy(i.updated)
    ensures ComesBack(SceneCodec(), i) <==> CanonicalScene(i.payload)
  {
    SavedScene(i);
    LoadsBackIff(EncodeItem(SceneCodec(), i).m, i.payload);
  }

  lemma {:induction false} SavedScene(i: Item<ScenePayload>)
    ensures var m := EncodeItem(SceneCodec(), i).m;
            && Get(m, "actions") == JArr(Map(EncodeAction, i.payload.actions))
            && Get(m, "stop_on_error") == JBool(i.payload.stopOnError)
            && SceneCodec().load(m) == LoadScene(m)
  {
  }

  lemma {:induction false} LoadsBackIff(m: Object, p: ScenePayload)
    requires Get(m, "actions") == JArr(Map(EncodeAction, p.actions)) && Get(m, "stop_on_error") == JBool(p.stopOnError)
    ensures LoadScene(m) == Ok(p) <==> CanonicalScene(p)
  {
    ActionsReloadIffCanonical(p.actions);
    if !CanonicalScene(p) && CanonActions(Get(m, "actions")).Err? {
      assert p.actions != [];
    }
  }

  // ---- calls ------------------------------------------------------------------------

  /** The save-time collapse; without a group lookup it does nothing. */
  function Collapsed(actions: seq<Action>, known: Option<seq<int>>): seq<Action> {
    if known.None? then actions else CollapseActions(actions, Members(known.value))
  }

  function NewActions(raw: Json, known: Option<seq<int>>): Result<seq<Action>> {
    var a :- CanonActions(raw);
    Ok(Collapsed(a, known))
  }

  datatype SceneCall =
    | CreateScene(slug: string, name: string, raw: Json, known: Option<seq<int>>, stop: bool)
    | UpdateScene(key: string, newLabel: Option<string>, rawActions: Option<Json>, known: Option<seq<int>>, newStop: Option<bool>)
    | DeleteScene(victim: string)
    | RenumberGroups(deleted: int)
    | RestartService

  function CreatePayload(raw: Json, known: Option<seq<int>>, stop: bool): Result<ScenePayload> {
    var a :- NewActions(raw, known);
    Ok(ScenePayload(a, stop))
  }

  function UpdateEdit(actions: Option<seq<Action>>, stop: Option<bool>): ScenePayload -> Result<ScenePayload> {
    (p: ScenePayload) =>
      Ok(ScenePayload(if actions.Some? then actions.value else p.actions, if stop.Some? then stop.value else p.stopOnError))
  }

  function RenumberTouched(deleted: int): ScenePayload -> bool {
    (p: ScenePayload) => RenumberAll(p.actions, deleted) != p.actions
  }

  /** The rewritten actions are validated again before they are stored. */
  function RenumberChange(deleted: int): ScenePayload -> Result<ScenePayload> {
    (p: ScenePayload) =>
      var a := CanonActions(JArr(Map(EncodeAction, RenumberAll(p.actions, deleted))));
      if a.Err? then Err(a.error) else Ok(ScenePayload(a.value, p.stopOnError))
  }

  /** The store operation a call amounts to; an update with invalid actions raises before it touches
      anything. */
  function OpOf(call: SceneCall): Option<Op<ScenePayload>> {
    match call
    case CreateScene(slug, name, raw, known, stop) => Some(Create(slug, name, CreatePayload(raw, known, stop)))
    case UpdateScene(key, newLabel, raw, known, stop) =>
      if raw.None? then Some(Update(key, newLabel, UpdateEdit(None, stop)))
      else
        var a := NewActions(raw.value, known);
        if a.Err? then None else Some(Update(key, newLabel, UpdateEdit(Some(a.value), stop)))
    case DeleteScene(key) => Some(Delete(key))
    case RenumberGroups(deleted) => Some(Rewrite(RenumberTouched(deleted), RenumberChange(deleted)))
    case RestartService => Some(Restart)
  }

  /** Duplicating is creating with the stored actions of the source. */
  function DuplicateCall(src: Item<ScenePayload>, slug: string, name: string, known: Option<seq<int>>): SceneCall {
    CreateScene(slug, name, JArr(Map(EncodeAction, src.payload.actions)), known, src.payload.stopOnError)
  }

  /** One of the actions is an explicit container that covers every known group. */
  predicate AnySpoilt(actions: seq<Action>, known: Option<seq<int>>) {
    known.Some? && exists k :: 0 <= k < |actions| && CollapsesExplicit(actions[k], Members(known.value))
  }

  function RawActions(call: SceneCall): Option<Json> {
    if call.CreateScene? then Some(call.raw) else if call.UpdateScene? then call.rawActions else None
  }

  predicate SpoilsActions(raw: Json, known: Option<seq<int>>) {
    CanonActions(raw).Ok? && AnySpoilt(CanonActions(raw).value, known)
  }

  /** The new actions a call brings in hold an explicit container that covers every known group. */
  predicate Spoils(call: SceneCall) {
    RawActions(call).Some? && SpoilsActions(RawActions(call).value, call.known)
  }

  lemma {:induction false} CollapsedCanonicalIff(actions: seq<Action>, known: Option<seq<int>>)
    requires CanonicalList(actions)
    ensures |Collapsed(actions, known)| == |actions|
    ensures CanonicalList(Collapsed(actions, known)) <==> !AnySpoilt(actions, known)
  {
    if known.Some? {
      var c := Collapsed(actions, known);
      forall k | 0 <= k < |actions|
        ensures Canonical(c[k]) <==> !CollapsesExplicit(actions[k], Members(known.value))
      {
        CollapseKeepsCanonical(actions[k], Members(known.value));
      }
    }
  }

  /** What a create or update stores is canonical unless an explicit container was collapsed. */
  lemma {:induction false} NewActionsCanonicalIff(raw: Json, known: Option<seq<int>>)
    ensures NewActions(raw, known).Ok? ==>
              |NewActions(raw, known).value| <= MAX_ACTIONS_PER_SCENE
              && (CanonicalList(NewActions(raw, known).value) <==> !SpoilsActions(raw, known))
  {
    CanonActionsSound(raw);
    if CanonActions(raw).Ok? {
      CollapsedCanonicalIff(CanonActions(raw).value, known);
    }
  }

  // ---- cache and disk --------------------------------------------------------------------

  ghost predicate GoodScene(i: Item<ScenePayload>) {
    Truthy(i.created) && Truthy(i.updated) && CanonicalScene(i.payload)
  }

  ghost predicate AllGood(items: seq<Item<ScenePayload>>) {
    forall k :: 0 <= k < |items| ==> GoodScene(items[k])
  }

  ghost predicate GoodScenes(l: Loaded<ScenePayload>) {
    Sound(l.items, l.next) && l.next >= 0 && AllGood(l.items)
  }

  lemma {:induction false} GoodScenesAreGood(l: Loaded<ScenePayload>)
    requires GoodScenes(l)
    ensures Good(SceneCodec(), l)
  {
    forall k | 0 <= k < |l.items|
      ensures ComesBack(SceneCodec(), l.items[k])
    {
      assert GoodScene(l.items[k]);
      SceneComesBackIff(l.items[k]);
    }
  }

  lemma {:induction false} RenumberedPayload(p: ScenePayload, deleted: int)
    ensures var r := RenumberChange(deleted)(p);
            r.Ok? ==> CanonicalScene(r.value)
  {
    CanonActionsSound(JArr(Map(EncodeAction, RenumberAll(p.actions, deleted))));
  }

  lemma {:induction false} RewrittenScenes(items: seq<Item<ScenePayload>>, touched: ScenePayload -> bool,
                                           change: ScenePayload -> Result<ScenePayload>, now: Json)
    requires Truthy(now) && AllGood(items)
    requires forall p: ScenePayload :: change(p).Ok? ==> CanonicalScene(change(p).value)
    ensures var r := RewriteItems(items, touched, change, now);
            r.Ok? ==> AllGood(r.value)
  {
    if items != [] {
      assert GoodScene(items[0]);
      assert AllGood(items[1..]);
      RewrittenScenes(items[1..], touched, change, now);
    }
  }

  lemma {:induction false} KeptScenes(items: seq<Item<ScenePayload>>, key: string)
    requires AllGood(items)
    ensures AllGood(WithoutKey(items, key))
  {
    forall k | 0 <= k < |WithoutKey(items, key)|
      ensures GoodScene(WithoutKey(items, key)[k])
    {
      WithoutKeySource(items, key, k);
    }
  }

  lemma {:induction false} CreatedGood(l: Loaded<ScenePayload>, slug: string, name: string, payload: Result<ScenePayload>, now: Json)
    requires AllGood(l.items) && Truthy(now)
    requires payload.Ok? ==> CanonicalScene(payload.value)
    ensures var e := CreateEffect(SceneCodec(), l, slug, name, payload, now);
            AllGood(e.items) && (e.wrote || e.next == l.next)
  {
  }

  lemma {:induction false} UpdatedGood(l: Loaded<ScenePayload>, key: string, newLabel: Option<string>,
                                       edit: ScenePayload -> Result<ScenePayload>, now: Json)
    requires AllGood(l.items) && Truthy(now)
    requires forall p: ScenePayload :: CanonicalScene(p) && edit(p).Ok? ==> CanonicalScene(edit(p).value)
    ensures var e := UpdateEffect(l, key, newLabel, edit, now);
            AllGood(e.items) && e.next == l.next
  {
    var at := FirstWithKey(l.items, key);
    if at.Some? {
      assert GoodScene(l.items[at.value]);
    }
  }

  lemma {:induction false} RenumberedGood(l: Loaded<ScenePayload>, deleted: int, now: Json)
    requires AllGood(l.items) && Truthy(now)
    ensures var e := RewriteEffect(l, RenumberTouched(deleted), RenumberChange(deleted), now);
            AllGood(e.items) && e.next == l.next
  {
    var change := RenumberChange(deleted);
    forall p: ScenePayload
      ensures change(p).Ok? ==> CanonicalScene(change(p).value)
    {
      RenumberedPayload(p, deleted);
    }
    RewrittenScenes(l.items, RenumberTouched(deleted), change, now);
  }

  lemma {:induction false} CreatePayloadGood(raw: Json, known: Option<seq<int>>, stop: bool)
    requires !SpoilsActions(raw, known)
    ensures CreatePayload(raw, known, stop).Ok? ==> CanonicalScene(CreatePayload(raw, known, stop).value)
  {
    NewActionsCanonicalIff(raw, known);
  }

  lemma {:induction false} UpdateEditGood(actions: Option<seq<Action>>, stop: Option<bool>, p: ScenePayload)
    requires actions.Some? ==> CanonicalList(actions.value) && |actions.value| <= MAX_ACTIONS_PER_SCENE
    ensures CanonicalScene(p) && UpdateEdit(actions, stop)(p).Ok? ==> CanonicalScene(UpdateEdit(actions, stop)(p).value)
  {
  }

  lemma {:induction false} UpdateCallGood(l: Loaded<ScenePayload>, key: string, newLabel: Option<string>, raw: Option<Json>,
                                          known: Option<seq<int>>, stop: Option<bool>, actions: Option<seq<Action>>, now: Json)
    requires AllGood(l.items) && Truthy(now)
    requires raw.Some? ==> !SpoilsActions(raw.value, known) && NewActions(raw.value, known).Ok?
    requires actions == if raw.None? then None else Some(NewActions(raw.value, known).value)
    ensures var e := UpdateEffect(l, key, newLabel, UpdateEdit(actions, stop), now);
            AllGood(e.items) && e.next == l.next
  {
    if raw.Some? {
      NewActionsCanonicalIff(raw.value, known);
    }
    forall p: ScenePayload
      ensures CanonicalScene(p) && UpdateEdit(actions, stop)(p).Ok? ==> CanonicalScene(UpdateEdit(actions, stop)(p).value)
    {
      UpdateEditGood(actions, stop, p);
    }
    UpdatedGood(l, key, newLabel, UpdateEdit(actions, stop), now);
  }

  /** Every call that does not collapse an explicit container keeps the logical state good. */
  lemma {:induction false} CallKeepsGood(l: Loaded<ScenePayload>, call: SceneCall, now: Json)
    requires GoodScenes(l) && Truthy(now) && OpOf(call).Some? && !Spoils(call)
    ensures GoodScenes(Logical(SceneCodec(), l, OpOf(call).value, now))
    ensures Settles(SceneCodec(), l, OpOf(call).value, now)
  {
    var op := OpOf(call).value;
    if !op.Restart? {
      ApplyKeepsIds(SceneCodec(), l, op, now);
      CallKeepsContent(l, call, now);
    }
  }

  lemma {:induction false} CallKeepsContent(l: Loaded<ScenePayload>, call: SceneCall, now: Json)
    requires AllGood(l.items) && Truthy(now) && OpOf(call).Some? && !Spoils(call) && !call.RestartService?
    ensures var e := Apply(SceneCodec(), l, OpOf(call).value, now);
            AllGood(e.items) && (e.wrote || e.next == l.next)
  {
    match call
    case CreateScene(slug, name, raw, known, stop) =>
      CreatePayloadGood(raw, known, stop);
      CreatedGood(l, slug, name, CreatePayload(raw, known, stop), now);
    case UpdateScene(key, newLabel, raw, known, stop) =>
      UpdateCallGood(l, key, newLabel, raw, known, stop, if raw.None? then None else Some(NewActions(raw.value, known).value), now);
    case DeleteScene(key) => KeptScenes(l.items, key);
    case RenumberGroups(deleted) => RenumberedGood(l, deleted, now);
  }

  // ---- the service over a run of calls -----------------------------------------------------

  /** A duplicate is looked up before it is created; its label and the slug of the label come from the source. */
  datatype ServiceCall =
    | Direct(call: SceneCall)
    | Duplicate(source: string, newLabel: Option<string>, slugify: string -> string, known: Option<seq<int>>)

  /** What a call amounts to while these scenes are stored; `None` is a duplicate without a source. */
  function Resolve(items: seq<Item<ScenePayload>>, call: ServiceCall): Option<SceneCall> {
    match call
    case Direct(c) => Some(c)
    case Duplicate(source, newLabel, slugify, known) =>
      var at := FirstWithKey(items, source);
      if at.None? then None
      else
        var name := CopyLabel(items[at.value].name, newLabel);
        Some(DuplicateCall(items[at.value], slugify(name), name, known))
  }

  /** One call against disk and cache. A duplicate opens the store to find its source. */
  function ServiceStep(m: Machine<ScenePayload>, call: ServiceCall, now: Json): Machine<ScenePayload> {
    match call
    case Direct(c) => if OpOf(c).None? then m else Step(SceneCodec(), m, OpOf(c).value, now).0
    case Duplicate(_, _, _, _) =>
      var o := Open(SceneCodec(), m, now);
      if o.Err? then m
      else
        var r := Resolve(o.value.cache.value, call);
        if r.None? || OpOf(r.value).None? then o.value else Step(SceneCodec(), o.value, OpOf(r.value).value, now).0
  }

  /** The same call on the logical scenes alone. */
  function LogicalStep(l: Loaded<ScenePayload>, call: ServiceCall, now: Json): Loaded<ScenePayload> {
    var r := Resolve(l.items, call);
    if r.None? || OpOf(r.value).None? then l else Logical(SceneCodec(), l, OpOf(r.value).value, now)
  }

  predicate SpoilsNow(l: Loaded<ScenePayload>, call: ServiceCall) {
    var r := Resolve(l.items, call);
    r.Some? && Spoils(r.value)
  }

  datatype TimedCall = TimedCall(call: ServiceCall, now: Json)

  function RunService(m: Machine<ScenePayload>, calls: seq<TimedCall>): Machine<ScenePayload>
    decreases |calls|
  {
    if calls == [] then m else RunService(ServiceStep(m, calls[0].call, calls[0].now), calls[1..])
  }

  function RunLogical(l: Loaded<ScenePayload>, calls: seq<TimedCall>): Loaded<ScenePayload>
    decreases |calls|
  {
    if calls == [] then l else RunLogical(LogicalStep(l, calls[0].call, calls[0].now), calls[1..])
  }

  /** No call of the run collapses an explicit container. */
  predicate Unspoilt(l: Loaded<ScenePayload>, calls: seq<TimedCall>)
    decreases |calls|
  {
    calls == []
    || (Truthy(calls[0].now) && !SpoilsNow(l, calls[0].call) && Unspoilt(LogicalStep(l, calls[0].call, calls[0].now), calls[1..]))
  }

  lemma {:induction false} DirectHolds(m: Machine<ScenePayload>, l: Loaded<ScenePayload>, call: SceneCall, now: Json)
    requires Holds(SceneCodec(), m, l) && GoodScenes(l) && Truthy(now) && OpOf(call).Some? && !Spoils(call)
    ensures var l' := Logical(SceneCodec(), l, OpOf(call).value, now);
            GoodScenes(l') && Holds(SceneCodec(), Step(SceneCodec(), m, OpOf(call).value, now).0, l')
  {
    CallKeepsGood(l, call, now);
    GoodScenesAreGood(l);
    GoodScenesAreGood(Logical(SceneCodec(), l, OpOf(call).value, now));
    StepHolds(SceneCodec(), m, l, OpOf(call).value, now);
  }

  lemma {:induction false} OpenHolds(m: Machine<ScenePayload>, l: Loaded<ScenePayload>, now: Json)
    requires Holds(SceneCodec(), m, l)
    ensures var o := Open(SceneCodec(), m, now);
            o.Ok? && Holds(SceneCodec(), o.value, l) && o.value.cache == Some(l.items)
  {
    assert Load(SceneCodec(), m.file, now) == Ok(l);
  }

  lemma {:induction false} ServiceStepHolds(m: Machine<ScenePayload>, l: Loaded<ScenePayload>, call: ServiceCall, now: Json)
    requires Holds(SceneCodec(), m, l) && GoodScenes(l) && Truthy(now) && !SpoilsNow(l, call)
    ensures Holds(SceneCodec(), ServiceStep(m, call, now), LogicalStep(l, call, now)) && GoodScenes(LogicalStep(l, call, now))
  {
    match call
    case Direct(c) =>
      if OpOf(c).Some? {
        DirectHolds(m, l, c, now);
      }
    case Duplicate(_, _, _, _) => DuplicateHolds(m, l, call, now);
  }

  lemma {:induction false} DuplicateHolds(m: Machine<ScenePayload>, l: Loaded<ScenePayload>, call: ServiceCall, now: Json)
    requires Holds(SceneCodec(), m, l) && GoodScenes(l) && Truthy(now) && call.Duplicate? && !SpoilsNow(l, call)
    ensures Holds(SceneCodec(), ServiceStep(m, call, now), LogicalStep(l, call, now)) && GoodScenes(LogicalStep(l, call, now))
  {
    var r := Resolve(l.items, call);
    OpenHolds(m, l, now);
    if r.Some? && OpOf(r.value).Some? {
      DirectHolds(Open(SceneCodec(), m, now).value, l, r.value, now);
    }
  }

  /** After any run of create, update, delete, duplicate, renumber and restart in which no explicit container
      was collapsed, the service works on exactly the logical scenes, and a fresh load of the file returns
      them with the same next id. */
  lemma {:induction false} StoreIsCoherent(m: Machine<ScenePayload>, l: Loaded<ScenePayload>, calls: seq<TimedCall>)
    requires Holds(SceneCodec(), m, l) && GoodScenes(l) && Unspoilt(l, calls)
    ensures Holds(SceneCodec(), RunService(m, calls), RunLogical(l, calls)) && GoodScenes(RunLogical(l, calls))
    decreases |calls|
  {
    if calls != [] {
      ServiceStepHolds(m, l, calls[0].call, calls[0].now);
      StoreIsCoherent(ServiceStep(m, calls[0].call, calls[0].now), LogicalStep(l, calls[0].call, calls[0].now), calls[1..]);
    }
  }

  /** A duplicate of a good scene stores the same actions, collapsed against the groups known now. */
  lemma {:induction false} DuplicateKeepsActions(src: Item<ScenePayload>, slug: string, name: string, known: Option<seq<int>>)
    requires GoodScene(src)
    ensures var call := DuplicateCall(src, slug, name, known);
            && OpOf(call) == Some(Create(slug, name, Ok(ScenePayload(Collapsed(src.payload.actions, known), src.payload.stopOnError))))
            && (Spoils(call) <==> AnySpoilt(src.payload.actions, known))
  {
    ActionsReloadIffCanonical(src.payload.actions);
  }

  /** An empty or missing file is a place to start from. */
  lemma {:induction false} EmptyStoreHolds()
    ensures Holds(SceneCodec(), Machine(Absent, None, None), Loaded([], 0)) && GoodScenes(Loaded([], 0))
  {
  }

  lemma {:induction false} LoadedSceneIsCanonical(m: Object)
    ensures SceneCodec().load(m).Ok? ==> CanonicalScene(SceneCodec().load(m).value)
  {
    CanonActionsSound(Get(m, "actions"));
    assert SceneCodec().load(m) == LoadScene(m);
  }

  /** So is any file that loads, hand-edited ones included, exactly when its counter is not negative and each entry
      that is loaded carries its creation time. */
  lemma {:induction false} OpenedFileHoldsIff(f: File, now: Json)
    requires Truthy(now) && Load(SceneCodec(), f, now).Ok?
    ensures var o, l := Open(SceneCodec(), Machine(f, None, None), now), Load(SceneCodec(), f, now).value;
            o.Ok? && (Holds(SceneCodec(), o.value, l) && GoodScenes(l) <==> FileNext(f) >= 0 && Stamped(EntriesOf(f)))
  {
    forall m: Object
      ensures SceneCodec().load(m).Ok? ==> CanonicalScene(SceneCodec().load(m).value)
    {
      LoadedSceneIsCanonical(m);
    }
    LoadIsSound(SceneCodec(), f, now);
    LoadedItemsGood(SceneCodec(), EntriesOf(f), 0, {}, now, p => CanonicalScene(p));
    LoadsAlwaysIff(SceneCodec(), f, now);
  }

  // ---- a group is deleted ------------------------------------------------------------------------

  lemma {:induction false} RenumberChangeIff(p: ScenePayload, deleted: int)
    requires CanonicalScene(p) && 0 <= deleted
    ensures RenumberChange(deleted)(p)
         == if Renumbering.SomeUncovered(p.actions, deleted) then Err(ValueError)
            else Ok(ScenePayload(Map(Renumbering.Settle, RenumberAll(p.actions, deleted)), p.stopOnError))
  {
    Renumbering.RenumberedListReloads(p.actions, deleted);
  }

  /** A scene that a deletion touches and whose renumbered actions do not validate again. */
  predicate BlocksRenumbering(i: Item<ScenePayload>, deleted: int) {
    RenumberTouched(deleted)(i.payload) && Renumbering.SomeUncovered(i.payload.actions, deleted)
  }

  function RenumberedScene(i: Item<ScenePayload>, deleted: int, now: Json): Item<ScenePayload> {
    if !RenumberTouched(deleted)(i.payload) then i
    else i.(updated := now,
            payload := ScenePayload(Map(Renumbering.Settle, RenumberAll(i.payload.actions, deleted)), i.payload.stopOnError))
  }

  /** Renumbering the group references of all scenes fails if and only if some touched scene holds an action that does
      not validate again. Then it raises and rewrites no scene at all; otherwise every touched scene gets its renumbered
      actions and every other scene is left as it was, and the file is written exactly when there was a touched one. */
  lemma {:induction false} RenumberCallIff(l: Loaded<ScenePayload>, deleted: int, now: Json)
    requires AllGood(l.items) && 0 <= deleted
    ensures var e := Apply(SceneCodec(), l, OpOf(RenumberGroups(deleted)).value, now);
            var blocked := exists k :: 0 <= k < |l.items| && BlocksRenumbering(l.items[k], deleted);
            && (blocked ==> e == Unwritten(l.items, l.next, Some(ValueError)))
            && (!blocked ==>
                  && e.error.None? && e.next == l.next && |e.items| == |l.items|
                  && (forall k :: 0 <= k < |l.items| ==> e.items[k] == RenumberedScene(l.items[k], deleted, now))
                  && (e.wrote <==> exists k :: 0 <= k < |l.items| && RenumberTouched(deleted)(l.items[k].payload)))
  {
    var touched, change := RenumberTouched(deleted), RenumberChange(deleted);
    forall k | 0 <= k < |l.items|
      ensures ChangeFails(l.items[k], touched, change) <==> BlocksRenumbering(l.items[k], deleted)
      ensures change(l.items[k].payload).Err? ==> change(l.items[k].payload).error == ValueError
      ensures !ChangeFails(l.items[k], touched, change) ==>
                RewrittenItem(l.items[k], touched, change, now) == RenumberedScene(l.items[k], deleted, now)
    {
      assert GoodScene(l.items[k]);
      OneSceneRenumbered(l.items[k], deleted, now);
    }
    RewriteEffectIff(l, touched, change, now);
    SameBlockers(l.items, deleted);
  }

  lemma {:induction false} OneSceneRenumbered(i: Item<ScenePayload>, deleted: int, now: Json)
    requires CanonicalScene(i.payload) && 0 <= deleted
    ensures var touched, change := RenumberTouched(deleted), RenumberChange(deleted);
            && (ChangeFails(i, touched, change) <==> BlocksRenumbering(i, deleted))
            && (change(i.payload).Err? ==> change(i.payload).error == ValueError)
            && (!ChangeFails(i, touched, change) ==> RewrittenItem(i, touched, change, now) == RenumberedScene(i, deleted, now))
  {
    RenumberChangeIff(i.payload, deleted);
  }

  lemma {:induction false} SameBlockers(items: seq<Item<ScenePayload>>, deleted: int)
    requires forall k :: 0 <= k < |items| ==>
               (ChangeFails(items[k], RenumberTouched(deleted), RenumberChange(deleted)) <==> BlocksRenumbering(items[k], deleted))
    ensures (exists k :: 0 <= k < |items| && ChangeFails(items[k], RenumberTouched(deleted), RenumberChange(deleted)))
            <==> exists k :: 0 <= k < |items| && BlocksRenumbering(items[k], deleted)
  {
  }

  lemma {:induction false} CreatedPayload(l: Loaded<ScenePayload>, call: SceneCall, now: Json)
    requires call.CreateScene? && Apply(SceneCodec(), l, OpOf(call).value, now).wrote
    ensures var e := Apply(SceneCodec(), l, OpOf(call).value, now);
            && |e.items| == |l.items| + 1 && e.items == l.items + [e.items[|l.items|]]
            && var i := e.items[|l.items|];
               i.created == now && i.updated == now && (CanonicalScene(i.payload) <==> !SpoilsActions(call.raw, call.known))
  {
    NewActionsCanonicalIff(call.raw, call.known);
  }

  lemma {:induction false} AppendedComesBack(items: seq<Item<ScenePayload>>, i: Item<ScenePayload>)
    requires AllGood(items) && Truthy(i.created) && Truthy(i.updated)
    ensures var all := items + [i];
            && (forall k :: 0 <= k < |all| ==> Truthy(all[k].created) && Truthy(all[k].updated))
            && (AllComeBack(SceneCodec(), all) <==> CanonicalScene(i.payload))
  {
    var all := items + [i];
    forall k | 0 <= k < |items|
      ensures ComesBack(SceneCodec(), all[k]) && Truthy(all[k].created) && Truthy(all[k].updated)
    {
      assert GoodScene(items[k]);
      SceneComesBackIff(items[k]);
    }
    SceneComesBackIff(i);
    assert all[|items|] == i;
  }

  /** For a create that is written, disk and memory agree exactly when no explicit container was collapsed. */
  lemma {:induction false} CreateReloadsIff(l: Loaded<ScenePayload>, call: SceneCall, now: Json, later: Json)
    requires GoodScenes(l) && Truthy(now) && call.CreateScene?
    requires Apply(SceneCodec(), l, OpOf(call).value, now).wrote
    ensures var e := Apply(SceneCodec(), l, OpOf(call).value, now);
            Load(SceneCodec(), FileOf(SceneCodec(), e.items, e.next), later) == Ok(Loaded(e.items, e.next)) <==> !Spoils(call)
  {
    var op := OpOf(call).value;
    var e := Apply(SceneCodec(), l, op, now);
    ApplyKeepsIds(SceneCodec(), l, op, now);
    CreatedPayload(l, call, now);
    AppendedComesBack(l.items, e.items[|l.items|]);
    ReloadIff(SceneCodec(), e.items, e.next, later);
  }

  /** The same for a duplicate: what counts are the source's actions and the groups known when it is made. */
  lemma {:induction false} DuplicateReloadsIff(l: Loaded<ScenePayload>, call: ServiceCall, now: Json, later: Json)
    requires GoodScenes(l) && Truthy(now) && call.Duplicate? && Resolve(l.items, call).Some?
    requires Apply(SceneCodec(), l, OpOf(Resolve(l.items, call).value).value, now).wrote
    ensures var e := LogicalStep(l, call, now);
            var src := l.items[FirstWithKey(l.items, call.source).value];
            Load(SceneCodec(), FileOf(SceneCodec(), e.items, e.next), later) == Ok(e) <==> !AnySpoilt(src.payload.actions, call.known)
  {
    var at := FirstWithKey(l.items, call.source).value;
    var r := Resolve(l.items, call).value;
    assert GoodScene(l.items[at]);
    DuplicateKeepsActions(l.items[at], r.slug, r.name, call.known);
    CreateReloadsIff(l, r, now, later);
  }

  lemma {:induction false} EditedComesBack(items: seq<Item<ScenePayload>>, at: nat, i: Item<ScenePayload>)
    requires AllGood(items) && at < |items| && Truthy(i.created) && Truthy(i.updated)
    ensures var all := items[at := i];
            && (forall k :: 0 <= k < |all| ==> Truthy(all[k].created) && Truthy(all[k].updated))
            && (AllComeBack(SceneCodec(), all) <==> CanonicalScene(i.payload))
  {
    var all := items[at := i];
    forall k | 0 <= k < |items| && k != at
      ensures ComesBack(SceneCodec(), all[k]) && Truthy(all[k].created) && Truthy(all[k].updated)
    {
      assert GoodScene(items[k]);
      SceneComesBackIff(items[k]);
    }
    SceneComesBackIff(i);
    assert all[at] == i;
  }

  /** What an update that is written leaves in the place of the scene it found. */
  lemma {:induction false} UpdatedPayload(l: Loaded<ScenePayload>, call: SceneCall, now: Json)
    requires AllGood(l.items) && Truthy(now) && call.UpdateScene? && OpOf(call).Some?
    requires Apply(SceneCodec(), l, OpOf(call).value, now).wrote
    ensures var e := Apply(SceneCodec(), l, OpOf(call).value, now);
            var at := FirstWithKey(l.items, call.key);
            && at.Some? && |e.items| == |l.items| && e.next == l.next && e.items == l.items[at.value := e.items[at.value]]
            && Truthy(e.items[at.value].created) && Truthy(e.items[at.value].updated)
            && (CanonicalScene(e.items[at.value].payload) <==> !Spoils(call))
  {
    var at := FirstWithKey(l.items, call.key);
    assert GoodScene(l.items[at.value]);
    if call.rawActions.Some? {
      NewActionsCanonicalIff(call.rawActions.value, call.known);
    }
  }

  /** The same for an update: without new actions it always survives. */
  lemma {:induction false} UpdateReloadsIff(l: Loaded<ScenePayload>, call: SceneCall, now: Json, later: Json)
    requires GoodScenes(l) && Truthy(now) && call.UpdateScene? && OpOf(call).Some?
    requires Apply(SceneCodec(), l, OpOf(call).value, now).wrote
    ensures var e := Apply(SceneCodec(), l, OpOf(call).value, now);
            Load(SceneCodec(), FileOf(SceneCodec(), e.items, e.next), later) == Ok(Loaded(e.items, e.next)) <==> !Spoils(call)
  {
    var op := OpOf(call).value;
    var e, at := Apply(SceneCodec(), l, op, now), FirstWithKey(l.items, call.key);
    ApplyKeepsIds(SceneCodec(), l, op, now);
    UpdatedPayload(l, call, now);
    EditedComesBack(l.items, at.value, e.items[at.value]);
    ReloadIff(SceneCodec(), e.items, e.next, later);
  }

  /** What the next load makes of a spoiled scene: its whole action list is dropped. */
  lemma {:induction false} SpoiledSceneLosesItsActions(actions: seq<Action>, known: seq<int>, stop: bool)
    requires CanonicalList(actions) && |actions| <= MAX_ACTIONS_PER_SCENE && AnySpoilt(actions, Some(known))
    ensures LoadScene(SaveScene(ScenePayload(Collapsed(actions, Some(known)), stop))) == Ok(ScenePayload([], stop))
  {
    var c := Collapsed(actions, Some(known));
    var k :| 0 <= k < |actions| && CollapsesExplicit(actions[k], Members(known));
    RejectedList(c, k);
    RejectedLoad(ScenePayload(c, stop));
  }

  lemma {:induction false} RejectedLoad(p: ScenePayload)
    requires |p.actions| <= MAX_ACTIONS_PER_SCENE && CanonList(Map(EncodeAction, p.actions)) == Err(ValueError)
    ensures LoadScene(SaveScene(p)) == Ok(ScenePayload([], p.stopOnError))
  {
    var m := SaveScene(p);
    assert Get(m, "actions") == JArr(Map(EncodeAction, p.actions)) && Get(m, "stop_on_error") == JBool(p.stopOnError);
  }

  /** The validator rejects an explicit container without a group list, and only ever with a ValueError. */
  lemma {:induction false} RejectedList(actions: seq<Action>, k: nat)
    requires k < |actions| && actions[k].OffsetGroup? && actions[k].target.Broadcast? && actions[k].block.ExplicitBlock?
    ensures CanonList(Map(EncodeAction, actions)) == Err(ValueError)
  {
    var raw := Map(EncodeAction, actions);
    EncodedErrors(actions[0]);
    assert raw[1..] == Map(EncodeAction, actions[1..]);
    if k == 0 {
      ExplicitBroadcastRejected(actions[0]);
    } else {
      RejectedList(actions[1..], k - 1);
    }
  }

  lemma {:induction false} ExplicitBroadcastRejected(a: Action)
    requires a.OffsetGroup? && a.target.Broadcast? && a.block.ExplicitBlock?
    ensures CanonAction(EncodeAction(a)) == Err(ValueError)
  {
    ContainerFields(EncodeTarget(a.target), EncodeBlock(a.block), Map(EncodeEffect, a.children));
    assert CanonTarget(BROADCAST_JSON) == Ok(Broadcast);
    assert CanonBlock(EncodeBlock(a.block), Broadcast) == Err(ValueError);
  }

  lemma {:induction false} EncodedErrors(a: Action)
    ensures CanonAction(EncodeAction(a)).Err? ==> CanonAction(EncodeAction(a)).error == ValueError
  {
    AcceptedIsCanonical(EncodeAction(a));
    match a
    case Act(e) => assert EncodeEffect(e).m["target"] == EncodeTarget(e.target);
    case Sync =>
    case Delay(_) =>
    case OffsetGroup(t, b, kids) => ContainerFields(EncodeTarget(t), EncodeBlock(b), Map(EncodeEffect, kids));
  }
}
