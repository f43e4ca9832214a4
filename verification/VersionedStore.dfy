/** The machinery the scene store and the preset store share: a file, a cache that every write drops, and
    a counter that only goes up. The two stores differ in the payload of an item. */
module VersionedStore {
  import opened Basics
  import opened JsonValues
  import opened IdLedger

  datatype Item<P> = Item(id: int, key: string, name: string, created: Json, updated: Json, payload: P)

  /** How a payload is read from an entry and written to one. */
  datatype Codec<!P> = Codec(
    load: Object -> Result<P>,
    save: P -> Object,
    schema: int,             // written to the file
    upgrades: bool,          // an older file is rewritten as soon as it is loaded
    claimsFirst: bool)       // `create` takes its id before it validates the payload

  /** `Absent` also stands for a file that cannot be read or is not an object. */
  datatype File = Absent | Document(schema: int, next: Option<int>, entries: Option<seq<Json>>)

  // ---- loading ----------------------------------------------------------------------

  /** Entries that are not objects with a textual key and label are skipped. */
  predicate Usable(e: Json) {
    e.JObj? && Get(e.m, "key").JStr? && Get(e.m, "label").JStr?
  }

  /** The persisted id, or the position when it is missing or not a number. */
  function RawId(e: Json, index: int): int
    requires Usable(e)
  {
    var v := ToInt(Get(e.m, "id"));
    if v.Err? then index else v.value
  }

  function LoadIds(entries: seq<Json>, index: int, used: set<int>): seq<int>
    decreases |entries|
  {
    if entries == [] then []
    else if !Usable(entries[0]) then LoadIds(entries[1..], index + 1, used)
    else
      var id := FirstFree(RawId(entries[0], index), used);
      [id] + LoadIds(entries[1..], index + 1, used + {id})
  }

  function Or(j: Json, default: Json): Json {
    if Truthy(j) then j else default
  }

  function LoadItem<P>(c: Codec<P>, m: Object, id: int, now: Json): Result<Item<P>>
    requires Get(m, "key").JStr? && Get(m, "label").JStr?
  {
    var payload :- c.load(m);
    var created := Or(Get(m, "created"), now);
    Ok(Item(id, m["key"].s, m["label"].s, created, Or(Get(m, "updated"), created), payload))
  }

  function LoadItems<P>(c: Codec<P>, entries: seq<Json>, index: int, used: set<int>, now: Json): Result<seq<Item<P>>>
    decreases |entries|
  {
    if entries == [] then Ok([])
    else if !Usable(entries[0]) then LoadItems(c, entries[1..], index + 1, used, now)
    else
      var id := FirstFree(RawId(entries[0], index), used);
      var head :- LoadItem(c, entries[0].m, id, now);
      var tail :- LoadItems(c, entries[1..], index + 1, used + {id}, now);
      Ok([head] + tail)
  }

  function EntriesOf(f: File): seq<Json> {
    if f.Document? && f.entries.Some? then f.entries.value else []
  }

  /** The next id a file gives a store that loads it. */
  function FileNext(f: File): int {
    if f.Absent? || f.entries.None? then 0 else SeedNext(f.next, LoadIds(f.entries.value, 0, {}))
  }

  datatype Loaded<P> = Loaded(items: seq<Item<P>>, next: int)

  function Load<P>(c: Codec<P>, f: File, now: Json): Result<Loaded<P>> {
    var items :- LoadItems(c, EntriesOf(f), 0, {}, now);
    Ok(Loaded(items, FileNext(f)))
  }

  // ---- writing ------------------------------------------------------------------------

  function EncodeItem<P>(c: Codec<P>, i: Item<P>): Json {
    JObj(c.save(i.payload) + map["id" := JInt(i.id), "key" := JStr(i.key), "label" := JStr(i.name),
                                 "created" := i.created, "updated" := i.updated])
  }

  function EncodeItems<P>(c: Codec<P>, items: seq<Item<P>>): (r: seq<Json>)
    ensures |r| == |items| && forall k :: 0 <= k < |items| ==> r[k] == EncodeItem(c, items[k])
  {
    if items == [] then [] else [EncodeItem(c, items[0])] + EncodeItems(c, items[1..])
  }

  function FileOf<P>(c: Codec<P>, items: seq<Item<P>>, next: int): File {
    Document(c.schema, Some(next), Some(EncodeItems(c, items)))
  }

  function ItemIds<P>(items: seq<Item<P>>): (r: seq<int>)
    ensures |r| == |items| && forall k :: 0 <= k < |items| ==> r[k] == items[k].id
  {
    if items == [] then [] else [items[0].id] + ItemIds(items[1..])
  }

  // ---- keys -----------------------------------------------------------------------------

  function Decimal(n: nat): string {
    var digit := ['0' + (n % 10) as char];
    if n < 10 then digit else Decimal(n / 10) + digit
  }

  function Candidate(desired: string, n: nat): string {
    if n < 2 then desired else desired + "_" + Decimal(n)
  }

  /** The wanted key, else the first free of `_2` .. `_999`, else a RuntimeError. */
  function UniqueKeyFrom(desired: string, taken: set<string>, n: nat): Result<string>
    decreases 1000 - n
  {
    if n >= 1000 then Err(OtherError)
    else if Candidate(desired, n) !in taken then Ok(Candidate(desired, n))
    else UniqueKeyFrom(desired, taken, n + 1)
  }

  function UniqueKey(desired: string, taken: set<string>): Result<string> {
    UniqueKeyFrom(desired, taken, 1)
  }

  function KeysOf<P>(items: seq<Item<P>>): set<string> {
    set k | 0 <= k < |items| :: items[k].key
  }

  // ---- operations on what is loaded ------------------------------------------------------------

  datatype Import<P> = Import(slug: string, name: string, created: Json, updated: Json, payload: Result<P>)

  datatype Op<!P> =
    | Create(slug: string, name: string, payload: Result<P>)
    | Update(key: string, newLabel: Option<string>, edit: P -> Result<P>)
    | Rewrite(touched: P -> bool, change: P -> Result<P>)
    | Delete(victim: string)
    | ReplaceAll(imports: seq<Import<P>>)
    | Restart

  /** What an operation makes of the loaded items: the new items and counter, whether they were written,
      and the ids it handed out. */
  datatype Effect<P> = Effect(items: seq<Item<P>>, next: int, wrote: bool, vended: seq<int>, error: Option<Failure>)

  function Unwritten<P>(items: seq<Item<P>>, next: int, error: Option<Failure>): Effect<P> {
    Effect(items, next, false, [], error)
  }

  function CreateEffect<P>(c: Codec<P>, l: Loaded<P>, slug: string, name: string, payload: Result<P>, now: Json): Effect<P> {
    if name == "" || (!c.claimsFirst && payload.Err?) then
      Unwritten(l.items, l.next, Some(if name == "" then ValueError else payload.error))
    else
      var key := UniqueKey(slug, KeysOf(l.items));
      if key.Err? then Unwritten(l.items, l.next, Some(key.error))
      else if payload.Err? then Unwritten(l.items, l.next + 1, Some(payload.error))
      else
        var item := Item(l.next, key.value, name, now, now, payload.value);
        Effect(l.items + [item], l.next + 1, true, [l.next], None)
  }

  function FirstWithKey<P>(items: seq<Item<P>>, key: string): (r: Option<nat>)
    ensures r.Some? ==> r.value < |items| && items[r.value].key == key
    ensures r.None? ==> forall k :: 0 <= k < |items| ==> items[k].key != key
  {
    if items == [] then None
    else if items[0].key == key then Some(0)
    else
      var rest := FirstWithKey(items[1..], key);
      if rest.None? then None else Some(rest.value + 1)
  }

  function UpdateEffect<P>(l: Loaded<P>, key: string, newLabel: Option<string>, edit: P -> Result<P>, now: Json): Effect<P> {
    var at := FirstWithKey(l.items, key);
    if at.None? then Unwritten(l.items, l.next, None)
    else if newLabel == Some("") then Unwritten(l.items, l.next, Some(ValueError))
    else
      var was := l.items[at.value];
      var payload := edit(was.payload);
      if payload.Err? then Unwritten(l.items, l.next, Some(payload.error))
      else
        var name := if newLabel.Some? then newLabel.value else was.name;
        Effect(l.items[at.value := was.(name := name, updated := now, payload := payload.value)], l.next, true, [], None)
  }

  function RewriteItems<P>(items: seq<Item<P>>, touched: P -> bool, change: P -> Result<P>, now: Json): Result<seq<Item<P>>> {
    if items == [] then Ok([])
    else if !touched(items[0].payload) then
      var tail :- RewriteItems(items[1..], touched, change, now);
      Ok([items[0]] + tail)
    else
      var payload :- change(items[0].payload);
      var tail :- RewriteItems(items[1..], touched, change, now);
      Ok([items[0].(updated := now, payload := payload)] + tail)
  }

  function RewriteEffect<P>(l: Loaded<P>, touched: P -> bool, change: P -> Result<P>, now: Json): Effect<P> {
    var r := RewriteItems(l.items, touched, change, now);
    if r.Err? then Unwritten(l.items, l.next, Some(r.error))
    else if forall k :: 0 <= k < |l.items| ==> !touched(l.items[k].payload) then Unwritten(l.items, l.next, None)
    else Effect(r.value, l.next, true, [], None)
  }

  function WithoutKey<P>(items: seq<Item<P>>, key: string): (r: seq<Item<P>>)
    ensures |r| <= |items|
    ensures |r| == |items| ==> r == items
  {
    if items == [] then []
    else if items[0].key == key then WithoutKey(items[1..], key)
    else [items[0]] + WithoutKey(items[1..], key)
  }

  function DeleteEffect<P>(l: Loaded<P>, key: string): Effect<P> {
    var kept := WithoutKey(l.items, key);
    if |kept| == |l.items| then Unwritten(l.items, l.next, None) else Effect(kept, l.next, true, [], None)
  }

  /** Fresh ids for every import; a payload that fails leaves the ids claimed so far unused. */
  function ImportItems<P>(imports: seq<Import<P>>, seen: set<string>, next: int): (Result<seq<Item<P>>>, int)
    decreases |imports|
  {
    if imports == [] then (Ok([]), next)
    else
      var i := imports[0];
      var key := if i.slug in seen then UniqueKey(i.slug, seen) else Ok(i.slug);
      if key.Err? then (Err(key.error), next)
      else if i.payload.Err? then (Err(i.payload.error), next + 1)
      else
        var (tail, n) := ImportItems(imports[1..], seen + {key.value}, next + 1);
        if tail.Err? then (tail, n)
        else (Ok([Item(next, key.value, i.name, i.created, i.updated, i.payload.value)] + tail.value), n)
  }

  function ReplaceEffect<P>(l: Loaded<P>, imports: seq<Import<P>>): Effect<P> {
    var (r, n) := ImportItems(imports, {}, l.next);
    if r.Err? then Unwritten(l.items, n, Some(r.error)) else Effect(r.value, n, true, ItemIds(r.value), None)
  }

  function Apply<P>(c: Codec<P>, l: Loaded<P>, op: Op<P>, now: Json): Effect<P>
    requires !op.Restart?
  {
    match op
    case Create(slug, name, payload) => CreateEffect(c, l, slug, name, payload, now)
    case Update(key, newLabel, edit) => UpdateEffect(l, key, newLabel, edit, now)
    case Rewrite(touched, change) => RewriteEffect(l, touched, change, now)
    case Delete(key) => DeleteEffect(l, key)
    case ReplaceAll(imports) => ReplaceEffect(l, imports)
  }

  // ---- the store as a machine --------------------------------------------------------------------

  /** `cache` and `next` are the in-memory fields; a new process starts with neither. */
  datatype Machine<P> = Machine(file: File, cache: Option<seq<Item<P>>>, next: Option<int>)

  /** A file that is rewritten as soon as it is loaded. */
  predicate Stale<P>(c: Codec<P>, f: File) {
    c.upgrades && f.Document? && f.entries.Some? && f.schema < c.schema
  }

  function Open<P>(c: Codec<P>, m: Machine<P>, now: Json): Result<Machine<P>> {
    if m.cache.Some? && m.next.Some? then Ok(m)
    else
      var l :- Load(c, m.file, now);
      Ok(Machine(if Stale(c, m.file) then FileOf(c, l.items, l.next) else m.file, Some(l.items), Some(l.next)))
  }

  /** The label of a duplicate. */
  function CopyLabel(name: string, newLabel: Option<string>): string {
    Strip(if newLabel.Some? && newLabel.value != "" then newLabel.value else name + " copy")
  }

  datatype Report = Report(vended: seq<int>, error: Option<Failure>)

  /** One public call: open, apply, and if it wrote, replace the file and drop the cache. */
  function Step<P>(c: Codec<P>, m: Machine<P>, op: Op<P>, now: Json): (Machine<P>, Report) {
    if op.Restart? then (Machine(m.file, None, None), Report([], None))
    else if op.Create? && (op.name == "" || (!c.claimsFirst && op.payload.Err?)) then
      (m, Report([], Some(if op.name == "" then ValueError else op.payload.error)))
    else
      var o := Open(c, m, now);
      if o.Err? then (m, Report([], Some(o.error)))
      else
        var e := Apply(c, Loaded(o.value.cache.value, o.value.next.value), op, now);
        if e.wrote then (Machine(FileOf(c, e.items, e.next), None, Some(e.next)), Report(e.vended, e.error))
        else (Machine(o.value.file, Some(e.items), Some(e.next)), Report(e.vended, e.error))
  }
}
