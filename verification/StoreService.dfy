/** The store as the service object it is: fields updated in place, every public write replacing the file
    and dropping the cache. Each method is proved to be one step of the machine in `VersionedStore`. */
module StoreService {
  import opened Basics
  import opened JsonValues
  import opened IdLedger
  import opened VersionedStore

  /** The load loop: position counter, used ids, one item per usable entry. */
  method LoadEntries<P>(c: Codec<P>, entries: seq<Json>, now: Json) returns (r: Result<seq<Item<P>>>, ids: seq<int>)
    ensures r == LoadItems(c, entries, 0, {}, now)
    ensures r.Ok? ==> ids == LoadIds(entries, 0, {})
  {
    var out: seq<Item<P>>, used: set<int> := [], {};
    ids := [];
    ghost var all := LoadItems(c, entries, 0, {}, now);
    assert entries[0..] == entries;
    assert all.Ok? ==> [] + all.value == all.value;
    for i := 0 to |entries|
      invariant var rest := LoadItems(c, entries[i..], i, used, now);
                all == if rest.Err? then rest else Ok(out + rest.value)
      invariant LoadIds(entries, 0, {}) == ids + LoadIds(entries[i..], i, used)
    {
      assert entries[i..][1..] == entries[i + 1..] && entries[i..][0] == entries[i];
      if !Usable(entries[i]) {
        continue;
      }
      var id := RepairId(RawId(entries[i], i), used);
      var item := LoadItem(c, entries[i].m, id, now);
      if item.Err? {
        return Err(item.error), ids;
      }
      ghost var rest := LoadItems(c, entries[i + 1..], i + 1, used + {id}, now);
      assert rest.Ok? ==> out + ([item.value] + rest.value) == (out + [item.value]) + rest.value;
      Associative(ids, [id], LoadIds(entries[i + 1..], i + 1, used + {id}));
      used := used + {id};
      ids := ids + [id];
      out := out + [item.value];
    }
    assert out + [] == out && ids + [] == ids;
    r := Ok(out);
  }

  /** The walk over all items: rewrites the touched ones and counts them. */
  method RewriteLoop<P>(list: seq<Item<P>>, touched: P -> bool, change: P -> Result<P>, now: Json)
    returns (r: Result<seq<Item<P>>>, changed: nat)
    ensures r == RewriteItems(list, touched, change, now)
    ensures r.Ok? ==> (changed == 0 <==> forall k :: 0 <= k < |list| ==> !touched(list[k].payload))
  {
    var out: seq<Item<P>> := [];
    changed := 0;
    ghost var all := RewriteItems(list, touched, change, now);
    assert list[0..] == list;
    assert all.Ok? ==> [] + all.value == all.value;
    for i := 0 to |list|
      invariant var rest := RewriteItems(list[i..], touched, change, now);
                all == if rest.Err? then rest else Ok(out + rest.value)
      invariant changed == 0 <==> forall k :: 0 <= k < i ==> !touched(list[k].payload)
    {
      assert list[i..][1..] == list[i + 1..] && list[i..][0] == list[i];
      ghost var rest := RewriteItems(list[i + 1..], touched, change, now);
      var item := list[i];
      if touched(item.payload) {
        changed := changed + 1;
        var payload := change(item.payload);
        if payload.Err? {
          return Err(payload.error), 0;
        }
        item := item.(updated := now, payload := payload.value);
      }
      assert rest.Ok? ==> out + ([item] + rest.value) == (out + [item]) + rest.value;
      out := out + [item];
    }
    assert out + [] == out;
    r := Ok(out);
  }

  /** The imports still to come and the items made so far give the whole import. */
  ghost predicate Importing<P>(all: (Result<seq<Item<P>>>, int), imports: seq<Import<P>>, seen: set<string>,
                               next: int, out: seq<Item<P>>) {
    var (rest, n) := ImportItems(imports, seen, next);
    all == (if rest.Err? then rest else Ok(out + rest.value), n)
  }

  lemma {:induction false} ImportingStep<P>(all: (Result<seq<Item<P>>>, int), imports: seq<Import<P>>, seen: set<string>, next: int,
                                            out: seq<Item<P>>)
    requires imports != [] && Importing(all, imports, seen, next, out)
    ensures var e := imports[0];
            var key := if e.slug in seen then UniqueKey(e.slug, seen) else Ok(e.slug);
            && (key.Err? ==> all == (Err(key.error), next))
            && (key.Ok? && e.payload.Err? ==> all == (Err(e.payload.error), next + 1))
            && (key.Ok? && e.payload.Ok? ==>
                  Importing(all, imports[1..], seen + {key.value}, next + 1,
                            out + [Item(next, key.value, e.name, e.created, e.updated, e.payload.value)]))
  {
    var e := imports[0];
    var key := if e.slug in seen then UniqueKey(e.slug, seen) else Ok(e.slug);
    if key.Ok? && e.payload.Ok? {
      var item := Item(next, key.value, e.name, e.created, e.updated, e.payload.value);
      var rest := ImportItems(imports[1..], seen + {key.value}, next + 1).0;
      assert rest.Ok? ==> out + ([item] + rest.value) == (out + [item]) + rest.value;
    }
  }

  class Store<P> {
    const codec: Codec<P>
    var file: File
    var cache: Option<seq<Item<P>>>
    var nextId: Option<int>

    function Abs(): Machine<P>
      reads this
    {
      Machine(file, cache, nextId)
    }

    /** A cache is only ever filled together with the counter. */
    predicate Valid()
      reads this
    {
      cache.Some? ==> nextId.Some?
    }

    /** A new process over an existing file. */
    constructor (codec: Codec<P>, file: File)
      ensures this.codec == codec && Abs() == Machine(file, None, None) && Valid()
    {
      this.codec, this.file, cache, nextId := codec, file, None, None;
    }

    /** `_items`: loads on a cold cache, seeds the counter, and rewrites a file of an older schema. */
    method Items(now: Json) returns (r: Result<seq<Item<P>>>)
      requires Valid()
      modifies this
      ensures Valid()
      ensures var o := Open(codec, old(Abs()), now);
              if o.Err? then r == Err(o.error) && Abs() == old(Abs())
              else Abs() == o.value && cache.Some? && nextId.Some? && r == Ok(cache.value)
    {
      if cache.Some? {
        return Ok(cache.value);
      }
      var loaded, ids := LoadEntries(codec, EntriesOf(file), now);
      if loaded.Err? {
        return Err(loaded.error);
      }
      var known := file.Document? && file.entries.Some?;
      nextId := Some(if known then SeedNext(file.next, ids) else 0);
      if codec.upgrades && known && file.schema < codec.schema {
        file := FileOf(codec, loaded.value, nextId.value);
      }
      cache := Some(loaded.value);
      r := loaded;
    }

    /** `_write_atomic` and `_invalidate`. */
    method Write(items: seq<Item<P>>)
      requires nextId.Some?
      modifies this
      ensures Abs() == Machine(FileOf(codec, items, old(nextId).value), None, old(nextId))
    {
      file := FileOf(codec, items, nextId.value);
      cache := None;
    }

    method Create(slug: string, name: string, payload: Result<P>, now: Json) returns (r: Report, created: Option<Item<P>>)
      requires Valid()
      modifies this
      ensures Valid()
      ensures (Abs(), r) == Step(codec, old(Abs()), Op.Create(slug, name, payload), now)
      ensures created.Some? <==> r.error.None?
      ensures created.Some? ==> r.vended == [created.value.id] && payload == Ok(created.value.payload) && created.value.name == name
    {
      created := None;
      if name == "" {
        return Report([], Some(ValueError)), None;
      }
      if !codec.claimsFirst && payload.Err? {
        return Report([], Some(payload.error)), None;
      }
      var items := Items(now);
      if items.Err? {
        return Report([], Some(items.error)), None;
      }
      var key := UniqueKey(slug, KeysOf(items.value));
      if key.Err? {
        return Report([], Some(key.error)), None;
      }
      var id := nextId.value;
      nextId := Some(id + 1);
      if payload.Err? {
        return Report([], Some(payload.error)), None;
      }
      var item := Item(id, key.value, name, now, now, payload.value);
      Write(items.value + [item]);
      r, created := Report([id], None), Some(item);
    }

    /** Partial update of the first item with the key. */
    method Update(key: string, newLabel: Option<string>, edit: P -> Result<P>, now: Json) returns (r: Report)
      requires Valid()
      modifies this
      ensures Valid()
      ensures (Abs(), r) == Step(codec, old(Abs()), Op.Update(key, newLabel, edit), now)
    {
      var items := Items(now);
      if items.Err? {
        return Report([], Some(items.error));
      }
      var list, idx := items.value, 0;
      ghost var at := FirstWithKey(list, key);
      while idx < |list| && list[idx].key != key
        invariant 0 <= idx <= |list|
        invariant forall k :: 0 <= k < idx ==> list[k].key != key
      {
        idx := idx + 1;
      }
      FirstAt(list, key, idx);
      if idx == |list| {
        return Report([], None);
      }
      if newLabel == Some("") {
        return Report([], Some(ValueError));
      }
      var payload := edit(list[idx].payload);
      if payload.Err? {
        return Report([], Some(payload.error));
      }
      var name := if newLabel.Some? then newLabel.value else list[idx].name;
      Write(list[idx := list[idx].(name := name, updated := now, payload := payload.value)]);
      r := Report([], None);
    }

    /** Rewrites every touched item and writes once if any was touched. */
    method Rewrite(touched: P -> bool, change: P -> Result<P>, now: Json) returns (r: Report, changed: nat)
      requires Valid()
      modifies this
      ensures Valid()
      ensures (Abs(), r) == Step(codec, old(Abs()), Op.Rewrite(touched, change), now)
    {
      changed := 0;
      var items := Items(now);
      if items.Err? {
        return Report([], Some(items.error)), 0;
      }
      var out, count := RewriteLoop(items.value, touched, change, now);
      if out.Err? {
        return Report([], Some(out.error)), 0;
      }
      changed := count;
      if changed > 0 {
        Write(out.value);
      }
      r := Report([], None);
    }

    method Delete(key: string, now: Json) returns (r: Report, deleted: bool)
      requires Valid()
      modifies this
      ensures Valid()
      ensures (Abs(), r) == Step(codec, old(Abs()), Op.Delete(key), now)
    {
      var items := Items(now);
      if items.Err? {
        return Report([], Some(items.error)), false;
      }
      var kept := WithoutKey(items.value, key);
      deleted := |kept| != |items.value|;
      if deleted {
        Write(kept);
      }
      r := Report([], None);
    }

    /** Bulk replace under fresh ids. */
    method ReplaceAll(imports: seq<Import<P>>, now: Json) returns (r: Report)
      requires Valid()
      modifies this
      ensures Valid()
      ensures (Abs(), r) == Step(codec, old(Abs()), Op.ReplaceAll(imports), now)
    {
      var items := Items(now);
      if items.Err? {
        return Report([], Some(items.error));
      }
      ghost var warm, first := Abs(), nextId.value;
      ghost var all := ImportItems(imports, {}, first);
      var out: seq<Item<P>>, seen: set<string> := [], {};
      assert imports[0..] == imports;
      assert all.0.Ok? ==> [] + all.0.value == all.0.value;
      for i := 0 to |imports|
        invariant nextId.Some? && Abs() == warm.(next := nextId)
        invariant Importing(all, imports[i..], seen, nextId.value, out)
      {
        assert imports[i..][1..] == imports[i + 1..] && imports[i..][0] == imports[i];
        ImportingStep(all, imports[i..], seen, nextId.value, out);
        var entry := imports[i];
        var key := if entry.slug in seen then UniqueKey(entry.slug, seen) else Ok(entry.slug);
        if key.Err? {
          return Report([], Some(key.error));
        }
        seen := seen + {key.value};
        var id := nextId.value;
        nextId := Some(id + 1);
        if entry.payload.Err? {
          return Report([], Some(entry.payload.error));
        }
        var item := Item(id, key.value, entry.name, entry.created, entry.updated, entry.payload.value);
        out := out + [item];
      }
      assert out + [] == out;
      Write(out);
      r := Report(ItemIds(out), None);
    }
  }

  lemma {:induction false} FirstAt<P>(items: seq<Item<P>>, key: string, k: nat)
    requires k <= |items|
    requires forall j :: 0 <= j < k ==> items[j].key != key
    requires k < |items| ==> items[k].key == key
    ensures FirstWithKey(items, key) == if k < |items| then Some(k) else None
  {
    if items != [] && k > 0 {
      FirstAt(items[1..], key, k - 1);
    }
  }
}
