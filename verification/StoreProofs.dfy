/** What every run of a store keeps: ids are never recycled, and what was written is what the next load
    returns. */
module StoreProofs {
  import opened Basics
  import opened JsonValues
  import opened IdLedger
  import opened VersionedStore

  // ---- ids on load ----------------------------------------------------------------

  /** Loading repairs duplicates: the ids it hands to the entries are pairwise distinct. */
  lemma {:induction false} LoadedIdsDistinct(entries: seq<Json>, index: int, used: set<int>)
    ensures Distinct(LoadIds(entries, index, used))
    ensures forall i :: 0 <= i < |LoadIds(entries, index, used)| ==> LoadIds(entries, index, used)[i] !in used
    decreases |entries|
  {
    if entries != [] {
      if Usable(entries[0]) {
        var id := FirstFree(RawId(entries[0], index), used);
        LoadedIdsDistinct(entries[1..], index + 1, used + {id});
      } else {
        LoadedIdsDistinct(entries[1..], index + 1, used);
      }
    }
  }

  lemma {:induction false} LoadedItemIds<P>(c: Codec<P>, entries: seq<Json>, index: int, used: set<int>, now: Json)
    ensures LoadItems(c, entries, index, used, now).Ok? ==>
              ItemIds(LoadItems(c, entries, index, used, now).value) == LoadIds(entries, index, used)
    decreases |entries|
  {
    if entries != [] {
      if Usable(entries[0]) {
        var id := FirstFree(RawId(entries[0], index), used);
        LoadedItemIds(c, entries[1..], index + 1, used + {id}, now);
      } else {
        LoadedItemIds(c, entries[1..], index + 1, used, now);
      }
    }
  }

  lemma {:induction false} EncodedItem<P>(c: Codec<P>, i: Item<P>, index: int)
    ensures Usable(EncodeItem(c, i)) && RawId(EncodeItem(c, i), index) == i.id
    ensures var m := EncodeItem(c, i).m;
            Get(m, "key") == JStr(i.key) && Get(m, "label") == JStr(i.name) && Get(m, "created") == i.created && Get(m, "updated") == i.updated
  {
  }

  lemma {:induction false} TailIds<P>(items: seq<Item<P>>, used: set<int>)
    requires items != [] && Distinct(ItemIds(items)) && forall i :: 0 <= i < |items| ==> items[i].id !in used
    ensures Distinct(ItemIds(items[1..]))
    ensures forall i :: 0 <= i < |items[1..]| ==> items[1..][i].id !in used + {items[0].id}
  {
    forall i, j | 0 <= i < j < |items[1..]|
      ensures ItemIds(items[1..])[i] != ItemIds(items[1..])[j]
    {
      assert ItemIds(items)[i + 1] != ItemIds(items)[j + 1];
    }
    forall i | 0 <= i < |items[1..]|
      ensures items[1..][i].id !in used + {items[0].id}
    {
      assert ItemIds(items)[0] != ItemIds(items)[i + 1];
    }
  }

  lemma {:induction false} EncodedIds<P>(c: Codec<P>, items: seq<Item<P>>, index: int, used: set<int>)
    requires Distinct(ItemIds(items)) && forall i :: 0 <= i < |items| ==> items[i].id !in used
    ensures LoadIds(EncodeItems(c, items), index, used) == ItemIds(items)
  {
    if items != [] {
      EncodedItem(c, items[0], index);
      assert EncodeItems(c, items)[1..] == EncodeItems(c, items[1..]);
      TailIds(items, used);
      EncodedIds(c, items[1..], index + 1, used + {items[0].id});
    }
  }

  /** The counter survives a write and a load; only an empty file with a negative counter starts at 0. */
  lemma {:induction false} CounterSurvives<P>(c: Codec<P>, items: seq<Item<P>>, next: int)
    requires Distinct(ItemIds(items)) && Below(ItemIds(items), next)
    ensures FileNext(FileOf(c, items, next)) >= next
    ensures items != [] || next >= 0 ==> FileNext(FileOf(c, items, next)) == next
  {
    EncodedIds(c, items, 0, {});
  }

  // ---- ids through one operation ---------------------------------------------------------

  ghost predicate Sound<P>(items: seq<Item<P>>, next: int) {
    Distinct(ItemIds(items)) && Below(ItemIds(items), next)
  }

  lemma {:induction false} SameIds<P>(items: seq<Item<P>>, others: seq<Item<P>>, next: int)
    requires Sound(items, next) && |others| == |items|
    requires forall k :: 0 <= k < |items| ==> others[k].id == items[k].id
    ensures Sound(others, next)
  {
    assert ItemIds(others) == ItemIds(items);
  }

  /** What a rewrite makes of one item, when it does not fail. */
  function RewrittenItem<P>(i: Item<P>, touched: P -> bool, change: P -> Result<P>, now: Json): Item<P>
    requires touched(i.payload) ==> change(i.payload).Ok?
  {
    if touched(i.payload) then i.(updated := now, payload := change(i.payload).value) else i
  }

  predicate ChangeFails<P>(i: Item<P>, touched: P -> bool, change: P -> Result<P>) {
    touched(i.payload) && change(i.payload).Err?
  }

  /** A rewrite fails exactly when the change of some touched item does, and otherwise changes exactly the touched
      items. */
  lemma {:induction false} RewriteItemsIff<P>(items: seq<Item<P>>, touched: P -> bool, change: P -> Result<P>, now: Json)
    ensures var r := RewriteItems(items, touched, change, now);
            && (r.Err? <==> exists k :: 0 <= k < |items| && ChangeFails(items[k], touched, change))
            && (r.Err? ==> exists k :: 0 <= k < |items| && ChangeFails(items[k], touched, change)
                             && r.error == change(items[k].payload).error)
            && (r.Ok? ==> |r.value| == |items|)
            && (r.Ok? ==> forall k :: 0 <= k < |items| ==>
                  !ChangeFails(items[k], touched, change) && r.value[k] == RewrittenItem(items[k], touched, change, now))
  {
    if items != [] {
      var r, tail := RewriteItems(items, touched, change, now), RewriteItems(items[1..], touched, change, now);
      RewriteItemsIff(items[1..], touched, change, now);
      assert forall k :: 0 < k < |items| ==> items[k] == items[1..][k - 1];
      if ChangeFails(items[0], touched, change) {
        assert r.Err? && r.error == change(items[0].payload).error;
      } else if tail.Err? {
        var k :| 0 <= k < |items[1..]| && ChangeFails(items[1..][k], touched, change)
                 && tail.error == change(items[1..][k].payload).error;
        assert items[k + 1] == items[1..][k] && r == Err(tail.error);
      } else {
        assert r.Ok? && r.value == [RewrittenItem(items[0], touched, change, now)] + tail.value;
      }
    }
  }

  lemma {:induction false} RewriteEffectIff<P>(l: Loaded<P>, touched: P -> bool, change: P -> Result<P>, now: Json)
    ensures var e := RewriteEffect(l, touched, change, now);
            var failed := exists k :: 0 <= k < |l.items| && ChangeFails(l.items[k], touched, change);
            && (failed ==> exists k :: 0 <= k < |l.items| && ChangeFails(l.items[k], touched, change)
                             && e == Unwritten(l.items, l.next, Some(change(l.items[k].payload).error)))
            && (!failed ==> e.error.None? && e.next == l.next && |e.items| == |l.items|)
            && (!failed ==> forall k :: 0 <= k < |l.items| ==>
                  !ChangeFails(l.items[k], touched, change) && e.items[k] == RewrittenItem(l.items[k], touched, change, now))
            && (!failed ==> (e.wrote <==> exists k :: 0 <= k < |l.items| && touched(l.items[k].payload)))
  {
    RewriteItemsIff(l.items, touched, change, now);
  }

  lemma {:induction false} RewriteKeepsIds<P>(items: seq<Item<P>>, touched: P -> bool, change: P -> Result<P>, now: Json)
    ensures var r := RewriteItems(items, touched, change, now);
            r.Ok? ==> |r.value| == |items| && forall k :: 0 <= k < |items| ==> r.value[k].id == items[k].id
  {
    if items != [] {
      RewriteKeepsIds(items[1..], touched, change, now);
    }
  }

  lemma {:induction false} WithoutKeySource<P>(items: seq<Item<P>>, key: string, i: nat)
    requires i < |WithoutKey(items, key)|
    ensures exists j :: 0 <= j < |items| && items[j] == WithoutKey(items, key)[i]
  {
    if items[0].key == key {
      WithoutKeySource(items[1..], key, i);
      var j :| 0 <= j < |items[1..]| && items[1..][j] == WithoutKey(items, key)[i];
      assert items[j + 1] == WithoutKey(items, key)[i];
    } else if i == 0 {
      assert items[0] == WithoutKey(items, key)[i];
    } else {
      WithoutKeySource(items[1..], key, i - 1);
      var j :| 0 <= j < |items[1..]| && items[1..][j] == WithoutKey(items[1..], key)[i - 1];
      assert items[j + 1] == WithoutKey(items, key)[i];
    }
  }

  lemma {:induction false} WithoutKeySound<P>(items: seq<Item<P>>, key: string, next: int)
    requires Sound(items, next)
    ensures Sound(WithoutKey(items, key), next)
  {
    if items != [] {
      var rest := WithoutKey(items[1..], key);
      assert ItemIds(items)[1..] == ItemIds(items[1..]);
      assert Sound(items[1..], next) by {
        forall i, j | 0 <= i < j < |items[1..]|
          ensures ItemIds(items[1..])[i] != ItemIds(items[1..])[j]
        {
          assert ItemIds(items)[i + 1] != ItemIds(items)[j + 1];
        }
        forall i | 0 <= i < |items[1..]|
          ensures ItemIds(items[1..])[i] < next
        {
          assert ItemIds(items)[i + 1] < next;
        }
      }
      WithoutKeySound(items[1..], key, next);
      forall i | 0 <= i < |rest|
        ensures rest[i].id != items[0].id
      {
        WithoutKeySource(items[1..], key, i);
        var j :| 0 <= j < |items[1..]| && items[1..][j] == rest[i];
        assert ItemIds(items)[0] != ItemIds(items)[j + 1];
      }
      assert ItemIds(items)[0] < next;
      assert ItemIds([items[0]] + rest)[1..] == ItemIds(rest);
    }
  }

  lemma {:induction false} ImportIds<P>(imports: seq<Import<P>>, seen: set<string>, next: int)
    ensures var (r, n) := ImportItems(imports, seen, next);
            && n >= next
            && (r.Ok? ==> n == next + |r.value| && forall k :: 0 <= k < |r.value| ==> r.value[k].id == next + k)
    decreases |imports|
  {
    if imports != [] {
      var i := imports[0];
      var key := if i.slug in seen then UniqueKey(i.slug, seen) else Ok(i.slug);
      if key.Ok? {
        ImportIds(imports[1..], seen + {key.value}, next + 1);
      }
    }
  }

  /** Ids handed out ascend from the counter upwards. */
  ghost predicate Fresh(vended: seq<int>, lo: int, hi: int) {
    Ascending(vended) && forall i :: 0 <= i < |vended| ==> lo <= vended[i] < hi
  }

  lemma {:induction false} ApplyKeepsIds<P>(c: Codec<P>, l: Loaded<P>, op: Op<P>, now: Json)
    requires !op.Restart? && Sound(l.items, l.next)
    ensures var e := Apply(c, l, op, now);
            && Sound(e.items, e.next) && e.next >= l.next
            && Fresh(e.vended, l.next, e.next)
            && (!e.wrote ==> e.vended == [] && e.items == l.items)
  {
    match op
    case Create(slug, name, payload) => CreateKeepsIds(c, l, slug, name, payload, now);
    case Update(key, newLabel, edit) => UpdateKeepsIds(l, key, newLabel, edit, now);
    case Rewrite(touched, change) => RewriteEffectKeepsIds(l, touched, change, now);
    case Delete(key) => WithoutKeySound(l.items, key, l.next);
    case ReplaceAll(imports) => ReplaceKeepsIds(l, imports);
  }

  lemma {:induction false} UpdateKeepsIds<P>(l: Loaded<P>, key: string, newLabel: Option<string>, edit: P -> Result<P>, now: Json)
    requires Sound(l.items, l.next)
    ensures var e := UpdateEffect(l, key, newLabel, edit, now);
            Sound(e.items, e.next) && e.next == l.next && e.vended == [] && (!e.wrote ==> e.items == l.items)
  {
    SameIds(l.items, UpdateEffect(l, key, newLabel, edit, now).items, l.next);
  }

  lemma {:induction false} RewriteEffectKeepsIds<P>(l: Loaded<P>, touched: P -> bool, change: P -> Result<P>, now: Json)
    requires Sound(l.items, l.next)
    ensures var e := RewriteEffect(l, touched, change, now);
            Sound(e.items, e.next) && e.next == l.next && e.vended == [] && (!e.wrote ==> e.items == l.items)
  {
    RewriteKeepsIds(l.items, touched, change, now);
    SameIds(l.items, RewriteEffect(l, touched, change, now).items, l.next);
  }

  lemma {:induction false} CreateKeepsIds<P>(c: Codec<P>, l: Loaded<P>, slug: string, name: string, payload: Result<P>, now: Json)
    requires Sound(l.items, l.next)
    ensures var e := CreateEffect(c, l, slug, name, payload, now);
            && Sound(e.items, e.next) && e.next >= l.next
            && Fresh(e.vended, l.next, e.next)
            && (!e.wrote ==> e.vended == [] && e.items == l.items)
  {
    var e := CreateEffect(c, l, slug, name, payload, now);
    if e.wrote {
      AppendedSound(l.items, l.next, e.items[|l.items|]);
    }
  }

  lemma {:induction false} AppendedSound<P>(items: seq<Item<P>>, next: int, i: Item<P>)
    requires Sound(items, next) && i.id == next
    ensures Sound(items + [i], next + 1)
  {
    assert ItemIds(items + [i]) == ItemIds(items) + [next];
  }

  lemma {:induction false} ReplaceKeepsIds<P>(l: Loaded<P>, imports: seq<Import<P>>)
    requires Sound(l.items, l.next)
    ensures var e := ReplaceEffect(l, imports);
            && Sound(e.items, e.next) && e.next >= l.next
            && Fresh(e.vended, l.next, e.next)
            && (!e.wrote ==> e.vended == [] && e.items == l.items)
  {
    ImportIds(imports, {}, l.next);
  }

  // ---- ids over a run ------------------------------------------------------------------------

  /** What is cached is sound, and its counter is never behind the file's. */
  ghost predicate Inv<P>(m: Machine<P>) {
    m.cache.Some? ==> m.next.Some? && Sound(m.cache.value, m.next.value) && FileNext(m.file) <= m.next.value
  }

  lemma {:induction false} LoadIsSound<P>(c: Codec<P>, f: File, now: Json)
    ensures Load(c, f, now).Ok? ==>
              var l := Load(c, f, now).value;
              Sound(l.items, l.next) && l.next == FileNext(f) && (l.items == [] ==> l.next >= 0)
  {
    LoadedItemIds(c, EntriesOf(f), 0, {}, now);
    LoadedIdsDistinct(EntriesOf(f), 0, {});
  }

  lemma {:induction false} OpenKeepsIds<P>(c: Codec<P>, m: Machine<P>, now: Json)
    requires Inv(m) && Open(c, m, now).Ok?
    ensures var o := Open(c, m, now).value;
            && o.cache.Some? && o.next.Some? && Inv(o)
            && FileNext(m.file) <= FileNext(o.file)
  {
    if !(m.cache.Some? && m.next.Some?) {
      LoadIsSound(c, m.file, now);
      var l := Load(c, m.file, now).value;
      CounterSurvives(c, l.items, l.next);
    }
  }

  lemma {:induction false} StepKeepsIds<P>(c: Codec<P>, m: Machine<P>, op: Op<P>, now: Json)
    requires Inv(m)
    ensures var (m', r) := Step(c, m, op, now);
            && Inv(m') && FileNext(m.file) <= FileNext(m'.file)
            && Fresh(r.vended, FileNext(m.file), FileNext(m'.file))
  {
    if !op.Restart? && Open(c, m, now).Ok? {
      OpenKeepsIds(c, m, now);
      var o := Open(c, m, now).value;
      var l := Loaded(o.cache.value, o.next.value);
      ApplyKeepsIds(c, l, op, now);
      var e := Apply(c, l, op, now);
      CounterSurvives(c, e.items, e.next);
    }
  }

  datatype Call<!P> = Call(op: Op<P>, now: Json)

  function RunCalls<P>(c: Codec<P>, m: Machine<P>, calls: seq<Call<P>>): (Machine<P>, seq<int>)
    decreases |calls|
  {
    if calls == [] then (m, [])
    else
      var (m', r) := Step(c, m, calls[0].op, calls[0].now);
      var (end, vended) := RunCalls(c, m', calls[1..]);
      (end, r.vended + vended)
  }

  /** Over any run of calls and restarts, from any file and any sound cache, the ids handed out strictly
      ascend, so no id is ever handed out twice; the file's counter never decreases and stays above every
      id handed out. */
  lemma {:induction false} IdsNeverRecycled<P>(c: Codec<P>, m: Machine<P>, calls: seq<Call<P>>)
    requires Inv(m)
    ensures var (end, vended) := RunCalls(c, m, calls);
            && Inv(end) && FileNext(m.file) <= FileNext(end.file)
            && Fresh(vended, FileNext(m.file), FileNext(end.file))
    decreases |calls|
  {
    if calls != [] {
      StepKeepsIds(c, m, calls[0].op, calls[0].now);
      var (m', r) := Step(c, m, calls[0].op, calls[0].now);
      IdsNeverRecycled(c, m', calls[1..]);
    }
  }

  // ---- what was written is what is loaded ----------------------------------------------------------

  /** The payload comes back as it was saved, and no timestamp is defaulted. */
  ghost predicate ComesBack<P>(c: Codec<P>, i: Item<P>) {
    c.load(EncodeItem(c, i).m) == Ok(i.payload) && Truthy(i.created) && Truthy(i.updated)
  }

  ghost predicate AllComeBack<P>(c: Codec<P>, items: seq<Item<P>>) {
    forall k :: 0 <= k < |items| ==> ComesBack(c, items[k])
  }

  lemma {:induction false} EncodedLoads<P>(c: Codec<P>, i: Item<P>, now: Json)
    requires Truthy(i.created) && Truthy(i.updated)
    ensures LoadItem(c, EncodeItem(c, i).m, i.id, now) == Ok(i) <==> ComesBack(c, i)
  {
    EncodedItem(c, i, 0);
  }

  lemma {:induction false} EncodedItemsLoad<P>(c: Codec<P>, items: seq<Item<P>>, index: int, used: set<int>, now: Json)
    requires Distinct(ItemIds(items)) && forall i :: 0 <= i < |items| ==> items[i].id !in used
    requires forall i :: 0 <= i < |items| ==> Truthy(items[i].created) && Truthy(items[i].updated)
    ensures LoadItems(c, EncodeItems(c, items), index, used, now) == Ok(items) <==> AllComeBack(c, items)
  {
    if items != [] {
      EncodedItem(c, items[0], index);
      EncodedLoads(c, items[0], now);
      TailIds(items, used);
      EncodedItemsLoad(c, items[1..], index + 1, used + {items[0].id}, now);
      LoadCons(c, EncodeItem(c, items[0]), EncodeItems(c, items[1..]), index, used, now, items[0].id);
      ConsIff(LoadItem(c, EncodeItem(c, items[0]).m, items[0].id, now),
              LoadItems(c, EncodeItems(c, items[1..]), index + 1, used + {items[0].id}, now), items);
      AllComeBackCons(c, items);
    }
  }

  /** A head and a tail, each loaded or failed, put together. */
  function Joined<P>(head: Result<P>, tail: Result<seq<P>>): Result<seq<P>> {
    if head.Err? then Err(head.error) else if tail.Err? then Err(tail.error) else Ok([head.value] + tail.value)
  }

  lemma {:induction false} ConsIff<P>(head: Result<P>, tail: Result<seq<P>>, items: seq<P>)
    requires items != []
    ensures Joined(head, tail) == Ok(items) <==> head == Ok(items[0]) && tail == Ok(items[1..])
  {
    if head.Ok? && tail.Ok? {
      var all := [head.value] + tail.value;
      assert all[0] == head.value && all[1..] == tail.value;
      assert items == [items[0]] + items[1..];
    }
  }

  lemma {:induction false} AllComeBackCons<P>(c: Codec<P>, items: seq<Item<P>>)
    requires items != []
    ensures AllComeBack(c, items) <==> ComesBack(c, items[0]) && AllComeBack(c, items[1..])
  {
    assert forall k :: 0 < k < |items| ==> items[k] == items[1..][k - 1];
  }

  lemma {:induction false} LoadCons<P>(c: Codec<P>, e: Json, rest: seq<Json>, index: int, used: set<int>, now: Json, id: int)
    requires Usable(e) && RawId(e, index) == id && id !in used
    ensures LoadItems(c, [e] + rest, index, used, now)
         == Joined(LoadItem(c, e.m, id, now), LoadItems(c, rest, index + 1, used + {id}, now))
  {
    assert ([e] + rest)[1..] == rest;
  }

  /** A fresh load of a written file gives back the written items and counter if and only if every payload
      survives its own encoding. */
  lemma {:induction false} ReloadIff<P>(c: Codec<P>, items: seq<Item<P>>, next: int, now: Json)
    requires Sound(items, next) && (items != [] || next >= 0)
    requires forall i :: 0 <= i < |items| ==> Truthy(items[i].created) && Truthy(items[i].updated)
    ensures Load(c, FileOf(c, items, next), now) == Ok(Loaded(items, next)) <==> AllComeBack(c, items)
  {
    EncodedItemsLoad(c, items, 0, {}, now);
    CounterSurvives(c, items, next);
  }

  /** Everything about a loaded state that a write preserves. */
  ghost predicate Good<P>(c: Codec<P>, l: Loaded<P>) {
    Sound(l.items, l.next) && l.next >= 0 && AllComeBack(c, l.items)
  }

  /** The machine stands for `l`: that is what it would work on, and what a fresh process would load. */
  ghost predicate Holds<P>(c: Codec<P>, m: Machine<P>, l: Loaded<P>) {
    && (m.cache.Some? ==> m.cache.value == l.items && m.next == Some(l.next))
    && forall now :: Load(c, m.file, now) == Ok(l)
  }

  /** An operation on the logical state alone. */
  function Logical<P>(c: Codec<P>, l: Loaded<P>, op: Op<P>, now: Json): Loaded<P> {
    if op.Restart? then l
    else
      var e := Apply(c, l, op, now);
      Loaded(e.items, e.next)
  }

  /** Whether a call leaves the counter alone unless it writes. */
  predicate Settles<P>(c: Codec<P>, l: Loaded<P>, op: Op<P>, now: Json) {
    op.Restart? || (var e := Apply(c, l, op, now); e.wrote || e.next == l.next)
  }

  /** Cache and disk never disagree: one call takes a machine that stands for `l` to one that stands for
      the logical result, as long as that result is good. */
  lemma {:induction false} StepHolds<P>(c: Codec<P>, m: Machine<P>, l: Loaded<P>, op: Op<P>, now: Json)
    requires Holds(c, m, l) && Good(c, l) && !c.upgrades && Settles(c, l, op, now)
    requires Good(c, Logical(c, l, op, now))
    ensures Holds(c, Step(c, m, op, now).0, Logical(c, l, op, now))
  {
    if !op.Restart? {
      ApplyKeepsIds(c, l, op, now);
      var e := Apply(c, l, op, now);
      assert Load(c, m.file, now) == Ok(l);
      if e.wrote {
        forall now'
          ensures Load(c, FileOf(c, e.items, e.next), now') == Ok(Loaded(e.items, e.next))
        {
          ReloadIff(c, e.items, e.next, now');
        }
      }
    }
  }

  // ---- content alone ---------------------------------------------------------------------------

  /** Whoever loads the file gets `items` and `next`. A filled cache holds the same items; its counter may have
      run ahead, because a call that fails late has claimed an id without writing. */
  ghost predicate Mirrors<P>(c: Codec<P>, m: Machine<P>, items: seq<Item<P>>, next: int) {
    && Good(c, Loaded(items, next))
    && (forall now :: Load(c, m.file, now) == Ok(Loaded(items, next)))
    && !Stale(c, m.file)
    && (m.cache.Some? ==> m.cache.value == items && m.next.Some? && m.next.value >= next)
  }

  /** What an operation would write, wherever the counter has got to, survives a load. */
  ghost predicate WritesGood<P>(c: Codec<P>, items: seq<Item<P>>, next: int, op: Op<P>, now: Json) {
    !op.Restart? ==> forall n: int :: n >= next ==>
      (Apply(c, Loaded(items, n), op, now).wrote ==> AllComeBack(c, Apply(c, Loaded(items, n), op, now).items))
  }

  lemma {:induction false} SoundUpwards<P>(items: seq<Item<P>>, next: int, n: int)
    requires Sound(items, next) && next <= n
    ensures Sound(items, n)
  {
  }

  lemma {:induction false} StepMirrors<P>(c: Codec<P>, m: Machine<P>, items: seq<Item<P>>, next: int, op: Op<P>, now: Json)
      returns (items': seq<Item<P>>, next': int)
    requires Mirrors(c, m, items, next) && WritesGood(c, items, next, op, now)
    ensures Mirrors(c, Step(c, m, op, now).0, items', next') && next <= next'
  {
    items', next' := items, next;
    if !op.Restart? && !RefusedEarly(c, op) {
      var n := if m.cache.Some? then m.next.value else next;
      StepIsApply(c, m, items, next, op, now);
      SoundUpwards(items, next, n);
      ApplyKeepsIds(c, Loaded(items, n), op, now);
      var e := Apply(c, Loaded(items, n), op, now);
      if e.wrote {
        WrittenFileLoads(c, e.items, e.next);
        items', next' := e.items, e.next;
      }
    }
  }

  lemma {:induction false} OpenMirrors<P>(c: Codec<P>, m: Machine<P>, items: seq<Item<P>>, next: int, now: Json)
    requires Mirrors(c, m, items, next)
    ensures var o := Open(c, m, now);
            o.Ok? && o.value.file == m.file && o.value.cache == Some(items) && Mirrors(c, o.value, items, next)
  {
    assert Load(c, m.file, now) == Ok(Loaded(items, next));
  }

  /** A create that raises before the store is opened. */
  predicate RefusedEarly<P>(c: Codec<P>, op: Op<P>) {
    op.Create? && (op.name == "" || (!c.claimsFirst && op.payload.Err?))
  }

  lemma {:induction false} StepIsApply<P>(c: Codec<P>, m: Machine<P>, items: seq<Item<P>>, next: int, op: Op<P>, now: Json)
    requires Mirrors(c, m, items, next) && !op.Restart? && !RefusedEarly(c, op)
    ensures var n := if m.cache.Some? then m.next.value else next;
            var e := Apply(c, Loaded(items, n), op, now);
            Step(c, m, op, now) == (if e.wrote then Machine(FileOf(c, e.items, e.next), None, Some(e.next))
                                    else Machine(m.file, Some(e.items), Some(e.next)),
                                    Report(e.vended, e.error))
  {
    assert Load(c, m.file, now) == Ok(Loaded(items, next));
  }

  lemma {:induction false} WrittenFileLoads<P>(c: Codec<P>, items: seq<Item<P>>, next: int)
    requires Good(c, Loaded(items, next))
    ensures forall now :: Load(c, FileOf(c, items, next), now) == Ok(Loaded(items, next))
  {
    forall now
      ensures Load(c, FileOf(c, items, next), now) == Ok(Loaded(items, next))
    {
      ReloadIff(c, items, next, now);
    }
  }

  // ---- files the store did not write ---------------------------------------------------------------

  /** Every entry that is loaded carries its creation time, so a load does not look at the clock. */
  predicate Stamped(entries: seq<Json>) {
    forall i :: 0 <= i < |entries| && Usable(entries[i]) ==> Truthy(Get(entries[i].m, "created"))
  }

  lemma {:induction false} StampedCons(entries: seq<Json>)
    requires entries != []
    ensures Stamped(entries) <==> (Usable(entries[0]) ==> Truthy(Get(entries[0].m, "created"))) && Stamped(entries[1..])
  {
    assert forall i :: 0 <= i < |entries[1..]| ==> entries[1..][i] == entries[i + 1];
    if Stamped(entries[1..]) {
      forall i | 1 <= i < |entries| && Usable(entries[i])
        ensures Truthy(Get(entries[i].m, "created"))
      {
        assert entries[1..][i - 1] == entries[i];
      }
    }
  }

  /** Only the creation time can come from the clock. */
  lemma {:induction false} SameStampIff<P>(c: Codec<P>, m: Object, id: int, now: Json, later: Json)
    requires Get(m, "key").JStr? && Get(m, "label").JStr?
    ensures LoadItem(c, m, id, now).Ok? <==> LoadItem(c, m, id, later).Ok?
    ensures Truthy(Get(m, "created")) ==> LoadItem(c, m, id, now) == LoadItem(c, m, id, later)
    ensures !Truthy(Get(m, "created")) && now != later && LoadItem(c, m, id, now).Ok? ==>
              LoadItem(c, m, id, now) != LoadItem(c, m, id, later)
  {
  }

  lemma {:induction false} LoadHead<P>(c: Codec<P>, entries: seq<Json>, index: int, used: set<int>, now: Json)
    requires entries != []
    ensures LoadItems(c, entries, index, used, now)
         == if !Usable(entries[0]) then LoadItems(c, entries[1..], index + 1, used, now)
            else
              var id := FirstFree(RawId(entries[0], index), used);
              Joined(LoadItem(c, entries[0].m, id, now), LoadItems(c, entries[1..], index + 1, used + {id}, now))
  {
  }

  lemma {:induction false} JoinedDiffer<P>(a: Result<P>, s: Result<seq<P>>, b: Result<P>, t: Result<seq<P>>)
    requires Joined(a, s).Ok? && (a != b || s != t)
    ensures Joined(a, s) != Joined(b, t)
  {
    if b.Ok? && t.Ok? {
      var x, y := [a.value] + s.value, [b.value] + t.value;
      assert x[0] == a.value && x[1..] == s.value && y[0] == b.value && y[1..] == t.value;
    }
  }

  /** What holds of every payload that loads holds of every loaded item, and its times are set. */
  lemma {:induction false} LoadedItemsGood<P>(c: Codec<P>, entries: seq<Json>, index: int, used: set<int>, now: Json, good: P -> bool)
    requires Truthy(now) && forall m: Object :: c.load(m).Ok? ==> good(c.load(m).value)
    ensures var r := LoadItems(c, entries, index, used, now);
            r.Ok? ==> forall k :: 0 <= k < |r.value| ==>
              Truthy(r.value[k].created) && Truthy(r.value[k].updated) && good(r.value[k].payload)
    decreases |entries|
  {
    if entries != [] {
      LoadHead(c, entries, index, used, now);
      if Usable(entries[0]) {
        var id := FirstFree(RawId(entries[0], index), used);
        LoadedItemsGood(c, entries[1..], index + 1, used + {id}, now, good);
      } else {
        LoadedItemsGood(c, entries[1..], index + 1, used, now, good);
      }
    }
  }

  /** Two loads at different times agree exactly when every entry is stamped. */
  lemma {:induction false} ClockPlaysNoPartIff<P>(c: Codec<P>, entries: seq<Json>, index: int, used: set<int>, now: Json, later: Json)
    requires now != later
    ensures Stamped(entries) ==> LoadItems(c, entries, index, used, now) == LoadItems(c, entries, index, used, later)
    ensures !Stamped(entries) && LoadItems(c, entries, index, used, now).Ok? ==>
              LoadItems(c, entries, index, used, now) != LoadItems(c, entries, index, used, later)
    decreases |entries|
  {
    if entries != [] {
      StampedCons(entries);
      LoadHead(c, entries, index, used, now);
      LoadHead(c, entries, index, used, later);
      if Usable(entries[0]) {
        var m, id := entries[0].m, FirstFree(RawId(entries[0], index), used);
        var a, b := LoadItem(c, m, id, now), LoadItem(c, m, id, later);
        var s, t := LoadItems(c, entries[1..], index + 1, used + {id}, now), LoadItems(c, entries[1..], index + 1, used + {id}, later);
        SameStampIff(c, m, id, now, later);
        ClockPlaysNoPartIff(c, entries[1..], index + 1, used + {id}, now, later);
        if Joined(a, s).Ok? && (a != b || s != t) {
          JoinedDiffer(a, s, b, t);
        }
      } else {
        ClockPlaysNoPartIff(c, entries[1..], index + 1, used, now, later);
      }
    }
  }

  /** A file loads to the same state whenever it is loaded exactly when every entry is stamped. */
  lemma {:induction false} LoadsAlwaysIff<P>(c: Codec<P>, f: File, now: Json)
    requires Load(c, f, now).Ok?
    ensures (forall later :: Load(c, f, later) == Load(c, f, now)) <==> Stamped(EntriesOf(f))
  {
    var l := Load(c, f, now);
    var other := if now == JInt(1) then JInt(2) else JInt(1);
    ClockPlaysNoPartIff(c, EntriesOf(f), 0, {}, now, other);
    assert Load(c, f, other) == l ==> Stamped(EntriesOf(f));
    if Stamped(EntriesOf(f)) {
      forall later
        ensures Load(c, f, later) == l
      {
        if later != now {
          ClockPlaysNoPartIff(c, EntriesOf(f), 0, {}, now, later);
        }
      }
    }
  }

  /** Where a store may start: a cold process over a file that loads, with everything in it good. */
  lemma {:induction false} OpenedMirrorsIff<P>(c: Codec<P>, f: File, now: Json)
    requires Load(c, f, now).Ok? && AllComeBack(c, Load(c, f, now).value.items)
    ensures var o, l := Open(c, Machine(f, None, None), now), Load(c, f, now).value;
            && o.Ok?
            && (FileNext(f) >= 0 && (Stale(c, f) || Stamped(EntriesOf(f))) ==> Mirrors(c, o.value, l.items, l.next))
            && forall items, next :: Mirrors(c, o.value, items, next) ==> FileNext(f) >= 0 && (Stale(c, f) || Stamped(EntriesOf(f)))
  {
    var o, l := Open(c, Machine(f, None, None), now).value, Load(c, f, now).value;
    LoadIsSound(c, f, now);
    LoadsAlwaysIff(c, f, now);
    if FileNext(f) >= 0 && Stale(c, f) {
      WrittenFileLoads(c, l.items, l.next);
    }
    forall items, next | Mirrors(c, o, items, next)
      ensures FileNext(f) >= 0 && (Stale(c, f) || Stamped(EntriesOf(f)))
    {
      MirrorsNeed(c, f, now, items, next);
    }
  }

  lemma {:induction false} MirrorsNeed<P>(c: Codec<P>, f: File, now: Json, items: seq<Item<P>>, next: int)
    requires Load(c, f, now).Ok? && Mirrors(c, Open(c, Machine(f, None, None), now).value, items, next)
    ensures FileNext(f) >= 0 && (Stale(c, f) || Stamped(EntriesOf(f)))
  {
    var o, l := Open(c, Machine(f, None, None), now).value, Load(c, f, now).value;
    LoadIsSound(c, f, now);
    assert Load(c, o.file, now) == Ok(Loaded(items, next));
    if Stale(c, f) {
      CounterSurvives(c, l.items, l.next);
    } else {
      LoadsAlwaysIff(c, f, now);
      forall later
        ensures Load(c, f, later) == Load(c, f, now)
      {
        assert Load(c, o.file, later) == Ok(Loaded(items, next));
      }
    }
  }

  // ---- the counter in memory and in the file ------------------------------------------------------

  /** The counter in memory, if there is one, is the one a load of the file gives. */
  predicate InStep<P>(m: Machine<P>) {
    m.next.Some? ==> m.next.value == FileNext(m.file)
  }

  /** Some import cannot be stored: its payload is invalid or no key can be derived for it. */
  predicate ImportsRefused<P>(imports: seq<Import<P>>, seen: set<string>)
    decreases |imports|
  {
    imports != []
    && var i := imports[0];
       var key := if i.slug in seen then UniqueKey(i.slug, seen) else Ok(i.slug);
       key.Err? || i.payload.Err? || ImportsRefused(imports[1..], seen + {key.value})
  }

  /** The calls that hand an id to nobody: a create that validates after it claimed the id, and any bulk replace that
      is refused. Bulk replace claims the id of its first entry before anything can refuse it. */
  predicate ClaimsUnwritten<P>(c: Codec<P>, op: Op<P>, items: seq<Item<P>>) {
    match op
    case Create(slug, name, payload) => c.claimsFirst && name != "" && UniqueKey(slug, KeysOf(items)).Ok? && payload.Err?
    case ReplaceAll(imports) => ImportsRefused(imports, {})
    case _ => false
  }

  lemma {:induction false} RefusedImports<P>(imports: seq<Import<P>>, seen: set<string>, next: int)
    ensures ImportItems(imports, seen, next).0.Err? <==> ImportsRefused(imports, seen)
    ensures imports != [] && imports[0].slug !in seen ==> ImportItems(imports, seen, next).1 > next
    decreases |imports|
  {
    if imports != [] {
      var i := imports[0];
      var key := if i.slug in seen then UniqueKey(i.slug, seen) else Ok(i.slug);
      if key.Ok? {
        RefusedImports(imports[1..], seen + {key.value}, next + 1);
        ImportIds(imports[1..], seen + {key.value}, next + 1);
      }
    }
  }

  /** With keys that differ, a bulk replace stops at its first invalid import and has claimed an id for each import up
      to and including that one. */
  lemma {:induction false} ImportsUpTo<P>(imports: seq<Import<P>>, seen: set<string>, next: int, k: nat)
    requires k < |imports|
    requires forall i, j :: 0 <= i < j < |imports| ==> imports[i].slug != imports[j].slug
    requires forall i :: 0 <= i < |imports| ==> imports[i].slug !in seen
    requires (forall i :: 0 <= i < k ==> imports[i].payload.Ok?) && imports[k].payload.Err?
    ensures ImportItems(imports, seen, next) == (Err(imports[k].payload.error), next + k + 1)
    decreases |imports|
  {
    if k > 0 {
      forall i | 0 <= i < |imports[1..]|
        ensures imports[1..][i].slug !in seen + {imports[0].slug}
      {
        assert imports[0].slug != imports[i + 1].slug;
      }
      ImportsUpTo(imports[1..], seen + {imports[0].slug}, next + 1, k - 1);
    }
  }

  /** A create that is refused after it claimed its id. */
  lemma {:induction false} LateRefusal<P>(c: Codec<P>, m: Machine<P>, items: seq<Item<P>>, next: int,
                                          slug: string, name: string, payload: Result<P>, now: Json)
    requires Mirrors(c, m, items, next) && InStep(m) && c.claimsFirst
    requires name != "" && UniqueKey(slug, KeysOf(items)).Ok? && payload.Err?
    ensures Step(c, m, Create(slug, name, payload), now)
         == (Machine(m.file, Some(items), Some(next + 1)), Report([], Some(payload.error)))
  {
    assert Load(c, m.file, now) == Ok(Loaded(items, next));
    StepIsApply(c, m, items, next, Create(slug, name, payload), now);
  }

  /** A bulk replace that is refused at its k-th import. */
  lemma {:induction false} LateReplacement<P>(c: Codec<P>, m: Machine<P>, items: seq<Item<P>>, next: int,
                                              imports: seq<Import<P>>, k: nat, now: Json)
    requires Mirrors(c, m, items, next) && InStep(m) && k < |imports|
    requires forall i, j :: 0 <= i < j < |imports| ==> imports[i].slug != imports[j].slug
    requires (forall i :: 0 <= i < k ==> imports[i].payload.Ok?) && imports[k].payload.Err?
    ensures Step(c, m, ReplaceAll(imports), now)
         == (Machine(m.file, Some(items), Some(next + k + 1)), Report([], Some(imports[k].payload.error)))
  {
    assert Load(c, m.file, now) == Ok(Loaded(items, next));
    ImportsUpTo(imports, {}, next, k);
    StepIsApply(c, m, items, next, ReplaceAll(imports), now);
  }

  lemma {:induction false} UnwrittenMovesCounterIff<P>(c: Codec<P>, l: Loaded<P>, op: Op<P>, now: Json)
    requires !op.Restart? && !RefusedEarly(c, op)
    ensures var e := Apply(c, l, op, now);
            e.wrote || e.next == l.next <==> !ClaimsUnwritten(c, op, l.items)
  {
    if op.ReplaceAll? {
      RefusedImports(op.imports, {}, l.next);
    }
  }

  /** From a store whose two counters agree, with a warm or a cold cache, they agree after a call if and only if the
      call is not one of those. */
  lemma {:induction false} CountersAgreeIff<P>(c: Codec<P>, m: Machine<P>, items: seq<Item<P>>, next: int, op: Op<P>, now: Json)
    requires Mirrors(c, m, items, next) && WritesGood(c, items, next, op, now) && InStep(m)
    ensures InStep(Step(c, m, op, now).0) <==> !ClaimsUnwritten(c, op, items)
  {
    assert Load(c, m.file, now) == Ok(Loaded(items, next));
    assert FileNext(m.file) == next;
    if !op.Restart? && !RefusedEarly(c, op) {
      var l := Loaded(items, next);
      StepIsApply(c, m, items, next, op, now);
      UnwrittenMovesCounterIff(c, l, op, now);
      ApplyKeepsIds(c, l, op, now);
      var e := Apply(c, l, op, now);
      if e.wrote {
        WrittenFileLoads(c, e.items, e.next);
        assert Load(c, FileOf(c, e.items, e.next), now) == Ok(Loaded(e.items, e.next));
      }
    }
  }
}
