/** The validator's loops, proved against the specification functions of `SceneActions`. */
module ValidatorLoops {
  import opened Basics
  import opened JsonValues
  import opened Offsets
  import opened SceneActions

  lemma {:induction false} IntsOfAt(a: seq<Json>)
    ensures IntsOf(a).Some? <==> forall k :: 0 <= k < |a| ==> ToInt(a[k]).Ok?
    ensures IntsOf(a).Some? ==>
              |IntsOf(a).value| == |a| && forall k :: 0 <= k < |a| ==> IntsOf(a).value[k] == ToInt(a[k]).value
  {
    if a != [] {
      IntsOfAt(a[1..]);
      assert a == [a[0]] + a[1..];
    }
  }

  /** Coerces, range-checks and de-duplicates entry by entry, then sorts. */
  method CanonicalGroupIds(a: seq<Json>) returns (r: Result<seq<int>>)
    ensures r == CanonIds(a)
  {
    IntsOfAt(a);
    if a == [] {
      return Err(ValueError);
    }
    var seen: set<int>, ids: seq<int> := {}, [];
    for i := 0 to |a|
      invariant |ids| == i
      invariant forall k :: 0 <= k < i ==> ToInt(a[k]) == Ok(ids[k]) && GroupId(ids[k])
      invariant forall g :: g in seen <==> g in ids
      invariant NoDuplicates(ids)
    {
      var v := ToInt(a[i]);
      if v.Err? || !GroupId(v.value) {
        return Err(ValueError);
      }
      if v.value in seen {
        return Err(ValueError);
      }
      seen := seen + {v.value};
      ids := ids + [v.value];
    }
    assert ids == IntsOf(a).value;
    r := Ok(SortIds(ids));
  }

  /** Validates the explicit values one by one, each against the groups of the container. */
  method CanonicalValues(raw: seq<Json>, groups: seq<int>) returns (r: Result<seq<GroupMs>>)
    ensures r == (var entries := CanonEntries(raw, groups);
                  if entries.Err? then entries else Ok(SortBy(entries.value, EntryId)))
  {
    var values: seq<GroupMs> := [];
    assert raw[0..] == raw;
    ghost var all := CanonEntries(raw, groups);
    assert all.Ok? ==> [] + all.value == all.value;
    for i := 0 to |raw|
      invariant var rest := CanonEntries(raw[i..], groups);
                CanonEntries(raw, groups) == if rest.Err? then rest else Ok(values + rest.value)
    {
      assert raw[i..][1..] == raw[i + 1..];
      var e := CanonEntry(raw[i], groups);
      if e.Err? {
        return Err(e.error);
      }
      var rest := CanonEntries(raw[i + 1..], groups);
      assert rest.Ok? ==> values + ([e.value] + rest.value) == values + [e.value] + rest.value;
      values := values + [e.value];
    }
    assert values + [] == values;
    r := Ok(SortBy(values, EntryId));
  }

  /** Copies the user flags that are present, in the fixed key order. */
  method CanonicalFlagsOverride(raw: Json) returns (r: Result<map<string, bool>>)
    ensures r == CanonFlags(raw)
  {
    if !Truthy(raw) {
      return Ok(map[]);
    }
    if !raw.JObj? {
      return Err(ValueError);
    }
    var out: map<string, bool> := map[];
    for i := 0 to |FLAG_KEYS|
      invariant forall k :: k in out <==> k in raw.m && k in FLAG_KEYS[..i]
      invariant forall k :: k in out ==> out[k] == Truthy(raw.m[k])
    {
      if FLAG_KEYS[i] in raw.m {
        out := out[FLAG_KEYS[i] := Truthy(raw.m[FLAG_KEYS[i]])];
      }
      assert FLAG_KEYS[..i + 1] == FLAG_KEYS[..i] + [FLAG_KEYS[i]];
    }
    assert FLAG_KEYS[..|FLAG_KEYS|] == FLAG_KEYS;
    assert out == CanonFlags(raw).value;
    r := Ok(out);
  }
}
