/** Values every other module shares: optional values, results that carry Python's exceptions,
    bytes, and lists of integers or of keyed entries. */
module Basics {
  datatype Option<+T> = None | Some(value: T)

  /** The scene loader catches `ValueError` and lets every other exception through. */
  datatype Failure = ValueError | OtherError

  datatype Result<+T> = Ok(value: T) | Err(error: Failure) {
    predicate IsFailure() {
      Err?
    }

    function PropagateFailure<U>(): Result<U>
      requires Err?
    {
      Err(error)
    }

    function Extract(): T
      requires Ok?
    {
      value
    }
  }

  type byte = x: int | 0 <= x < 256

  /** `x & 0xFF`, for negative `x` too. */
  function LowByte(x: int): byte {
    x % 256
  }

  function Min(a: int, b: int): int {
    if a < b then a else b
  }

  function Max(a: int, b: int): int {
    if a < b then b else a
  }

  /** `max(lo, min(hi, v))`. */
  function Clamp(v: int, lo: int, hi: int): int {
    Max(lo, Min(hi, v))
  }

  /** Whether the bit of weight `m` (a power of two) is set in `x`. */
  predicate HasBit(x: nat, m: nat)
    requires m > 0
  {
    (x / m) % 2 == 1
  }

  /** `x | m` for a single bit `m`. */
  function SetBit(x: nat, m: nat): nat
    requires m > 0
  {
    if HasBit(x, m) then x else x + m
  }

  function Members(s: seq<int>): set<int> {
    set x | x in s
  }

  // ---- lists ----------------------------------------------------------------

  ghost predicate Distinct<T>(s: seq<T>) {
    forall i, j :: 0 <= i < j < |s| ==> s[i] != s[j]
  }

  /** Sorted by key, equal keys allowed. */
  ghost predicate SortedBy<T>(s: seq<T>, key: T -> int) {
    forall i, j :: 0 <= i < j < |s| ==> key(s[i]) <= key(s[j])
  }

  ghost predicate Ascending(s: seq<int>) {
    forall i, j :: 0 <= i < j < |s| ==> s[i] < s[j]
  }

  function Map<S, T>(f: S -> T, s: seq<S>): (r: seq<T>)
    ensures |r| == |s|
    ensures forall i :: 0 <= i < |s| ==> r[i] == f(s[i])
  {
    if s == [] then [] else [f(s[0])] + Map(f, s[1..])
  }

  lemma Associative<T>(a: seq<T>, b: seq<T>, c: seq<T>)
    ensures (a + b) + c == a + (b + c)
  {
  }

  function Concat<T>(ss: seq<seq<T>>): seq<T> {
    if ss == [] then [] else ss[0] + Concat(ss[1..])
  }

  lemma {:induction false} ConcatAppend<T>(ss: seq<seq<T>>, last: seq<T>)
    ensures Concat(ss + [last]) == Concat(ss) + last
  {
    if ss == [] {
      assert ss + [last] == [last];
      assert Concat([last]) == last + Concat<T>([]);
    } else {
      assert (ss + [last])[1..] == ss[1..] + [last];
      ConcatAppend(ss[1..], last);
      assert ss[0] + (Concat(ss[1..]) + last) == (ss[0] + Concat(ss[1..])) + last;
    }
  }

  /** Insertion before the first entry whose key is not smaller: Python's stable `list.sort(key=...)`. */
  function InsertBy<T>(x: T, s: seq<T>, key: T -> int): seq<T> {
    if s == [] || key(x) <= key(s[0]) then [x] + s else [s[0]] + InsertBy(x, s[1..], key)
  }

  function SortBy<T>(s: seq<T>, key: T -> int): seq<T> {
    if s == [] then [] else InsertBy(s[0], SortBy(s[1..], key), key)
  }

  lemma {:induction false} InsertByMembers<T>(x: T, s: seq<T>, key: T -> int)
    ensures |InsertBy(x, s, key)| == |s| + 1
    ensures forall y :: y in InsertBy(x, s, key) <==> y == x || y in s
  {
    if s != [] && key(x) > key(s[0]) {
      InsertByMembers(x, s[1..], key);
      assert s == [s[0]] + s[1..];
    }
  }

  lemma {:induction false} InsertByLowerBound<T>(x: T, s: seq<T>, key: T -> int, lo: int)
    requires lo <= key(x) && forall i :: 0 <= i < |s| ==> lo <= key(s[i])
    ensures forall i :: 0 <= i < |InsertBy(x, s, key)| ==> lo <= key(InsertBy(x, s, key)[i])
  {
    if s != [] && key(x) > key(s[0]) {
      InsertByLowerBound(x, s[1..], key, lo);
    }
  }

  lemma {:induction false} InsertBySorted<T>(x: T, s: seq<T>, key: T -> int)
    requires SortedBy(s, key)
    ensures SortedBy(InsertBy(x, s, key), key)
  {
    if s != [] && key(x) > key(s[0]) {
      InsertBySorted(x, s[1..], key);
      InsertByLowerBound(x, s[1..], key, key(s[0]));
    }
  }

  /** Sorting keeps the entries, sorts them, and leaves a sorted list alone. */
  lemma {:induction false} SortByProperties<T>(s: seq<T>, key: T -> int)
    ensures |SortBy(s, key)| == |s|
    ensures forall y :: y in SortBy(s, key) <==> y in s
    ensures SortedBy(SortBy(s, key), key)
    ensures SortedBy(s, key) ==> SortBy(s, key) == s
  {
    if s != [] {
      SortByProperties(s[1..], key);
      var t := SortBy(s[1..], key);
      InsertByMembers(s[0], t, key);
      InsertBySorted(s[0], t, key);
      assert s == [s[0]] + s[1..];
    }
  }

  function Self(x: int): int {
    x
  }

  function SortIds(s: seq<int>): seq<int> {
    SortBy(s, Self)
  }

  lemma SameMembers(s: seq<int>, t: seq<int>)
    requires forall x :: x in s <==> x in t
    ensures Members(s) == Members(t)
  {
    forall x | x in Members(s)
      ensures x in Members(t)
    {
      assert x in s;
    }
    forall x | x in Members(t)
      ensures x in Members(s)
    {
      assert x in t;
    }
  }

  lemma {:induction false} DistinctCount(s: seq<int>, t: seq<int>)
    requires Distinct(s)
    requires |t| == |s|
    requires forall x :: x in s <==> x in t
    ensures Distinct(t)
  {
    SameMembers(s, t);
    DistinctSize(s);
    SizeDistinct(t);
  }

  lemma {:induction false} DistinctSize(s: seq<int>)
    requires Distinct(s)
    ensures |Members(s)| == |s|
  {
    if s != [] {
      DistinctSize(s[1..]);
      assert Members(s) == Members(s[1..]) + {s[0]};
    }
  }

  /** A list has at most as many members as entries, and exactly as many only when they differ. */
  lemma {:induction false} SizeDistinct(s: seq<int>)
    ensures |Members(s)| <= |s|
    ensures |Members(s)| == |s| ==> Distinct(s)
  {
    if s != [] {
      SizeDistinct(s[1..]);
      assert Members(s) == Members(s[1..]) + {s[0]};
    }
  }

  /** Sorting distinct ids gives the one ascending list with the same members. */
  lemma SortIdsAscending(s: seq<int>)
    requires Distinct(s)
    ensures Ascending(SortIds(s)) && |SortIds(s)| == |s|
    ensures forall x :: x in SortIds(s) <==> x in s
  {
    SortByProperties(s, Self);
    var t := SortIds(s);
    DistinctCount(s, t);
    forall i, j | 0 <= i < j < |t|
      ensures t[i] < t[j]
    {
      assert Self(t[i]) <= Self(t[j]) && t[i] != t[j];
    }
  }

  lemma SortIdsIdentity(s: seq<int>)
    requires Ascending(s)
    ensures SortIds(s) == s
  {
    assert SortedBy(s, Self);
    SortByProperties(s, Self);
  }

  /** Keeps the first entry of each group of equal keys, in order. */
  function Dedup(s: seq<int>): (r: seq<int>)
    decreases |s|
  {
    if s == [] then []
    else
      var head := Dedup(s[..|s| - 1]);
      if s[|s| - 1] in s[..|s| - 1] then head else head + [s[|s| - 1]]
  }

  lemma {:induction false} DedupMembers(s: seq<int>)
    ensures forall x :: x in Dedup(s) <==> x in s
    decreases |s|
  {
    if s != [] {
      var front, last := s[..|s| - 1], s[|s| - 1];
      DedupMembers(front);
      assert s == front + [last];
    }
  }

  lemma {:induction false} DedupDistinct(s: seq<int>)
    ensures Distinct(Dedup(s))
    ensures Distinct(s) ==> Dedup(s) == s
    decreases |s|
  {
    if s != [] {
      var front, last := s[..|s| - 1], s[|s| - 1];
      DedupDistinct(front);
      DedupMembers(front);
      assert s == front + [last];
      if last !in front {
        forall i | 0 <= i < |Dedup(front)|
          ensures Dedup(front)[i] != last
        {
          assert Dedup(front)[i] in Dedup(front);
        }
      }
    }
  }

  /** The length of the deduplicated list is the number of members. */
  lemma DedupSize(s: seq<int>)
    ensures |Dedup(s)| == |Members(s)| <= |s|
  {
    DedupDistinct(s);
    DedupMembers(s);
    DistinctSize(Dedup(s));
    SameMembers(s, Dedup(s));
    SizeDistinct(s);
  }
}
