/** How both stores keep ids: repairing duplicates on load, and seeding the next id. */
module IdLedger {
  import opened Basics

  function AtOrAbove(id: int, used: set<int>): set<int> {
    set x | x in used && x >= id
  }

  lemma {:induction false} Shrinks(id: int, used: set<int>)
    requires id in used
    ensures |AtOrAbove(id + 1, used)| < |AtOrAbove(id, used)|
  {
    assert AtOrAbove(id, used) == AtOrAbove(id + 1, used) + {id};
  }

  /** The first id from `id` upwards that is not used. */
  function FirstFree(id: int, used: set<int>): (r: int)
    ensures r >= id && r !in used && forall x :: id <= x < r ==> x in used
    decreases |AtOrAbove(id, used)|
  {
    if id !in used then id
    else
      Shrinks(id, used);
      FirstFree(id + 1, used)
  }

  /** The duplicate-repair loop; it ends because every step passes one used id. */
  method RepairId(id: int, used: set<int>) returns (r: int)
    ensures r == FirstFree(id, used)
  {
    r := id;
    while r in used
      invariant FirstFree(id, used) == FirstFree(r, used)
      decreases |AtOrAbove(r, used)|
    {
      Shrinks(r, used);
      r := r + 1;
    }
  }

  function MaxOf(ids: seq<int>): (r: int)
    requires ids != []
    ensures r in ids && forall i :: 0 <= i < |ids| ==> ids[i] <= r
  {
    if |ids| == 1 then ids[0]
    else
      assert ids == [ids[0]] + ids[1..];
      Max(ids[0], MaxOf(ids[1..]))
  }

  /** The persisted counter if it is above every id in use, else one more than the largest. */
  function SeedNext(persisted: Option<int>, ids: seq<int>): (next: int)
    ensures forall i :: 0 <= i < |ids| ==> ids[i] < next
  {
    var top := if ids == [] then -1 else MaxOf(ids);
    if persisted.Some? && persisted.value > top then persisted.value else top + 1
  }

  ghost predicate Below(ids: seq<int>, next: int) {
    forall i :: 0 <= i < |ids| ==> ids[i] < next
  }
}
