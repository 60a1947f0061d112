/** Integer IDs and the largest of them, which every allocator starts from. */
module Ids {
  const MAX_ID := 0x7FFF_FFFF_FFFF_FFFF

  predicate Storable(id: int) { -MAX_ID - 1 <= id <= MAX_ID }

  predicate IsLargest(ids: set<int>, m: int) { m in ids && forall x | x in ids :: x <= m }

  lemma SomeId(ids: set<int>)
    ensures ids == {} || exists x :: x in ids
  {
    if forall x :: x !in ids { assert ids == {}; }
  }

  lemma HasLargest(ids: set<int>) returns (m: int)
    requires ids != {}
    ensures IsLargest(ids, m)
  {
    SomeId(ids);
    m :| m in ids;
    var first := m;
    var rest := ids - {first};
    assert forall x | x in ids :: x == first || x in rest;
    if rest != {} {
      var n := HasLargest(rest);
      if m < n { m := n; }
    }
  }

  function Largest(ids: set<int>): (m: int)
    requires ids != {}
    ensures IsLargest(ids, m)
  {
    assert exists m :: m in ids && IsLargest(ids, m) by {
      var m := HasLargest(ids);
      assert m in ids;
    }
    var m :| m in ids && IsLargest(ids, m);
    m
  }

  ghost predicate Ascending(ids: seq<int>) { forall i, j | 0 <= i < j < |ids| :: ids[i] < ids[j] }

  /** The IDs in ascending order. */
  function Sorted(ids: set<int>): seq<int> {
    if ids == {} then [] else Sorted(ids - {Largest(ids)}) + [Largest(ids)]
  }

  lemma {:induction false} SortedIs(ids: set<int>)
    ensures |Sorted(ids)| == |ids| && forall x :: x in Sorted(ids) <==> x in ids
    ensures Ascending(Sorted(ids))
  {
    if ids != {} {
      var top := Largest(ids);
      var rest := ids - {top};
      SortedIs(rest);
      var before := Sorted(rest);
      assert Sorted(ids) == before + [top];
      assert rest + {top} == ids;
      forall i | 0 <= i < |before| ensures before[i] < top { assert before[i] in before; }
    }
  }
}
