/** Choosing from finite sets of integers, and lists without repetition. */
module IntSets {
  predicate Distinct(ids: seq<int>) {
    forall i, j :: 0 <= i < j < |ids| ==> ids[i] != ids[j]
  }

  lemma EmptyWithoutElements(s: set<int>)
    ensures (forall i :: i !in s) ==> s == {}
  {
    if forall i :: i !in s {
      assert s == {};
    }
  }

  lemma {:induction false} SmallestExists(s: set<int>)
    requires s != {}
    ensures exists x :: x in s && forall y :: y in s ==> x <= y
    decreases s
  {
    EmptyWithoutElements(s);
    var x :| x in s;
    if s != {x} {
      SmallestExists(s - {x});
      var m :| m in s - {x} && forall y :: y in s - {x} ==> m <= y;
      assert forall y :: y in s ==> y == x || y in s - {x};
      assert (if x < m then x else m) in s;
    }
  }

  function Smallest(s: set<int>): (x: int)
    requires s != {}
    ensures x in s && forall y :: y in s ==> x <= y
  {
    SmallestExists(s);
    var x :| x in s && forall y :: y in s ==> x <= y;
    x
  }

  lemma SmallestOfRest(s: set<int>, x: int)
    requires x in s && Smallest(s) != x
    ensures s - {x} != {} && Smallest(s - {x}) == Smallest(s)
  {
    assert Smallest(s) in s - {x};
  }

  function Ascending(s: set<int>): (sorted: seq<int>)
    ensures |sorted| == |s| && forall i :: i in sorted <==> i in s
    ensures forall j, k :: 0 <= j < k < |sorted| ==> sorted[j] < sorted[k]
  {
    if s == {} then []
    else
      var x := Smallest(s);
      var rest := Ascending(s - {x});
      AllAbove(s, x, rest);
      [x] + rest
  }

  lemma AllAbove(s: set<int>, x: int, rest: seq<int>)
    requires (forall y :: y in s ==> x <= y) && forall i :: i in rest ==> i in s - {x}
    ensures forall j :: 0 <= j < |rest| ==> x < rest[j]
  {
    forall j | 0 <= j < |rest| ensures x < rest[j] {
      assert rest[j] in rest;
    }
  }
}
