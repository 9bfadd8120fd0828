/** Stable sorting by a total preorder on the elements at hand. */
module Sorting {

  type Order<!T> = (T, T) -> bool

  predicate Sorted<T>(leq: Order<T>, s: seq<T>) { forall i, j | 0 <= i < j < |s| :: leq(s[i], s[j]) }

  ghost predicate TotalOn<T>(leq: Order<T>, s: seq<T>) {
    && (forall x, y | x in s && y in s :: leq(x, y) || leq(y, x))
    && (forall x, y, z | x in s && y in s && z in s :: leq(x, y) && leq(y, z) ==> leq(x, z))
  }

  /** Puts `x` behind every element it does not strictly precede. */
  function Insert<T>(leq: Order<T>, s: seq<T>, x: T): (r: seq<T>)
    ensures multiset(r) == multiset(s) + multiset{x}
  {
    if s == [] then [x]
    else
      var n := |s| - 1;
      assert s == s[..n] + [s[n]];
      if leq(s[n], x) then s + [x] else Insert(leq, s[..n], x) + [s[n]]
  }

  function StableSort<T>(leq: Order<T>, s: seq<T>): (r: seq<T>)
    ensures multiset(r) == multiset(s) && |r| == |s|
  {
    if s == [] then []
    else
      var n := |s| - 1;
      assert s == s[..n] + [s[n]];
      var r := Insert(leq, StableSort(leq, s[..n]), s[n]);
      assert |multiset(r)| == |multiset(s)|;
      r
  }

  lemma InsertMembers<T>(leq: Order<T>, s: seq<T>, x: T)
    ensures forall y | y in Insert(leq, s, x) :: y in s || y == x
    ensures |Insert(leq, s, x)| == |s| + 1
  {
    var r := Insert(leq, s, x);
    forall y | y in r ensures y in s || y == x {
      assert y in multiset(r);
      assert y in multiset(s) || y == x;
    }
    assert |r| == |multiset(r)| && |s| == |multiset(s)|;
  }

  lemma TotalOnPart<T>(leq: Order<T>, s: seq<T>, part: seq<T>)
    requires TotalOn(leq, s) && forall y | y in part :: y in s
    ensures TotalOn(leq, part)
  {
  }

  lemma SortedAppend<T>(leq: Order<T>, s: seq<T>, top: T)
    requires Sorted(leq, s) && forall i | 0 <= i < |s| :: leq(s[i], top)
    ensures Sorted(leq, s + [top])
  {
  }

  lemma AppendGreatest<T>(leq: Order<T>, s: seq<T>, x: T)
    requires s != [] && Sorted(leq, s) && TotalOn(leq, s + [x]) && leq(s[|s| - 1], x)
    ensures Sorted(leq, s + [x])
  {
    var last := s[|s| - 1];
    forall i | 0 <= i < |s| ensures leq(s[i], x) {
      if i < |s| - 1 {
        assert leq(s[i], last);
        assert s[i] in s + [x] && last in s + [x] && x in s + [x];
      }
    }
  }

  lemma InsertBelow<T>(leq: Order<T>, s: seq<T>, x: T, top: T)
    requires leq(x, top) && forall i | 0 <= i < |s| :: leq(s[i], top)
    ensures forall i | 0 <= i < |Insert(leq, s, x)| :: leq(Insert(leq, s, x)[i], top)
  {
    var r := Insert(leq, s, x);
    InsertMembers(leq, s, x);
    forall i | 0 <= i < |r| ensures leq(r[i], top) {
      assert r[i] in r;
      if r[i] != x {
        assert r[i] in s;
        var k :| 0 <= k < |s| && s[k] == r[i];
      }
    }
  }

  lemma {:induction false} InsertSorts<T>(leq: Order<T>, s: seq<T>, x: T)
    requires Sorted(leq, s) && TotalOn(leq, s + [x])
    ensures Sorted(leq, Insert(leq, s, x))
  {
    if s != [] {
      var n := |s| - 1;
      if leq(s[n], x) {
        AppendGreatest(leq, s, x);
      } else {
        assert s[n] in s + [x] && x in s + [x];
        TotalOnPart(leq, s + [x], s[..n] + [x]);
        InsertSorts(leq, s[..n], x);
        InsertBelow(leq, s[..n], x, s[n]);
        SortedAppend(leq, Insert(leq, s[..n], x), s[n]);
      }
    }
  }

  lemma {:induction false} StableSortSorts<T>(leq: Order<T>, s: seq<T>)
    requires TotalOn(leq, s)
    ensures Sorted(leq, StableSort(leq, s))
  {
    if s != [] {
      var n := |s| - 1;
      StableSortSorts(leq, s[..n]);
      var sorted := StableSort(leq, s[..n]);
      forall x | x in sorted + [s[n]] ensures x in s {
        if x in sorted { assert x in multiset(s[..n]); }
      }
      InsertSorts(leq, sorted, s[n]);
    }
  }

  function Tie<T>(leq: Order<T>, y: T, x: T): seq<T> { if leq(y, x) && leq(x, y) then [y] else [] }

  /** The elements that the order does not separate from `x`, as they come. */
  function Ties<T>(leq: Order<T>, s: seq<T>, x: T): seq<T> {
    if s == [] then [] else Ties(leq, s[..|s| - 1], x) + Tie(leq, s[|s| - 1], x)
  }

  lemma TiesAppend<T>(leq: Order<T>, a: seq<T>, y: T, x: T)
    ensures Ties(leq, a + [y], x) == Ties(leq, a, x) + Tie(leq, y, x)
  {
    assert (a + [y])[..|a|] == a;
  }

  lemma SwapTies<T>(a: seq<T>, p: seq<T>, q: seq<T>)
    requires p == [] || q == []
    ensures a + p + q == a + q + p
  {
  }

  lemma {:induction false} InsertKeepsTies<T>(leq: Order<T>, s: seq<T>, y: T, x: T)
    requires TotalOn(leq, s + [y, x])
    ensures Ties(leq, Insert(leq, s, y), x) == Ties(leq, s, x) + Tie(leq, y, x)
  {
    if s == [] || leq(s[|s| - 1], y) {
      TiesAppend(leq, s, y, x);
      assert s == [] ==> s + [y] == [y];
    } else {
      var n := |s| - 1;
      forall z | z in s[..n] + [y, x] ensures z in s + [y, x] {}
      TotalOnPart(leq, s + [y, x], s[..n] + [y, x]);
      InsertKeepsTies(leq, s[..n], y, x);
      TiesAppend(leq, Insert(leq, s[..n], y), s[n], x);
      NotBothTied(leq, s + [y, x], s[n], y, x);
      SwapTies(Ties(leq, s[..n], x), Tie(leq, y, x), Tie(leq, s[n], x));
    }
  }

  lemma NotBothTied<T>(leq: Order<T>, all: seq<T>, last: T, y: T, x: T)
    requires TotalOn(leq, all) && last in all && y in all && x in all && !leq(last, y)
    ensures Tie(leq, y, x) == [] || Tie(leq, last, x) == []
  {
  }

  /** Sorting is stable: elements that the order does not separate from `x` keep their relative order. */
  lemma {:induction false} SortIsStable<T>(leq: Order<T>, s: seq<T>, x: T)
    requires TotalOn(leq, s + [x])
    ensures Ties(leq, StableSort(leq, s), x) == Ties(leq, s, x)
  {
    if s != [] {
      var n := |s| - 1;
      var sorted := StableSort(leq, s[..n]);
      forall z | z in s[..n] + [x] ensures z in s + [x] {}
      TotalOnPart(leq, s + [x], s[..n] + [x]);
      SortIsStable(leq, s[..n], x);
      SortMembers(leq, s[..n]);
      forall z | z in sorted + [s[n], x] ensures z in s + [x] {}
      TotalOnPart(leq, s + [x], sorted + [s[n], x]);
      InsertKeepsTies(leq, sorted, s[n], x);
    }
  }

  /** A symmetric relation that holds between any two places still does once sorted. */
  predicate Pairwise<T>(rel: Order<T>, s: seq<T>) { forall i, j | 0 <= i < j < |s| :: rel(s[i], s[j]) }

  ghost predicate SymmetricOn<T>(rel: Order<T>, s: seq<T>) { forall x, y | x in s && y in s :: rel(x, y) ==> rel(y, x) }

  lemma PairwiseAppend<T>(rel: Order<T>, s: seq<T>, last: T)
    requires Pairwise(rel, s) && forall i | 0 <= i < |s| :: rel(s[i], last)
    ensures Pairwise(rel, s + [last])
  {
  }

  lemma LastIsRelated<T>(rel: Order<T>, s: seq<T>, y: T)
    requires s != [] && Pairwise(rel, s) && y in s[..|s| - 1]
    ensures rel(y, s[|s| - 1])
  {
    var k :| 0 <= k < |s| - 1 && s[..|s| - 1][k] == y;
    assert s[k] == y;
  }

  lemma Symmetric<T>(rel: Order<T>, s: seq<T>, x: T, y: T)
    requires SymmetricOn(rel, s) && x in s && y in s && rel(x, y)
    ensures rel(y, x)
  {
  }

  lemma SymmetryOfPart<T>(rel: Order<T>, s: seq<T>, part: seq<T>)
    requires SymmetricOn(rel, s) && forall y | y in part :: y in s
    ensures SymmetricOn(rel, part)
  {
  }

  lemma {:induction false} InsertKeepsPairwise<T>(leq: Order<T>, rel: Order<T>, s: seq<T>, x: T)
    requires Pairwise(rel, s) && SymmetricOn(rel, s + [x]) && forall i | 0 <= i < |s| :: rel(s[i], x)
    ensures Pairwise(rel, Insert(leq, s, x))
  {
    if s == [] || leq(s[|s| - 1], x) {
      PairwiseAppend(rel, s, x);
    } else {
      var n := |s| - 1;
      var r := Insert(leq, s[..n], x);
      SymmetryOfPart(rel, s + [x], s[..n] + [x]);
      InsertKeepsPairwise(leq, rel, s[..n], x);
      InsertedAreRelated(leq, rel, s, x, r);
      PairwiseAppend(rel, r, s[n]);
    }
  }

  lemma InsertedAreRelated<T>(leq: Order<T>, rel: Order<T>, s: seq<T>, x: T, r: seq<T>)
    requires s != [] && Pairwise(rel, s) && SymmetricOn(rel, s + [x]) && rel(s[|s| - 1], x)
    requires r == Insert(leq, s[..|s| - 1], x)
    ensures forall i | 0 <= i < |r| :: rel(r[i], s[|s| - 1])
  {
    var last := s[|s| - 1];
    InsertMembers(leq, s[..|s| - 1], x);
    forall i | 0 <= i < |r| ensures rel(r[i], last) {
      assert r[i] in r;
      if r[i] == x { Symmetric(rel, s + [x], last, x); } else { LastIsRelated(rel, s, r[i]); }
    }
  }

  lemma SortMembers<T>(leq: Order<T>, s: seq<T>)
    ensures forall y | y in StableSort(leq, s) :: y in s
  {
    forall y | y in StableSort(leq, s) ensures y in s { assert y in multiset(s); }
  }

  lemma {:induction false} SortKeepsPairwise<T>(leq: Order<T>, rel: Order<T>, s: seq<T>)
    requires Pairwise(rel, s) && SymmetricOn(rel, s)
    ensures Pairwise(rel, StableSort(leq, s))
  {
    if s != [] {
      var n := |s| - 1;
      var r := StableSort(leq, s[..n]);
      SymmetryOfPart(rel, s, s[..n]);
      SortKeepsPairwise(leq, rel, s[..n]);
      SortMembers(leq, s[..n]);
      forall i | 0 <= i < |r| ensures r[i] in s && rel(r[i], s[n]) {
        assert r[i] in r;
        LastIsRelated(rel, s, r[i]);
      }
      SymmetryOfPart(rel, s, r + [s[n]]);
      InsertKeepsPairwise(leq, rel, r, s[n]);
    }
  }
}
