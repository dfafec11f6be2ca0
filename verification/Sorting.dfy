// Stable sorting by a strict order, as Go's sort.SliceStable and the hand-written
// insertion sort of packages/application/match.go both do it.
module Sorting {

  // Irreflexive, transitive, and "neither before the other" is transitive.
  ghost predicate StrictWeakOrder<T(!new)>(before: (T, T) -> bool) {
    && (forall x :: !before(x, x))
    && (forall x, y, z :: before(x, y) && before(y, z) ==> before(x, z))
    && (forall x, y, z :: !before(x, y) && !before(y, z) ==> !before(x, z))
  }

  predicate Sorted<T>(s: seq<T>, before: (T, T) -> bool) {
    forall i, j :: 0 <= i < j < |s| ==> !before(s[j], s[i])
  }

  // One pass of the insertion sort: x moves left past every element it precedes.
  function Insert<T>(s: seq<T>, x: T, before: (T, T) -> bool): (r: seq<T>)
    ensures |r| == |s| + 1
  {
    if s == [] || !before(x, s[|s| - 1]) then s + [x]
    else Insert(s[..|s| - 1], x, before) + [s[|s| - 1]]
  }

  function StableSort<T>(s: seq<T>, before: (T, T) -> bool): (r: seq<T>)
    ensures |r| == |s|
  {
    if s == [] then [] else Insert(StableSort(s[..|s| - 1], before), s[|s| - 1], before)
  }

  lemma {:induction false} InsertSplits<T>(s: seq<T>, x: T, before: (T, T) -> bool) returns (k: nat)
    ensures k <= |s| && Insert(s, x, before) == s[..k] + [x] + s[k..]
    ensures k > 0 ==> !before(x, s[k - 1])
    ensures forall i :: k <= i < |s| ==> before(x, s[i])
  {
    if s == [] || !before(x, s[|s| - 1]) {
      k := |s|;
      assert s[..k] == s && s[k..] == [];
    } else {
      var t := s[..|s| - 1];
      k := InsertSplits(t, x, before);
      assert t[..k] == s[..k] && t[k..] + [s[|s| - 1]] == s[k..];
    }
  }

  lemma InsertSorted<T(!new)>(s: seq<T>, x: T, before: (T, T) -> bool)
    requires StrictWeakOrder(before) && Sorted(s, before)
    ensures Sorted(Insert(s, x, before), before)
  {
    var k := InsertSplits(s, x, before);
    var r := Insert(s, x, before);
    forall i, j | 0 <= i < j < |r| ensures !before(r[j], r[i]) {
      if j == k {
        assert r[i] == s[i];
        assert !before(s[k - 1], s[i]);
      } else if i == k {
        assert before(x, s[j - 1]);
      }
    }
  }

  lemma {:induction false} SortSorts<T(!new)>(s: seq<T>, before: (T, T) -> bool)
    requires StrictWeakOrder(before)
    ensures Sorted(StableSort(s, before), before)
  {
    if s != [] {
      SortSorts(s[..|s| - 1], before);
      InsertSorted(StableSort(s[..|s| - 1], before), s[|s| - 1], before);
    }
  }

  lemma {:induction false} SortPermutes<T>(s: seq<T>, before: (T, T) -> bool)
    ensures multiset(StableSort(s, before)) == multiset(s)
  {
    if s != [] {
      var t, x := s[..|s| - 1], s[|s| - 1];
      SortPermutes(t, before);
      InsertPermutes(StableSort(t, before), x, before);
      assert s == t + [x];
    }
  }

  lemma InsertPermutes<T>(s: seq<T>, x: T, before: (T, T) -> bool)
    ensures multiset(Insert(s, x, before)) == multiset(s) + multiset{x}
  {
    hide Insert;
    var k := InsertSplits(s, x, before);
    assert multiset(s[..k] + [x] + s[k..]) == multiset(s[..k]) + multiset{x} + multiset(s[k..]);
    assert s == s[..k] + s[k..];
  }

  lemma {:induction false} SortFixesSorted<T>(s: seq<T>, before: (T, T) -> bool)
    requires Sorted(s, before)
    ensures StableSort(s, before) == s
  {
    if s != [] {
      var t := s[..|s| - 1];
      SortFixesSorted(t, before);
      assert s == t + [s[|s| - 1]];
    }
  }

  // At most n of them, from the front.
  function Take<T>(s: seq<T>, n: nat): seq<T> {
    if |s| > n then s[..n] else s
  }

  // ---------- stability ----------

  function Filter<T>(s: seq<T>, p: T -> bool): (r: seq<T>)
    ensures |r| <= |s|
  {
    if s == [] then []
    else
      var x := s[|s| - 1];
      var r := Filter(s[..|s| - 1], p);
      if p(x) then r + [x] else r
  }

  lemma {:induction false} FilterConcat<T>(s: seq<T>, t: seq<T>, p: T -> bool)
    ensures Filter(s + t, p) == Filter(s, p) + Filter(t, p)
  {
    if t == [] {
      assert s + t == s;
    } else {
      var u, x := t[..|t| - 1], t[|t| - 1];
      FilterConcat(s, u, p);
      assert (s + t)[..|s + t| - 1] == s + u;
    }
  }

  lemma {:induction false} FilterNone<T>(s: seq<T>, p: T -> bool)
    requires forall i :: 0 <= i < |s| ==> !p(s[i])
    ensures Filter(s, p) == []
  {
    if s != [] { FilterNone(s[..|s| - 1], p); }
  }

  lemma {:induction false} InsertAt<T>(a: seq<T>, x: T, b: seq<T>, before: (T, T) -> bool)
    requires a == [] || !before(x, a[|a| - 1])
    requires forall i :: 0 <= i < |b| ==> before(x, b[i])
    ensures Insert(a + b, x, before) == a + [x] + b
  {
    if b == [] {
      assert a + b == a;
    } else {
      var n := |b| - 1;
      InsertAt(a, x, b[..n], before);
      assert (a + b)[..|a + b| - 1] == a + b[..n];
    }
  }

  // Sorting commutes with filtering.
  lemma {:induction false} SortFilters<T(!new)>(s: seq<T>, before: (T, T) -> bool, p: T -> bool)
    requires StrictWeakOrder(before)
    ensures StableSort(Filter(s, p), before) == Filter(StableSort(s, before), p)
  {
    if s != [] {
      var t, x := s[..|s| - 1], s[|s| - 1];
      SortFilters(t, before, p);
      SortSorts(t, before);
      InsertFilters(StableSort(t, before), x, before, p);
    }
  }

  lemma InsertFilters<T(!new)>(r: seq<T>, x: T, before: (T, T) -> bool, p: T -> bool)
    requires StrictWeakOrder(before) && Sorted(r, before)
    ensures Filter(Insert(r, x, before), p) == if p(x) then Insert(Filter(r, p), x, before) else Filter(r, p)
  {
    hide Filter, Insert;
    var k := InsertSplits(r, x, before);
    var a, b := r[..k], r[k..];
    assert r == a + b;
    FilterConcat(a, b, p);
    FilterConcat(a + [x], b, p);
    FilterConcat(a, [x], p);
    FilterSingle(x, p);
    FilterFrom(a, p);
    FilterFrom(b, p);
    var fa := Filter(a, p);
    if p(x) {
      if fa != [] {
        var z := fa[|fa| - 1];
        assert z in a;
        var i :| 0 <= i < |a| && r[i] == z;
        assert !before(x, r[k - 1]) && (i < k - 1 ==> !before(r[k - 1], z));
      }
      var fb := Filter(b, p);
      forall i | 0 <= i < |fb| ensures before(x, fb[i]) {
        assert fb[i] in b;
      }
      InsertAt(fa, x, fb, before);
    }
  }

  lemma FilterSingle<T>(x: T, p: T -> bool)
    ensures Filter([x], p) == if p(x) then [x] else []
  {
    assert [x][..0] == [];
  }

  lemma {:induction false} FilterFrom<T>(s: seq<T>, p: T -> bool)
    ensures forall y :: y in Filter(s, p) <==> y in s && p(y)
  {
    if s != [] {
      FilterFrom(s[..|s| - 1], p);
      assert s == s[..|s| - 1] + [s[|s| - 1]];
    }
  }

  // Elements that do not precede one another keep their order.
  ghost predicate Unordered<T>(p: T -> bool, s: seq<T>, before: (T, T) -> bool) {
    forall x, y :: x in s && y in s && p(x) && p(y) ==> !before(x, y)
  }

  lemma SortIsStable<T(!new)>(s: seq<T>, before: (T, T) -> bool, p: T -> bool)
    requires StrictWeakOrder(before) && Unordered(p, s, before)
    ensures Filter(StableSort(s, before), p) == Filter(s, p)
  {
    hide Filter, StableSort;
    SortFilters(s, before, p);
    FilterFrom(s, p);
    SortFixesSorted(Filter(s, p), before);
  }

  lemma {:induction false} FilterCounts<T>(s: seq<T>, p: T -> bool, x: T)
    ensures multiset(Filter(s, p))[x] == if p(x) then multiset(s)[x] else 0
  {
    if s != [] {
      FilterCounts(s[..|s| - 1], p, x);
      assert s == s[..|s| - 1] + [s[|s| - 1]];
    }
  }

  // Filtering picks increasing positions.
  function FilterPositions<T>(s: seq<T>, p: T -> bool): (idx: seq<nat>)
    ensures forall k :: 0 <= k < |idx| ==> idx[k] < |s|
  {
    if s == [] then []
    else
      var idx := FilterPositions(s[..|s| - 1], p);
      if p(s[|s| - 1]) then idx + [|s| - 1] else idx
  }

  predicate Increasing(idx: seq<nat>) {
    forall j, k :: 0 <= j < k < |idx| ==> idx[j] < idx[k]
  }

  lemma {:induction false} PositionsIncrease<T>(s: seq<T>, p: T -> bool)
    ensures Increasing(FilterPositions(s, p))
  {
    if s != [] { PositionsIncrease(s[..|s| - 1], p); }
  }

  lemma {:induction false} PositionsOfHits<T>(s: seq<T>, p: T -> bool, i: nat)
    requires i < |s|
    ensures p(s[i]) <==> i in FilterPositions(s, p)
  {
    var n, idx, all := |s| - 1, FilterPositions(s[..|s| - 1], p), FilterPositions(s, p);
    assert all == if p(s[n]) then idx + [n] else idx;
    if i < n {
      PositionsOfHits(s[..n], p, i);
      assert s[..n][i] == s[i];
      assert p(s[i]) <==> i in idx;
      assert i in all <==> i in idx;
    } else {
      assert n !in idx;
      assert p(s[n]) ==> all[|idx|] == n;
      assert p(s[n]) <==> n in all;
    }
  }

  lemma {:induction false} PositionsYieldFilter<T>(s: seq<T>, p: T -> bool)
    ensures var idx := FilterPositions(s, p);
      |Filter(s, p)| == |idx| && forall k :: 0 <= k < |idx| ==> Filter(s, p)[k] == s[idx[k]]
  {
    if s != [] {
      var n, idx := |s| - 1, FilterPositions(s[..|s| - 1], p);
      PositionsYieldFilter(s[..n], p);
      assert FilterPositions(s, p) == if p(s[n]) then idx + [n] else idx;
      assert forall k :: 0 <= k < |idx| ==> s[..n][idx[k]] == s[idx[k]];
    }
  }

  lemma {:induction false} FilterIsSuffix<T>(s: seq<T>, p: T -> bool) returns (k: nat)
    requires forall i, j :: 0 <= i <= j < |s| && p(s[i]) ==> p(s[j])
    ensures k <= |s| && Filter(s, p) == s[k..]
    ensures forall i :: 0 <= i < |s| ==> (p(s[i]) <==> k <= i)
  {
    k := |s|;
    if s != [] {
      var n := |s| - 1;
      if p(s[n]) {
        k := FilterIsSuffix(s[..n], p);
        assert s[k..] == s[..n][k..] + [s[n]];
      } else {
        FilterNone(s, p);
      }
    }
  }

  // ---------- total orders ----------

  ghost predicate Total<T(!new)>(before: (T, T) -> bool) {
    forall x, y :: before(x, y) || before(y, x) || x == y
  }

  lemma {:induction false} SortedUnique<T(!new)>(a: seq<T>, b: seq<T>, before: (T, T) -> bool)
    requires Total(before) && Sorted(a, before) && Sorted(b, before)
    requires multiset(a) == multiset(b)
    ensures a == b
    decreases |a|
  {
    assert |a| == |multiset(a)| == |multiset(b)| == |b|;
    if a != [] {
      var n := |a| - 1;
      var x, y := a[n], b[n];
      assert x in multiset(a) && y in multiset(b);
      LastIsLatest(a, y, before);
      LastIsLatest(b, x, before);
      assert x == y;
      WithoutLast(a);
      WithoutLast(b);
      SortedUnique(a[..n], b[..n], before);
    }
  }

  lemma WithoutLast<T>(a: seq<T>)
    requires a != []
    ensures var n := |a| - 1; a == a[..n] + [a[n]] && multiset(a[..n]) == multiset(a) - multiset{a[n]}
  {
    var n := |a| - 1;
    assert a == a[..n] + [a[n]];
    assert multiset(a[..n] + [a[n]]) == multiset(a[..n]) + multiset{a[n]};
  }

  lemma LastIsLatest<T(!new)>(a: seq<T>, z: T, before: (T, T) -> bool)
    requires Sorted(a, before) && z in multiset(a)
    ensures a != [] && (z == a[|a| - 1] || !before(a[|a| - 1], z))
  {
    var i :| 0 <= i < |a| && a[i] == z;
  }

  // Sorting by a total order forgets the order of the input.
  lemma SortIgnoresInputOrder<T(!new)>(s: seq<T>, t: seq<T>, before: (T, T) -> bool)
    requires StrictWeakOrder(before) && Total(before)
    ensures StableSort(s, before) == StableSort(t, before) <==> multiset(s) == multiset(t)
  {
    SortSorts(s, before);
    SortSorts(t, before);
    SortPermutes(s, before);
    SortPermutes(t, before);
    if multiset(s) == multiset(t) { SortedUnique(StableSort(s, before), StableSort(t, before), before); }
  }
}
