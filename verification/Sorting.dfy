/** Stable sorting by a strict weak order, and when its result depends on nothing but what was
    sorted. */
module Sorting {
  ghost predicate StrictWeak<T(!new)>(less: (T, T) -> bool) {
    && (forall x :: !less(x, x))
    && (forall x, y, z :: less(x, y) && less(y, z) ==> less(x, z))
    && (forall x, y, z :: !less(x, y) && !less(y, z) ==> !less(x, z))
  }

  ghost predicate Ordered<T>(s: seq<T>, less: (T, T) -> bool) {
    forall i, j :: 0 <= i < j < |s| ==> !less(s[j], s[i])
  }

  /** `x` put behind everything it is not less than. */
  function Insert<T>(s: seq<T>, x: T, less: (T, T) -> bool): (r: seq<T>)
    ensures multiset(r) == multiset(s) + multiset{x}
  {
    if s == [] || !less(x, s[|s| - 1]) then s + [x]
    else
      assert s == s[..|s| - 1] + [s[|s| - 1]];
      Insert(s[..|s| - 1], x, less) + [s[|s| - 1]]
  }

  /** Elements in order, equal ones in the order they came. */
  function Sort<T>(s: seq<T>, less: (T, T) -> bool): (r: seq<T>)
    ensures multiset(r) == multiset(s)
    ensures |r| == |s|
  {
    if s == [] then []
    else
      assert s == s[..|s| - 1] + [s[|s| - 1]];
      var r := Insert(Sort(s[..|s| - 1], less), s[|s| - 1], less);
      SameLength(r, s);
      r
  }

  lemma {:induction false} SameLength<T>(a: seq<T>, b: seq<T>)
    requires multiset(a) == multiset(b)
    ensures |a| == |b|
  {
    assert |multiset(a)| == |multiset(b)|;
  }

  lemma {:induction false} InsertKeepsOrder<T(!new)>(s: seq<T>, x: T, less: (T, T) -> bool)
    requires StrictWeak(less) && Ordered(s, less)
    ensures Ordered(Insert(s, x, less), less)
  {
    if s != [] && less(x, s[|s| - 1]) {
      var front, last := s[..|s| - 1], s[|s| - 1];
      InsertKeepsOrder(front, x, less);
      var r := Insert(front, x, less);
      forall i | 0 <= i < |r|
        ensures !less(last, r[i])
      {
        assert r[i] in multiset(r);
        if r[i] != x {
          assert r[i] in front;
        }
      }
    }
  }

  lemma {:induction false} SortOrders<T(!new)>(s: seq<T>, less: (T, T) -> bool)
    requires StrictWeak(less)
    ensures Ordered(Sort(s, less), less)
  {
    if s != [] {
      SortOrders(s[..|s| - 1], less);
      InsertKeepsOrder(Sort(s[..|s| - 1], less), s[|s| - 1], less);
    }
  }

  /** In an ordered sequence nothing is less than the head. */
  lemma HeadIsLeast<T>(a: seq<T>, x: T, less: (T, T) -> bool)
    requires Ordered(a, less) && x in a
    ensures x == a[0] || !less(x, a[0])
  {
  }

  lemma SameElements<T>(a: seq<T>, b: seq<T>, x: T)
    requires multiset(a) == multiset(b)
    ensures x in a <==> x in b
  {
    assert x in a <==> x in multiset(a);
    assert x in b <==> x in multiset(b);
  }

  /** Two ordered sequences of the same elements are the same sequence, when the order tells any
      two different elements apart. */
  lemma {:induction false} OrderedUnique<T>(a: seq<T>, b: seq<T>, less: (T, T) -> bool)
    requires Ordered(a, less) && Ordered(b, less)
    requires multiset(a) == multiset(b)
    requires forall x, y :: x in a && y in a && !less(x, y) && !less(y, x) ==> x == y
    ensures a == b
  {
    SameLength(a, b);
    if a != [] {
      var x, y := a[0], b[0];
      SameElements(a, b, x);
      SameElements(a, b, y);
      HeadIsLeast(a, y, less);
      HeadIsLeast(b, x, less);
      assert x == y;
      WithoutEqual(a, 0, b, 0);
      assert Without(a, 0) == a[1..] && Without(b, 0) == b[1..];
      OrderedUnique(a[1..], b[1..], less);
    }
  }

  /** What is in order already is left as it is. */
  lemma {:induction false} SortOfOrdered<T>(s: seq<T>, less: (T, T) -> bool)
    requires Ordered(s, less)
    ensures Sort(s, less) == s
  {
    if s != [] {
      SortOfOrdered(s[..|s| - 1], less);
    }
  }

  /** Sorting forgets the order of its input. */
  lemma {:induction false} SortIgnoresOrder<T(!new)>(a: seq<T>, b: seq<T>, less: (T, T) -> bool)
    requires StrictWeak(less)
    requires multiset(a) == multiset(b)
    requires forall x, y :: x in a && y in a && !less(x, y) && !less(y, x) ==> x == y
    ensures Sort(a, less) == Sort(b, less)
  {
    SortOrders(a, less);
    SortOrders(b, less);
    forall x | x in Sort(a, less)
      ensures x in a
    {
      assert x in multiset(Sort(a, less));
    }
    OrderedUnique(Sort(a, less), Sort(b, less), less);
  }

  // ----- Ascending reals: what the library's sort of float64s does

  ghost predicate NonDecreasing(s: seq<real>) {
    forall i, j :: 0 <= i < j < |s| ==> s[i] <= s[j]
  }

  function Ceil(x: real): int { -((-x).Floor) }

  predicate Below(x: real, y: real) { x < y }

  function Ascending(s: seq<real>): (r: seq<real>)
    ensures multiset(r) == multiset(s) && |r| == |s|
    ensures forall i, j :: 0 <= i < j < |r| ==> r[i] <= r[j]
  {
    SortOrders(s, Below);
    Sort(s, Below)
  }

  lemma AscendingIgnoresOrder(a: seq<real>, b: seq<real>)
    requires multiset(a) == multiset(b)
    ensures Ascending(a) == Ascending(b)
  {
    SortIgnoresOrder(a, b, Below);
  }

  // ----- Taking one element out

  function Without<T>(s: seq<T>, i: nat): (r: seq<T>)
    requires i < |s|
    ensures |r| == |s| - 1
  {
    s[..i] + s[i + 1..]
  }

  lemma PutBack<T>(s: seq<T>, i: nat)
    requires i < |s|
    ensures multiset(s) == multiset(Without(s, i)) + multiset{s[i]}
  {
    assert s == s[..i] + [s[i]] + s[i + 1..];
  }

  /** Rearrangements stay rearrangements when one equal element is taken out of each. */
  lemma WithoutEqual<T>(a: seq<T>, i: nat, b: seq<T>, k: nat)
    requires i < |a| && k < |b| && a[i] == b[k] && multiset(a) == multiset(b)
    ensures multiset(Without(a, i)) == multiset(Without(b, k))
  {
    PutBack(a, i);
    PutBack(b, k);
    assert multiset(Without(a, i)) == multiset(a) - multiset{a[i]};
  }

  // ----- Applying a function to every element

  function Map<T, U>(s: seq<T>, f: T -> U): (r: seq<U>)
    ensures |r| == |s|
    ensures forall i :: 0 <= i < |s| ==> r[i] == f(s[i])
  {
    seq(|s|, i requires 0 <= i < |s| => f(s[i]))
  }

  lemma MapWithout<T, U>(s: seq<T>, i: nat, f: T -> U)
    requires i < |s|
    ensures Map(Without(s, i), f) == Without(Map(s, f), i)
  {
  }

  lemma {:induction false} MapIgnoresOrder<T, U>(a: seq<T>, b: seq<T>, f: T -> U)
    requires multiset(a) == multiset(b)
    ensures multiset(Map(a, f)) == multiset(Map(b, f))
    decreases |a|
  {
    SameLength(a, b);
    if a != [] {
      SameElements(a, b, a[0]);
      var i :| 0 <= i < |b| && b[i] == a[0];
      var a', b' := Without(a, 0), Without(b, i);
      WithoutEqual(a, 0, b, i);
      MapIgnoresOrder(a', b', f);
      MapWithout(a, 0, f);
      MapWithout(b, i, f);
      PutBack(Map(a, f), 0);
      PutBack(Map(b, f), i);
    }
  }

  ghost predicate KeepsOrder<T(!new)>(f: T -> T, less: (T, T) -> bool) {
    forall a, b :: less(f(a), f(b)) == less(a, b)
  }

  lemma MapAppend<T, U>(s: seq<T>, x: T, f: T -> U)
    ensures Map(s + [x], f) == Map(s, f) + [f(x)]
  {
  }

  lemma OrderKept<T(!new)>(f: T -> T, less: (T, T) -> bool)
    requires KeepsOrder(f, less)
    ensures forall a, b :: less(f(a), f(b)) == less(a, b)
  {
  }

  lemma {:induction false} InsertMaps<T(!new)>(s: seq<T>, x: T, f: T -> T, less: (T, T) -> bool)
    requires KeepsOrder(f, less)
    ensures Insert(Map(s, f), f(x), less) == Map(Insert(s, x, less), f)
  {
    OrderKept(f, less);
    hide KeepsOrder, Map;
    if s == [] {
      assert Map(s, f) == [];
      MapAppend([], x, f);
    } else {
      var front, last := s[..|s| - 1], s[|s| - 1];
      assert s == front + [last];
      MapAppend(front, last, f);
      assert Map(s, f)[..|front|] == Map(front, f);
      InsertMaps(front, x, f, less);
      MapAppend(s, x, f);
      MapAppend(Insert(front, x, less), last, f);
      assert less(f(x), f(last)) == less(x, last);
    }
  }

  /** Sorting commutes with a function that keeps the order of any two elements. */
  lemma {:induction false} SortMaps<T(!new)>(s: seq<T>, f: T -> T, less: (T, T) -> bool)
    requires KeepsOrder(f, less)
    ensures Sort(Map(s, f), less) == Map(Sort(s, less), f)
  {
    hide Insert, KeepsOrder, Map;
    if s == [] {
      assert Map(s, f) == [];
    } else {
      var front, last := s[..|s| - 1], s[|s| - 1];
      SortMaps(front, f, less);
      MapAppend(front, last, f);
      assert s == front + [last];
      assert Map(s, f)[..|front|] == Map(front, f);
      InsertMaps(Sort(front, less), last, f, less);
    }
  }

  // ----- Keeping some elements

  function Filter<T>(s: seq<T>, keep: T -> bool): seq<T> {
    if s == [] then []
    else
      var front, last := Filter(s[..|s| - 1], keep), s[|s| - 1];
      if keep(last) then front + [last] else front
  }

  lemma FilterAppend<T>(s: seq<T>, x: T, keep: T -> bool)
    ensures Filter(s + [x], keep) == if keep(x) then Filter(s, keep) + [x] else Filter(s, keep)
  {
    assert (s + [x])[..|s|] == s;
  }

  lemma {:induction false} FilterAre<T>(s: seq<T>, keep: T -> bool)
    ensures forall x :: x in Filter(s, keep) <==> x in s && keep(x)
  {
    if s != [] {
      FilterAre(s[..|s| - 1], keep);
      assert s == s[..|s| - 1] + [s[|s| - 1]];
    }
  }

  lemma {:induction false} FilterOfKept<T>(s: seq<T>, keep: T -> bool)
    requires forall x :: x in s ==> keep(x)
    ensures Filter(s, keep) == s
  {
    if s != [] {
      FilterOfKept(s[..|s| - 1], keep);
    }
  }

  lemma {:induction false} FilterNone<T>(s: seq<T>, keep: T -> bool)
    requires forall x :: x in s ==> !keep(x)
    ensures Filter(s, keep) == []
  {
    if s != [] {
      FilterNone(s[..|s| - 1], keep);
    }
  }

  lemma {:induction false} FilterCounts<T>(s: seq<T>, keep: T -> bool, x: T)
    ensures multiset(Filter(s, keep))[x] == if keep(x) then multiset(s)[x] else 0
  {
    if s != [] {
      assert s == s[..|s| - 1] + [s[|s| - 1]];
      FilterCounts(s[..|s| - 1], keep, x);
    }
  }

  lemma FilterIgnoresOrder<T(!new)>(a: seq<T>, b: seq<T>, keep: T -> bool)
    requires multiset(a) == multiset(b)
    ensures multiset(Filter(a, keep)) == multiset(Filter(b, keep))
  {
    forall x: T
      ensures multiset(Filter(a, keep))[x] == multiset(Filter(b, keep))[x]
    {
      FilterCounts(a, keep, x);
      FilterCounts(b, keep, x);
    }
  }

  lemma {:induction false} FilterKeepsOrder<T(!new)>(s: seq<T>, less: (T, T) -> bool, keep: T -> bool)
    requires Ordered(s, less)
    ensures Ordered(Filter(s, keep), less)
  {
    if s != [] {
      var front, last := s[..|s| - 1], s[|s| - 1];
      FilterKeepsOrder(front, less, keep);
      FilterAre(front, keep);
      forall k | 0 <= k < |Filter(front, keep)|
        ensures !less(last, Filter(front, keep)[k])
      {
        var x := Filter(front, keep)[k];
        assert x in Filter(front, keep) && x in front;
        var p :| 0 <= p < |front| && front[p] == x;
        assert s[p] == front[p];
      }
    }
  }

  lemma FilterOfInsert<T(!new)>(s: seq<T>, x: T, less: (T, T) -> bool, keep: T -> bool)
    requires StrictWeak(less) && Ordered(s, less)
    ensures Filter(Insert(s, x, less), keep)
         == if keep(x) then Insert(Filter(s, keep), x, less) else Filter(s, keep)
    decreases |s|
  {
    if s == [] || !less(x, s[|s| - 1]) {
      FilterAppend(s, x, keep);
      FilterAre(s, keep);
      if keep(x) && Filter(s, keep) != [] {
        var last := Filter(s, keep)[|Filter(s, keep)| - 1];
        assert last in Filter(s, keep);
        var i :| 0 <= i < |s| && s[i] == last;
        assert !less(s[|s| - 1], last);
      }
    } else {
      var front, last := s[..|s| - 1], s[|s| - 1];
      FilterOfInsert(front, x, less, keep);
      FilterAppend(Insert(front, x, less), last, keep);
      if keep(x) && keep(last) {
        var kept := Filter(front, keep);
        assert (kept + [last])[..|kept|] == kept;
      }
    }
  }

  /** Sorting and then keeping some is keeping some and then sorting. */
  lemma {:induction false} FilterOfSort<T(!new)>(s: seq<T>, less: (T, T) -> bool, keep: T -> bool)
    requires StrictWeak(less)
    ensures Filter(Sort(s, less), keep) == Sort(Filter(s, keep), less)
  {
    if s != [] {
      var front, last := s[..|s| - 1], s[|s| - 1];
      FilterOfSort(front, less, keep);
      SortOrders(front, less);
      FilterOfInsert(Sort(front, less), last, less, keep);
      if keep(last) {
        var kept := Filter(front, keep);
        assert (kept + [last])[..|kept|] == kept;
      }
    }
  }

  predicate Distinct<T(==)>(s: seq<T>) {
    forall i, j :: 0 <= i < j < |s| ==> s[i] != s[j]
  }

  lemma {:induction false} DistinctCounts<T>(s: seq<T>, x: T)
    requires Distinct(s)
    ensures multiset(s)[x] == if x in s then 1 else 0
  {
    if s != [] {
      assert s == [s[0]] + s[1..];
      DistinctCounts(s[1..], x);
    }
  }

  /** Two sequences without repetitions that hold the same elements are rearrangements. */
  lemma DistinctSameElements<T>(a: seq<T>, b: seq<T>)
    requires Distinct(a) && Distinct(b)
    requires forall x :: x in a <==> x in b
    ensures multiset(a) == multiset(b)
  {
    forall x: T
      ensures multiset(a)[x] == multiset(b)[x]
    {
      DistinctCounts(a, x);
      DistinctCounts(b, x);
    }
  }

  lemma DistinctRearranged<T>(a: seq<T>, b: seq<T>)
    requires multiset(a) == multiset(b) && Distinct(a)
    ensures Distinct(b)
  {
    forall i, j | 0 <= i < j < |b|
      ensures b[i] != b[j]
    {
      if b[i] == b[j] {
        PutBack(b, j);
        assert Without(b, j)[i] == b[i];
        assert b[i] in multiset(Without(b, j));
        DistinctCounts(a, b[i]);
      }
    }
  }

  // ----- Digests

  /** Of these things no two have one digest. */
  ghost predicate TellsApart<T, U>(digest: T -> U, things: set<T>) {
    forall a, b :: a in things && b in things && digest(a) == digest(b) ==> a == b
  }
}
