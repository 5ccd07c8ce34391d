/** The Tukey upper fence offered as a spend cap, and why it never sits inside ordinary history. */
module Fence {
  import opened Wrappers
  import opened Sorting

  /** A sample as it arrives: a finite number, or one of the values that are not data. */
  datatype Sample = Finite(value: real) | NotANumber | Infinite(positive: bool)

  datatype Cap = Cap(q1: real, q3: real, iqr: real, upper: real, median: real, n: nat)

  /** Negative, infinite and undefined samples are upstream defects, not data. */
  function Usable(samples: seq<Sample>): seq<real> {
    if samples == [] then []
    else
      var front, last := Usable(samples[..|samples| - 1]), samples[|samples| - 1];
      if last.Finite? && last.value >= 0.0 then front + [last.value] else front
  }

  lemma WithinIndices(p: real, last: nat)
    requires 0.0 <= p <= 1.0
    ensures 0.0 <= p * last as real <= last as real
    ensures 0 <= (p * last as real).Floor <= Ceil(p * last as real) <= last
  {
    var idx := p * last as real;
    assert 0.0 <= idx <= last as real;
    assert -(last as real) <= -idx;
    assert (-(last as real)).Floor == -(last as int);
  }

  /** Linear interpolation between order statistics. */
  function Quantile(xs: seq<real>, p: real): real
    requires xs != [] && 0.0 <= p <= 1.0
  {
    WithinIndices(p, |xs| - 1);
    var idx := p * (|xs| - 1) as real;
    var lo, hi := idx.Floor, Ceil(idx);
    if lo == hi then xs[lo] else xs[lo] + (idx - lo as real) * (xs[hi] - xs[lo])
  }

  function CapOf(xs: seq<real>): Option<Cap>
    requires xs != []
  {
    var q1, q3 := Quantile(xs, 0.25), Quantile(xs, 0.75);
    var iqr := q3 - q1;
    if iqr <= 0.0 then None
    else Some(Cap(q1, q3, iqr, q3 + 1.5 * iqr, Quantile(xs, 0.5), |xs|))
  }

  /** The fence of some samples, if there are enough of them and they have any spread. */
  function FenceOf(samples: seq<Sample>, floor: int): Option<Cap> {
    var xs := Usable(samples);
    if |xs| < floor || |xs| < 4 then None else CapOf(Ascending(xs))
  }

  method UpperFence(samples: seq<Sample>, floor: int) returns (cap: Option<Cap>)
    ensures cap == FenceOf(samples, floor)
  {
    var xs: seq<real> := [];
    for n := 0 to |samples|
      invariant xs == Usable(samples[..n])
    {
      assert samples[..n + 1][..n] == samples[..n];
      if samples[n].Finite? && samples[n].value >= 0.0 {
        xs := xs + [samples[n].value];
      }
    }
    assert samples[..|samples|] == samples;
    if |xs| < floor || |xs| < 4 {
      return None;
    }
    xs := Ascending(xs);
    var q1, q3 := Quantile(xs, 0.25), Quantile(xs, 0.75);
    var iqr := q3 - q1;
    if iqr <= 0.0 {
      return None;
    }
    cap := Some(Cap(q1, q3, iqr, q3 + 1.5 * iqr, Quantile(xs, 0.5), |xs|));
  }

  // ----- Order statistics

  /** Between two order statistics: the quantile at a fraction `frac` of the way. */
  lemma QuantileAt(xs: seq<real>, p: real, lo: nat, frac: real)
    requires NonDecreasing(xs) && 0.0 <= p <= 1.0 && lo < |xs| && 0.0 <= frac < 1.0
    requires p * (|xs| - 1) as real == lo as real + frac
    ensures frac == 0.0 ==> Quantile(xs, p) == xs[lo]
    ensures frac > 0.0 ==> lo + 1 < |xs| && Quantile(xs, p) == xs[lo] + frac * (xs[lo + 1] - xs[lo])
  {
    var idx := p * (|xs| - 1) as real;
    WithinIndices(p, |xs| - 1);
    assert idx.Floor == lo;
    assert Ceil(idx) == if frac > 0.0 then lo + 1 else lo;
  }

  /** Where the three quartiles fall, by the remainder of n over 4: a quarter of n - 1 leaves the
      fraction 3/4, 0, 1/4 or 1/2. */
  lemma QuartilesOf4m(xs: seq<real>, m: nat)
    requires NonDecreasing(xs) && m >= 1 && |xs| == 4 * m
    ensures Quantile(xs, 0.25) == xs[m - 1] + 0.75 * (xs[m] - xs[m - 1])
    ensures Quantile(xs, 0.5) == xs[2 * m - 1] + 0.5 * (xs[2 * m] - xs[2 * m - 1])
    ensures Quantile(xs, 0.75) == xs[3 * m - 1] + 0.25 * (xs[3 * m] - xs[3 * m - 1])
  {
    hide Quantile, NonDecreasing;
    QuantileAt(xs, 0.25, m - 1, 0.75);
    QuantileAt(xs, 0.5, 2 * m - 1, 0.5);
    QuantileAt(xs, 0.75, 3 * m - 1, 0.25);
  }

  lemma QuartilesOf4m1(xs: seq<real>, m: nat)
    requires NonDecreasing(xs) && m >= 1 && |xs| == 4 * m + 1
    ensures Quantile(xs, 0.25) == xs[m]
    ensures Quantile(xs, 0.5) == xs[2 * m]
    ensures Quantile(xs, 0.75) == xs[3 * m]
  {
    hide Quantile, NonDecreasing;
    QuantileAt(xs, 0.25, m, 0.0);
    QuantileAt(xs, 0.5, 2 * m, 0.0);
    QuantileAt(xs, 0.75, 3 * m, 0.0);
  }

  lemma QuartilesOf4m2(xs: seq<real>, m: nat)
    requires NonDecreasing(xs) && m >= 1 && |xs| == 4 * m + 2
    ensures Quantile(xs, 0.25) == xs[m] + 0.25 * (xs[m + 1] - xs[m])
    ensures Quantile(xs, 0.5) == xs[2 * m] + 0.5 * (xs[2 * m + 1] - xs[2 * m])
    ensures Quantile(xs, 0.75) == xs[3 * m] + 0.75 * (xs[3 * m + 1] - xs[3 * m])
  {
    hide Quantile, NonDecreasing;
    QuantileAt(xs, 0.25, m, 0.25);
    QuantileAt(xs, 0.5, 2 * m, 0.5);
    QuantileAt(xs, 0.75, 3 * m, 0.75);
  }

  lemma QuartilesOf4m3(xs: seq<real>, m: nat)
    requires NonDecreasing(xs) && m >= 1 && |xs| == 4 * m + 3
    ensures Quantile(xs, 0.25) == xs[m] + 0.5 * (xs[m + 1] - xs[m])
    ensures Quantile(xs, 0.5) == xs[2 * m + 1]
    ensures Quantile(xs, 0.75) == xs[3 * m + 1] + 0.5 * (xs[3 * m + 2] - xs[3 * m + 1])
  {
    hide Quantile, NonDecreasing;
    QuantileAt(xs, 0.25, m, 0.5);
    QuantileAt(xs, 0.5, 2 * m + 1, 0.0);
    QuantileAt(xs, 0.75, 3 * m + 1, 0.5);
  }

  /** What the four cases have in common. The order statistic that three quarters of the sample
      reach lies above the third quartile only by the part of one gap the interpolation leaves, and
      the first quartile is too far below for one and a half times the spread not to bridge it. */
  lemma QuartilesSpread(xs: seq<real>)
    requires NonDecreasing(xs) && |xs| >= 4
    ensures var q1, q2, q3 := Quantile(xs, 0.25), Quantile(xs, 0.5), Quantile(xs, 0.75);
            && q1 <= q2 <= q3
            && xs[0] <= q1 && q3 <= xs[|xs| - 1]
            && xs[|xs| - 1 - |xs| / 4] <= q3 + 1.5 * (q3 - q1)
  {
    hide Quantile;
    var m := |xs| / 4;
    match |xs| % 4 {
      case 0 => QuartilesOf4m(xs, m);
      case 1 => QuartilesOf4m1(xs, m);
      case 2 => QuartilesOf4m2(xs, m);
      case _ => QuartilesOf4m3(xs, m);
    }
  }

  function Above(s: seq<real>, u: real): nat {
    if s == [] then 0 else Above(s[..|s| - 1], u) + if s[|s| - 1] > u then 1 else 0
  }

  lemma {:induction false} AboveFrom(s: seq<real>, u: real, k: nat)
    requires NonDecreasing(s) && k < |s| && s[k] <= u
    ensures Above(s, u) <= |s| - 1 - k
  {
    if k < |s| - 1 {
      AboveFrom(s[..|s| - 1], u, k);
    } else if k > 0 {
      AboveFrom(s[..|s| - 1], u, k - 1);
    }
  }

  lemma {:induction false} AboveWithout(s: seq<real>, u: real, i: nat)
    requires i < |s|
    ensures Above(s, u) == Above(Without(s, i), u) + if s[i] > u then 1 else 0
  {
    var front, last := s[..|s| - 1], s[|s| - 1];
    if i == |s| - 1 {
      assert Without(s, i) == front;
    } else {
      AboveWithout(front, u, i);
      var w := Without(s, i);
      assert w[..|w| - 1] == Without(front, i) && w[|w| - 1] == last;
    }
  }

  lemma {:induction false} AboveIgnoresOrder(a: seq<real>, b: seq<real>, u: real)
    requires multiset(a) == multiset(b)
    ensures Above(a, u) == Above(b, u)
    decreases |a|
  {
    SameLength(a, b);
    if a != [] {
      var n := |a| - 1;
      SameElements(a, b, a[n]);
      var i :| 0 <= i < |b| && b[i] == a[n];
      WithoutEqual(a, n, b, i);
      assert Without(a, n) == a[..n];
      AboveIgnoresOrder(a[..n], Without(b, i), u);
      AboveWithout(b, u, i);
    }
  }

  // ----- The cap

  /** At most a quarter of the usable history, rounded down, lies above a cap that is offered. */
  lemma AtMostAQuarterAbove(samples: seq<Sample>, floor: int)
    requires FenceOf(samples, floor).Some?
    ensures var xs, c := Usable(samples), FenceOf(samples, floor).value;
            && Above(xs, c.upper) <= |xs| / 4
            && c.q1 <= c.median <= c.q3 < c.upper
            && c.n == |xs|
  {
    hide Above, Quantile;
    var xs := Ascending(Usable(samples));
    QuartilesSpread(xs);
    var u := CapOf(xs).value.upper;
    AboveFrom(xs, u, |xs| - 1 - |xs| / 4);
    AboveIgnoresOrder(xs, Usable(samples), u);
  }

  lemma UsableAppend(s: seq<Sample>, v: real)
    requires v >= 0.0
    ensures Usable(s + [Finite(v)]) == Usable(s) + [v]
  {
    assert (s + [Finite(v)])[..|s|] == s;
  }

  lemma UsableOfFour()
    ensures Usable([Finite(0.0), Finite(0.0), Finite(0.0), Finite(1.0)]) == [0.0, 0.0, 0.0, 1.0]
  {
    UsableAppend([], 0.0);
    UsableAppend([Finite(0.0)], 0.0);
    UsableAppend([Finite(0.0), Finite(0.0)], 0.0);
    UsableAppend([Finite(0.0), Finite(0.0), Finite(0.0)], 1.0);
    hide Usable;
    assert [] + [Finite(0.0)] == [Finite(0.0)];
    assert [Finite(0.0)] + [Finite(0.0)] == [Finite(0.0), Finite(0.0)];
    assert [Finite(0.0), Finite(0.0)] + [Finite(0.0)] == [Finite(0.0), Finite(0.0), Finite(0.0)];
    assert [Finite(0.0), Finite(0.0), Finite(0.0)] + [Finite(1.0)]
        == [Finite(0.0), Finite(0.0), Finite(0.0), Finite(1.0)];
  }

  lemma CapOfFour()
    ensures CapOf([0.0, 0.0, 0.0, 1.0]).Some? && CapOf([0.0, 0.0, 0.0, 1.0]).value.upper == 0.625
  {
    QuartilesOf4m([0.0, 0.0, 0.0, 1.0], 1);
    hide Quantile;
  }

  lemma AboveOfFour()
    ensures Above([0.0, 0.0, 0.0, 1.0], 0.625) == 1
  {
    assert [0.0, 0.0, 0.0, 1.0][..3] == [0.0, 0.0, 0.0];
    AboveFrom([0.0, 0.0, 0.0], 0.625, 2);
  }

  lemma FenceOfSorted(samples: seq<Sample>, floor: int)
    requires NonDecreasing(Usable(samples)) && |Usable(samples)| >= floor && |Usable(samples)| >= 4
    ensures FenceOf(samples, floor) == CapOf(Usable(samples))
  {
    hide Usable, CapOf;
    OrderedUnique(Ascending(Usable(samples)), Usable(samples), Below);
  }

  /** The bound is met: one of four samples can lie above. */
  lemma AQuarterCanBeAbove()
    ensures var samples := [Finite(0.0), Finite(0.0), Finite(0.0), Finite(1.0)];
            FenceOf(samples, 4).Some? && Above(Usable(samples), FenceOf(samples, 4).value.upper) == 1
  {
    UsableOfFour();
    CapOfFour();
    AboveOfFour();
    FenceOfSorted([Finite(0.0), Finite(0.0), Finite(0.0), Finite(1.0)], 4);
    hide *;
  }

  /** Identical samples get no cap: it would sit on the typical session. */
  lemma NoSpreadNoCap(samples: seq<Sample>, floor: int, v: real)
    requires forall x :: x in Usable(samples) ==> x == v
    ensures FenceOf(samples, floor).None?
  {
    var xs := Ascending(Usable(samples));
    if |xs| >= 4 {
      forall i | 0 <= i < |xs|
        ensures xs[i] == v
      {
        SameElements(xs, Usable(samples), xs[i]);
      }
      QuartilesSpread(xs);
    }
  }

  // ----- What the cap does not depend on

  lemma {:induction false} UsableCounts(samples: seq<Sample>, x: real)
    ensures multiset(Usable(samples))[x] == if x >= 0.0 then multiset(samples)[Finite(x)] else 0
  {
    if samples != [] {
      assert samples == samples[..|samples| - 1] + [samples[|samples| - 1]];
      UsableCounts(samples[..|samples| - 1], x);
    }
  }

  /** The fence depends on nothing but how often each finite non-negative sample occurs: not on the
      order of the samples, and not on how many unusable ones are among them. */
  lemma FenceIgnoresOrderAndDebris(a: seq<Sample>, b: seq<Sample>, floor: int)
    requires forall x :: x >= 0.0 ==> multiset(a)[Finite(x)] == multiset(b)[Finite(x)]
    ensures FenceOf(a, floor) == FenceOf(b, floor)
  {
    forall x: real
      ensures multiset(Usable(a))[x] == multiset(Usable(b))[x]
    {
      UsableCounts(a, x);
      UsableCounts(b, x);
    }
    assert multiset(Usable(a)) == multiset(Usable(b));
    SameLength(Usable(a), Usable(b));
    AscendingIgnoresOrder(Usable(a), Usable(b));
  }
}
