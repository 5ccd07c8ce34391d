/** Reducing priced rows to the figures of the report, and why the published figures do not depend
    on the order in which lanes were read. */
module CostSummary {
  import opened Sorting
  import opened CostUnits
  import opened CostFold

  // ----- Percentiles

  /** The median of an even count is the midpoint of the two middle values; everything else is the
      nearest rank. */
  function Percentile(sorted: seq<real>, p: real): real
    requires 0.0 <= p <= 1.0
  {
    var n := |sorted|;
    if n == 0 then 0.0
    else if n == 1 then sorted[0]
    else if p == 0.5 && n % 2 == 0 then (sorted[n / 2 - 1] + sorted[n / 2]) / 2.0
    else
      var i := Ceil(p * (n as real)) - 1;
      RankInRange(n, p);
      sorted[if i < 0 then 0 else i]
  }

  lemma RankInRange(n: nat, p: real)
    requires 0.0 <= p <= 1.0
    ensures Ceil(p * (n as real)) <= n
  {
    assert p * (n as real) <= n as real;
  }

  function AtMost(s: seq<real>, v: real): nat {
    if s == [] then 0 else AtMost(s[..|s| - 1], v) + if s[|s| - 1] <= v then 1 else 0
  }

  function Under(s: seq<real>, v: real): nat {
    if s == [] then 0 else Under(s[..|s| - 1], v) + if s[|s| - 1] < v then 1 else 0
  }

  lemma {:induction false} RanksAround(s: seq<real>, i: nat, v: real)
    requires NonDecreasing(s) && i < |s|
    ensures s[i] <= v ==> AtMost(s, v) >= i + 1
    ensures s[i] >= v ==> Under(s, v) <= i
  {
    if i < |s| - 1 {
      RanksAround(s[..|s| - 1], i, v);
    } else if i > 0 {
      RanksAround(s[..|s| - 1], i - 1, v);
      UnderBound(s[..|s| - 1], v);
    }
  }

  lemma {:induction false} UnderBound(s: seq<real>, v: real)
    ensures Under(s, v) <= |s|
  {
    if s != [] {
      UnderBound(s[..|s| - 1], v);
    }
  }

  /** Nearest rank: the smallest sample value with at least the share `p` of the sample at or below
      it. At least p of the sample is at or below the result, and less than p is below it. */
  lemma PercentileIsNearestRank(s: seq<real>, p: real)
    requires NonDecreasing(s) && s != [] && 0.0 < p <= 1.0
    requires !(p == 0.5 && |s| % 2 == 0)
    ensures var v := Percentile(s, p);
            && v in s
            && AtMost(s, v) as real >= p * (|s| as real)
            && (Under(s, v) as real) < p * (|s| as real)
  {
    var n, v, x := |s|, Percentile(s, p), p * (|s| as real);
    RankInRange(n, p);
    assert 0.0 < x;
    CeilIs(x);
    var i := if n == 1 then 0 else Ceil(x) - 1;
    assert s[i] == v && i as real < x <= (i + 1) as real by {
      if n == 1 {
        assert x == p;
      }
    }
    RanksAround(s, i, v);
  }

  lemma CeilIs(x: real)
    ensures x <= Ceil(x) as real < x + 1.0
  {
  }

  /** The ninetieth percentile is never below the median. */
  lemma P90NotBelowMedian(s: seq<real>)
    requires NonDecreasing(s)
    ensures Percentile(s, 0.5) <= Percentile(s, 0.9)
  {
    var n := |s|;
    if n >= 2 {
      RankInRange(n, 0.9);
      RankInRange(n, 0.5);
      var i := Ceil(0.9 * (n as real)) - 1;
      assert i >= n / 2;
    }
  }

  // ----- The summary

  datatype Summary = Summary(
    tasks: nat,
    lanes: nat,
    totalUSD: real,
    uncachedUSD: real,
    writeUSD: real,
    readUSD: real,
    outputUSD: real,
    basis: TtlBasis,
    medianUSD: real,
    p90USD: real,
    rebilledUSD: real,
    rebilledShare: real,
    pricedRequests: int,
    unpricedRequests: int,
    rebilledTokens: int,
    unpricedRebilledTokens: int,
    mixedEpochSessions: nat,
    route: set<string>)  // the models the route line is read from

  const EMPTY := Summary(0, 0, 0.0, 0.0, 0.0, 0.0, 0.0, NoBasis, 0.0, 0.0, 0.0, 0.0, 0, 0, 0, 0, 0, {})

  function CostOf(u: CostUnit): real { u.figures.costUSD }

  function Models(units: seq<CostUnit>): set<string> { set u | u in units :: u.model }

  /** What the summary of some rows is: dollars over the priced rows, requests and tokens over all
      of them, and a session withheld whole withholding all its re-billed tokens. */
  function SummaryOf(units: seq<CostUnit>): Summary {
    if units == [] then EMPTY
    else
      var priced := Where(units, Priced);
      Assembled(Total(units), Total(priced), Total(Where(units, Unpriced)), Basis(priced),
                Ascending(Map(priced, CostOf)), |Where(units, Mixed)|, Models(units))
  }

  function Assembled(all: Figures, priced: Figures, unpriced: Figures, basis: TtlBasis,
                     costs: seq<real>, mixed: nat, route: set<string>): Summary
  {
    Summary(
      tasks := |costs|,
      lanes := 0,
      totalUSD := priced.costUSD,
      uncachedUSD := priced.uncachedUSD,
      writeUSD := priced.writeUSD,
      readUSD := priced.readUSD,
      outputUSD := priced.outputUSD,
      basis := basis,
      medianUSD := Percentile(costs, 0.5),
      p90USD := Percentile(costs, 0.9),
      rebilledUSD := priced.rebilledUSD,
      rebilledShare := if priced.costUSD > 0.0 then priced.rebilledUSD / priced.costUSD else 0.0,
      pricedRequests := all.pricedRequests,
      unpricedRequests := all.unpricedRequests,
      rebilledTokens := all.rebilledTokens,
      unpricedRebilledTokens := priced.unpricedRebilledTokens + unpriced.rebilledTokens,
      mixedEpochSessions := mixed,
      route := route)
  }

  method Summarise(units: seq<CostUnit>) returns (s: Summary)
    ensures s == SummaryOf(units)
  {
    if |units| == 0 {
      return EMPTY;
    }
    s := CountAll(units);
    s := s.(route := set u | u in units :: u.model);
    var costs;
    s, costs := AddPriced(units, s);
    costs := Ascending(costs);
    s := s.(tasks := |costs|, medianUSD := Percentile(costs, 0.5), p90USD := Percentile(costs, 0.9));
    if s.totalUSD > 0.0 {
      s := s.(rebilledShare := s.rebilledUSD / s.totalUSD);
    }
  }

  /** The counts taken over every row, priced or not. */
  function Counts(units: seq<CostUnit>): Summary {
    EMPTY.(pricedRequests := Total(units).pricedRequests,
           unpricedRequests := Total(units).unpricedRequests,
           rebilledTokens := Total(units).rebilledTokens,
           unpricedRebilledTokens :=
             Total(Where(units, Priced)).unpricedRebilledTokens + Total(Where(units, Unpriced)).rebilledTokens,
           mixedEpochSessions := |Where(units, Mixed)|)
  }

  /** The dollar figures, over some priced rows. */
  function Dollars(s: Summary, priced: seq<CostUnit>): Summary {
    s.(totalUSD := Total(priced).costUSD,
       uncachedUSD := Total(priced).uncachedUSD,
       writeUSD := Total(priced).writeUSD,
       readUSD := Total(priced).readUSD,
       outputUSD := Total(priced).outputUSD,
       basis := Basis(priced),
       rebilledUSD := Total(priced).rebilledUSD)
  }

  method CountAll(units: seq<CostUnit>) returns (s: Summary)
    ensures s == Counts(units)
  {
    hide Counts;
    s := EMPTY;
    NothingCounted();
    assert units[..0] == [];
    for n := 0 to |units|
      invariant s == Counts(units[..n])
    {
      var u := units[n];
      CountsGrow(units, n);
      s := s.(pricedRequests := s.pricedRequests + u.figures.pricedRequests);
      s := s.(unpricedRequests := s.unpricedRequests + u.figures.unpricedRequests);
      s := s.(rebilledTokens := s.rebilledTokens + u.figures.rebilledTokens);
      if u.unpriced {
        s := s.(unpricedRebilledTokens := s.unpricedRebilledTokens + u.figures.rebilledTokens);
      } else {
        s := s.(unpricedRebilledTokens := s.unpricedRebilledTokens + u.figures.unpricedRebilledTokens);
      }
      if u.mixedEpochs {
        s := s.(mixedEpochSessions := s.mixedEpochSessions + 1);
      }
    }
    assert units[..|units|] == units;
  }

  lemma NothingCounted()
    ensures Counts([]) == EMPTY
  {
  }

  lemma CountsGrow(units: seq<CostUnit>, n: nat)
    requires n < |units|
    ensures var s, u := Counts(units[..n]), units[n];
            Counts(units[..n + 1]) ==
            s.(pricedRequests := s.pricedRequests + u.figures.pricedRequests,
               unpricedRequests := s.unpricedRequests + u.figures.unpricedRequests,
               rebilledTokens := s.rebilledTokens + u.figures.rebilledTokens,
               unpricedRebilledTokens := s.unpricedRebilledTokens +
                 (if u.unpriced then u.figures.rebilledTokens else u.figures.unpricedRebilledTokens),
               mixedEpochSessions := s.mixedEpochSessions + (if u.mixedEpochs then 1 else 0))
  {
    hide Where, Total;
    StepWhere(units, n, Priced);
    StepWhere(units, n, Unpriced);
    StepWhere(units, n, Mixed);
  }

  method AddPriced(units: seq<CostUnit>, counted: Summary) returns (s: Summary, costs: seq<real>)
    requires counted == Dollars(counted, [])
    ensures costs == Map(Where(units, Priced), CostOf)
    ensures s == Dollars(counted, Where(units, Priced))
  {
    s, costs := counted, [];
    ghost var priced: seq<CostUnit> := [];
    for n := 0 to |units|
      invariant priced == Where(units[..n], Priced)
      invariant costs == Map(priced, CostOf) && s == Dollars(counted, priced)
    {
      hide Where, Total, Basis;
      var u := units[n];
      assert Where(units[..n + 1], Priced) == priced + if u.unpriced then [] else [u] by {
        StepWhere(units, n, Priced);
      }
      if !u.unpriced {
        DollarsGrow(counted, priced, u);
        priced := priced + [u];
        s := s.(totalUSD := s.totalUSD + u.figures.costUSD);
        s := s.(uncachedUSD := s.uncachedUSD + u.figures.uncachedUSD);
        s := s.(writeUSD := s.writeUSD + u.figures.writeUSD);
        s := s.(basis := FoldBasis(s.basis, u.basis));
        s := s.(readUSD := s.readUSD + u.figures.readUSD);
        s := s.(outputUSD := s.outputUSD + u.figures.outputUSD);
        s := s.(rebilledUSD := s.rebilledUSD + u.figures.rebilledUSD);
        costs := costs + [u.figures.costUSD];
      }
    }
    assert units[..|units|] == units;
  }

  lemma DollarsGrow(counted: Summary, priced: seq<CostUnit>, u: CostUnit)
    ensures var s := Dollars(counted, priced);
            Dollars(counted, priced + [u]) ==
            s.(totalUSD := s.totalUSD + u.figures.costUSD,
               uncachedUSD := s.uncachedUSD + u.figures.uncachedUSD,
               writeUSD := s.writeUSD + u.figures.writeUSD,
               basis := FoldBasis(s.basis, u.basis),
               readUSD := s.readUSD + u.figures.readUSD,
               outputUSD := s.outputUSD + u.figures.outputUSD,
               rebilledUSD := s.rebilledUSD + u.figures.rebilledUSD)
    ensures Map(priced + [u], CostOf) == Map(priced, CostOf) + [u.figures.costUSD]
  {
    assert (priced + [u])[..|priced|] == priced;
    BasisGrows(priced, u);
  }

  lemma StepWhere(units: seq<CostUnit>, n: nat, c: Choice)
    requires n < |units|
    ensures Total(units[..n + 1]) == Plus(Total(units[..n]), units[n].figures)
    ensures var before, after := Where(units[..n], c), Where(units[..n + 1], c);
            if Chosen(units[n], c)
            then after == before + [units[n]] && Total(after) == Plus(Total(before), units[n].figures) &&
                 LanesBehind(after) == LanesBehind(before) + units[n].lanes
            else after == before
  {
    assert units[..n + 1][..n] == units[..n];
    var before := Where(units[..n], c);
    assert (before + [units[n]])[..|before|] == before;
  }

  // ----- What the command publishes

  function LanesBehind(rows: seq<CostUnit>): nat {
    if rows == [] then 0 else LanesBehind(rows[..|rows| - 1]) + rows[|rows| - 1].lanes
  }

  /** The published summary of a corpus of lanes: by session unless lanes were asked for, with the
      lanes behind the priced rows, and with the route read from every lane and not from the rows. */
  function Published(units: seq<CostUnit>, perLane: bool): Summary {
    var rows := if perLane then units else SessionRows(units);
    var priced := Where(rows, Priced);
    SummaryOf(rows).(lanes := if perLane then |priced| else LanesBehind(priced), route := Models(units))
  }

  method Publish(units: seq<CostUnit>, perLane: bool) returns (s: Summary)
    ensures s == Published(units, perLane)
  {
    hide SummaryOf, SessionRows;
    var rows := units;
    if !perLane {
      rows := FoldSessions(units);
    }
    s := Summarise(rows);
    var pricedLanes := 0;
    for n := 0 to |rows|
      invariant var priced := Where(rows[..n], Priced);
                pricedLanes == if perLane then |priced| else LanesBehind(priced)
    {
      hide Where, LanesBehind, Total;
      StepWhere(rows, n, Priced);
      if rows[n].unpriced {
      } else if perLane {
        pricedLanes := pricedLanes + 1;
      } else {
        pricedLanes := pricedLanes + rows[n].lanes;
      }
    }
    assert rows[..|rows|] == rows;
    s := s.(lanes := pricedLanes, route := set u | u in units :: u.model);
  }

  // ----- Independence of the order of the lanes

  lemma {:induction false} WhereCore(rows: seq<CostUnit>, c: Choice)
    ensures Map(Where(rows, c), Core) == Where(Map(rows, Core), c)
  {
    if rows != [] {
      var front := rows[..|rows| - 1];
      WhereCore(front, c);
      assert Map(rows, Core)[..|rows| - 1] == Map(front, Core);
    }
  }

  lemma {:induction false} TotalCore(rows: seq<CostUnit>)
    ensures Total(Map(rows, Core)) == Total(rows)
    ensures LanesBehind(Map(rows, Core)) == LanesBehind(rows)
  {
    if rows != [] {
      var front := rows[..|rows| - 1];
      TotalCore(front);
      assert Map(rows, Core)[..|rows| - 1] == Map(front, Core);
    }
  }

  lemma {:induction false} LanesBehindWithout(rows: seq<CostUnit>, i: nat)
    requires i < |rows|
    ensures LanesBehind(rows) == LanesBehind(Without(rows, i)) + rows[i].lanes
  {
    var front, last := rows[..|rows| - 1], rows[|rows| - 1];
    if i == |rows| - 1 {
      assert Without(rows, i) == front;
    } else {
      LanesBehindWithout(front, i);
      var w := Without(rows, i);
      assert w[..|w| - 1] == Without(front, i) && w[|w| - 1] == last;
    }
  }

  lemma {:induction false} LanesBehindIgnoresOrder(a: seq<CostUnit>, b: seq<CostUnit>)
    requires multiset(a) == multiset(b)
    ensures LanesBehind(a) == LanesBehind(b)
    decreases |a|
  {
    SameLength(a, b);
    if a != [] {
      var n := |a| - 1;
      SameElements(a, b, a[n]);
      var i :| 0 <= i < |b| && b[i] == a[n];
      WithoutEqual(a, n, b, i);
      assert Without(a, n) == a[..n];
      LanesBehindIgnoresOrder(a[..n], Without(b, i));
      LanesBehindWithout(b, i);
    }
  }

  /** Rows that differ only in order and in the lane they name have the same figures. */
  lemma ChoiceIgnoresOrder(a: seq<CostUnit>, b: seq<CostUnit>, c: Choice)
    requires multiset(Map(a, Core)) == multiset(Map(b, Core))
    ensures multiset(Map(Where(a, c), Core)) == multiset(Map(Where(b, c), Core))
    ensures |Where(a, c)| == |Where(b, c)|
    ensures Total(Where(a, c)) == Total(Where(b, c))
    ensures LanesBehind(Where(a, c)) == LanesBehind(Where(b, c))
  {
    WhereCore(a, c);
    WhereCore(b, c);
    FilterIgnoresOrder(Map(a, Core), Map(b, Core), Picks(c));
    var x, y := Map(Where(a, c), Core), Map(Where(b, c), Core);
    SameLength(x, y);
    TotalIgnoresOrder(x, y);
    LanesBehindIgnoresOrder(x, y);
    TotalCore(Where(a, c));
    TotalCore(Where(b, c));
  }

  lemma CostsIgnoreOrder(a: seq<CostUnit>, b: seq<CostUnit>)
    requires multiset(Map(a, Core)) == multiset(Map(b, Core))
    ensures Ascending(Map(a, CostOf)) == Ascending(Map(b, CostOf))
  {
    MapIgnoresOrder(Map(a, Core), Map(b, Core), CostOf);
    assert Map(Map(a, Core), CostOf) == Map(a, CostOf);
    assert Map(Map(b, Core), CostOf) == Map(b, CostOf);
    AscendingIgnoresOrder(Map(a, CostOf), Map(b, CostOf));
  }

  lemma BasisIgnoresOrder(a: seq<CostUnit>, b: seq<CostUnit>)
    requires multiset(Map(a, Core)) == multiset(Map(b, Core))
    ensures Basis(a) == Basis(b)
  {
    BasisCore(a);
    BasisCore(b);
    forall u: CostUnit
      ensures u in Map(a, Core) <==> u in Map(b, Core)
    {
      SameElements(Map(a, Core), Map(b, Core), u);
    }
  }

  lemma BasisCore(a: seq<CostUnit>)
    ensures Basis(Map(a, Core)) == Basis(a)
  {
    forall u | u in a
      ensures Core(u) in Map(a, Core)
    {
      var i :| 0 <= i < |a| && a[i] == u;
      assert Map(a, Core)[i] == Core(u);
    }
  }

  lemma SummaryIgnoresRowOrder(a: seq<CostUnit>, b: seq<CostUnit>)
    requires multiset(Map(a, Core)) == multiset(Map(b, Core))
    ensures SummaryOf(a).(route := {}) == SummaryOf(b).(route := {})
  {
    hide Total, Where, Basis, Ascending, Core, Percentile;
    SameLength(Map(a, Core), Map(b, Core));
    TotalIgnoresOrder(Map(a, Core), Map(b, Core));
    TotalCore(a);
    TotalCore(b);
    ChoiceIgnoresOrder(a, b, Priced);
    ChoiceIgnoresOrder(a, b, Unpriced);
    ChoiceIgnoresOrder(a, b, Mixed);
    CostsIgnoreOrder(Where(a, Priced), Where(b, Priced));
    BasisIgnoresOrder(Where(a, Priced), Where(b, Priced));
  }

  /** Everything the command publishes is the same whatever order the lanes were read in: totals,
      median, ninetieth percentile, re-billed share, coverage counters, mixed-epoch count, basis,
      lane count and route, by session and by lane. */
  lemma PublishedIgnoresLaneOrder(a: seq<CostUnit>, b: seq<CostUnit>, perLane: bool)
    requires multiset(a) == multiset(b)
    ensures Published(a, perLane) == Published(b, perLane)
  {
    forall u: CostUnit
      ensures u in a <==> u in b
    {
      SameElements(a, b, u);
    }
    assert Models(a) == Models(b);
    var rows := if perLane then a else SessionRows(a);
    var rows' := if perLane then b else SessionRows(b);
    if perLane {
      MapIgnoresOrder(a, b, Core);
    } else {
      FoldIgnoresLaneOrder(a, b);
    }
    SummaryIgnoresRowOrder(rows, rows');
    ChoiceIgnoresOrder(rows, rows', Priced);
  }
}
