/** Which cache lifetime, if either, a corpus gives reason to set. */
module TtlPlan {
  import opened Wrappers
  import opened Sorting

  /** One session's cost under each lifetime, in effective tokens. */
  datatype Observation = Observation(short: real, long: real)

  /** What one lane contributes: its spend as run, and its observation (zero where not priced). */
  datatype Input = Input(asRun: real, obs: Observation)

  datatype Setting = FiveMinutes | OneHour

  datatype Plan =
    | NoObservations
    | NoDifference(sessions: nat)
    | NothingPriced
    | InsideErrorBars(want: Setting, margin: real, sessions: nat)
    | Disagreement(want: Setting)
    | TooLittleCovered(want: Setting, coverage: real)
    | Trustworthy(want: Setting, margin: real, coverage: real, sessions: nat, differing: nat)

  const MIN_COVERAGE := 0.5
  const MIN_MARGIN := 0.01

  function Other(w: Setting): Setting {
    if w == OneHour then FiveMinutes else OneHour
  }

  function Lesser(o: Observation): real {
    if o.short < o.long then o.short else o.long
  }

  /** Costlier first; between equals, the one that costs more under the short lifetime. */
  predicate Heavier(a: Observation, b: Observation) {
    Lesser(a) > Lesser(b) || (Lesser(a) == Lesser(b) && a.short > b.short)
  }

  function Under(w: Setting, o: Observation): real {
    if w == FiveMinutes then o.short else o.long
  }

  function Cost(obs: seq<Observation>, w: Setting): real {
    if obs == [] then 0.0 else Cost(obs[..|obs| - 1], w) + Under(w, obs[|obs| - 1])
  }

  /** The costliest tenth of the observations. */
  function Heaviest(obs: seq<Observation>): seq<Observation> {
    Sort(obs, Heavier)[..|obs| / 10]
  }

  /** Which lifetime the costliest tenth prefers, if it is large enough to mean anything. */
  function Verdict(obs: seq<Observation>): Option<Setting> {
    if |obs| < 10 || Cost(Heaviest(obs), FiveMinutes) == Cost(Heaviest(obs), OneHour) then None
    else if Cost(Heaviest(obs), FiveMinutes) < Cost(Heaviest(obs), OneHour) then Some(FiveMinutes)
    else Some(OneHour)
  }

  function Want(obs: seq<Observation>): Setting {
    if Cost(obs, FiveMinutes) < Cost(obs, OneHour) then FiveMinutes else OneHour
  }

  predicate Indifferent(obs: seq<Observation>) {
    forall o :: o in obs ==> o.short == o.long
  }

  predicate Differs(o: Observation) { o.short != o.long }

  /** How many sessions cost more under one lifetime than under the other. */
  function Differing(obs: seq<Observation>): nat { |Filter(obs, Differs)| }

  function Margin(winner: real, loser: real): real
    requires loser != 0.0
  {
    (loser - winner) / loser
  }

  function Choice(obs: seq<Observation>, coverage: real): Plan {
    if obs == [] then NoObservations
    else if Indifferent(obs) then NoDifference(|obs|)
    else
      var want := Want(obs);
      var winner, loser := Cost(obs, want), Cost(obs, Other(want));
      if loser == 0.0 then NothingPriced
      else if Margin(winner, loser) < MIN_MARGIN then InsideErrorBars(want, Margin(winner, loser), |obs|)
      else if Verdict(obs) == Some(Other(want)) then Disagreement(want)
      else if coverage < MIN_COVERAGE then TooLittleCovered(want, coverage)
      else Trustworthy(want, Margin(winner, loser), coverage, |obs|, Differing(obs))
  }

  predicate IsScored(i: Input) {
    i.obs.short > 0.0 && i.obs.long > 0.0
  }

  /** The inputs priced under both lifetimes. */
  function Scored(inputs: seq<Input>): seq<Input> {
    Filter(inputs, IsScored)
  }

  function ObservationOf(i: Input): Observation { i.obs }

  function Observed(inputs: seq<Input>): seq<Observation> {
    Map(Scored(inputs), ObservationOf)
  }

  function Spend(inputs: seq<Input>): real {
    if inputs == [] then 0.0 else Spend(inputs[..|inputs| - 1]) + inputs[|inputs| - 1].asRun
  }

  /** The share of the trusted spend that could be scored. */
  function Coverage(inputs: seq<Input>): real {
    if Spend(inputs) > 0.0 then Spend(Scored(inputs)) / Spend(inputs) else 1.0
  }

  function PlanOf(inputs: seq<Input>): Plan {
    Choice(Observed(inputs), Coverage(inputs))
  }

  // ----- The code

  method HeaviestDecile(obs: seq<Observation>) returns (big: Option<Setting>)
    ensures big == Verdict(obs)
  {
    if |obs| < 10 {
      return None;
    }
    var top := Sort(obs, Heavier)[..|obs| / 10];
    var short, long := 0.0, 0.0;
    for n := 0 to |top|
      invariant short == Cost(top[..n], FiveMinutes) && long == Cost(top[..n], OneHour)
    {
      assert top[..n + 1][..n] == top[..n];
      short := short + top[n].short;
      long := long + top[n].long;
    }
    assert top[..|top|] == top;
    if short == long {
      return None;
    }
    big := Some(if short < long then FiveMinutes else OneHour);
  }

  method SumUp(obs: seq<Observation>) returns (short: real, long: real, differing: nat)
    ensures short == Cost(obs, FiveMinutes) && long == Cost(obs, OneHour)
    ensures differing == Differing(obs) && (differing == 0 <==> Indifferent(obs))
  {
    short, long, differing := 0.0, 0.0, 0;
    for n := 0 to |obs|
      invariant short == Cost(obs[..n], FiveMinutes) && long == Cost(obs[..n], OneHour)
      invariant differing == Differing(obs[..n]) && (differing == 0 <==> Indifferent(obs[..n]))
    {
      assert obs[..n + 1][..n] == obs[..n];
      assert obs[..n + 1] == obs[..n] + [obs[n]];
      FilterAppend(obs[..n], obs[n], Differs);
      short := short + obs[n].short;
      long := long + obs[n].long;
      if obs[n].short != obs[n].long {
        differing := differing + 1;
      }
    }
    assert obs[..|obs|] == obs;
  }

  method ChooseTtlWithCoverage(obs: seq<Observation>, coverage: real) returns (plan: Plan)
    ensures plan == Choice(obs, coverage)
  {
    hide Cost, Verdict, Indifferent, Differing;
    if |obs| == 0 {
      return NoObservations;
    }
    var short, long, differing := SumUp(obs);
    if differing == 0 {
      return NoDifference(|obs|);
    }
    var want, winner, loser := OneHour, long, short;
    if short < long {
      want, winner, loser := FiveMinutes, short, long;
    }
    if loser == 0.0 {
      return NothingPriced;
    }
    var margin := (loser - winner) / loser;
    if margin < MIN_MARGIN {
      return InsideErrorBars(want, margin, |obs|);
    }
    var big := HeaviestDecile(obs);
    if big.Some? && big.value != want {
      return Disagreement(want);
    }
    if coverage < MIN_COVERAGE {
      return TooLittleCovered(want, coverage);
    }
    plan := Trustworthy(want, margin, coverage, |obs|, differing);
  }

  method TtlPlanFromInputs(inputs: seq<Input>) returns (plan: Plan)
    ensures plan == PlanOf(inputs)
  {
    var obs: seq<Observation> := [];
    var trusted, scored := 0.0, 0.0;
    for n := 0 to |inputs|
      invariant obs == Observed(inputs[..n])
      invariant trusted == Spend(inputs[..n]) && scored == Spend(Scored(inputs[..n]))
    {
      assert inputs[..n + 1][..n] == inputs[..n];
      trusted := trusted + inputs[n].asRun;
      if inputs[n].obs.short > 0.0 && inputs[n].obs.long > 0.0 {
        scored := scored + inputs[n].asRun;
        assert Scored(inputs[..n + 1])[..|Scored(inputs[..n])|] == Scored(inputs[..n]);
        obs := obs + [inputs[n].obs];
      }
    }
    assert inputs[..|inputs|] == inputs;
    var coverage := 1.0;
    if trusted > 0.0 {
      coverage := scored / trusted;
    }
    plan := ChooseTtlWithCoverage(obs, coverage);
  }

  // ----- What a recommendation stands on

  lemma ObservedArePositive(inputs: seq<Input>)
    ensures forall o :: o in Observed(inputs) ==> o.short > 0.0 && o.long > 0.0
  {
    FilterAre(inputs, IsScored);
    forall o | o in Observed(inputs)
      ensures o.short > 0.0 && o.long > 0.0
    {
      var k :| 0 <= k < |Observed(inputs)| && Observed(inputs)[k] == o;
      assert Scored(inputs)[k] in Scored(inputs);
    }
  }

  lemma {:induction false} PositiveCost(obs: seq<Observation>, w: Setting)
    requires forall o :: o in obs ==> o.short > 0.0 && o.long > 0.0
    ensures Cost(obs, w) >= 0.0 && (obs != [] ==> Cost(obs, w) > 0.0)
  {
    if obs != [] {
      PositiveCost(obs[..|obs| - 1], w);
      assert obs[|obs| - 1] in obs;
    }
  }

  lemma {:induction false} IndifferentCost(obs: seq<Observation>)
    requires Indifferent(obs)
    ensures Cost(obs, FiveMinutes) == Cost(obs, OneHour)
  {
    if obs != [] {
      IndifferentCost(obs[..|obs| - 1]);
      assert obs[|obs| - 1] in obs;
    }
  }

  lemma AtLeastAHundredth(winner: real, loser: real)
    requires loser > 0.0
    ensures Margin(winner, loser) >= MIN_MARGIN <==> winner <= 0.99 * loser
  {
    var m := Margin(winner, loser);
    assert m * loser == loser - winner;
    assert m >= MIN_MARGIN ==> m * loser >= MIN_MARGIN * loser;
    assert m < MIN_MARGIN ==> m * loser < MIN_MARGIN * loser;
  }

  /** A setting is recommended exactly when it is at least 1% cheaper over the sessions priced under
      both, the costliest tenth does not favour the other one, and at least half of the trusted
      spend was priced. */
  lemma RecommendedExactly(inputs: seq<Input>, w: Setting)
    ensures var obs, plan := Observed(inputs), PlanOf(inputs);
            plan.Trustworthy? && plan.want == w
            <==>
            && obs != []
            && Cost(obs, w) <= 0.99 * Cost(obs, Other(w))
            && (|obs| >= 10 ==> Cost(Heaviest(obs), w) <= Cost(Heaviest(obs), Other(w)))
            && Coverage(inputs) >= MIN_COVERAGE
  {
    hide Cost, Heaviest, Margin, Scored, Spend;
    var obs := Observed(inputs);
    ObservedArePositive(inputs);
    if obs != [] {
      PositiveCost(obs, FiveMinutes);
      PositiveCost(obs, OneHour);
      AtLeastAHundredth(Cost(obs, w), Cost(obs, Other(w)));
      AtLeastAHundredth(Cost(obs, Other(w)), Cost(obs, w));
      if Indifferent(obs) {
        IndifferentCost(obs);
      }
    }
  }

  lemma {:induction false} SpendOfScored(inputs: seq<Input>)
    requires forall i :: i in inputs ==> i.asRun >= 0.0
    ensures 0.0 <= Spend(Scored(inputs)) <= Spend(inputs)
  {
    if inputs != [] {
      var front, last := inputs[..|inputs| - 1], inputs[|inputs| - 1];
      SpendOfScored(front);
      assert last in inputs;
      if IsScored(last) {
        assert Scored(inputs)[..|Scored(front)|] == Scored(front);
      }
    }
  }

  /** Effective tokens are never negative, and then coverage is a share. */
  lemma CoverageIsAShare(inputs: seq<Input>)
    requires forall i :: i in inputs ==> i.asRun >= 0.0
    ensures 0.0 <= Coverage(inputs) <= 1.0
  {
    SpendOfScored(inputs);
    if Spend(inputs) > 0.0 {
      RatioIsAShare(Spend(Scored(inputs)), Spend(inputs));
    }
  }

  lemma RatioIsAShare(part: real, whole: real)
    requires 0.0 <= part <= whole && whole > 0.0
    ensures 0.0 <= part / whole <= 1.0
  {
    var r := part / whole;
    assert r * whole == part;
    assert r < 0.0 ==> r * whole < 0.0;
    assert r > 1.0 ==> r * whole > whole;
  }

  // ----- Scale

  function Times(c: real, x: real): real { c * x }

  function Scaled(c: real): Observation -> Observation {
    (o: Observation) => Observation(Times(c, o.short), Times(c, o.long))
  }

  function ScaledInput(c: real): Input -> Input {
    (i: Input) => Input(Times(c, i.asRun), Observation(Times(c, i.obs.short), Times(c, i.obs.long)))
  }

  function ScaledInputs(inputs: seq<Input>, c: real): seq<Input> {
    Map(inputs, ScaledInput(c))
  }

  lemma ScalingKeepsOrder(c: real, x: real, y: real)
    requires c > 0.0
    ensures (Times(c, x) < Times(c, y) <==> x < y) && (Times(c, x) == Times(c, y) <==> x == y)
    ensures Times(c, 0.0) == 0.0
  {
    assert x < y ==> c * x < c * y;
    assert y < x ==> c * y < c * x;
  }

  lemma ScalingAdds(c: real, x: real, y: real)
    ensures Times(c, x + y) == Times(c, x) + Times(c, y)
    ensures Times(c, x - y) == Times(c, x) - Times(c, y)
    ensures Times(c, 0.0) == 0.0
  {
  }

  lemma LesserScales(c: real, o: Observation)
    requires c > 0.0
    ensures Lesser(Observation(Times(c, o.short), Times(c, o.long))) == Times(c, Lesser(o))
  {
    hide Times;
    ScalingKeepsOrder(c, o.short, o.long);
  }

  lemma HeavierScales(c: real, a: Observation, b: Observation)
    requires c > 0.0
    ensures Heavier(Scaled(c)(a), Scaled(c)(b)) == Heavier(a, b)
  {
    hide Times, Lesser;
    LesserScales(c, a);
    LesserScales(c, b);
    ScalingKeepsOrder(c, Lesser(b), Lesser(a));
    ScalingKeepsOrder(c, b.short, a.short);
  }

  lemma ScalingKeepsWeight(c: real)
    requires c > 0.0
    ensures KeepsOrder(Scaled(c), Heavier)
  {
    forall a, b
      ensures Heavier(Scaled(c)(a), Scaled(c)(b)) == Heavier(a, b)
    {
      HeavierScales(c, a, b);
    }
  }

  lemma MapPrefix<T, U>(s: seq<T>, f: T -> U, d: nat)
    requires d <= |s|
    ensures Map(s, f)[..d] == Map(s[..d], f)
  {
  }

  lemma {:induction false} CostScales(obs: seq<Observation>, c: real, w: Setting)
    ensures Cost(Map(obs, Scaled(c)), w) == Times(c, Cost(obs, w))
  {
    hide Times;
    ScalingAdds(c, 0.0, 0.0);
    if obs != [] {
      var front := obs[..|obs| - 1];
      CostScales(front, c, w);
      ScalingAdds(c, Cost(front, w), Under(w, obs[|obs| - 1]));
      assert Map(obs, Scaled(c))[..|front|] == Map(front, Scaled(c));
    }
  }

  lemma {:induction false} SpendScales(inputs: seq<Input>, c: real)
    ensures Spend(ScaledInputs(inputs, c)) == Times(c, Spend(inputs))
  {
    hide Times;
    ScalingAdds(c, 0.0, 0.0);
    if inputs != [] {
      var front := inputs[..|inputs| - 1];
      SpendScales(front, c);
      ScalingAdds(c, Spend(front), inputs[|inputs| - 1].asRun);
      assert ScaledInputs(inputs, c)[..|front|] == ScaledInputs(front, c);
    }
  }

  lemma ScoredScalesOne(i: Input, c: real)
    requires c > 0.0
    ensures IsScored(ScaledInput(c)(i)) == IsScored(i)
  {
    hide Times;
    ScalingKeepsOrder(c, 0.0, i.obs.short);
    ScalingKeepsOrder(c, 0.0, i.obs.long);
  }

  lemma {:induction false} ScoredScales(inputs: seq<Input>, c: real)
    requires c > 0.0
    ensures Scored(ScaledInputs(inputs, c)) == ScaledInputs(Scored(inputs), c)
  {
    if inputs != [] {
      var front, last := inputs[..|inputs| - 1], inputs[|inputs| - 1];
      ScoredScales(front, c);
      assert ScaledInputs(inputs, c)[..|front|] == ScaledInputs(front, c);
      ScoredScalesOne(last, c);
      MapAppend(Scored(front), last, ScaledInput(c));
      assert ScaledInputs(inputs, c)[|front|] == ScaledInput(c)(last);
    }
  }

  lemma VerdictScales(obs: seq<Observation>, c: real)
    requires c > 0.0
    ensures Verdict(Map(obs, Scaled(c))) == Verdict(obs)
  {
    hide Cost, Sort, Times;
    ScalingKeepsWeight(c);
    SortMaps(obs, Scaled(c), Heavier);
    var top := Heaviest(obs);
    MapPrefix(Sort(obs, Heavier), Scaled(c), |obs| / 10);
    CostScales(top, c, FiveMinutes);
    CostScales(top, c, OneHour);
    ScalingKeepsOrder(c, Cost(top, FiveMinutes), Cost(top, OneHour));
  }

  lemma RatioScales(c: real, x: real, y: real)
    requires c > 0.0 && y != 0.0
    ensures Times(c, y) != 0.0 && Times(c, x) / Times(c, y) == x / y
  {
    ScalingKeepsOrder(c, 0.0, y);
    var r := x / y;
    assert r * y == x;
    assert r * (c * y) == c * x;
  }

  lemma IndifferenceScales(obs: seq<Observation>, c: real)
    requires c > 0.0
    ensures Indifferent(Map(obs, Scaled(c))) == Indifferent(obs)
  {
    hide Times;
    var scaled := Map(obs, Scaled(c));
    forall k | 0 <= k < |obs|
      ensures scaled[k].short == scaled[k].long <==> obs[k].short == obs[k].long
      ensures scaled[k] in scaled && obs[k] in obs
    {
      ScalingKeepsOrder(c, obs[k].short, obs[k].long);
    }
    assert Indifferent(scaled) <==> forall k :: 0 <= k < |obs| ==> scaled[k].short == scaled[k].long;
  }

  lemma {:induction false} DifferingScales(obs: seq<Observation>, c: real)
    requires c > 0.0
    ensures Differing(Map(obs, Scaled(c))) == Differing(obs)
  {
    hide Times;
    if obs != [] {
      var front, last := obs[..|obs| - 1], obs[|obs| - 1];
      DifferingScales(front, c);
      assert Map(obs, Scaled(c))[..|front|] == Map(front, Scaled(c));
      ScalingKeepsOrder(c, last.short, last.long);
    }
  }

  lemma ChoiceScales(obs: seq<Observation>, coverage: real, c: real)
    requires c > 0.0
    ensures Choice(Map(obs, Scaled(c)), coverage) == Choice(obs, coverage)
  {
    hide Cost, Verdict, Indifferent, Differing, Times;
    DifferingScales(obs, c);
    CostScales(obs, c, FiveMinutes);
    CostScales(obs, c, OneHour);
    IndifferenceScales(obs, c);
    VerdictScales(obs, c);
    var short, long := Cost(obs, FiveMinutes), Cost(obs, OneHour);
    ScalingKeepsOrder(c, short, long);
    ScalingKeepsOrder(c, Cost(obs, Other(Want(obs))), 0.0);
    var winner, loser := Cost(obs, Want(obs)), Cost(obs, Other(Want(obs)));
    if loser != 0.0 {
      RatioScales(c, loser - winner, loser);
      ScalingAdds(c, loser, winner);
    }
  }

  /** The plan does not depend on the unit the costs are counted in. */
  lemma PlanScales(inputs: seq<Input>, c: real)
    requires c > 0.0
    ensures PlanOf(ScaledInputs(inputs, c)) == PlanOf(inputs)
  {
    hide Choice, Scored, Spend, Times;
    ScoredScales(inputs, c);
    SpendScales(inputs, c);
    SpendScales(Scored(inputs), c);
    ScalingKeepsOrder(c, 0.0, Spend(inputs));
    if Spend(inputs) > 0.0 {
      RatioScales(c, Spend(Scored(inputs)), Spend(inputs));
    }
    assert Coverage(ScaledInputs(inputs, c)) == Coverage(inputs);
    var scored := Scored(inputs);
    assert forall k :: 0 <= k < |scored| ==> ObservationOf(ScaledInput(c)(scored[k])) == Scaled(c)(scored[k].obs);
    assert Observed(ScaledInputs(inputs, c)) == Map(Observed(inputs), Scaled(c));
    ChoiceScales(Observed(inputs), Coverage(inputs), c);
  }

  // ----- Order

  lemma {:induction false} CostWithout(obs: seq<Observation>, w: Setting, i: nat)
    requires i < |obs|
    ensures Cost(obs, w) == Cost(Without(obs, i), w) + Under(w, obs[i])
  {
    var front, last := obs[..|obs| - 1], obs[|obs| - 1];
    if i == |obs| - 1 {
      assert Without(obs, i) == front;
    } else {
      CostWithout(front, w, i);
      var rest := Without(obs, i);
      assert rest[..|rest| - 1] == Without(front, i) && rest[|rest| - 1] == last;
    }
  }

  lemma {:induction false} CostIgnoresOrder(a: seq<Observation>, b: seq<Observation>, w: Setting)
    requires multiset(a) == multiset(b)
    ensures Cost(a, w) == Cost(b, w)
    decreases |a|
  {
    SameLength(a, b);
    if a != [] {
      var n := |a| - 1;
      SameElements(a, b, a[n]);
      var i :| 0 <= i < |b| && b[i] == a[n];
      WithoutEqual(a, n, b, i);
      assert Without(a, n) == a[..n];
      CostIgnoresOrder(a[..n], Without(b, i), w);
      CostWithout(b, w, i);
    }
  }

  lemma {:induction false} SpendWithout(inputs: seq<Input>, i: nat)
    requires i < |inputs|
    ensures Spend(inputs) == Spend(Without(inputs, i)) + inputs[i].asRun
  {
    var front, last := inputs[..|inputs| - 1], inputs[|inputs| - 1];
    if i == |inputs| - 1 {
      assert Without(inputs, i) == front;
    } else {
      SpendWithout(front, i);
      var rest := Without(inputs, i);
      assert rest[..|rest| - 1] == Without(front, i) && rest[|rest| - 1] == last;
    }
  }

  lemma {:induction false} SpendIgnoresOrder(a: seq<Input>, b: seq<Input>)
    requires multiset(a) == multiset(b)
    ensures Spend(a) == Spend(b)
    decreases |a|
  {
    SameLength(a, b);
    if a != [] {
      var n := |a| - 1;
      SameElements(a, b, a[n]);
      var i :| 0 <= i < |b| && b[i] == a[n];
      WithoutEqual(a, n, b, i);
      assert Without(a, n) == a[..n];
      SpendIgnoresOrder(a[..n], Without(b, i));
      SpendWithout(b, i);
    }
  }

  lemma ObservedIgnoresOrder(a: seq<Input>, b: seq<Input>)
    requires multiset(a) == multiset(b)
    ensures multiset(Observed(a)) == multiset(Observed(b))
    ensures Coverage(a) == Coverage(b)
  {
    FilterIgnoresOrder(a, b, IsScored);
    MapIgnoresOrder(Scored(a), Scored(b), ObservationOf);
    SpendIgnoresOrder(a, b);
    SpendIgnoresOrder(Scored(a), Scored(b));
  }

  predicate Tied(a: Observation, b: Observation) {
    Lesser(a) == Lesser(b) && a.short == b.short
  }

  /** Heavier, and between ties the one dearer (or else the one cheaper) under the long lifetime. */
  predicate Ranked(a: Observation, b: Observation, dearer: bool) {
    Heavier(a, b) || (Tied(a, b) && if dearer then a.long > b.long else a.long < b.long)
  }

  function Ranking(dearer: bool): (Observation, Observation) -> bool {
    (a: Observation, b: Observation) => Ranked(a, b, dearer)
  }

  predicate AtLeast(x: real, y: real, dearer: bool) {
    if dearer then x >= y else x <= y
  }

  lemma OrderedWithout<T>(s: seq<T>, i: nat, less: (T, T) -> bool)
    requires i < |s| && Ordered(s, less)
    ensures Ordered(Without(s, i), less)
  {
    forall p, q | 0 <= p < q < |s| - 1
      ensures !less(Without(s, i)[q], Without(s, i)[p])
    {
      assert Without(s, i)[q] == s[if q < i then q else q + 1];
      assert Without(s, i)[p] == s[if p < i then p else p + 1];
    }
  }

  lemma CostOfPrefix(s: seq<Observation>, i: nat, d: nat, w: Setting)
    requires i < |s| && 0 < d <= |s|
    ensures Cost(s[..d], w)
         == Cost(Without(s, i)[..d - 1], w) + Under(w, s[if d <= i then d - 1 else i])
  {
    if d <= i {
      assert s[..d][..d - 1] == Without(s, i)[..d - 1];
    } else {
      CostWithout(s[..d], w, i);
      assert Without(s[..d], i) == Without(s, i)[..d - 1];
    }
  }

  /** In an order by weight, everything up to an observation that nothing outweighs ties with it. */
  lemma TiedUpTo(a: seq<Observation>, m: seq<Observation>, dearer: bool, i: nat, j: nat)
    requires multiset(a) == multiset(m) && j <= i < |a| == |m| && a[i] == m[0]
    requires Ordered(a, Heavier) && Ordered(m, Ranking(dearer))
    ensures Tied(a[j], m[0]) && AtLeast(m[0].long, a[j].long, dearer)
  {
    SameElements(a, m, a[j]);
    var k :| 0 <= k < |m| && m[k] == a[j];
    assert !Ranking(dearer)(m[k], m[0]) || k == 0;
    assert !Heavier(a[i], a[j]) || i == j;
  }

  /** Of two orderings by weight, a prefix of the one that puts the dearer-under-long of any tied
      observations first costs at least as much under the long lifetime, a prefix of the one that
      puts them last at most as much, and all cost the same under the short lifetime. */
  lemma {:induction false} PrefixBounds(a: seq<Observation>, m: seq<Observation>, dearer: bool, d: nat)
    requires multiset(a) == multiset(m) && d <= |a| == |m|
    requires Ordered(a, Heavier) && Ordered(m, Ranking(dearer))
    ensures AtLeast(Cost(m[..d], OneHour), Cost(a[..d], OneHour), dearer)
    ensures Cost(a[..d], FiveMinutes) == Cost(m[..d], FiveMinutes)
    decreases d
  {
    hide Cost, Ordered, Heavier, Ranking;
    if d > 0 {
      SameElements(a, m, m[0]);
      var i :| 0 <= i < |a| && a[i] == m[0];
      WithoutEqual(a, i, m, 0);
      assert Without(m, 0) == m[1..];
      OrderedWithout(a, i, Heavier);
      OrderedWithout(m, 0, Ranking(dearer));
      PrefixBounds(Without(a, i), m[1..], dearer, d - 1);
      TiedUpTo(a, m, dearer, i, if d <= i then d - 1 else i);
      forall w: Setting
        ensures Cost(m[..d], w) == Cost(m[1..][..d - 1], w) + Under(w, m[0])
        ensures Cost(a[..d], w) == Cost(Without(a, i)[..d - 1], w) + Under(w, a[if d <= i then d - 1 else i])
      {
        CostOfPrefix(m, 0, d, w);
        CostOfPrefix(a, i, d, w);
      }
    }
  }

  /** The inputs by weight, tied ones with the dearer-under-long first, or last. */
  function Arranged(inputs: seq<Input>, dearer: bool): (r: seq<Input>)
    ensures multiset(r) == multiset(inputs)
  {
    Sort(inputs, (i: Input, k: Input) => Ranked(i.obs, k.obs, dearer))
  }

  lemma ArrangedIsOrdered(inputs: seq<Input>, dearer: bool)
    ensures Ordered(Observed(Arranged(inputs, dearer)), Ranking(dearer))
    ensures Ordered(Observed(Arranged(inputs, dearer)), Heavier)
    ensures multiset(Observed(Arranged(inputs, dearer))) == multiset(Observed(inputs))
  {
    var less := (i: Input, k: Input) => Ranked(i.obs, k.obs, dearer);
    SortOrders(inputs, less);
    FilterKeepsOrder(Arranged(inputs, dearer), less, IsScored);
    ObservedIgnoresOrder(Arranged(inputs, dearer), inputs);
  }

  /** Where the costliest tenth can fall as its inputs are rearranged. */
  lemma HeaviestBounds(inputs: seq<Input>, other: seq<Input>, dearer: bool)
    requires multiset(other) == multiset(inputs)
    ensures var top, arranged := Heaviest(Observed(other)), Heaviest(Observed(Arranged(inputs, dearer)));
            && AtLeast(Cost(arranged, OneHour), Cost(top, OneHour), dearer)
            && Cost(arranged, FiveMinutes) == Cost(top, FiveMinutes)
  {
    hide Cost, Scored, Arranged;
    var obs, m := Observed(other), Observed(Arranged(inputs, dearer));
    ObservedIgnoresOrder(other, inputs);
    ArrangedIsOrdered(inputs, dearer);
    SortOfOrdered(m, Heavier);
    WeightIsStrictWeak();
    SortOrders(obs, Heavier);
    SameLength(obs, m);
    PrefixBounds(Sort(obs, Heavier), m, dearer, |obs| / 10);
  }

  lemma WeightIsStrictWeak()
    ensures StrictWeak(Heavier)
  {
  }

  lemma IndifferentIgnoresOrder(a: seq<Observation>, b: seq<Observation>)
    requires multiset(a) == multiset(b)
    ensures Indifferent(a) == Indifferent(b)
  {
    forall o: Observation
      ensures o in a <==> o in b
    {
      SameElements(a, b, o);
    }
  }

  /** The costliest tenth prefers the other setting than the total does. */
  predicate Vetoed(inputs: seq<Input>) {
    Verdict(Observed(inputs)) == Some(Other(Want(Observed(inputs))))
  }

  /** Rearranging the inputs leaves everything a plan says in place except the verdict of the
      costliest tenth. */
  lemma OnlyTheVerdictMoves(a: seq<Input>, b: seq<Input>)
    requires multiset(a) == multiset(b)
    ensures Want(Observed(a)) == Want(Observed(b)) && |Observed(a)| == |Observed(b)|
    ensures PlanOf(a) == PlanOf(b) || Vetoed(a) != Vetoed(b)
  {
    hide Cost, Verdict, Indifferent, Observed, Coverage;
    ObservedIgnoresOrder(a, b);
    FilterIgnoresOrder(Observed(a), Observed(b), Differs);
    SameLength(Filter(Observed(a), Differs), Filter(Observed(b), Differs));
    var o, p := Observed(a), Observed(b);
    SameLength(o, p);
    IndifferentIgnoresOrder(o, p);
    CostIgnoresOrder(o, p, FiveMinutes);
    CostIgnoresOrder(o, p, OneHour);
  }

  lemma OrderMattersAtExtremes(inputs: seq<Input>)
    ensures (forall other: seq<Input> :: multiset(other) == multiset(inputs) ==> PlanOf(other) == PlanOf(inputs))
       <==> PlanOf(Arranged(inputs, true)) == PlanOf(Arranged(inputs, false))
  {
    if PlanOf(Arranged(inputs, true)) == PlanOf(Arranged(inputs, false)) {
      forall other: seq<Input> | multiset(other) == multiset(inputs)
        ensures PlanOf(other) == PlanOf(inputs)
      {
        PlanBetween(inputs, other);
        PlanBetween(inputs, inputs);
      }
    }
  }

  /** Is the plan refused on grounds that are tested before the costliest tenth? */
  predicate RefusedBefore(obs: seq<Observation>) {
    || obs == [] || Indifferent(obs)
    || Cost(obs, Other(Want(obs))) == 0.0
    || Margin(Cost(obs, Want(obs)), Cost(obs, Other(Want(obs)))) < MIN_MARGIN
  }

  /** The least and the most the costliest tenth can cost under the long lifetime, by which of the
      observations that tie at its edge are in it. */
  function TenthLong(inputs: seq<Input>, dearer: bool): real {
    Cost(Heaviest(Observed(Arranged(inputs, dearer))), OneHour)
  }

  /** Does the cost under the short lifetime, which the ties do not move, fall between those two, so
      that some arrangements veto what the total wants and others do not? */
  predicate TiesFlip(inputs: seq<Input>) {
    var short := Cost(Heaviest(Observed(inputs)), FiveMinutes);
    if Want(Observed(inputs)) == FiveMinutes then TenthLong(inputs, false) < short <= TenthLong(inputs, true)
    else TenthLong(inputs, false) <= short < TenthLong(inputs, true)
  }

  /** The plan can depend on the order of the inputs, through ties at the edge of the costliest tenth.
      It does not exactly when it is refused before that tenth is looked at, when there are too few
      observations for one, or when the tenth's short cost does not fall between what it can cost
      under the long lifetime. */
  lemma OrderMattersExactly(inputs: seq<Input>)
    ensures (forall other: seq<Input> :: multiset(other) == multiset(inputs) ==> PlanOf(other) == PlanOf(inputs))
       <==> RefusedBefore(Observed(inputs)) || |Observed(inputs)| < 10 || !TiesFlip(inputs)
  {
    OrderMattersAtExtremes(inputs);
    var first, last := Arranged(inputs, true), Arranged(inputs, false);
    HeaviestBounds(inputs, inputs, true);
    HeaviestBounds(inputs, inputs, false);
    OnlyTheVerdictMoves(inputs, first);
    OnlyTheVerdictMoves(inputs, last);
    OnlyTheVerdictMoves(first, last);
    SameGrounds(inputs, first);
    SameGrounds(inputs, last);
    VetoOf(first);
    VetoOf(last);
    hide PlanOf, Vetoed, Cost, Heaviest, Observed, Arranged, RefusedBefore, Want;
    PlanByVeto(first);
    PlanByVeto(last);
  }

  lemma VetoOf(inputs: seq<Input>)
    ensures var obs := Observed(inputs);
            var short, long := Cost(Heaviest(obs), FiveMinutes), Cost(Heaviest(obs), OneHour);
            Vetoed(inputs) <==> |obs| >= 10 && (if Want(obs) == FiveMinutes then short > long else short < long)
  {
    hide Cost, Heaviest, Observed;
  }

  lemma PlanByVeto(inputs: seq<Input>)
    ensures !RefusedBefore(Observed(inputs)) ==> (PlanOf(inputs).Disagreement? <==> Vetoed(inputs))
  {
    hide Cost, Verdict, Observed, Coverage, Indifferent;
  }

  lemma SameGrounds(a: seq<Input>, b: seq<Input>)
    requires multiset(a) == multiset(b)
    ensures RefusedBefore(Observed(a)) == RefusedBefore(Observed(b))
    ensures RefusedBefore(Observed(a)) ==> PlanOf(a) == PlanOf(b)
  {
    hide Cost, Verdict, Indifferent, Observed, Coverage;
    ObservedIgnoresOrder(a, b);
    var o, p := Observed(a), Observed(b);
    SameLength(o, p);
    IndifferentIgnoresOrder(o, p);
    CostIgnoresOrder(o, p, FiveMinutes);
    CostIgnoresOrder(o, p, OneHour);
  }

  lemma PlanBetween(inputs: seq<Input>, other: seq<Input>)
    requires multiset(other) == multiset(inputs)
    requires PlanOf(Arranged(inputs, true)) == PlanOf(Arranged(inputs, false))
    ensures PlanOf(other) == PlanOf(Arranged(inputs, true))
  {
    var first, last := Arranged(inputs, true), Arranged(inputs, false);
    HeaviestBounds(inputs, other, true);
    HeaviestBounds(inputs, other, false);
    OnlyTheVerdictMoves(other, first);
    OnlyTheVerdictMoves(other, last);
    OnlyTheVerdictMoves(first, last);
    hide Cost, Heaviest, Observed, Coverage, Arranged;
  }

  /** In particular order does not matter when observations that tie on both the lesser cost and the
      short one cost the same under the long lifetime too. */
  lemma OrderMattersOnlyForTies(inputs: seq<Input>, other: seq<Input>)
    requires multiset(other) == multiset(inputs)
    requires forall o, p :: o in Observed(inputs) && p in Observed(inputs) && Tied(o, p) ==> o.long == p.long
    ensures PlanOf(other) == PlanOf(inputs)
  {
    var first, last := Arranged(inputs, true), Arranged(inputs, false);
    ArrangedIsOrdered(inputs, true);
    ArrangedIsOrdered(inputs, false);
    forall o | o in Observed(first)
      ensures o in Observed(inputs)
    {
      SameElements(Observed(first), Observed(inputs), o);
    }
    OrderedUnique(Observed(first), Observed(last), Heavier);
    ObservedIgnoresOrder(first, last);
    PlanBetween(inputs, other);
    PlanBetween(inputs, inputs);
  }

  // ----- Ten sessions whose order decides the plan

  const EVEN := Input(1.0, Observation(10.0, 10.0))
  const UNEVEN := Input(1.0, Observation(10.0, 20.0))
  const LIGHT := Input(1.0, Observation(5.0, 1.0))

  function Lights(k: nat): (r: seq<Input>)
    ensures |r| == k && forall i :: i in r ==> i == LIGHT
  {
    if k == 0 then [] else Lights(k - 1) + [LIGHT]
  }

  lemma CostAppend(obs: seq<Observation>, o: Observation, w: Setting)
    ensures Cost(obs + [o], w) == Cost(obs, w) + Under(w, o)
  {
    assert (obs + [o])[..|obs|] == obs;
  }

  lemma {:induction false} CostWithLights(x: Input, y: Input, k: nat)
    ensures var obs := Map([x, y] + Lights(k), ObservationOf);
            && Cost(obs, FiveMinutes) == x.obs.short + y.obs.short + 5.0 * k as real
            && Cost(obs, OneHour) == x.obs.long + y.obs.long + 1.0 * k as real
  {
    forall w: Setting
      ensures k == 0 ==> Cost(Map([x, y] + Lights(k), ObservationOf), w) == Under(w, x.obs) + Under(w, y.obs)
      ensures k > 0 ==> (Cost(Map([x, y] + Lights(k), ObservationOf), w)
                         == Cost(Map([x, y] + Lights(k - 1), ObservationOf), w) + Under(w, LIGHT.obs))
    {
      if k == 0 {
        CostAppend([], x.obs, w);
        CostAppend([x.obs], y.obs, w);
        assert Map([x, y] + Lights(k), ObservationOf) == [x.obs] + [y.obs];
        assert [] + [x.obs] == [x.obs];
      } else {
        assert [x, y] + Lights(k) == ([x, y] + Lights(k - 1)) + [LIGHT];
        MapAppend([x, y] + Lights(k - 1), LIGHT, ObservationOf);
        CostAppend(Map([x, y] + Lights(k - 1), ObservationOf), LIGHT.obs, w);
      }
    }
    hide Cost, Map, Lights;
    if k > 0 {
      CostWithLights(x, y, k - 1);
    }
  }

  lemma {:induction false} SpendOfOnes(inputs: seq<Input>)
    requires forall i :: i in inputs ==> i.asRun == 1.0
    ensures Spend(inputs) == |inputs| as real
  {
    if inputs != [] {
      SpendOfOnes(inputs[..|inputs| - 1]);
      assert inputs[|inputs| - 1] in inputs;
    }
  }

  predicate TenToTen(i: Input) {
    i.asRun == 1.0 && i.obs.short == 10.0 && i.obs.long >= 10.0
  }

  lemma ObservedOfTen(inputs: seq<Input>)
    requires inputs != [] && forall i :: i in inputs ==> IsScored(i) && i.asRun == 1.0
    ensures Observed(inputs) == Map(inputs, ObservationOf) && Coverage(inputs) == 1.0
  {
    hide Map, Filter, Spend;
    FilterOfKept(inputs, IsScored);
    SpendOfOnes(inputs);
    var n := |inputs| as real;
    assert n / n == 1.0;
  }

  /** Two inputs that tie at the edge of the costliest tenth, ahead of eight lighter ones. */
  lemma HeaviestOfTen(x: Input, y: Input)
    requires TenToTen(x) && TenToTen(y)
    ensures var inputs := [x, y] + Lights(8);
            && Observed(inputs) == Map(inputs, ObservationOf)
            && Heaviest(Observed(inputs)) == [x.obs]
            && Coverage(inputs) == 1.0
  {
    hide Map, Cost, Scored, Spend, Lights, Observed, Coverage;
    var inputs := [x, y] + Lights(8);
    ObservedOfTen(inputs);
    var obs := Observed(inputs);
    forall k | 2 <= k < 10
      ensures inputs[k] == LIGHT
    {
      assert inputs[k] in Lights(8);
    }
    TenAreOrdered(inputs, obs);
    SortOfOrdered(obs, Heavier);
    assert obs[0] == x.obs;
  }

  lemma TenAreOrdered(inputs: seq<Input>, obs: seq<Observation>)
    requires |inputs| == 10 && TenToTen(inputs[0]) && TenToTen(inputs[1])
    requires forall k :: 2 <= k < 10 ==> inputs[k] == LIGHT
    requires obs == Map(inputs, ObservationOf)
    ensures Ordered(obs, Heavier)
  {
    forall k | 0 <= k < 10
      ensures Lesser(obs[k]) == if k < 2 then 10.0 else 1.0
      ensures obs[k].short == if k < 2 then 10.0 else 5.0
    {
      assert obs[k] == ObservationOf(inputs[k]);
    }
  }

  lemma CostOfOne(o: Observation)
    ensures Cost([o], FiveMinutes) == o.short && Cost([o], OneHour) == o.long
  {
    assert [o][..0] == [];
  }

  lemma PlanOfTen(x: Input, y: Input)
    requires TenToTen(x) && TenToTen(y) && x.obs.long + y.obs.long == 30.0
    ensures PlanOf([x, y] + Lights(8))
         == if x.obs.long > 10.0 then Disagreement(OneHour)
            else Trustworthy(OneHour, Margin(38.0, 60.0), 1.0, 10, Differing(Observed([x, y] + Lights(8))))
  {
    hide Cost, Heaviest, Coverage, Observed, Lights, Map, Indifferent, Differing;
    var inputs := [x, y] + Lights(8);
    CostWithLights(x, y, 8);
    HeaviestOfTen(x, y);
    CostOfOne(x.obs);
    var obs := Observed(inputs);
    assert Cost(obs, FiveMinutes) == 60.0 && Cost(obs, OneHour) == 38.0;
    if Indifferent(obs) {
      IndifferentCost(obs);
    }
  }

  /** Two sessions tie at the edge of the costliest tenth; which comes first decides between a
      recommendation and a refusal. */
  lemma OrderCanDecide()
    ensures multiset([EVEN, UNEVEN] + Lights(8)) == multiset([UNEVEN, EVEN] + Lights(8))
    ensures PlanOf([EVEN, UNEVEN] + Lights(8)).Trustworthy?
    ensures PlanOf([UNEVEN, EVEN] + Lights(8)) == Disagreement(OneHour)
  {
    hide PlanOf, Lights;
    PlanOfTen(EVEN, UNEVEN);
    PlanOfTen(UNEVEN, EVEN);
    Swapped(EVEN, UNEVEN, Lights(8));
  }

  lemma Swapped(x: Input, y: Input, rest: seq<Input>)
    ensures multiset([x, y] + rest) == multiset([y, x] + rest)
  {
  }
}
