/** Rows of the cost report: one per agent lane when they are built, one per session once folded. */
module CostUnits {
  import opened Wrappers
  import opened Sorting

  /** Where a cache-write figure rests: no priced write, all writes measured, or some assumed. */
  datatype TtlBasis = NoBasis | Measured | AssumedShort

  /** What adds up across rows: counts of tokens and events, and money already spent. */
  datatype Figures = Figures(
    requests: int,
    pricedRequests: int,
    unpricedRequests: int,
    costUSD: real,
    uncachedUSD: real,
    writeUSD: real,
    readUSD: real,
    outputUSD: real,
    rebilledUSD: real,
    rebilledTokens: int,
    unpricedRebilledTokens: int,
    breaks: int,
    repeated: int,
    errored: int,
    erroredUnresolved: int,
    erroredLegacy: int)

  datatype CostUnit = CostUnit(
    id: string,
    lane: string,
    lanes: nat,
    model: string,
    unpriced: bool,
    mixedEpochs: bool,
    basis: TtlBasis,
    at: Option<int>,  // None is the zero time
    path: string,
    figures: Figures)

  const NOTHING := Figures(0, 0, 0, 0.0, 0.0, 0.0, 0.0, 0.0, 0.0, 0, 0, 0, 0, 0, 0, 0)

  function Plus(a: Figures, b: Figures): Figures {
    Figures(
      a.requests + b.requests,
      a.pricedRequests + b.pricedRequests,
      a.unpricedRequests + b.unpricedRequests,
      a.costUSD + b.costUSD,
      a.uncachedUSD + b.uncachedUSD,
      a.writeUSD + b.writeUSD,
      a.readUSD + b.readUSD,
      a.outputUSD + b.outputUSD,
      a.rebilledUSD + b.rebilledUSD,
      a.rebilledTokens + b.rebilledTokens,
      a.unpricedRebilledTokens + b.unpricedRebilledTokens,
      a.breaks + b.breaks,
      a.repeated + b.repeated,
      a.errored + b.errored,
      a.erroredUnresolved + b.erroredUnresolved,
      a.erroredLegacy + b.erroredLegacy)
  }

  function Total(us: seq<CostUnit>): Figures {
    if us == [] then NOTHING else Plus(Total(us[..|us| - 1]), us[|us| - 1].figures)
  }

  lemma PlusLaws(a: Figures, b: Figures, c: Figures)
    ensures Plus(Plus(a, b), c) == Plus(Plus(a, c), b)
    ensures Plus(Plus(a, b), c) == Plus(a, Plus(b, c))
    ensures Plus(a, b) == Plus(b, a) && Plus(a, NOTHING) == a
  {
  }

  lemma TotalAppend(us: seq<CostUnit>, u: CostUnit)
    ensures Total(us + [u]) == Plus(Total(us), u.figures)
  {
    assert (us + [u])[..|us|] == us;
  }

  lemma {:induction false} TotalWithout(us: seq<CostUnit>, i: nat)
    requires i < |us|
    ensures Total(us) == Plus(Total(Without(us, i)), us[i].figures)
  {
    hide Plus;
    var front, last := us[..|us| - 1], us[|us| - 1];
    if i == |us| - 1 {
      assert Without(us, i) == front;
    } else {
      TotalWithout(front, i);
      var w := Without(us, i);
      assert w[..|w| - 1] == Without(front, i) && w[|w| - 1] == last;
      PlusLaws(Total(Without(front, i)), front[i].figures, last.figures);
    }
  }

  /** Totals do not depend on the order of the rows. */
  lemma {:induction false} TotalIgnoresOrder(a: seq<CostUnit>, b: seq<CostUnit>)
    requires multiset(a) == multiset(b)
    ensures Total(a) == Total(b)
    decreases |a|
  {
    hide Plus;
    SameLength(a, b);
    if a != [] {
      var n := |a| - 1;
      SameElements(a, b, a[n]);
      var i :| 0 <= i < |b| && b[i] == a[n];
      WithoutEqual(a, n, b, i);
      assert Without(a, n) == a[..n];
      TotalIgnoresOrder(a[..n], Without(b, i));
      TotalWithout(b, i);
    }
  }

  // ----- Picking rows

  datatype Choice = OfSession(id: string) | OfSessions(ids: set<string>) | Priced | Unpriced | Mixed

  predicate Chosen(u: CostUnit, c: Choice) {
    match c
    case OfSession(id) => u.id == id
    case OfSessions(ids) => u.id in ids
    case Priced => !u.unpriced
    case Unpriced => u.unpriced
    case Mixed => u.mixedEpochs
  }

  function Picks(c: Choice): CostUnit -> bool {
    (u: CostUnit) => Chosen(u, c)
  }

  /** The rows a choice picks, in the order they came. */
  function Where(us: seq<CostUnit>, c: Choice): seq<CostUnit> {
    Filter(us, Picks(c))
  }

  lemma WhereAppend(us: seq<CostUnit>, u: CostUnit, c: Choice)
    ensures Where(us + [u], c) == if Chosen(u, c) then Where(us, c) + [u] else Where(us, c)
  {
    FilterAppend(us, u, Picks(c));
  }

  lemma WhereAre(us: seq<CostUnit>, c: Choice, u: CostUnit)
    ensures u in Where(us, c) <==> u in us && Chosen(u, c)
  {
    FilterAre(us, Picks(c));
  }
}
