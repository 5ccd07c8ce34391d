/** Pricing an export of token counts: which requests, breaks and dollars a row and the report may
    claim. */
module UsagePricing {
  import opened Wrappers
  import opened Sorting
  import CostSummary
  import opened Shares

  type Price(!new, ==)

  datatype Record = Record(
    session: string,
    model: string,
    at: Option<int>,  // None is the zero time
    input: int,
    cachedRead: int,
    cachedWrite: int,
    output: int)

  /** The price table in force, and the causes that usage and timing alone settle. */
  datatype Rates = Rates(
    price: (string, Option<int>) -> Option<Price>,
    cost: (Record, Price) -> real,
    inputPerMTok: Price -> real,
    cause: (Record, Record) -> Option<string>)

  // ----- One session

  /** What adds up across sessions. */
  datatype Figures = Figures(
    requests: int,
    costUSD: real,
    breaks: int,
    deficit: int,
    rebilledUSD: real,
    unexplained: int,
    causes: multiset<string>)

  const NOTHING := Figures(0, 0.0, 0, 0, 0.0, 0, multiset{})

  function Plus(a: Figures, b: Figures): Figures {
    Figures(
      a.requests + b.requests,
      a.costUSD + b.costUSD,
      a.breaks + b.breaks,
      a.deficit + b.deficit,
      a.rebilledUSD + b.rebilledUSD,
      a.unexplained + b.unexplained,
      a.causes + b.causes)
  }

  datatype Tally = Tally(
    figures: Figures,
    unpriced: nat,
    dominant: real,
    model: string,
    at: Option<int>)

  const EMPTY := Tally(NOTHING, 0, 0.0, "", None)

  predicate Before(a: Option<int>, b: Option<int>) {
    b.Some? && (a.None? || a.value < b.value)
  }

  predicate Earlier(a: Record, b: Record) {
    Before(a.at, b.at)
  }

  /** What the next request should read if nothing changed: all that was read or written before. */
  function ExpectedRead(prev: Record): int {
    prev.cachedRead + prev.cachedWrite
  }

  predicate IsBreak(prev: Record, cur: Record) {
    cur.cachedRead < ExpectedRead(prev)
  }

  function Priced(t: Tally, r: Record, rates: Rates): Tally {
    match rates.price(r.model, r.at)
    case None => t.(unpriced := t.unpriced + 1)
    case Some(price) =>
      var c := rates.cost(r, price);
      var t := t.(figures := t.figures.(costUSD := t.figures.costUSD + c, requests := t.figures.requests + 1));
      if c > t.dominant then t.(dominant := c, model := r.model) else t
  }

  function Dated(t: Tally, r: Record): Tally {
    if t.at.None? || (r.at.Some? && Before(r.at, t.at)) then t.(at := r.at) else t
  }

  /** The break a request makes after the one before it. */
  function BreakOf(prev: Record, cur: Record, rates: Rates): Figures {
    if !IsBreak(prev, cur) then NOTHING
    else
      var d := ExpectedRead(prev) - cur.cachedRead;
      var usd := match rates.price(cur.model, cur.at)
                 case Some(price) => d as real / 1_000_000.0 * rates.inputPerMTok(price)
                 case None => 0.0;
      match rates.cause(prev, cur)
      case Some(cause) => NOTHING.(breaks := 1, deficit := d, rebilledUSD := usd, causes := multiset{cause})
      case None => NOTHING.(breaks := 1, deficit := d, rebilledUSD := usd, unexplained := 1)
  }

  /** What a session's requests, in the order they ran, come to. */
  function TallyOf(rs: seq<Record>, sequenced: bool, rates: Rates): Tally {
    if rs == [] then EMPTY
    else
      var n := |rs| - 1;
      var t := Dated(Priced(TallyOf(rs[..n], sequenced, rates), rs[n], rates), rs[n]);
      if sequenced && n > 0 then t.(figures := Plus(t.figures, BreakOf(rs[n - 1], rs[n], rates))) else t
  }

  lemma TallyNext(rs: seq<Record>, i: nat, sequenced: bool, rates: Rates)
    requires i < |rs|
    ensures var t := Dated(Priced(TallyOf(rs[..i], sequenced, rates), rs[i], rates), rs[i]);
            TallyOf(rs[..i + 1], sequenced, rates)
            == if sequenced && i > 0 then t.(figures := Plus(t.figures, BreakOf(rs[i - 1], rs[i], rates))) else t
    ensures TallyOf(rs[..0], sequenced, rates) == EMPTY
  {
    assert rs[..i + 1][..i] == rs[..i];
  }

  /** The inner loop. The counters of the source's map of causes are the multiplicities here. */
  method PriceSession(rs: seq<Record>, sequenced: bool, rates: Rates) returns (t: Tally)
    ensures t == TallyOf(rs, sequenced, rates)
  {
    hide TallyOf, BreakOf, Plus;
    t := EMPTY;
    if |rs| > 0 {
      TallyNext(rs, 0, sequenced, rates);
    } else {
      NothingTallied(sequenced, rates);
    }
    assert rs[..|rs|] == rs;
    for i := 0 to |rs|
      invariant t == TallyOf(rs[..i], sequenced, rates)
    {
      TallyNext(rs, i, sequenced, rates);
      var r := rs[i];
      var price := rates.price(r.model, r.at);
      if price.None? {
        t := t.(unpriced := t.unpriced + 1);
      } else {
        var c := rates.cost(r, price.value);
        t := t.(figures := t.figures.(costUSD := t.figures.costUSD + c, requests := t.figures.requests + 1));
        if c > t.dominant {
          t := t.(dominant := c, model := r.model);
        }
      }
      if t.at.None? || (r.at.Some? && Before(r.at, t.at)) {
        t := t.(at := r.at);
      }
      if !sequenced || i == 0 {
        continue;
      }
      var b := MeasureBreak(rs[i - 1], r, rates);
      t := t.(figures := Plus(t.figures, b));
    }
  }

  /** The break, if any, that a request makes after the one before it. An unpriced request keeps its
      place in the sequence, at no dollars. */
  method MeasureBreak(prev: Record, cur: Record, rates: Rates) returns (f: Figures)
    ensures f == BreakOf(prev, cur, rates)
  {
    var d := ExpectedRead(prev) - cur.cachedRead;
    if d <= 0 {
      return NOTHING;
    }
    f := NOTHING.(breaks := 1, deficit := d);
    var price := rates.price(cur.model, cur.at);
    if price.Some? {
      f := f.(rebilledUSD := d as real / 1_000_000.0 * rates.inputPerMTok(price.value));
    }
    var cause := rates.cause(prev, cur);
    if cause.Some? {
      f := f.(causes := multiset{cause.value});
    } else {
      f := f.(unexplained := 1);
    }
  }

  lemma NothingTallied(sequenced: bool, rates: Rates)
    ensures TallyOf([], sequenced, rates) == EMPTY
  {
  }

  // ----- Sessions

  datatype Group = Group(session: string, records: seq<Record>)

  function Of(records: seq<Record>, session: string): seq<Record> {
    Filter(records, (r: Record) => r.session == session)
  }

  /** The sessions of an export, in order of first appearance. */
  function Sessions(records: seq<Record>): (ids: seq<string>)
    ensures forall id :: id in ids <==> exists r :: r in records && r.session == id
    ensures Distinct(ids)
  {
    if records == [] then []
    else
      var front, last := Sessions(records[..|records| - 1]), records[|records| - 1];
      assert records == records[..|records| - 1] + [last];
      if last.session in front then front else front + [last.session]
  }

  function GroupOf(records: seq<Record>): string -> Group {
    id => Group(id, Sort(Of(records, id), Earlier))
  }

  lemma SessionsAppend(records: seq<Record>, r: Record)
    ensures Sessions(records + [r])
         == if r.session in Sessions(records) then Sessions(records) else Sessions(records) + [r.session]
    ensures Sessions([]) == []
  {
    assert (records + [r])[..|records|] == records;
  }

  lemma OfAppend(records: seq<Record>, r: Record, id: string)
    ensures Of(records + [r], id) == if r.session == id then Of(records, id) + [r] else Of(records, id)
    ensures Of([], id) == []
  {
    FilterAppend(records, r, (r: Record) => r.session == id);
  }

  method Collect(records: seq<Record>) returns (order: seq<string>, collected: map<string, seq<Record>>)
    ensures order == Sessions(records)
    ensures forall id :: id in collected <==> id in order
    ensures forall id :: id in collected ==> collected[id] == Of(records, id)
  {
    hide Of, Sessions;
    order, collected := [], map[];
    NoRecords();
    assert records[..0] == [] && records[..|records|] == records;
    for n := 0 to |records|
      invariant order == Sessions(records[..n])
      invariant forall id :: id in collected <==> id in order
      invariant forall id :: (if id in collected then collected[id] else []) == Of(records[..n], id)
    {
      var r := records[n];
      assert records[..n + 1] == records[..n] + [r];
      SessionsAppend(records[..n], r);
      forall id
        ensures Of(records[..n + 1], id) == if r.session == id then Of(records[..n], id) + [r] else Of(records[..n], id)
      {
        OfAppend(records[..n], r, id);
      }
      if r.session !in collected {
        order := order + [r.session];
        collected := collected[r.session := []];
      }
      collected := collected[r.session := collected[r.session] + [r]];
    }
  }

  method BySession(records: seq<Record>) returns (groups: seq<Group>)
    ensures groups == Map(Sessions(records), GroupOf(records))
  {
    hide Of, Sessions, Sort;
    var order, collected := Collect(records);
    groups := [];
    assert order[..0] == [] && Map<string, Group>([], GroupOf(records)) == [] && order[..|order|] == order;
    for n := 0 to |order|
      invariant groups == Map(order[..n], GroupOf(records))
    {
      var id := order[n];
      assert order[..n + 1] == order[..n] + [id];
      MapAppend(order[..n], id, GroupOf(records));
      groups := groups + [Group(id, Sort(collected[id], Earlier))];
    }
  }

  lemma NoRecords()
    ensures Sessions([]) == [] && forall id :: Of([], id) == []
  {
  }

  datatype Why = Nothing | UndatedRecords(n: nat, of: nat) | NotDeclaredComplete

  function Undated(records: seq<Record>): nat {
    |Filter(records, (r: Record) => r.at.None?)|
  }

  /** Why the export does not support a sequence, if it does not. */
  function Evidence(records: seq<Record>, complete: bool): Why {
    if Undated(records) > 0 then UndatedRecords(Undated(records), |records|)
    else if !complete then NotDeclaredComplete
    else Nothing
  }

  method SequenceEvidence(records: seq<Record>, complete: bool) returns (sequenced: bool, why: Why)
    ensures why == Evidence(records, complete) && sequenced == why.Nothing?
  {
    var undated := 0;
    for n := 0 to |records|
      invariant undated == Undated(records[..n])
    {
      assert records[..n + 1] == records[..n] + [records[n]];
      FilterAppend(records[..n], records[n], (r: Record) => r.at.None?);
      if records[n].at.None? {
        undated := undated + 1;
      }
    }
    assert records[..|records|] == records;
    if undated > 0 {
      return false, UndatedRecords(undated, |records|);
    }
    if !complete {
      return false, NotDeclaredComplete;
    }
    return true, Nothing;
  }

  // ----- The report

  datatype Row = Row(
    id: string,
    model: string,
    requests: int,
    costUSD: real,
    breaks: Option<int>,
    rebilledUSD: Option<real>,
    rebilledTokens: Option<int>,
    at: Option<int>)

  datatype Report = Report(
    sessions: nat,
    requests: int,
    unpricedRequests: nat,
    totalUSD: real,
    medianUSD: real,
    p90USD: real,
    breaks: Option<int>,
    rebilledUSD: Option<real>,
    rebilledTokens: Option<int>,
    rebilledShare: Option<real>,
    causes: multiset<string>,
    causeNotMeasured: Option<int>,
    notMeasuredWhy: Why,
    models: seq<string>)

  function When<T>(b: bool, x: T): Option<T> {
    if b then Some(x) else None
  }

  /** A session and what it comes to. */
  datatype Costed = Costed(group: Group, tally: Tally)

  function CostedOf(sequenced: bool, rates: Rates): Group -> Costed {
    (g: Group) => Costed(g, TallyOf(g.records, sequenced, rates))
  }

  /** The sessions of which something could be priced. */
  function Kept(cs: seq<Costed>): seq<Costed> {
    Filter(cs, (c: Costed) => c.tally.figures.requests != 0)
  }

  function Total(cs: seq<Costed>): Figures {
    if cs == [] then NOTHING else Plus(Total(cs[..|cs| - 1]), cs[|cs| - 1].tally.figures)
  }

  function Unpriced(cs: seq<Costed>): nat {
    if cs == [] then 0 else Unpriced(cs[..|cs| - 1]) + cs[|cs| - 1].tally.unpriced
  }

  function ModelsOf(records: seq<Record>): seq<string> {
    Map(records, (r: Record) => r.model)
  }

  function Models(cs: seq<Costed>): seq<string> {
    if cs == [] then [] else Models(cs[..|cs| - 1]) + ModelsOf(cs[|cs| - 1].group.records)
  }

  function RowOf(sequenced: bool): Costed -> Row {
    (c: Costed) =>
      Row(c.group.session, c.tally.model, c.tally.figures.requests, c.tally.figures.costUSD,
          When(sequenced, c.tally.figures.breaks), When(sequenced, c.tally.figures.rebilledUSD),
          When(sequenced, c.tally.figures.deficit), c.tally.at)
  }

  function CostOf(c: Costed): real { c.tally.figures.costUSD }

  function Summary(cs: seq<Costed>, why: Why): Report {
    var kept, sequenced := Kept(cs), why.Nothing?;
    var total, costs := Total(kept), Ascending(Map(kept, CostOf));
    Report(
      |kept|, total.requests, Unpriced(cs), total.costUSD,
      CostSummary.Percentile(costs, 0.5), CostSummary.Percentile(costs, 0.9),
      When(sequenced, total.breaks), When(sequenced, total.rebilledUSD), When(sequenced, total.deficit),
      if sequenced && total.costUSD > 0.0 then Some(total.rebilledUSD / total.costUSD) else None,
      total.causes, When(sequenced, total.unexplained), why, Models(kept))
  }

  function CostedSessions(records: seq<Record>, complete: bool, rates: Rates): seq<Costed> {
    Map(Map(Sessions(records), GroupOf(records)), CostedOf(Evidence(records, complete).Nothing?, rates))
  }

  function Rows(records: seq<Record>, complete: bool, rates: Rates): seq<Row> {
    Map(Kept(CostedSessions(records, complete, rates)), RowOf(Evidence(records, complete).Nothing?))
  }

  lemma KeptAppend(cs: seq<Costed>, c: Costed)
    ensures Kept(cs + [c]) == if c.tally.figures.requests == 0 then Kept(cs) else Kept(cs) + [c]
    ensures Unpriced(cs + [c]) == Unpriced(cs) + c.tally.unpriced
  {
    FilterAppend(cs, c, (c: Costed) => c.tally.figures.requests != 0);
    assert (cs + [c])[..|cs|] == cs;
  }

  lemma TotalAppend(cs: seq<Costed>, c: Costed)
    ensures Total(cs + [c]) == Plus(Total(cs), c.tally.figures)
    ensures Models(cs + [c]) == Models(cs) + ModelsOf(c.group.records)
  {
    assert (cs + [c])[..|cs|] == cs;
  }

  method PriceUsage(records: seq<Record>, complete: bool, rates: Rates) returns (rep: Report, rows: seq<Row>)
    ensures rows == Rows(records, complete, rates)
    ensures rep == Summary(CostedSessions(records, complete, rates), Evidence(records, complete))
  {
    hide TallyOf, Kept, Total, Unpriced, Models, Sessions, GroupOf, Ascending;
    var sequenced, why := SequenceEvidence(records, complete);
    var groups := BySession(records);
    rows := [];
    var costs: seq<real>, models: seq<string> := [], [];
    var unpriced, total := 0, NOTHING;
    ghost var cs := Map(groups, CostedOf(sequenced, rates));
    NothingCosted();
    assert cs[..0] == [] && Map<Costed, Row>([], RowOf(sequenced)) == [] && Map<Costed, real>([], CostOf) == [];
    for n := 0 to |groups|
      invariant unpriced == Unpriced(cs[..n])
      invariant total == Total(Kept(cs[..n])) && models == Models(Kept(cs[..n]))
      invariant rows == Map(Kept(cs[..n]), RowOf(sequenced))
      invariant costs == Map(Kept(cs[..n]), CostOf)
    {
      var g := groups[n];
      var t := PriceSession(g.records, sequenced, rates);
      ghost var before := cs[..n];
      assert cs[..n + 1] == before + [Costed(g, t)];
      KeptAppend(before, Costed(g, t));
      unpriced := unpriced + t.unpriced;
      if t.figures.requests == 0 {
        continue;
      }
      TotalAppend(Kept(before), Costed(g, t));
      MapAppend(Kept(before), Costed(g, t), RowOf(sequenced));
      MapAppend(Kept(before), Costed(g, t), CostOf);
      total := Plus(total, t.figures);
      models := models + Map(g.records, (r: Record) => r.model);
      rows := rows + [Row(g.session, t.model, t.figures.requests, t.figures.costUSD,
                          When(sequenced, t.figures.breaks), When(sequenced, t.figures.rebilledUSD),
                          When(sequenced, t.figures.deficit), t.at)];
      costs := costs + [t.figures.costUSD];
    }
    assert cs[..|cs|] == cs;
    costs := Ascending(costs);
    rep := Report(
      |rows|, total.requests, unpriced, total.costUSD,
      CostSummary.Percentile(costs, 0.5), CostSummary.Percentile(costs, 0.9),
      None, None, None, None, total.causes, None, why, models);
    if sequenced {
      rep := rep.(breaks := Some(total.breaks), rebilledTokens := Some(total.deficit),
                  causeNotMeasured := Some(total.unexplained), rebilledUSD := Some(total.rebilledUSD));
      if rep.totalUSD > 0.0 {
        rep := rep.(rebilledShare := Some(total.rebilledUSD / rep.totalUSD));
      }
    }
  }

  lemma NothingCosted()
    ensures Kept([]) == [] && Total([]) == NOTHING && Unpriced([]) == 0 && Models([]) == []
  {
  }

  // ----- Nothing is lost between requests, rows and report

  lemma PricingCounts(t: Tally, r: Record, rates: Rates)
    ensures var after := Dated(Priced(t, r, rates), r);
            && after.figures == t.figures.(requests := after.figures.requests, costUSD := after.figures.costUSD)
            && after.figures.requests + after.unpriced == t.figures.requests + t.unpriced + 1
            && after.figures.requests >= t.figures.requests
  {
  }

  lemma BreakCounts(prev: Record, cur: Record, rates: Rates)
    ensures var f := BreakOf(prev, cur, rates);
            && f.requests == 0 && f.costUSD == 0.0
            && |f.causes| + f.unexplained == f.breaks && 0 <= f.unexplained && f.breaks <= f.deficit
  {
  }

  /** Every request of a session is priced or unpriced, every break is explained or not, and a break
      rebills at least one token. Without a sequence there are no breaks. */
  lemma {:induction false} TallyCounts(rs: seq<Record>, sequenced: bool, rates: Rates)
    ensures var t := TallyOf(rs, sequenced, rates);
            && t.figures.requests >= 0 && t.figures.requests + t.unpriced == |rs|
            && |t.figures.causes| + t.figures.unexplained == t.figures.breaks
            && 0 <= t.figures.unexplained && t.figures.breaks <= t.figures.deficit
            && (!sequenced ==> t.figures == NOTHING.(requests := t.figures.requests, costUSD := t.figures.costUSD))
  {
    if rs != [] {
      var n := |rs| - 1;
      TallyCounts(rs[..n], sequenced, rates);
      PricingCounts(TallyOf(rs[..n], sequenced, rates), rs[n], rates);
      if n > 0 {
        BreakCounts(rs[n - 1], rs[n], rates);
      }
      hide Priced, Dated, BreakOf;
    }
  }

  function Sizes(ids: seq<string>, records: seq<Record>): nat {
    if ids == [] then 0 else Sizes(ids[..|ids| - 1], records) + |Of(records, ids[|ids| - 1])|
  }

  lemma {:induction false} SizesAppend(ids: seq<string>, records: seq<Record>, r: Record)
    requires Distinct(ids)
    ensures Sizes(ids, records + [r]) == Sizes(ids, records) + if r.session in ids then 1 else 0
  {
    if ids != [] {
      var front, last := ids[..|ids| - 1], ids[|ids| - 1];
      SizesAppend(front, records, r);
      OfAppend(records, r, last);
      assert ids == front + [last];
    }
  }

  lemma NotOf(records: seq<Record>, id: string)
    requires forall r :: r in records ==> r.session != id
    ensures Of(records, id) == []
  {
    FilterNone(records, (r: Record) => r.session == id);
  }

  lemma {:induction false} SizesAddUp(records: seq<Record>)
    ensures Sizes(Sessions(records), records) == |records|
  {
    if records != [] {
      var front, last := records[..|records| - 1], records[|records| - 1];
      SizesAddUp(front);
      SizesAppend(Sessions(front), front, last);
      assert records == front + [last];
      SessionsAppend(front, last);
      if last.session !in Sessions(front) {
        NotOf(front, last.session);
        OfAppend(front, last, last.session);
        assert (Sessions(front) + [last.session])[..|Sessions(front)|] == Sessions(front);
      }
    }
  }

  /** How often a record is in the groups of some sessions. */
  function InGroups(ids: seq<string>, records: seq<Record>, r: Record): nat {
    if ids == [] then 0
    else InGroups(ids[..|ids| - 1], records, r) + multiset(GroupOf(records)(ids[|ids| - 1]).records)[r]
  }

  lemma {:induction false} InOwnGroup(ids: seq<string>, records: seq<Record>, r: Record)
    requires Distinct(ids)
    ensures InGroups(ids, records, r) == if r.session in ids then multiset(records)[r] else 0
  {
    hide GroupOf;
    if ids != [] {
      var front, last := ids[..|ids| - 1], ids[|ids| - 1];
      InOwnGroup(front, records, r);
      GroupHolds(records, last, r);
      assert ids == front + [last];
    }
  }

  /** The groups partition the records: every record is in the group of its session, as often as it
      is in the export, and in no other; and each group is in order of time. */
  lemma SessionsPartition(records: seq<Record>, r: Record)
    ensures InGroups(Sessions(records), records, r) == multiset(records)[r]
    ensures forall id ::
              multiset(GroupOf(records)(id).records)[r] == if r.session == id then multiset(records)[r] else 0
    ensures forall id :: Ordered(GroupOf(records)(id).records, Earlier)
  {
    hide GroupOf, Sessions, InGroups, Ordered;
    InOwnGroup(Sessions(records), records, r);
    SessionIsListed(records, r);
    forall id
      ensures multiset(GroupOf(records)(id).records)[r] == if r.session == id then multiset(records)[r] else 0
      ensures Ordered(GroupOf(records)(id).records, Earlier)
    {
      GroupHolds(records, id, r);
    }
  }

  lemma SessionIsListed(records: seq<Record>, r: Record)
    ensures multiset(records)[r] > 0 ==> r.session in Sessions(records)
  {
    assert multiset(records)[r] > 0 ==> r in records;
  }

  lemma GroupHolds(records: seq<Record>, id: string, r: Record)
    ensures multiset(GroupOf(records)(id).records)[r] == if r.session == id then multiset(records)[r] else 0
    ensures Ordered(GroupOf(records)(id).records, Earlier)
  {
    hide Sort, Filter, Ordered;
    FilterCounts(records, (x: Record) => x.session == id, r);
    EarlierIsStrictWeak();
    SortOrders(Of(records, id), Earlier);
  }

  lemma EarlierIsStrictWeak()
    ensures StrictWeak(Earlier)
  {
  }

  lemma {:induction false} RequestsOfSessions(ids: seq<string>, records: seq<Record>, sequenced: bool, rates: Rates)
    ensures var cs := Map(Map(ids, GroupOf(records)), CostedOf(sequenced, rates));
            Total(Kept(cs)).requests + Unpriced(cs) == Sizes(ids, records)
  {
    hide TallyOf, Of, Sort;
    if ids != [] {
      var front, last := ids[..|ids| - 1], ids[|ids| - 1];
      RequestsOfSessions(front, records, sequenced, rates);
      var group := GroupOf(records)(last);
      var c := CostedOf(sequenced, rates)(group);
      var cs := Map(Map(front, GroupOf(records)), CostedOf(sequenced, rates));
      MapAppend(front, last, GroupOf(records));
      MapAppend(Map(front, GroupOf(records)), group, CostedOf(sequenced, rates));
      assert ids == front + [last];
      TallyCounts(group.records, sequenced, rates);
      SameLength(group.records, Of(records, last));
      KeptAppend(cs, c);
      TotalAppend(Kept(cs), c);
    }
  }

  /** Every record of the export is counted as a priced or as an unpriced request, once. */
  lemma EveryRequestCounted(records: seq<Record>, complete: bool, rates: Rates)
    ensures var rep := Summary(CostedSessions(records, complete, rates), Evidence(records, complete));
            rep.requests + rep.unpricedRequests == |records|
  {
    hide Total, Kept, Unpriced, Models, Sizes, Sessions, GroupOf;
    SizesAddUp(records);
    RequestsOfSessions(Sessions(records), records, Evidence(records, complete).Nothing?, rates);
  }

  function OrZero(x: Option<int>): int { if x.Some? then x.value else 0 }

  function OrNoUSD(x: Option<real>): real { if x.Some? then x.value else 0.0 }

  /** The sums of the rows, column by column. */
  function RowSums(rows: seq<Row>): (int, real, int, int, real) {
    if rows == [] then (0, 0.0, 0, 0, 0.0)
    else
      var front, last := RowSums(rows[..|rows| - 1]), rows[|rows| - 1];
      (front.0 + last.requests, front.1 + last.costUSD, front.2 + OrZero(last.breaks),
       front.3 + OrZero(last.rebilledTokens), front.4 + OrNoUSD(last.rebilledUSD))
  }

  lemma {:induction false} SumsOfRows(cs: seq<Costed>, sequenced: bool)
    ensures var f, sums := Total(cs), RowSums(Map(cs, RowOf(sequenced)));
            sums == if sequenced then (f.requests, f.costUSD, f.breaks, f.deficit, f.rebilledUSD)
                    else (f.requests, f.costUSD, 0, 0, 0.0)
  {
    if cs != [] {
      var front, last := cs[..|cs| - 1], cs[|cs| - 1];
      SumsOfRows(front, sequenced);
      var rows := Map(cs, RowOf(sequenced));
      assert rows[..|rows| - 1] == Map(front, RowOf(sequenced));
    }
  }

  predicate HasBreakFigures(row: Row) {
    row.breaks.Some? && row.rebilledUSD.Some? && row.rebilledTokens.Some?
  }

  predicate LacksBreakFigures(row: Row) {
    row.breaks.None? && row.rebilledUSD.None? && row.rebilledTokens.None?
  }

  /** With a sequence, the break figures are in the summary and in every row, and the rows sum to the
      summary. Without one they are in none of them, and no cause is counted. */
  lemma RowsSumToReport(records: seq<Record>, complete: bool, rates: Rates)
    ensures var rows := Rows(records, complete, rates);
            var rep := Summary(CostedSessions(records, complete, rates), Evidence(records, complete));
            && |rows| == rep.sessions
            && RowSums(rows).0 == rep.requests && RowSums(rows).1 == rep.totalUSD
            && if Evidence(records, complete).Nothing? then
                 && (forall row :: row in rows ==> HasBreakFigures(row))
                 && rep.breaks == Some(RowSums(rows).2)
                 && rep.rebilledTokens == Some(RowSums(rows).3)
                 && rep.rebilledUSD == Some(RowSums(rows).4)
                 && rep.causeNotMeasured.Some?
                 && |rep.causes| + rep.causeNotMeasured.value == rep.breaks.value <= rep.rebilledTokens.value
                 && 0 <= rep.causeNotMeasured.value
               else
                 && (forall row :: row in rows ==> LacksBreakFigures(row))
                 && rep.breaks.None? && rep.rebilledTokens.None? && rep.rebilledUSD.None?
                 && rep.rebilledShare.None? && rep.causeNotMeasured.None? && rep.causes == multiset{}
  {
    hide Total, Kept, Unpriced, Models, CostedSessions, RowSums, Ascending;
    var sequenced := Evidence(records, complete).Nothing?;
    var cs := CostedSessions(records, complete, rates);
    SumsOfRows(Kept(cs), sequenced);
    CostedAreTallied(records, complete, rates);
    KeptAccounts(cs, sequenced, rates);
    forall row | row in Rows(records, complete, rates)
      ensures if sequenced then HasBreakFigures(row) else LacksBreakFigures(row)
    {
      var k :| 0 <= k < |Kept(cs)| && RowOf(sequenced)(Kept(cs)[k]) == row;
    }
  }

  ghost predicate AreTallied(cs: seq<Costed>, sequenced: bool, rates: Rates) {
    forall c :: c in cs ==> c.tally == TallyOf(c.group.records, sequenced, rates)
  }

  lemma CostedAreTallied(records: seq<Record>, complete: bool, rates: Rates)
    ensures AreTallied(CostedSessions(records, complete, rates), Evidence(records, complete).Nothing?, rates)
  {
  }

  lemma {:induction false} KeptAccounts(cs: seq<Costed>, sequenced: bool, rates: Rates)
    requires AreTallied(cs, sequenced, rates)
    ensures var f := Total(Kept(cs));
            && |f.causes| + f.unexplained == f.breaks && 0 <= f.unexplained && f.breaks <= f.deficit
            && (!sequenced ==> f.causes == multiset{})
  {
    hide TallyOf;
    if cs != [] {
      var front, last := cs[..|cs| - 1], cs[|cs| - 1];
      KeptAccounts(front, sequenced, rates);
      assert last in cs;
      TallyCounts(last.group.records, sequenced, rates);
      TotalAppend(Kept(front), last);
    }
  }

  // ----- Sessions of which nothing could be priced

  /** The records of every session but one. */
  function Except(records: seq<Record>, id: string): seq<Record> {
    Filter(records, (r: Record) => r.session != id)
  }

  lemma {:induction false} OfExcept(records: seq<Record>, id: string, other: string)
    requires other != id
    ensures Of(Except(records, id), other) == Of(records, other)
  {
    if records != [] {
      var front, last := records[..|records| - 1], records[|records| - 1];
      OfExcept(front, id, other);
      if last.session != id {
        OfAppend(Except(front, id), last, other);
      }
    }
  }

  function Others(ids: seq<string>, id: string): seq<string> {
    Filter(ids, (x: string) => x != id)
  }

  lemma ExceptAppend(records: seq<Record>, r: Record, id: string)
    ensures Except(records + [r], id) == if r.session != id then Except(records, id) + [r] else Except(records, id)
    ensures Except([], id) == []
  {
    FilterAppend(records, r, (r: Record) => r.session != id);
  }

  lemma OthersAppend(ids: seq<string>, x: string, id: string)
    ensures Others(ids + [x], id) == if x != id then Others(ids, id) + [x] else Others(ids, id)
    ensures Others([], id) == []
    ensures x != id ==> (x in Others(ids, id) <==> x in ids)
  {
    FilterAppend(ids, x, (y: string) => y != id);
    FilterAre(ids, (y: string) => y != id);
  }

  lemma {:induction false} SessionsExcept(records: seq<Record>, id: string)
    ensures Sessions(Except(records, id)) == Others(Sessions(records), id)
  {
    hide Except, Others, Sessions;
    if records == [] {
      ExceptAppend([], Record("", "", None, 0, 0, 0, 0), id);
      OthersAppend([], "", id);
      NoRecords();
    } else {
      var front, last := records[..|records| - 1], records[|records| - 1];
      SessionsExcept(front, id);
      assert records == front + [last];
      ExceptAppend(front, last, id);
      SessionsAppend(front, last);
      OthersAppend(Sessions(front), last.session, id);
      SessionsAppend(Except(front, id), last);
    }
  }

  lemma {:induction false} KeptExcept(ids: seq<string>, records: seq<Record>, id: string, sequenced: bool, rates: Rates)
    requires TallyOf(GroupOf(records)(id).records, sequenced, rates).figures.requests == 0
    ensures Kept(Map(Map(Others(ids, id), GroupOf(Except(records, id))), CostedOf(sequenced, rates)))
         == Kept(Map(Map(ids, GroupOf(records)), CostedOf(sequenced, rates)))
  {
    hide TallyOf, Of, Sort, Except;
    if ids != [] {
      var front, last := ids[..|ids| - 1], ids[|ids| - 1];
      KeptExcept(front, records, id, sequenced, rates);
      assert ids == front + [last];
      MapAppend(front, last, GroupOf(records));
      MapAppend(Map(front, GroupOf(records)), GroupOf(records)(last), CostedOf(sequenced, rates));
      KeptAppend(Map(Map(front, GroupOf(records)), CostedOf(sequenced, rates)),
                 CostedOf(sequenced, rates)(GroupOf(records)(last)));
      if last != id {
        OfExcept(records, id, last);
        var rest, groups := Others(front, id), GroupOf(Except(records, id));
        MapAppend(rest, last, groups);
        MapAppend(Map(rest, groups), groups(last), CostedOf(sequenced, rates));
        KeptAppend(Map(Map(rest, groups), CostedOf(sequenced, rates)), CostedOf(sequenced, rates)(groups(last)));
      }
    }
  }

  /** A session that prices nothing adds its requests to the unpriced ones and nothing else: no row,
      no break, no cause, no dollar and no model. */
  lemma UnpricedSessionLeavesNoTrace(records: seq<Record>, id: string, complete: bool, rates: Rates)
    requires Evidence(Except(records, id), complete) == Evidence(records, complete)
    requires TallyOf(GroupOf(records)(id).records, Evidence(records, complete).Nothing?, rates).figures.requests == 0
    ensures var why, rest := Evidence(records, complete), Except(records, id);
            && Rows(rest, complete, rates) == Rows(records, complete, rates)
            && Summary(CostedSessions(rest, complete, rates), why).(unpricedRequests := 0)
               == Summary(CostedSessions(records, complete, rates), why).(unpricedRequests := 0)
  {
    SessionsExcept(records, id);
    KeptExcept(Sessions(records), records, id, Evidence(records, complete).Nothing?, rates);
    hide Kept, Total, Models, Unpriced, Ascending, Except, Sessions, GroupOf, CostedOf, Evidence, RowOf;
  }

  // ----- The order of the export

  /** No two different requests of one session carry the same time. */
  ghost predicate TellsOrder(records: seq<Record>) {
    forall r, s :: r in records && s in records && r.session == s.session && r.at == s.at ==> r == s
  }

  lemma GroupIgnoresOrder(a: seq<Record>, b: seq<Record>, id: string)
    requires multiset(a) == multiset(b) && TellsOrder(a)
    ensures GroupOf(a)(id) == GroupOf(b)(id)
  {
    FilterIgnoresOrder(a, b, (r: Record) => r.session == id);
    FilterAre(a, (r: Record) => r.session == id);
    SortIgnoresOrder(Of(a, id), Of(b, id), Earlier);
  }

  lemma CostedIgnoresOrder(a: seq<Record>, b: seq<Record>, complete: bool, rates: Rates)
    requires multiset(a) == multiset(b) && TellsOrder(a) && Evidence(a, complete) == Evidence(b, complete)
    ensures multiset(CostedSessions(a, complete, rates)) == multiset(CostedSessions(b, complete, rates))
  {
    forall id: string
      ensures id in Sessions(a) <==> id in Sessions(b)
    {
      forall r: Record
        ensures r in a <==> r in b
      {
        SameElements(a, b, r);
      }
    }
    DistinctSameElements(Sessions(a), Sessions(b));
    var sequenced := Evidence(a, complete).Nothing?;
    forall id: string
      ensures GroupOf(a)(id) == GroupOf(b)(id)
    {
      GroupIgnoresOrder(a, b, id);
    }
    assert Map(Sessions(b), GroupOf(b)) == Map(Sessions(b), GroupOf(a));
    MapIgnoresOrder(Sessions(a), Sessions(b), GroupOf(a));
    MapIgnoresOrder(Map(Sessions(a), GroupOf(a)), Map(Sessions(b), GroupOf(a)), CostedOf(sequenced, rates));
  }

  lemma {:induction false} TotalWithout(cs: seq<Costed>, i: nat)
    requires i < |cs|
    ensures Total(cs) == Plus(Total(Without(cs, i)), cs[i].tally.figures)
    ensures Unpriced(cs) == Unpriced(Without(cs, i)) + cs[i].tally.unpriced
  {
    var front, last := cs[..|cs| - 1], cs[|cs| - 1];
    if i == |cs| - 1 {
      assert Without(cs, i) == front;
    } else {
      TotalWithout(front, i);
      var w := Without(cs, i);
      assert w[..|w| - 1] == Without(front, i) && w[|w| - 1] == last;
      PlusCommutes(Total(Without(front, i)), front[i].tally.figures, last.tally.figures);
    }
  }

  lemma PlusCommutes(a: Figures, b: Figures, c: Figures)
    ensures Plus(Plus(a, b), c) == Plus(Plus(a, c), b)
  {
  }

  lemma {:induction false} TotalIgnoresOrder(a: seq<Costed>, b: seq<Costed>)
    requires multiset(a) == multiset(b)
    ensures Total(a) == Total(b) && Unpriced(a) == Unpriced(b)
    decreases |a|
  {
    hide Plus;
    SameLength(a, b);
    if a != [] {
      var n := |a| - 1;
      SameElements(a, b, a[n]);
      var i :| 0 <= i < |b| && b[i] == a[n];
      WithoutEqual(a, n, b, i);
      assert Without(a, n) == a[..n];
      TotalIgnoresOrder(a[..n], Without(b, i));
      TotalWithout(b, i);
    }
  }

  /** The order of the export belongs to the query that made it: where times tell the requests of a
      session apart, neither the figures of the report nor the rows, but for their own order, depend
      on it. */
  lemma ExportOrderIsNoMatter(a: seq<Record>, b: seq<Record>, complete: bool, rates: Rates)
    requires multiset(a) == multiset(b) && TellsOrder(a)
    ensures multiset(Rows(a, complete, rates)) == multiset(Rows(b, complete, rates))
    ensures Summary(CostedSessions(a, complete, rates), Evidence(a, complete)).(models := [])
         == Summary(CostedSessions(b, complete, rates), Evidence(b, complete)).(models := [])
  {
    hide Total, Filter, Unpriced, Models, CostedSessions, Ascending, TellsOrder;
    SameLength(a, b);
    FilterIgnoresOrder(a, b, (r: Record) => r.at.None?);
    SameLength(Filter(a, (r: Record) => r.at.None?), Filter(b, (r: Record) => r.at.None?));
    CostedIgnoresOrder(a, b, complete, rates);
    var ca, cb := CostedSessions(a, complete, rates), CostedSessions(b, complete, rates);
    FilterIgnoresOrder(ca, cb, (c: Costed) => c.tally.figures.requests != 0);
    SameLength(Kept(ca), Kept(cb));
    TotalIgnoresOrder(ca, cb);
    TotalIgnoresOrder(Kept(ca), Kept(cb));
    MapIgnoresOrder(Kept(ca), Kept(cb), CostOf);
    AscendingIgnoresOrder(Map(Kept(ca), CostOf), Map(Kept(cb), CostOf));
    MapIgnoresOrder(Kept(ca), Kept(cb), RowOf(Evidence(a, complete).Nothing?));
  }

  // ----- When a session began

  /** A row begins when its earliest dated record began, in whatever order they are walked. */
  lemma {:induction false} RowBeginsEarliest(rs: seq<Record>, sequenced: bool, rates: Rates)
    ensures var at := TallyOf(rs, sequenced, rates).at;
            && (at.None? <==> forall r :: r in rs ==> r.at.None?)
            && (at.Some? ==> exists r :: r in rs && r.at == at)
            && (forall r :: r in rs && r.at.Some? ==> at.Some? && at.value <= r.at.value)
  {
    if rs != [] {
      var front, last := rs[..|rs| - 1], rs[|rs| - 1];
      RowBeginsEarliest(front, sequenced, rates);
      OnlyDatesDecideTheStart(rs, sequenced, rates);
      hide TallyOf;
      assert rs == front + [last] && last in rs;
      var at := TallyOf(front, sequenced, rates).at;
      if at.Some? {
        var r :| r in front && r.at == at;
        assert r in rs;
      }
    }
  }

  lemma OnlyDatesDecideTheStart(rs: seq<Record>, sequenced: bool, rates: Rates)
    requires rs != []
    ensures TallyOf(rs, sequenced, rates).at
         == Dated(TallyOf(rs[..|rs| - 1], sequenced, rates), rs[|rs| - 1]).at
  {
    hide BreakOf, Plus;
  }

  // ----- The model column

  /** What each priced request of a session cost, and which model it ran. */
  function ItemsOf(rs: seq<Record>, rates: Rates): seq<Item> {
    if rs == [] then []
    else
      var front, last := ItemsOf(rs[..|rs| - 1], rates), rs[|rs| - 1];
      match rates.price(last.model, last.at)
      case None => front
      case Some(price) => front + [Item(last.model, rates.cost(last, price))]
  }

  /** The model of the first of the costliest requests, if that cost anything. */
  function CostliestModel(items: seq<Item>): string {
    if items != [] && items[Leader(items)].usd > 0.0 then items[Leader(items)].model else ""
  }

  function HighestCost(items: seq<Item>): real {
    if items != [] && items[Leader(items)].usd > 0.0 then items[Leader(items)].usd else 0.0
  }

  lemma CostliestAppend(items: seq<Item>, x: Item)
    ensures var more := items + [x];
            && HighestCost(more) == (if x.usd > HighestCost(items) then x.usd else HighestCost(items))
            && CostliestModel(more) == (if x.usd > HighestCost(items) then x.model else CostliestModel(items))
  {
    assert (items + [x])[..|items|] == items;
  }

  lemma OnlyPricingDecidesTheModel(rs: seq<Record>, sequenced: bool, rates: Rates)
    requires rs != []
    ensures var t := TallyOf(rs, sequenced, rates);
            var p := Priced(TallyOf(rs[..|rs| - 1], sequenced, rates), rs[|rs| - 1], rates);
            t.model == p.model && t.dominant == p.dominant
  {
    hide Priced, BreakOf, Plus;
  }

  /** The model of a row is the model of its costliest request. */
  lemma {:induction false} ModelIsOfCostliestRequest(rs: seq<Record>, sequenced: bool, rates: Rates)
    ensures var t := TallyOf(rs, sequenced, rates);
            t.model == CostliestModel(ItemsOf(rs, rates)) && t.dominant == HighestCost(ItemsOf(rs, rates))
  {
    hide TallyOf, CostliestModel, HighestCost;
    if rs == [] {
      NothingTallied(sequenced, rates);
      NothingIsCostliest();
    } else {
      OnlyPricingDecidesTheModel(rs, sequenced, rates);
      var front, last := rs[..|rs| - 1], rs[|rs| - 1];
      ModelIsOfCostliestRequest(front, sequenced, rates);
      if rates.price(last.model, last.at).Some? {
        CostliestAppend(ItemsOf(front, rates),
                        Item(last.model, rates.cost(last, rates.price(last.model, last.at).value)));
      }
    }
  }

  lemma NothingIsCostliest()
    ensures CostliestModel([]) == "" && HighestCost([]) == 0.0
  {
  }

  /** The row's model ran the largest share of the money, as its comment promises, exactly when no
      other model's requests together cost more than those of the costliest request's model. Where no
      request cost anything the row names no model. */
  lemma ModelRunsLargestShareExactly(rs: seq<Record>, sequenced: bool, rates: Rates)
    requires ItemsOf(rs, rates) != []
    ensures var items := ItemsOf(rs, rates);
            var lead := items[Leader(items)];
            var named := if lead.usd > 0.0 then lead.model else "";
            RunsLargestShare(items, TallyOf(rs, sequenced, rates).model)
            <==> forall i :: 0 <= i < |items| && items[i].model != named ==>
                   ShareOf(items, items[i].model) <= ShareOf(items, named)
  {
    hide TallyOf;
    ModelIsOfCostliestRequest(rs, sequenced, rates);
  }

  /** It does in a session of one priced model, and where one request is at least half of the cost. */
  lemma ModelRunsLargestShare(rs: seq<Record>, sequenced: bool, rates: Rates)
    requires var items := ItemsOf(rs, rates);
             && items != [] && items[Leader(items)].usd > 0.0 && NoneNegative(items)
             && (|| (forall i :: 0 <= i < |items| ==> items[i].model == items[0].model)
                 || 2.0 * items[Leader(items)].usd >= Spent(items))
    ensures RunsLargestShare(ItemsOf(rs, rates), TallyOf(rs, sequenced, rates).model)
  {
    hide TallyOf;
    var items := ItemsOf(rs, rates);
    ModelIsOfCostliestRequest(rs, sequenced, rates);
    if forall i :: 0 <= i < |items| ==> items[i].model == items[0].model {
      OneModelLeads(items);
    } else {
      HalfLeads(items);
    }
  }

  lemma {:induction false} ItemsCost(rs: seq<Record>, sequenced: bool, rates: Rates)
    ensures TallyOf(rs, sequenced, rates).figures.costUSD == Spent(ItemsOf(rs, rates))
  {
    hide TallyOf, Priced, BreakOf, Spent;
    if rs == [] {
      NothingTallied(sequenced, rates);
      NothingIsSpent();
    } else {
      var front, last := rs[..|rs| - 1], rs[|rs| - 1];
      ItemsCost(front, sequenced, rates);
      BreaksCostNothing(rs, sequenced, rates);
      PricingCosts(TallyOf(front, sequenced, rates), last, rates);
      if rates.price(last.model, last.at).Some? {
        SpentAppend(ItemsOf(front, rates), Item(last.model, rates.cost(last, rates.price(last.model, last.at).value)));
      }
    }
  }

  lemma BreaksCostNothing(rs: seq<Record>, sequenced: bool, rates: Rates)
    requires rs != []
    ensures TallyOf(rs, sequenced, rates).figures.costUSD
         == Priced(TallyOf(rs[..|rs| - 1], sequenced, rates), rs[|rs| - 1], rates).figures.costUSD
  {
    hide Priced, BreakOf;
    if |rs| > 1 {
      BreakCounts(rs[|rs| - 2], rs[|rs| - 1], rates);
    }
  }

  lemma PricingCosts(t: Tally, r: Record, rates: Rates)
    ensures Priced(t, r, rates).figures.costUSD
         == t.figures.costUSD + match rates.price(r.model, r.at) case Some(p) => rates.cost(r, p) case None => 0.0
  {
  }

  function Request(model: string, at: int, output: int): Record {
    Record("s", model, Some(at), 0, 0, 0, output)
  }

  /** Every model at one price, a dollar a token. */
  function FlatRates(p: Price): Rates {
    Rates((_, _) => Some(p), (r: Record, _) => r.output as real, _ => 0.0, (_, _) => None)
  }

  const THREE_REQUESTS := [Request("a", 1, 3), Request("b", 2, 2), Request("b", 3, 2)]

  lemma ItemsOfThree(p: Price)
    ensures ItemsOf(THREE_REQUESTS, FlatRates(p)) == [Item("a", 3.0), Item("b", 2.0), Item("b", 2.0)]
  {
    hide ItemsOf;
    var a, b, c := Request("a", 1, 3), Request("b", 2, 2), Request("b", 3, 2);
    ItemsAppend([], a, FlatRates(p), p);
    ItemsAppend([a], b, FlatRates(p), p);
    ItemsAppend([a, b], c, FlatRates(p), p);
    assert [] + [a] == [a] && [a] + [b] == [a, b] && [a, b] + [c] == THREE_REQUESTS;
  }

  /** A request of three dollars against two of two: the row names the model that ran three of the
      seven dollars, and the other one ran four. */
  lemma ModelNeedNotRunTheLargestShare(p: Price)
    ensures var items := ItemsOf(THREE_REQUESTS, FlatRates(p));
            && TallyOf(THREE_REQUESTS, true, FlatRates(p)).model == "a"
            && ShareOf(items, "a") == 3.0 && ShareOf(items, "b") == 4.0
            && !RunsLargestShare(items, "a") && RunsLargestShare(items, "b")
  {
    hide TallyOf, ItemsOf, ShareOf, RunsLargestShare;
    ItemsOfThree(p);
    CostliestAgainstMost();
    ModelIsOfCostliestRequest(THREE_REQUESTS, true, FlatRates(p));
  }

  lemma ItemsAppend(rs: seq<Record>, r: Record, rates: Rates, p: Price)
    requires rates.price(r.model, r.at) == Some(p)
    ensures ItemsOf(rs + [r], rates) == ItemsOf(rs, rates) + [Item(r.model, rates.cost(r, p))]
    ensures ItemsOf([], rates) == []
  {
    assert (rs + [r])[..|rs|] == rs;
  }
}
