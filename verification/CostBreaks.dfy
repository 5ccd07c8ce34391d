/** Pricing one transcript, break by break, and what the re-billed figures of the report cover. */
module CostBreaks {
  import opened Wrappers
  import opened Sorting
  import opened CostUnits
  import opened CostFold
  import opened CostSummary

  /** A cache break: tokens that should have been read and were written again. A read is only
      broken when it is short of the expected one, so the deficit is never negative. */
  datatype Break = Break(deficit: nat, request: Option<Request>)

  datatype Request = Request(model: string, at: Option<int>)

  /** The analysis of one lane of a transcript. */
  datatype LaneReport = LaneReport(breaks: seq<Break>, repeated: int, unresolved: int, legacy: int, errors: seq<int>)

  /** The session as it ran, over every lane. */
  datatype AsRun = AsRun(
    requests: int, pricedRequests: int, unpricedRequests: int, costUSD: real, uncachedUSD: real,
    writeUSD: real, readUSD: real, outputUSD: real, mixedEpochs: bool, writeAssumed: int)

  /** What analysing one readable transcript yields. The model and the time are those of the main
      lane's first request. */
  datatype Reading = Reading(
    session: string, lane: string, model: string, at: Option<int>, asRun: AsRun, lanes: seq<LaneReport>)

  /** The input price per million tokens of a model at a time, if any table carries one. */
  type Prices = (string, Option<int>) -> Option<real>

  // ----- What a transcript's breaks amount to

  function AllBreaks(lanes: seq<LaneReport>): seq<Break> {
    if lanes == [] then [] else AllBreaks(lanes[..|lanes| - 1]) + lanes[|lanes| - 1].breaks
  }

  function InputPrice(b: Break, price: Prices): Option<real> {
    if b.request.Some? then price(b.request.value.model, b.request.value.at) else None
  }

  /** The breaks whose own record has a price, or those whose record has none. */
  function PricedBreaks(bs: seq<Break>, price: Prices, priced: bool): seq<Break> {
    if bs == [] then []
    else
      var front, last := PricedBreaks(bs[..|bs| - 1], price, priced), bs[|bs| - 1];
      if InputPrice(last, price).Some? == priced then front + [last] else front
  }

  function Deficit(bs: seq<Break>): nat {
    if bs == [] then 0 else Deficit(bs[..|bs| - 1]) + bs[|bs| - 1].deficit
  }

  /** What one break cost, at its own record's input price. */
  function BreakUSD(b: Break, price: Prices): real {
    var p := InputPrice(b, price);
    if p.Some? then b.deficit as real / 1000000.0 * p.value else 0.0
  }

  function DollarsOf(bs: seq<Break>, price: Prices): real {
    if bs == [] then 0.0 else DollarsOf(bs[..|bs| - 1], price) + BreakUSD(bs[|bs| - 1], price)
  }

  lemma OneMore(bs: seq<Break>, b: Break, price: Prices)
    ensures Deficit(bs + [b]) == Deficit(bs) + b.deficit
    ensures DollarsOf(bs + [b], price) == DollarsOf(bs, price) + BreakUSD(b, price)
    ensures forall f :: PricedBreaks(bs + [b], price, f) ==
                        if InputPrice(b, price).Some? == f then PricedBreaks(bs, price, f) + [b]
                        else PricedBreaks(bs, price, f)
  {
    assert (bs + [b])[..|bs|] == bs;
  }

  /** The three running totals after one more break. */
  lemma TotalsGrow(bs: seq<Break>, b: Break, price: Prices)
    ensures Deficit(bs + [b]) == Deficit(bs) + b.deficit
    ensures DollarsOf(bs + [b], price) == DollarsOf(bs, price) + BreakUSD(b, price)
    ensures Deficit(PricedBreaks(bs + [b], price, false)) ==
            Deficit(PricedBreaks(bs, price, false)) + if InputPrice(b, price).Some? then 0 else b.deficit
  {
    OneMore(bs, b, price);
    OneMore(PricedBreaks(bs, price, false), b, price);
  }

  lemma {:induction false} BreaksAppend(a: seq<Break>, b: seq<Break>, price: Prices)
    ensures Deficit(a + b) == Deficit(a) + Deficit(b)
    ensures DollarsOf(a + b, price) == DollarsOf(a, price) + DollarsOf(b, price)
    decreases |b|
  {
    if b == [] {
      assert a + b == a;
    } else {
      var front, last := b[..|b| - 1], b[|b| - 1];
      BreaksAppend(a, front, price);
      OneMore(a + front, last, price);
      OneMore(front, last, price);
      assert a + b == a + front + [last] && b == front + [last];
    }
  }

  /** Dollars come from the breaks with a price and from no others, and every deficit is on one
      side or the other. */
  lemma {:induction false} BreaksSplit(bs: seq<Break>, price: Prices)
    ensures Deficit(bs) == Deficit(PricedBreaks(bs, price, true)) + Deficit(PricedBreaks(bs, price, false))
    ensures DollarsOf(bs, price) == DollarsOf(PricedBreaks(bs, price, true), price)
  {
    if bs != [] {
      var front, last := bs[..|bs| - 1], bs[|bs| - 1];
      assert bs == front + [last];
      BreaksSplit(front, price);
      OneMore(front, last, price);
      OneMore(PricedBreaks(front, price, true), last, price);
      OneMore(PricedBreaks(front, price, false), last, price);
    }
  }

  // ----- The unit of one transcript

  function Errors(es: seq<int>): int {
    if es == [] then 0 else Errors(es[..|es| - 1]) + es[|es| - 1]
  }

  /** The counts over every lane of the transcript that need no price. */
  datatype Tally = Tally(breaks: int, repeated: int, unresolved: int, legacy: int, errored: int)

  function TallyOf(lanes: seq<LaneReport>): Tally {
    if lanes == [] then Tally(0, 0, 0, 0, 0)
    else
      var t, lr := TallyOf(lanes[..|lanes| - 1]), lanes[|lanes| - 1];
      Tally(t.breaks + |lr.breaks|, t.repeated + lr.repeated, t.unresolved + lr.unresolved,
            t.legacy + lr.legacy, t.errored + Errors(lr.errors))
  }

  function WriteBasis(writeUSD: real, assumed: int): TtlBasis {
    if writeUSD <= 0.0 then NoBasis else if assumed > 0 then AssumedShort else Measured
  }

  predicate Priceable(r: Reading, price: Prices) { price(r.model, r.at).Some? }

  function UnitOf(r: Reading, price: Prices, path: string): CostUnit {
    var bs, t := AllBreaks(r.lanes), TallyOf(r.lanes);
    CostUnit(
      id := r.session, lane := r.lane, lanes := 0, model := r.model,
      unpriced := !Priceable(r, price),
      mixedEpochs := r.asRun.mixedEpochs,
      basis := WriteBasis(r.asRun.writeUSD, r.asRun.writeAssumed),
      at := r.at,
      path := path,
      figures := Figures(
        r.asRun.requests, r.asRun.pricedRequests, r.asRun.unpricedRequests, r.asRun.costUSD,
        r.asRun.uncachedUSD, r.asRun.writeUSD, r.asRun.readUSD, r.asRun.outputUSD,
        DollarsOf(bs, price), Deficit(bs), Deficit(PricedBreaks(bs, price, false)),
        t.breaks, t.repeated, t.errored, t.unresolved, t.legacy))
  }

  /** Adds one lane's breaks: their tokens unconditionally, their dollars only where the record the
      break happened on has a price. */
  method AddBreaks(breaks: seq<Break>, price: Prices, ghost before: seq<Break>, deficit: nat, rebilled: real,
                   unpriced: nat)
    returns (d: nat, usd: real, u: nat)
    requires deficit == Deficit(before) && rebilled == DollarsOf(before, price)
    requires unpriced == Deficit(PricedBreaks(before, price, false))
    ensures d == Deficit(before + breaks) && usd == DollarsOf(before + breaks, price)
    ensures u == Deficit(PricedBreaks(before + breaks, price, false))
  {
    hide PricedBreaks, Deficit, DollarsOf, InputPrice;
    d, usd, u := deficit, rebilled, unpriced;
    assert before + breaks[..0] == before;
    for k := 0 to |breaks|
      invariant d == Deficit(before + breaks[..k])
      invariant usd == DollarsOf(before + breaks[..k], price)
      invariant u == Deficit(PricedBreaks(before + breaks[..k], price, false))
    {
      var br := breaks[k];
      TotalsGrow(before + breaks[..k], br, price);
      assert before + breaks[..k + 1] == before + breaks[..k] + [br];
      d := d + br.deficit;
      var p := InputPrice(br, price);
      if p.Some? {
        usd := usd + br.deficit as real / 1000000.0 * p.value;
      } else {
        u := u + br.deficit;
      }
    }
    assert breaks[..|breaks|] == breaks;
  }

  method CountErrors(errors: seq<int>) returns (n: int)
    ensures n == Errors(errors)
  {
    n := 0;
    for k := 0 to |errors|
      invariant n == Errors(errors[..k])
    {
      assert errors[..k + 1][..k] == errors[..k];
      n := n + errors[k];
    }
    assert errors[..|errors|] == errors;
  }

  method PriceReading(r: Reading, price: Prices, path: string) returns (u: CostUnit)
    ensures u == UnitOf(r, price, path)
  {
    var known := price(r.model, r.at).Some?;
    var deficit, rebilled, unpricedDeficit := 0, 0.0, 0;
    var t := Tally(0, 0, 0, 0, 0);
    for i := 0 to |r.lanes|
      invariant t == TallyOf(r.lanes[..i])
      invariant deficit == Deficit(AllBreaks(r.lanes[..i])) && rebilled == DollarsOf(AllBreaks(r.lanes[..i]), price)
      invariant unpricedDeficit == Deficit(PricedBreaks(AllBreaks(r.lanes[..i]), price, false))
    {
      hide PricedBreaks, Deficit, DollarsOf;
      var lr := r.lanes[i];
      assert r.lanes[..i + 1][..i] == r.lanes[..i];
      var errored := CountErrors(lr.errors);
      t := Tally(t.breaks + |lr.breaks|, t.repeated + lr.repeated, t.unresolved + lr.unresolved,
                 t.legacy + lr.legacy, t.errored + errored);
      deficit, rebilled, unpricedDeficit :=
        AddBreaks(lr.breaks, price, AllBreaks(r.lanes[..i]), deficit, rebilled, unpricedDeficit);
    }
    assert r.lanes[..|r.lanes|] == r.lanes;
    var a := r.asRun;
    u := CostUnit(r.session, r.lane, 0, r.model, !known, a.mixedEpochs, WriteBasis(a.writeUSD, a.writeAssumed),
                  r.at, path,
                  Figures(a.requests, a.pricedRequests, a.unpricedRequests, a.costUSD, a.uncachedUSD,
                          a.writeUSD, a.readUSD, a.outputUSD, rebilled, deficit, unpricedDeficit,
                          t.breaks, t.repeated, t.errored, t.unresolved, t.legacy));
  }

  // ----- Folding conserves

  /** The totals of some sessions, one session after another. */
  function SumOver(units: seq<CostUnit>, ids: seq<string>): Figures {
    if ids == [] then NOTHING
    else Plus(SumOver(units, ids[..|ids| - 1]), Total(Lanes(units, ids[|ids| - 1])))
  }

  lemma {:induction false} SumOverGrows(units: seq<CostUnit>, u: CostUnit, ids: seq<string>)
    requires Distinct(ids)
    ensures SumOver(units + [u], ids) ==
            if u.id in ids then Plus(SumOver(units, ids), u.figures) else SumOver(units, ids)
  {
    hide Where;
    if ids != [] {
      var front, last := ids[..|ids| - 1], ids[|ids| - 1];
      assert ids == front + [last];
      SumOverGrows(units, u, front);
      var lanes, sum := Lanes(units, last), SumOver(units, front);
      LanesGrow(units, u, last);
      TotalAppend(lanes, u);
      PlusLaws(sum, u.figures, Total(lanes));
    }
  }

  lemma {:induction false} SumOverIs(units: seq<CostUnit>, ids: seq<string>)
    requires Distinct(ids)
    ensures SumOver(units, ids) == Total(Where(units, OfSessions(set id | id in ids)))
  {
    var c := OfSessions(set id | id in ids);
    if units == [] {
      SumOverNothing(ids);
    } else {
      var front, last := units[..|units| - 1], units[|units| - 1];
      assert units == front + [last];
      SumOverIs(front, ids);
      SumOverGrows(front, last, ids);
      TotalAppend(Where(front, c), last);
    }
  }

  lemma {:induction false} SumOverNothing(ids: seq<string>)
    ensures SumOver([], ids) == NOTHING
  {
    if ids != [] {
      SumOverNothing(ids[..|ids| - 1]);
    }
  }

  lemma NoRows(units: seq<CostUnit>)
    ensures RowsOf(units, []) == []
  {
  }

  /** The rows of some sessions sum to the lanes of those sessions. */
  lemma {:induction false} RowsSum(units: seq<CostUnit>, ids: seq<string>)
    requires forall id :: id in ids ==> Lanes(units, id) != []
    ensures Total(RowsOf(units, ids)) == SumOver(units, ids)
  {
    hide SessionRow, Where, Plus, RowsOf;
    NoRows(units);
    if ids != [] {
      var front := ids[..|ids| - 1];
      RowsSum(units, front);
      RowSums(units, ids[|ids| - 1]);
      assert ids == front + [ids[|ids| - 1]];
      RowsAppend(units, front, ids[|ids| - 1]);
      TotalAppend(RowsOf(units, front), SessionRow(Lanes(units, ids[|ids| - 1])));
    }
  }

  lemma RowSums(units: seq<CostUnit>, id: string)
    requires Lanes(units, id) != []
    ensures SessionRow(Lanes(units, id)).figures == Total(Lanes(units, id))
  {
  }

  /** Folding changes which row a figure is shown on and not what is in the figure. */
  lemma FoldConserves(units: seq<CostUnit>)
    ensures Total(SessionRows(units)) == Total(units)
  {
    hide SessionRow, Total, FirstSeen;
    SeenAre(units);
    var ids := FirstSeen(units);
    RowsSum(units, ids);
    SumOverIs(units, ids);
    forall u | u in units
      ensures u.id in ids
    {
      WhereAre(units, OfSession(u.id), u);
    }
    AllChosen(units, OfSessions(set id | id in ids));
  }

  lemma {:induction false} AllChosen(units: seq<CostUnit>, c: Choice)
    requires forall u :: u in units ==> Chosen(u, c)
    ensures Where(units, c) == units
  {
    if units != [] {
      assert units == units[..|units| - 1] + [units[|units| - 1]];
      AllChosen(units[..|units| - 1], c);
    }
  }

  // ----- The two gates

  /** The sessions whose dollars are in the total: those with at least one lane a table prices. */
  function PricedSessions(units: seq<CostUnit>): set<string> {
    set u | u in units && !u.unpriced :: u.id
  }

  function PricedIds(units: seq<CostUnit>, ids: seq<string>): seq<string> {
    if ids == [] then []
    else
      var front, last := PricedIds(units, ids[..|ids| - 1]), ids[|ids| - 1];
      if last in PricedSessions(units) then front + [last] else front
  }

  lemma {:induction false} PricedIdsAre(units: seq<CostUnit>, ids: seq<string>)
    requires Distinct(ids)
    ensures Distinct(PricedIds(units, ids))
    ensures forall id :: id in PricedIds(units, ids) <==> id in ids && id in PricedSessions(units)
  {
    if ids != [] {
      assert ids == ids[..|ids| - 1] + [ids[|ids| - 1]];
      PricedIdsAre(units, ids[..|ids| - 1]);
    }
  }

  /** A session's row is priced exactly when one of its lanes is. */
  lemma RowPriced(units: seq<CostUnit>, id: string)
    requires Lanes(units, id) != []
    ensures !SessionRow(Lanes(units, id)).unpriced <==> id in PricedSessions(units)
  {
    var lanes := Lanes(units, id);
    if id in PricedSessions(units) {
      var u :| u in units && !u.unpriced && u.id == id;
      WhereAre(units, OfSession(id), u);
    }
    if !SessionRow(lanes).unpriced {
      var u :| u in lanes && !u.unpriced;
      WhereAre(units, OfSession(id), u);
    }
  }

  lemma {:induction false} PricedRows(units: seq<CostUnit>, ids: seq<string>)
    requires forall id :: id in ids ==> Lanes(units, id) != []
    requires forall id :: id in PricedIds(units, ids) ==> Lanes(units, id) != []
    ensures Where(RowsOf(units, ids), Priced) == RowsOf(units, PricedIds(units, ids))
  {
    hide SessionRow, PricedSessions, RowsOf, Lanes;
    NoRows(units);
    if ids != [] {
      var front, last := ids[..|ids| - 1], ids[|ids| - 1];
      assert ids == front + [last];
      var picked := PricedIds(units, front);
      assert forall id :: id in picked ==> id in PricedIds(units, ids);
      PricedRows(units, front);
      RowPriced(units, last);
      var row := SessionRow(Lanes(units, last));
      RowsAppend(units, front, last);
      if !row.unpriced {
        RowsAppend(units, picked, last);
      }
      WhereAppend(RowsOf(units, front), row, Priced);
      assert (picked + [last])[..|picked|] == picked;
    }
  }

  /** The dollars of a session report are those of every lane of every session that is not withheld
      whole. */
  lemma PricedRowsSum(units: seq<CostUnit>)
    ensures Total(Where(SessionRows(units), Priced)) == Total(Where(units, OfSessions(PricedSessions(units))))
  {
    hide SessionRow, Total, Where, FirstSeen, PricedIds, Distinct;
    SeenAre(units);
    var ids := FirstSeen(units);
    PricedIdsAre(units, ids);
    var picked := PricedIds(units, ids);
    PricedRows(units, ids);
    RowsSum(units, picked);
    SumOverIs(units, picked);
    assert (set id | id in picked) == PricedSessions(units) by {
      forall id | id in PricedSessions(units)
        ensures id in ids
      {
        var u :| u in units && !u.unpriced && u.id == id;
        WhereAre(units, OfSession(id), u);
      }
    }
  }

  lemma {:induction false} WhereSplits(rows: seq<CostUnit>)
    ensures Total(rows) == Plus(Total(Where(rows, Priced)), Total(Where(rows, Unpriced)))
  {
    hide Plus;
    if rows == [] {
      assert Plus(NOTHING, NOTHING) == NOTHING by { PlusLaws(NOTHING, NOTHING, NOTHING); }
    } else {
      var front, last := rows[..|rows| - 1], rows[|rows| - 1];
      WhereSplits(front);
      var a, b := Where(front, Priced), Where(front, Unpriced);
      TotalAppend(a, last);
      TotalAppend(b, last);
      PlusLaws(Total(a), Total(b), last.figures);
    }
  }

  // ----- Conservation through the whole pipeline

  /** One readable transcript and where it was read from. */
  datatype Source = Source(path: string, reading: Reading)

  function Units(files: seq<Source>, price: Prices): seq<CostUnit> {
    if files == [] then []
    else
      var f := files[|files| - 1];
      Units(files[..|files| - 1], price) + [UnitOf(f.reading, price, f.path)]
  }

  /** Whether the report's dollars include this file's: a lane's own first model decides it on a
      report by lane, any lane of the session on a report by session. */
  predicate Included(f: Source, files: seq<Source>, price: Prices, perLane: bool) {
    if perLane then Priceable(f.reading, price)
    else exists g :: g in files && g.reading.session == f.reading.session && Priceable(g.reading, price)
  }

  /** Every break of the corpus whose dollars are inside the re-billed figure. */
  function RepresentedBreaks(some: seq<Source>, files: seq<Source>, price: Prices, perLane: bool): seq<Break> {
    if some == [] then []
    else
      var f := some[|some| - 1];
      RepresentedBreaks(some[..|some| - 1], files, price, perLane) +
      if Included(f, files, price, perLane) then PricedBreaks(AllBreaks(f.reading.lanes), price, true) else []
  }

  function Kept(files: seq<Source>, price: Prices, perLane: bool): Choice {
    if perLane then Priced else OfSessions(PricedSessions(Units(files, price)))
  }

  lemma UnitsGrow(files: seq<Source>, price: Prices)
    requires files != []
    ensures var f := files[|files| - 1];
            Units(files, price) == Units(files[..|files| - 1], price) + [UnitOf(f.reading, price, f.path)]
  {
  }

  lemma {:induction false} UnitIn(files: seq<Source>, price: Prices, u: CostUnit)
    ensures u in Units(files, price) <==> exists f :: f in files && u == UnitOf(f.reading, price, f.path)
  {
    if files != [] {
      assert files == files[..|files| - 1] + [files[|files| - 1]];
      UnitIn(files[..|files| - 1], price, u);
    }
  }

  lemma KeptIsIncluded(f: Source, files: seq<Source>, price: Prices, perLane: bool)
    ensures Chosen(UnitOf(f.reading, price, f.path), Kept(files, price, perLane))
       <==> Included(f, files, price, perLane)
  {
    if !perLane {
      var us := Units(files, price);
      if f.reading.session in PricedSessions(us) {
        var u :| u in us && !u.unpriced && u.id == f.reading.session;
        UnitIn(files, price, u);
      }
      if Included(f, files, price, perLane) {
        var g :| g in files && g.reading.session == f.reading.session && Priceable(g.reading, price);
        UnitIn(files, price, UnitOf(g.reading, price, g.path));
      }
    }
  }

  /** What one unit adds to the figures of the rows it is chosen among. */
  lemma ChosenGrow(files: seq<Source>, price: Prices, c: Choice)
    requires files != []
    ensures var front, f := files[..|files| - 1], files[|files| - 1];
            var u := UnitOf(f.reading, price, f.path);
            && Total(Where(Units(files, price), c)) ==
               (if Chosen(u, c) then Plus(Total(Where(Units(front, price), c)), u.figures)
                else Total(Where(Units(front, price), c)))
            && Total(Units(files, price)) == Plus(Total(Units(front, price)), u.figures)
            && u.figures.unpricedRebilledTokens <= u.figures.rebilledTokens
  {
    hide Plus;
    var front, f := files[..|files| - 1], files[|files| - 1];
    var us, u := Units(front, price), UnitOf(f.reading, price, f.path);
    UnitsGrow(files, price);
    WhereAppend(us, u, c);
    TotalAppend(Where(us, c), u);
    TotalAppend(us, u);
    BreaksSplit(AllBreaks(f.reading.lanes), price);
  }

  /** What the rows inside the dollar total carry, in terms of the breaks behind them. */
  lemma {:induction false} KeptCarry(some: seq<Source>, files: seq<Source>, price: Prices, perLane: bool)
    ensures var t := Total(Where(Units(some, price), Kept(files, price, perLane)));
            var bs := RepresentedBreaks(some, files, price, perLane);
            && t.rebilledUSD == DollarsOf(bs, price)
            && t.rebilledTokens - t.unpricedRebilledTokens == Deficit(bs)
  {
    if some != [] {
      hide Kept, Included, Where, Total, Units, PricedBreaks, Deficit, DollarsOf, AllBreaks, TallyOf;
      var front, f := some[..|some| - 1], some[|some| - 1];
      KeptCarry(front, files, price, perLane);
      KeptIsIncluded(f, files, price, perLane);
      ChosenGrow(some, price, Kept(files, price, perLane));
      var before, all := RepresentedBreaks(front, files, price, perLane), AllBreaks(f.reading.lanes);
      BreaksSplit(all, price);
      BreaksAppend(before, PricedBreaks(all, price, true), price);
      assert before + [] == before;
    }
  }

  /** Every choice of rows keeps its unpriced tokens within its tokens, and its tokens within the
      corpus's. */
  lemma {:induction false} TokensWithin(files: seq<Source>, price: Prices, c: Choice)
    ensures var some, all := Total(Where(Units(files, price), c)), Total(Units(files, price));
            0 <= some.unpricedRebilledTokens <= some.rebilledTokens <= all.rebilledTokens
  {
    if files != [] {
      hide Where, Total, Units, UnitOf;
      TokensWithin(files[..|files| - 1], price, c);
      ChosenGrow(files, price, c);
      var f := files[|files| - 1];
      UnitTokens(f.reading, price, f.path);
    }
  }

  lemma UnitTokens(r: Reading, price: Prices, path: string)
    ensures var f := UnitOf(r, price, path).figures;
            0 <= f.unpricedRebilledTokens <= f.rebilledTokens
            && f.rebilledTokens - f.unpricedRebilledTokens == Deficit(PricedBreaks(AllBreaks(r.lanes), price, true))
  {
    BreaksSplit(AllBreaks(r.lanes), price);
  }

  lemma SummaryTokens(rows: seq<CostUnit>)
    ensures var s, all, priced := SummaryOf(rows), Total(rows), Total(Where(rows, Priced));
            && s.rebilledTokens == all.rebilledTokens
            && s.rebilledUSD == priced.rebilledUSD
            && s.unpricedRebilledTokens == priced.unpricedRebilledTokens + (all.rebilledTokens - priced.rebilledTokens)
  {
    WhereSplits(rows);
  }

  /** What the two gates do to the token figures of a report. */
  lemma ReportTokens(units: seq<CostUnit>, perLane: bool, kept: Choice)
    requires kept == if perLane then Priced else OfSessions(PricedSessions(units))
    ensures var s, all, priced := Published(units, perLane), Total(units), Total(Where(units, kept));
            && s.rebilledTokens == all.rebilledTokens
            && s.rebilledUSD == priced.rebilledUSD
            && s.unpricedRebilledTokens == priced.unpricedRebilledTokens + (all.rebilledTokens - priced.rebilledTokens)
  {
    hide SessionRows, SummaryOf, Where, Total, PricedSessions;
    SummaryTokens(if perLane then units else SessionRows(units));
    if !perLane {
      FoldConserves(units);
      PricedRowsSum(units);
    }
  }

  /** Conservation. Through the break loop, the fold and the summary, by session and by lane, the
      re-billed dollars are those of the represented breaks and the tokens they stand for are
      exactly the tokens not disclosed as unpriced, whichever of the two gates left the rest out. */
  lemma RebilledConserved(files: seq<Source>, price: Prices, perLane: bool)
    ensures var s := Published(Units(files, price), perLane);
            var bs := RepresentedBreaks(files, files, price, perLane);
            && s.rebilledUSD == DollarsOf(bs, price)
            && s.rebilledTokens - s.unpricedRebilledTokens == Deficit(bs)
            && 0 <= s.unpricedRebilledTokens <= s.rebilledTokens
            && s.rebilledTokens == Total(Units(files, price)).rebilledTokens
  {
    hide Published, Where, Total, Units, RepresentedBreaks;
    var kept := Kept(files, price, perLane);
    ReportTokens(Units(files, price), perLane, kept);
    KeptCarry(files, files, price, perLane);
    TokensWithin(files, price, kept);
  }
}
