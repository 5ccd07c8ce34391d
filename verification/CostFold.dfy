/** Folding lane rows into session rows: one row, one session. */
module CostFold {
  import opened Wrappers
  import opened Sorting
  import opened CostUnits
  import opened Shares

  // ----- Paths

  /** The last element of a slash-separated path. */
  function Base(path: string): string {
    if path == "" then "."
    else if path[|path| - 1] == '/' then
      if |path| == 1 then "/" else Base(path[..|path| - 1])
    else LastElement(path)
  }

  function LastElement(path: string): string {
    if path == "" || path[|path| - 1] == '/' then ""
    else LastElement(path[..|path| - 1]) + [path[|path| - 1]]
  }

  /** Whether a path is the session's own transcript and not one of its lanes'. */
  predicate MainTranscript(path: string, id: string) {
    path != "" && id != "" && id <= Base(path)
  }

  // ----- What a session's row is, in terms of all its lanes

  /** The lanes of one session, in the order they came. */
  function Lanes(units: seq<CostUnit>, id: string): seq<CostUnit> {
    Where(units, OfSession(id))
  }

  /** The sessions, in the order their first lanes came. */
  function FirstSeen(units: seq<CostUnit>): seq<string> {
    if units == [] then []
    else
      var front, last := FirstSeen(units[..|units| - 1]), units[|units| - 1];
      if last.id in front then front else front + [last.id]
  }

  /** What the lanes of a session cost, and which model each ran. */
  function ItemOf(u: CostUnit): Item { Item(u.model, u.figures.costUSD) }

  /** The first of the costliest lanes. */
  function Heaviest(lanes: seq<CostUnit>): (i: nat)
    requires lanes != []
    ensures i < |lanes|
  {
    Leader(Map(lanes, ItemOf))
  }

  lemma HeaviestIs(lanes: seq<CostUnit>)
    requires lanes != []
    ensures var h := Heaviest(lanes);
            && (forall k :: 0 <= k < |lanes| ==> lanes[k].figures.costUSD <= lanes[h].figures.costUSD)
            && (forall k :: 0 <= k < h ==> lanes[k].figures.costUSD < lanes[h].figures.costUSD)
  {
    var items := Map(lanes, ItemOf);
    LeaderIs(items);
    assert forall k :: 0 <= k < |lanes| ==> items[k].usd == lanes[k].figures.costUSD;
  }

  function ModelOf(lanes: seq<CostUnit>): string
    requires lanes != []
  {
    lanes[Heaviest(lanes)].model
  }

  /** The earliest time any lane carries. */
  function Earliest(lanes: seq<CostUnit>): Option<int> {
    if lanes == [] then None
    else
      var n := |lanes| - 1;
      var front, last := Earliest(lanes[..n]), lanes[n].at;
      if last.Some? && (front.None? || last.value < front.value) then last else front
  }

  /** The first path that is the session's own transcript, or the first path of all. */
  function OwnPath(lanes: seq<CostUnit>): string
    requires lanes != []
  {
    var n := |lanes| - 1;
    if n == 0 then lanes[0].path
    else
      var front := OwnPath(lanes[..n]);
      if !MainTranscript(front, lanes[0].id) && MainTranscript(lanes[n].path, lanes[0].id)
      then lanes[n].path
      else front
  }

  function Basis(lanes: seq<CostUnit>): TtlBasis {
    if exists u :: u in lanes && u.basis == AssumedShort then AssumedShort
    else if exists u :: u in lanes && u.basis == Measured then Measured
    else NoBasis
  }

  function SessionRow(lanes: seq<CostUnit>): CostUnit
    requires lanes != []
  {
    CostUnit(
      id := lanes[0].id,
      lane := "",
      lanes := |lanes|,
      model := ModelOf(lanes),
      unpriced := forall u :: u in lanes ==> u.unpriced,
      mixedEpochs := exists u :: u in lanes && u.mixedEpochs,
      basis := Basis(lanes),
      at := Earliest(lanes),
      path := OwnPath(lanes),
      figures := Total(lanes))
  }

  function RowsOf(units: seq<CostUnit>, ids: seq<string>): (rows: seq<CostUnit>)
    requires forall id :: id in ids ==> Lanes(units, id) != []
    ensures |rows| == |ids|
    ensures forall i :: 0 <= i < |ids| ==> rows[i] == SessionRow(Lanes(units, ids[i]))
  {
    seq(|ids|, i requires 0 <= i < |ids| => SessionRow(Lanes(units, ids[i])))
  }

  /** A session is in the order exactly when it has a lane, and it is there once. */
  lemma {:induction false} SeenAre(units: seq<CostUnit>)
    ensures forall id :: id in FirstSeen(units) <==> Lanes(units, id) != []
    ensures Distinct(FirstSeen(units))
  {
    if units != [] {
      SeenAre(units[..|units| - 1]);
    }
  }

  function SessionRows(units: seq<CostUnit>): seq<CostUnit> {
    SeenAre(units);
    RowsOf(units, FirstSeen(units))
  }

  // ----- The fold as it runs

  function FoldBasis(a: TtlBasis, b: TtlBasis): TtlBasis {
    if a == AssumedShort || b == AssumedShort then AssumedShort
    else if a == Measured || b == Measured then Measured
    else NoBasis
  }

  lemma TotalOfOne(u: CostUnit)
    ensures Total([u]) == u.figures
  {
    assert [u][..0] == [];
  }

  lemma RowBegins(u: CostUnit)
    ensures SessionRow([u]) == u.(lane := "", lanes := 1)
  {
    assert [u][..0] == [];
    assert u in [u];
    TotalOfOne(u);
    assert Basis([u]) == u.basis && Earliest([u]) == u.at;
  }

  lemma BasisGrows(lanes: seq<CostUnit>, u: CostUnit)
    ensures Basis(lanes + [u]) == FoldBasis(Basis(lanes), u.basis)
  {
    var grown := lanes + [u];
    assert forall v :: v in grown <==> v in lanes || v == u;
    assert u in grown;
  }

  lemma FlagsGrow(lanes: seq<CostUnit>, u: CostUnit)
    ensures (forall v :: v in lanes + [u] ==> v.unpriced) <==> (forall v :: v in lanes ==> v.unpriced) && u.unpriced
    ensures (exists v :: v in lanes + [u] && v.mixedEpochs)
       <==> (exists v :: v in lanes && v.mixedEpochs) || u.mixedEpochs
  {
    var grown := lanes + [u];
    assert forall v :: v in grown <==> v in lanes || v == u;
    assert u in grown;
  }

  lemma HeaviestGrows(lanes: seq<CostUnit>, u: CostUnit)
    requires lanes != []
    ensures Heaviest(lanes + [u])
         == if u.figures.costUSD > lanes[Heaviest(lanes)].figures.costUSD then |lanes| else Heaviest(lanes)
  {
    HeaviestIs(lanes);
    HeaviestIs(lanes + [u]);
    var grown, h, g := lanes + [u], Heaviest(lanes), Heaviest(lanes + [u]);
    assert grown[h] == lanes[h] && grown[|lanes|] == u;
    assert forall k :: 0 <= k < |lanes| ==> grown[k] == lanes[k];
    assert g < |lanes| ==> grown[g] == lanes[g];
  }

  /** What each lane adds to the row its session has so far. */
  lemma RowGrows(lanes: seq<CostUnit>, u: CostUnit)
    requires lanes != []
    ensures var row, grown, h := SessionRow(lanes), lanes + [u], lanes[Heaviest(lanes)];
            var larger := u.figures.costUSD > h.figures.costUSD;
            && grown[Heaviest(grown)] == (if larger then u else h)
            && SessionRow(grown) == CostUnit(
                 row.id, "", row.lanes + 1, if larger then u.model else row.model,
                 row.unpriced && u.unpriced, row.mixedEpochs || u.mixedEpochs,
                 FoldBasis(row.basis, u.basis),
                 if u.at.Some? && (row.at.None? || u.at.value < row.at.value) then u.at else row.at,
                 if !MainTranscript(row.path, row.id) && MainTranscript(u.path, row.id) then u.path else row.path,
                 Plus(row.figures, u.figures))
  {
    var grown := lanes + [u];
    assert grown[..|grown| - 1] == lanes;
    HeaviestGrows(lanes, u);
    BasisGrows(lanes, u);
    FlagsGrow(lanes, u);
  }

  /** A row and its dominant cost, as the lanes of its session so far give them. */
  ghost predicate RowOf(lanes: seq<CostUnit>, row: CostUnit, d: real) {
    lanes != [] && row == SessionRow(lanes) && d == lanes[Heaviest(lanes)].figures.costUSD
  }

  /** What the fold keeps: a row and its dominant cost for every session seen so far. */
  ghost predicate Folded(seen: seq<CostUnit>, order: seq<string>, rows: map<string, CostUnit>,
                         dominant: map<string, real>) {
    && order == FirstSeen(seen)
    && (forall id :: id in rows <==> id in order)
    && (forall id :: id in rows ==> id in dominant && RowOf(Lanes(seen, id), rows[id], dominant[id]))
  }

  lemma LanesGrow(seen: seq<CostUnit>, u: CostUnit, id: string)
    ensures Lanes(seen + [u], id) == if id == u.id then Lanes(seen, id) + [u] else Lanes(seen, id)
    ensures FirstSeen(seen + [u]) == if u.id in FirstSeen(seen) then FirstSeen(seen) else FirstSeen(seen) + [u.id]
  {
    var now := seen + [u];
    assert now[..|now| - 1] == seen;
  }

  lemma FoldedOne(seen: seq<CostUnit>, u: CostUnit, id: string, row: CostUnit, d: real)
    requires RowOf(if id == u.id then Lanes(seen, id) + [u] else Lanes(seen, id), row, d)
    ensures RowOf(Lanes(seen + [u], id), row, d)
  {
    LanesGrow(seen, u, id);
  }

  /** The row and the dominant cost of one session after one more of its lanes. */
  lemma FoldedGrows(seen: seq<CostUnit>, order: seq<string>, rows: map<string, CostUnit>, dominant: map<string, real>,
                    u: CostUnit, row: CostUnit, d: real)
    requires Folded(seen, order, rows, dominant)
    requires RowOf(Lanes(seen, u.id) + [u], row, d)
    ensures Folded(seen + [u], if u.id in order then order else order + [u.id],
                   rows[u.id := row], dominant[u.id := d])
  {
    hide Where;
    hide FirstSeen;
    hide SessionRow;
    LanesGrow(seen, u, u.id);
    forall id | id in rows[u.id := row]
      ensures id in dominant[u.id := d] &&
              RowOf(Lanes(seen + [u], id), rows[u.id := row][id], dominant[u.id := d][id])
    {
      FoldedOne(seen, u, id, rows[u.id := row][id], dominant[u.id := d][id]);
    }
  }

  /** One more lane of a session whose row has been begun. */
  method AddLane(row: CostUnit, dominant: real, u: CostUnit, ghost lanes: seq<CostUnit>)
    returns (s: CostUnit, d: real)
    requires RowOf(lanes, row, dominant) && u.id == row.id
    ensures RowOf(lanes + [u], s, d)
  {
    RowGrows(lanes, u);
    s, d := row, dominant;
    s := s.(lanes := s.lanes + 1,
            unpriced := s.unpriced && u.unpriced,
            mixedEpochs := s.mixedEpochs || u.mixedEpochs,
            figures := Plus(s.figures, u.figures),
            basis := FoldBasis(s.basis, u.basis));
    if u.at.Some? && (s.at.None? || u.at.value < s.at.value) {
      s := s.(at := u.at);
    }
    if u.figures.costUSD > d {
      d := u.figures.costUSD;
      s := s.(model := u.model);
    }
    if !MainTranscript(s.path, s.id) && MainTranscript(u.path, u.id) {
      s := s.(path := u.path);
    }
  }

  method FoldSessions(units: seq<CostUnit>) returns (out: seq<CostUnit>)
    ensures out == SessionRows(units)
  {
    var order: seq<string> := [];
    var rows: map<string, CostUnit> := map[];
    var dominant: map<string, real> := map[];
    for n := 0 to |units|
      invariant Folded(units[..n], order, rows, dominant)
    {
      var u := units[n];
      ghost var lanes := Lanes(units[..n], u.id);
      assert units[..n + 1] == units[..n] + [u];
      SeenAre(units[..n]);
      var s, d;
      if u.id in rows {
        WhereAre(units[..n], OfSession(u.id), lanes[0]);
        s, d := AddLane(rows[u.id], dominant[u.id], u, lanes);
      } else {
        RowBegins(u);
        assert lanes + [u] == [u];
        s, d := u.(lane := "", lanes := 1), u.figures.costUSD;
      }
      FoldedGrows(units[..n], order, rows, dominant, u, s, d);
      if u.id !in rows {
        order := order + [u.id];
      }
      rows, dominant := rows[u.id := s], dominant[u.id := d];
    }
    assert units[..|units|] == units;
    out := Collect(units, order, rows, dominant);
  }

  /** The rows, in the order their sessions were first seen. */
  lemma RowsAppend(units: seq<CostUnit>, ids: seq<string>, id: string)
    requires Lanes(units, id) != [] && forall i :: i in ids ==> Lanes(units, i) != []
    ensures RowsOf(units, ids + [id]) == RowsOf(units, ids) + [SessionRow(Lanes(units, id))]
  {
    hide SessionRow, Lanes;
  }

  method Collect(ghost units: seq<CostUnit>, order: seq<string>, rows: map<string, CostUnit>,
                 ghost dominant: map<string, real>)
    returns (out: seq<CostUnit>)
    requires Folded(units, order, rows, dominant)
    ensures out == SessionRows(units)
  {
    hide SessionRow, Lanes, RowsOf;
    SeenAre(units);
    out := [];
    for n := 0 to |order|
      invariant out == RowsOf(units, order[..n])
    {
      assert order[..n + 1] == order[..n] + [order[n]];
      RowsAppend(units, order[..n], order[n]);
      out := out + [rows[order[n]]];
    }
    assert order[..|order|] == order;
  }

  // ----- The fold does not depend on the order of the lanes

  /** A row without the two columns that name one of its lanes. */
  function Core(row: CostUnit): CostUnit {
    row.(model := "", path := "")
  }

  lemma {:induction false} EarliestIs(lanes: seq<CostUnit>)
    ensures var t := Earliest(lanes);
            && (t.None? ==> forall u :: u in lanes ==> u.at.None?)
            && (t.Some? ==> exists u :: u in lanes && u.at == t)
            && (t.Some? ==> forall u :: u in lanes && u.at.Some? ==> t.value <= u.at.value)
  {
    if lanes != [] {
      EarliestIs(lanes[..|lanes| - 1]);
      assert lanes == lanes[..|lanes| - 1] + [lanes[|lanes| - 1]];
    }
  }

  lemma EarliestIgnoresOrder(a: seq<CostUnit>, b: seq<CostUnit>)
    requires multiset(a) == multiset(b)
    ensures Earliest(a) == Earliest(b)
  {
    EarliestIs(a);
    EarliestIs(b);
    forall u: CostUnit
      ensures u in a <==> u in b
    {
      SameElements(a, b, u);
    }
  }

  lemma RowIgnoresOrder(a: seq<CostUnit>, b: seq<CostUnit>, id: string)
    requires multiset(a) == multiset(b) && a != [] && b != []
    requires forall u :: u in a ==> u.id == id
    ensures Core(SessionRow(a)) == Core(SessionRow(b))
  {
    SameLength(a, b);
    TotalIgnoresOrder(a, b);
    EarliestIgnoresOrder(a, b);
    forall u: CostUnit
      ensures u in a <==> u in b
    {
      SameElements(a, b, u);
    }
    assert a[0] in a && b[0] in a;
  }

  /** Every session's row, but for the lane it names in its model and path columns, is the same
      whatever order the lanes of the corpus came in. */
  lemma SessionIgnoresLaneOrder(a: seq<CostUnit>, b: seq<CostUnit>, id: string)
    requires multiset(a) == multiset(b)
    ensures Lanes(a, id) != [] <==> Lanes(b, id) != []
    ensures Lanes(a, id) != [] ==> Core(SessionRow(Lanes(a, id))) == Core(SessionRow(Lanes(b, id)))
  {
    FilterIgnoresOrder(a, b, Picks(OfSession(id)));
    SameLength(Lanes(a, id), Lanes(b, id));
    if Lanes(a, id) != [] {
      forall u | u in Lanes(a, id)
        ensures u.id == id
      {
        WhereAre(a, OfSession(id), u);
      }
      RowIgnoresOrder(Lanes(a, id), Lanes(b, id), id);
    }
  }

  /** The session rows of a rearranged corpus are a rearrangement of its session rows. */
  lemma FoldIgnoresLaneOrder(a: seq<CostUnit>, b: seq<CostUnit>)
    requires multiset(a) == multiset(b)
    ensures multiset(Map(SessionRows(a), Core)) == multiset(Map(SessionRows(b), Core))
  {
    SeenAre(a);
    SeenAre(b);
    var ids, ids' := FirstSeen(a), FirstSeen(b);
    forall id: string
      ensures id in ids <==> id in ids'
      ensures id in ids ==> Core(SessionRow(Lanes(a, id))) == Core(SessionRow(Lanes(b, id)))
    {
      SessionIgnoresLaneOrder(a, b, id);
    }
    DistinctSameElements(ids, ids');
    var blank := CostUnit("", "", 0, "", true, false, NoBasis, None, "", NOTHING);
    var row := (id: string) => if Lanes(a, id) != [] then Core(SessionRow(Lanes(a, id))) else blank;
    MapIgnoresOrder(ids, ids', row);
    assert Map(SessionRows(a), Core) == Map(ids, row);
    assert Map(SessionRows(b), Core) == Map(ids', row);
  }

  // ----- The two columns that name a lane

  /** The model column names the model of the first of the lanes that cost most. */
  lemma ModelIsOfCostliestLane(units: seq<CostUnit>, id: string, i: nat)
    requires var lanes := Lanes(units, id);
             && i < |lanes|
             && (forall k :: 0 <= k < |lanes| ==> lanes[k].figures.costUSD <= lanes[i].figures.costUSD)
             && (forall k :: 0 <= k < i ==> lanes[k].figures.costUSD < lanes[i].figures.costUSD)
    ensures SessionRow(Lanes(units, id)).model == Lanes(units, id)[i].model
  {
    hide Lanes;
    HeaviestIs(Lanes(units, id));
  }

  /** Whether no lane of the session cost more. */
  ghost predicate Dominant(lanes: seq<CostUnit>, u: CostUnit) {
    u in lanes && forall v :: v in lanes ==> v.figures.costUSD <= u.figures.costUSD
  }

  lemma HeaviestIsDominant(lanes: seq<CostUnit>)
    requires lanes != []
    ensures Dominant(lanes, lanes[Heaviest(lanes)])
  {
    HeaviestIs(lanes);
  }

  /** Put in front, a dominant lane gives the row its model. */
  lemma FirstDominantNames(lanes: seq<CostUnit>, u: CostUnit) returns (other: seq<CostUnit>)
    requires Dominant(lanes, u)
    ensures multiset(other) == multiset(lanes) && other != [] && ModelOf(other) == u.model
  {
    var i :| 0 <= i < |lanes| && lanes[i] == u;
    other := [u] + Without(lanes, i);
    PutBack(lanes, i);
    HeaviestIs(other);
    var h := Heaviest(other);
    SameElements(other, lanes, other[h]);
    assert other[0] == u && other[h].figures.costUSD <= u.figures.costUSD;
    assert h == 0;
  }

  /** The model column is independent of the lane order exactly when the costliest lanes agree on
      their model: otherwise the lane that came first decides it. */
  lemma ModelIgnoresOrderExactly(lanes: seq<CostUnit>)
    requires lanes != []
    ensures (forall other: seq<CostUnit> :: multiset(other) == multiset(lanes) && other != [] ==>
               ModelOf(other) == ModelOf(lanes))
       <==> (forall u, v :: Dominant(lanes, u) && Dominant(lanes, v) ==> u.model == v.model)
  {
    HeaviestIsDominant(lanes);
    if forall u, v :: Dominant(lanes, u) && Dominant(lanes, v) ==> u.model == v.model {
      forall other: seq<CostUnit> | multiset(other) == multiset(lanes) && other != []
        ensures ModelOf(other) == ModelOf(lanes)
      {
        HeaviestIsDominant(other);
        forall v: CostUnit
          ensures v in other <==> v in lanes
        {
          SameElements(other, lanes, v);
        }
        assert Dominant(lanes, other[Heaviest(other)]);
      }
    } else {
      var u, v :| Dominant(lanes, u) && Dominant(lanes, v) && u.model != v.model;
      var a := FirstDominantNames(lanes, u);
      var b := FirstDominantNames(lanes, v);
      assert ModelOf(a) != ModelOf(b);
    }
  }

  /** The row's model ran the largest share of the session's money, as the fold's comment promises,
      exactly when no other model's lanes together cost more than those of the costliest lane's. */
  lemma ModelRunsLargestShareExactly(lanes: seq<CostUnit>)
    requires lanes != []
    ensures var items := Map(lanes, ItemOf);
            var lead := items[Leader(items)].model;
            RunsLargestShare(items, ModelOf(lanes))
            <==> forall i :: 0 <= i < |items| && items[i].model != lead ==>
                   ShareOf(items, items[i].model) <= ShareOf(items, lead)
  {
  }

  /** It did where all lanes ran one model, and where one lane is at least half of the cost. */
  lemma ModelRunsLargestShare(lanes: seq<CostUnit>)
    requires lanes != [] && forall u :: u in lanes ==> u.figures.costUSD >= 0.0
    requires var items := Map(lanes, ItemOf);
             || (forall i :: 0 <= i < |items| ==> items[i].model == items[0].model)
             || 2.0 * items[Leader(items)].usd >= Spent(items)
    ensures RunsLargestShare(Map(lanes, ItemOf), ModelOf(lanes))
  {
    var items := Map(lanes, ItemOf);
    forall i | 0 <= i < |items|
      ensures items[i].usd >= 0.0
    {
      assert lanes[i] in lanes;
    }
    if forall i :: 0 <= i < |items| ==> items[i].model == items[0].model {
      OneModelLeads(items);
    } else {
      HalfLeads(items);
    }
  }

  function LaneOf(model: string, usd: real): CostUnit {
    CostUnit("s", "", 1, model, false, false, NoBasis, None, "", NOTHING.(costUSD := usd))
  }

  /** A lane of three dollars against two of two: the row names the model that ran three of the seven
      dollars. */
  lemma ModelNeedNotRunTheLargestShare()
    ensures var lanes := [LaneOf("a", 3.0), LaneOf("b", 2.0), LaneOf("b", 2.0)];
            && ModelOf(lanes) == "a"
            && ShareOf(Map(lanes, ItemOf), "a") == 3.0 && ShareOf(Map(lanes, ItemOf), "b") == 4.0
            && !RunsLargestShare(Map(lanes, ItemOf), ModelOf(lanes))
  {
    hide ShareOf, RunsLargestShare;
    var lanes := [LaneOf("a", 3.0), LaneOf("b", 2.0), LaneOf("b", 2.0)];
    assert Map(lanes, ItemOf) == [Item("a", 3.0), Item("b", 2.0), Item("b", 2.0)];
    CostliestAgainstMost();
  }

  /** A row with a choice points at the session's own transcript and not at a lane of it. */
  lemma {:induction false} OwnPathPreferred(lanes: seq<CostUnit>)
    requires lanes != []
    ensures var p := OwnPath(lanes);
            && (exists u :: u in lanes && u.path == p)
            && (MainTranscript(p, lanes[0].id) <==> exists u :: u in lanes && MainTranscript(u.path, lanes[0].id))
  {
    var n := |lanes| - 1;
    assert lanes == lanes[..n] + [lanes[n]];
    if n > 0 {
      OwnPathPreferred(lanes[..n]);
    }
  }
}
