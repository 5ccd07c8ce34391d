/** How often the ask may appear: a small file remembers the last one, and every cost report reads
    it, may show the ask, and writes it back. */
module TipFrequency {
  import opened Wrappers
  import opened Sorting

  const TIP_COOLDOWN: int := 30 * 24 * 60 * 60 * 1_000_000_000  // nanoseconds
  const TIP_REASK_MULTIPLE := 3.0
  const TIP_FLOOR_USD := 5.0

  /** `askedAt` is None for the zero time. */
  datatype TipState = TipState(askedAt: Option<int>, askedAtUSD: real, seed: string)

  /** The state file: absent or unreadable, not parseable (with whatever fields a parse that fails
      has filled in by then), or a state. */
  datatype Stored = Missing | Garbage(left: TipState) | Parsed(state: TipState)

  /** What one cost report meets: whether there is a home to remember anything in, what it found,
      the two readings of the clock, the random seed if the system gave one, and which of its two
      writes reach the disk. */
  datatype Report = Report(
    home: bool,
    found: real,
    now: int,
    noted: int,
    random: Option<string>,
    seedWritten: bool,
    noteWritten: bool)

  /** The state a caller is left holding when it ignores a failed read or parse. */
  function Left(s: Stored): TipState {
    match s
    case Missing => TipState(None, 0.0, "")
    case Garbage(left) => left
    case Parsed(state) => state
  }

  predicate HasSeed(s: Stored) {
    s.Parsed? && s.state.seed != ""
  }

  predicate HasAsked(s: Stored) {
    s.Parsed? && s.state.askedAt.Some?
  }

  // ----- The file's operations

  function Seeded(s: Stored, random: Option<string>, written: bool): Stored {
    if HasSeed(s) || random.None? || !written then s else Parsed(Left(s).(seed := random.value))
  }

  function SeedOf(s: Stored, random: Option<string>): string {
    if HasSeed(s) then s.state.seed else if random.None? then "fallback" else random.value
  }

  const LONGEST: int := 0x7fff_ffff_ffff_ffff

  /** The time between two readings, which stops at the longest duration there is. */
  function Since(now: int, before: int): int {
    if now - before > LONGEST then LONGEST
    else if now - before < -LONGEST - 1 then -LONGEST - 1
    else now - before
  }

  predicate Due(s: Stored, found: real, now: int) {
    HasAsked(s) ==>
      || Since(now, s.state.askedAt.value) >= TIP_COOLDOWN
      || (s.state.askedAtUSD > 0.0 && found >= s.state.askedAtUSD * TIP_REASK_MULTIPLE)
  }

  function Noted(s: Stored, found: real, at: int, written: bool): Stored {
    if written then Parsed(Left(s).(askedAt := Some(at), askedAtUSD := found)) else s
  }

  predicate Shows(s: Stored, r: Report) {
    r.found >= TIP_FLOOR_USD && (r.home ==> Due(Seeded(s, r.random, r.seedWritten), r.found, r.now))
  }

  function After(s: Stored, r: Report): Stored {
    if !r.home then s
    else
      var seeded := Seeded(s, r.random, r.seedWritten);
      if Shows(s, r) then Noted(seeded, r.found, r.noted, r.noteWritten) else seeded
  }

  function ArmOf(s: Stored, r: Report, variant: string -> string): string {
    if r.home then variant(SeedOf(s, r.random)) else "A"
  }

  class TipFile {
    var stored: Stored

    constructor (s: Stored)
      ensures stored == s
    {
      stored := s;
    }

    method TipSeed(random: Option<string>, written: bool) returns (seed: string)
      modifies this
      ensures seed == SeedOf(old(stored), random)
      ensures stored == Seeded(old(stored), random, written)
      ensures old(stored).Parsed? ==>
                stored.Parsed? && stored.state == old(stored).state.(seed := stored.state.seed)
    {
      match stored {
        case Parsed(state) =>
          if state.seed != "" {
            return state.seed;
          }
        case _ =>
      }
      if random.None? {
        return "fallback";
      }
      seed := random.value;
      var state := Left(stored);
      state := state.(seed := seed);
      if written {
        stored := Parsed(state);
      }
    }

    method ShouldAsk(found: real, now: int) returns (ask: bool)
      ensures ask == Due(stored, found, now)
    {
      if !stored.Parsed? || stored.state.askedAt.None? {
        return true;
      }
      if Since(now, stored.state.askedAt.value) >= TIP_COOLDOWN {
        return true;
      }
      return stored.state.askedAtUSD > 0.0 && found >= stored.state.askedAtUSD * TIP_REASK_MULTIPLE;
    }

    method NoteAsked(found: real, now: int, written: bool)
      modifies this
      ensures stored == Noted(old(stored), found, now, written)
      ensures old(stored).Parsed? ==> stored.Parsed? && stored.state.seed == old(stored).state.seed
    {
      var state := Left(stored);
      state := state.(askedAt := Some(now), askedAtUSD := found);
      if written {
        stored := Parsed(state);
      }
    }

    /** The end of a cost report: is the ask shown, and in which arm of the experiment? */
    method CostReport(r: Report, variant: string -> string) returns (shown: bool, arm: string)
      modifies this
      ensures shown == Shows(old(stored), r)
      ensures arm == ArmOf(old(stored), r, variant)
      ensures stored == After(old(stored), r)
    {
      arm := "A";
      var ask := true;
      if r.home {
        var seed := TipSeed(r.random, r.seedWritten);
        arm := variant(seed);
        ask := ShouldAsk(r.found, r.now);
      }
      shown := ask && !(r.found < TIP_FLOOR_USD);
      if shown && r.home {
        NoteAsked(r.found, r.noted, r.noteWritten);
      }
    }
  }

  // ----- Whole runs

  datatype Ask = Ask(found: real, now: int, noted: int)

  /** The asks that were shown and reached the file. */
  function Recorded(s: Stored, rs: seq<Report>): seq<Ask>
    decreases rs
  {
    if rs == [] then []
    else
      var r := rs[0];
      (if r.home && Shows(s, r) && r.noteWritten then [Ask(r.found, r.now, r.noted)] else [])
      + Recorded(After(s, r), rs[1..])
  }

  function Shown(s: Stored, rs: seq<Report>): (shown: seq<bool>)
    ensures |shown| == |rs|
    decreases rs
  {
    if rs == [] then [] else [Shows(s, rs[0])] + Shown(After(s, rs[0]), rs[1..])
  }

  function Arms(s: Stored, rs: seq<Report>, variant: string -> string): (arms: seq<string>)
    ensures |arms| == |rs|
    decreases rs
  {
    if rs == [] then []
    else [ArmOf(s, rs[0], variant)] + Arms(After(s, rs[0]), rs[1..], variant)
  }

  function Pow3(k: nat): (p: real)
    ensures p >= 1.0
  {
    if k == 0 then 1.0 else 3.0 * Pow3(k - 1)
  }

  /** After an ask was recorded, the next one waits out the cooldown or finds three times as much. */
  lemma {:induction false} NextAsk(s: Stored, rs: seq<Report>)
    requires HasAsked(s) && s.state.askedAtUSD > 0.0
    ensures var asks := Recorded(s, rs);
            asks != [] ==>
              || asks[0].now - s.state.askedAt.value >= TIP_COOLDOWN
              || asks[0].found >= 3.0 * s.state.askedAtUSD
    decreases rs
  {
    if rs != [] && !(rs[0].home && Shows(s, rs[0]) && rs[0].noteWritten) {
      NextAsk(After(s, rs[0]), rs[1..]);
    }
  }

  lemma {:induction false} AsksEscalate(s: Stored, rs: seq<Report>, i: nat)
    requires i < |Recorded(s, rs)|
    ensures var asks := Recorded(s, rs);
            && asks[i].found >= TIP_FLOOR_USD
            && (i + 1 < |asks| ==>
                  || asks[i + 1].now - asks[i].noted >= TIP_COOLDOWN
                  || asks[i + 1].found >= 3.0 * asks[i].found)
    decreases rs
  {
    var r, next := rs[0], After(s, rs[0]);
    if r.home && Shows(s, r) && r.noteWritten {
      if i == 0 {
        NextAsk(next, rs[1..]);
      } else {
        AsksEscalate(next, rs[1..], i - 1);
      }
    } else {
      AsksEscalate(next, rs[1..], i);
    }
  }

  function Inside(from: int): Ask -> bool {
    (a: Ask) => from <= a.now < from + TIP_COOLDOWN && from <= a.noted < from + TIP_COOLDOWN
  }

  /** Asks that follow each other without one outside the span in between: the k-th found at least
      5 * 3^(k-1) dollars. The clock may run backwards and any write may fail. */
  lemma {:induction false} ConsecutiveAsksTriple(s: Stored, rs: seq<Report>, from: int, first: nat, k: nat)
    requires first + k < |Recorded(s, rs)|
    requires forall j :: first <= j <= first + k ==> Inside(from)(Recorded(s, rs)[j])
    ensures Recorded(s, rs)[first + k].found >= TIP_FLOOR_USD * Pow3(k)
  {
    hide Recorded;
    if k == 0 {
      AsksEscalate(s, rs, first);
    } else {
      ConsecutiveAsksTriple(s, rs, from, first, k - 1);
      AsksEscalate(s, rs, first + k - 1);
      assert Inside(from)(Recorded(s, rs)[first + k - 1]) && Inside(from)(Recorded(s, rs)[first + k]);
    }
  }

  // ----- All asks of a span, under a clock that does not run backwards

  /** Each reading of the clock is no earlier than the one before it. */
  ghost predicate Steady(rs: seq<Report>) {
    && (forall i :: 0 <= i < |rs| ==> rs[i].now <= rs[i].noted)
    && (forall i, j :: 0 <= i < j < |rs| ==> rs[i].noted <= rs[j].now)
  }

  ghost predicate SteadyAsks(asks: seq<Ask>) {
    && (forall i :: 0 <= i < |asks| ==> asks[i].now <= asks[i].noted)
    && (forall i, j :: 0 <= i < j < |asks| ==> asks[i].noted <= asks[j].now)
  }

  lemma {:induction false} RecordedAreReports(s: Stored, rs: seq<Report>, a: Ask)
    requires a in Recorded(s, rs)
    ensures exists i :: 0 <= i < |rs| && a == Ask(rs[i].found, rs[i].now, rs[i].noted)
    decreases rs
  {
    if a in Recorded(After(s, rs[0]), rs[1..]) {
      RecordedAreReports(After(s, rs[0]), rs[1..], a);
      var i :| 0 <= i < |rs| - 1 && a == Ask(rs[1..][i].found, rs[1..][i].now, rs[1..][i].noted);
      assert rs[1..][i] == rs[i + 1];
    }
  }

  lemma {:induction false} RecordedAreSteady(s: Stored, rs: seq<Report>)
    requires Steady(rs)
    ensures SteadyAsks(Recorded(s, rs))
    decreases rs
  {
    if rs != [] {
      var rest := Recorded(After(s, rs[0]), rs[1..]);
      RecordedAreSteady(After(s, rs[0]), rs[1..]);
      forall a | a in rest
        ensures rs[0].noted <= a.now
      {
        RecordedAreReports(After(s, rs[0]), rs[1..], a);
        var i :| 0 <= i < |rs| - 1 && a == Ask(rs[1..][i].found, rs[1..][i].now, rs[1..][i].noted);
        assert rs[1..][i] == rs[i + 1];
      }
    }
  }

  /** Every ask finds five dollars, and one that follows another within the cooldown three times as
      much. */
  ghost predicate Escalating(asks: seq<Ask>) {
    && (forall i :: 0 <= i < |asks| ==> asks[i].found >= TIP_FLOOR_USD)
    && (forall i :: 0 <= i < |asks| - 1 ==>
          asks[i + 1].now - asks[i].noted >= TIP_COOLDOWN || asks[i + 1].found >= 3.0 * asks[i].found)
  }

  /** Under a steady clock whatever lies between two asks of a span is in the span too. */
  lemma NeighbourIsInside(asks: seq<Ask>, from: int, i: nat)
    requires SteadyAsks(asks) && i < |asks| - 1
    requires Inside(from)(asks[i]) && Inside(from)(asks[|asks| - 1])
    ensures Inside(from)(asks[|asks| - 2])
  {
    var n := |asks| - 1;
    assert asks[n - 1].now <= asks[n - 1].noted <= asks[n].now;
    assert i < n - 1 ==> asks[i].now <= asks[i].noted <= asks[n - 1].now;
  }

  /** The last ask inside a span, in front of one more inside it, is the one right before. */
  lemma LastBefore(asks: seq<Ask>, from: int)
    requires asks != [] && SteadyAsks(asks) && Inside(from)(asks[|asks| - 1])
    ensures var before := Filter(asks[..|asks| - 1], Inside(from));
            before != [] ==>
              |asks| >= 2 && before[|before| - 1] == asks[|asks| - 2] && Inside(from)(asks[|asks| - 2])
  {
    var n := |asks| - 1;
    var front := asks[..n];
    var before := Filter(front, Inside(from));
    if before != [] {
      FilterAre(front, Inside(from));
      assert before[0] in before && before[0] in front;
      var i :| 0 <= i < n && front[i] == before[0];
      NeighbourIsInside(asks, from, i);
      assert front == front[..n - 1] + [asks[n - 1]];
      FilterAppend(front[..n - 1], asks[n - 1], Inside(from));
    }
  }

  lemma {:induction false} SpanTriples(asks: seq<Ask>, from: int, k: nat)
    requires Escalating(asks) && SteadyAsks(asks) && k < |Filter(asks, Inside(from))|
    ensures Filter(asks, Inside(from))[k].found >= TIP_FLOOR_USD * Pow3(k)
    decreases |asks|
  {
    hide Filter, SteadyAsks;
    if asks == [] {
      NothingInside(from);
    } else {
      var n := |asks| - 1;
      var front, last := asks[..n], asks[n];
      var before := Filter(front, Inside(from));
      assert asks == front + [last];
      FilterAppend(front, last, Inside(from));
      FrontIsSteady(asks);
      if k < |before| {
        SpanTriples(front, from, k);
      } else if k > 0 {
        LastBefore(asks, from);
        SpanTriples(front, from, k - 1);
        assert last.now - asks[n - 1].noted < TIP_COOLDOWN;
        assert asks[n - 1 + 1].found >= 3.0 * asks[n - 1].found;
      }
    }
  }

  lemma NothingInside(from: int)
    ensures Filter([], Inside(from)) == []
  {
  }

  lemma FrontIsSteady(asks: seq<Ask>)
    requires asks != [] && SteadyAsks(asks)
    ensures SteadyAsks(asks[..|asks| - 1])
  {
  }

  /** Of all recorded asks inside a span shorter than thirty days, the k-th found at least
      5 * 3^(k-1) dollars, whichever writes fail. */
  lemma AsksInASpanTriple(s: Stored, rs: seq<Report>, from: int, k: nat)
    requires Steady(rs) && k < |Filter(Recorded(s, rs), Inside(from))|
    ensures Filter(Recorded(s, rs), Inside(from))[k].found >= TIP_FLOOR_USD * Pow3(k)
  {
    hide Recorded;
    var asks := Recorded(s, rs);
    RecordedAreSteady(s, rs);
    forall i | 0 <= i < |asks|
      ensures asks[i].found >= TIP_FLOOR_USD
      ensures i < |asks| - 1 ==>
                asks[i + 1].now - asks[i].noted >= TIP_COOLDOWN || asks[i + 1].found >= 3.0 * asks[i].found
    {
      AsksEscalate(s, rs, i);
    }
    SpanTriples(asks, from, k);
  }

  lemma {:induction false} Pow3Grows(m: nat, k: nat)
    requires m <= k
    ensures Pow3(m) <= Pow3(k)
  {
    if m < k {
      Pow3Grows(m, k - 1);
    }
  }

  /** So their number is logarithmic: where no report of a run finds 5 * 3^m dollars, a span has at
      most m recorded asks. */
  lemma AsksInASpanAreFew(s: Stored, rs: seq<Report>, from: int, m: nat)
    requires Steady(rs) && forall r :: r in rs ==> r.found < TIP_FLOOR_USD * Pow3(m)
    ensures |Filter(Recorded(s, rs), Inside(from))| <= m
  {
    hide Recorded, Filter, Pow3, Steady;
    if |Filter(Recorded(s, rs), Inside(from))| > m {
      var r := LastAskFindsMost(s, rs, from, m);
      assert false;
    }
  }

  lemma LastAskFindsMost(s: Stored, rs: seq<Report>, from: int, m: nat) returns (r: Report)
    requires Steady(rs) && |Filter(Recorded(s, rs), Inside(from))| > m
    ensures r in rs && r.found >= TIP_FLOOR_USD * Pow3(m)
  {
    hide Recorded, Filter, Pow3, Steady;
    var asks := Filter(Recorded(s, rs), Inside(from));
    AsksInASpanTriple(s, rs, from, |asks| - 1);
    Pow3Grows(m, |asks| - 1);
    FilterAre(Recorded(s, rs), Inside(from));
    var a := asks[|asks| - 1];
    assert a in asks;
    RecordedAreReports(s, rs, a);
    var i :| 0 <= i < |rs| && a == Ask(rs[i].found, rs[i].now, rs[i].noted);
    r := rs[i];
  }

  // ----- What a clock that is set back undoes

  function ReportAt(found: real, now: int): Report {
    Report(true, found, now, now, None, false, true)
  }

  /** Asks of five and fifteen dollars; one of five behind the cooldown; and, the clock set back, one
      of fifteen again. */
  const SET_BACK := [ReportAt(5.0, 0), ReportAt(15.0, 1), ReportAt(5.0, 1 + TIP_COOLDOWN), ReportAt(15.0, 2)]

  /** The third ask of a span need not find nine times the first under a clock that is set back: the
      one outside the span has lowered what is remembered. */
  lemma SetBackClockAsksAgain()
    ensures !Steady(SET_BACK)
    ensures var asks := Filter(Recorded(Missing, SET_BACK), Inside(0));
            |asks| == 3 && asks[2].found == 15.0 < TIP_FLOOR_USD * Pow3(2)
  {
    assert SET_BACK[2].noted > SET_BACK[3].now;
    RecordedOfSetBack();
    assert Pow3(2) == 3.0 * Pow3(1) == 9.0;
    hide Recorded, Filter, Pow3;
    InsideOfSetBack();
  }

  lemma RecordedOfSetBack()
    ensures Recorded(Missing, SET_BACK)
         == [AskOf(SET_BACK[0]), AskOf(SET_BACK[1]), AskOf(SET_BACK[2]), AskOf(SET_BACK[3])]
  {
    hide Recorded;
    RecordedFirst(Missing, SET_BACK[0], SET_BACK[1..]);
    RecordedFirst(Remembering(SET_BACK[0]), SET_BACK[1], SET_BACK[2..]);
    RecordedFirst(Remembering(SET_BACK[1]), SET_BACK[2], SET_BACK[3..]);
    RecordedFirst(Remembering(SET_BACK[2]), SET_BACK[3], []);
    assert SET_BACK == [SET_BACK[0]] + SET_BACK[1..] && SET_BACK[1..] == [SET_BACK[1]] + SET_BACK[2..];
    assert SET_BACK[2..] == [SET_BACK[2]] + SET_BACK[3..] && SET_BACK[3..] == [SET_BACK[3]] + [];
  }

  lemma InsideOfSetBack()
    ensures var x, y, z, w := AskOf(SET_BACK[0]), AskOf(SET_BACK[1]), AskOf(SET_BACK[2]), AskOf(SET_BACK[3]);
            Filter([x, y, z, w], Inside(0)) == [x, y, w]
  {
    hide Filter;
    var x, y, z, w := AskOf(SET_BACK[0]), AskOf(SET_BACK[1]), AskOf(SET_BACK[2]), AskOf(SET_BACK[3]);
    NothingInside(0);
    FilterAppend([], x, Inside(0));
    FilterAppend([x], y, Inside(0));
    FilterAppend([x, y], z, Inside(0));
    FilterAppend([x, y, z], w, Inside(0));
    assert [] + [x] == [x] && [x] + [y] == [x, y] && [x, y] + [z] == [x, y, z] && [x, y, z] + [w] == [x, y, z, w];
  }

  function AskOf(r: Report): Ask { Ask(r.found, r.now, r.noted) }

  function Remembering(r: Report): Stored { Parsed(TipState(Some(r.noted), r.found, "")) }

  lemma RecordedFirst(s: Stored, r: Report, rest: seq<Report>)
    requires r.home && r.noteWritten && r.random.None? && Shows(s, r) && Left(s).seed == "" && !HasSeed(s)
    ensures Recorded(s, [r] + rest) == [AskOf(r)] + Recorded(Remembering(r), rest)
    ensures rest == [] ==> Recorded(Remembering(r), rest) == []
  {
    assert ([r] + rest)[1..] == rest;
  }

  /** Without a file that can be written nothing restrains the ask: every report over the floor
      shows it. */
  lemma {:induction false} ForgottenAsksRepeat(s: Stored, rs: seq<Report>, i: nat)
    requires !HasAsked(s) && Left(s).askedAt.None?
    requires i < |rs|
    requires forall j :: 0 <= j < |rs| ==> !rs[j].noteWritten
    ensures Shown(s, rs)[i] <==> rs[i].found >= TIP_FLOOR_USD
    decreases rs
  {
    if i > 0 {
      ForgottenAsksRepeat(After(s, rs[0]), rs[1..], i - 1);
    }
  }

  /** Once a seed is in the file it stays there, whatever is asked, noted or lost afterwards, and so
      the arm of the experiment never changes. */
  lemma {:induction false} ArmIsConstant(s: Stored, rs: seq<Report>, variant: string -> string, i: nat)
    requires HasSeed(s) && i < |rs|
    ensures Arms(s, rs, variant)[i] == if rs[i].home then variant(s.state.seed) else "A"
    decreases rs
  {
    if i > 0 {
      ArmIsConstant(After(s, rs[0]), rs[1..], variant, i - 1);
    }
  }

  /** The first report that writes its seed settles the arm, and what it settles on is its own. */
  lemma FirstSeedSettlesTheArm(s: Stored, rs: seq<Report>, variant: string -> string, i: nat)
    requires 0 < i < |rs| && rs[0].home && rs[i].home
    requires rs[0].seedWritten && rs[0].random.Some? && rs[0].random.value != ""
    ensures Arms(s, rs, variant)[i] == Arms(s, rs, variant)[0]
  {
    ArmIsConstant(After(s, rs[0]), rs[1..], variant, i - 1);
  }
}
