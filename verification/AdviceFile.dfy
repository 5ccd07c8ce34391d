/** The advice file: rewritten whole by every run, marked by a reader's keystroke, and read back by
    both. What the reader decided has to outlive every run. */
module AdviceFile {
  import opened Wrappers
  import opened Sorting
  import opened Strings
  import opened Observing
  import opened Suggesting

  const SCHEMA := 2

  /** What a reader can decide, and whatever else a hand-edited file may say. */
  datatype Decision = DecisionApplied | DecisionDismissed | Unknown(text: string)

  datatype File = Unreadable | Advice(schema: int, suggestions: seq<Suggestion>, decisions: map<string, Decision>)

  type Disk = map<string, File>

  predicate IsCurrent(d: Disk, path: string) {
    path in d && d[path].Advice? && d[path].schema == SCHEMA
  }

  predicate IsNewer(d: Disk, path: string) {
    path in d && d[path].Advice? && d[path].schema > SCHEMA
  }

  predicate IsValid(x: Decision) { x == DecisionApplied || x == DecisionDismissed }

  /** What the reader can be shown to have decided. */
  function ReaderDecisions(d: Disk, home: string): map<string, Decision> {
    if !IsCurrent(d, home) then map[]
    else map k | k in d[home].decisions && IsValid(d[home].decisions[k]) :: d[home].decisions[k]
  }

  function AppliedIn(decisions: map<string, Decision>): set<string> {
    set k | k in decisions && decisions[k] == DecisionApplied
  }

  function DecisionFor(status: Status): Option<Decision> {
    match status
    case Applied => Some(DecisionApplied)
    case Dismissed => Some(DecisionDismissed)
    case _ => None
  }

  /** The reader's decision shown where the verifier has nothing to say. */
  function Overlaid(decisions: map<string, Decision>): Suggestion -> Suggestion {
    (s: Suggestion) =>
      if s.status != Pending || s.id !in decisions then s
      else if decisions[s.id] == DecisionApplied then s.(status := Status.Applied)
      else if decisions[s.id] == DecisionDismissed then s.(status := Dismissed)
      else s
  }

  method ApplyDecisions(sgs: array<Suggestion>, decisions: map<string, Decision>)
    modifies sgs
    ensures sgs[..] == Map(old(sgs[..]), Overlaid(decisions))
  {
    for i := 0 to sgs.Length
      invariant forall j :: 0 <= j < i ==> sgs[j] == Overlaid(decisions)(old(sgs[..])[j])
      invariant forall j :: i <= j < sgs.Length ==> sgs[j] == old(sgs[..])[j]
    {
      if sgs[i].status != Pending {
        continue;
      }
      if sgs[i].id in decisions {
        match decisions[sgs[i].id]
        case DecisionApplied => sgs[i] := sgs[i].(status := Status.Applied);
        case DecisionDismissed => sgs[i] := sgs[i].(status := Dismissed);
        case Unknown(_) =>
      }
    }
  }

  // ----- Writing

  /** How far a mark's write through a sibling file gets. */
  datatype Landing = TmpFails | TmpTorn | RenameFails | Lands

  /** How far a run's write in place gets. */
  datatype Writing = NotStarted | Torn | Whole

  /** The position of the first suggestion with an id. */
  function Find(sgs: seq<Suggestion>, id: string): (i: nat)
    ensures i <= |sgs| && (i < |sgs| ==> sgs[i].id == id)
    ensures forall j :: 0 <= j < i ==> sgs[j].id != id
  {
    if sgs == [] || sgs[0].id == id then 0 else 1 + Find(sgs[1..], id)
  }

  predicate CanMark(d: Disk, home: string, id: string, status: Status) {
    && DecisionFor(status).Some?
    && IsCurrent(d, home)
    && Find(d[home].suggestions, id) < |d[home].suggestions|
  }

  function Marked(f: File, id: string, status: Status): File
    requires f.Advice? && DecisionFor(status).Some? && Find(f.suggestions, id) < |f.suggestions|
  {
    var i := Find(f.suggestions, id);
    f.(suggestions := f.suggestions[i := f.suggestions[i].(status := status)],
       decisions := f.decisions[id := DecisionFor(status).value])
  }

  function AfterMark(d: Disk, home: string, id: string, status: Status, landing: Landing): Disk {
    if !CanMark(d, home, id, status) then d
    else
      var f := Marked(d[home], id, status);
      match landing
      case TmpFails => d
      case TmpTorn => d[TmpOf(home) := Unreadable]
      case RenameFails => d[TmpOf(home) := f]
      case Lands => (d - {TmpOf(home)})[home := f]
  }

  function AfterWrite(d: Disk, path: string, f: File, writing: Writing): Disk {
    if IsNewer(d, path) then d
    else
      match writing
      case NotStarted => d
      case Torn => d[path := Unreadable]
      case Whole => d[path := f]
  }

  function Rebuilt(generated: seq<Suggestion>, decisions: map<string, Decision>): File {
    Advice(SCHEMA, Map(generated, Overlaid(decisions)), decisions)
  }

  class Store {
    const home: string
    var disk: Disk

    constructor (home: string, disk: Disk)
      ensures this.home == home && this.disk == disk
    {
      this.home := home;
      this.disk := disk;
    }

    method ReadDecisions() returns (out: map<string, Decision>)
      ensures out == ReaderDecisions(disk, home)
    {
      if home !in disk || !disk[home].Advice? || disk[home].schema != SCHEMA {
        return map[];
      }
      out := map[];
      var decisions := disk[home].decisions;
      var todo := decisions.Keys;
      while todo != {}
        invariant todo <= decisions.Keys
        invariant out == map k | k in decisions && k !in todo && IsValid(decisions[k]) :: decisions[k]
        decreases |todo|
      {
        var k :| k in todo;
        todo := todo - {k};
        if decisions[k] == DecisionApplied || decisions[k] == DecisionDismissed {
          out := out[k := decisions[k]];
        }
      }
    }

    method AppliedIDs() returns (out: set<string>)
      ensures out == AppliedIn(ReaderDecisions(disk, home))
    {
      var decisions := ReadDecisions();
      out := {};
      var todo := decisions.Keys;
      while todo != {}
        invariant todo <= decisions.Keys
        invariant out == set k | k in decisions && k !in todo && decisions[k] == DecisionApplied
        decreases |todo|
      {
        var k :| k in todo;
        todo := todo - {k};
        if decisions[k] == DecisionApplied {
          out := out + {k};
        }
      }
    }

    /** A keystroke: refused for a computed status, a missing or foreign file, and an id that is not
        in it. */
    method MarkAdvice(id: string, status: Status, landing: Landing) returns (accepted: bool)
      modifies this
      ensures accepted == (CanMark(old(disk), home, id, status) && landing == Lands)
      ensures disk == AfterMark(old(disk), home, id, status, landing)
    {
      var decision := DecisionFor(status);
      if decision.None? || home !in disk || !disk[home].Advice? || disk[home].schema != SCHEMA {
        return false;
      }
      var f := disk[home];
      var i := 0;
      while i < |f.suggestions| && f.suggestions[i].id != id
        invariant 0 <= i <= |f.suggestions|
        invariant forall j :: 0 <= j < i ==> f.suggestions[j].id != id
      {
        i := i + 1;
      }
      if i == |f.suggestions| {
        return false;
      }
      f := f.(suggestions := f.suggestions[i := f.suggestions[i].(status := status)]);
      f := f.(decisions := f.decisions[id := decision.value]);
      if landing == TmpFails {
        return false;
      }
      disk := disk[TmpOf(home) := if landing == TmpTorn then Unreadable else f];
      if landing == TmpTorn || landing == RenameFails {
        return false;
      }
      disk := disk - {TmpOf(home)};
      disk := disk[home := f];
      return true;
    }

    method RefuseNewer(path: string) returns (refused: bool)
      ensures refused == IsNewer(disk, path)
    {
      if path !in disk || !disk[path].Advice? {
        return false;
      }
      return !(disk[path].schema <= SCHEMA);
    }

    /** A run: the suggestions for some observations, with the reader's decisions carried forward,
        written to `out` if it is given one. */
    method RunAdvise(obs: seq<Session>, out: Option<string>, id: string -> string, writing: Writing)
      modifies this
      ensures Ran(old(disk), disk, home, obs, out, id, writing)
    {
      hide ReaderDecisions, Suggests, Overlaid, AppliedIn;
      var decisions := ReadDecisions();
      var applied := AppliedIDs();
      var generated := Suggest(obs, id, applied);
      var sgs := new Suggestion[|generated|](i requires 0 <= i < |generated| => generated[i]);
      assert sgs[..] == generated;
      ApplyDecisions(sgs, decisions);
      if out.None? {
        return;
      }
      var refused := RefuseNewer(out.value);
      if refused {
        return;
      }
      var f := Advice(SCHEMA, sgs[..], decisions);
      match writing
      case NotStarted =>
      case Torn => disk := disk[out.value := Unreadable];
      case Whole => disk := disk[out.value := f];
    }
  }

  /** What a run that nothing interrupts makes of a disk. */
  ghost predicate Ran(d: Disk, d': Disk, home: string, obs: seq<Session>, out: Option<string>, id: string -> string,
                      writing: Writing) {
    var decisions := ReaderDecisions(d, home);
    exists generated ::
      && Suggests(generated, obs, id, AppliedIn(decisions))
      && d' == if out.None? then d else AfterWrite(d, out.value, Rebuilt(generated, decisions), writing)
  }

  // ----- What a stored status claims

  /** A verdict, or an application, only where the reader applied; a dismissal only where the reader
      dismissed. */
  predicate Backed(s: Suggestion, decisions: map<string, Decision>) {
    && (s.status in {Status.Applied, Verified, NotVerified} ==> s.id in decisions && decisions[s.id] == DecisionApplied)
    && (s.status == Dismissed ==> s.id in decisions && decisions[s.id] == DecisionDismissed)
  }

  predicate Consistent(f: File) {
    f.Advice? ==> && (forall s :: s in f.suggestions ==> Backed(s, f.decisions))
                  && (forall i, j :: 0 <= i < j < |f.suggestions| ==> f.suggestions[i].id != f.suggestions[j].id)
  }

  lemma GeneratedIsBacked(out: seq<Suggestion>, obs: seq<Session>, id: string -> string, applied: set<string>,
                          s: Suggestion)
    requires Suggests(out, obs, id, applied) && s in out
    ensures s.status != Status.Applied && s.status != Dismissed
    ensures s.status in {Verified, NotVerified} ==> s.id in applied
  {
    hide Suggests, Live, Targets, TallyOf, SampleOf, Claim, IsSuggested, SeenMean, SeenCount, Judgement, HeldBetween;
    VerdictExactly(out, obs, id, applied, s);
    var k :| k in Targets(Live(obs)) && IsFor(s, k, Live(obs), id, applied)
             && IsJudged(s, k, Live(obs), id(k) in applied);
  }

  function IdOf(s: Suggestion): string { s.id }

  lemma {:induction false} CandidateIds(keys: seq<string>, live: seq<Session>, id: string -> string,
                                        applied: set<string>)
    requires Distinct(keys) && TellsApart(id, Targets(live)) && forall k :: k in keys ==> k in Targets(live)
    ensures Distinct(Map(Candidates(keys, live, id, applied), IdOf))
    ensures forall x :: x in Map(Candidates(keys, live, id, applied), IdOf) ==> exists k :: k in keys && x == id(k)
  {
    hide TallyOf, Targets, IsSuggested, Candidates, Claim, Judgement, Map;
    NoIds();
    if keys == [] {
      NoCandidates(live, id, applied);
    } else {
      var front, k := keys[..|keys| - 1], keys[|keys| - 1];
      assert keys == front + [k];
      CandidateIds(front, live, id, applied);
      CandidatesAppend(front, k, live, id, applied);
      var t := TallyOf(k, live);
      if IsSuggested(k, t) {
        MapAppend(Candidates(front, live, id, applied),
                  SuggestionFor(k, t, Map(live, SampleOf(k)), id(k), id(k) in applied), IdOf);
        var ids := Map(Candidates(front, live, id, applied), IdOf);
        forall k' | k' in front
          ensures id(k') != id(k)
        {
        }
        assert id(k) !in ids;
        assert Distinct(ids + [id(k)]);
      }
    }
  }

  lemma NoIds()
    ensures Map<Suggestion, string>([], IdOf) == []
  {
  }

  lemma GeneratedIds(out: seq<Suggestion>, obs: seq<Session>, id: string -> string, applied: set<string>)
    requires Suggests(out, obs, id, applied) && TellsApart(id, Targets(Live(obs)))
    ensures Distinct(Map(out, IdOf))
  {
    hide Candidates, Targets, Live, TellsApart, Map;
    var keys :| Lists(keys, Targets(Live(obs))) && out == Sort(Candidates(keys, Live(obs), id, applied), RanksAbove);
    CandidateIds(keys, Live(obs), id, applied);
    MapIgnoresOrder(Candidates(keys, Live(obs), id, applied), out, IdOf);
    DistinctRearranged(Map(Candidates(keys, Live(obs), id, applied), IdOf), Map(out, IdOf));
  }

  /** What a run rebuilds from the decisions it read is consistent with them exactly when every
      verdict in it was given on a decision that is among them. */
  lemma RebuiltExactly(generated: seq<Suggestion>, decisions: map<string, Decision>)
    requires Distinct(Map(generated, IdOf))
    requires forall s :: s in generated ==> s.status != Status.Applied && s.status != Dismissed
    ensures Consistent(Rebuilt(generated, decisions)) <==> forall s :: s in generated ==> Supported(s, decisions)
  {
    hide Backed, IsCurrent;
    var f := Rebuilt(generated, decisions);
    RebuiltKeepsIds(generated, decisions);
    forall i | 0 <= i < |generated|
      ensures f.suggestions[i] in f.suggestions && generated[i] in generated
      ensures Backed(f.suggestions[i], decisions) <==> Supported(generated[i], decisions)
    {
      ShownIsBacked(generated[i], decisions);
    }
    if forall s :: s in generated ==> Supported(s, decisions) {
      forall s | s in f.suggestions
        ensures Backed(s, f.decisions)
      {
        var i :| 0 <= i < |f.suggestions| && f.suggestions[i] == s;
        assert Supported(generated[i], decisions);
      }
    } else {
      var s :| s in generated && !Supported(s, decisions);
      var i :| 0 <= i < |generated| && generated[i] == s;
      assert !Backed(f.suggestions[i], decisions);
    }
  }

  predicate Supported(s: Suggestion, decisions: map<string, Decision>) {
    s.status in {Verified, NotVerified} ==> s.id in AppliedIn(decisions)
  }

  lemma ShownIsBacked(s: Suggestion, decisions: map<string, Decision>)
    requires s.status != Status.Applied && s.status != Dismissed
    ensures Backed(Overlaid(decisions)(s), decisions) <==> Supported(s, decisions)
  {
  }

  lemma RebuiltKeepsIds(generated: seq<Suggestion>, decisions: map<string, Decision>)
    requires Distinct(Map(generated, IdOf))
    ensures var shown := Rebuilt(generated, decisions).suggestions;
            forall i, j :: 0 <= i < j < |shown| ==> shown[i].id != shown[j].id
  {
    var shown := Rebuilt(generated, decisions).suggestions;
    forall i | 0 <= i < |generated|
      ensures shown[i].id == Map(generated, IdOf)[i]
    {
    }
  }

  lemma {:induction false} MarkKeepsConsistency(f: File, id: string, status: Status)
    requires f.Advice? && Consistent(f)
    requires DecisionFor(status).Some? && Find(f.suggestions, id) < |f.suggestions|
    ensures Consistent(Marked(f, id, status))
  {
    var i := Find(f.suggestions, id);
    var f' := Marked(f, id, status);
    forall s | s in f'.suggestions
      ensures Backed(s, f'.decisions)
    {
      var j :| 0 <= j < |f'.suggestions| && f'.suggestions[j] == s;
      if j != i {
        assert f.suggestions[j] in f.suggestions && s == f.suggestions[j];
        assert s.id != id by {
          if j < i {
            assert f.suggestions[j].id != f.suggestions[i].id;
          } else {
            assert f.suggestions[i].id != f.suggestions[j].id;
          }
        }
      }
    }
  }

  // ----- Whole histories

  datatype Op =
    | Mark(id: string, status: Status, landing: Landing)
    | Run(obs: seq<Session>, out: Option<string>, writing: Writing)

  ghost predicate Step(d: Disk, op: Op, d': Disk, home: string, id: string -> string) {
    match op
    case Mark(x, status, landing) => d' == AfterMark(d, home, x, status, landing)
    case Run(obs, out, writing) => Ran(d, d', home, obs, out, id, writing)
  }

  /** A history of runs and marks, each of which finished before the next began. */
  ghost predicate History(ds: seq<Disk>, ops: seq<Op>, home: string, id: string -> string) {
    |ds| == |ops| + 1 && forall i :: 0 <= i < |ops| ==> Step(ds[i], ops[i], ds[i + 1], home, id)
  }

  /** Did a crash cut short a run's rewriting of the file at home? */
  predicate TornAtHome(d: Disk, op: Op, home: string) {
    op.Run? && op.writing == Torn && op.out == Some(home) && !IsNewer(d, home)
  }

  function Stored(d: Disk, home: string, id: string): Option<Decision> {
    var decisions := ReaderDecisions(d, home);
    if id in decisions then Some(decisions[id]) else None
  }

  /** The last decision about an id that was accepted. */
  function LastAccepted(ds: seq<Disk>, ops: seq<Op>, home: string, id: string): Option<Decision>
    requires |ds| == |ops| + 1
    decreases |ops|
  {
    var n := |ops|;
    if n == 0 then None
    else if Accepts(ds[n - 1], ops[n - 1], home, id) then DecisionFor(ops[n - 1].status)
    else LastAccepted(ds[..n], ops[..n - 1], home, id)
  }

  predicate Accepts(d: Disk, op: Op, home: string, id: string) {
    op.Mark? && op.id == id && op.landing == Lands && CanMark(d, home, id, op.status)
  }

  /** What the reader last said about an id: in this history, or before it. */
  function LastMark(ds: seq<Disk>, ops: seq<Op>, home: string, id: string): Option<Decision>
    requires |ds| == |ops| + 1
  {
    var last := LastAccepted(ds, ops, home, id);
    if last.Some? then last else Stored(ds[0], home, id)
  }

  /** Was a run torn at home after the last accepted mark of an id, or at all if there was none? */
  predicate TornSince(ds: seq<Disk>, ops: seq<Op>, home: string, id: string)
    requires |ds| == |ops| + 1
    decreases |ops|
  {
    var n := |ops|;
    if n == 0 || Accepts(ds[n - 1], ops[n - 1], home, id) then false
    else TornAtHome(ds[n - 1], ops[n - 1], home) || TornSince(ds[..n], ops[..n - 1], home, id)
  }

  lemma MarkStores(d: Disk, home: string, x: string, status: Status, landing: Landing, id: string)
    ensures var d' := AfterMark(d, home, x, status, landing);
            Stored(d', home, id) == if Accepts(d, Mark(x, status, landing), home, id) then DecisionFor(status)
                                    else Stored(d, home, id)
  {
    TmpIsOther(home);
  }

  lemma RunStores(d: Disk, d': Disk, home: string, obs: seq<Session>, out: Option<string>, id: string -> string,
                  writing: Writing, x: string)
    requires Ran(d, d', home, obs, out, id, writing) && !(writing == Torn && out == Some(home) && !IsNewer(d, home))
    ensures Stored(d', home, x) == Stored(d, home, x)
  {
    hide Suggests;
  }

  lemma {:induction false} StoredAfter(ds: seq<Disk>, ops: seq<Op>, home: string, id: string -> string, x: string)
    requires History(ds, ops, home, id)
    ensures Stored(ds[|ops|], home, x) == if TornSince(ds, ops, home, x) then None else LastMark(ds, ops, home, x)
    decreases |ops|
  {
    hide Ran, AfterMark, Stored, CanMark, TornAtHome;
    if ops != [] {
      var n := |ops|;
      assert Step(ds[n - 1], ops[n - 1], ds[n], home, id);
      StoredAfter(ds[..n], ops[..n - 1], home, id, x);
      match ops[n - 1]
      case Mark(y, status, landing) =>
        MarkStores(ds[n - 1], home, y, status, landing, x);
        MarksAreNotTorn(ds[n - 1], ops[n - 1], home);
        AcceptedDecides(ds[n - 1], ops[n - 1], home, x);
        assert ds[..n][0] == ds[0];
      case Run(obs, out, writing) =>
        if TornAtHome(ds[n - 1], ops[n - 1], home) {
          TornRun(ds[n - 1], ops[n - 1], home);
          TornRunForgets(ds[n - 1], ds[n], home, obs, id, x);
        } else {
          TornRun(ds[n - 1], ops[n - 1], home);
          RunStores(ds[n - 1], ds[n], home, obs, out, id, writing, x);
        }
    }
  }

  lemma MarksAreNotTorn(d: Disk, op: Op, home: string)
    requires op.Mark?
    ensures !TornAtHome(d, op, home)
  {
  }

  lemma AcceptedDecides(d: Disk, op: Op, home: string, id: string)
    ensures Accepts(d, op, home, id) ==> DecisionFor(op.status).Some?
  {
  }

  lemma TornRun(d: Disk, op: Op, home: string)
    requires op.Run?
    ensures TornAtHome(d, op, home) <==> op.writing == Torn && op.out == Some(home) && !IsNewer(d, home)
  {
  }

  /** The decision on disk is the reader's last one, whatever runs came in between and whether or not
      they found that suggestion again, exactly when there is none or no run was torn since. */
  lemma LastMarkSurvivesExactly(ds: seq<Disk>, ops: seq<Op>, home: string, id: string -> string, x: string)
    requires History(ds, ops, home, id)
    ensures Stored(ds[|ops|], home, x) == LastMark(ds, ops, home, x)
       <==> LastMark(ds, ops, home, x).None? || !TornSince(ds, ops, home, x)
  {
    hide Stored;
    StoredAfter(ds, ops, home, id, x);
  }

  lemma {:induction false} NeverTorn(ds: seq<Disk>, ops: seq<Op>, home: string, x: string)
    requires |ds| == |ops| + 1 && forall i :: 0 <= i < |ops| ==> !TornAtHome(ds[i], ops[i], home)
    ensures !TornSince(ds, ops, home, x)
    decreases |ops|
  {
    if ops != [] {
      assert !TornAtHome(ds[|ops| - 1], ops[|ops| - 1], home);
      NeverTorn(ds[..|ops|], ops[..|ops| - 1], home, x);
    }
  }

  /** So it is in every history in which no run is torn. */
  lemma LastMarkSurvives(ds: seq<Disk>, ops: seq<Op>, home: string, id: string -> string, x: string)
    requires History(ds, ops, home, id)
    requires forall i :: 0 <= i < |ops| ==> !TornAtHome(ds[i], ops[i], home)
    ensures Stored(ds[|ops|], home, x) == LastMark(ds, ops, home, x)
  {
    hide Stored;
    NeverTorn(ds, ops, home, x);
    LastMarkSurvivesExactly(ds, ops, home, id, x);
  }

  /** A torn rewrite, by contrast, loses all of them: a run does not write through a sibling as a
      mark does. */
  lemma TornRunForgets(d: Disk, d': Disk, home: string, obs: seq<Session>, id: string -> string, x: string)
    requires Ran(d, d', home, obs, Some(home), id, Torn) && !IsNewer(d, home)
    ensures Stored(d', home, x) == None
  {
    hide Suggests;
  }

  /** Nothing stored at home claims a decision that is not there; a file of another schema claims
      nothing, because nobody reads it. */
  predicate Sure(d: Disk, home: string) {
    IsCurrent(d, home) ==> Consistent(d[home])
  }

  lemma RunIsConsistent(d: Disk, d': Disk, home: string, obs: seq<Session>, out: Option<string>,
                        id: string -> string, writing: Writing)
    requires Ran(d, d', home, obs, out, id, writing) && TellsApart(id, Targets(Live(obs)))
    ensures out.Some? && writing == Whole && !IsNewer(d, out.value) ==> Consistent(d'[out.value])
    ensures Sure(d, home) ==> Sure(d', home)
  {
    hide Suggests, TellsApart, Consistent, ReaderDecisions, Live, Targets;
    var decisions := ReaderDecisions(d, home);
    var generated: seq<Suggestion> :|
      && Suggests(generated, obs, id, AppliedIn(decisions))
      && d' == if out.None? then d else AfterWrite(d, out.value, Rebuilt(generated, decisions), writing);
    GeneratedIds(generated, obs, id, AppliedIn(decisions));
    forall s | s in generated
      ensures s.status != Status.Applied && s.status != Dismissed
      ensures s.status in {Verified, NotVerified} ==> s.id in AppliedIn(decisions)
    {
      GeneratedIsBacked(generated, obs, id, AppliedIn(decisions), s);
    }
    RebuiltExactly(generated, decisions);
    UnreadableIsConsistent();
  }

  lemma UnreadableIsConsistent()
    ensures Consistent(Unreadable)
  {
  }

  /** Every status stored at home is backed by the reader's decision, throughout any history of runs
      and marks, crashes included, that starts without a file, with one of another schema, or with one
      that is so. */
  lemma {:induction false} StatusesStayBacked(ds: seq<Disk>, ops: seq<Op>, home: string, id: string -> string)
    requires History(ds, ops, home, id) && Sure(ds[0], home)
    requires forall i :: 0 <= i < |ops| && ops[i].Run? ==> TellsApart(id, Targets(Live(ops[i].obs)))
    ensures Sure(ds[|ops|], home)
    decreases |ops|
  {
    hide Ran, TellsApart, Sure, AfterMark, Targets, Live;
    if ops != [] {
      var n := |ops|;
      StatusesStayBacked(ds[..n], ops[..n - 1], home, id);
      assert Step(ds[n - 1], ops[n - 1], ds[n], home, id);
      match ops[n - 1]
      case Mark(x, status, landing) => MarkIsConsistent(ds[n - 1], home, x, status, landing);
      case Run(obs, out, writing) =>
        assert TellsApart(id, Targets(Live(ops[n - 1].obs)));
        RunIsConsistent(ds[n - 1], ds[n], home, obs, out, id, writing);
    }
  }

  lemma MarkIsConsistent(d: Disk, home: string, x: string, status: Status, landing: Landing)
    requires Sure(d, home)
    ensures Sure(AfterMark(d, home, x, status, landing), home)
  {
    hide Consistent;
    TmpIsOther(home);
    if CanMark(d, home, x, status) {
      MarkKeepsConsistency(d[home], x, status);
    }
  }

  /** A file of a newer schema is never replaced, by runs with any `--out` or by marks, unless it sits
      where a mark keeps its sibling file. */
  lemma {:induction false} NewerFileIsKept(ds: seq<Disk>, ops: seq<Op>, home: string, id: string -> string,
                                           path: string)
    requires History(ds, ops, home, id) && IsNewer(ds[0], path) && path != TmpOf(home)
    ensures path in ds[|ops|] && ds[|ops|][path] == ds[0][path]
    decreases |ops|
  {
    hide Suggests;
    if ops != [] {
      var n := |ops|;
      NewerFileIsKept(ds[..n], ops[..n - 1], home, id, path);
      assert Step(ds[n - 1], ops[n - 1], ds[n], home, id);
    }
  }

  // ----- Interruptions

  /** A run that reads its decisions from one disk, the applied ids from a second and writes to a
      third, marks having landed in between. */
  ghost predicate RanAcross(d0: Disk, d1: Disk, d2: Disk, d': Disk, home: string, obs: seq<Session>,
                            id: string -> string) {
    var decisions := ReaderDecisions(d0, home);
    exists generated ::
      && Suggests(generated, obs, id, AppliedIn(ReaderDecisions(d1, home)))
      && d' == AfterWrite(d2, home, Rebuilt(generated, decisions), Whole)
  }

  /** What an overlapped run leaves of a decision that was on disk when it wrote: exactly if the last
      mark that was accepted while it was under way, if any, says what was said when it began, or, if
      a torn run came behind that mark, if nothing had been said. */
  lemma InterruptedRunKeepsExactly(ds: seq<Disk>, ops: seq<Op>, d1: Disk, d': Disk, home: string, obs: seq<Session>,
                                   id: string -> string, x: string)
    requires History(ds, ops, home, id) && RanAcross(ds[0], d1, ds[|ops|], d', home, obs, id)
    requires !IsNewer(ds[|ops|], home)
    ensures Stored(d', home, x) == Stored(ds[|ops|], home, x)
       <==> if TornSince(ds, ops, home, x) then Stored(ds[0], home, x).None?
            else LastAccepted(ds, ops, home, x) in {None, Stored(ds[0], home, x)}
  {
    AcrossStores(ds[0], d1, ds[|ops|], d', home, obs, id, x);
    hide Stored, RanAcross, IsNewer;
    StoredAfter(ds, ops, home, id, x);
  }

  lemma AcrossStores(d0: Disk, d1: Disk, d2: Disk, d': Disk, home: string, obs: seq<Session>, id: string -> string,
                     x: string)
    requires RanAcross(d0, d1, d2, d', home, obs, id) && !IsNewer(d2, home)
    ensures Stored(d', home, x) == Stored(d0, home, x)
  {
    hide Suggests;
  }

  /** So a mark that lands while a run is under way is lost, unless it says what was said already. */
  lemma MarkDuringRunIsLost(d0: Disk, d2: Disk, d': Disk, home: string, x: string, status: Status, obs: seq<Session>,
                            id: string -> string)
    requires d2 == AfterMark(d0, home, x, status, Lands) && CanMark(d0, home, x, status)
    requires RanAcross(d0, d0, d2, d', home, obs, id)
    ensures Stored(d2, home, x) == DecisionFor(status)
    ensures Stored(d', home, x) == Stored(d0, home, x)
  {
    hide Suggests, Marked;
    MarkStores(d0, home, x, status, Lands, x);
    TmpIsOther(home);
  }

  /** The targets a run judges if the reader has applied them. */
  ghost predicate WouldJudge(k: string, live: seq<Session>) {
    k in Targets(live) && IsSuggested(k, TallyOf(k, live)) && Judgeable(KindOf(k)) && Falls(k, live)
  }

  /** What is suggested is a verdict exactly for the targets that would be judged and are applied. */
  lemma VerdictsAreJudged(out: seq<Suggestion>, obs: seq<Session>, id: string -> string, applied: set<string>,
                          among: set<string>)
    requires Suggests(out, obs, id, applied)
    ensures (forall s :: s in out && s.status in {Verified, NotVerified} ==> s.id in among)
       <==> forall k :: WouldJudge(k, Live(obs)) && id(k) in applied ==> id(k) in among
  {
    hide Suggests, Live, TallyOf, SampleOf, Claim, IsSuggested, Judgement, Falls, Targets;
    var live := Live(obs);
    if forall k :: WouldJudge(k, live) && id(k) in applied ==> id(k) in among {
      forall s | s in out && s.status in {Verified, NotVerified}
        ensures s.id in among
      {
        VerdictExactly(out, obs, id, applied, s);
        var k :| k in Targets(live) && IsFor(s, k, live, id, applied) && IsJudged(s, k, live, id(k) in applied);
        assert WouldJudge(k, live);
      }
    }
    if forall s :: s in out && s.status in {Verified, NotVerified} ==> s.id in among {
      forall k | WouldJudge(k, live) && id(k) in applied
        ensures id(k) in among
      {
        var s := JudgedSuggestion(out, obs, id, applied, k);
      }
    }
  }

  lemma JudgedSuggestion(out: seq<Suggestion>, obs: seq<Session>, id: string -> string, applied: set<string>, k: string)
    returns (s: Suggestion)
    requires Suggests(out, obs, id, applied) && WouldJudge(k, Live(obs)) && id(k) in applied
    ensures s in out && s.id == id(k) && s.status in {Verified, NotVerified}
  {
    hide Suggests, Live, TallyOf, SampleOf, Claim, IsSuggested, Judgement, Falls, Targets;
    var live := Live(obs);
    TargetsHaveEvidence(k, live);
    s := SuggestionFor(k, TallyOf(k, live), Map(live, SampleOf(k)), id(k), true);
    assert IsFor(s, k, live, id, applied);
    SuggestedExactly(out, obs, id, applied, s);
    JudgementOf(s, k, live, id, applied);
  }

  /** And a mark that lands between the two reads can leave a verdict on disk that no decision backs:
      the statuses are backed exactly when every target that the run judges, and that was applied at
      the second read, was applied at the first one too. */
  lemma SplitReadBacksExactly(d0: Disk, d1: Disk, d2: Disk, d': Disk, home: string, obs: seq<Session>,
                              id: string -> string)
    requires RanAcross(d0, d1, d2, d', home, obs, id) && !IsNewer(d2, home) && TellsApart(id, Targets(Live(obs)))
    ensures home in d' && d'[home].Advice?
    ensures Consistent(d'[home])
       <==> forall k :: WouldJudge(k, Live(obs)) && id(k) in AppliedIn(ReaderDecisions(d1, home)) ==>
              id(k) in AppliedIn(ReaderDecisions(d0, home))
  {
    hide Suggests, TellsApart, Consistent, WouldJudge, Live, Targets, ReaderDecisions;
    var decisions, applied := ReaderDecisions(d0, home), AppliedIn(ReaderDecisions(d1, home));
    var generated: seq<Suggestion> :|
      Suggests(generated, obs, id, applied) && d' == AfterWrite(d2, home, Rebuilt(generated, decisions), Whole);
    GeneratedIds(generated, obs, id, applied);
    forall s | s in generated
      ensures s.status != Status.Applied && s.status != Dismissed
    {
      GeneratedIsBacked(generated, obs, id, applied, s);
    }
    RebuiltExactly(generated, decisions);
    VerdictsAreJudged(generated, obs, id, applied, AppliedIn(decisions));
  }

  // ----- Three sessions and one mark

  const TARGET := Key(ToolInputs, "bash")

  function SessionWith(at: int, share: real): Session {
    Session(at, map[TARGET := Evidence(at, share, 10, false, true, true, 0, 1.0)], map[], false)
  }

  /** A target at half of the prompt, and then at a fifth in the newest two sessions. */
  const FALLING := [SessionWith(1, 0.5), SessionWith(2, 0.2), SessionWith(3, 0.2)]

  lemma FallingIsLive()
    ensures Live(FALLING) == FALLING
  {
    hide Sort, Filter;
    SortOfOrdered(FALLING, ComesBefore);
    FilterOfKept(FALLING, Counts);
  }

  lemma FallingTargets()
    ensures TARGET in Targets(FALLING)
  {
    assert TARGET in FALLING[2].targets;
  }

  lemma MeanOf(xs: seq<Option<real>>, share: real)
    requires xs == [Some(share)] || xs == [Some(share), Some(share)]
    ensures SeenMean(xs) == share
  {
    assert [Some(share)][..0] == [];
    assert SeenSum([Some(share)]) == share && SeenCount([Some(share)]) == 1;
    if |xs| == 2 {
      assert xs[..|xs| - 1] == [Some(share)];
    }
  }

  lemma FallingFalls()
    ensures Falls(TARGET, FALLING)
  {
    hide SeenMean;
    var samples := Map(FALLING, SampleOf(TARGET));
    assert samples == [Some(0.5), Some(0.2), Some(0.2)];
    assert Earlier(samples) == [Some(0.5)] && Recent(samples) == [Some(0.2), Some(0.2)];
    MeanOf(Earlier(samples), 0.5);
    MeanOf(Recent(samples), 0.2);
    assert TARGET in FALLING[0].targets && TARGET in FALLING[1].targets;
  }

  lemma TargetIsAnInput()
    ensures KindOf(TARGET) == ToolInputs
  {
    hide Key, Cut;
    KeyRoundTrip(ToolInputs, "bash");
  }

  lemma FallingWouldBeJudged()
    ensures WouldJudge(TARGET, Live(FALLING))
  {
    hide TallyOf, Falls, Live, Targets, KindOf;
    FallingIsLive();
    FallingTargets();
    FallingFalls();
    TargetIsAnInput();
  }

  /** A file with one pending suggestion and no decision. */
  function Untouched(home: string, pending: Suggestion): Disk {
    map[home := Advice(SCHEMA, [pending], map[])]
  }

  lemma MarkTouches(home: string, pending: Suggestion)
    ensures var d0 := Untouched(home, pending);
            var d1 := AfterMark(d0, home, pending.id, Status.Applied, Lands);
            && CanMark(d0, home, pending.id, Status.Applied) && !IsNewer(d1, home)
            && pending.id !in AppliedIn(ReaderDecisions(d0, home))
            && pending.id in AppliedIn(ReaderDecisions(d1, home))
  {
    assert Find([pending], pending.id) == 0;
    TmpIsOther(home);
  }

  /** A run that reads its decisions from such a file, then the mark, then the run's second read: what
      it writes holds a verdict that no decision backs. */
  lemma MarkBetweenReadsIsUnbacked(home: string, id: string -> string, pending: Suggestion) returns (d': Disk)
    requires pending.id == id(TARGET) && TellsApart(id, Targets(Live(FALLING)))
    ensures var d0 := Untouched(home, pending);
            var d1 := AfterMark(d0, home, pending.id, Status.Applied, Lands);
            && CanMark(d0, home, pending.id, Status.Applied)
            && RanAcross(d0, d1, d1, d', home, FALLING, id)
            && home in d' && !Consistent(d'[home])
  {
    hide Suggests, Live, Targets, WouldJudge, Consistent, AfterMark, Untouched, ReaderDecisions, CanMark, TellsApart,
      IsNewer, AppliedIn;
    var d0 := Untouched(home, pending);
    var d1 := AfterMark(d0, home, pending.id, Status.Applied, Lands);
    MarkTouches(home, pending);
    var generated := SuggestionsExist(FALLING, id, AppliedIn(ReaderDecisions(d1, home)));
    d' := AfterWrite(d1, home, Rebuilt(generated, ReaderDecisions(d0, home)), Whole);
    assert RanAcross(d0, d1, d1, d', home, FALLING, id);
    FallingWouldBeJudged();
    SplitReadBacksExactly(d0, d1, d1, d', home, FALLING, id);
  }
}
