/** Turning observations into ranked suggestions, and judging the ones a reader has applied. */
module Suggesting {
  import opened Wrappers
  import opened Sorting
  import opened Strings
  import opened Observing

  // ----- One target across the corpus

  datatype Session = Session(
    at: int,
    targets: map<string, Evidence>,
    titles: map<string, seq<string>>,
    overAttributed: bool)

  /** What is accumulated for one target. */
  datatype Tally = Tally(
    evidence: seq<Evidence>,
    estimated: bool,
    tokens: int,
    readCount: int,
    usd: real,
    unpriced: nat,
    titles: seq<string>)

  const NO_TALLY := Tally([], false, 0, 0, 0.0, 0, [])

  function Add(t: Tally, ev: Evidence, titles: Option<seq<string>>): Tally {
    Tally(
      t.evidence + [ev],
      t.estimated || ev.estimated,
      t.tokens + ev.tokens,
      t.readCount + ev.readCount,
      t.usd + ev.usd,
      t.unpriced + (if ev.priced then 0 else 1),
      if titles.Some? then titles.value else t.titles)
  }

  function TitlesOf(s: Session, k: string): Option<seq<string>> {
    if k in s.titles then Some(s.titles[k]) else None
  }

  function TallyOf(k: string, live: seq<Session>): Tally {
    if live == [] then NO_TALLY
    else
      var before, last := TallyOf(k, live[..|live| - 1]), live[|live| - 1];
      if k in last.targets then Add(before, last.targets[k], TitlesOf(last, k)) else before
  }

  /** One session's reading of a target, if there was one. */
  function SampleOf(k: string): Session -> Option<real> {
    (s: Session) => if k in s.targets then Some(s.targets[k].share) else None
  }

  function Targets(live: seq<Session>): set<string> {
    if live == [] then {} else Targets(live[..|live| - 1]) + live[|live| - 1].targets.Keys
  }

  // ----- Judging

  datatype Status = Pending | Applied | Verified | NotVerified | AdviceOnly | Dismissed

  const RECENT_SESSIONS := 2
  const APPLIED_DROP := 0.2
  const VERIFY_SHARE := 0.5

  function SeenSum(xs: seq<Option<real>>): real {
    if xs == [] then 0.0
    else SeenSum(xs[..|xs| - 1]) + if xs[|xs| - 1].Some? then xs[|xs| - 1].value else 0.0
  }

  function SeenCount(xs: seq<Option<real>>): nat {
    if xs == [] then 0 else SeenCount(xs[..|xs| - 1]) + if xs[|xs| - 1].Some? then 1 else 0
  }

  /** The mean of the readings that exist. */
  function SeenMean(xs: seq<Option<real>>): real {
    if SeenCount(xs) == 0 then 0.0 else SeenSum(xs) / SeenCount(xs) as real
  }

  method MeanSeen(xs: seq<Option<real>>) returns (mean: real, n: nat)
    ensures n == SeenCount(xs) && mean == SeenMean(xs)
  {
    var sum := 0.0;
    n := 0;
    for i := 0 to |xs|
      invariant sum == SeenSum(xs[..i]) && n == SeenCount(xs[..i])
    {
      assert xs[..i + 1][..i] == xs[..i];
      if xs[i].None? {
        continue;
      }
      sum := sum + xs[i].value;
      n := n + 1;
    }
    assert xs[..|xs|] == xs;
    mean := if n == 0 then 0.0 else sum / n as real;
  }

  predicate Judgeable(kind: Kind) {
    kind != HotFile && kind != CacheBreaks
  }

  function Earlier(shares: seq<Option<real>>): seq<Option<real>> {
    if |shares| <= RECENT_SESSIONS then [] else shares[..|shares| - RECENT_SESSIONS]
  }

  function Recent(shares: seq<Option<real>>): seq<Option<real>> {
    if |shares| <= RECENT_SESSIONS then [] else shares[|shares| - RECENT_SESSIONS..]
  }

  /** The status of a suggestion and, once judged, the drop that was realized. */
  function Judgement(kind: Kind, shares: seq<Option<real>>, predicted: real, applied: bool): (Status, real) {
    if !Judgeable(kind) then (AdviceOnly, 0.0)
    else
      var before, after := SeenMean(Earlier(shares)), SeenMean(Recent(shares));
      if !applied || SeenCount(Earlier(shares)) == 0 || SeenCount(Recent(shares)) == 0
         || before == 0.0 || after > before * (1.0 - APPLIED_DROP)
      then (Pending, 0.0)
      else (if before - after >= VERIFY_SHARE * predicted then Verified else NotVerified, before - after)
  }

  method Track(kind: Kind, shares: seq<Option<real>>, predicted: real, applied: bool)
    returns (status: Status, realized: real)
    ensures (status, realized) == Judgement(kind, shares, predicted, applied)
  {
    if kind == HotFile || kind == CacheBreaks {
      return AdviceOnly, 0.0;
    }
    if !applied || |shares| <= RECENT_SESSIONS {
      return Pending, 0.0;
    }
    var before, nBefore := MeanSeen(shares[..|shares| - RECENT_SESSIONS]);
    var after, nAfter := MeanSeen(shares[|shares| - RECENT_SESSIONS..]);
    if nBefore == 0 || nAfter == 0 {
      return Pending, 0.0;
    }
    if before == 0.0 || after > before * (1.0 - APPLIED_DROP) {
      return Pending, 0.0;
    }
    realized := before - after;
    status := if realized >= VERIFY_SHARE * predicted then Verified else NotVerified;
  }

  // ----- Suggestions

  datatype Suggestion = Suggestion(
    id: string,
    kind: Kind,
    target: string,
    titles: seq<string>,
    sessions: nat,
    share: real,
    promptTokens: int,
    predictedShare: real,
    predictedTokens: int,
    writeReadUSD: real,
    unpricedSessions: nat,
    predictedUSD: real,
    estimated: bool,
    status: Status,
    realizedShare: real,
    firstSeen: int,
    lastSeen: int)

  const MIN_READS := 3
  const TRIM_SHARE := 0.5

  /** The kind a key names; the kinds are the only names in use. */
  function KindNamed(name: string): Kind {
    if name == Name(ToolInputs) then ToolInputs
    else if name == Name(LargeResults) then LargeResults
    else if name == Name(HotFile) then HotFile
    else if name == Name(FirstTurn) then FirstTurn
    else if name == Name(UnusedTools) then UnusedTools
    else CacheBreaks
  }

  function KindOf(k: string): Kind { KindNamed(Cut(k).0) }

  /** Division that drops the fraction, also of a negative dividend. */
  function Quotient(a: int, b: int): int
    requires b > 0
  {
    if a >= 0 then a / b else -(-a / b)
  }

  function ShareSum(evs: seq<Evidence>): real {
    if evs == [] then 0.0 else ShareSum(evs[..|evs| - 1]) + evs[|evs| - 1].share
  }

  function MeanShare(evs: seq<Evidence>): real
    requires evs != []
  {
    ShareSum(evs) / |evs| as real
  }

  /** What of the share, the tokens and the dollars of a target a suggestion can claim to remove: all
      reads of a file but the first, all of a break, half of anything else. */
  datatype Claimed = Claimed(share: real, predictedShare: real, tokens: int, usd: real)

  function RepeatedShare(share: real, r: int): real
    requires r > 0
  {
    share * ((r - 1) as real / r as real)
  }

  function RepeatedTokens(tokens: int, r: int): int
    requires r > 0
  {
    Quotient(tokens * (r - 1), r)
  }

  function RepeatedUSD(usd: real, r: int): real
    requires r > 0
  {
    usd * (r - 1) as real / r as real
  }

  function Claim(kind: Kind, t: Tally): Claimed
    requires t.evidence != [] && (kind == HotFile ==> t.readCount > 0)
  {
    var share := MeanShare(t.evidence);
    match kind
    case HotFile =>
      var r := t.readCount;
      Claimed(RepeatedShare(share, r), RepeatedShare(share, r), RepeatedTokens(t.tokens, r), RepeatedUSD(t.usd, r))
    case CacheBreaks => Claimed(share, share, t.tokens, t.usd)
    case _ => Claimed(share, TRIM_SHARE * share, Quotient(t.tokens, 2), TRIM_SHARE * t.usd)
  }

  function IsSuggested(k: string, t: Tally): bool {
    KindOf(k) == HotFile ==> t.readCount >= MIN_READS
  }

  function SuggestionFor(k: string, t: Tally, shares: seq<Option<real>>, id: string, applied: bool): Suggestion
    requires t.evidence != [] && IsSuggested(k, t)
  {
    var kind, c := KindOf(k), Claim(KindOf(k), t);
    var judged := Judgement(kind, shares, c.predictedShare, applied);
    Suggestion(id, kind, Cut(k).1, t.titles, |t.evidence|, c.share, t.tokens, c.predictedShare, c.tokens,
               t.usd, t.unpriced, c.usd, t.estimated, judged.0, judged.1,
               t.evidence[0].at, t.evidence[|t.evidence| - 1].at)
  }

  lemma {:induction false} TargetsHaveEvidence(k: string, live: seq<Session>)
    ensures k in Targets(live) <==> TallyOf(k, live).evidence != []
  {
    if live != [] {
      TargetsHaveEvidence(k, live[..|live| - 1]);
    }
  }

  function Candidates(keys: seq<string>, live: seq<Session>, id: string -> string,
                      applied: set<string>): seq<Suggestion>
    requires forall k :: k in keys ==> k in Targets(live)
  {
    if keys == [] then []
    else
      var k := keys[|keys| - 1];
      var front, t := Candidates(keys[..|keys| - 1], live, id, applied), TallyOf(k, live);
      TargetsHaveEvidence(k, live);
      if IsSuggested(k, t) then front + [SuggestionFor(k, t, Map(live, SampleOf(k)), id(k), id(k) in applied)]
      else front
  }

  predicate RanksAbove(a: Suggestion, b: Suggestion) {
    a.predictedUSD > b.predictedUSD
    || (a.predictedUSD == b.predictedUSD && a.predictedTokens > b.predictedTokens)
  }

  predicate ComesBefore(a: Session, b: Session) { a.at < b.at }

  predicate Counts(s: Session) { !s.overAttributed }

  /** The sessions that count, in order of time. */
  function Live(obs: seq<Session>): seq<Session> {
    Filter(Sort(obs, ComesBefore), Counts)
  }

  /** The suggestions that some observations lead to. */
  ghost predicate Suggests(out: seq<Suggestion>, obs: seq<Session>, id: string -> string, applied: set<string>) {
    exists keys :: Lists(keys, Targets(Live(obs)))
                   && out == Sort(Candidates(keys, Live(obs), id, applied), RanksAbove)
  }

  // ----- The code

  lemma TallyAppend(k: string, live: seq<Session>, s: Session)
    ensures TallyOf(k, live + [s])
         == if k in s.targets then Add(TallyOf(k, live), s.targets[k], TitlesOf(s, k)) else TallyOf(k, live)
    ensures Targets(live + [s]) == Targets(live) + s.targets.Keys
    ensures k !in Targets(live) ==> TallyOf(k, live) == NO_TALLY
  {
    assert (live + [s])[..|live|] == live;
    if k !in Targets(live) {
      UntouchedTally(k, live);
    }
  }

  ghost predicate Tallied(tallies: map<string, Tally>, live: seq<Session>) {
    tallies.Keys == Targets(live) && forall k :: k in tallies ==> tallies[k] == TallyOf(k, live)
  }

  ghost predicate Keyed(order: seq<string>, tallies: map<string, Tally>) {
    Distinct(order) && forall k :: k in order <==> k in tallies
  }

  /** The tallies with some of one session's targets still to be added. */
  ghost predicate Partly(tallies: map<string, Tally>, s: Session, todo: set<string>, live: seq<Session>) {
    && tallies.Keys == Targets(live) + (s.targets.Keys - todo)
    && (forall k :: k in tallies ==> tallies[k] == TallyOf(k, if k in todo then live else live + [s]))
  }

  lemma PartlyStarts(tallies: map<string, Tally>, s: Session, live: seq<Session>)
    requires Tallied(tallies, live)
    ensures Partly(tallies, s, s.targets.Keys, live)
  {
    forall k | k in tallies && k !in s.targets
      ensures TallyOf(k, live + [s]) == TallyOf(k, live)
    {
      TallyAppend(k, live, s);
    }
  }

  lemma PartlyGrows(tallies: map<string, Tally>, s: Session, todo: set<string>, k: string, live: seq<Session>)
    requires Partly(tallies, s, todo, live) && k in todo && todo <= s.targets.Keys
    ensures var t := if k in tallies then tallies[k] else NO_TALLY;
            Partly(tallies[k := Add(t, s.targets[k], TitlesOf(s, k))], s, todo - {k}, live)
  {
    hide Add, TallyOf, Targets;
    TallyAppend(k, live, s);
  }

  lemma PartlyEnds(tallies: map<string, Tally>, s: Session, live: seq<Session>)
    requires Partly(tallies, s, {}, live)
    ensures Tallied(tallies, live + [s])
  {
    TallyAppend("", live, s);
  }

  lemma KeyedAppend(order: seq<string>, tallies: map<string, Tally>, k: string, t: Tally)
    requires Keyed(order, tallies)
    ensures Keyed(if k in tallies then order else order + [k], tallies[k := t])
  {
  }

  /** One session's targets added to the tallies, in whatever order its map gives them out. */
  method AddSession(s: Session, tallies: map<string, Tally>, order: seq<string>, ghost live: seq<Session>)
    returns (tallies': map<string, Tally>, order': seq<string>)
    requires Tallied(tallies, live) && Keyed(order, tallies)
    ensures Tallied(tallies', live + [s]) && Keyed(order', tallies')
  {
    hide Add, Partly, Keyed, Tallied;
    tallies', order' := tallies, order;
    var todo := s.targets.Keys;
    PartlyStarts(tallies, s, live);
    while todo != {}
      invariant todo <= s.targets.Keys
      invariant Partly(tallies', s, todo, live) && Keyed(order', tallies')
      decreases |todo|
    {
      var k :| k in todo;
      PartlyGrows(tallies', s, todo, k, live);
      var t := NO_TALLY;
      if k in tallies' {
        t := tallies'[k];
      }
      t := Add(t, s.targets[k], TitlesOf(s, k));
      KeyedAppend(order', tallies', k, t);
      if k !in tallies' {
        order' := order' + [k];
      }
      tallies', todo := tallies'[k := t], todo - {k};
    }
    PartlyEnds(tallies', s, live);
  }

  lemma {:induction false} UntouchedTally(k: string, live: seq<Session>)
    requires k !in Targets(live)
    ensures TallyOf(k, live) == NO_TALLY
  {
    if live != [] {
      UntouchedTally(k, live[..|live| - 1]);
    }
  }

  method Aggregate(obs: seq<Session>) returns (tallies: map<string, Tally>, order: seq<string>)
    ensures Tallied(tallies, Filter(obs, Counts)) && Keyed(order, tallies)
  {
    tallies, order := map[], [];
    for n := 0 to |obs|
      invariant Tallied(tallies, Filter(obs[..n], Counts)) && Keyed(order, tallies)
    {
      assert obs[..n + 1] == obs[..n] + [obs[n]];
      FilterAppend(obs[..n], obs[n], Counts);
      if obs[n].overAttributed {
        continue;
      }
      tallies, order := AddSession(obs[n], tallies, order, Filter(obs[..n], Counts));
    }
    assert obs[..|obs|] == obs;
  }

  /** Every session that counts gives every target a sample, of nothing where it has no reading. */
  method SamplesOf(obs: seq<Session>, keys: set<string>) returns (shares: map<string, seq<Option<real>>>)
    ensures shares.Keys == keys
    ensures forall k :: k in keys ==> shares[k] == Map(Filter(obs, Counts), SampleOf(k))
  {
    hide Filter, Map;
    shares := map k | k in keys :: [];
    NothingKept(keys);
    for n := 0 to |obs|
      invariant shares.Keys == keys
      invariant forall k :: k in keys ==> shares[k] == Map(Filter(obs[..n], Counts), SampleOf(k))
    {
      assert obs[..n + 1] == obs[..n] + [obs[n]];
      FilterAppend(obs[..n], obs[n], Counts);
      if obs[n].overAttributed {
        continue;
      }
      var todo := keys;
      while todo != {}
        invariant todo <= keys && shares.Keys == keys
        invariant forall k :: k in keys ==>
                    shares[k] == Map(Filter(obs[..if k in todo then n else n + 1], Counts), SampleOf(k))
        decreases |todo|
      {
        var k :| k in todo;
        todo := todo - {k};
        MapAppend(Filter(obs[..n], Counts), obs[n], SampleOf(k));
        var sample := if k in obs[n].targets then Some(obs[n].targets[k].share) else None;
        shares := shares[k := shares[k] + [sample]];
      }
    }
    assert obs[..|obs|] == obs;
  }

  lemma NothingKept(keys: set<string>)
    ensures Filter([], Counts) == [] && forall k :: k in keys ==> Map([], SampleOf(k)) == []
  {
  }

  lemma CandidatesAppend(keys: seq<string>, k: string, live: seq<Session>, id: string -> string, applied: set<string>)
    requires k in Targets(live) && forall k' :: k' in keys ==> k' in Targets(live)
    ensures (forall k' :: k' in keys + [k] ==> k' in Targets(live)) && TallyOf(k, live).evidence != []
    ensures var front, t := Candidates(keys, live, id, applied), TallyOf(k, live);
            Candidates(keys + [k], live, id, applied)
            == if IsSuggested(k, t) then
                 front + [SuggestionFor(k, t, Map(live, SampleOf(k)), id(k), id(k) in applied)]
               else front
    ensures Candidates([], live, id, applied) == []
  {
    assert (keys + [k])[..|keys|] == keys;
    TargetsHaveEvidence(k, live);
  }

  method Suggest(obs: seq<Session>, id: string -> string, applied: set<string>) returns (out: seq<Suggestion>)
    ensures Suggests(out, obs, id, applied)
  {
    hide Candidates, TallyOf, Targets, Map, SuggestionFor, Precedes, Sort, Filter, SampleOf, Cut, KindNamed, Distinct,
      Ordered;
    var obs' := Sort(obs, ComesBefore);
    ghost var live := Live(obs);
    var tallies, order := Aggregate(obs');
    SortLists(order, Targets(live));
    order := Sort(order, Precedes);
    var shares := SamplesOf(obs', tallies.Keys);
    out := [];
    NoCandidates(live, id, applied);
    assert order[..0] == [] && order[..|order|] == order;
    for n := 0 to |order|
      invariant forall k :: k in order[..n] ==> k in Targets(live)
      invariant out == Candidates(order[..n], live, id, applied)
    {
      assert order[..n + 1] == order[..n] + [order[n]];
      var k := order[n];
      assert k in order;
      CandidatesAppend(order[..n], k, live, id, applied);
      var t := tallies[k];
      if KindOf(k) == HotFile && t.readCount < MIN_READS {
        continue;
      }
      var s := SuggestOne(k, t, shares[k], id(k), id(k) in applied);
      out := out + [s];
    }
    out := Sort(out, RanksAbove);
  }

  lemma NoCandidates(live: seq<Session>, id: string -> string, applied: set<string>)
    ensures Candidates([], live, id, applied) == []
  {
  }

  method SumShares(evs: seq<Evidence>) returns (share: real)
    ensures share == ShareSum(evs)
  {
    share := 0.0;
    for n := 0 to |evs|
      invariant share == ShareSum(evs[..n])
    {
      assert evs[..n + 1][..n] == evs[..n];
      share := share + evs[n].share;
    }
    assert evs[..|evs|] == evs;
  }

  method SuggestOne(k: string, t: Tally, shares: seq<Option<real>>, id: string, applied: bool) returns (s: Suggestion)
    requires t.evidence != [] && IsSuggested(k, t)
    ensures s == SuggestionFor(k, t, shares, id, applied)
  {
    hide Judgement, ShareSum, Cut, RepeatedShare, RepeatedTokens, RepeatedUSD;
    var kind := KindOf(k);
    var share := SumShares(t.evidence);
    share := share / |t.evidence| as real;
    var predictedShare, tokens, usd;
    if kind == HotFile {
      var r := t.readCount;
      share := RepeatedShare(share, r);
      predictedShare, tokens, usd := share, RepeatedTokens(t.tokens, r), RepeatedUSD(t.usd, r);
    } else if kind == CacheBreaks {
      predictedShare, tokens, usd := share, t.tokens, t.usd;
    } else {
      predictedShare, tokens, usd := TRIM_SHARE * share, Quotient(t.tokens, 2), TRIM_SHARE * t.usd;
    }
    var status, realized := Track(kind, shares, predictedShare, applied);
    s := Suggestion(id, kind, Cut(k).1, t.titles, |t.evidence|, share, t.tokens, predictedShare, tokens, t.usd,
                    t.unpriced, usd, t.estimated, status, realized,
                    t.evidence[0].at, t.evidence[|t.evidence| - 1].at);
  }

  // ----- What the suggestions do not depend on

  /** The maps a run walks have no order of their own, and the suggestions do not get one from them:
      there is one possible result. */
  lemma OneResult(a: seq<Suggestion>, b: seq<Suggestion>, obs: seq<Session>, id: string -> string, applied: set<string>)
    requires Suggests(a, obs, id, applied) && Suggests(b, obs, id, applied)
    ensures a == b
  {
    hide Candidates, Targets, Live, Distinct, Ordered;
    var k1 :| Lists(k1, Targets(Live(obs))) && a == Sort(Candidates(k1, Live(obs), id, applied), RanksAbove);
    var k2 :| Lists(k2, Targets(Live(obs))) && b == Sort(Candidates(k2, Live(obs), id, applied), RanksAbove);
    ListingIsUnique(k1, k2, Targets(Live(obs)));
  }

  lemma LiveIsSortedLast(obs: seq<Session>)
    ensures Live(obs) == Sort(Filter(obs, Counts), ComesBefore)
  {
    FilterOfSort(obs, ComesBefore, Counts);
  }

  /** Sessions that were set aside contribute nothing, whatever they still hold: leaving them out
      changes no suggestion. */
  lemma SetAsideContributesNothing(out: seq<Suggestion>, obs: seq<Session>, id: string -> string, applied: set<string>)
    ensures Suggests(out, obs, id, applied) <==> Suggests(out, Filter(obs, Counts), id, applied)
  {
    hide Live, Suggests;
    LiveIsSortedLast(obs);
    LiveIsSortedLast(Filter(obs, Counts));
    FilterAre(obs, Counts);
    FilterOfKept(Filter(obs, Counts), Counts);
    SameLiveSameSuggestions(out, obs, Filter(obs, Counts), id, applied);
  }

  /** The order in which sessions were read does not matter, where their times tell those that count
      apart. */
  lemma ReadingOrderIsNoMatter(out: seq<Suggestion>, a: seq<Session>, b: seq<Session>, id: string -> string,
                               applied: set<string>)
    requires multiset(a) == multiset(b)
    requires forall s, t :: s in a && t in a && Counts(s) && Counts(t) && s.at == t.at ==> s == t
    ensures Suggests(out, a, id, applied) <==> Suggests(out, b, id, applied)
  {
    hide Live, Candidates, Filter, Lists, Targets, Sort;
    LiveIsSortedLast(a);
    LiveIsSortedLast(b);
    FilterIgnoresOrder(a, b, Counts);
    FilterAre(a, Counts);
    TimesAreStrictWeak();
    SortIgnoresOrder(Filter(a, Counts), Filter(b, Counts), ComesBefore);
    SameLiveSameSuggestions(out, a, b, id, applied);
  }

  lemma TimesAreStrictWeak()
    ensures StrictWeak(ComesBefore)
  {
  }

  lemma SameLiveSameSuggestions(out: seq<Suggestion>, a: seq<Session>, b: seq<Session>, id: string -> string,
                                applied: set<string>)
    requires Live(a) == Live(b)
    ensures Suggests(out, a, id, applied) <==> Suggests(out, b, id, applied)
  {
    hide Live, Candidates, Targets, Lists;
  }

  // ----- What every suggestion is

  ghost predicate IsFor(s: Suggestion, k: string, live: seq<Session>, id: string -> string, applied: set<string>) {
    var t := TallyOf(k, live);
    && t.evidence != [] && IsSuggested(k, t)
    && s == SuggestionFor(k, t, Map(live, SampleOf(k)), id(k), id(k) in applied)
  }

  lemma {:induction false} CandidateIsFor(keys: seq<string>, live: seq<Session>, id: string -> string,
                                          applied: set<string>, s: Suggestion)
    requires forall k :: k in keys ==> k in Targets(live)
    ensures s in Candidates(keys, live, id, applied) <==> exists k :: k in keys && IsFor(s, k, live, id, applied)
  {
    hide TallyOf, Targets, SuggestionFor, IsSuggested, Candidates;
    if keys == [] {
      NoCandidates(live, id, applied);
    } else {
      var front, k := keys[..|keys| - 1], keys[|keys| - 1];
      assert keys == front + [k];
      CandidateIsFor(front, live, id, applied, s);
      CandidatesAppend(front, k, live, id, applied);
      LastIsFor(front, k, live, id, applied, s);
      hide IsFor;
      if s in Candidates(front, live, id, applied) {
        var k' :| k' in front && IsFor(s, k', live, id, applied);
        assert k' in keys;
      } else if s in Candidates(keys, live, id, applied) {
        assert k in keys;
      }
      if k' :| k' in keys && IsFor(s, k', live, id, applied) {
        assert k' == k || k' in front;
      }
    }
  }

  /** The last key adds the one suggestion that is for it, if there is one. */
  lemma LastIsFor(keys: seq<string>, k: string, live: seq<Session>, id: string -> string, applied: set<string>,
                  s: Suggestion)
    requires k in Targets(live) && forall k' :: k' in keys ==> k' in Targets(live)
    ensures forall k' :: k' in keys + [k] ==> k' in Targets(live)
    ensures s in Candidates(keys + [k], live, id, applied)
       <==> s in Candidates(keys, live, id, applied) || IsFor(s, k, live, id, applied)
  {
    hide TallyOf, Targets, SuggestionFor, IsSuggested, Candidates;
    CandidatesAppend(keys, k, live, id, applied);
  }

  /** A target is suggested exactly when a session that counts holds it and, if it is a file, it was
      read often enough; and the suggestion is the one made of all the evidence for it. */
  lemma SuggestedExactly(out: seq<Suggestion>, obs: seq<Session>, id: string -> string, applied: set<string>,
                         s: Suggestion)
    requires Suggests(out, obs, id, applied)
    ensures s in out <==> exists k :: k in Targets(Live(obs)) && IsFor(s, k, Live(obs), id, applied)
  {
    hide Candidates, TallyOf, Targets, IsFor, Live;
    var live := Live(obs);
    var keys :| Lists(keys, Targets(live)) && out == Sort(Candidates(keys, live, id, applied), RanksAbove);
    CandidateIsFor(keys, live, id, applied, s);
    SameElements(out, Candidates(keys, live, id, applied), s);
  }

  /** The list is ranked by predicted dollars, and by predicted tokens where those are equal. */
  lemma Ranked(out: seq<Suggestion>, obs: seq<Session>, id: string -> string, applied: set<string>, i: nat, j: nat)
    requires Suggests(out, obs, id, applied) && i < j < |out|
    ensures out[i].predictedUSD >= out[j].predictedUSD
    ensures out[i].predictedUSD == out[j].predictedUSD ==> out[i].predictedTokens >= out[j].predictedTokens
  {
    hide Candidates;
    var keys :| Lists(keys, Targets(Live(obs))) && out == Sort(Candidates(keys, Live(obs), id, applied), RanksAbove);
    RankingIsStrictWeak();
    SortOrders(Candidates(keys, Live(obs), id, applied), RanksAbove);
    assert !RanksAbove(out[j], out[i]);
  }

  lemma RankingIsStrictWeak()
    ensures StrictWeak(RanksAbove)
  {
  }

  // ----- When a target was seen

  /** Evidence carries the time of its session. */
  ghost predicate Stamped(live: seq<Session>) {
    forall s, k :: s in live && k in s.targets ==> s.targets[k].at == s.at
  }

  lemma {:induction false} EvidenceIsInOrder(k: string, live: seq<Session>)
    requires Stamped(live) && Ordered(live, ComesBefore)
    ensures var evs := TallyOf(k, live).evidence;
            && (forall i, j :: 0 <= i < j < |evs| ==> evs[i].at <= evs[j].at)
            && (forall s :: s in live && k in s.targets ==> s.targets[k] in evs)
            && (forall ev :: ev in evs ==> exists s :: s in live && s.at == ev.at)
  {
    hide ComesBefore;
    if live != [] {
      var front, last := live[..|live| - 1], live[|live| - 1];
      assert live == front + [last] && last in live;
      EvidenceIsInOrder(k, front);
      var evs := TallyOf(k, front).evidence;
      forall ev | ev in evs
        ensures ev.at <= last.at
        ensures exists s :: s in live && s.at == ev.at
      {
        var s :| s in front && s.at == ev.at;
        assert s in live;
        NotAfterLast(live, s);
      }
    }
  }

  lemma NotAfterLast(live: seq<Session>, s: Session)
    requires s in live && Ordered(live, ComesBefore)
    ensures s.at <= live[|live| - 1].at
  {
    var i :| 0 <= i < |live| && live[i] == s;
    assert i == |live| - 1 || !ComesBefore(live[|live| - 1], live[i]);
  }

  /** FirstSeen and LastSeen are the times of the first and the last session that hold the target. */
  lemma SeenFromFirstToLast(obs: seq<Session>, id: string -> string, applied: set<string>,
                            s: Suggestion, k: string, held: Session)
    requires IsFor(s, k, Live(obs), id, applied) && Stamped(Live(obs))
    requires held in Live(obs) && k in held.targets
    ensures s.firstSeen <= held.at <= s.lastSeen
  {
    TimesAreStrictWeak();
    SortOrders(obs, ComesBefore);
    FilterKeepsOrder(Sort(obs, ComesBefore), ComesBefore, Counts);
    EvidenceIsInOrder(k, Live(obs));
    hide TallyOf, Live, Claim, Judgement, IsSuggested;
    var evs := TallyOf(k, Live(obs)).evidence;
    var i :| 0 <= i < |evs| && evs[i] == held.targets[k];
  }

  // ----- Bounds

  ghost predicate AreBounded(evs: seq<Evidence>) {
    forall ev :: ev in evs ==> Bounded(ev)
  }

  ghost predicate HoldBounded(live: seq<Session>) {
    forall s, k :: s in live && k in s.targets ==> Bounded(s.targets[k])
  }

  lemma {:induction false} TallyIsBounded(k: string, live: seq<Session>)
    requires HoldBounded(live)
    ensures var t := TallyOf(k, live);
            AreBounded(t.evidence) && t.tokens >= 0 && t.usd >= 0.0 && t.readCount >= 0 && t.unpriced <= |t.evidence|
  {
    if live != [] {
      var front, last := live[..|live| - 1], live[|live| - 1];
      assert live == front + [last];
      TallyIsBounded(k, front);
      if k in last.targets {
        assert last in live && Bounded(last.targets[k]);
      }
    }
  }

  lemma {:induction false} ShareSumIsBounded(evs: seq<Evidence>)
    requires AreBounded(evs)
    ensures 0.0 <= ShareSum(evs) <= |evs| as real
  {
    if evs != [] {
      var front, last := evs[..|evs| - 1], evs[|evs| - 1];
      assert evs == front + [last] && Bounded(last);
      ShareSumIsBounded(front);
    }
  }

  lemma QuotientIsPart(sum: real, n: int)
    requires n > 0 && 0.0 <= sum <= n as real
    ensures 0.0 <= sum / n as real <= 1.0
  {
    var q := sum / n as real;
    assert q * n as real == sum;
    assert q < 0.0 ==> q * n as real < 0.0;
    assert q > 1.0 ==> q * n as real > n as real;
  }

  /** A part of an amount that is not negative. */
  lemma PartOf(x: real, part: real)
    requires x >= 0.0 && 0.0 <= part <= 1.0
    ensures 0.0 <= x * part <= x
  {
  }

  lemma ClaimIsBounded(kind: Kind, t: Tally)
    requires t.evidence != [] && (kind == HotFile ==> t.readCount > 0)
    requires AreBounded(t.evidence) && t.tokens >= 0 && t.usd >= 0.0
    ensures var c := Claim(kind, t);
            0.0 <= c.predictedShare <= c.share <= 1.0 && 0 <= c.tokens <= t.tokens && 0.0 <= c.usd <= t.usd
  {
    hide AreBounded, MeanShare, RepeatedShare, RepeatedTokens, RepeatedUSD;
    MeanShareIsBounded(t.evidence);
    if kind == HotFile {
      RepeatShare(MeanShare(t.evidence), t.readCount);
      RepeatDollars(t.usd, t.readCount);
      RepeatTokens(t.tokens, t.readCount);
    }
  }

  lemma MeanShareIsBounded(evs: seq<Evidence>)
    requires evs != [] && AreBounded(evs)
    ensures 0.0 <= MeanShare(evs) <= 1.0
  {
    ShareSumIsBounded(evs);
    QuotientIsPart(ShareSum(evs), |evs|);
  }

  lemma RepeatShare(share: real, r: int)
    requires 0.0 <= share <= 1.0 && r > 0
    ensures 0.0 <= RepeatedShare(share, r) <= share
  {
    QuotientIsPart((r - 1) as real, r);
    PartOf(share, (r - 1) as real / r as real);
  }

  lemma RepeatDollars(usd: real, r: int)
    requires usd >= 0.0 && r > 0
    ensures 0.0 <= RepeatedUSD(usd, r) <= usd
  {
    QuotientIsPart((r - 1) as real, r);
    var part := (r - 1) as real / r as real;
    PartOf(usd, part);
    MultiplyThenDivide(usd, (r - 1) as real, r as real);
  }

  lemma MultiplyThenDivide(x: real, y: real, z: real)
    requires z > 0.0
    ensures x * y / z == x * (y / z)
  {
    var q := y / z;
    assert q * z == y;
    assert x * y == x * (q * z) == (x * q) * z;
  }

  lemma RepeatTokens(tokens: int, r: int)
    requires tokens >= 0 && r > 0
    ensures 0 <= RepeatedTokens(tokens, r) <= tokens
  {
    var a := tokens * (r - 1);
    Product(tokens, r - 1);
    assert a == tokens * r - tokens;
    DivideWithin(a, r, tokens);
  }

  lemma Product(x: int, y: int)
    requires x >= 0 && y >= 0
    ensures x * y >= 0
  {
  }

  lemma TimesMore(q: int, r: int, limit: int)
    requires q > limit && r > 0
    ensures q * r >= limit * r + r
  {
    Product(q - limit - 1, r);
    assert (q - limit - 1) * r == q * r - limit * r - r;
  }

  lemma DivideWithin(a: int, r: int, limit: int)
    requires r > 0 && 0 <= a <= limit * r
    ensures 0 <= a / r <= limit
  {
    var q := a / r;
    assert q * r <= a < q * r + r;
    if q > limit {
      TimesMore(q, r, limit);
      assert false;
    }
    if q < 0 {
      TimesMore(0, r, q);
      assert false;
    }
  }

  /** No suggestion promises more than it found: the predicted share, tokens and dollars are at most
      the target's own, and the share is a share of the prompt. */
  lemma PredictionsAreWithinEvidence(out: seq<Suggestion>, obs: seq<Session>, id: string -> string,
                                     applied: set<string>, s: Suggestion)
    requires Suggests(out, obs, id, applied) && HoldBounded(Live(obs)) && s in out
    ensures 0.0 <= s.predictedShare <= s.share <= 1.0
    ensures 0 <= s.predictedTokens <= s.promptTokens
    ensures 0.0 <= s.predictedUSD <= s.writeReadUSD
    ensures 0 < s.sessions && s.unpricedSessions <= s.sessions
  {
    hide Suggests, Live, TallyOf, Claim, Judgement, HoldBounded, AreBounded;
    SuggestedExactly(out, obs, id, applied, s);
    var k :| k in Targets(Live(obs)) && IsFor(s, k, Live(obs), id, applied);
    TallyIsBounded(k, Live(obs));
    ClaimIsBounded(KindOf(k), TallyOf(k, Live(obs)));
  }

  /** A session as it is observed: from events that are counts, under prices that are not negative. */
  ghost predicate IsObserved(s: Session) {
    exists lane: Lane, events: seq<Event> :: ObservedAs(s, lane, events)
  }

  ghost predicate ObservedAs(s: Session, lane: Lane, events: seq<Event>) {
    && lane.prompt > 0 && (forall i :: 0 <= i < |events| ==> SoundEvent(events[i]))
    && (lane.price.Some? ==> lane.price.value.inputPerMTok >= 0.0 && lane.price.value.readMult >= 0.0)
    && var h := AfterAll(Holding(map[], false), events, lane);
       s.at == lane.at && s.targets == h.targets && s.overAttributed == h.overAttributed
  }

  lemma ObservedIsBounded(live: seq<Session>)
    requires forall s :: s in live ==> IsObserved(s)
    ensures HoldBounded(live) && Stamped(live)
  {
    hide ObservedAs, Bounded;
    forall s | s in live
      ensures forall k :: k in s.targets ==> Bounded(s.targets[k]) && s.targets[k].at == s.at
    {
      var lane: Lane, events: seq<Event> :| ObservedAs(s, lane, events);
      OneObservedIsBounded(s, lane, events);
    }
  }

  lemma OneObservedIsBounded(s: Session, lane: Lane, events: seq<Event>)
    requires ObservedAs(s, lane, events)
    ensures forall k :: k in s.targets ==> Bounded(s.targets[k]) && s.targets[k].at == s.at
  {
    hide AfterAll, Bounded;
    KeptIsBounded(events, lane);
    KeptIsStamped(events, lane);
  }

  /** So whatever is suggested of sessions that were observed is within its evidence, and was seen
      from FirstSeen to LastSeen. */
  lemma ObservedPredictions(out: seq<Suggestion>, obs: seq<Session>, id: string -> string, applied: set<string>,
                            s: Suggestion)
    requires Suggests(out, obs, id, applied) && s in out && forall o :: o in obs ==> IsObserved(o)
    ensures 0.0 <= s.predictedShare <= s.share <= 1.0
    ensures 0 <= s.predictedTokens <= s.promptTokens
    ensures 0.0 <= s.predictedUSD <= s.writeReadUSD
    ensures exists k :: && k in Targets(Live(obs)) && IsFor(s, k, Live(obs), id, applied)
                        && forall held :: held in Live(obs) && k in held.targets ==>
                             s.firstSeen <= held.at <= s.lastSeen
  {
    hide Suggests, Live, IsObserved, HoldBounded, Stamped, IsFor, Targets;
    forall o | o in Live(obs)
      ensures IsObserved(o)
    {
      LiveAreAmong(obs, o);
    }
    ObservedIsBounded(Live(obs));
    PredictionsAreWithinEvidence(out, obs, id, applied, s);
    SuggestedExactly(out, obs, id, applied, s);
    var k :| k in Targets(Live(obs)) && IsFor(s, k, Live(obs), id, applied);
    forall held | held in Live(obs) && k in held.targets
      ensures s.firstSeen <= held.at <= s.lastSeen
    {
      SeenFromFirstToLast(obs, id, applied, s, k, held);
    }
  }

  lemma LiveAreAmong(obs: seq<Session>, o: Session)
    requires o in Live(obs)
    ensures o in obs && Counts(o)
  {
    FilterAre(Sort(obs, ComesBefore), Counts);
    SameElements(Sort(obs, ComesBefore), obs, o);
  }

  // ----- What a verdict stands on

  lemma {:induction false} SeenSomewhere(xs: seq<Option<real>>)
    ensures SeenCount(xs) > 0 <==> exists i :: 0 <= i < |xs| && xs[i].Some?
  {
    if xs != [] {
      var front := xs[..|xs| - 1];
      SeenSomewhere(front);
      if i :| 0 <= i < |front| && front[i].Some? {
        assert xs[i].Some?;
      }
      if i :| 0 <= i < |xs| && xs[i].Some? {
        assert i < |front| ==> front[i].Some?;
      }
    }
  }

  /** Does a session among those from `from` up to `to` hold the target? */
  ghost predicate HeldBetween(k: string, live: seq<Session>, from: int, to: int) {
    exists i :: from <= i < to && 0 <= i < |live| && k in live[i].targets
  }

  /** A suggestion is judged exactly when its kind can be, the reader applied it, the target was seen
      both before and in the newest two sessions, and its mean share fell by at least a fifth. It is
      verified exactly when moreover the fall is at least half of what was predicted. */
  lemma VerdictExactly(out: seq<Suggestion>, obs: seq<Session>, id: string -> string, applied: set<string>,
                       s: Suggestion)
    requires Suggests(out, obs, id, applied) && s in out
    ensures exists k :: && k in Targets(Live(obs)) && IsFor(s, k, Live(obs), id, applied)
                        && IsJudged(s, k, Live(obs), id(k) in applied)
  {
    hide Suggests, Live, Targets, TallyOf, Claim, IsSuggested, SeenMean, SeenCount, Map;
    SuggestedExactly(out, obs, id, applied, s);
    var live := Live(obs);
    var k :| k in Targets(live) && IsFor(s, k, live, id, applied);
    JudgementOf(s, k, live, id, applied);
  }

  /** Was the target seen before the newest two sessions and in them, and did its mean share fall by at
      least a fifth? */
  ghost predicate Falls(k: string, live: seq<Session>) {
    var n, samples := |live|, Map(live, SampleOf(k));
    var before, after := SeenMean(Earlier(samples)), SeenMean(Recent(samples));
    && HeldBetween(k, live, 0, n - RECENT_SESSIONS) && HeldBetween(k, live, n - RECENT_SESSIONS, n)
    && n > RECENT_SESSIONS && before != 0.0 && after <= 0.8 * before
  }

  ghost predicate IsJudged(s: Suggestion, k: string, live: seq<Session>, applied: bool) {
    var n, samples := |live|, Map(live, SampleOf(k));
    var before, after := SeenMean(Earlier(samples)), SeenMean(Recent(samples));
    var judged := Judgeable(s.kind) && applied && Falls(k, live);
    && (s.status == Verified <==> judged && s.realizedShare >= VERIFY_SHARE * s.predictedShare)
    && (s.status == NotVerified <==> judged && s.realizedShare < VERIFY_SHARE * s.predictedShare)
    && (s.status == AdviceOnly <==> !Judgeable(s.kind))
    && (judged ==> s.realizedShare == before - after)
    && s.status != Status.Applied && s.status != Dismissed
  }

  lemma HeldIsSeen(k: string, live: seq<Session>)
    ensures var n, samples := |live|, Map(live, SampleOf(k));
            && (n <= RECENT_SESSIONS ==> SeenCount(Earlier(samples)) == SeenCount(Recent(samples)) == 0)
            && (n > RECENT_SESSIONS ==>
                  && (HeldBetween(k, live, 0, n - RECENT_SESSIONS) <==> SeenCount(Earlier(samples)) > 0)
                  && (HeldBetween(k, live, n - RECENT_SESSIONS, n) <==> SeenCount(Recent(samples)) > 0))
  {
    hide SeenCount;
    var n, samples := |live|, Map(live, SampleOf(k));
    SeenSomewhere(Earlier(samples));
    SeenSomewhere(Recent(samples));
    if n > RECENT_SESSIONS {
      assert forall i :: 0 <= i < n - 2 ==> (Earlier(samples)[i].Some? <==> k in live[i].targets);
      assert forall i :: 0 <= i < 2 ==> (Recent(samples)[i].Some? <==> k in live[n - 2 + i].targets);
      if j :| n - 2 <= j < n && k in live[j].targets {
        assert Recent(samples)[j - (n - 2)].Some?;
      }
    }
  }

  lemma JudgementOf(s: Suggestion, k: string, live: seq<Session>, id: string -> string, applied: set<string>)
    requires IsFor(s, k, live, id, applied)
    ensures IsJudged(s, k, live, id(k) in applied)
  {
    hide TallyOf, Claim, IsSuggested, SeenMean, SeenCount, Earlier, Recent, HeldBetween, Map;
    HeldIsSeen(k, live);
  }

  // ----- There always is a result

  lemma SuggestionsExist(obs: seq<Session>, id: string -> string, applied: set<string>) returns (out: seq<Suggestion>)
    ensures Suggests(out, obs, id, applied)
  {
    hide Candidates, Targets, Live, Sort, Precedes, Distinct;
    var keys := SomeOrder(Targets(Live(obs)));
    SortLists(keys, Targets(Live(obs)));
    keys := Sort(keys, Precedes);
    assert forall k :: k in keys ==> k in Targets(Live(obs));
    out := Sort(Candidates(keys, Live(obs), id, applied), RanksAbove);
  }
}
