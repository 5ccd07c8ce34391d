/** What one session contributes to the advice: targets with their share of the prompt, and when the
    whole session is set aside. */
module Observing {
  import opened Wrappers
  import opened Sorting

  datatype Kind = ToolInputs | LargeResults | HotFile | FirstTurn | UnusedTools | CacheBreaks

  function Name(kind: Kind): string {
    match kind
    case ToolInputs => "tool-inputs"
    case LargeResults => "large-results"
    case HotFile => "hot-file"
    case FirstTurn => "first-turn-content"
    case UnusedTools => "unused-tools"
    case CacheBreaks => "cache-breaks"
  }

  /** The map key of a target: the kind's name, a zero character, the target's name. */
  function Key(kind: Kind, target: string): string {
    Name(kind) + "\0" + target
  }

  /** The part of a key before the first zero character, and the part behind it. */
  function Cut(key: string): (string, string) {
    if key == "" then ("", "")
    else if key[0] == '\0' then ("", key[1..])
    else var rest := Cut(key[1..]); ([key[0]] + rest.0, rest.1)
  }

  lemma {:induction false} CutBehind(name: string, target: string)
    requires '\0' !in name
    ensures Cut(name + "\0" + target) == (name, target)
  {
    if name == "" {
      assert (name + "\0" + target)[1..] == target;
    } else {
      assert name[0] in name && name == [name[0]] + name[1..];
      CutBehind(name[1..], target);
      assert (name + "\0" + target)[1..] == name[1..] + "\0" + target;
    }
  }

  /** A key gives back the kind and the target it was made from, whatever the target is called. */
  lemma KeyRoundTrip(kind: Kind, target: string)
    ensures Cut(Key(kind, target)) == (Name(kind), target)
  {
    CutBehind(Name(kind), target);
  }

  lemma KeysDiffer(k1: Kind, t1: string, k2: Kind, t2: string)
    requires Key(k1, t1) == Key(k2, t2)
    ensures k1 == k2 && t1 == t2
  {
    KeyRoundTrip(k1, t1);
    KeyRoundTrip(k2, t2);
    assert Name(k1) == Name(k2);
    assert |Name(k1)| == |Name(k2)| && Name(k1)[0] == Name(k2)[0];
  }

  const MIN_SHARE := 0.10

  datatype Figure = Figure(value: int, errorMeasured: bool)

  datatype Evidence = Evidence(
    at: int,
    share: real,
    tokens: int,
    estimated: bool,
    priced: bool,
    errorMeasured: bool,
    readCount: int,
    usd: real)

  /** A price per million input tokens, and the multiple at which a cache read bills. */
  datatype Price = Price(inputPerMTok: real, readMult: real)

  /** What prefix tokens bill at: as cache reads, except that a break re-bills at the input rate. */
  function CacheTraffic(kind: Kind, tokens: int, price: Option<Price>): (real, bool) {
    if tokens <= 0 then (0.0, true)
    else
      match price
      case None => (0.0, false)
      case Some(p) =>
        var mtok := tokens as real / 1_000_000.0;
        (if kind == CacheBreaks then mtok * p.inputPerMTok else mtok * p.inputPerMTok * p.readMult, true)
  }

  /** The session an observation is of. */
  datatype Lane = Lane(at: int, prompt: int, price: Option<Price>)

  /** One call made while a session is read. */
  datatype Event =
    | Noted(kind: Kind, target: string, tokens: Figure, estimated: bool)
    | Read(name: string, value: int, occurrences: int)

  /** What an observation holds. */
  datatype Holding = Holding(targets: map<string, Evidence>, overAttributed: bool)

  function Share(tokens: int, lane: Lane): real
    requires lane.prompt != 0
  {
    tokens as real / lane.prompt as real
  }

  predicate HasThreshold(kind: Kind) {
    kind != CacheBreaks && kind != FirstTurn
  }

  const NO_EVIDENCE := Evidence(0, 0.0, 0, false, false, false, 0, 0.0)

  function NotedEvidence(lane: Lane, kind: Kind, tokens: Figure, estimated: bool): Evidence
    requires lane.prompt != 0
  {
    var (usd, priced) := CacheTraffic(kind, tokens.value, lane.price);
    Evidence(lane.at, Share(tokens.value, lane), tokens.value, estimated, priced, tokens.errorMeasured, 0, usd)
  }

  function ReadEvidence(lane: Lane, before: Evidence, value: int, occurrences: int): Evidence
    requires lane.prompt != 0
  {
    var tokens := before.tokens + value;
    var (usd, priced) := CacheTraffic(HotFile, tokens, lane.price);
    before.(at := lane.at, estimated := true, tokens := tokens, share := Share(tokens, lane),
            readCount := before.readCount + occurrences, usd := usd, priced := priced)
  }

  function After(h: Holding, e: Event, lane: Lane): Holding
    requires lane.prompt != 0
  {
    match e
    case Noted(kind, target, tokens, estimated) =>
      if Share(tokens.value, lane) > 1.0 then Holding(map[], true)
      else if (HasThreshold(kind) && Share(tokens.value, lane) < MIN_SHARE) || tokens.value <= 0 then h
      else h.(targets := h.targets[Key(kind, target) := NotedEvidence(lane, kind, tokens, estimated)])
    case Read(name, value, occurrences) =>
      var key := Key(HotFile, name);
      var ev := ReadEvidence(lane, if key in h.targets then h.targets[key] else NO_EVIDENCE, value, occurrences);
      if ev.share > 1.0 then Holding(map[], true) else h.(targets := h.targets[key := ev])
  }

  class Observation {
    const lane: Lane
    var targets: map<string, Evidence>
    var overAttributed: bool

    ghost function Held(): Holding
      reads this
    {
      Holding(targets, overAttributed)
    }

    constructor (lane: Lane)
      ensures this.lane == lane && Held() == Holding(map[], false)
    {
      this.lane := lane;
      targets, overAttributed := map[], false;
    }

    method SetAside()
      modifies this
      ensures Held() == Holding(map[], true)
    {
      overAttributed := true;
      targets := map[];
    }

    method Note(kind: Kind, target: string, tokens: Figure, estimated: bool)
      requires lane.prompt != 0
      modifies this
      ensures Held() == After(old(Held()), Noted(kind, target, tokens, estimated), lane)
    {
      var share := tokens.value as real / lane.prompt as real;
      if share > 1.0 {
        SetAside();
        return;
      }
      if kind != CacheBreaks && kind != FirstTurn && share < MIN_SHARE {
        return;
      }
      if tokens.value <= 0 {
        return;
      }
      var (usd, priced) := CacheTraffic(kind, tokens.value, lane.price);
      targets := targets[Key(kind, target) :=
        Evidence(lane.at, share, tokens.value, estimated, priced, tokens.errorMeasured, 0, usd)];
    }

    method NoteReads(name: string, value: int, occurrences: int)
      requires lane.prompt != 0
      modifies this
      ensures Held() == After(old(Held()), Read(name, value, occurrences), lane)
    {
      var k := Key(HotFile, name);
      var ev := if k in targets then targets[k] else NO_EVIDENCE;
      ev := ev.(at := lane.at, estimated := true);
      ev := ev.(tokens := ev.tokens + value);
      ev := ev.(share := ev.tokens as real / lane.prompt as real);
      ev := ev.(readCount := ev.readCount + occurrences);
      if ev.share > 1.0 {
        SetAside();
        return;
      }
      var (usd, priced) := CacheTraffic(HotFile, ev.tokens, lane.price);
      ev := ev.(usd := usd, priced := priced);
      targets := targets[k := ev];
    }

    /** Everything a session has to say, in whatever order the maps it is kept in give it out. */
    method Observe(events: seq<Event>)
      requires lane.prompt != 0
      modifies this
      ensures Held() == AfterAll(old(Held()), events, lane)
    {
      for n := 0 to |events|
        invariant Held() == AfterAll(old(Held()), events[..n], lane)
      {
        assert events[..n + 1][..n] == events[..n];
        match events[n]
        case Noted(kind, target, tokens, estimated) => Note(kind, target, tokens, estimated);
        case Read(name, value, occurrences) => NoteReads(name, value, occurrences);
      }
      assert events[..|events|] == events;
    }
  }

  function AfterAll(h: Holding, events: seq<Event>, lane: Lane): Holding
    requires lane.prompt != 0
  {
    if events == [] then h else After(AfterAll(h, events[..|events| - 1], lane), events[|events| - 1], lane)
  }

  // ----- When a session is set aside

  /** All that was read of one file. */
  function ReadTotal(events: seq<Event>, name: string): int {
    if events == [] then 0
    else
      var last := events[|events| - 1];
      ReadTotal(events[..|events| - 1], name) + if last.Read? && last.name == name then last.value else 0
  }

  function Occurrences(events: seq<Event>, name: string): int {
    if events == [] then 0
    else
      var last := events[|events| - 1];
      Occurrences(events[..|events| - 1], name) + if last.Read? && last.name == name then last.occurrences else 0
  }

  /** Attributions and prompts are counts; hot files come from reads alone, and every other target
      is noted once, because its notes come out of a map. */
  ghost predicate Sound(events: seq<Event>, lane: Lane) {
    && lane.prompt > 0
    && (forall i :: 0 <= i < |events| ==> SoundEvent(events[i]))
    && (forall i, j :: 0 <= i < j < |events| && events[i].Noted? && events[j].Noted? ==>
          (events[i].kind, events[i].target) != (events[j].kind, events[j].target))
  }

  predicate SoundEvent(e: Event) {
    match e
    case Noted(kind, _, tokens, _) => kind != HotFile && tokens.value >= 0
    case Read(_, value, occurrences) => value >= 0 && occurrences >= 0
  }

  lemma ShareOverOne(tokens: int, lane: Lane)
    requires lane.prompt > 0
    ensures Share(tokens, lane) > 1.0 <==> tokens > lane.prompt
    ensures tokens >= 0 ==> Share(tokens, lane) >= 0.0
  {
    var s, p := Share(tokens, lane), lane.prompt as real;
    assert s * p == tokens as real;
    assert s > 1.0 ==> s * p > p;
    assert s <= 1.0 ==> s * p <= p;
    assert s < 0.0 ==> s * p < 0.0;
  }

  lemma {:induction false} ReadTotalIsCount(events: seq<Event>, name: string)
    requires forall i :: 0 <= i < |events| ==> SoundEvent(events[i])
    ensures ReadTotal(events, name) >= 0
  {
    if events != [] {
      ReadTotalIsCount(events[..|events| - 1], name);
    }
  }

  /** What is held of a file while nothing is set aside: the sums over its reads. */
  ghost predicate HoldsReads(h: Holding, events: seq<Event>) {
    forall name :: Key(HotFile, name) in h.targets ==>
      && h.targets[Key(HotFile, name)].tokens == ReadTotal(events, name)
      && h.targets[Key(HotFile, name)].readCount == Occurrences(events, name)
  }

  ghost predicate MissesOnlyUnread(h: Holding, events: seq<Event>) {
    forall name :: Key(HotFile, name) !in h.targets ==> ReadTotal(events, name) == Occurrences(events, name) == 0
  }

  /** Nothing noted or read so far came to more than the prompt. */
  ghost predicate WithinPrompt(events: seq<Event>, lane: Lane) {
    && (forall i :: 0 <= i < |events| && events[i].Noted? ==> events[i].tokens.value <= lane.prompt)
    && (forall name :: ReadTotal(events, name) <= lane.prompt)
  }

  lemma NothingHeld(lane: Lane)
    requires lane.prompt > 0
    ensures HoldsReads(Holding(map[], false), []) && MissesOnlyUnread(Holding(map[], false), [])
    ensures WithinPrompt([], lane)
  {
  }

  lemma EventKept(h: Holding, events: seq<Event>, e: Event, lane: Lane)
    requires lane.prompt > 0 && SoundEvent(e) && forall i :: 0 <= i < |events| ==> SoundEvent(events[i])
    requires h.overAttributed <==> !WithinPrompt(events, lane)
    requires !h.overAttributed ==> HoldsReads(h, events) && MissesOnlyUnread(h, events)
    ensures var after, all := After(h, e, lane), events + [e];
            && (after.overAttributed <==> !WithinPrompt(all, lane))
            && (!after.overAttributed ==> HoldsReads(after, all) && MissesOnlyUnread(after, all))
  {
    hide CacheTraffic, Key, Share;
    var after, all := After(h, e, lane), events + [e];
    assert all[..|events|] == events && all[|events|] == e;
    forall name
      ensures ReadTotal(all, name) == ReadTotal(events, name) + if e.Read? && e.name == name then e.value else 0
      ensures Occurrences(all, name)
           == Occurrences(events, name) + if e.Read? && e.name == name then e.occurrences else 0
      ensures ReadTotal(all, name) >= ReadTotal(events, name)
    {
    }
    forall kind, target, name | Key(kind, target) == Key(HotFile, name)
      ensures kind == HotFile && target == name
    {
      KeysDiffer(kind, target, HotFile, name);
    }
    if h.overAttributed {
      StillTooMuch(events, e, lane);
    } else {
      match e
      case Noted(kind, target, tokens, _) =>
        ShareOverOne(tokens.value, lane);
      case Read(name, value, _) =>
        ShareOverOne(ReadTotal(all, name), lane);
    }
  }

  lemma StillTooMuch(events: seq<Event>, e: Event, lane: Lane)
    requires SoundEvent(e) && !WithinPrompt(events, lane)
    ensures !WithinPrompt(events + [e], lane)
  {
    var all := events + [e];
    assert all[..|events|] == events;
    if i :| 0 <= i < |events| && events[i].Noted? && events[i].tokens.value > lane.prompt {
      assert all[i] == events[i];
    } else {
      var name :| ReadTotal(events, name) > lane.prompt;
      assert ReadTotal(all, name) >= ReadTotal(events, name);
    }
  }

  /** A session is set aside exactly when one source, a note or the reads of one file together, is
      attributed more tokens than the provider billed; otherwise what is held of a file is the sum
      of its reads. */
  lemma {:induction false} SetAsideExactly(events: seq<Event>, lane: Lane)
    requires lane.prompt > 0 && forall i :: 0 <= i < |events| ==> SoundEvent(events[i])
    ensures var h := AfterAll(Holding(map[], false), events, lane);
            && (h.overAttributed <==> !WithinPrompt(events, lane))
            && (!h.overAttributed ==> HoldsReads(h, events) && MissesOnlyUnread(h, events))
  {
    hide After, HoldsReads, MissesOnlyUnread, WithinPrompt, SoundEvent;
    if events == [] {
      NothingHeld(lane);
    } else {
      var front, last := events[..|events| - 1], events[|events| - 1];
      SetAsideExactly(front, lane);
      EventKept(AfterAll(Holding(map[], false), front, lane), front, last, lane);
      assert events == front + [last];
    }
  }

  /** Does this event set the session aside? */
  predicate SetsAside(h: Holding, e: Event, lane: Lane)
    requires lane.prompt != 0
  {
    match e
    case Noted(_, _, tokens, _) => Share(tokens.value, lane) > 1.0
    case Read(name, value, _) =>
      var key := Key(HotFile, name);
      Share((if key in h.targets then h.targets[key] else NO_EVIDENCE).tokens + value, lane) > 1.0
  }

  /** A note below its threshold, or of nothing, leaves no target; a read always does. */
  predicate PassedOver(e: Event, lane: Lane)
    requires lane.prompt != 0
  {
    e.Noted? && ((HasThreshold(e.kind) && Share(e.tokens.value, lane) < MIN_SHARE) || e.tokens.value <= 0)
  }

  /** Since the session was last set aside, or since `h`, nothing but events that are passed over. */
  predicate NothingKeptSince(h: Holding, events: seq<Event>, lane: Lane)
    requires lane.prompt != 0
  {
    if events == [] then h.targets == map[]
    else
      var front, last := events[..|events| - 1], events[|events| - 1];
      || SetsAside(AfterAll(h, front, lane), last, lane)
      || (PassedOver(last, lane) && NothingKeptSince(h, front, lane))
  }

  /** Setting aside drops what was noted before, but not what is noted after: a session that was set
      aside holds no target exactly when everything noted or read since was passed over. That it
      contributes nothing rests on its flag. */
  lemma {:induction false} EmptyAfterSetAsideExactly(h: Holding, events: seq<Event>, lane: Lane)
    requires lane.prompt != 0 && h == Holding(map[], true)
    ensures var after := AfterAll(h, events, lane);
            after.overAttributed && (after.targets == map[] <==> NothingKeptSince(h, events, lane))
  {
    hide Key, CacheTraffic, Share;
    if events != [] {
      var front, last := events[..|events| - 1], events[|events| - 1];
      EmptyAfterSetAsideExactly(h, front, lane);
      OneEvent(AfterAll(h, front, lane), last, lane);
    }
  }

  lemma OneEvent(h: Holding, e: Event, lane: Lane)
    requires lane.prompt != 0
    ensures var after := After(h, e, lane);
            if SetsAside(h, e, lane) then after == Holding(map[], true)
            else if PassedOver(e, lane) then after == h
            else after.targets != map[] && after.overAttributed == h.overAttributed
  {
    hide Key, CacheTraffic;
    var after := After(h, e, lane);
    if !SetsAside(h, e, lane) && !PassedOver(e, lane) {
      match e
      case Noted(kind, target, _, _) => assert Key(kind, target) in after.targets;
      case Read(name, _, _) => assert Key(HotFile, name) in after.targets;
    }
  }

  /** And it may hold some: a source over the prompt, and then one that is not. */
  lemma TargetsAfterSetAside(lane: Lane)
    requires lane.prompt > 0
    ensures var h := AfterAll(Holding(map[], false),
                              [Noted(ToolInputs, "a", Figure(lane.prompt + 1, true), false),
                               Noted(ToolInputs, "b", Figure(lane.prompt, true), false)], lane);
            h.overAttributed && h.targets != map[]
  {
    hide Key, CacheTraffic, Share;
    var first := Noted(ToolInputs, "a", Figure(lane.prompt + 1, true), false);
    var second := Noted(ToolInputs, "b", Figure(lane.prompt, true), false);
    var empty := Holding(map[], false);
    assert [first, second][..1] == [first] && [first][..0] == [];
    assert AfterAll(empty, [first], lane) == After(empty, first, lane);
    ShareOverOne(lane.prompt + 1, lane);
    ShareOverOne(lane.prompt, lane);
    WholeShare(lane);
    OneEvent(empty, first, lane);
    OneEvent(Holding(map[], true), second, lane);
  }

  lemma WholeShare(lane: Lane)
    requires lane.prompt > 0
    ensures Share(lane.prompt, lane) == 1.0
  {
    var s := Share(lane.prompt, lane);
    assert s * lane.prompt as real == lane.prompt as real;
  }

  // ----- The order in which a session's maps are walked

  /** The same to everyone downstream: set aside both, or holding the same. */
  predicate Same(g: Holding, h: Holding) {
    g.overAttributed == h.overAttributed && (!g.overAttributed ==> g.targets == h.targets)
  }

  /** Two events that concern different targets, or two reads. */
  predicate Apart(d: Event, e: Event) {
    d.Noted? && e.Noted? ==> (d.kind, d.target) != (e.kind, e.target)
  }

  lemma AfterSame(g: Holding, h: Holding, e: Event, lane: Lane)
    requires lane.prompt > 0 && Same(g, h)
    ensures Same(After(g, e, lane), After(h, e, lane))
  {
  }

  lemma ReadsCommute(h: Holding, d: Event, e: Event, lane: Lane)
    requires lane.prompt > 0 && SoundEvent(d) && SoundEvent(e) && d.Read? && e.Read? && d.name == e.name
    ensures Same(After(After(h, d, lane), e, lane), After(After(h, e, lane), d, lane))
  {
    var key := Key(HotFile, d.name);
    var t := (if key in h.targets then h.targets[key] else NO_EVIDENCE).tokens;
    ShareOverOne(t + d.value, lane);
    ShareOverOne(t + e.value, lane);
    ShareOverOne(t + d.value + e.value, lane);
    assert t + d.value + e.value == t + e.value + d.value;
  }

  lemma NotesCommute(h: Holding, d: Event, e: Event, lane: Lane)
    requires lane.prompt > 0 && d.Noted? && e.Noted? && Apart(d, e)
    ensures Same(After(After(h, d, lane), e, lane), After(After(h, e, lane), d, lane))
  {
    hide Key, CacheTraffic, Share;
    if Key(d.kind, d.target) == Key(e.kind, e.target) {
      KeysDiffer(d.kind, d.target, e.kind, e.target);
    }
  }

  lemma NoteAndReadCommute(h: Holding, d: Event, e: Event, lane: Lane)
    requires lane.prompt > 0 && d.Noted? && e.Read? && d.kind != HotFile
    ensures Same(After(After(h, d, lane), e, lane), After(After(h, e, lane), d, lane))
  {
    hide Key, CacheTraffic, Share;
    if Key(d.kind, d.target) == Key(HotFile, e.name) {
      KeysDiffer(d.kind, d.target, HotFile, e.name);
    }
  }

  lemma OtherReadsCommute(h: Holding, d: Event, e: Event, lane: Lane)
    requires lane.prompt > 0 && d.Read? && e.Read? && d.name != e.name
    ensures Same(After(After(h, d, lane), e, lane), After(After(h, e, lane), d, lane))
  {
    hide Key, CacheTraffic, Share;
    if Key(HotFile, d.name) == Key(HotFile, e.name) {
      KeysDiffer(HotFile, d.name, HotFile, e.name);
    }
  }

  lemma EventsCommute(h: Holding, d: Event, e: Event, lane: Lane)
    requires lane.prompt > 0 && SoundEvent(d) && SoundEvent(e) && Apart(d, e)
    ensures Same(After(After(h, d, lane), e, lane), After(After(h, e, lane), d, lane))
  {
    hide After;
    match (d, e)
    case (Noted(_, _, _, _), Noted(_, _, _, _)) => NotesCommute(h, d, e, lane);
    case (Noted(_, _, _, _), Read(_, _, _)) => NoteAndReadCommute(h, d, e, lane);
    case (Read(_, _, _), Noted(_, _, _, _)) => NoteAndReadCommute(h, e, d, lane);
    case (Read(n1, _, _), Read(n2, _, _)) =>
      if n1 == n2 {
        ReadsCommute(h, d, e, lane);
      } else {
        OtherReadsCommute(h, d, e, lane);
      }
  }

  lemma {:induction false} EventLast(events: seq<Event>, i: nat, lane: Lane)
    requires i < |events| && Sound(events, lane)
    ensures Same(AfterAll(Holding(map[], false), events, lane),
                 After(AfterAll(Holding(map[], false), Without(events, i), lane), events[i], lane))
  {
    hide After, SoundEvent;
    var empty := Holding(map[], false);
    var front, last := events[..|events| - 1], events[|events| - 1];
    if i == |events| - 1 {
      assert Without(events, i) == front;
    } else {
      EventLast(front, i, lane);
      var rest := Without(events, i);
      assert rest[..|rest| - 1] == Without(front, i) && rest[|rest| - 1] == last;
      var h := AfterAll(empty, Without(front, i), lane);
      AfterSame(AfterAll(empty, front, lane), After(h, events[i], lane), last, lane);
      EventsCommute(h, events[i], last, lane);
    }
  }

  lemma SoundWithout(events: seq<Event>, i: nat, lane: Lane)
    requires i < |events| && Sound(events, lane)
    ensures Sound(Without(events, i), lane)
  {
    var rest := Without(events, i);
    forall p | 0 <= p < |rest|
      ensures rest[p] == events[if p < i then p else p + 1]
    {
    }
  }

  /** However the tools and tool servers of a session come out of their maps, the observation is the
      same. */
  lemma {:induction false} EventOrderIsNoMatter(a: seq<Event>, b: seq<Event>, lane: Lane)
    requires multiset(a) == multiset(b) && Sound(a, lane) && Sound(b, lane)
    ensures Same(AfterAll(Holding(map[], false), a, lane), AfterAll(Holding(map[], false), b, lane))
    decreases |a|
  {
    hide After, SoundEvent, Sound;
    SameLength(a, b);
    if a != [] {
      var n := |a| - 1;
      SameElements(a, b, a[n]);
      var i :| 0 <= i < |b| && b[i] == a[n];
      WithoutEqual(a, n, b, i);
      assert Without(a, n) == a[..n];
      SoundWithout(a, n, lane);
      SoundWithout(b, i, lane);
      EventOrderIsNoMatter(a[..n], Without(b, i), lane);
      EventLast(b, i, lane);
      SoundPrompt(a, lane);
      AfterSame(AfterAll(Holding(map[], false), a[..n], lane),
                AfterAll(Holding(map[], false), Without(b, i), lane), a[n], lane);
    }
  }

  lemma SoundPrompt(events: seq<Event>, lane: Lane)
    requires Sound(events, lane)
    ensures lane.prompt > 0
  {
  }

  // ----- What is kept is a share

  ghost predicate Bounded(ev: Evidence) {
    0.0 <= ev.share <= 1.0 && ev.tokens >= 0 && ev.usd >= 0.0 && ev.readCount >= 0
  }

  ghost predicate AllBounded(h: Holding) {
    forall key :: key in h.targets ==> Bounded(h.targets[key])
  }

  lemma TrafficIsNotNegative(kind: Kind, tokens: int, price: Option<Price>)
    requires price.Some? ==> price.value.inputPerMTok >= 0.0 && price.value.readMult >= 0.0
    ensures CacheTraffic(kind, tokens, price).0 >= 0.0
  {
    if tokens > 0 && price.Some? {
      var mtok := tokens as real / 1_000_000.0;
      assert mtok * price.value.inputPerMTok >= 0.0;
      assert (mtok * price.value.inputPerMTok) * price.value.readMult >= 0.0;
    }
  }

  /** Under prices that are not negative, every share that is kept lies between nothing and the
      whole prompt. */
  lemma {:induction false} KeptIsBounded(events: seq<Event>, lane: Lane)
    requires lane.prompt > 0 && forall i :: 0 <= i < |events| ==> SoundEvent(events[i])
    requires lane.price.Some? ==> lane.price.value.inputPerMTok >= 0.0 && lane.price.value.readMult >= 0.0
    ensures AllBounded(AfterAll(Holding(map[], false), events, lane))
  {
    hide CacheTraffic, Key, Share;
    if events != [] {
      var front, last := events[..|events| - 1], events[|events| - 1];
      KeptIsBounded(front, lane);
      var h := AfterAll(Holding(map[], false), front, lane);
      match last
      case Noted(kind, _, tokens, _) =>
        ShareOverOne(tokens.value, lane);
        TrafficIsNotNegative(kind, tokens.value, lane.price);
      case Read(name, value, _) =>
        var key := Key(HotFile, name);
        var before := if key in h.targets then h.targets[key] else NO_EVIDENCE;
        ShareOverOne(before.tokens + value, lane);
        TrafficIsNotNegative(HotFile, before.tokens + value, lane.price);
    }
  }

  ghost predicate AllStamped(h: Holding, at: int) {
    forall key :: key in h.targets ==> h.targets[key].at == at
  }

  /** All evidence of a session carries the session's time. */
  lemma {:induction false} KeptIsStamped(events: seq<Event>, lane: Lane)
    requires lane.prompt != 0
    ensures AllStamped(AfterAll(Holding(map[], false), events, lane), lane.at)
  {
    hide CacheTraffic, Key, Share;
    if events != [] {
      KeptIsStamped(events[..|events| - 1], lane);
    }
  }
}
