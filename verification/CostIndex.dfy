/** The index over transcripts already understood, the join of request ids across files, and the
    corpus walk that uses both: a run answers the same whatever the index already holds. */
module CostIndex {
  import opened Wrappers
  import opened Sorting
  import opened CostUnits
  import opened CostFold
  import opened CostSummary
  import opened CostBreaks

  // ----- Joining requests across files

  /** One request offered to the join; an id the provider never sent is not measured. */
  datatype Req = Req(id: string, measured: bool)

  function MeasuredIds(log: seq<Req>): seq<string> {
    if log == [] then []
    else
      var front, last := MeasuredIds(log[..|log| - 1]), log[|log| - 1];
      if last.measured then front + [last.id] else front
  }

  function Unmeasured(log: seq<Req>): nat {
    if log == [] then 0
    else Unmeasured(log[..|log| - 1]) + if log[|log| - 1].measured then 0 else 1
  }

  function Ids(log: seq<Req>): set<string> { set id | id in MeasuredIds(log) }

  lemma LogGrows(log: seq<Req>, r: Req)
    ensures MeasuredIds(log + [r]) == if r.measured then MeasuredIds(log) + [r.id] else MeasuredIds(log)
    ensures Unmeasured(log + [r]) == Unmeasured(log) + if r.measured then 0 else 1
    ensures Ids(log + [r]) == if r.measured then Ids(log) + {r.id} else Ids(log)
  {
    assert (log + [r])[..|log|] == log;
  }

  lemma {:induction false} LogJoins(a: seq<Req>, b: seq<Req>)
    ensures MeasuredIds(a + b) == MeasuredIds(a) + MeasuredIds(b)
    ensures Unmeasured(a + b) == Unmeasured(a) + Unmeasured(b)
    decreases |b|
  {
    if b == [] {
      assert a + b == a;
    } else {
      var front, last := b[..|b| - 1], b[|b| - 1];
      LogJoins(a, front);
      assert a + b == a + front + [last] && b == front + [last];
      LogGrows(a + front, last);
    }
  }

  lemma {:induction false} LogSplits(log: seq<Req>)
    ensures |MeasuredIds(log)| + Unmeasured(log) == |log|
  {
    if log != [] {
      LogSplits(log[..|log| - 1]);
    }
  }

  class RequestJoin {
    var seen: set<string>
    var total: nat
    var duplicated: nat
    var unjoinable: nat
    ghost var log: seq<Req>  // every request offered so far

    /** `duplicated` is the measured ids beyond the distinct ones. */
    ghost predicate Valid()
      reads this
    {
      && seen == Ids(log)
      && total == |log|
      && unjoinable == Unmeasured(log)
      && duplicated == |MeasuredIds(log)| - |Ids(log)|
    }

    constructor ()
      ensures Valid() && log == []
    {
      seen, total, duplicated, unjoinable := {}, 0, 0, 0;
      log := [];
    }

    method Add(id: string, measured: bool)
      requires Valid()
      modifies this
      ensures Valid() && log == old(log) + [Req(id, measured)]
    {
      LogGrows(log, Req(id, measured));
      log := log + [Req(id, measured)];
      total := total + 1;
      if !measured {
        unjoinable := unjoinable + 1;
        return;
      }
      if id in seen {
        assert seen + {id} == seen;
        duplicated := duplicated + 1;
        return;
      }
      seen := seen + {id};
    }

    /** Replays a file already summarised in the index. */
    method AddCached(ids: seq<string>, anonymous: nat)
      requires Valid()
      modifies this
      ensures Valid() && log == old(log) + Replay(ids, anonymous)
    {
      hide Valid, Replay;
      ReplayOfNothing();
      for n := 0 to |ids|
        invariant Valid() && log == old(log) + Replay(ids[..n], 0)
      {
        ReplayOfNext(ids, n);
        Add(ids[n], true);
      }
      assert ids[..|ids|] == ids;
      for n := 0 to anonymous
        invariant Valid() && log == old(log) + Replay(ids, n)
      {
        ReplayOfAnonymous(ids, n);
        Add("", false);
      }
    }
  }

  lemma ReplayOfNothing()
    ensures Replay([], 0) == []
  {
  }

  lemma ReplayOfNext(ids: seq<string>, n: nat)
    requires n < |ids|
    ensures Replay(ids[..n + 1], 0) == Replay(ids[..n], 0) + [Req(ids[n], true)]
  {
    assert ids[..n + 1][..n] == ids[..n];
  }

  lemma ReplayOfAnonymous(ids: seq<string>, n: nat)
    ensures Replay(ids, n + 1) == Replay(ids, n) + [Req("", false)]
  {
  }

  function Replay(ids: seq<string>, anonymous: nat): seq<Req> {
    if anonymous > 0 then Replay(ids, anonymous - 1) + [Req("", false)]
    else if ids == [] then []
    else Replay(ids[..|ids| - 1], 0) + [Req(ids[|ids| - 1], true)]
  }

  lemma {:induction false} ReplayIs(ids: seq<string>, anonymous: nat)
    ensures MeasuredIds(Replay(ids, anonymous)) == ids
    ensures Unmeasured(Replay(ids, anonymous)) == anonymous
    decreases |ids|, anonymous
  {
    if anonymous > 0 {
      ReplayIs(ids, anonymous - 1);
      LogGrows(Replay(ids, anonymous - 1), Req("", false));
    } else if ids != [] {
      ReplayIs(ids[..|ids| - 1], 0);
      LogGrows(Replay(ids[..|ids| - 1], 0), Req(ids[|ids| - 1], true));
      assert ids == ids[..|ids| - 1] + [ids[|ids| - 1]];
    }
  }

  /** The requests of a transcript, lane after lane, that carry any id at all. */
  function Offered(reqs: seq<Req>): seq<Req> {
    if reqs == [] then []
    else
      var front, last := Offered(reqs[..|reqs| - 1]), reqs[|reqs| - 1];
      if last.id == "" then front else front + [last]
  }

  method RequestIDs(reqs: seq<Req>, join: RequestJoin) returns (ids: seq<string>, unjoinable: nat)
    requires join.Valid()
    modifies join
    ensures join.Valid() && join.log == old(join.log) + Offered(reqs)
    ensures ids == MeasuredIds(Offered(reqs)) && unjoinable == Unmeasured(Offered(reqs))
  {
    ids, unjoinable := [], 0;
    for n := 0 to |reqs|
      invariant join.Valid() && join.log == old(join.log) + Offered(reqs[..n])
      invariant ids == MeasuredIds(Offered(reqs[..n])) && unjoinable == Unmeasured(Offered(reqs[..n]))
    {
      var r := reqs[n];
      assert reqs[..n + 1][..n] == reqs[..n];
      LogGrows(Offered(reqs[..n]), r);
      if r.id == "" {
        continue;
      }
      join.Add(r.id, r.measured);
      if !r.measured {
        unjoinable := unjoinable + 1;
        continue;
      }
      ids := ids + [r.id];
    }
    assert reqs[..|reqs|] == reqs;
  }

  // ----- Files and what a build makes of them

  datatype Transcript = Unreadable | Readable(reading: Reading, requests: seq<Req>)

  datatype Stat = Stat(size: int, mod: int)

  /** One build of the program: how it parses and analyses a file, and its prices. The content of a
      path is identified by the file's size and modification time. */
  datatype Build = Build(parse: (string, Stat) -> Transcript, price: Prices)

  type Disk = map<string, Stat>

  function ReadAt(b: Build, disk: Disk, path: string): Transcript {
    if path in disk then b.parse(path, disk[path]) else Unreadable
  }

  // ----- The index

  datatype Entry = Entry(stat: Stat, unit: CostUnit, ids: seq<string>, unjoinable: nat)

  type Entries = map<string, Entry>

  /** An entry says what re-deriving its file would say. Where the unit was read from is not part of
      the stored record. */
  ghost predicate ValidEntry(b: Build, path: string, e: Entry) {
    match b.parse(path, e.stat)
    case Unreadable => false
    case Readable(r, reqs) =>
      && e.unit.(path := path) == UnitOf(r, b.price, path)
      && e.ids == MeasuredIds(Offered(reqs))
      && e.unjoinable == Unmeasured(Offered(reqs))
  }

  ghost predicate ValidIndex(b: Build, entries: Entries) {
    forall path :: path in entries ==> ValidEntry(b, path, entries[path])
  }

  /** The index file: it may be missing, unreadable, without entries, or written by any build. */
  datatype Stored = Missing | Corrupt | Index(schema: string, entries: Option<Entries>)

  class CostCache {
    const schema: string
    var entries: Entries
    var dirty: bool

    constructor (schema: string)
      ensures this.schema == schema && entries == map[] && !dirty
    {
      this.schema := schema;
      entries, dirty := map[], false;
    }

    /** Every failure, and every file keyed differently, is an empty index and never an error. */
    method Load(file: Stored)
      modifies this
      ensures entries == Loaded(file, schema, old(entries)) && dirty == old(dirty)
    {
      match file
      case Index(s, Some(es)) =>
        if s == schema {
          entries := es;
        }
      case _ =>
    }

    method Get(path: string, disk: Disk) returns (r: Option<Entry>)
      ensures r == if Hit(entries, disk, path) then Some(entries[path]) else None
    {
      if path !in entries {
        return None;
      }
      var e := entries[path];
      if path !in disk || e.stat.size != disk[path].size || e.stat.mod != disk[path].mod {
        return None;
      }
      return Some(e);
    }

    method Put(path: string, disk: Disk, unit: CostUnit, ids: seq<string>, unjoinable: nat)
      modifies this
      ensures path !in disk ==> entries == old(entries) && dirty == old(dirty)
      ensures path in disk ==> entries == old(entries)[path := Entry(disk[path], unit, ids, unjoinable)] && dirty
    {
      if path !in disk {
        return;
      }
      entries := entries[path := Entry(disk[path], unit, ids, unjoinable)];
      dirty := true;
    }

    /** Only the exported fields of a unit reach the file: not where it was read from. The file is
        written through a sibling, so a write or a rename that fails leaves it as it was. */
    method Save(file: Stored, written: bool, renamed: bool) returns (after: Stored, ok: bool)
      ensures after == if dirty && written && renamed then Index(schema, Some(Serialised(entries))) else file
      ensures ok == (!dirty || (written && renamed))
    {
      if !dirty {
        return file, true;
      }
      if !written || !renamed {
        return file, false;
      }
      ok := true;
      after := Index(schema, Some(map p | p in entries :: entries[p].(unit := entries[p].unit.(path := ""))));
    }
  }

  function Loaded(file: Stored, schema: string, fallback: Entries): Entries {
    if file.Index? && file.schema == schema && file.entries.Some? then file.entries.value else fallback
  }

  function Serialised(entries: Entries): Entries {
    map p | p in entries :: entries[p].(unit := entries[p].unit.(path := ""))
  }

  predicate Hit(entries: Entries, disk: Disk, path: string) {
    path in entries && path in disk && entries[path].stat == disk[path]
  }

  // ----- What one file contributes

  /** What a run takes from its files, without the order it came in. */
  datatype Effect = Effect(
    units: multiset<CostUnit>, unpriced: nat, unreadable: nat, ids: multiset<string>, anonymous: nat)

  const NO_EFFECT := Effect(multiset{}, 0, 0, multiset{}, 0)

  function Both(a: Effect, b: Effect): Effect {
    Effect(a.units + b.units, a.unpriced + b.unpriced, a.unreadable + b.unreadable, a.ids + b.ids,
           a.anonymous + b.anonymous)
  }

  function Derived(b: Build, disk: Disk, path: string): Effect {
    match ReadAt(b, disk, path)
    case Unreadable => NO_EFFECT.(unreadable := 1)
    case Readable(r, reqs) =>
      var u := UnitOf(r, b.price, path);
      Effect(multiset{u}, if u.unpriced then 1 else 0, 0, multiset(MeasuredIds(Offered(reqs))),
             Unmeasured(Offered(reqs)))
  }

  /** What a run over these files takes, every file derived anew. */
  function DerivedAll(b: Build, disk: Disk, files: seq<string>): Effect {
    if files == [] then NO_EFFECT
    else Both(DerivedAll(b, disk, files[..|files| - 1]), Derived(b, disk, files[|files| - 1]))
  }

  // ----- The walk

  /** What the run's accumulators and its join's log amount to. */
  ghost predicate Holds(units: seq<CostUnit>, unpriced: nat, unreadable: nat, log: seq<Req>, e: Effect) {
    && multiset(units) == e.units && unpriced == e.unpriced && unreadable == e.unreadable
    && multiset(MeasuredIds(log)) == e.ids && Unmeasured(log) == e.anonymous
  }

  /** What a file contributes whose unit and request ids are known. */
  function Contribution(u: CostUnit, ids: seq<string>, anonymous: nat): Effect {
    Effect(multiset{u}, if u.unpriced then 1 else 0, 0, multiset(ids), anonymous)
  }

  /** One readable file more, whether it was read or replayed. */
  lemma HoldsGrows(units: seq<CostUnit>, unpriced: nat, unreadable: nat, log: seq<Req>, e: Effect,
                   u: CostUnit, more: seq<Req>)
    requires Holds(units, unpriced, unreadable, log, e)
    ensures Holds(units + [u], unpriced + (if u.unpriced then 1 else 0), unreadable, log + more,
                  Both(e, Contribution(u, MeasuredIds(more), Unmeasured(more))))
  {
    LogJoins(log, more);
  }

  /** An entry that answers for a file contributes what reading the file would. */
  lemma HitDerives(b: Build, disk: Disk, entries: Entries, f: string)
    requires ValidIndex(b, entries) && Hit(entries, disk, f)
    ensures var e := entries[f];
            Derived(b, disk, f) == Contribution(e.unit.(path := f), e.ids, e.unjoinable)
  {
    assert ValidEntry(b, f, entries[f]);
  }

  /** The entry made for a file that was read on one disk and is indexed under its stat on a later
      one. */
  function EntryOf(b: Build, disk: Disk, later: Disk, f: string): Entry
    requires ReadAt(b, disk, f).Readable? && f in later
  {
    var t := ReadAt(b, disk, f);
    Entry(later[f], UnitOf(t.reading, b.price, f), MeasuredIds(Offered(t.requests)), Unmeasured(Offered(t.requests)))
  }

  /** What was read says what the file says under the stat it is indexed by. */
  ghost predicate Settled(b: Build, disk: Disk, later: Disk, f: string) {
    ReadAt(b, disk, f).Readable? && f in later ==> ValidEntry(b, f, EntryOf(b, disk, later, f))
  }

  /** What was just read may be indexed exactly when the file, as it is when it is indexed, still
      yields the unit and the ids that were read. */
  lemma SettledExactly(b: Build, disk: Disk, later: Disk, f: string)
    requires ReadAt(b, disk, f).Readable? && f in later
    ensures var now, before := ReadAt(b, later, f), ReadAt(b, disk, f);
            Settled(b, disk, later, f) <==>
              && now.Readable?
              && UnitOf(now.reading, b.price, f) == UnitOf(before.reading, b.price, f)
              && MeasuredIds(Offered(now.requests)) == MeasuredIds(Offered(before.requests))
              && Unmeasured(Offered(now.requests)) == Unmeasured(Offered(before.requests))
  {
    hide UnitOf, MeasuredIds, Unmeasured, Offered;
    UnitPath(ReadAt(b, disk, f).reading, b.price, f);
  }

  lemma UnitPath(r: Reading, price: Prices, f: string)
    ensures UnitOf(r, price, f).(path := f) == UnitOf(r, price, f)
  {
  }

  /** In particular when its size and time did not move in between. */
  lemma UnmovedIsSettled(b: Build, disk: Disk, later: Disk, f: string)
    requires f in disk && f in later && disk[f] == later[f]
    ensures Settled(b, disk, later, f)
  {
    hide UnitOf, MeasuredIds, Unmeasured, Offered;
    if ReadAt(b, disk, f).Readable? {
      UnitPath(ReadAt(b, disk, f).reading, b.price, f);
    }
  }

  /** A transcript that grows between the reading and the indexing is answered for by what it was
      before: a later run that finds it so takes the old unit from the index. */
  lemma GrownFileMisleads(b: Build, disk: Disk, later: Disk, entries: Entries, f: string)
    requires ReadAt(b, disk, f).Readable? && ReadAt(b, later, f).Readable?
    requires UnitOf(ReadAt(b, disk, f).reading, b.price, f) != UnitOf(ReadAt(b, later, f).reading, b.price, f)
    ensures var e := EntryOf(b, disk, later, f);
            && Hit(entries[f := e], later, f)
            && Contribution(e.unit.(path := f), e.ids, e.unjoinable).units != Derived(b, later, f).units
            && !ValidEntry(b, f, e)
  {
    hide UnitOf, MeasuredIds, Unmeasured, Offered;
    var e := EntryOf(b, disk, later, f);
    UnitPath(ReadAt(b, disk, f).reading, b.price, f);
    assert e.unit in multiset{e.unit} && e.unit !in Derived(b, later, f).units;
  }

  /** What was just read may be indexed. */
  lemma PutStaysValid(b: Build, disk: Disk, later: Disk, entries: Entries, f: string)
    requires ValidIndex(b, entries) && ReadAt(b, disk, f).Readable? && f in later && Settled(b, disk, later, f)
    ensures ValidIndex(b, entries[f := EntryOf(b, disk, later, f)])
  {
    hide ValidEntry, EntryOf;
  }

  /** A file the index answers for: its unit and its requests are replayed. */
  method TakeIndexed(e: Entry, f: string, units: seq<CostUnit>, unpriced: nat, join: RequestJoin, ghost taken: Effect)
    returns (units': seq<CostUnit>, unpriced': nat)
    requires join.Valid() && Holds(units, unpriced, 0, join.log, taken)
    modifies join
    ensures join.Valid()
    ensures Holds(units', unpriced', 0, join.log, Both(taken, Contribution(e.unit.(path := f), e.ids, e.unjoinable)))
  {
    var u := e.unit.(path := f);
    HoldsGrows(units, unpriced, 0, join.log, taken, u, Replay(e.ids, e.unjoinable));
    ReplayIs(e.ids, e.unjoinable);
    units', unpriced' := units + [u], unpriced;
    join.AddCached(e.ids, e.unjoinable);
    if u.unpriced {
      unpriced' := unpriced' + 1;
    }
  }

  /** A file that has to be read: priced, joined, and indexed if it was readable. */
  method TakeRead(b: Build, disk: Disk, later: Disk, f: string, units: seq<CostUnit>, unpriced: nat, unreadable: nat,
                  cache: CostCache, join: RequestJoin, ghost taken: Effect)
    returns (units': seq<CostUnit>, unpriced': nat, unreadable': nat)
    requires join.Valid() && Holds(units, unpriced, unreadable, join.log, taken)
    modifies cache, join
    ensures join.Valid()
    ensures old(ValidIndex(b, cache.entries)) && Settled(b, disk, later, f) ==> ValidIndex(b, cache.entries)
    ensures Holds(units', unpriced', unreadable', join.log, Both(taken, Derived(b, disk, f)))
  {
    hide UnitOf, MeasuredIds, Unmeasured, Offered, ValidIndex, Settled;
    units', unpriced', unreadable' := units, unpriced, unreadable;
    var t := ReadAt(b, disk, f);
    if t.Unreadable? {
      unreadable' := unreadable' + 1;
    } else {
      ghost var log := join.log;
      var ids, anonymous := RequestIDs(t.requests, join);
      var u := PriceReading(t.reading, b.price, f);
      HoldsGrows(units, unpriced, unreadable, log, taken, u, Offered(t.requests));
      if u.unpriced {
        unpriced' := unpriced' + 1;
      }
      units' := units' + [u];
      if f in later && ValidIndex(b, cache.entries) && Settled(b, disk, later, f) {
        PutStaysValid(b, disk, later, cache.entries, f);
      }
      cache.Put(f, later, u, ids, anonymous);
    }
  }

  /** The files as a run met them: one the index answered for as it was when it was looked up, any
      other as it was when it was read. */
  function Met(entries: Entries, looked: Disk, disk: Disk): Disk {
    map f | f in looked.Keys + disk.Keys && (Hit(entries, looked, f) || f in disk) ::
      if Hit(entries, looked, f) then looked[f] else disk[f]
  }

  lemma MetIs(b: Build, entries: Entries, looked: Disk, disk: Disk, f: string)
    ensures ReadAt(b, Met(entries, looked, disk), f)
         == ReadAt(b, if Hit(entries, looked, f) then looked else disk, f)
    ensures Derived(b, Met(entries, looked, disk), f)
         == Derived(b, if Hit(entries, looked, f) then looked else disk, f)
    ensures looked == disk ==> Met(entries, looked, disk) == disk
  {
  }

  /** The first pass: files the index answers for. Everything else is left for the second. */
  method WalkIndexed(b: Build, looked: Disk, files: seq<string>, cache: CostCache, join: RequestJoin, ghost met: Disk)
    returns (units: seq<CostUnit>, unpriced: nat, cold: seq<string>, ghost taken: Effect)
    requires join.Valid() && join.log == []
    requires ValidIndex(b, cache.entries)
    requires forall f :: Hit(cache.entries, looked, f) ==> Derived(b, met, f) == Derived(b, looked, f)
    modifies join
    ensures join.Valid() && Holds(units, unpriced, 0, join.log, taken)
    ensures Both(taken, DerivedAll(b, met, cold)) == DerivedAll(b, met, files)
    ensures forall f :: f in cold ==> f in files && !Hit(cache.entries, looked, f)
  {
    hide Both, Holds, DerivedAll, Derived, ValidEntry;
    NothingDerived(b, met, NO_EFFECT);
    units, unpriced, cold, taken := [], 0, [], NO_EFFECT;
    assert files[..0] == [];
    for n := 0 to |files|
      invariant join.Valid() && Holds(units, unpriced, 0, join.log, taken)
      invariant Both(taken, DerivedAll(b, met, cold)) == DerivedAll(b, met, files[..n])
      invariant forall f :: f in cold ==> f in files && !Hit(cache.entries, looked, f)
    {
      var f := files[n];
      DerivedGrows(b, met, files[..n], f);
      assert files[..n + 1] == files[..n] + [f];
      BothLaws(taken, DerivedAll(b, met, cold), Derived(b, met, f));
      var got := cache.Get(f, looked);
      if got.Some? {
        HitDerives(b, looked, cache.entries, f);
        units, unpriced := TakeIndexed(got.value, f, units, unpriced, join, taken);
        taken := Both(taken, Derived(b, met, f));
      } else {
        DerivedGrows(b, met, cold, f);
        cold := cold + [f];
      }
    }
    assert files[..|files|] == files;
  }

  /** The corpus walk: each file as it is when it is looked up, when it is read, if it has to be, and
      when it is indexed. Whatever valid index it starts from, it takes from the corpus what a run with
      an empty index takes from the files as they were met. It leaves a valid index behind if no file
      has changed between its reading and its indexing. */
  method Walk(b: Build, looked: Disk, disk: Disk, later: Disk, files: seq<string>, cache: CostCache, join: RequestJoin)
    returns (units: seq<CostUnit>, unpriced: nat, unreadable: nat)
    requires join.Valid() && join.log == []
    requires ValidIndex(b, cache.entries)
    modifies cache, join
    ensures join.Valid() && ((forall f :: f in files ==> Settled(b, disk, later, f)) ==> ValidIndex(b, cache.entries))
    ensures Holds(units, unpriced, unreadable, join.log, DerivedAll(b, Met(old(cache.entries), looked, disk), files))
  {
    hide Both, Holds, DerivedAll, Derived, ValidIndex, Settled, Met, Hit;
    var cold;
    ghost var warm;
    ghost var entries, met := cache.entries, Met(cache.entries, looked, disk);
    forall f
      ensures Derived(b, met, f) == Derived(b, if Hit(entries, looked, f) then looked else disk, f)
    {
      MetIs(b, entries, looked, disk, f);
    }
    units, unpriced, cold, warm := WalkIndexed(b, looked, files, cache, join, met);
    unreadable := 0;
    NothingDerived(b, met, warm);
    assert cold[..0] == [];
    for n := 0 to |cold|
      invariant join.Valid()
      invariant (forall f :: f in files ==> Settled(b, disk, later, f)) ==> ValidIndex(b, cache.entries)
      invariant Holds(units, unpriced, unreadable, join.log, Both(warm, DerivedAll(b, met, cold[..n])))
    {
      var f := cold[n];
      ghost var before := DerivedAll(b, met, cold[..n]);
      DerivedGrows(b, met, cold[..n], f);
      assert cold[..n + 1] == cold[..n] + [f] && f in cold;
      BothLaws(warm, before, Derived(b, met, f));
      units, unpriced, unreadable :=
        TakeRead(b, disk, later, f, units, unpriced, unreadable, cache, join, Both(warm, before));
    }
    assert cold[..|cold|] == cold;
  }

  lemma NothingDerived(b: Build, disk: Disk, e: Effect)
    ensures DerivedAll(b, disk, []) == NO_EFFECT
    ensures Both(e, NO_EFFECT) == e
    ensures Holds([], 0, 0, [], NO_EFFECT)
  {
  }

  lemma DerivedGrows(b: Build, disk: Disk, files: seq<string>, f: string)
    ensures DerivedAll(b, disk, files + [f]) == Both(DerivedAll(b, disk, files), Derived(b, disk, f))
  {
    assert (files + [f])[..|files|] == files;
  }

  lemma BothLaws(a: Effect, b: Effect, c: Effect)
    ensures Both(Both(a, b), c) == Both(a, Both(b, c))
    ensures Both(Both(a, b), c) == Both(Both(a, c), b)
  {
  }

  // ----- What that means for a report

  lemma {:induction false} DerivedWithout(b: Build, disk: Disk, files: seq<string>, i: nat)
    requires i < |files|
    ensures DerivedAll(b, disk, files) == Both(DerivedAll(b, disk, Without(files, i)), Derived(b, disk, files[i]))
  {
    hide Both, Derived;
    var front, last := files[..|files| - 1], files[|files| - 1];
    if i == |files| - 1 {
      assert Without(files, i) == front;
    } else {
      DerivedWithout(b, disk, front, i);
      var w := Without(files, i);
      assert w[..|w| - 1] == Without(front, i) && w[|w| - 1] == last;
      BothLaws(DerivedAll(b, disk, Without(front, i)), Derived(b, disk, files[i]), Derived(b, disk, last));
    }
  }

  /** What a run takes does not depend on the order of its files. */
  lemma {:induction false} DerivedIgnoresOrder(b: Build, disk: Disk, files: seq<string>, other: seq<string>)
    requires multiset(files) == multiset(other)
    ensures DerivedAll(b, disk, files) == DerivedAll(b, disk, other)
    decreases |files|
  {
    hide Both, Derived;
    SameLength(files, other);
    if files != [] {
      var n := |files| - 1;
      SameElements(files, other, files[n]);
      var i :| 0 <= i < |other| && other[i] == files[n];
      WithoutEqual(files, n, other, i);
      assert Without(files, n) == files[..n];
      DerivedIgnoresOrder(b, disk, files[..n], Without(other, i));
      DerivedWithout(b, disk, other, i);
    }
  }

  // ----- The reference: a run with no index

  /** The units of the readable files, in file order. */
  function ColdUnits(b: Build, disk: Disk, files: seq<string>): seq<CostUnit> {
    if files == [] then []
    else
      var front, f := ColdUnits(b, disk, files[..|files| - 1]), files[|files| - 1];
      match ReadAt(b, disk, f)
      case Unreadable => front
      case Readable(r, _) => front + [UnitOf(r, b.price, f)]
  }

  /** Every request of every readable file that carries an id, in file order. */
  function ColdLog(b: Build, disk: Disk, files: seq<string>): seq<Req> {
    if files == [] then []
    else
      var front, f := ColdLog(b, disk, files[..|files| - 1]), files[|files| - 1];
      match ReadAt(b, disk, f)
      case Unreadable => front
      case Readable(_, reqs) => front + Offered(reqs)
  }

  datatype Report = Report(
    summary: Summary, unpriced: nat, unreadable: int, total: nat, duplicated: int, unjoinable: nat)

  /** What is published about a corpus when every file is derived anew: the summary of its units, the
      files no table prices, the files nothing could read, and the requests counted twice, which are
      the measured ids beyond the distinct ones. */
  ghost function ColdReport(b: Build, disk: Disk, files: seq<string>, perLane: bool): Report {
    var units, log := ColdUnits(b, disk, files), ColdLog(b, disk, files);
    Report(Published(units, perLane), |Where(units, Unpriced)|, |files| - |units|,
           |log|, |MeasuredIds(log)| - |Ids(log)|, Unmeasured(log))
  }

  lemma NothingHolds()
    ensures Holds([], |Where([], Unpriced)|, 0, [], NO_EFFECT)
  {
  }

  /** One file more, derived from cold. */
  lemma ColdGrows(b: Build, disk: Disk, f: string, units: seq<CostUnit>, unpriced: nat, unreadable: nat,
                  log: seq<Req>, e: Effect)
    requires Holds(units, unpriced, unreadable, log, e)
    ensures match ReadAt(b, disk, f)
            case Unreadable => Holds(units, unpriced, unreadable + 1, log, Both(e, Derived(b, disk, f)))
            case Readable(r, reqs) =>
              var u := UnitOf(r, b.price, f);
              Holds(units + [u], unpriced + (if u.unpriced then 1 else 0), unreadable, log + Offered(reqs),
                    Both(e, Derived(b, disk, f)))
  {
    hide UnitOf, MeasuredIds, Unmeasured, Offered;
    var t := ReadAt(b, disk, f);
    if t.Readable? {
      HoldsGrows(units, unpriced, unreadable, log, e, UnitOf(t.reading, b.price, f), Offered(t.requests));
    }
  }

  lemma {:induction false} ColdHolds(b: Build, disk: Disk, files: seq<string>)
    ensures var units, log := ColdUnits(b, disk, files), ColdLog(b, disk, files);
            |units| <= |files| &&
            Holds(units, |Where(units, Unpriced)|, |files| - |units|, log, DerivedAll(b, disk, files))
  {
    hide Where, UnitOf, MeasuredIds, Unmeasured, Offered, Holds, Both, Derived;
    if files == [] {
      NothingHolds();
    } else {
      var front, f := files[..|files| - 1], files[|files| - 1];
      ColdHolds(b, disk, front);
      var units, log := ColdUnits(b, disk, front), ColdLog(b, disk, front);
      ColdGrows(b, disk, f, units, |Where(units, Unpriced)|, |front| - |units|, log, DerivedAll(b, disk, front));
      if ReadAt(b, disk, f).Readable? {
        WhereAppend(units, UnitOf(ReadAt(b, disk, f).reading, b.price, f), Unpriced);
      }
    }
  }

  /** Two runs whose accumulators hold the same publish the same. */
  lemma SameEffectSameReport(b: Build, disk: Disk, files: seq<string>, perLane: bool,
                             units: seq<CostUnit>, unpriced: nat, unreadable: nat, log: seq<Req>)
    requires Holds(units, unpriced, unreadable, log, DerivedAll(b, disk, files))
    ensures Report(Published(units, perLane), unpriced, unreadable, |log|,
                   |MeasuredIds(log)| - |Ids(log)|, Unmeasured(log)) == ColdReport(b, disk, files, perLane)
  {
    hide Published, DerivedAll, ColdUnits, ColdLog;
    ColdHolds(b, disk, files);
    var cold := ColdLog(b, disk, files);
    PublishedIgnoresLaneOrder(units, ColdUnits(b, disk, files), perLane);
    SameLength(MeasuredIds(log), MeasuredIds(cold));
    LogSplits(log);
    LogSplits(cold);
    assert Ids(log) == Ids(cold) by {
      forall id: string
        ensures id in MeasuredIds(log) <==> id in MeasuredIds(cold)
      {
        SameElements(MeasuredIds(log), MeasuredIds(cold), id);
      }
    }
  }

  /** A report does not depend on the order the files were found in. */
  lemma ReportIgnoresFileOrder(b: Build, disk: Disk, files: seq<string>, other: seq<string>, perLane: bool)
    requires multiset(files) == multiset(other)
    ensures ColdReport(b, disk, files, perLane) == ColdReport(b, disk, other, perLane)
  {
    DerivedIgnoresOrder(b, disk, files, other);
    ColdHolds(b, disk, other);
    var units, log := ColdUnits(b, disk, other), ColdLog(b, disk, other);
    SameEffectSameReport(b, disk, files, perLane, units, |Where(units, Unpriced)|, |other| - |units|, log);
  }

  /** The index file on disk never misleads the build that wrote it. */
  ghost predicate Trusted(file: Stored, schema: string, b: Build) {
    file.Index? && file.schema == schema && file.entries.Some? ==> ValidIndex(b, file.entries.value)
  }

  /** One run of the command, over files that are looked up as they are in `looked`, read as they are
      on `disk` and indexed as they are `later`. Its report is the cold one of the files as they were
      met, whatever mix of indexed and unindexed ones that was. If no file changed between its reading
      and its indexing, the index it leaves can be trusted by the next run, over any corpus, of this
      build; and it can be of every build that keys its index differently. */
  method RunCost(b: Build, schema: string, looked: Disk, disk: Disk, later: Disk, files: seq<string>, perLane: bool,
                 file: Stored, written: bool, renamed: bool)
    returns (r: Report, after: Stored)
    requires Trusted(file, schema, b)
    ensures r == ColdReport(b, Met(Loaded(file, schema, map[]), looked, disk), files, perLane)
    ensures looked == disk ==> r == ColdReport(b, disk, files, perLane)
    ensures (forall f :: f in files ==> Settled(b, disk, later, f)) ==> Trusted(after, schema, b)
    ensures forall s, other :: s != schema && Trusted(file, s, other) ==> Trusted(after, s, other)
  {
    hide Settled, ValidEntry, Met, ColdReport;
    var join := new RequestJoin();
    var cache := new CostCache(schema);
    cache.Load(file);
    ghost var met := Met(cache.entries, looked, disk);
    MetIs(b, cache.entries, looked, disk, "");
    var units, unpriced, unreadable := Walk(b, looked, disk, later, files, cache, join);
    var s := Publish(units, perLane);
    SameEffectSameReport(b, met, files, perLane, units, unpriced, unreadable, join.log);
    LogSplits(join.log);
    if ValidIndex(b, cache.entries) {
      SerialisedStaysValid(b, cache.entries);
    }
    var ok;
    after, ok := cache.Save(file, written, renamed);
    r := Report(s, unpriced, unreadable, join.total, join.duplicated, join.unjoinable);
  }

  lemma SerialisedStaysValid(b: Build, entries: Entries)
    requires ValidIndex(b, entries)
    ensures ValidIndex(b, Serialised(entries))
  {
    forall p | p in Serialised(entries)
      ensures ValidEntry(b, p, Serialised(entries)[p])
    {
      assert ValidEntry(b, p, entries[p]);
    }
  }
}
