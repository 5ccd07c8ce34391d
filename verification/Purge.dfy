/** Erasing one session's records from inside ledger files that hold other sessions too, after saving
    them: no point at which the command can stop loses a record. */
module Purge {
  import opened Wrappers
  import opened Sorting
  import opened Strings

  // ----- Lines

  function Split(body: string): (lines: seq<string>)
    ensures lines != []
    ensures forall l :: l in lines ==> '\n' !in l
  {
    if body == "" then [""]
    else
      var rest := Split(body[1..]);
      if body[0] == '\n' then [""] + rest else [[body[0]] + rest[0]] + rest[1..]
  }

  function Join(lines: seq<string>): string {
    if lines == [] then ""
    else if |lines| == 1 then lines[0]
    else lines[0] + "\n" + Join(lines[1..])
  }

  /** Each line with its newline. */
  function Text(lines: seq<string>): string {
    if lines == [] then "" else Text(lines[..|lines| - 1]) + lines[|lines| - 1] + "\n"
  }

  /** The session of a record, if the line parses as one. */
  type Parser = string -> Option<string>

  predicate Matches(line: string, id: string, parse: Parser) {
    !Blank(line) && parse(line) == Some(id)
  }

  predicate Keeps(line: string, id: string, parse: Parser) {
    !Blank(line) && parse(line) != Some(id)
  }

  /** The records of the session in a file, and the lines a rewrite keeps. */
  function Hits(body: string, id: string, parse: Parser): seq<string> {
    Filter(Split(body), (l: string) => Matches(l, id, parse))
  }

  function Kept(body: string, id: string, parse: Parser): seq<string> {
    Filter(Split(body), (l: string) => Keeps(l, id, parse))
  }

  // ----- Files

  type Files = map<string, string>

  /** How a file operation goes. A write that fails may leave part of what it was writing. */
  datatype Outcome = Succeeds | Fails(left: Option<string>)

  /** What walking the ledger directory meets: a ledger file, readable or not, or a path that cannot be
      inspected. Directories and files of other names are passed over. */
  datatype Visit = Ledger(path: string, readable: bool) | Uninspected

  class FileSystem {
    var files: Files
    /** Every state the files have been in, those a failing write leaves included. */
    ghost var past: seq<Files>

    constructor (files: Files)
      ensures this.files == files && past == [files]
    {
      this.files := files;
      past := [files];
    }

    method WriteFile(path: string, content: string, outcome: Outcome) returns (ok: bool)
      modifies this
      ensures ok == outcome.Succeeds?
      ensures files == Written(old(files), path, content, outcome)
      ensures past == old(past) + [files]
    {
      match outcome {
        case Succeeds => files := files[path := content];
        case Fails(Some(part)) => files := files[path := part];
        case Fails(None) =>
      }
      past := past + [files];
      return outcome.Succeeds?;
    }

    /** Atomic: the old name is gone and the new name holds its content, or nothing happened. */
    method Rename(from: string, to: string, outcome: Outcome) returns (ok: bool)
      requires from in files && from != to
      modifies this
      ensures ok == outcome.Succeeds?
      ensures files == if ok then Renamed(old(files), from, to) else old(files)
      ensures past == old(past) + [files]
    {
      if outcome.Succeeds? {
        files := (files - {from})[to := files[from]];
      }
      past := past + [files];
      return outcome.Succeeds?;
    }
  }

  function Written(files: Files, path: string, content: string, outcome: Outcome): Files {
    match outcome
    case Succeeds => files[path := content]
    case Fails(Some(part)) => files[path := part]
    case Fails(None) => files
  }

  function Renamed(files: Files, from: string, to: string): Files
    requires from in files
  {
    (files - {from})[to := files[from]]
  }

  // ----- What is to be done

  datatype Rewrite = Rewrite(path: string, kept: seq<string>)

  /** The files that are read. */
  predicate Read(v: Visit, files: Files) {
    v.Ledger? && v.readable && v.path in files
  }

  function AllHits(files: Files, walk: seq<Visit>, id: string, parse: Parser): seq<string> {
    if walk == [] then []
    else
      var front, v := AllHits(files, walk[..|walk| - 1], id, parse), walk[|walk| - 1];
      if Read(v, files) then front + Hits(files[v.path], id, parse) else front
  }

  function Rewrites(files: Files, walk: seq<Visit>, id: string, parse: Parser): seq<Rewrite> {
    if walk == [] then []
    else
      var front, v := Rewrites(files, walk[..|walk| - 1], id, parse), walk[|walk| - 1];
      if Read(v, files) && Hits(files[v.path], id, parse) != [] then
        front + [Rewrite(v.path, Kept(files[v.path], id, parse))]
      else front
  }

  /** The records that were looked at, and the paths that could not be. */
  function Scanned(files: Files, walk: seq<Visit>): nat {
    if walk == [] then 0
    else
      var front, v := Scanned(files, walk[..|walk| - 1]), walk[|walk| - 1];
      if Read(v, files) then front + |Filter(Split(files[v.path]), (l: string) => !Blank(l))| else front
  }

  function Unreadable(files: Files, walk: seq<Visit>): nat {
    |Filter(walk, (v: Visit) => !Read(v, files))|
  }

  /** Every record that was looked at is a hit or is kept. */
  lemma ScannedAreHitsAndKept(body: string, id: string, parse: Parser)
    ensures |Filter(Split(body), (l: string) => !Blank(l))| == |Hits(body, id, parse)| + |Kept(body, id, parse)|
  {
    hide Blank;
    FilterSplits(Split(body), (l: string) => !Blank(l), (l: string) => Matches(l, id, parse),
                 (l: string) => Keeps(l, id, parse));
  }

  lemma {:induction false} FilterSplits(lines: seq<string>, all: string -> bool, some: string -> bool,
                                        others: string -> bool)
    requires forall l :: all(l) <==> some(l) || others(l)
    requires forall l :: !(some(l) && others(l))
    ensures |Filter(lines, all)| == |Filter(lines, some)| + |Filter(lines, others)|
  {
    if lines != [] {
      FilterSplits(lines[..|lines| - 1], all, some, others);
    }
  }

  datatype Tallied = Tallied(exported: seq<string>, pending: seq<Rewrite>, scanned: nat, unreadable: nat)

  method Scan(files: Files, walk: seq<Visit>, id: string, parse: Parser) returns (t: Tallied)
    ensures t.exported == AllHits(files, walk, id, parse)
    ensures t.pending == Rewrites(files, walk, id, parse)
    ensures t.scanned == Scanned(files, walk) && t.unreadable == Unreadable(files, walk)
  {
    hide Split, AllHits, Rewrites, Scanned, Unreadable, Matches, Keeps, Blank;
    t := Tallied([], [], 0, 0);
    NothingWalked(files, id, parse);
    assert walk[..0] == [] && walk[..|walk|] == walk;
    for n := 0 to |walk|
      invariant t == TalliedOf(files, walk[..n], id, parse)
    {
      var v := walk[n];
      assert walk[..n + 1] == walk[..n] + [v];
      OneMoreWalked(files, walk[..n], v, id, parse);
      if !v.Ledger? || !v.readable || v.path !in files {
        t := t.(unreadable := t.unreadable + 1);
        continue;
      }
      var lines := Split(files[v.path]);
      var hits, kept, scanned := ScanLines(lines, id, parse);
      t := t.(scanned := t.scanned + scanned, exported := t.exported + hits);
      if hits == [] {
        continue;
      }
      t := t.(pending := t.pending + [Rewrite(v.path, kept)]);
    }
  }

  function TalliedOf(files: Files, walk: seq<Visit>, id: string, parse: Parser): Tallied {
    Tallied(AllHits(files, walk, id, parse), Rewrites(files, walk, id, parse), Scanned(files, walk),
            Unreadable(files, walk))
  }

  lemma NothingWalked(files: Files, id: string, parse: Parser)
    ensures TalliedOf(files, [], id, parse) == Tallied([], [], 0, 0)
  {
  }

  lemma OneMoreWalked(files: Files, walk: seq<Visit>, v: Visit, id: string, parse: Parser)
    ensures var t := TalliedOf(files, walk, id, parse);
            TalliedOf(files, walk + [v], id, parse)
            == if !Read(v, files) then t.(unreadable := t.unreadable + 1)
               else
                 var body := files[v.path];
                 Tallied(t.exported + Hits(body, id, parse),
                         if Hits(body, id, parse) == [] then t.pending
                         else t.pending + [Rewrite(v.path, Kept(body, id, parse))],
                         t.scanned + |Filter(Split(body), (l: string) => !Blank(l))|,
                         t.unreadable)
  {
    hide Hits, Kept, Split;
    assert (walk + [v])[..|walk|] == walk;
    FilterAppend(walk, v, (v: Visit) => !Read(v, files));
  }

  method ScanLines(lines: seq<string>, id: string, parse: Parser)
    returns (hits: seq<string>, kept: seq<string>, scanned: nat)
    ensures hits == Filter(lines, (l: string) => Matches(l, id, parse))
    ensures kept == Filter(lines, (l: string) => Keeps(l, id, parse))
    ensures scanned == |Filter(lines, (l: string) => !Blank(l))|
  {
    hits, kept, scanned := [], [], 0;
    ghost var isHit, isKept := (l: string) => Matches(l, id, parse), (l: string) => Keeps(l, id, parse);
    ghost var isScanned := (l: string) => !Blank(l);
    for i := 0 to |lines|
      invariant hits == Filter(lines[..i], isHit) && kept == Filter(lines[..i], isKept)
      invariant scanned == |Filter(lines[..i], isScanned)|
    {
      assert lines[..i + 1][..i] == lines[..i];
      var line := lines[i];
      if Blank(line) {
        continue;
      }
      scanned := scanned + 1;
      if parse(line) == Some(id) {
        hits := hits + [line];
        continue;
      }
      kept := kept + [line];
    }
    assert lines[..|lines|] == lines;
  }

  // ----- Doing it

  /** How the command ends, with the counts it reports. */
  datatype Result =
    | Refused
    | NothingMatched(scanned: nat, unreadable: nat)
    | DryRun(matched: nat, from: nat, unreadable: nat)
    | Removed(matched: nat, from: nat, unreadable: nat)
    | ExportFailed
    | Stopped

  /** The files once the first rewrites are through. */
  function Rewritten(files: Files, pending: seq<Rewrite>): Files {
    if pending == [] then files
    else
      var r := pending[|pending| - 1];
      (Rewritten(files, pending[..|pending| - 1]) - {TmpOf(r.path)})[r.path := Text(r.kept)]
  }

  function Saved(files: Files, exportTo: Option<string>, exported: seq<string>): Files {
    match exportTo
    case None => files
    case Some(path) => files[path := Text(exported)]
  }

  method Export(fs: FileSystem, path: string, exported: seq<string>, outcome: Outcome) returns (ok: bool)
    modifies fs
    ensures ok == outcome.Succeeds?
    ensures fs.files == Written(old(fs.files), path, Text(exported), outcome)
    ensures fs.past == old(fs.past) + [fs.files]
  {
    var buf := "";
    for i := 0 to |exported|
      invariant buf == Text(exported[..i])
    {
      assert exported[..i + 1][..i] == exported[..i];
      buf := buf + exported[i];
      buf := buf + "\n";
    }
    assert exported[..|exported|] == exported;
    ok := fs.WriteFile(path, buf, outcome);
  }

  predicate IsLedgerName(path: string) {
    |path| >= 6 && path[|path| - 6..] == ".jsonl"
  }

  /** A walk meets only ledger names, each at most once. */
  predicate IsWalk(walk: seq<Visit>) {
    && (forall i :: 0 <= i < |walk| && walk[i].Ledger? ==> IsLedgerName(walk[i].path))
    && (forall i, j :: 0 <= i < j < |walk| && walk[i].Ledger? && walk[j].Ledger? ==> walk[i].path != walk[j].path)
  }

  /** A walk of a directory as it is: each ledger name below it once, and of the files so named all
      that can be reached and read. What cannot be is the same from one walk to the next. */
  ghost predicate IsWalkOf(walk: seq<Visit>, files: Files, dir: string, reach: string -> bool) {
    && IsWalk(walk)
    && (forall v :: v in walk && v.Ledger? ==>
          InLedger(v.path, dir) && v.readable == (v.path in files && reach(v.path)))
    && (forall p :: p in files && InLedger(p, dir) && reach(p) ==> Ledger(p, true) in walk)
  }

  predicate InLedger(path: string, dir: string) {
    IsLedgerName(path) && IsBelow(path, dir)
  }

  /** Is this the directory, or a path below it? */
  predicate IsBelow(path: string, dir: string) {
    path == dir || (if dir != "" && dir[|dir| - 1] == '/' then dir else dir + "/") <= path
  }

  /** The export goes to no ledger file that the walk can read, and to no sibling of one that will be
      rewritten. */
  predicate Clear(files: Files, walk: seq<Visit>, id: string, parse: Parser, exportTo: Option<string>) {
    && (forall v :: v in walk && v.Ledger? && v.readable ==> exportTo != Some(v.path))
    && (forall r :: r in Rewrites(files, walk, id, parse) ==> exportTo != Some(TmpOf(r.path)))
  }

  predicate HasExport(s: Files, exportTo: Option<string>, exported: seq<string>) {
    exportTo.Some? ==> exportTo.value in s && s[exportTo.value] == Text(exported)
  }

  predicate SameAt(s: Files, t: Files, path: string) {
    (path in s <==> path in t) && (path in s && path in t ==> s[path] == t[path])
  }

  /** A state the command may be in: a file to be rewritten holds what it held, or its rewritten
      content with the export complete; and no other file but the siblings and the export has
      changed. */
  ghost predicate Stage(s: Files, start: Files, pending: seq<Rewrite>, exportTo: Option<string>,
                        exported: seq<string>) {
    && (forall r :: r in pending ==>
          || SameAt(s, start, r.path)
          || (r.path in s && s[r.path] == Text(r.kept) && HasExport(s, exportTo, exported)))
    && (forall p :: (forall r :: r in pending ==> p != r.path && p != TmpOf(r.path)) && exportTo != Some(p) ==>
          SameAt(s, start, p))
  }

  lemma TmpIsNoLedger(p: string, q: string)
    requires IsLedgerName(q)
    ensures TmpOf(p) != q && TmpOf(p) != p
  {
    var t := TmpOf(p);
    assert t[|t| - 1] == 'p' && |t| == |p| + 4;
    assert q[|q| - 1] == q[|q| - 6..][5] == 'l';
  }

  ghost predicate Apart(pending: seq<Rewrite>, exportTo: Option<string>) {
    && (forall r :: r in pending ==>
          IsLedgerName(r.path) && exportTo != Some(r.path) && exportTo != Some(TmpOf(r.path)))
    && (forall i, j :: 0 <= i < j < |pending| ==> pending[i].path != pending[j].path)
  }

  lemma {:induction false} RewritesAreWalked(files: Files, walk: seq<Visit>, id: string, parse: Parser, r: Rewrite)
    ensures r in Rewrites(files, walk, id, parse) <==>
            exists v :: v in walk && Read(v, files) && Hits(files[v.path], id, parse) != []
                        && r == Rewrite(v.path, Kept(files[v.path], id, parse))
  {
    hide Hits, Kept;
    if walk != [] {
      RewritesAreWalked(files, walk[..|walk| - 1], id, parse, r);
      assert walk == walk[..|walk| - 1] + [walk[|walk| - 1]];
    }
  }

  lemma {:induction false} RewritesAreDistinct(files: Files, walk: seq<Visit>, id: string, parse: Parser)
    requires IsWalk(walk)
    ensures Apart(Rewrites(files, walk, id, parse), None)
  {
    hide Hits, Kept, IsLedgerName;
    if walk != [] {
      var front, v := walk[..|walk| - 1], walk[|walk| - 1];
      RewritesAreDistinct(files, front, id, parse);
      var before := Rewrites(files, front, id, parse);
      if v.Ledger? {
        forall r | r in before
          ensures r.path != v.path
        {
          RewritesAreWalked(files, front, id, parse, r);
          var u :| u in front && Read(u, files) && u.path == r.path;
          var i :| 0 <= i < |front| && front[i] == u;
          assert walk[i] == u;
        }
      }
    }
  }

  lemma RewritesAreApart(start: Files, walk: seq<Visit>, id: string, parse: Parser, exportTo: Option<string>)
    requires IsWalk(walk) && Clear(start, walk, id, parse, exportTo)
    ensures Apart(Rewrites(start, walk, id, parse), exportTo)
  {
    hide Hits, Kept, IsLedgerName, Rewrites;
    RewritesAreDistinct(start, walk, id, parse);
    forall r | r in Rewrites(start, walk, id, parse)
      ensures exportTo != Some(r.path)
    {
      RewritesAreWalked(start, walk, id, parse, r);
    }
  }

  /** A write of the export, whole or in part, or of a sibling, leaves every ledger file alone. */
  lemma WriteKeepsStage(s: Files, start: Files, pending: seq<Rewrite>, exportTo: Option<string>, exported: seq<string>,
                        path: string, content: string, outcome: Outcome)
    requires Apart(pending, exportTo) && Stage(s, start, pending, exportTo, exported)
    requires exportTo == Some(path) || exists r :: r in pending && path == TmpOf(r.path)
    requires exportTo == Some(path) ==> forall r :: r in pending ==> SameAt(s, start, r.path)
    ensures Stage(Written(s, path, content, outcome), start, pending, exportTo, exported)
    ensures exportTo != Some(path) && HasExport(s, exportTo, exported) ==>
              HasExport(Written(s, path, content, outcome), exportTo, exported)
  {
    hide IsLedgerName;
    forall r | r in pending
      ensures path != r.path
    {
      if q :| q in pending && path == TmpOf(q.path) {
        TmpIsNoLedger(q.path, r.path);
      }
    }
  }

  lemma RenameKeepsStage(s: Files, start: Files, pending: seq<Rewrite>, exportTo: Option<string>,
                         exported: seq<string>, r: Rewrite)
    requires Apart(pending, exportTo) && Stage(s, start, pending, exportTo, exported) && r in pending
    requires TmpOf(r.path) in s && s[TmpOf(r.path)] == Text(r.kept) && HasExport(s, exportTo, exported)
    ensures var after := Renamed(s, TmpOf(r.path), r.path);
            Stage(after, start, pending, exportTo, exported) && HasExport(after, exportTo, exported)
  {
    hide IsLedgerName, Text, TmpOf;
    forall q | q in pending
      ensures TmpOf(r.path) != q.path
    {
      TmpIsNoLedger(r.path, q.path);
    }
  }

  lemma {:induction false} JoinedIsText(lines: seq<string>)
    requires forall l :: l in lines ==> l != ""
    ensures Text(lines) == if Join(lines) == "" then "" else Join(lines) + "\n"
    ensures lines != [] ==> Join(lines) != ""
  {
    hide Text;
    NoText();
    if |lines| == 1 {
      TextAppend([], lines[0]);
      assert [] + [lines[0]] == lines && lines[0] in lines;
    } else if |lines| > 1 {
      assert forall i :: 1 <= i < |lines| ==> lines[i] in lines;
      JoinedIsText(lines[1..]);
      TextBehind([lines[0]], lines[1..]);
      TextAppend([], lines[0]);
      assert [] + [lines[0]] == [lines[0]] && lines == [lines[0]] + lines[1..] && lines[0] in lines;
    }
  }

  lemma TextAppend(lines: seq<string>, last: string)
    ensures Text(lines + [last]) == Text(lines) + last + "\n"
  {
    assert (lines + [last])[..|lines|] == lines;
  }

  lemma {:induction false} TextBehind(a: seq<string>, b: seq<string>)
    ensures Text(a + b) == Text(a) + Text(b)
  {
    hide Text;
    if b == [] {
      NoText();
      assert a + b == a;
    } else {
      var front, last := b[..|b| - 1], b[|b| - 1];
      TextBehind(a, front);
      TextAppend(a + front, last);
      TextAppend(front, last);
      assert a + b == (a + front) + [last] && b == front + [last];
    }
  }

  lemma NoText()
    ensures Text([]) == ""
  {
  }

  lemma KeptAreNotEmpty(body: string, id: string, parse: Parser)
    ensures forall l :: l in Kept(body, id, parse) ==> Keeps(l, id, parse) && l != "" && '\n' !in l
  {
    FilterAre(Split(body), (l: string) => Keeps(l, id, parse));
  }

  /** One file rewritten through its sibling. */
  method RewriteFile(fs: FileSystem, r: Rewrite, writing: Outcome, renaming: Outcome) returns (ok: bool)
    requires forall l :: l in r.kept ==> l != ""
    modifies fs
    ensures ok == (writing.Succeeds? && renaming.Succeeds?)
    ensures var written := Written(old(fs.files), TmpOf(r.path), Text(r.kept), writing);
            && (ok ==> fs.files == Renamed(written, TmpOf(r.path), r.path))
            && (!ok ==> fs.files == written)
            && fs.past == old(fs.past) + [written] + if writing.Succeeds? then [fs.files] else []
  {
    JoinedIsText(r.kept);
    var out := Join(r.kept);
    if out != "" {
      out := out + "\n";
    }
    var tmp := TmpOf(r.path);
    assert |tmp| == |r.path| + 4;
    ok := fs.WriteFile(tmp, out, writing);
    if !ok {
      return false;
    }
    ok := fs.Rename(tmp, r.path, renaming);
  }

  /** Every state from some point on is one the command may be in. */
  ghost predicate Stages(past: seq<Files>, from: nat, start: Files, pending: seq<Rewrite>, exportTo: Option<string>,
                         exported: seq<string>) {
    forall k :: from <= k < |past| ==> Stage(past[k], start, pending, exportTo, exported)
  }

  lemma StagesAppend(past: seq<Files>, more: seq<Files>, from: nat, start: Files, pending: seq<Rewrite>,
                     exportTo: Option<string>, exported: seq<string>)
    requires Stages(past, from, start, pending, exportTo, exported)
    requires forall s :: s in more ==> Stage(s, start, pending, exportTo, exported)
    ensures Stages(past + more, from, start, pending, exportTo, exported)
  {
    forall k | |past| <= k < |past + more|
      ensures (past + more)[k] in more
    {
    }
  }

  /** One deferred rewrite, and where it can leave the files. */
  lemma RewriteStays(here: Files, start: Files, pending: seq<Rewrite>, exportTo: Option<string>,
                     exported: seq<string>, r: Rewrite, writing: Outcome)
    requires Apart(pending, exportTo) && Stage(here, start, pending, exportTo, exported) && r in pending
    requires HasExport(here, exportTo, exported)
    ensures var written := Written(here, TmpOf(r.path), Text(r.kept), writing);
            && Stage(written, start, pending, exportTo, exported)
            && (writing.Succeeds? ==>
                  && Stage(Renamed(written, TmpOf(r.path), r.path), start, pending, exportTo, exported)
                  && HasExport(Renamed(written, TmpOf(r.path), r.path), exportTo, exported))
  {
    hide Stage, Text;
    ApartTmp(pending, exportTo, r);
    WriteKeepsStage(here, start, pending, exportTo, exported, TmpOf(r.path), Text(r.kept), writing);
    if writing.Succeeds? {
      RenameKeepsStage(Written(here, TmpOf(r.path), Text(r.kept), writing), start, pending, exportTo, exported, r);
    }
  }

  method RewriteAll(fs: FileSystem, pending: seq<Rewrite>, faults: nat -> Outcome,
                    ghost start: Files, ghost exportTo: Option<string>, ghost exported: seq<string>, ghost apart: bool)
    returns (ok: bool)
    requires forall r, l :: r in pending && l in r.kept ==> l != ""
    requires apart ==> Apart(pending, exportTo)
    requires apart ==> Stage(fs.files, start, pending, exportTo, exported) && HasExport(fs.files, exportTo, exported)
    modifies fs
    ensures ok ==> fs.files == Rewritten(old(fs.files), pending)
    ensures (forall n :: faults(n).Succeeds?) ==> ok
    ensures |old(fs.past)| <= |fs.past| && fs.past[..|old(fs.past)|] == old(fs.past)
    ensures apart ==> Stages(fs.past, |old(fs.past)|, start, pending, exportTo, exported)
  {
    hide Stage, Apart, Text, Rewritten, HasExport, Stages;
    ghost var saved := fs.files;
    NothingRewritten(saved);
    NoStages(fs.past, start, pending, exportTo, exported);
    assert pending[..0] == [] && pending[..|pending|] == pending;
    for i := 0 to |pending|
      invariant fs.files == Rewritten(saved, pending[..i])
      invariant |old(fs.past)| <= |fs.past| && fs.past[..|old(fs.past)|] == old(fs.past)
      invariant apart ==> Stage(fs.files, start, pending, exportTo, exported) && HasExport(fs.files, exportTo, exported)
      invariant apart ==> Stages(fs.past, |old(fs.past)|, start, pending, exportTo, exported)
    {
      var r := pending[i];
      ghost var before := fs.past;
      RewrittenNext(saved, pending, i);
      if apart {
        RewriteStays(fs.files, start, pending, exportTo, exported, r, faults(2 * i + 1));
      }
      ok := RewriteFile(fs, r, faults(2 * i + 1), faults(2 * i + 2));
      if apart {
        assert fs.past == before + fs.past[|before|..];
        StagesAppend(before, fs.past[|before|..], |old(fs.past)|, start, pending, exportTo, exported);
      }
      if !ok {
        return false;
      }
    }
    return true;
  }

  lemma NoStages(past: seq<Files>, start: Files, pending: seq<Rewrite>, exportTo: Option<string>, exported: seq<string>)
    ensures Stages(past, |past|, start, pending, exportTo, exported)
  {
  }

  /** The command. `faults` says how each of its file operations goes: the two of each rewrite in
      turn, from the first on, and the export before them. A stop at any point is a state of
      `past`. */
  method PurgeSession(fs: FileSystem, walk: seq<Visit>, id: string, parse: Parser, exportTo: Option<string>, yes: bool,
                      faults: nat -> Outcome)
    returns (result: Result)
    modifies fs
    ensures var start := old(fs.files);
            var exported, todo := AllHits(start, walk, id, parse), if yes then Rewrites(start, walk, id, parse) else [];
            var from, unreadable := |Rewrites(start, walk, id, parse)|, Unreadable(start, walk);
            && (Blank(id) ==> result == Refused && fs.files == start)
            && (!Blank(id) && exported == [] ==>
                  result == NothingMatched(Scanned(start, walk), unreadable) && fs.files == start)
            && (result.Removed? ==>
                  && yes && result == Removed(|exported|, from, unreadable)
                  && fs.files == End(start, walk, id, parse, exportTo))
            && (result.DryRun? ==>
                  && !yes && result == DryRun(|exported|, from, unreadable)
                  && fs.files == Saved(start, exportTo, exported))
            && (!Blank(id) && exported != [] && (forall n :: faults(n).Succeeds?) ==>
                  if yes then result.Removed? else result.DryRun?)
            && |old(fs.past)| <= |fs.past| && fs.past[..|old(fs.past)|] == old(fs.past)
            && (IsWalk(walk) && Clear(start, walk, id, parse, exportTo) ==>
                  Stages(fs.past, |old(fs.past)|, start, todo, exportTo, exported))
  {
    hide AllHits, Rewrites, Stage, Apart, Text, Rewritten, IsWalk, Clear, Blank, Stages, Scanned, Unreadable;
    ghost var start, before := fs.files, fs.past;
    NoStages(before, start, if yes then Rewrites(start, walk, id, parse) else [], exportTo,
             AllHits(start, walk, id, parse));
    if Blank(id) {
      return Refused;
    }
    var t := Scan(fs.files, walk, id, parse);
    var exported, pending := t.exported, if yes then t.pending else [];
    var matched, from := |exported|, |t.pending|;
    if matched == 0 {
      return NothingMatched(t.scanned, t.unreadable);
    }
    ghost var apart := IsWalk(walk) && Clear(start, walk, id, parse, exportTo);
    PlanIsSound(start, walk, id, parse, exportTo, exported, yes);
    if exportTo.Some? {
      if apart {
        ExportStays(start, pending, exportTo.value, exported, faults(0));
      }
      var ok := Export(fs, exportTo.value, exported, faults(0));
      if apart {
        StagesAppend(before, [fs.files], |before|, start, pending, exportTo, exported);
      }
      if !ok {
        return ExportFailed;
      }
    }
    assert fs.files == Saved(start, exportTo, exported);
    ghost var saved := fs.past;
    var ok := RewriteAll(fs, pending, faults, start, exportTo, exported, apart);
    if apart {
      assert fs.past == saved + fs.past[|saved|..];
      StagesRest(fs.past, |saved|, start, pending, exportTo, exported);
      StagesAppend(saved, fs.past[|saved|..], |before|, start, pending, exportTo, exported);
    }
    assert fs.past[..|before|] == fs.past[..|saved|][..|before|];
    if !ok {
      return Stopped;
    }
    NothingRewritten(Saved(start, exportTo, exported));
    result := if yes then Removed(matched, from, t.unreadable) else DryRun(matched, from, t.unreadable);
  }

  lemma StagesRest(past: seq<Files>, from: nat, start: Files, pending: seq<Rewrite>, exportTo: Option<string>,
                   exported: seq<string>)
    requires from <= |past| && Stages(past, from, start, pending, exportTo, exported)
    ensures forall s :: s in past[from..] ==> Stage(s, start, pending, exportTo, exported)
  {
  }

  lemma ExportStays(start: Files, pending: seq<Rewrite>, path: string, exported: seq<string>, outcome: Outcome)
    requires Apart(pending, Some(path))
    ensures var after := Written(start, path, Text(exported), outcome);
            && Stage(after, start, pending, Some(path), exported)
            && (outcome.Succeeds? ==> HasExport(after, Some(path), exported))
  {
    hide Text, IsLedgerName;
    WriteKeepsStage(start, start, pending, Some(path), exported, path, Text(exported), outcome);
  }

  lemma NothingRewritten(files: Files)
    ensures Rewritten(files, []) == files
  {
  }

  lemma RewrittenNext(files: Files, pending: seq<Rewrite>, i: nat)
    requires i < |pending|
    ensures var r := pending[i];
            && Rewritten(files, pending[..i + 1])
               == (Rewritten(files, pending[..i]) - {TmpOf(r.path)})[r.path := Text(r.kept)]
            && Rewritten(files, pending[..i + 1])
               == Renamed(Rewritten(files, pending[..i])[TmpOf(r.path) := Text(r.kept)], TmpOf(r.path), r.path)
  {
    assert pending[..i + 1][..i] == pending[..i];
  }

  lemma ApartTmp(pending: seq<Rewrite>, exportTo: Option<string>, r: Rewrite)
    requires Apart(pending, exportTo) && r in pending
    ensures exportTo != Some(TmpOf(r.path))
  {
  }

  lemma PlanIsSound(start: Files, walk: seq<Visit>, id: string, parse: Parser, exportTo: Option<string>,
                    exported: seq<string>, yes: bool)
    ensures var pending := if yes then Rewrites(start, walk, id, parse) else [];
            && Stage(start, start, pending, exportTo, exported)
            && (forall r, l :: r in pending && l in r.kept ==> l != "")
            && (IsWalk(walk) && Clear(start, walk, id, parse, exportTo) ==> Apart(pending, exportTo))
  {
    forall r | r in Rewrites(start, walk, id, parse)
      ensures forall l :: l in r.kept ==> l != ""
    {
      RewritesAreWalked(start, walk, id, parse, r);
      var v :| v in walk && Read(v, start) && r == Rewrite(v.path, Kept(start[v.path], id, parse));
      KeptAreNotEmpty(start[v.path], id, parse);
    }
    if IsWalk(walk) && Clear(start, walk, id, parse, exportTo) {
      RewritesAreApart(start, walk, id, parse, exportTo);
    }
  }

  // ----- What is where

  lemma {:induction false} SplitAcross(line: string, rest: string)
    requires '\n' !in line
    ensures Split(line + "\n" + rest) == [line] + Split(rest)
  {
    var body := line + "\n" + rest;
    if line == "" {
      assert body[1..] == rest;
    } else {
      assert line[0] in line && forall c :: c in line[1..] ==> c in line;
      SplitAcross(line[1..], rest);
      assert body[1..] == line[1..] + "\n" + rest;
      assert [line[0]] + line[1..] == line;
    }
  }

  /** Lines written with their newlines read back as those lines, and nothing behind the last. */
  lemma {:induction false} SplitOfText(lines: seq<string>)
    requires forall l :: l in lines ==> '\n' !in l
    ensures Split(Text(lines)) == lines + [""]
  {
    hide Split;
    if lines == [] {
      SplitOfNothing();
    } else {
      assert lines[0] in lines && forall l :: l in lines[1..] ==> l in lines;
      SplitOfText(lines[1..]);
      SplitAcross(lines[0], Text(lines[1..]));
      TextBehind([lines[0]], lines[1..]);
      NoText();
      TextAppend([], lines[0]);
      assert [] + [lines[0]] == [lines[0]] && lines == [lines[0]] + lines[1..];
      assert Text(lines) == lines[0] + "\n" + Text(lines[1..]);
    }
  }

  lemma SplitOfNothing()
    ensures Split("") == [""]
  {
  }

  /** How often a line is in a file. */
  function Occurrences(body: string, line: string): nat {
    multiset(Split(body))[line]
  }

  lemma OccurrencesInText(lines: seq<string>, line: string)
    requires forall l :: l in lines ==> '\n' !in l
    requires !Blank(line)
    ensures Occurrences(Text(lines), line) == multiset(lines)[line]
  {
    hide Split, Text;
    SplitOfText(lines);
  }

  lemma KeptOccurrences(body: string, id: string, parse: Parser, line: string)
    requires !Blank(line)
    ensures Occurrences(Text(Kept(body, id, parse)), line)
         == if Keeps(line, id, parse) then Occurrences(body, line) else 0
  {
    hide Split, Text;
    KeptAreNotEmpty(body, id, parse);
    OccurrencesInText(Kept(body, id, parse), line);
    FilterCounts(Split(body), (l: string) => Keeps(l, id, parse), line);
  }

  lemma {:induction false} HitsAreLines(files: Files, walk: seq<Visit>, id: string, parse: Parser)
    ensures forall l :: l in AllHits(files, walk, id, parse) ==> Matches(l, id, parse) && '\n' !in l
  {
    if walk != [] {
      HitsAreLines(files, walk[..|walk| - 1], id, parse);
      var v := walk[|walk| - 1];
      if Read(v, files) {
        FilterAre(Split(files[v.path]), (l: string) => Matches(l, id, parse));
      }
    }
  }

  lemma {:induction false} HitsAreAmongAll(files: Files, walk: seq<Visit>, id: string, parse: Parser, v: Visit,
                                           line: string)
    requires v in walk && Read(v, files)
    ensures Matches(line, id, parse) ==>
              multiset(AllHits(files, walk, id, parse))[line] >= Occurrences(files[v.path], line)
  {
    var front, last := walk[..|walk| - 1], walk[|walk| - 1];
    assert walk == front + [last];
    if v == last {
      FilterCounts(Split(files[v.path]), (l: string) => Matches(l, id, parse), line);
    } else {
      HitsAreAmongAll(files, front, id, parse, v, line);
    }
  }

  /** Where the lines of a ledger file are, in any state the command can be in. Every line that is
      not the session's is in its file as often as it was. Every record of the session is in its
      file as often as it was, or the export, if one was asked for, holds them all. */
  lemma NoRecordIsLost(s: Files, start: Files, walk: seq<Visit>, id: string, parse: Parser, exportTo: Option<string>,
                       yes: bool, v: Visit, line: string)
    requires IsWalk(walk) && Clear(start, walk, id, parse, exportTo)
    requires var exported := AllHits(start, walk, id, parse);
             var todo := if yes then Rewrites(start, walk, id, parse) else [];
             Stage(s, start, todo, exportTo, exported)
    requires v in walk && Read(v, start) && !Blank(line)
    ensures v.path in s
    ensures Keeps(line, id, parse) ==> Occurrences(s[v.path], line) == Occurrences(start[v.path], line)
    ensures Matches(line, id, parse) ==>
              || Occurrences(s[v.path], line) == Occurrences(start[v.path], line)
              || (yes && (exportTo.Some? ==>
                    && exportTo.value in s
                    && Occurrences(s[exportTo.value], line) == multiset(AllHits(start, walk, id, parse))[line]
                    && Occurrences(s[exportTo.value], line) >= Occurrences(start[v.path], line)))
  {
    hide Occurrences, Text, AllHits, Blank, Hits, Kept, Split, IsLedgerName;
    var exported := AllHits(start, walk, id, parse);
    var todo := if yes then Rewrites(start, walk, id, parse) else [];
    FileAtStage(s, start, walk, id, parse, exportTo, yes, v);
    KeptOccurrences(start[v.path], id, parse, line);
    if exportTo.Some? && HasExport(s, exportTo, exported) {
      HitsAreLines(start, walk, id, parse);
      OccurrencesInText(exported, line);
    }
    HitsAreAmongAll(start, walk, id, parse, v, line);
  }

  lemma FileAtStage(s: Files, start: Files, walk: seq<Visit>, id: string, parse: Parser, exportTo: Option<string>,
                    yes: bool, v: Visit)
    requires IsWalk(walk) && Clear(start, walk, id, parse, exportTo)
    requires var exported := AllHits(start, walk, id, parse);
             var todo := if yes then Rewrites(start, walk, id, parse) else [];
             Stage(s, start, todo, exportTo, exported)
    requires v in walk && Read(v, start)
    ensures || SameAt(s, start, v.path)
            || (yes && v.path in s && s[v.path] == Text(Kept(start[v.path], id, parse))
                && HasExport(s, exportTo, AllHits(start, walk, id, parse)))
  {
    hide Text, AllHits, Hits, Kept, IsLedgerName;
    var todo := if yes then Rewrites(start, walk, id, parse) else [];
    var n :| 0 <= n < |walk| && walk[n] == v;
    if r :| r in todo && r.path == v.path {
      RewritesAreWalked(start, walk, id, parse, r);
      var u :| u in walk && Read(u, start) && r == Rewrite(u.path, Kept(start[u.path], id, parse));
    } else {
      forall r | r in todo
        ensures v.path != r.path && v.path != TmpOf(r.path)
      {
        TmpIsNoLedger(r.path, v.path);
      }
    }
  }

  // ----- Success

  lemma {:induction false} RewrittenAt(files: Files, pending: seq<Rewrite>, p: string)
    requires forall i, j :: 0 <= i < j < |pending| ==> pending[i].path != pending[j].path
    requires forall r :: r in pending ==> IsLedgerName(r.path) && p != TmpOf(r.path)
    ensures var done := Rewritten(files, pending);
            && (forall r :: r in pending && r.path == p ==> p in done && done[p] == Text(r.kept))
            && ((forall r :: r in pending ==> r.path != p) ==> SameAt(done, files, p))
  {
    hide Text, IsLedgerName, Rewritten;
    if pending == [] {
      NothingRewritten(files);
    } else {
      var front, last := pending[..|pending| - 1], pending[|pending| - 1];
      assert pending == front + [last] && last in pending;
      RewrittenAt(files, front, p);
      LastRewritten(files, pending);
      if p == last.path {
        forall r | r in front
          ensures r.path != p
        {
        }
      }
    }
  }

  lemma LastRewritten(files: Files, pending: seq<Rewrite>)
    requires pending != []
    ensures var front, last := Rewritten(files, pending[..|pending| - 1]), pending[|pending| - 1];
            Rewritten(files, pending) == (front - {TmpOf(last.path)})[last.path := Text(last.kept)]
  {
  }

  /** A file without the session's records: untouched if it holds none. */
  function Erased(body: string, id: string, parse: Parser): string {
    if Hits(body, id, parse) == [] then body else Text(Kept(body, id, parse))
  }

  /** No ledger file that can be read holds a record of the session. */
  ghost predicate Clean(files: Files, dir: string, reach: string -> bool, id: string, parse: Parser) {
    forall p :: p in files && InLedger(p, dir) && reach(p) ==> Hits(files[p], id, parse) == []
  }

  /** A file with records of the session holds its other lines, in order; a file without, and one that
      could not be read, is what it was; the export holds what was removed; and no record of the
      session is left in the ledger. */
  ghost predicate Complete(end: Files, start: Files, walk: seq<Visit>, dir: string, reach: string -> bool, id: string,
                           parse: Parser, exportTo: Option<string>) {
    && (forall p :: p in start && InLedger(p, dir) ==>
          p in end && end[p] == if reach(p) then Erased(start[p], id, parse) else start[p])
    && HasExport(end, exportTo, AllHits(start, walk, id, parse))
    && Clean(end, dir, reach, id, parse)
  }

  /** The export goes to no ledger name below the directory, existing or new, and to no sibling of a
      file that will be rewritten. A ledger name that cannot be read is as good as another, if there is
      no such file or it happens to hold just the export. */
  ghost predicate Proper(start: Files, walk: seq<Visit>, dir: string, reach: string -> bool, id: string, parse: Parser,
                         exportTo: Option<string>) {
    exportTo.Some? ==>
      var path := exportTo.value;
      && (InLedger(path, dir) ==>
            !reach(path) && (path in start ==> start[path] == Text(AllHits(start, walk, id, parse))))
      && (forall r :: r in Rewrites(start, walk, id, parse) ==> path != TmpOf(r.path))
  }

  /** The files after a removal that nothing stopped. */
  function End(start: Files, walk: seq<Visit>, id: string, parse: Parser, exportTo: Option<string>): Files {
    Rewritten(Saved(start, exportTo, AllHits(start, walk, id, parse)), Rewrites(start, walk, id, parse))
  }

  /** Of a directory's files exactly those that can be reached and read are read. */
  lemma ReadExactly(walk: seq<Visit>, files: Files, dir: string, reach: string -> bool, p: string)
    requires IsWalkOf(walk, files, dir, reach)
    ensures p in files && InLedger(p, dir) && reach(p) ==> Ledger(p, true) in walk && Read(Ledger(p, true), files)
    ensures forall v :: v in walk && Read(v, files) && v.path == p ==>
              v == Ledger(p, true) && p in files && InLedger(p, dir) && reach(p)
  {
  }

  /** Any walk of a ledger finds something exactly if a record of the session is in it. */
  lemma WalkFindsExactly(walk: seq<Visit>, files: Files, dir: string, reach: string -> bool, id: string, parse: Parser)
    requires IsWalkOf(walk, files, dir, reach)
    ensures AllHits(files, walk, id, parse) == [] <==> Clean(files, dir, reach, id, parse)
  {
    hide Hits, AllHits, InLedger, IsWalkOf;
    if Clean(files, dir, reach, id, parse) {
      forall v | v in walk && Read(v, files)
        ensures Hits(files[v.path], id, parse) == []
      {
        ReadExactly(walk, files, dir, reach, v.path);
      }
      NothingHit(files, walk, id, parse);
    } else {
      var p :| p in files && InLedger(p, dir) && reach(p) && Hits(files[p], id, parse) != [];
      ReadExactly(walk, files, dir, reach, p);
      SomethingHit(files, walk, id, parse, Ledger(p, true));
    }
  }

  lemma ProperIsClear(start: Files, walk: seq<Visit>, dir: string, reach: string -> bool, id: string, parse: Parser,
                      exportTo: Option<string>)
    requires IsWalkOf(walk, start, dir, reach) && Proper(start, walk, dir, reach, id, parse, exportTo)
    ensures Clear(start, walk, id, parse, exportTo)
  {
    hide Rewrites, AllHits, Text, InLedger;
  }

  /** What a removal makes of one file that is neither the export nor a sibling. */
  lemma EndAt(start: Files, walk: seq<Visit>, dir: string, reach: string -> bool, id: string, parse: Parser,
              exportTo: Option<string>, p: string)
    requires IsWalkOf(walk, start, dir, reach) && InLedger(p, dir)
    ensures var end := End(start, walk, id, parse, exportTo);
            var saved := Saved(start, exportTo, AllHits(start, walk, id, parse));
            && (p in start && reach(p) && exportTo != Some(p) ==>
                  p in end && end[p] == Erased(start[p], id, parse) && Hits(end[p], id, parse) == [])
            && (p !in start || !reach(p) ==> SameAt(end, saved, p))
  {
    hide Text, Hits, Kept, AllHits, Rewrites, Rewritten, InLedger, IsLedgerName;
    var saved, todo := Saved(start, exportTo, AllHits(start, walk, id, parse)), Rewrites(start, walk, id, parse);
    LedgerName(p, dir);
    ReadExactly(walk, start, dir, reach, p);
    RewritesAreDistinct(start, walk, id, parse);
    forall r | r in todo
      ensures p != TmpOf(r.path)
      ensures p !in start || !reach(p) ==> r.path != p
    {
      TmpIsNoLedger(r.path, p);
      RewritesAreWalked(start, walk, id, parse, r);
    }
    RewrittenAt(saved, todo, p);
    if p in start && reach(p) {
      FileRewritten(start, walk, id, parse, Ledger(p, true));
      NoHitsKept(start[p], id, parse);
    }
  }

  lemma LedgerName(p: string, dir: string)
    ensures InLedger(p, dir) ==> IsLedgerName(p)
  {
  }

  lemma RemovalIsComplete(start: Files, walk: seq<Visit>, dir: string, reach: string -> bool, id: string, parse: Parser,
                          exportTo: Option<string>)
    requires IsWalkOf(walk, start, dir, reach) && Proper(start, walk, dir, reach, id, parse, exportTo)
    ensures Complete(End(start, walk, id, parse, exportTo), start, walk, dir, reach, id, parse, exportTo)
  {
    hide Text, Hits, Kept, AllHits, Rewrites, Rewritten, InLedger, IsLedgerName, IsWalkOf, Clear, Erased, End;
    var end := End(start, walk, id, parse, exportTo);
    forall p | InLedger(p, dir)
      ensures p in start ==> p in end && end[p] == if reach(p) then Erased(start[p], id, parse) else start[p]
      ensures p in end && reach(p) ==> Hits(end[p], id, parse) == []
    {
      EndAt(start, walk, dir, reach, id, parse, exportTo, p);
    }
    ProperIsClear(start, walk, dir, reach, id, parse, exportTo);
    ExportArrives(start, walk, id, parse, exportTo, dir, reach);
  }

  lemma ExportArrives(start: Files, walk: seq<Visit>, id: string, parse: Parser, exportTo: Option<string>, dir: string,
                      reach: string -> bool)
    requires IsWalkOf(walk, start, dir, reach) && Clear(start, walk, id, parse, exportTo)
    ensures HasExport(End(start, walk, id, parse, exportTo), exportTo, AllHits(start, walk, id, parse))
  {
    hide Text, Hits, Kept, AllHits, Rewrites, Rewritten, InLedger, IsLedgerName;
    RewritesAreApart(start, walk, id, parse, exportTo);
    var exported, todo := AllHits(start, walk, id, parse), Rewrites(start, walk, id, parse);
    if exportTo.Some? {
      forall r | r in todo
        ensures exportTo.value != TmpOf(r.path) && exportTo.value != r.path
      {
      }
      RewrittenAt(Saved(start, exportTo, exported), todo, exportTo.value);
    }
  }

  /** A removal of something is complete exactly when the export stays out of the ledger and off the
      siblings of what is rewritten: nothing keeps a caller from either. */
  lemma RemovalIsCompleteExactly(start: Files, walk: seq<Visit>, dir: string, reach: string -> bool, id: string,
                                 parse: Parser, exportTo: Option<string>)
    requires IsWalkOf(walk, start, dir, reach) && AllHits(start, walk, id, parse) != []
    ensures Complete(End(start, walk, id, parse, exportTo), start, walk, dir, reach, id, parse, exportTo)
       <==> Proper(start, walk, dir, reach, id, parse, exportTo)
  {
    hide Text, Hits, AllHits, Rewrites, Rewritten, InLedger, IsLedgerName, Erased, IsWalkOf, End;
    var end := End(start, walk, id, parse, exportTo);
    if Proper(start, walk, dir, reach, id, parse, exportTo) {
      RemovalIsComplete(start, walk, dir, reach, id, parse, exportTo);
    } else {
      HitsOfExport(start, walk, id, parse);
      if r :| r in Rewrites(start, walk, id, parse) && exportTo.value == TmpOf(r.path) {
        WalkOfIsWalk(walk, start, dir, reach);
        ExportOntoSiblingIsLost(start, walk, id, parse, r);
      }
    }
  }

  lemma WalkOfIsWalk(walk: seq<Visit>, files: Files, dir: string, reach: string -> bool)
    requires IsWalkOf(walk, files, dir, reach)
    ensures IsWalk(walk)
  {
  }

  /** After a complete removal another run finds nothing, in whatever order it walks. */
  lemma SecondRunFindsNothing(start: Files, walk: seq<Visit>, dir: string, reach: string -> bool, id: string,
                              parse: Parser, exportTo: Option<string>, again: seq<Visit>)
    requires IsWalkOf(walk, start, dir, reach) && Proper(start, walk, dir, reach, id, parse, exportTo)
    requires IsWalkOf(again, End(start, walk, id, parse, exportTo), dir, reach)
    ensures AllHits(End(start, walk, id, parse, exportTo), again, id, parse) == []
  {
    hide AllHits, Clean, IsWalkOf, End, Proper;
    var end := End(start, walk, id, parse, exportTo);
    RemovalIsComplete(start, walk, dir, reach, id, parse, exportTo);
    WalkFindsExactly(again, end, dir, reach, id, parse);
  }

  lemma HitsOfExport(start: Files, walk: seq<Visit>, id: string, parse: Parser)
    ensures var exported := AllHits(start, walk, id, parse); Hits(Text(exported), id, parse) == exported
  {
    hide Text, AllHits, Split;
    var exported := AllHits(start, walk, id, parse);
    HitsAreLines(start, walk, id, parse);
    SplitOfText(exported);
    FilterAppend(exported, "", (l: string) => Matches(l, id, parse));
    FilterOfKept(exported, (l: string) => Matches(l, id, parse));
  }

  lemma {:induction false} SomethingHit(files: Files, walk: seq<Visit>, id: string, parse: Parser, v: Visit)
    requires v in walk && Read(v, files) && Hits(files[v.path], id, parse) != []
    ensures AllHits(files, walk, id, parse) != []
  {
    hide Hits;
    if v != walk[|walk| - 1] {
      assert walk == walk[..|walk| - 1] + [walk[|walk| - 1]];
      SomethingHit(files, walk[..|walk| - 1], id, parse, v);
    }
  }

  lemma {:induction false} TmpIsGone(files: Files, pending: seq<Rewrite>, r: Rewrite)
    requires r in pending && forall q :: q in pending ==> IsLedgerName(q.path)
    ensures TmpOf(r.path) !in Rewritten(files, pending)
  {
    hide IsLedgerName, Text, TmpOf;
    var front, last := pending[..|pending| - 1], pending[|pending| - 1];
    assert pending == front + [last] && last in pending;
    TmpIsNoLedger(r.path, last.path);
    if r != last {
      TmpIsGone(files, front, r);
    }
  }

  /** A file is rewritten, once, exactly if it is read and holds a record of the session. */
  lemma FileRewritten(start: Files, walk: seq<Visit>, id: string, parse: Parser, v: Visit)
    requires IsWalk(walk) && v in walk && v.Ledger?
    ensures Read(v, start) && Hits(start[v.path], id, parse) != [] ==>
              Rewrite(v.path, Kept(start[v.path], id, parse)) in Rewrites(start, walk, id, parse)
    ensures forall r :: r in Rewrites(start, walk, id, parse) && r.path == v.path ==>
              && Read(v, start) && Hits(start[v.path], id, parse) != []
              && r == Rewrite(v.path, Kept(start[v.path], id, parse))
  {
    hide Hits, Kept, Rewrites, IsLedgerName;
    if Read(v, start) {
      RewritesAreWalked(start, walk, id, parse, Rewrite(v.path, Kept(start[v.path], id, parse)));
    }
    forall r | r in Rewrites(start, walk, id, parse) && r.path == v.path
      ensures Read(v, start) && Hits(start[v.path], id, parse) != []
      ensures r == Rewrite(v.path, Kept(start[v.path], id, parse))
    {
      RewritesAreWalked(start, walk, id, parse, r);
      var u :| u in walk && Read(u, start) && Hits(start[u.path], id, parse) != []
               && r == Rewrite(u.path, Kept(start[u.path], id, parse));
      var i, j :| 0 <= i < |walk| && walk[i] == u && 0 <= j < |walk| && walk[j] == v;
      assert i == j;
    }
  }

  lemma NoHitsKept(body: string, id: string, parse: Parser)
    ensures Hits(Text(Kept(body, id, parse)), id, parse) == []
  {
    hide Split, Text;
    KeptAreNotEmpty(body, id, parse);
    SplitOfText(Kept(body, id, parse));
    FilterNone(Kept(body, id, parse) + [""], (l: string) => Matches(l, id, parse));
  }

  lemma {:induction false} NothingHit(files: Files, walk: seq<Visit>, id: string, parse: Parser)
    requires forall v :: v in walk && Read(v, files) ==> Hits(files[v.path], id, parse) == []
    ensures AllHits(files, walk, id, parse) == []
  {
    hide Hits;
    if walk != [] {
      NothingHit(files, walk[..|walk| - 1], id, parse);
      assert walk == walk[..|walk| - 1] + [walk[|walk| - 1]];
    }
  }

  // ----- Where an export must not go, and what it costs

  /** A name that ends in neither `.jsonl` nor `.tmp` will always do. */
  lemma OtherNamesAreProper(start: Files, walk: seq<Visit>, dir: string, reach: string -> bool, id: string,
                            parse: Parser, path: string)
    requires !IsLedgerName(path) && !(|path| >= 4 && path[|path| - 4..] == ".tmp")
    ensures Proper(start, walk, dir, reach, id, parse, Some(path))
  {
    hide AllHits, Rewrites, Text;
    forall r | r in Rewrites(start, walk, id, parse)
      ensures path != TmpOf(r.path)
    {
      assert TmpOf(r.path)[|TmpOf(r.path)| - 4..] == ".tmp";
    }
  }

  lemma {:induction false} OnlyHits(files: Files, walk: seq<Visit>, id: string, parse: Parser, v: Visit)
    requires IsWalk(walk) && v in walk && Read(v, files)
    requires forall u :: u in walk && Read(u, files) && u.path != v.path ==> Hits(files[u.path], id, parse) == []
    ensures AllHits(files, walk, id, parse) == Hits(files[v.path], id, parse)
  {
    hide Hits, IsLedgerName;
    var front, last := walk[..|walk| - 1], walk[|walk| - 1];
    assert walk == front + [last];
    if last == v {
      forall u | u in front && Read(u, files)
        ensures Hits(files[u.path], id, parse) == []
      {
        var i :| 0 <= i < |front| && front[i] == u;
        assert walk[i] == u;
      }
      NothingHit(files, front, id, parse);
    } else {
      OnlyHits(files, front, id, parse, v);
      var i :| 0 <= i < |front| && front[i] == v;
      assert walk[i] == v;
    }
  }

  /** To a new ledger name below the directory: nothing is lost, and nothing is erased either. Another
      run finds all that was removed. */
  lemma ExportIntoLedgerIsFoundAgain(start: Files, walk: seq<Visit>, dir: string, reach: string -> bool, id: string,
                                     parse: Parser, path: string, again: seq<Visit>)
    requires IsWalkOf(walk, start, dir, reach) && InLedger(path, dir) && reach(path) && path !in start
    requires IsWalkOf(again, End(start, walk, id, parse, Some(path)), dir, reach)
    ensures Clear(start, walk, id, parse, Some(path))
    ensures AllHits(End(start, walk, id, parse, Some(path)), again, id, parse) == AllHits(start, walk, id, parse)
  {
    hide Text, Hits, AllHits, Rewrites, Rewritten, InLedger, IsLedgerName, IsWalkOf, End, Erased;
    var end := End(start, walk, id, parse, Some(path));
    LedgerName(path, dir);
    forall r | r in Rewrites(start, walk, id, parse)
      ensures path != TmpOf(r.path)
    {
      TmpIsNoLedger(r.path, path);
    }
    EndAt(start, walk, dir, reach, id, parse, Some(path), path);
    assert end[path] == Text(AllHits(start, walk, id, parse));
    ReadExactly(again, end, dir, reach, path);
    WalkOfIsWalk(again, end, dir, reach);
    NewNameIsUnread(walk, start, dir, reach, path);
    forall v | v in again && Read(v, end) && v.path != path
      ensures Hits(end[v.path], id, parse) == []
    {
      ReadExactly(again, end, dir, reach, v.path);
      EndAt(start, walk, dir, reach, id, parse, Some(path), v.path);
    }
    OnlyHits(end, again, id, parse, Ledger(path, true));
    HitsOfExport(start, walk, id, parse);
  }

  lemma NewNameIsUnread(walk: seq<Visit>, files: Files, dir: string, reach: string -> bool, path: string)
    requires IsWalkOf(walk, files, dir, reach) && path !in files
    ensures forall v :: v in walk && v.Ledger? && v.readable ==> v.path != path
  {
  }

  const ONE_RECORD := map["/l/a.jsonl" := Text(["r"])]

  lemma OneRecordIsHit(parse: Parser)
    requires parse("r") == Some("x")
    ensures AllHits(ONE_RECORD, ONE_VISIT, "x", parse) == ["r"]
  {
    assert ONE_VISIT[..0] == [];
    hide Split, Text;
    SplitOfText(["r"]);
    FilterAppend(["r"], "", (l: string) => Matches(l, "x", parse));
    FilterAppend([], "r", (l: string) => Matches(l, "x", parse));
    assert [] + ["r"] == ["r"] && !IsSpace("r"[0]);
  }

  /** The files and the walk of a ledger directory with one record, whose export goes to `out.jsonl`. */
  function OneRecordErased(parse: Parser): Files {
    End(ONE_RECORD, ONE_VISIT, "x", parse, Some(OUT))
  }

  const ONE_VISIT := [Ledger("/l/a.jsonl", true)]
  const OUT := "/l/out.jsonl"

  lemma OneRecordIsWalked()
    ensures IsWalkOf(ONE_VISIT, ONE_RECORD, "/l", _ => true) && InLedger(OUT, "/l") && OUT !in ONE_RECORD
  {
    assert "/l/a.jsonl" == "/l/" + "a" + ".jsonl" && OUT == "/l/" + "out" + ".jsonl";
  }

  /** It is erased, written there, and found again. */
  lemma OutInLedgerIsFoundAgain(parse: Parser, again: seq<Visit>)
    requires parse("r") == Some("x") && IsWalkOf(again, OneRecordErased(parse), "/l", _ => true)
    ensures AllHits(OneRecordErased(parse), again, "x", parse) == ["r"]
  {
    hide End, AllHits, IsWalkOf, InLedger;
    OneRecordIsWalked();
    OneRecordIsHit(parse);
    ExportIntoLedgerIsFoundAgain(ONE_RECORD, ONE_VISIT, "/l", _ => true, "x", parse, OUT, again);
  }

  /** Onto a file it is taken from: rewriting that file overwrites what was saved. */
  lemma ExportOntoLedgerIsLost(start: Files, walk: seq<Visit>, id: string, parse: Parser, r: Rewrite)
    requires IsWalk(walk) && r in Rewrites(start, walk, id, parse)
    ensures var end := End(start, walk, id, parse, Some(r.path));
            r.path in end && Hits(end[r.path], id, parse) == []
  {
    hide Text, Hits, Kept, AllHits, Rewrites, Rewritten, IsLedgerName;
    RewritesAreDistinct(start, walk, id, parse);
    var todo := Rewrites(start, walk, id, parse);
    forall q | q in todo
      ensures r.path != TmpOf(q.path)
    {
      TmpIsNoLedger(q.path, r.path);
    }
    RewrittenAt(Saved(start, Some(r.path), AllHits(start, walk, id, parse)), todo, r.path);
    RewritesAreWalked(start, walk, id, parse, r);
    var v :| v in walk && Read(v, start) && r == Rewrite(v.path, Kept(start[v.path], id, parse));
    NoHitsKept(start[v.path], id, parse);
  }

  /** Onto a ledger file without the session's records, read or not: every line it held is gone, the
      lines of other sessions among them. */
  lemma ExportOntoOtherLedger(start: Files, walk: seq<Visit>, id: string, parse: Parser, v: Visit, line: string)
    requires IsWalk(walk) && v in walk && v.Ledger?
    requires Read(v, start) ==> Hits(start[v.path], id, parse) == []
    requires Keeps(line, id, parse)
    ensures var end := End(start, walk, id, parse, Some(v.path));
            v.path in end && Occurrences(end[v.path], line) == 0
  {
    hide Text, Hits, Kept, AllHits, Rewrites, Rewritten, IsLedgerName, Occurrences, Blank;
    var exported, todo := AllHits(start, walk, id, parse), Rewrites(start, walk, id, parse);
    RewritesAreDistinct(start, walk, id, parse);
    FileRewritten(start, walk, id, parse, v);
    var n :| 0 <= n < |walk| && walk[n] == v;
    forall q | q in todo
      ensures v.path != TmpOf(q.path)
    {
      TmpIsNoLedger(q.path, v.path);
    }
    RewrittenAt(Saved(start, Some(v.path), exported), todo, v.path);
    HitsAreLines(start, walk, id, parse);
    OccurrencesInText(exported, line);
    assert line !in exported;
    assert line !in multiset(exported);
  }

  /** Onto the sibling of a rewritten file: the rewrite replaces it and renames it away. */
  lemma ExportOntoSiblingIsLost(start: Files, walk: seq<Visit>, id: string, parse: Parser, r: Rewrite)
    requires IsWalk(walk) && r in Rewrites(start, walk, id, parse)
    ensures TmpOf(r.path) !in End(start, walk, id, parse, Some(TmpOf(r.path)))
  {
    hide Text, AllHits, Rewrites, Rewritten, IsLedgerName;
    RewritesAreDistinct(start, walk, id, parse);
    TmpIsGone(Saved(start, Some(TmpOf(r.path)), AllHits(start, walk, id, parse)), Rewrites(start, walk, id, parse), r);
  }

  // ----- What a dry run changes

  /** A run that only reports writes the export all the same. It changes nothing exactly when there is
      none or it was there already; and it leaves every ledger file as it was exactly when the export
      goes to none of them, or to one that holds just what is exported. */
  lemma DryRunChangesExactly(start: Files, exportTo: Option<string>, exported: seq<string>, dir: string)
    ensures Saved(start, exportTo, exported) == start
       <==> (exportTo.Some? ==> exportTo.value in start && start[exportTo.value] == Text(exported))
    ensures (forall p :: p in start && InLedger(p, dir) ==> SameAt(Saved(start, exportTo, exported), start, p))
       <==> (exportTo.Some? && exportTo.value in start && InLedger(exportTo.value, dir) ==>
               start[exportTo.value] == Text(exported))
  {
    hide InLedger, Text;
    var after := Saved(start, exportTo, exported);
    if exportTo.Some? && exportTo.value in start && start[exportTo.value] != Text(exported) {
      assert after[exportTo.value] != start[exportTo.value];
      assert !SameAt(after, start, exportTo.value);
    }
  }

  /** Onto a ledger file with another session's line, read or not: the line is gone. */
  lemma DryRunOntoLedger(start: Files, walk: seq<Visit>, id: string, parse: Parser, path: string, line: string)
    requires path in start && Keeps(line, id, parse) && Occurrences(start[path], line) > 0
    ensures var after := Saved(start, Some(path), AllHits(start, walk, id, parse));
            path in after && Occurrences(after[path], line) == 0 && !SameAt(after, start, path)
  {
    hide Text, AllHits, Occurrences, Blank;
    var exported := AllHits(start, walk, id, parse);
    HitsAreLines(start, walk, id, parse);
    OccurrencesInText(exported, line);
    assert line !in exported;
    assert line !in multiset(exported);
  }
}
