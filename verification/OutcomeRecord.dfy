/** Recording the working copy a run left, from a source that may change at any moment: what a
    recording that can be scored is proof of. */
module OutcomeRecord {
  import opened Wrappers
  import opened Sorting
  import opened TreeIds

  /** How a tree is identified. */
  type Identify = Tree -> Option<ObjectId>

  /** The id of a tree that was read, if it could be and has one. */
  function IdOf(t: Option<Tree>, identify: Identify): Option<ObjectId> {
    if t.None? then None else identify(t.value)
  }

  // ----- What may be recorded at all

  datatype Kind = Plain | Unsupported

  datatype Problem =
    | NestedRepo
    | UnsupportedObject
    | Unidentifiable
    | DiffersFromSubstrate
    | CreateFailed
    | CopyFailed
    | Unstable
    | WriteFailed

  /** Objects that a walk of a tree meets, or an entry it cannot read. */
  datatype Met = Met(path: Path, kind: Kind)

  /** A repository below the top, or an object that is no file, link or directory. */
  predicate IsObstacle(m: Met) {
    !InGit(m.path) && (m.path[|m.path| - 1] == GIT || m.kind == Unsupported)
  }

  method CheckRecordTree(rootName: string, met: seq<Met>) returns (problem: Option<Problem>)
    ensures problem.None? <==> rootName != GIT && forall m :: m in met ==> !IsObstacle(m)
  {
    if rootName == GIT {
      return Some(NestedRepo);
    }
    for n := 0 to |met|
      invariant forall i :: 0 <= i < n ==> !IsObstacle(met[i])
    {
      var m := met[n];
      if InGit(m.path) {
        continue;
      }
      if m.path[|m.path| - 1] == GIT {
        assert IsObstacle(met[n]);
        return Some(NestedRepo);
      }
      if m.kind == Unsupported {
        assert IsObstacle(met[n]);
        return Some(UnsupportedObject);
      }
    }
    return None;
  }

  // ----- The output directory

  datatype Document = Whole(text: string) | Part

  datatype Dir = Dir(tree: Option<Tree>, provenance: Option<Document>, tmp: Option<Document>, run: Option<Document>)

  const FRESH := Dir(None, None, None, None)

  class Output {
    /** None while there is no such directory. */
    var dir: Option<Dir>
    /** Every state it has been in; the process may stop in any of them. */
    ghost var past: seq<Option<Dir>>

    constructor ()
      ensures dir == None && past == [None]
    {
      dir, past := None, [None];
    }

    method Become(d: Option<Dir>)
      modifies this
      ensures dir == d && past == old(past) + [d]
    {
      dir := d;
      past := past + [d];
    }
  }

  // ----- Copying

  /** What the copy finds when it gets to an entry, some time after the walk listed it. */
  datatype Seen = Seen(path: Path, entry: Option<Entry>)

  /** How writing an entry goes; a file may be left half written. */
  datatype Effect = Done | Failed(half: Option<Entry>)

  function Copied(seen: seq<Seen>): Tree {
    if seen == [] then map[]
    else
      var before, last := Copied(seen[..|seen| - 1]), seen[|seen| - 1];
      if InGit(last.path) || last.entry.None? then before else before[last.path := last.entry.value]
  }

  predicate Copies(seen: seq<Seen>, effects: nat -> Effect) {
    forall i :: 0 <= i < |seen| && !InGit(seen[i].path) ==> seen[i].entry.Some? && effects(i).Done?
  }

  ghost predicate Unscored(past: seq<Option<Dir>>, from: nat) {
    forall k :: from <= k < |past| ==> past[k].Some? ==> past[k].value.run.None?
  }

  method CopyRecordTree(out: Output, seen: seq<Seen>, effects: nat -> Effect) returns (ok: bool)
    requires out.dir == Some(FRESH)
    modifies out
    ensures ok <==> Copies(seen, effects)
    ensures ok ==> out.dir == Some(FRESH.(tree := Some(Copied(seen))))
    ensures out.dir.Some? && out.dir.value.run.None?
    ensures |old(out.past)| <= |out.past| && out.past[..|old(out.past)|] == old(out.past)
    ensures Unscored(out.past, |old(out.past)|)
  {
    var tree: Tree := map[];
    out.Become(Some(FRESH.(tree := Some(tree))));
    for n := 0 to |seen|
      invariant tree == Copied(seen[..n]) && out.dir == Some(FRESH.(tree := Some(tree)))
      invariant forall i :: 0 <= i < n && !InGit(seen[i].path) ==> seen[i].entry.Some? && effects(i).Done?
      invariant |old(out.past)| <= |out.past| && out.past[..|old(out.past)|] == old(out.past)
      invariant Unscored(out.past, |old(out.past)|)
    {
      assert seen[..n + 1][..n] == seen[..n];
      var s := seen[n];
      if InGit(s.path) {
        continue;
      }
      if s.entry.None? {
        return false;
      }
      match effects(n)
      case Failed(half) =>
        if half.Some? {
          out.Become(Some(FRESH.(tree := Some(tree[s.path := half.value]))));
        }
        return false;
      case Done =>
        tree := tree[s.path := s.entry.value];
        out.Become(Some(FRESH.(tree := Some(tree))));
    }
    assert seen[..|seen|] == seen;
    return true;
  }

  // ----- The recording

  /** How taking the directory away goes; what a failing removal leaves has no run.json. */
  datatype Cleanup = Gone | Remains(tree: Option<Tree>, provenance: Option<Document>, tmp: Option<Document>)

  /** Everything the recording meets: what each of its walks of the source saw, if it could be walked,
      and how each effect on the output goes. */
  datatype Course = Course(
    rootName: string,
    met: seq<Met>,
    first: Option<Tree>,
    seen: seq<Seen>,
    last: Option<Tree>,
    effects: nat -> Effect,
    mkdir: bool,
    copyReadable: bool,
    provenance: Effect,
    run: Effect,
    rename: bool,
    cleanup: Cleanup)

  datatype Outcome = Recorded(id: ObjectId) | Refused(why: Problem)

  predicate MayStart(c: Course, identify: Identify, substrate: ObjectId, allowModified: bool) {
    && c.rootName != GIT && (forall m :: m in c.met ==> !IsObstacle(m))
    && IdOf(c.first, identify).Some?
    && (IdOf(c.first, identify) == Some(substrate) || allowModified)
    && c.mkdir
  }

  /** The tree as first seen, the copy and the tree as last seen have one id. */
  predicate Agree(c: Course, identify: Identify) {
    && IdOf(c.first, identify).Some?
    && c.copyReadable
    && IdOf(Some(Copied(c.seen)), identify) == IdOf(c.first, identify)
    && IdOf(c.last, identify) == IdOf(c.first, identify)
  }

  predicate Completes(c: Course, identify: Identify, substrate: ObjectId, allowModified: bool) {
    && MayStart(c, identify, substrate, allowModified)
    && Copies(c.seen, c.effects) && Agree(c, identify)
    && c.provenance.Done? && c.run.Done? && c.rename
  }

  /** What may be found on disk: no run.json, or one beside the whole provenance and the whole copy,
      of which all three ids agreed. */
  ghost predicate Sound(d: Option<Dir>, c: Course, identify: Identify, provenance: string, run: string) {
    d.Some? && d.value.run.Some? ==>
      && d == Some(Dir(Some(Copied(c.seen)), Some(Whole(provenance)), None, Some(Whole(run))))
      && Copies(c.seen, c.effects) && Agree(c, identify)
  }

  ghost predicate AllSound(past: seq<Option<Dir>>, from: nat, c: Course, identify: Identify, provenance: string,
                           run: string) {
    forall k :: from <= k < |past| ==> Sound(past[k], c, identify, provenance, run)
  }

  method WriteDocuments(out: Output, c: Course, provenance: string, run: string) returns (ok: bool)
    requires out.dir == Some(FRESH.(tree := Some(Copied(c.seen))))
    modifies out
    ensures ok <==> c.provenance.Done? && c.run.Done? && c.rename
    ensures out.dir.Some?
    ensures ok ==> out.dir == Some(Dir(Some(Copied(c.seen)), Some(Whole(provenance)), None, Some(Whole(run))))
    ensures |old(out.past)| <= |out.past| && out.past[..|old(out.past)|] == old(out.past)
    ensures ok ==> |out.past| > |old(out.past)| && out.past[|out.past| - 1] == out.dir
    ensures Unscored(out.past[..if ok then |out.past| - 1 else |out.past|], |old(out.past)|)
    ensures !ok ==> out.dir.value.run.None?
  {
    var d := out.dir.value;
    d := d.(provenance := Some(if c.provenance.Done? then Whole(provenance) else Part));
    out.Become(Some(d));
    if !c.provenance.Done? {
      return false;
    }
    d := d.(tmp := Some(if c.run.Done? then Whole(run) else Part));
    out.Become(Some(d));
    if !c.run.Done? {
      return false;
    }
    if !c.rename {
      return false;
    }
    d := d.(tmp := None, run := d.tmp);
    out.Become(Some(d));
    return true;
  }

  /** The command, from its first look at the tree on. A refusal behind the creation of the directory
      takes the directory away again. */
  method RunOutcomeRecord(out: Output, c: Course, identify: Identify, substrate: ObjectId, allowModified: bool,
                          provenance: string, run: string)
    returns (result: Outcome)
    requires out.dir == None
    modifies out
    ensures result.Recorded? <==> Completes(c, identify, substrate, allowModified)
    ensures result.Recorded? ==>
              && Some(result.id) == IdOf(Some(Copied(c.seen)), identify)
              && out.dir == Some(Dir(Some(Copied(c.seen)), Some(Whole(provenance)), None, Some(Whole(run))))
    ensures result.Refused? && (c.cleanup.Gone? || !MayStart(c, identify, substrate, allowModified)) ==> out.dir == None
    ensures result.Refused? ==> out.dir.Some? ==> out.dir.value.run.None?
    ensures |old(out.past)| <= |out.past| && out.past[..|old(out.past)|] == old(out.past)
    ensures AllSound(out.past, |old(out.past)|, c, identify, provenance, run)
  {
    hide Copied, Copies;
    var problem := CheckRecordTree(c.rootName, c.met);
    if problem.Some? {
      return Refused(problem.value);
    }
    var before := IdOf(c.first, identify);
    if before.None? {
      return Refused(Unidentifiable);
    }
    if before.value != substrate && !allowModified {
      return Refused(DiffersFromSubstrate);
    }
    if !c.mkdir {
      return Refused(CreateFailed);
    }
    out.Become(Some(FRESH));
    result := RecordInto(out, c, identify, before.value, provenance, run);
    if result.Refused? {
      match c.cleanup
      case Gone => out.Become(None);
      case Remains(tree, written, tmp) => out.Become(Some(Dir(tree, written, tmp, None)));
    }
  }

  method RecordInto(out: Output, c: Course, identify: Identify, before: ObjectId, provenance: string, run: string)
    returns (result: Outcome)
    requires out.dir == Some(FRESH) && IdOf(c.first, identify) == Some(before)
    modifies out
    ensures result.Recorded? <==>
              && Copies(c.seen, c.effects) && Agree(c, identify)
              && c.provenance.Done? && c.run.Done? && c.rename
    ensures result.Recorded? ==>
              && result.id == before
              && out.dir == Some(Dir(Some(Copied(c.seen)), Some(Whole(provenance)), None, Some(Whole(run))))
    ensures result.Refused? ==> out.dir.Some? && out.dir.value.run.None?
    ensures |old(out.past)| <= |out.past| && out.past[..|old(out.past)|] == old(out.past)
    ensures AllSound(out.past, |old(out.past)|, c, identify, provenance, run)
  {
    hide Copied, Copies;
    ghost var start := |out.past|;
    var copied := CopyRecordTree(out, c.seen, c.effects);
    if !copied {
      return Refused(CopyFailed);
    }
    var copyId := if c.copyReadable then IdOf(out.dir.value.tree, identify) else None;
    var after := IdOf(c.last, identify);
    if copyId != Some(before) || after != Some(before) {
      return Refused(Unstable);
    }
    ghost var copiedPast := out.past;
    var ok := WriteDocuments(out, c, provenance, run);
    assert forall k :: start <= k < |copiedPast| ==> out.past[k] == copiedPast[k];
    if !ok {
      return Refused(WriteFailed);
    }
    return Recorded(before);
  }

  // ----- What a recording is proof of

  /** Without leave to record a modified tree, what is recorded has the substrate's id. */
  lemma RecordedIsSubstrate(c: Course, identify: Identify, substrate: ObjectId)
    requires Completes(c, identify, substrate, false)
    ensures IdOf(Some(Copied(c.seen)), identify) == Some(substrate) && IdOf(c.last, identify) == Some(substrate)
  {
  }

  ghost predicate IsTreeId(identify: Identify, hash: Hash) {
    forall t: Tree :: identify(t) == TreeId(t, hash)
  }

  /** The copying walk meets a path once, and behind the directory it is in. */
  ghost predicate Walked(seen: seq<Seen>) {
    && (forall i, j :: 0 <= i < j < |seen| ==> seen[i].path != seen[j].path)
    && (forall i :: 0 <= i < |seen| && !InGit(seen[i].path) && |seen[i].path| > 1 ==>
          exists j :: 0 <= j < i && IsParent(seen[j], seen[i].path))
  }

  predicate IsParent(s: Seen, p: Path) {
    |p| > 1 && s.path == p[..|p| - 1] && s.entry == Some(Directory)
  }

  /** What was walked was on a disk each time. */
  ghost predicate OnDisk(c: Course) {
    (c.first.Some? ==> Closed(c.first.value)) && (c.last.Some? ==> Closed(c.last.value)) && Walked(c.seen)
  }

  /** Everything that was hashed for the three ids. */
  ghost function AllHashed(c: Course, hash: Hash): set<Object>
    requires c.first.Some? && c.last.Some?
  {
    Hashed(c.first.value, hash) + Hashed(Copied(c.seen), hash) + Hashed(c.last.value, hash)
  }

  lemma {:induction false} WalkedIsClosed(seen: seq<Seen>)
    requires Walked(seen)
    ensures Closed(Copied(seen))
  {
    hide Closed, Copied, Walked;
    if seen == [] {
      NothingCopied();
    } else {
      var n := |seen| - 1;
      var front, last := seen[..n], seen[n];
      FrontIsWalked(seen);
      WalkedIsClosed(front);
      assert seen == front + [last];
      CopiedAppend(front, last);
      if !InGit(last.path) && last.entry.Some? {
        LastIsPlaced(seen);
        ClosedGrows(Copied(front), last.path, last.entry.value);
      }
    }
  }

  lemma NothingCopied()
    ensures Closed(Copied([]))
  {
  }

  lemma LastIsPlaced(seen: seq<Seen>)
    requires Walked(seen) && seen != [] && !InGit(seen[|seen| - 1].path)
    ensures var front, p := Copied(seen[..|seen| - 1]), seen[|seen| - 1].path;
            p !in front && (|p| > 1 ==> p[..|p| - 1] in front && front[p[..|p| - 1]].Directory?)
  {
    hide Copied;
    var n := |seen| - 1;
    var front, p := seen[..n], seen[n].path;
    CopiedWereSeen(front, p);
    if |p| > 1 {
      var j :| 0 <= j < n && IsParent(seen[j], p);
      assert front[j] == seen[j] && front[j].path[0] == p[0];
      LastOfItsPath(front, j);
    }
  }

  lemma {:induction false} CopiedWereSeen(seen: seq<Seen>, p: Path)
    ensures p in Copied(seen) ==> exists i :: 0 <= i < |seen| && seen[i].path == p
  {
    if seen != [] && p in Copied(seen) {
      var n := |seen| - 1;
      if seen[n].path != p {
        CopiedWereSeen(seen[..n], p);
        var i :| 0 <= i < n && seen[..n][i].path == p;
        assert seen[i].path == p;
      }
    }
  }

  lemma ClosedGrows(t: Tree, p: Path, e: Entry)
    requires Closed(t) && p !in t && (|p| > 1 ==> p[..|p| - 1] in t && t[p[..|p| - 1]].Directory?)
    ensures Closed(t[p := e])
  {
  }

  lemma FrontIsWalked(seen: seq<Seen>)
    requires Walked(seen) && seen != []
    ensures Walked(seen[..|seen| - 1])
  {
    var front := seen[..|seen| - 1];
    forall i | 0 <= i < |front| && !InGit(front[i].path) && |front[i].path| > 1
      ensures exists j :: 0 <= j < i && IsParent(front[j], front[i].path)
    {
      var j :| 0 <= j < i && IsParent(seen[j], seen[i].path);
      assert IsParent(front[j], front[i].path);
    }
  }

  /** The three ids agree exactly when the three trees do, as far as git stores them. */
  lemma AgreeExactly(c: Course, identify: Identify, hash: Hash)
    requires IsTreeId(identify, hash) && OnDisk(c) && c.copyReadable
    requires IdOf(c.first, identify).Some? && IdOf(c.last, identify).Some? && !NestsRepo(Copied(c.seen))
    requires TellsApart(hash, AllHashed(c, hash))
    ensures Agree(c, identify) <==> ViewOf(Copied(c.seen)) == ViewOf(c.first.value) == ViewOf(c.last.value)
  {
    hide TreeId, ViewOf, Hashed, Copied, Walked, NestsRepo;
    WalkedIsClosed(c.seen);
    HasNoRepo(c.first.value, hash);
    HasNoRepo(c.last.value, hash);
    TreeIdTellsExactly(c.first.value, Copied(c.seen), hash);
    TreeIdTellsExactly(c.first.value, c.last.value, hash);
  }

  lemma HasNoRepo(t: Tree, hash: Hash)
    requires TreeId(t, hash).Some?
    ensures !NestsRepo(t)
  {
  }

  /** What is recorded has the content the tree had when it was first seen and when it was last seen,
      whatever happened to the source in between. */
  lemma RecordedCopyIsTheTree(c: Course, identify: Identify, hash: Hash, substrate: ObjectId, allowModified: bool)
    requires IsTreeId(identify, hash) && OnDisk(c) && Completes(c, identify, substrate, allowModified)
    requires TellsApart(hash, AllHashed(c, hash))
    ensures ViewOf(Copied(c.seen)) == ViewOf(c.first.value) == ViewOf(c.last.value)
  {
    hide TreeId, Hashed, Copied, ViewOf, OnDisk;
    HasNoRepo(Copied(c.seen), hash);
    AgreeExactly(c, identify, hash);
  }

  lemma CopiedAppend(seen: seq<Seen>, s: Seen)
    ensures Copied(seen + [s])
         == if InGit(s.path) || s.entry.None? then Copied(seen) else Copied(seen)[s.path := s.entry.value]
  {
    assert (seen + [s])[..|seen|] == seen;
  }

  /** But an empty directory that comes and goes is in the copy of any recording it happens in, and no
      id tells: the copy is not the tree, first or last, to the entry. */
  lemma EmptyDirectoryReachesCopy(c: Course, identify: Identify, hash: Hash, substrate: ObjectId, allowModified: bool,
                                  p: Path)
    requires IsTreeId(identify, hash) && Walked(c.seen) && Completes(c, identify, substrate, allowModified)
    requires !InGit(p) && p[|p| - 1] != GIT && p !in Copied(c.seen) && c.effects(|c.seen|).Done?
    requires |p| > 1 ==> p[..|p| - 1] in Copied(c.seen) && Copied(c.seen)[p[..|p| - 1]].Directory?
    ensures var disturbed := c.(seen := c.seen + [Seen(p, Some(Directory))]);
            && Completes(disturbed, identify, substrate, allowModified)
            && Copied(disturbed.seen) == Copied(c.seen)[p := Directory] != Copied(c.seen)
  {
    hide Copied, Walked, TreeId;
    CopiedAppend(c.seen, Seen(p, Some(Directory)));
    WalkedIsClosed(c.seen);
    EmptyDirectoryIsInvisible(Copied(c.seen), p, hash);
    assert p in Copied(c.seen)[p := Directory];
  }

  lemma EmptyDirectoryIsInvisible(t: Tree, p: Path, hash: Hash)
    requires Closed(t) && !InGit(p) && p[|p| - 1] != GIT && p !in t
    requires |p| > 1 ==> p[..|p| - 1] in t && t[p[..|p| - 1]].Directory?
    ensures TreeId(t[p := Directory], hash) == TreeId(t, hash)
  {
    hide TreeId, Closed, ViewOf, NestsRepo;
    EmptyDirectoryIsNotStored(t, p);
    ClosedGrows(t, p, Directory);
    SameViewSameId(t[p := Directory], t, hash);
  }

  lemma EmptyDirectoryIsNotStored(t: Tree, p: Path)
    requires !InGit(p) && p[|p| - 1] != GIT && p !in t
    ensures ViewOf(t[p := Directory]) == ViewOf(t) && (NestsRepo(t[p := Directory]) <==> NestsRepo(t))
  {
    if NestsRepo(t) {
      var q :| q in t && !InGit(q) && q[|q| - 1] == GIT;
      assert q in t[p := Directory];
    }
  }

  predicate SameContent(s: Seen, t: Seen) {
    && s.path == t.path && (s.entry.Some? <==> t.entry.Some?)
    && (s.entry.Some? ==>
          || s.entry == t.entry
          || (!s.entry.value.Directory? && !t.entry.value.Directory? && LeafOf(s.entry.value) == LeafOf(t.entry.value)))
  }

  lemma {:induction false} SameContentSameView(seen: seq<Seen>, other: seq<Seen>)
    requires |seen| == |other| && forall i :: 0 <= i < |seen| ==> SameContent(seen[i], other[i])
    ensures Copied(seen).Keys == Copied(other).Keys && ViewOf(Copied(seen)) == ViewOf(Copied(other))
  {
    hide ViewOf;
    if seen != [] {
      var n := |seen| - 1;
      SameContentSameView(seen[..n], other[..n]);
      assert SameContent(seen[n], other[n]);
      if !InGit(seen[n].path) && seen[n].entry.Some? {
        PutSameView(Copied(seen[..n]), Copied(other[..n]), seen[n], other[n]);
      }
    }
  }

  lemma PutSameView(t: Tree, u: Tree, s: Seen, r: Seen)
    requires SameContent(s, r) && s.entry.Some? && ViewOf(t) == ViewOf(u)
    ensures ViewOf(t[s.path := s.entry.value]) == ViewOf(u[r.path := r.entry.value])
  {
    var a, b := ViewOf(t[s.path := s.entry.value]), ViewOf(u[r.path := r.entry.value]);
    forall p
      ensures p in a <==> p in b
      ensures p in a ==> a[p] == b[p]
    {
      assert p in ViewOf(t) <==> p in ViewOf(u);
      assert p in ViewOf(t) ==> ViewOf(t)[p] == ViewOf(u)[p];
    }
  }

  /** And so is a change of any permission but the owner's leave to execute. */
  lemma ChmodReachesCopy(c: Course, identify: Identify, hash: Hash, substrate: ObjectId, allowModified: bool, i: nat,
                         perm: int)
    requires IsTreeId(identify, hash) && Walked(c.seen) && Completes(c, identify, substrate, allowModified)
    requires i < |c.seen| && !InGit(c.seen[i].path) && c.seen[i].entry.Some? && c.seen[i].entry.value.File?
    requires Executable(perm) == Executable(c.seen[i].entry.value.perm)
    ensures var s := c.seen[i];
            var disturbed := c.(seen := c.seen[i := s.(entry := Some(s.entry.value.(perm := perm)))]);
            && Completes(disturbed, identify, substrate, allowModified)
            && s.path in Copied(disturbed.seen) && Copied(disturbed.seen)[s.path] == s.entry.value.(perm := perm)
  {
    hide TreeId, Copied, ViewOf;
    var s := c.seen[i];
    var other := c.seen[i := s.(entry := Some(s.entry.value.(perm := perm)))];
    SameContentSameView(c.seen, other);
    WalkedIsClosed(c.seen);
    ChangedIsWalked(c.seen, i, other[i]);
    WalkedIsClosed(other);
    SameViewSameId(Copied(c.seen), Copied(other), hash);
    LastOfItsPath(other, i);
  }

  lemma ChangedIsWalked(seen: seq<Seen>, i: nat, s: Seen)
    requires Walked(seen) && i < |seen| && s.path == seen[i].path && seen[i].entry != Some(Directory)
    ensures Walked(seen[i := s])
  {
    var other := seen[i := s];
    forall k | 0 <= k < |other| && !InGit(other[k].path) && |other[k].path| > 1
      ensures exists j :: 0 <= j < k && IsParent(other[j], other[k].path)
    {
      var j :| 0 <= j < k && IsParent(seen[j], seen[k].path);
      assert IsParent(other[j], other[k].path);
    }
  }

  lemma {:induction false} LastOfItsPath(seen: seq<Seen>, i: nat)
    requires i < |seen| && !InGit(seen[i].path) && seen[i].entry.Some?
    requires forall k :: i < k < |seen| ==> seen[k].path != seen[i].path
    ensures seen[i].path in Copied(seen) && Copied(seen)[seen[i].path] == seen[i].entry.value
  {
    if i < |seen| - 1 {
      LastOfItsPath(seen[..|seen| - 1], i);
    }
  }

  /** A walk that meets every entry outside `.git` once, as it is. */
  ghost predicate Faithful(seen: seq<Seen>, t: Tree) {
    && (forall i :: 0 <= i < |seen| && !InGit(seen[i].path) ==>
          seen[i].path in t && seen[i].entry == Some(t[seen[i].path]))
    && (forall p :: p in t && !InGit(p) ==> exists i :: 0 <= i < |seen| && seen[i].path == p)
  }

  lemma {:induction false} CopiedAre(seen: seq<Seen>, t: Tree)
    requires forall i :: 0 <= i < |seen| && !InGit(seen[i].path) ==>
               seen[i].path in t && seen[i].entry == Some(t[seen[i].path])
    ensures forall p :: p in Copied(seen) <==> !InGit(p) && exists i :: 0 <= i < |seen| && seen[i].path == p
    ensures forall p :: p in Copied(seen) ==> p in t && Copied(seen)[p] == t[p]
  {
    if seen != [] {
      var front, last := seen[..|seen| - 1], seen[|seen| - 1];
      CopiedAre(front, t);
      forall p
        ensures p in Copied(seen) <==> !InGit(p) && exists i :: 0 <= i < |seen| && seen[i].path == p
      {
        if i :| 0 <= i < |front| && front[i].path == p {
          assert seen[i].path == p;
        }
        if i :| 0 <= i < |seen| && seen[i].path == p {
          assert i < |front| ==> front[i].path == p;
          assert i == |front| ==> seen[|seen| - 1].path == p;
        }
      }
    }
  }

  /** And a recording nothing disturbs is made: of a tree that holds still, where every effect
      succeeds, the copy is the tree without its `.git`, and nothing is refused. */
  lemma UndisturbedIsRecorded(c: Course, identify: Identify, hash: Hash, substrate: ObjectId, allowModified: bool)
    requires IsTreeId(identify, hash) && MayStart(c, identify, substrate, allowModified)
    requires Closed(c.first.value) && Faithful(c.seen, c.first.value) && c.last == c.first
    requires c.copyReadable && (forall n :: c.effects(n).Done?) && c.provenance.Done? && c.run.Done? && c.rename
    ensures Copied(c.seen) == WithoutGit(c.first.value)
    ensures Completes(c, identify, substrate, allowModified)
  {
    hide TreeId, Copied;
    CopiedAre(c.seen, c.first.value);
    assert Copied(c.seen) == WithoutGit(c.first.value);
    RepositoryIsInvisible(c.first.value, hash);
  }

  lemma RepositoryIsInvisible(t: Tree, hash: Hash)
    requires Closed(t)
    ensures TreeId(WithoutGit(t), hash) == TreeId(t, hash)
  {
    hide TreeId;
    if NestsRepo(t) {
      var q :| q in t && !InGit(q) && q[|q| - 1] == GIT;
      assert q in WithoutGit(t);
    }
    SameViewSameId(WithoutGit(t), t, hash);
  }
}
