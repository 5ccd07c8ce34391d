/** The id of a directory tree: one hash a directory, over its entries in order, as git computes it. */
module TreeIds {
  import opened Wrappers
  import opened Sorting
  import opened Strings

  // ----- Trees

  /** What a file can be called. */
  type Name = n: string | IsName(n) witness "a"

  predicate IsName(n: string) { n != "" && '\0' !in n && '/' !in n }

  /** Below the root of a tree, outermost directory first. */
  type Path = p: seq<Name> | p != [] witness ["a"]

  datatype Entry = Directory | Link(target: string) | File(bytes: string, perm: int)

  type Tree = map<Path, Entry>

  const GIT: Name := ".git"

  predicate InGit(p: Path) { p[0] == GIT }

  function WithoutGit(t: Tree): Tree {
    map p | p in t && !InGit(p) :: t[p]
  }

  /** Everything is in a directory of the tree, as it is on a disk. */
  ghost predicate Closed(t: Tree) {
    forall p :: p in t && |p| > 1 ==> p[..|p| - 1] in t && t[p[..|p| - 1]].Directory?
  }

  /** A repository below the top of a tree. */
  predicate NestsRepo(t: Tree) {
    exists p :: p in t && !InGit(p) && p[|p| - 1] == GIT
  }

  // ----- What git stores of a tree

  /** Of the permissions, whether the owner may execute. */
  datatype Leaf = LinkLeaf(target: string) | FileLeaf(bytes: string, executable: bool)

  /** No top-level `.git`, and no directory but by what is in it. */
  type View = map<Path, Leaf>

  predicate Executable(perm: int) { perm / 64 % 2 == 1 }

  function LeafOf(e: Entry): Leaf
    requires !e.Directory?
  {
    match e
    case Link(target) => LinkLeaf(target)
    case File(bytes, perm) => FileLeaf(bytes, Executable(perm))
  }

  function ViewOf(t: Tree): View {
    map p | p in t && !InGit(p) && !t[p].Directory? :: LeafOf(t[p])
  }

  // ----- What is hashed

  datatype Object = Object(kind: string, content: string)

  /** The twenty bytes of a digest. */
  type ObjectId = h: string | |h| == 20 witness "00000000000000000000"

  type Hash = Object -> ObjectId

  datatype Mode = PlainMode | ExecutableMode | LinkMode | DirectoryMode

  function ModeText(m: Mode): string {
    match m
    case PlainMode => "100644"
    case ExecutableMode => "100755"
    case LinkMode => "120000"
    case DirectoryMode => "40000"
  }

  /** One line of a directory's object. */
  datatype Item = Item(mode: Mode, id: ObjectId)

  type Items = map<string, Item>

  predicate Named(items: Items) {
    forall n :: n in items ==> IsName(n)
  }

  function ItemText(name: string, item: Item): string {
    ModeText(item.mode) + " " + name + "\0" + item.id
  }

  /** What the lines of an object are sorted by: a directory's name counts with a slash behind it. */
  function SortKey(items: Items, name: string): string {
    if name in items && items[name].mode == DirectoryMode then name + "/" else name
  }

  function ByKey(items: Items): (string, string) -> bool {
    (a, b) => Precedes(SortKey(items, a), SortKey(items, b))
  }

  ghost predicate IsListing(names: seq<string>, items: Items) {
    && Distinct(names) && Ordered(names, ByKey(items))
    && forall n :: n in names <==> n in items
  }

  lemma ByKeyIsStrictWeak(items: Items)
    ensures StrictWeak(ByKey(items))
  {
    hide Precedes, SortKey;
    forall a
      ensures !ByKey(items)(a, a)
    {
      PrecedesIsIrreflexive(SortKey(items, a));
    }
    forall a, b, c
      ensures ByKey(items)(a, b) && ByKey(items)(b, c) ==> ByKey(items)(a, c)
      ensures !ByKey(items)(a, b) && !ByKey(items)(b, c) ==> !ByKey(items)(a, c)
    {
      PrecedesIsTransitive(SortKey(items, a), SortKey(items, b), SortKey(items, c));
    }
  }

  lemma ListingExists(items: Items)
    ensures exists names :: IsListing(names, items)
  {
    hide Precedes, Sort, ByKey, Distinct;
    var some := SomeOrder(items.Keys);
    var names := Sort(some, ByKey(items));
    ByKeyIsStrictWeak(items);
    SortOrders(some, ByKey(items));
    DistinctRearranged(some, names);
    forall n
      ensures n in names <==> n in some
    {
      SameElements(names, some, n);
    }
    assert IsListing(names, items);
  }

  lemma SlashTells(a: string, b: string)
    requires '/' !in b
    ensures a + "/" != b
  {
    assert (a + "/")[|a|] == '/';
  }

  lemma KeysDiffer(items: Items, a: string, b: string)
    requires Named(items) && a in items && b in items && SortKey(items, a) == SortKey(items, b)
    ensures a == b
  {
    SlashTells(a, b);
    SlashTells(b, a);
    assert (a + "/")[..|a|] == a && (b + "/")[..|b|] == b;
  }

  /** There is one order to list them in, so that a sort that need not be stable will do. */
  lemma ListingIsUnique(a: seq<string>, b: seq<string>, items: Items)
    requires Named(items) && IsListing(a, items) && IsListing(b, items)
    ensures a == b
  {
    hide Precedes, SortKey, Distinct;
    DistinctSameElements(a, b);
    forall x, y | x in a && y in a && !ByKey(items)(x, y) && !ByKey(items)(y, x)
      ensures x == y
    {
      PrecedesTellsApart(SortKey(items, x), SortKey(items, y));
      KeysDiffer(items, x, y);
    }
    OrderedUnique(a, b, ByKey(items));
  }

  ghost function Listing(items: Items): (names: seq<string>)
    ensures IsListing(names, items)
  {
    ListingExists(items);
    var names :| IsListing(names, items);
    names
  }

  function Content(names: seq<string>, items: Items): string
    requires forall n :: n in names ==> n in items
  {
    if names == [] then ""
    else
      assert forall n :: n in names[1..] ==> n in names;
      ItemText(names[0], items[names[0]]) + Content(names[1..], items)
  }

  ghost function Encoded(items: Items): string {
    Content(Listing(items), items)
  }

  // ----- A content has one reading

  lemma FirstMark(a: string, c: char, x: string)
    requires c !in a
    ensures var s := a + [c] + x;
            s[|a|] == c && (forall k :: 0 <= k < |a| ==> s[k] != c) && s[..|a|] == a && s[|a| + 1..] == x
  {
  }

  lemma MarkTells(a: string, b: string, c: char, x: string, y: string)
    requires c !in a && c !in b && a + [c] + x == b + [c] + y
    ensures a == b && x == y
  {
    FirstMark(a, c, x);
    FirstMark(b, c, y);
    assert |a| == |b|;
  }

  lemma ModeTells(m: Mode, k: Mode)
    ensures ' ' !in ModeText(m)
    ensures ModeText(m) == ModeText(k) ==> m == k
  {
    assert "100644"[3] != "100755"[3] && "120000"[1] != "100644"[1] && "120000"[1] != "100755"[1];
    assert |"40000"| == 5;
  }

  lemma ItemTells(a: string, i: Item, x: string, b: string, k: Item, y: string)
    requires IsName(a) && IsName(b) && ItemText(a, i) + x == ItemText(b, k) + y
    ensures a == b && i == k && x == y
  {
    hide ModeText;
    var s, t := a + "\0" + i.id + x, b + "\0" + k.id + y;
    assert ItemText(a, i) + x == ModeText(i.mode) + [' '] + s;
    assert ItemText(b, k) + y == ModeText(k.mode) + [' '] + t;
    ModeTells(i.mode, k.mode);
    ModeTells(k.mode, i.mode);
    MarkTells(ModeText(i.mode), ModeText(k.mode), ' ', s, t);
    assert s == a + ['\0'] + (i.id + x) && t == b + ['\0'] + (k.id + y);
    MarkTells(a, b, '\0', i.id + x, k.id + y);
    assert (i.id + x)[..20] == i.id && (k.id + y)[..20] == k.id;
    assert (i.id + x)[20..] == x && (k.id + y)[20..] == y;
  }

  lemma {:induction false} ContentTells(a: seq<string>, items: Items, b: seq<string>, others: Items)
    requires Named(items) && Named(others)
    requires (forall n :: n in a ==> n in items) && (forall n :: n in b ==> n in others)
    requires Content(a, items) == Content(b, others)
    ensures a == b && forall n :: n in a ==> items[n] == others[n]
  {
    hide ItemText;
    if a != [] && b != [] {
      assert a == [a[0]] + a[1..] && b == [b[0]] + b[1..];
      ItemTells(a[0], items[a[0]], Content(a[1..], items), b[0], others[b[0]], Content(b[1..], others));
      ContentTells(a[1..], items, b[1..], others);
    } else if a != [] {
      ItemIsLong(a[0], items[a[0]]);
    } else if b != [] {
      ItemIsLong(b[0], others[b[0]]);
    }
  }

  lemma ItemIsLong(name: string, item: Item)
    ensures |ItemText(name, item)| >= 20
  {
  }

  /** Directories that are encoded alike have the same entries. */
  lemma EncodedTells(items: Items, others: Items)
    requires Named(items) && Named(others) && Encoded(items) == Encoded(others)
    ensures items == others
  {
    hide Content, IsName, Distinct, Ordered;
    ContentTells(Listing(items), items, Listing(others), others);
    forall n
      ensures n in items <==> n in others
    {
    }
  }

  // ----- The id

  /** What is in a directory, at any depth. */
  function Inside(t: Tree, d: seq<Name>): set<Path> {
    set p | p in t && |p| > |d| && p[..|d|] == d
  }

  /** What is directly in it, but for `.git` at the top. */
  function Names(t: Tree, d: seq<Name>): set<Name> {
    set p | p in t && |p| == |d| + 1 && p[..|d|] == d && (d == [] ==> !InGit(p)) :: p[|d|]
  }

  lemma NamesAre(t: Tree, d: seq<Name>, n: Name)
    ensures n in Names(t, d) <==> d + [n] in t && (d == [] ==> n != GIT)
    ensures d + [n] in t ==> Inside(t, d + [n]) < Inside(t, d)
  {
    var p := d + [n];
    assert p[..|d|] == d && p[|d|] == n;
    if n in Names(t, d) {
      var q :| q in t && |q| == |d| + 1 && q[..|d|] == d && (d == [] ==> !InGit(q)) && q[|d|] == n;
      assert q == p;
    }
    forall q | q in Inside(t, p)
      ensures q in Inside(t, d)
    {
      assert q[..|d|] == q[..|p|][..|d|];
    }
    if p in t {
      assert p in Inside(t, d) && p !in Inside(t, p);
    }
  }

  /** The line an entry has in its directory's object; an empty directory has none. */
  ghost function ItemAt(t: Tree, p: Path, hash: Hash): Option<Item>
    requires p in t
    decreases Inside(t, p), 1
  {
    match t[p]
    case Link(target) => Some(Item(LinkMode, hash(Object("blob", target))))
    case File(bytes, perm) =>
      Some(Item(if Executable(perm) then ExecutableMode else PlainMode, hash(Object("blob", bytes))))
    case Directory =>
      var items := ItemsOf(t, p, hash);
      if items == map[] then None else Some(Item(DirectoryMode, hash(Object("tree", Encoded(items)))))
  }

  /** The lines of a directory's object. */
  ghost function ItemsOf(t: Tree, d: seq<Name>, hash: Hash): (items: Items)
    ensures Named(items)
    decreases Inside(t, d), 0
  {
    assert forall n :: n in Names(t, d) ==> d + [n] in t && Inside(t, d + [n]) < Inside(t, d) by {
      forall n: Name | n in Names(t, d)
        ensures d + [n] in t && Inside(t, d + [n]) < Inside(t, d)
      {
        NamesAre(t, d, n);
      }
    }
    map n | n in Names(t, d) && ItemAt(t, d + [n], hash).Some? :: ItemAt(t, d + [n], hash).value
  }

  /** The program's id of a tree, if no repository is nested in it. */
  ghost function TreeId(t: Tree, hash: Hash): Option<ObjectId> {
    if NestsRepo(t) then None else Some(hash(Object("tree", Encoded(ItemsOf(t, [], hash)))))
  }

  /** Everything that was hashed for it. */
  ghost function Hashed(t: Tree, hash: Hash): set<Object> {
    {Object("tree", Encoded(ItemsOf(t, [], hash)))}
    + (set p | p in t && !InGit(p) && t[p].Directory? :: Object("tree", Encoded(ItemsOf(t, p, hash))))
    + (set p | p in t && !InGit(p) && !t[p].Directory? :: Object("blob", Stored(t[p])))
  }

  function Stored(e: Entry): string
    requires !e.Directory?
  {
    match e
    case Link(target) => target
    case File(bytes, _) => bytes
  }

  // ----- What it is an id of

  lemma ItemsAre(t: Tree, d: seq<Name>, n: Name, hash: Hash)
    ensures n in ItemsOf(t, d, hash)
       <==> d + [n] in t && (d == [] ==> n != GIT) && ItemAt(t, d + [n], hash).Some?
    ensures n in ItemsOf(t, d, hash) ==> ItemAt(t, d + [n], hash) == Some(ItemsOf(t, d, hash)[n])
  {
    NamesAre(t, d, n);
  }

  lemma {:induction false} Ancestor(t: Tree, q: Path, k: nat)
    requires Closed(t) && q in t && 0 < k <= |q|
    ensures q[..k] in t && (k < |q| ==> t[q[..k]].Directory?)
    decreases |q| - k
  {
    if k == |q| {
      assert q[..k] == q;
    } else {
      Ancestor(t, q, k + 1);
      assert q[..k + 1][..k] == q[..k];
    }
  }

  /** Is something that git stores at this path or below it? */
  ghost predicate Shows(t: Tree, p: Path) {
    exists q :: q in ViewOf(t) && p <= q
  }

  lemma {:induction false} ItemShows(t: Tree, p: Path, hash: Hash)
    requires Closed(t) && p in t && !InGit(p)
    ensures ItemAt(t, p, hash).Some? <==> Shows(t, p)
    decreases Inside(t, p)
  {
    hide ItemsOf, Encoded, Closed;
    if !t[p].Directory? {
      assert p in ViewOf(t) && p <= p;
    } else {
      var items := ItemsOf(t, p, hash);
      if items != map[] {
        var n: string :| n in items;
        ItemShowsBelow(t, p, n, hash);
      }
      if q :| q in ViewOf(t) && p <= q {
        assert q != p && q[..|p|] == p;
        Ancestor(t, q, |p| + 1);
        var n := q[|p|];
        assert q[..|p| + 1] == p + [n] && p + [n] <= q;
        ItemShowsBelow(t, p, n, hash);
        assert Shows(t, p + [n]);
      }
    }
  }

  lemma ItemShowsBelow(t: Tree, p: Path, n: Name, hash: Hash)
    requires Closed(t) && p in t && !InGit(p)
    ensures n in ItemsOf(t, p, hash) <==> p + [n] in t && Shows(t, p + [n])
    ensures n in ItemsOf(t, p, hash) ==> Shows(t, p)
    decreases Inside(t, p), 0
  {
    hide ItemsOf, ItemAt, Closed;
    ItemsAre(t, p, n, hash);
    NamesAre(t, p, n);
    if p + [n] in t {
      assert (p + [n])[0] == p[0];
      ItemShows(t, p + [n], hash);
      if Shows(t, p + [n]) {
        var q :| q in ViewOf(t) && p + [n] <= q;
        assert p <= q;
      }
    }
  }

  /** A directory's object lists exactly the names at which, or below which, something is stored. */
  lemma LinesAre(t: Tree, d: seq<Name>, n: Name, hash: Hash)
    requires Closed(t) && (d != [] ==> d[0] != GIT)
    ensures n in ItemsOf(t, d, hash) <==> Shows(t, d + [n])
    ensures Shows(t, d + [n]) ==> d + [n] in t && !InGit(d + [n])
  {
    hide ItemsOf, ItemAt, Closed;
    var p := d + [n];
    ItemsAre(t, d, n, hash);
    if q :| q in ViewOf(t) && p <= q {
      Ancestor(t, q, |p|);
      assert q[..|p|] == p && q[0] == p[0];
    }
    if p in t && !InGit(p) {
      ItemShows(t, p, hash);
    }
    if d == [] {
      assert p[0] == n;
    } else {
      assert p[0] == d[0];
    }
  }

  /** Trees that store the same have the same objects. */
  lemma {:induction false} SameViewSameItems(t: Tree, u: Tree, d: seq<Name>, hash: Hash)
    requires Closed(t) && Closed(u) && ViewOf(t) == ViewOf(u) && (d != [] ==> d[0] != GIT)
    ensures ItemsOf(t, d, hash) == ItemsOf(u, d, hash)
    decreases Inside(t, d), 0
  {
    hide ItemsOf, ItemAt, Closed, ViewOf, Shows;
    var items, others := ItemsOf(t, d, hash), ItemsOf(u, d, hash);
    forall n: string
      ensures n in items <==> n in others
      ensures n in items ==> items[n] == others[n]
    {
      if IsName(n) {
        LinesAre(t, d, n, hash);
        LinesAre(u, d, n, hash);
        SameShows(t, u, d + [n]);
        if n in items {
          NamesAre(t, d, n);
          SameItem(t, u, d + [n], hash);
          ItemsAre(t, d, n, hash);
          ItemsAre(u, d, n, hash);
        }
      }
    }
  }

  lemma SameShows(t: Tree, u: Tree, p: Path)
    requires ViewOf(t) == ViewOf(u)
    ensures Shows(t, p) <==> Shows(u, p)
  {
  }

  lemma SameItem(t: Tree, u: Tree, p: Path, hash: Hash)
    requires Closed(t) && Closed(u) && ViewOf(t) == ViewOf(u)
    requires p in t && p in u && !InGit(p)
    ensures ItemAt(t, p, hash) == ItemAt(u, p, hash)
    decreases Inside(t, p), 1
  {
    hide ItemsOf, Closed, Encoded;
    assert p in ViewOf(t) <==> p in ViewOf(u);
    if t[p].Directory? {
      SameViewSameItems(t, u, p, hash);
    } else {
      assert ViewOf(t)[p] == ViewOf(u)[p];
    }
  }

  /** And trees whose objects at some directory are the same store the same below it. */
  lemma {:induction false} SameItemsSameView(t: Tree, u: Tree, q: Path, k: nat, hash: Hash)
    requires Closed(t) && Closed(u) && TellsApart(hash, Hashed(t, hash) + Hashed(u, hash))
    requires k < |q| && ItemsOf(t, q[..k], hash) == ItemsOf(u, q[..k], hash) && q in ViewOf(t)
    ensures q in ViewOf(u) && ViewOf(t)[q] == ViewOf(u)[q]
    decreases |q| - k
  {
    hide ItemsOf, ItemAt, Closed, Encoded, Hashed, TellsApart;
    var d, n, p := q[..k], q[k], q[..k + 1];
    assert p == d + [n] && q[0] == p[0] && p <= q && q[..|q|] == q;
    assert k > 0 ==> d[0] == q[0];
    Ancestor(t, q, k + 1);
    assert Shows(t, p);
    LinesAre(t, d, n, hash);
    LinesAre(u, d, n, hash);
    ItemsAre(t, d, n, hash);
    ItemsAre(u, d, n, hash);
    SameItemSameEntry(t, u, p, hash);
    if k + 1 < |q| {
      SameItemsSameView(t, u, q, k + 1, hash);
    }
  }

  lemma SameItemSameEntry(t: Tree, u: Tree, p: Path, hash: Hash)
    requires TellsApart(hash, Hashed(t, hash) + Hashed(u, hash))
    requires p in t && p in u && !InGit(p)
    requires ItemAt(t, p, hash).Some? && ItemAt(t, p, hash) == ItemAt(u, p, hash)
    ensures t[p].Directory? <==> u[p].Directory?
    ensures t[p].Directory? ==> ItemsOf(t, p, hash) == ItemsOf(u, p, hash)
    ensures !t[p].Directory? ==> LeafOf(t[p]) == LeafOf(u[p])
  {
    hide ItemsOf, Encoded;
    if t[p].Directory? {
      HashedAt(t, p, hash);
      HashedAt(u, p, hash);
      EncodedTells(ItemsOf(t, p, hash), ItemsOf(u, p, hash));
    } else {
      HashedAt(t, p, hash);
      HashedAt(u, p, hash);
      assert Stored(t[p]) == Stored(u[p]);
    }
  }

  lemma HashedAt(t: Tree, p: Path, hash: Hash)
    requires p in t && !InGit(p)
    ensures t[p].Directory? ==> Object("tree", Encoded(ItemsOf(t, p, hash))) in Hashed(t, hash)
    ensures !t[p].Directory? ==> Object("blob", Stored(t[p])) in Hashed(t, hash)
  {
    hide ItemsOf, Encoded;
  }

  /** Two trees have one id exactly when they store the same: the same files and links at the same
      places, with the same bytes and the same leave to execute. */
  lemma TreeIdTellsExactly(t: Tree, u: Tree, hash: Hash)
    requires Closed(t) && Closed(u) && !NestsRepo(t) && !NestsRepo(u)
    requires TellsApart(hash, Hashed(t, hash) + Hashed(u, hash))
    ensures TreeId(t, hash) == TreeId(u, hash) <==> ViewOf(t) == ViewOf(u)
  {
    hide ItemsOf, Closed, Encoded, ViewOf, NestsRepo;
    if ViewOf(t) == ViewOf(u) {
      SameViewSameItems(t, u, [], hash);
    }
    if TreeId(t, hash) == TreeId(u, hash) {
      EncodedTells(ItemsOf(t, [], hash), ItemsOf(u, [], hash));
      forall q: Path
        ensures q in ViewOf(t) <==> q in ViewOf(u)
        ensures q in ViewOf(t) ==> ViewOf(t)[q] == ViewOf(u)[q]
      {
        assert q[..0] == [];
        if q in ViewOf(t) {
          SameItemsSameView(t, u, q, 0, hash);
        }
        if q in ViewOf(u) {
          Swapped(t, u, hash);
          SameItemsSameView(u, t, q, 0, hash);
        }
      }
    }
  }

  lemma Swapped(t: Tree, u: Tree, hash: Hash)
    ensures Hashed(t, hash) + Hashed(u, hash) == Hashed(u, hash) + Hashed(t, hash)
  {
    hide Hashed;
  }

  /** In particular an id does not see what is not stored, whatever the hash. */
  lemma SameViewSameId(t: Tree, u: Tree, hash: Hash)
    requires Closed(t) && Closed(u) && ViewOf(t) == ViewOf(u) && (NestsRepo(t) <==> NestsRepo(u))
    ensures TreeId(t, hash) == TreeId(u, hash)
  {
    hide ItemsOf, Closed, Encoded, ViewOf, NestsRepo;
    SameViewSameItems(t, u, [], hash);
  }
}
