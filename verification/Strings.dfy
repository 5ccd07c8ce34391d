/** What several modules say about strings: blanks, the names of sibling files, and order. */
module Strings {
  import opened Sorting

  // ----- Blanks

  /** The characters Unicode calls white space. */
  predicate IsSpace(c: char) {
    || c == ' ' || '\t' <= c <= '\r' || c == '\U{0085}' || c == '\U{00A0}' || c == '\U{1680}'
    || '\U{2000}' <= c <= '\U{200A}' || c == '\U{2028}' || c == '\U{2029}' || c == '\U{202F}'
    || c == '\U{205F}' || c == '\U{3000}'
  }

  predicate Blank(s: string) {
    forall i :: 0 <= i < |s| ==> IsSpace(s[i])
  }

  // ----- Sibling files

  /** Where a file is written before it replaces another. */
  function TmpOf(path: string): string { path + ".tmp" }

  lemma TmpIsOther(path: string)
    ensures TmpOf(path) != path
  {
    assert |TmpOf(path)| == |path| + 4;
  }

  // ----- Order

  /** The order in which the library sorts strings. */
  predicate Precedes(a: string, b: string) {
    if b == "" then false
    else if a == "" then true
    else if a[0] != b[0] then a[0] < b[0]
    else Precedes(a[1..], b[1..])
  }

  lemma {:induction false} PrecedesIsIrreflexive(a: string)
    ensures !Precedes(a, a)
  {
    if a != "" {
      PrecedesIsIrreflexive(a[1..]);
    }
  }

  lemma {:induction false} PrecedesIsTransitive(a: string, b: string, c: string)
    ensures Precedes(a, b) && Precedes(b, c) ==> Precedes(a, c)
    ensures !Precedes(a, b) && !Precedes(b, c) ==> !Precedes(a, c)
  {
    if a != "" && b != "" && c != "" {
      PrecedesIsTransitive(a[1..], b[1..], c[1..]);
    }
  }

  lemma {:induction false} PrecedesTellsApart(a: string, b: string)
    requires !Precedes(a, b) && !Precedes(b, a)
    ensures a == b
  {
    if a != "" && b != "" {
      PrecedesTellsApart(a[1..], b[1..]);
      assert a == [a[0]] + a[1..] && b == [b[0]] + b[1..];
    }
  }

  lemma PrecedesIsStrictWeak()
    ensures StrictWeak(Precedes)
  {
    forall a
      ensures !Precedes(a, a)
    {
      PrecedesIsIrreflexive(a);
    }
    forall a, b, c
      ensures Precedes(a, b) && Precedes(b, c) ==> Precedes(a, c)
      ensures !Precedes(a, b) && !Precedes(b, c) ==> !Precedes(a, c)
    {
      PrecedesIsTransitive(a, b, c);
    }
  }

  /** The elements of a set, in ascending order. */
  ghost predicate Lists(keys: seq<string>, s: set<string>) {
    Distinct(keys) && Ordered(keys, Precedes) && forall k :: k in keys <==> k in s
  }

  lemma ListingIsUnique(a: seq<string>, b: seq<string>, s: set<string>)
    requires Lists(a, s) && Lists(b, s)
    ensures a == b
  {
    DistinctSameElements(a, b);
    forall x, y | x in a && y in a && !Precedes(x, y) && !Precedes(y, x)
      ensures x == y
    {
      PrecedesTellsApart(x, y);
    }
    OrderedUnique(a, b, Precedes);
  }

  lemma SortLists(keys: seq<string>, s: set<string>)
    requires Distinct(keys) && forall k :: k in keys <==> k in s
    ensures Lists(Sort(keys, Precedes), s)
  {
    hide Precedes, Sort;
    PrecedesIsStrictWeak();
    SortOrders(keys, Precedes);
    forall k
      ensures k in Sort(keys, Precedes) <==> k in keys
    {
      SameElements(Sort(keys, Precedes), keys, k);
    }
    DistinctRearranged(keys, Sort(keys, Precedes));
  }

  lemma {:induction false} SomeOrder(s: set<string>) returns (keys: seq<string>)
    ensures Distinct(keys) && forall k :: k in keys <==> k in s
    decreases |s|
  {
    keys := [];
    if s != {} {
      var k :| k in s;
      var rest := SomeOrder(s - {k});
      keys := rest + [k];
    }
  }
}
