/** Splicing a generated block into a hand-written file between two markers. */
module Splice {
  const BEGIN := "<!-- replay:sources:begin -->"
  const END := "<!-- replay:sources:end -->"

  // ----- First occurrences

  predicate At(s: string, k: int, m: string) {
    0 <= k && k + |m| <= |s| && s[k..k + |m|] == m
  }

  function FindFrom(s: string, m: string, k: nat): (r: int)
    requires k <= |s|
    ensures r == -1 || (k <= r && At(s, r, m))
    ensures forall i :: k <= i && (r == -1 || i < r) ==> !At(s, i, m)
    decreases |s| - k
  {
    if At(s, k, m) then k
    else if k == |s| then -1
    else FindFrom(s, m, k + 1)
  }

  /** The index of the first occurrence, or -1. */
  function Find(s: string, m: string): (r: int)
    ensures r == -1 || (0 <= r && At(s, r, m))
    ensures forall i :: 0 <= i && (r == -1 || i < r) ==> !At(s, i, m)
  {
    FindFrom(s, m, 0)
  }

  // ----- The operation

  function Separator(text: string): string {
    if text != "" && text[|text| - 1] != '\n' then "\n\n" else "\n"
  }

  /** Replaces the block between the markers. Absent, stray or reversed markers append. */
  function SpliceIn(text: string, block: string): string {
    var i, j := Find(text, BEGIN), Find(text, END);
    if i < 0 || j < 0 || j < i then text + Separator(text) + block
    else
      var stop := j + |END|;
      var past := if stop < |text| && text[stop] == '\n' then stop + 1 else stop;
      text[..i] + block + text[past..]
  }

  /** A block as it is generated: the markers on lines of their own, and neither one inside. */
  ghost predicate IsBlock(b: string, body: string) {
    && b == BEGIN + ("\n" + body + "\n") + (END + "\n")
    && Find(body, BEGIN) == -1 && Find(body, END) == -1
  }

  ghost predicate Generated(b: string) { exists body :: IsBlock(b, body) }

  // ----- Occurrences across a seam

  predicate Marker(m: string) { m == BEGIN || m == END }

  /** A marker opens with its only angle bracket and stays on one line. */
  lemma MarkerShape(m: string, k: nat)
    requires Marker(m) && k < |m|
    ensures m[k] == '<' <==> k == 0
    ensures m[k] != '\n'
  {
    assert forall i :: 0 < i < |BEGIN| ==> BEGIN[i] != '<' && BEGIN[i] != '\n';
    assert forall i :: 0 < i < |END| ==> END[i] != '<' && END[i] != '\n';
  }

  /** A place where no marker can lie across. */
  predicate Seam(x: string, y: string) {
    x == "" || y == "" || y[0] == '<' || y[0] == '\n' || x[|x| - 1] == '\n'
  }

  lemma NothingAcross(x: string, y: string, m: string, k: int)
    requires Marker(m) && Seam(x, y) && At(x + y, k, m)
    ensures At(x, k, m) || At(y, k - |x|, m)
  {
    var s := x + y;
    if k < |x| < k + |m| {
      var d := |x| - k;
      assert s[k..k + |m|][d] == m[d] && s[k + d] == y[0];
      assert s[k..k + |m|][d - 1] == m[d - 1] && s[k + d - 1] == x[|x| - 1];
      MarkerShape(m, d);
      MarkerShape(m, d - 1);
    } else if k + |m| <= |x| {
      assert s[k..k + |m|] == x[k..k + |m|];
    } else {
      assert s[k..k + |m|] == y[k - |x|..k - |x| + |m|];
    }
  }

  lemma SomethingIn(x: string, y: string, m: string, k: int)
    ensures At(x, k, m) ==> At(x + y, k, m)
    ensures At(y, k, m) ==> At(x + y, |x| + k, m)
  {
    if At(x, k, m) {
      assert (x + y)[k..k + |m|] == x[k..k + |m|];
    }
    if At(y, k, m) {
      assert (x + y)[|x| + k..|x| + k + |m|] == y[k..k + |m|];
    }
  }

  /** The first occurrence in a concatenation is the first one in either part. */
  lemma FindAcross(x: string, y: string, m: string)
    requires Marker(m) && Seam(x, y)
    ensures Find(x + y, m) ==
            if Find(x, m) >= 0 then Find(x, m)
            else if Find(y, m) >= 0 then |x| + Find(y, m)
            else -1
  {
    hide At, FindFrom, Find, Seam, Marker;
    var r := Find(x + y, m);
    if r >= 0 {
      NothingAcross(x, y, m, r);
    }
    if Find(x, m) >= 0 {
      SomethingIn(x, y, m, Find(x, m));
      InBounds(x, Find(x, m), m);
    }
    if Find(y, m) >= 0 {
      SomethingIn(x, y, m, Find(y, m));
    }
    if r >= 0 && At(y, r - |x|, m) {
      InBounds(y, r - |x|, m);
    }
  }

  lemma InBounds(s: string, k: int, m: string)
    requires At(s, k, m)
    ensures 0 <= k <= |s| - |m|
  {
  }

  lemma FindAtHead(m: string, rest: string)
    ensures Find(m + rest, m) == 0
  {
    assert (m + rest)[0..|m|] == m;
    assert At(m + rest, 0, m);
  }

  lemma MarkersApart()
    ensures Find(BEGIN, END) == -1 && Find(END, BEGIN) == -1
    ensures Find("\n", BEGIN) == -1 && Find("\n", END) == -1
    ensures Find("\n\n", BEGIN) == -1 && Find("\n\n", END) == -1
  {
    assert BEGIN[20] == 'b' && END[20] == 'e';
    assert BEGIN[0..|END|][20] != END[20];
    assert |BEGIN| == |END| + 2 && BEGIN[1] == '!' && BEGIN[2] == '-' && END[0] == '<';
    assert BEGIN[1..|END| + 1][0] != END[0] && BEGIN[2..|END| + 2][0] != END[0];
  }

  /** Where the markers of a block are, whatever follows the block. */
  lemma FindInBlock(b: string, body: string, rest: string)
    requires IsBlock(b, body)
    ensures b[0] == '<' && b[|b| - 1] == '\n'
    ensures Find(b + rest, BEGIN) == 0
    ensures Find(b + rest, END) == |b| - |END| - 1
  {
    var inner := "\n" + body + "\n";
    var head, tail := BEGIN + inner, END + ("\n" + rest);
    assert b + rest == head + tail;
    assert b + rest == BEGIN + (inner + tail);
    FindAtHead(BEGIN, inner + tail);
    FindAtHead(END, "\n" + rest);
    MarkersApart();
    assert inner == "\n" + (body + "\n");
    FindAcross(body, "\n", END);
    FindAcross("\n", body + "\n", END);
    FindAcross(BEGIN, inner, END);
    FindAcross(head, tail, END);
  }

  // ----- What is outside the block

  /** Neither marker is there, or the first opening marker comes before the first closing one. */
  predicate Marked(x: string) {
    var i, j := Find(x, BEGIN), Find(x, END);
    (i < 0 && j < 0) || 0 <= i < j
  }

  function Before(x: string): string {
    var i := Find(x, BEGIN);
    if i < 0 then x + Separator(x) else x[..i]
  }

  function After(x: string): string {
    var j := Find(x, END);
    if j < 0 then ""
    else
      var stop := j + |END|;
      if stop < |x| && x[stop] == '\n' then x[stop + 1..] else x[stop..]
  }

  lemma SplicedBetween(x: string, b: string)
    requires Marked(x)
    ensures SpliceIn(x, b) == Before(x) + b + After(x)
  {
  }

  lemma BeforeHasNoMarker(x: string, m: string)
    requires Marked(x) && Marker(m)
    ensures Find(Before(x), m) == -1
  {
    MarkersApart();
    var i := Find(x, BEGIN);
    if i < 0 {
      hide Find, At, Seam;
      SeparatorIsSeam(x);
      FindAcross(x, Separator(x), m);
    } else {
      NotInPrefix(x, i, BEGIN);
      NotInPrefix(x, i, END);
    }
  }

  lemma SeparatorIsSeam(x: string)
    ensures Seam(x, Separator(x))
  {
  }

  lemma NotInPrefix(x: string, i: nat, m: string)
    requires i <= |x| && (Find(x, m) < 0 || i <= Find(x, m))
    ensures Find(x[..i], m) == -1 || m == ""
  {
    var k := Find(x[..i], m);
    if k >= 0 && m != "" {
      assert x[k..k + |m|] == x[..i][k..k + |m|];
      assert At(x, k, m);
    }
  }

  /** A write keeps the text before and after the block, byte for byte, and leaves markers that the
      next write finds. */
  lemma OutsideSurvives(x: string, b: string)
    requires Marked(x) && Generated(b)
    ensures var y := SpliceIn(x, b);
            Marked(y) && Before(y) == Before(x) && After(y) == After(x)
  {
    hide Find, SpliceIn, At, Separator;
    var body :| IsBlock(b, body);
    var p, q := Before(x), After(x);
    var y := p + (b + q);
    SplicedBetween(x, b);
    assert SpliceIn(x, b) == y;
    FindInBlock(b, body, q);
    BeforeHasNoMarker(x, BEGIN);
    BeforeHasNoMarker(x, END);
    FindAcross(p, b + q, BEGIN);
    FindAcross(p, b + q, END);
    assert y[..|p|] == p;
    var stop := |p| + |b| - 1;
    assert y[stop] == b[|b| - 1];
    assert y[stop + 1..] == q;
  }

  function SpliceAll(x: string, blocks: seq<string>): string {
    if blocks == [] then x else SpliceIn(SpliceAll(x, blocks[..|blocks| - 1]), blocks[|blocks| - 1])
  }

  /** Any number of rewrites leaves the same text outside the block, and the last block. */
  lemma {:induction false} RewritesKeepOutside(x: string, blocks: seq<string>)
    requires Marked(x) && blocks != []
    requires forall b :: b in blocks ==> Generated(b)
    ensures Marked(SpliceAll(x, blocks))
    ensures Before(SpliceAll(x, blocks)) == Before(x) && After(SpliceAll(x, blocks)) == After(x)
    ensures SpliceAll(x, blocks) == SpliceIn(x, blocks[|blocks| - 1])
  {
    var front, last := blocks[..|blocks| - 1], blocks[|blocks| - 1];
    if front == [] {
      assert SpliceAll(x, front) == x;
    } else {
      RewritesKeepOutside(x, front);
    }
    var y := SpliceAll(x, front);
    OutsideSurvives(y, last);
    SplicedBetween(y, last);
    SplicedBetween(x, last);
  }

  // ----- The put-put law, and exactly where it fails

  /** Where the first markers are after a block was appended. */
  lemma Appended(x: string, b: string)
    requires Generated(b)
    ensures var p := x + Separator(x);
            var y := p + b;
            && y[|y| - 1] == '\n'
            && Find(y, BEGIN) == (if Find(x, BEGIN) >= 0 then Find(x, BEGIN) else |p|)
            && Find(y, END) == (if Find(x, END) >= 0 then Find(x, END) else |y| - |END| - 1)
  {
    var body :| IsBlock(b, body);
    hide IsBlock, Find, Generated;
    MarkersApart();
    FindInBlock(b, body, "");
    assert b + "" == b;
    FindAcross(x, Separator(x), BEGIN);
    FindAcross(x, Separator(x), END);
    FindAcross(x + Separator(x), b, BEGIN);
    FindAcross(x + Separator(x), b, END);
  }

  /** What a second write does when an opening marker has no closing one: it takes the stray marker
      for the start of the block, and everything after it is gone. */
  lemma StrayBegin(x: string, b1: string, b2: string)
    requires Generated(b1) && Generated(b2)
    requires Find(x, BEGIN) >= 0 && Find(x, END) < 0
    ensures SpliceIn(SpliceIn(x, b1), b2) == x[..Find(x, BEGIN)] + b2
  {
    Appended(x, b1);
    var i, y := Find(x, BEGIN), x + Separator(x) + b1;
    assert SpliceIn(x, b1) == y;
    assert y[..i] == x[..i] && y[|y|..] == "";
  }

  /** A closing marker that comes first, or alone, makes every write append. */
  lemma StrayEnd(x: string, b1: string, b2: string)
    requires Generated(b1) && Generated(b2)
    requires Find(x, END) >= 0 && (Find(x, BEGIN) < 0 || Find(x, END) < Find(x, BEGIN))
    ensures SpliceIn(SpliceIn(x, b1), b2) == x + Separator(x) + b1 + "\n" + b2
  {
    hide Generated, Find;
    Appended(x, b1);
    Bounded(x, END);
    assert SpliceIn(x, b1) == x + Separator(x) + b1;
  }

  lemma Bounded(x: string, m: string)
    ensures Find(x, m) >= 0 ==> Find(x, m) + |m| <= |x|
  {
  }

  /** Both markers never start at the same place. */
  lemma MarkersDiffer(x: string)
    requires Find(x, BEGIN) >= 0
    ensures Find(x, BEGIN) != Find(x, END)
  {
    var i := Find(x, BEGIN);
    assert x[i..i + |BEGIN|][20] == BEGIN[20];
    assert x[i..i + |END|][20] != END[20];
  }

  /** Writing twice is writing once, exactly for the texts whose markers are absent or in order. */
  lemma PutPutExactly(x: string, b1: string, b2: string)
    requires Generated(b1) && Generated(b2)
    ensures SpliceIn(SpliceIn(x, b1), b2) == SpliceIn(x, b2) <==> Marked(x)
  {
    hide Generated, Find;
    var i, j := Find(x, BEGIN), Find(x, END);
    Bounded(x, BEGIN);
    if Marked(x) {
      RewritesKeepOutside(x, [b1, b2]);
      assert [b1, b2][..1] == [b1] && [b1][..0] == [];
      assert SpliceAll(x, [b1]) == SpliceIn(x, b1);
    } else if j < 0 {
      StrayBegin(x, b1, b2);
      assert |x[..i] + b2| < |x + Separator(x) + b2|;
    } else {
      if i >= 0 {
        MarkersDiffer(x);
      }
      StrayEnd(x, b1, b2);
      BlocksAreLong(b1);
      assert |x + Separator(x) + b1 + "\n" + b2| > |x + Separator(x) + b2|;
    }
  }

  lemma BlocksAreLong(b: string)
    requires Generated(b)
    ensures |b| > 0
  {
  }
}
