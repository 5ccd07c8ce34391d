/** Breaking a paragraph into lines of a given width, greedily. */
module WrapAt {
  import opened Strings

  // ----- Words

  predicate IsWord(w: string) {
    w != "" && forall i :: 0 <= i < |w| ==> !IsSpace(w[i])
  }

  /** How many characters come before the first blank. */
  function WordLength(s: string): (n: nat)
    ensures n <= |s|
    ensures forall i :: 0 <= i < n ==> !IsSpace(s[i])
    ensures n < |s| ==> IsSpace(s[n])
  {
    if s == "" || IsSpace(s[0]) then 0 else 1 + WordLength(s[1..])
  }

  /** The words of a text: its longest runs of non-blank characters, in order. */
  function Fields(s: string): (words: seq<string>)
    ensures forall w :: w in words ==> IsWord(w)
    decreases |s|
  {
    if s == "" then []
    else if IsSpace(s[0]) then Fields(s[1..])
    else [s[..WordLength(s)]] + Fields(s[WordLength(s)..])
  }

  /** How many bytes the UTF-8 encoding of a character has. */
  function EncodedLength(c: char): nat {
    if c < '\U{0080}' then 1 else if c < '\U{0800}' then 2 else if c < '\U{10000}' then 3 else 4
  }

  /** The width of a text is counted in bytes. */
  function Bytes(s: string): nat {
    if s == "" then 0 else EncodedLength(s[0]) + Bytes(s[1..])
  }

  lemma {:induction false} BytesAppend(a: string, b: string)
    ensures Bytes(a + b) == Bytes(a) + Bytes(b)
  {
    if a == "" {
      assert a + b == b;
    } else {
      BytesAppend(a[1..], b);
      assert (a + b)[1..] == a[1..] + b;
    }
  }

  // ----- Lines

  type Line = l: seq<string> | l != [] witness [""]

  function Text(line: Line): string {
    if |line| == 1 then line[0] else Text(line[..|line| - 1]) + " " + line[|line| - 1]
  }

  function Words(lines: seq<Line>): seq<string> {
    if lines == [] then [] else Words(lines[..|lines| - 1]) + lines[|lines| - 1]
  }

  function Render(lines: seq<Line>, indent: string): string {
    if lines == [] then ""
    else if |lines| == 1 then Text(lines[0])
    else Render(lines[..|lines| - 1], indent) + "\n" + indent + Text(lines[|lines| - 1])
  }

  /** A line fits the width, or is a single word that cannot. */
  ghost predicate Legal(lines: seq<Line>, width: int) {
    forall l :: l in lines ==> |l| == 1 || Bytes(Text(l)) <= width
  }

  function Last(lines: seq<Line>): Line
    requires lines != []
  {
    lines[|lines| - 1]
  }

  /** The lines with one more word: on the last line if it fits there, else on a new one. */
  function AddWord(lines: seq<Line>, word: string, width: int): (r: seq<Line>)
    ensures r != []
  {
    if lines == [] || Bytes(Text(Last(lines))) + 1 + Bytes(word) > width then lines + [[word]]
    else lines[..|lines| - 1] + [Last(lines) + [word]]
  }

  /** The lines greedy breaking makes. */
  function Greedy(words: seq<string>, width: int): (lines: seq<Line>)
    ensures words != [] ==> lines != []
  {
    if words == [] then [] else AddWord(Greedy(words[..|words| - 1], width), words[|words| - 1], width)
  }

  /** Everything rendered before the last line. */
  function Above(lines: seq<Line>, indent: string): string
    requires lines != []
  {
    if |lines| == 1 then "" else Render(lines[..|lines| - 1], indent) + "\n" + indent
  }

  method WrapAt(s: string, width: int, indent: string) returns (wrapped: string)
    ensures wrapped == Render(Greedy(Fields(s), width), indent)
  {
    hide Text, Render, Greedy, AddWord, Fields;
    var words := Fields(s);
    if |words| == 0 {
      NothingToWrap(width, indent);
      return "";
    }
    var b, line := "", words[0];
    ghost var lines: seq<Line> := [[words[0]]];
    FirstLine(words[0], width);
    assert words[..1] == [words[0]];
    for n := 1 to |words|
      invariant lines == Greedy(words[..n], width) && lines != []
      invariant line == Text(Last(lines))
      invariant b == Above(lines, indent)
    {
      var w := words[n];
      GreedyAppend(words[..n], w, width);
      assert words[..n + 1] == words[..n] + [w];
      AddWordToText(lines, w, width, indent);
      lines := AddWord(lines, w, width);
      if Bytes(line) + 1 + Bytes(w) > width {
        b := b + line + "\n" + indent;
        line := w;
      } else {
        line := line + " " + w;
      }
    }
    assert words[..|words|] == words;
    RenderSplits(lines, indent);
    wrapped := b + line;
  }

  lemma NothingToWrap(width: int, indent: string)
    ensures Render(Greedy([], width), indent) == ""
  {
  }

  lemma FirstLine(word: string, width: int)
    ensures Greedy([word], width) == [[word]] && Text([word]) == word
  {
    assert [word][..0] == [];
    assert Greedy([word], width) == AddWord([], word, width);
  }

  lemma GreedyAppend(words: seq<string>, word: string, width: int)
    ensures Greedy(words + [word], width) == AddWord(Greedy(words, width), word, width)
  {
    assert (words + [word])[..|words|] == words;
  }

  lemma RenderSplits(lines: seq<Line>, indent: string)
    requires lines != []
    ensures Render(lines, indent) == Above(lines, indent) + Text(Last(lines))
  {
  }

  lemma AddWordToText(lines: seq<Line>, word: string, width: int, indent: string)
    requires lines != []
    ensures var more := AddWord(lines, word, width);
            if Bytes(Text(Last(lines))) + 1 + Bytes(word) > width then
              && Above(more, indent) == Above(lines, indent) + Text(Last(lines)) + "\n" + indent
              && Text(Last(more)) == word
            else
              && Above(more, indent) == Above(lines, indent)
              && Text(Last(more)) == Text(Last(lines)) + " " + word
  {
    hide Render, Text;
    var front := lines[..|lines| - 1];
    if Bytes(Text(Last(lines))) + 1 + Bytes(word) > width {
      assert (lines + [[word]])[..|lines|] == lines;
      RenderSplits(lines, indent);
      FirstLine(word, width);
    } else {
      assert (front + [Last(lines) + [word]])[..|lines| - 1] == front;
      TextAppend(Last(lines), word);
    }
  }

  // ----- The lines of a wrapped text

  lemma WordsAppend(lines: seq<Line>, l: Line)
    ensures Words(lines + [l]) == Words(lines) + l
  {
    assert (lines + [l])[..|lines|] == lines;
  }

  lemma TextAppend(line: Line, word: string)
    ensures Text(line + [word]) == Text(line) + " " + word
    ensures Bytes(Text(line + [word])) == Bytes(Text(line)) + 1 + Bytes(word)
  {
    assert (line + [word])[..|line|] == line;
    assert Bytes(" ") == 1;
    BytesAppend(Text(line), " ");
    BytesAppend(Text(line) + " ", word);
  }

  lemma TextOfOne(word: string)
    ensures Text([word]) == word
  {
  }

  lemma NoLines(width: int)
    ensures Words([]) == [] && Legal([], width)
  {
  }

  lemma AddWordIsLegal(lines: seq<Line>, word: string, width: int)
    requires Legal(lines, width)
    ensures Legal(AddWord(lines, word, width), width)
    ensures Words(AddWord(lines, word, width)) == Words(lines) + [word]
  {
    hide Text, Bytes, Words;
    NoLines(width);
    if lines == [] || Bytes(Text(Last(lines))) + 1 + Bytes(word) > width {
      WordsAppend(lines, [word]);
    } else {
      var shorter, last := lines[..|lines| - 1], Last(lines);
      assert lines == shorter + [last];
      WordsAppend(shorter, last);
      WordsAppend(shorter, last + [word]);
      TextAppend(last, word);
    }
  }

  /** No word is lost, repeated, split or moved, and every line fits or cannot. */
  lemma {:induction false} GreedyIsLegal(words: seq<string>, width: int)
    ensures Words(Greedy(words, width)) == words
    ensures Legal(Greedy(words, width), width)
  {
    hide Words, Legal, AddWord;
    if words == [] {
      NoLines(width);
    } else {
      assert words == words[..|words| - 1] + [words[|words| - 1]];
      GreedyIsLegal(words[..|words| - 1], width);
      AddWordIsLegal(Greedy(words[..|words| - 1], width), words[|words| - 1], width);
    }
  }

  /** A line that ends with all the words of another is at least as long. */
  lemma {:induction false} SuffixIsShorter(line: Line, k: nat)
    requires k < |line|
    ensures Bytes(Text(line[k..])) <= Bytes(Text(line))
  {
    hide Text, Bytes;
    if k < |line| - 1 {
      var front, last := line[..|line| - 1], line[|line| - 1];
      SuffixIsShorter(front, k);
      TextAppend(front, last);
      assert line[k..] == front[k..] + [last] && line == front + [last];
      TextAppend(front[k..], last);
    } else if |line| > 1 {
      assert line[k..] == [line[k]] && line == line[..k] + [line[k]];
      TextAppend(line[..k], line[k]);
      TextOfOne(line[k]);
    } else {
      assert line[k..] == line;
    }
  }

  /** A breaking without its last word. */
  function Shortened(lines: seq<Line>): seq<Line>
    requires lines != []
  {
    var front, last := lines[..|lines| - 1], lines[|lines| - 1];
    if |last| == 1 then front else front + [last[..|last| - 1]]
  }

  lemma ShortenedWords(lines: seq<Line>)
    requires lines != []
    ensures var words := Words(lines); words != [] && Words(Shortened(lines)) == words[..|words| - 1]
  {
    var front, last := lines[..|lines| - 1], lines[|lines| - 1];
    var words := Words(lines);
    if |last| == 1 {
      assert Words(front) == words[..|words| - 1];
    } else {
      WordsAppend(front, last[..|last| - 1]);
      assert Words(front) + last[..|last| - 1] == words[..|words| - 1];
    }
  }

  lemma ShortenedIsLegal(lines: seq<Line>, width: int)
    requires lines != [] && Legal(lines, width)
    ensures Legal(Shortened(lines), width)
  {
    hide Text, Bytes;
    var front, last := lines[..|lines| - 1], lines[|lines| - 1];
    if |last| > 1 {
      var shorter := last[..|last| - 1];
      assert last == shorter + [last[|last| - 1]] && last in lines;
      TextAppend(shorter, last[|last| - 1]);
    }
  }

  /** Greedy breaking is never behind: it uses fewer lines than any other legal breaking of the same
      words, or as many with no more words on the last one. */
  lemma {:induction false} GreedyIsAhead(words: seq<string>, width: int, other: seq<Line>)
    requires words != [] && other != [] && Words(other) == words && Legal(other, width)
    ensures var lines := Greedy(words, width);
            || |lines| < |other|
            || (|lines| == |other| && |lines[|lines| - 1]| <= |other[|other| - 1]|)
    decreases |words|
  {
    hide Text, Words, Legal, Bytes, Greedy, AddWord, Shortened;
    var before, word := words[..|words| - 1], words[|words| - 1];
    var front := Greedy(before, width);
    assert words == before + [word];
    GreedyAppend(before, word, width);
    AddWordCounts(front, word, width);
    ShortenedWords(other);
    ShortenedIsLegal(other, width);
    ShortenedCounts(other);
    LastLineEnds(other, width);
    NoLines(width);
    var last := other[|other| - 1];
    if before == [] {
      NothingGreedy(width);
    } else {
      GreedyIsAhead(before, width, Shortened(other));
      if |front| == |other| && |last| > 1 {
        assert before[|before| - (|last| - 1)..] + [word] == words[|words| - |last|..];
        LastLineHolds(before, width, word, last);
      }
    }
  }

  lemma NothingGreedy(width: int)
    ensures Greedy([], width) == []
  {
  }

  lemma AddWordCounts(lines: seq<Line>, word: string, width: int)
    ensures var more := AddWord(lines, word, width);
            if lines == [] || Bytes(Text(Last(lines))) + 1 + Bytes(word) > width then
              |more| == |lines| + 1 && |Last(more)| == 1
            else
              |more| == |lines| && |Last(more)| == |Last(lines)| + 1
  {
    hide Text, Bytes;
  }

  lemma ShortenedCounts(lines: seq<Line>)
    requires lines != []
    ensures var fewer := Shortened(lines);
            if |Last(lines)| == 1 then |fewer| == |lines| - 1
            else |fewer| == |lines| && |Last(fewer)| == |Last(lines)| - 1
  {
  }

  lemma LastLineEnds(lines: seq<Line>, width: int)
    requires lines != [] && Legal(lines, width)
    ensures var words, last := Words(lines), lines[|lines| - 1];
            && |last| <= |words| && words[|words| - |last|..] == last
            && (|last| > 1 ==> Bytes(Text(last)) <= width)
  {
    assert lines[|lines| - 1] in lines;
  }

  /** If the words of a longer last line fit the width, the greedy last line had room too. */
  lemma LastLineHolds(before: seq<string>, width: int, word: string, last: Line)
    requires before != [] && |last| > 1
    requires |last| - 1 <= |before| && before[|before| - (|last| - 1)..] + [word] == last
    requires var front := Greedy(before, width); |front[|front| - 1]| <= |last| - 1
    ensures var front := Greedy(before, width); Bytes(Text(front[|front| - 1])) + 1 + Bytes(word) <= Bytes(Text(last))
  {
    hide Text, Bytes, Greedy, Legal;
    GreedyIsLegal(before, width);
    var front := Greedy(before, width);
    var mine := front[|front| - 1];
    WordsAppend(front[..|front| - 1], mine);
    assert front == front[..|front| - 1] + [mine];
    assert mine == before[|before| - |mine|..];
    TextAppend(mine, word);
    assert mine + [word] == last[|last| - 1 - |mine|..];
    SuffixIsShorter(last, |last| - 1 - |mine|);
  }

  /** Every word is kept, in order; every line fits the width or is a single word that cannot; and
      no other such breaking of the same words has fewer lines. */
  lemma WrappingIsOptimal(s: string, width: int, other: seq<Line>)
    requires Words(other) == Fields(s) && Legal(other, width)
    ensures var lines := Greedy(Fields(s), width);
            Words(lines) == Fields(s) && Legal(lines, width) && |lines| <= |other|
  {
    GreedyIsLegal(Fields(s), width);
    if Fields(s) != [] {
      GreedyIsAhead(Fields(s), width, other);
    }
  }

  // ----- The wrapped text read back

  lemma {:induction false} WordLengthAcross(a: string, c: char, b: string)
    requires IsSpace(c)
    ensures WordLength(a + [c] + b) == WordLength(a)
  {
    if a != "" && !IsSpace(a[0]) {
      WordLengthAcross(a[1..], c, b);
      assert (a + [c] + b)[1..] == a[1..] + [c] + b;
    }
  }

  lemma FieldsBehindBlank(s: string)
    requires s != "" && IsSpace(s[0])
    ensures Fields(s) == Fields(s[1..])
  {
  }

  lemma FieldsBehindWord(s: string)
    requires s != "" && !IsSpace(s[0])
    ensures WordLength(s) > 0 && Fields(s) == [s[..WordLength(s)]] + Fields(s[WordLength(s)..])
  {
  }

  /** Words do not cross a blank. */
  lemma {:induction false} FieldsAcross(a: string, c: char, b: string)
    requires IsSpace(c)
    ensures Fields(a + [c] + b) == Fields(a) + Fields(b)
    decreases |a|
  {
    hide IsSpace, Fields, WordLength;
    var s := a + [c] + b;
    if a == "" {
      NoFields();
      FieldsBehindBlank(s);
      assert s[1..] == b;
    } else if IsSpace(a[0]) {
      FieldsBehindBlank(s);
      FieldsBehindBlank(a);
      assert s[1..] == a[1..] + [c] + b;
      FieldsAcross(a[1..], c, b);
    } else {
      var n := WordLength(a);
      WordLengthAcross(a, c, b);
      FieldsBehindWord(s);
      FieldsBehindWord(a);
      assert s[..n] == a[..n] && s[n..] == a[n..] + [c] + b;
      FieldsAcross(a[n..], c, b);
    }
  }

  lemma {:induction false} FieldsOfBlank(blank: string, s: string)
    requires Blank(blank)
    ensures Fields(blank + s) == Fields(s)
  {
    if blank == "" {
      assert blank + s == s;
    } else {
      FieldsOfBlank(blank[1..], s);
      assert (blank + s)[1..] == blank[1..] + s;
    }
  }

  lemma {:induction false} WordLengthOfWord(w: string)
    requires forall i :: 0 <= i < |w| ==> !IsSpace(w[i])
    ensures WordLength(w) == |w|
  {
    if w != "" {
      WordLengthOfWord(w[1..]);
    }
  }

  lemma FieldsOfWord(w: string)
    requires IsWord(w)
    ensures Fields(w) == [w]
  {
    WordLengthOfWord(w);
    assert w[|w|..] == "" && w[..|w|] == w;
  }

  lemma {:induction false} FieldsOfText(line: Line)
    requires forall w :: w in line ==> IsWord(w)
    ensures Fields(Text(line)) == line
  {
    hide Fields, IsWord;
    FieldsOfWord(line[|line| - 1]);
    if |line| == 1 {
      assert line == [line[0]];
    } else {
      var front, word := line[..|line| - 1], line[|line| - 1];
      FieldsOfText(front);
      FieldsAcross(Text(front), ' ', word);
      assert line == front + [word];
    }
  }

  lemma {:induction false} FieldsOfRender(lines: seq<Line>, indent: string)
    requires forall w :: w in Words(lines) ==> IsWord(w)
    requires |lines| <= 1 || Blank(indent)
    ensures Fields(Render(lines, indent)) == Words(lines)
  {
    hide Fields, IsWord, Blank;
    if lines == [] {
      NoFields();
    } else {
      var front, last := lines[..|lines| - 1], lines[|lines| - 1];
      FieldsOfText(last);
      if |lines| == 1 {
        assert Words(lines) == last;
      } else {
        FieldsOfRender(front, indent);
        FieldsOfBlank(indent, Text(last));
        FieldsAcross(Render(front, indent), '\n', indent + Text(last));
        assert Render(lines, indent) == Render(front, indent) + ['\n'] + (indent + Text(last));
      }
    }
  }

  lemma NoFields()
    ensures Fields("") == []
  {
  }

  /** The non-blank characters of a text. */
  function Ink(s: string): nat {
    if s == "" then 0 else (if IsSpace(s[0]) then 0 else 1) + Ink(s[1..])
  }

  lemma {:induction false} InkAppend(a: string, b: string)
    ensures Ink(a + b) == Ink(a) + Ink(b)
  {
    if a == "" {
      assert a + b == b;
    } else {
      InkAppend(a[1..], b);
      assert (a + b)[1..] == a[1..] + b;
    }
  }

  lemma {:induction false} InkOfWord(w: string)
    requires forall i :: 0 <= i < |w| ==> !IsSpace(w[i])
    ensures Ink(w) == |w|
  {
    if w != "" {
      InkOfWord(w[1..]);
    }
  }

  lemma {:induction false} NoInk(s: string)
    requires Ink(s) == 0
    ensures Blank(s)
  {
    if s != "" {
      NoInk(s[1..]);
      assert forall i :: 0 < i < |s| ==> s[i] == s[1..][i - 1];
    }
  }

  function InkOf(words: seq<string>): nat {
    if words == [] then 0 else |words[0]| + InkOf(words[1..])
  }

  lemma {:induction false} InkOfAppend(a: seq<string>, b: seq<string>)
    ensures InkOf(a + b) == InkOf(a) + InkOf(b)
  {
    if a == [] {
      assert a + b == b;
    } else {
      InkOfAppend(a[1..], b);
      assert (a + b)[1..] == a[1..] + b;
    }
  }

  lemma {:induction false} InkIsInWords(s: string)
    ensures Ink(s) == InkOf(Fields(s))
    decreases |s|
  {
    if s != "" {
      if IsSpace(s[0]) {
        InkIsInWords(s[1..]);
      } else {
        var n := WordLength(s);
        InkIsInWords(s[n..]);
        assert s == s[..n] + s[n..];
        InkAppend(s[..n], s[n..]);
        InkOfWord(s[..n]);
      }
    }
  }

  lemma {:induction false} InkOfRender(lines: seq<Line>, indent: string)
    requires forall w :: w in Words(lines) ==> IsWord(w)
    ensures Ink(Render(lines, indent))
         == InkOf(Words(lines)) + if lines == [] then 0 else (|lines| - 1) * Ink(indent)
  {
    hide Ink, IsWord, Fields, InkOf, Text;
    if lines == [] {
      InkIsInWords("");
      NoFields();
    } else {
      var front, last := lines[..|lines| - 1], lines[|lines| - 1];
      FieldsOfText(last);
      InkIsInWords(Text(last));
      if |lines| == 1 {
        assert Words(lines) == last;
      } else {
        InkOfRender(front, indent);
        InkOfAppend(Words(front), last);
        InkOfContinued(Render(front, indent), indent, Text(last));
        assert (|lines| - 1) * Ink(indent) == (|front| - 1) * Ink(indent) + Ink(indent);
      }
    }
  }

  lemma InkOfContinued(above: string, indent: string, text: string)
    ensures Ink(above + "\n" + indent + text) == Ink(above) + Ink(indent) + Ink(text)
  {
    assert Ink("\n") == 0;
    hide Ink;
    InkAppend(above + "\n" + indent, text);
    InkAppend(above + "\n", indent);
    InkAppend(above, "\n");
  }

  lemma NoFactor(k: nat, ink: nat)
    requires k > 0 && k * ink == 0
    ensures ink == 0
  {
  }

  /** Wrapping changes nothing but blanks, so that the wrapped text has the same words, exactly when
      the indent is blank or there is no continuation line to indent. */
  lemma SameWordsExactly(s: string, width: int, indent: string)
    ensures var lines := Greedy(Fields(s), width);
            Fields(Render(lines, indent)) == Fields(s) <==> |lines| <= 1 || Blank(indent)
  {
    hide Greedy, Fields, Render, Ink, InkOf, IsWord, Blank, Words;
    var lines := Greedy(Fields(s), width);
    GreedyIsLegal(Fields(s), width);
    if |lines| <= 1 || Blank(indent) {
      FieldsOfRender(lines, indent);
    } else if Fields(Render(lines, indent)) == Fields(s) {
      InkOfRender(lines, indent);
      InkIsInWords(Render(lines, indent));
      NoFactor(|lines| - 1, Ink(indent));
      NoInk(indent);
    }
  }
}
