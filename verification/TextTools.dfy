/** The string operations the chunkers use: white space, stripping, lines and joining. */
module TextTools {
  /** `str.isspace`, which is also what the pattern class for white space matches. */
  predicate IsSpace(c: char) {
    || '\t' <= c <= '\r'
    || '\U{1c}' <= c <= ' '
    || c in {'\U{85}', '\U{a0}', '\U{1680}', '\U{2028}', '\U{2029}', '\U{202f}', '\U{205f}', '\U{3000}'}
    || '\U{2000}' <= c <= '\U{200a}'
  }

  /** The characters `str.splitlines` breaks at; a carriage return takes a following
      line feed with it. */
  predicate IsBreak(c: char) {
    || '\n' <= c <= '\r'
    || '\U{1c}' <= c <= '\U{1e}'
    || c in {'\U{85}', '\U{2028}', '\U{2029}'}
  }

  predicate Blank(s: string) {
    forall i :: 0 <= i < |s| ==> IsSpace(s[i])
  }

  /** The number of leading white-space characters. */
  function Lead(s: string): (k: nat)
    ensures k <= |s| && (forall i :: 0 <= i < k ==> IsSpace(s[i])) && (k < |s| ==> !IsSpace(s[k]))
  {
    if s != "" && IsSpace(s[0]) then 1 + Lead(s[1..]) else 0
  }

  /** The length without trailing white-space characters. */
  function Trail(s: string): (k: nat)
    ensures k <= |s| && (forall i :: k <= i < |s| ==> IsSpace(s[i])) && (k > 0 ==> !IsSpace(s[k - 1]))
  {
    if s != "" && IsSpace(s[|s| - 1]) then Trail(s[..|s| - 1]) else |s|
  }

  function LStrip(s: string): string {
    s[Lead(s)..]
  }

  function RStrip(s: string): string {
    s[..Trail(s)]
  }

  function Strip(s: string): string {
    RStrip(LStrip(s))
  }

  /** `"\n".join(lines)`. */
  function Join(lines: seq<string>): string {
    if lines == [] then ""
    else if |lines| == 1 then lines[0]
    else Join(lines[..|lines| - 1]) + "\n" + lines[|lines| - 1]
  }

  function FirstBreak(s: string): (i: nat)
    ensures i <= |s| && (forall j :: 0 <= j < i ==> !IsBreak(s[j])) && (i < |s| ==> IsBreak(s[i]))
  {
    if s == "" || IsBreak(s[0]) then 0 else 1 + FirstBreak(s[1..])
  }

  /** Where the first line ends and the rest begins. */
  function FirstEnd(s: string): (k: nat)
    requires FirstBreak(s) < |s|
    ensures FirstBreak(s) < k <= |s|
  {
    var i := FirstBreak(s);
    if s[i] == '\r' && i + 1 < |s| && s[i + 1] == '\n' then i + 2 else i + 1
  }

  /** `str.splitlines`. */
  function SplitLines(s: string): (lines: seq<string>)
    decreases |s|
  {
    if s == "" then
      []
    else
      var i := FirstBreak(s);
      if i == |s| then
        [s]
      else
        [s[..i]] + SplitLines(s[FirstEnd(s)..])
  }

  /** What is left after stripping is empty exactly when the string is blank. */
  lemma StripEmpty(s: string)
    ensures Strip(s) == "" <==> Blank(s)
  {
    var i := Lead(s);
    if i < |s| {
      assert s[i..][0] == s[i];
    }
  }

  /** What is left neither starts nor ends with white space. */
  lemma StripEnds(s: string)
    requires Strip(s) != ""
    ensures !IsSpace(Strip(s)[0]) && !IsSpace(Strip(s)[|Strip(s)| - 1])
  {
    assert LStrip(s)[0] == s[Lead(s)];
  }

  predicate AllBlank(lines: seq<string>) {
    forall i :: 0 <= i < |lines| ==> Blank(lines[i])
  }

  lemma BlankConcat(a: string, b: string)
    ensures Blank(a + b) <==> Blank(a) && Blank(b)
  {
    if Blank(a + b) {
      assert forall i :: 0 <= i < |a| ==> a[i] == (a + b)[i];
      assert forall i :: 0 <= i < |b| ==> b[i] == (a + b)[|a| + i];
    }
  }

  lemma {:induction false} JoinBlank(lines: seq<string>)
    ensures Blank(Join(lines)) <==> AllBlank(lines)
  {
    if |lines| > 1 {
      var before, last := lines[..|lines| - 1], lines[|lines| - 1];
      JoinBlank(before);
      BlankConcat(Join(before) + "\n", last);
      BlankConcat(Join(before), "\n");
      assert forall i :: 0 <= i < |before| ==> lines[i] == before[i];
    }
  }

  /** The first line of a text that does not start with white space is not blank. */
  lemma FirstLine(s: string)
    requires s != "" && !IsSpace(s[0])
    ensures SplitLines(s) != [] && !Blank(SplitLines(s)[0])
  {
    assert !IsBreak(s[0]);
    var i := FirstBreak(s);
    assert SplitLines(s)[0][0] == s[0];
  }

  /** What may end a line. */
  const BREAKS: set<string> :=
    {"\n", "\U{b}", "\U{c}", "\r", "\U{1c}", "\U{1d}", "\U{1e}", "\U{85}", "\U{2028}", "\U{2029}", "\r\n"}

  /** Lines and their ends, one after the other; the last line may have none. */
  ghost function Woven(lines: seq<string>, ends: seq<string>): string {
    if lines == [] then ""
    else if ends == [] then lines[0] + Woven(lines[1..], [])
    else lines[0] + ends[0] + Woven(lines[1..], ends[1..])
  }

  /** The lines of a text, told by their ends: together they are the text; no line holds a
      character that ends lines; a carriage return never parts from its line feed; only the
      last line may lack its end, and is then not empty. */
  ghost predicate SplitAs(s: string, lines: seq<string>, ends: seq<string>) {
    && Woven(lines, ends) == s
    && (forall i :: 0 <= i < |ends| ==> ends[i] in BREAKS)
    && (forall i :: 0 <= i < |lines| ==> NoBreak(lines[i]))
    && (forall i :: 0 < i < |ends| ==> !Parted(lines, ends, i))
    && (|ends| == |lines| || (|ends| + 1 == |lines| && lines[|ends|] != ""))
  }

  /** A carriage return directly followed by a line feed of its own. */
  ghost predicate Parted(lines: seq<string>, ends: seq<string>, i: nat)
    requires 0 < i < |ends|
  {
    ends[i - 1] == "\r" && ends[i] == "\n" && i < |lines| && lines[i] == ""
  }

  ghost predicate NoBreak(line: string) {
    forall j :: 0 <= j < |line| ==> [line[j]] !in BREAKS
  }

  lemma BreaksAre(c: char)
    ensures IsBreak(c) <==> [c] in BREAKS
  {
    assert [c] == "\n" <==> c == '\n';
  }

  /** `splitlines` finds such lines. */
  lemma {:induction false} SplitLinesAre(s: string) returns (ends: seq<string>)
    ensures SplitAs(s, SplitLines(s), ends)
    decreases |s|
  {
    ends := [];
    FirstLineHasNoBreak(s);
    var i := FirstBreak(s);
    if i < |s| {
      SplitStep(s);
      EndIsBreak(s);
      hide SplitAs, SplitLines, FirstBreak, FirstEnd, NoBreak;
      var k := FirstEnd(s);
      var rest := SplitLinesAre(s[k..]);
      ends := [s[i..k]] + rest;
      OneMoreLine(s[..i], s[i..k], s[k..], SplitLines(s[k..]), rest);
      Pieces(s, i, k);
    } else {
      WholeLine(s);
    }
  }

  lemma WholeLine(s: string)
    requires FirstBreak(s) == |s|
    ensures SplitAs(s, SplitLines(s), [])
  {
    FirstLineHasNoBreak(s);
    hide NoBreak, FirstBreak;
    assert s[..|s|] == s;
    if s != "" {
      assert SplitLines(s) == [s];
      assert Woven([s], []) == s + Woven([s][1..], []);
    }
  }

  lemma SplitStep(s: string)
    requires FirstBreak(s) < |s|
    ensures SplitLines(s) == [s[..FirstBreak(s)]] + SplitLines(s[FirstEnd(s)..])
  {
  }

  lemma Pieces(s: string, i: nat, k: nat)
    requires i <= k <= |s|
    ensures s[..i] + s[i..k] + s[k..] == s
  {
  }

  lemma FirstLineHasNoBreak(s: string)
    ensures NoBreak(s[..FirstBreak(s)])
  {
    forall j | 0 <= j < FirstBreak(s)
      ensures [s[j]] !in BREAKS
    {
      BreaksAre(s[j]);
    }
  }

  lemma EndIsBreak(s: string)
    requires FirstBreak(s) < |s|
    ensures var i, k := FirstBreak(s), FirstEnd(s);
            s[i..k] in BREAKS && (s[i..k] == "\r" && k < |s| ==> s[k] != '\n')
  {
    hide FirstBreak, IsBreak;
    var i, k := FirstBreak(s), FirstEnd(s);
    BreaksAre(s[i]);
    EndIs(s, i, k);
  }

  lemma EndIs(s: string, i: nat, k: nat)
    requires i < k <= |s|
    ensures k == i + 1 ==> s[i..k] == [s[i]]
    ensures k == i + 2 ==> s[i..k] == [s[i], s[i + 1]]
  {
  }

  lemma OneMoreLine(line: string, end: string, rest: string, lines: seq<string>, ends: seq<string>)
    requires SplitAs(rest, lines, ends) && NoBreak(line) && end in BREAKS
    requires end == "\r" && rest != "" ==> rest[0] != '\n'
    ensures SplitAs(line + end + rest, [line] + lines, [end] + ends)
  {
    var ls, es := [line] + lines, [end] + ends;
    assert ls[1..] == lines && es[1..] == ends;
    if end == "\r" && |ends| > 0 && |lines| > 0 && lines[0] == "" {
      assert rest != "" && rest[0] == ends[0][0];
    }
    forall i | 0 < i < |es|
      ensures !Parted(ls, es, i)
    {
      if i > 1 {
        assert !Parted(lines, ends, i - 1);
      }
    }
    hide Parted;
  }

  /** And there is no other way to tell the lines of a text. */
  lemma {:induction false} LinesAreUnique(s: string, lines: seq<string>, ends: seq<string>)
    requires SplitAs(s, lines, ends)
    ensures lines == SplitLines(s)
    decreases |lines|
  {
    if lines != [] {
      var line := lines[0];
      if ends == [] {
        assert lines[1..] == [] && Woven(lines[1..], ends) == "";
        assert s == lines[0] + "" == lines[0];
        NoBreakAtAll(s);
      } else {
        LineThenRest(s, lines, ends);
        hide SplitAs, SplitLines, Woven;
        LinesAreUnique(Woven(lines[1..], ends[1..]), lines[1..], ends[1..]);
      }
    } else {
      assert s == "";
    }
  }

  lemma LineThenRest(s: string, lines: seq<string>, ends: seq<string>)
    requires SplitAs(s, lines, ends) && lines != [] && ends != []
    ensures var rest := Woven(lines[1..], ends[1..]);
            && SplitAs(rest, lines[1..], ends[1..])
            && SplitLines(s) == [lines[0]] + SplitLines(rest)
  {
    hide NoBreak, Parted, FirstBreak, FirstEnd;
    var rest := Woven(lines[1..], ends[1..]);
    assert s == lines[0] + ends[0] + rest;
    RestSplit(lines, ends);
    assert NoBreak(lines[0]) && ends[0] in BREAKS;
    hide Woven, SplitLines;
    FirstEndFound(lines[0], ends[0], rest, lines, ends);
    SplitStep(s);
  }

  lemma NoBreakAtAll(s: string)
    requires NoBreak(s)
    ensures FirstBreak(s) == |s|
  {
    if FirstBreak(s) < |s| {
      BreaksAre(s[FirstBreak(s)]);
    }
  }

  lemma RestSplit(lines: seq<string>, ends: seq<string>)
    requires lines != [] && ends != [] && SplitAs(Woven(lines, ends), lines, ends)
    ensures SplitAs(Woven(lines[1..], ends[1..]), lines[1..], ends[1..])
  {
    hide NoBreak, Woven;
    var ls, es := lines[1..], ends[1..];
    forall i | 0 < i < |es|
      ensures !Parted(ls, es, i)
    {
      assert !Parted(lines, ends, i + 1);
    }
    hide Parted;
  }

  lemma FirstEndFound(line: string, end: string, rest: string, lines: seq<string>, ends: seq<string>)
    requires NoBreak(line) && end in BREAKS && lines != [] && ends != []
    requires lines[0] == line && ends[0] == end && rest == Woven(lines[1..], ends[1..])
    requires SplitAs(line + end + rest, lines, ends)
    ensures var s := line + end + rest;
            FirstBreak(s) == |line| && FirstEnd(s) == |line| + |end| && s[..|line|] == line && s[|line| + |end|..] == rest
  {
    var s := line + end + rest;
    assert forall j :: 0 <= j < |line| ==> s[j] == line[j];
    assert s[|line|] == end[0];
    var i := FirstBreak(s);
    BreaksAre(end[0]);
    if i < |line| {
      BreaksAre(line[i]);
    }
    if end == "\r" && rest != "" {
      RestStart(lines, ends, rest);
      assert s[|line| + 1] == rest[0];
    }
    if end == "\r\n" {
      assert s[|line| + 1] == '\n';
    }
  }

  lemma RestStart(lines: seq<string>, ends: seq<string>, rest: string)
    requires lines != [] && ends != [] && SplitAs(Woven(lines, ends), lines, ends)
    requires ends[0] == "\r" && rest == Woven(lines[1..], ends[1..]) && rest != ""
    ensures rest[0] != '\n'
  {
    if |lines| > 1 {
      if lines[1] != "" {
        assert lines[1..][0] == lines[1];
        assert [lines[1][0]] !in BREAKS;
      } else {
        assert !Parted(lines, ends, 1);
        assert lines[1..][0] == "" && ends[1..][0] == ends[1];
        assert rest[0] == ends[1][0];
      }
    }
  }

  /** The white-space characters, one by one. */
  const WHITE: set<char> :=
    {'\t', '\n', '\U{b}', '\U{c}', '\r', '\U{1c}', '\U{1d}', '\U{1e}', '\U{1f}', ' ', '\U{85}', '\U{a0}', '\U{1680}',
     '\U{2000}', '\U{2001}', '\U{2002}', '\U{2003}', '\U{2004}', '\U{2005}', '\U{2006}', '\U{2007}', '\U{2008}',
     '\U{2009}', '\U{200a}', '\U{2028}', '\U{2029}', '\U{202f}', '\U{205f}', '\U{3000}'}

  lemma SpacesAre(c: char)
    ensures IsSpace(c) <==> c in WHITE
  {
  }

  /** What is written: a text without its white space. */
  function Ink(s: string): string {
    if s == "" then "" else (if s[0] in WHITE then "" else [s[0]]) + Ink(s[1..])
  }

  lemma {:induction false} InkConcat(a: string, b: string)
    ensures Ink(a + b) == Ink(a) + Ink(b)
  {
    if a == "" {
      assert a + b == b;
    } else {
      assert (a + b)[1..] == a[1..] + b;
      InkConcat(a[1..], b);
    }
  }

  lemma {:induction false} InkBlank(s: string)
    ensures Blank(s) <==> Ink(s) == ""
  {
    if s != "" {
      SpacesAre(s[0]);
      InkBlank(s[1..]);
      assert Blank(s) <==> IsSpace(s[0]) && Blank(s[1..]);
    }
  }

  /** Stripping loses nothing that is written. */
  lemma InkStrip(s: string)
    ensures Ink(Strip(s)) == Ink(s)
  {
    hide Strip, Ink, Blank;
    var i, k := StripIs(s);
    InkPieces(s, i, k);
    InkBlank(s[..i]);
    InkBlank(s[k..]);
    assert Ink(s) == "" + Ink(s[i..k]) + "";
  }

  lemma StripIs(s: string) returns (i: nat, k: nat)
    ensures i <= k <= |s| && Strip(s) == s[i..k] && Blank(s[..i]) && Blank(s[k..])
  {
    hide LStrip, RStrip, Blank;
    i := LStripIs(s);
    var n := RStripIs(s[i..]);
    k := i + n;
    SliceOfSlice(s, i, n);
  }

  lemma LStripIs(s: string) returns (i: nat)
    ensures i <= |s| && LStrip(s) == s[i..] && Blank(s[..i])
  {
    hide IsSpace;
    i := Lead(s);
  }

  lemma RStripEnd(s: string)
    requires s != "" && !IsSpace(s[0])
    ensures RStrip(s) != "" && RStrip(s)[0] == s[0] && !IsSpace(RStrip(s)[|RStrip(s)| - 1])
  {
  }

  lemma RStripIs(s: string) returns (n: nat)
    ensures n <= |s| && RStrip(s) == s[..n] && Blank(s[n..])
  {
    hide IsSpace;
    n := Trail(s);
  }

  lemma SliceOfSlice(s: string, i: nat, n: nat)
    requires i + n <= |s|
    ensures s[i..][..n] == s[i..i + n] && s[i..][n..] == s[i + n..]
  {
  }

  lemma InkPieces(s: string, i: nat, k: nat)
    requires i <= k <= |s|
    ensures Ink(s) == Ink(s[..i]) + Ink(s[i..k]) + Ink(s[k..])
  {
    Pieces(s, i, k);
    InkConcat(s[..i] + s[i..k], s[k..]);
    InkConcat(s[..i], s[i..k]);
    hide Ink;
  }

  /** What is written in the strings of a list. */
  function AllInk(strings: seq<string>): string {
    if strings == [] then "" else AllInk(strings[..|strings| - 1]) + Ink(strings[|strings| - 1])
  }

  lemma {:induction false} AllInkConcat(a: seq<string>, b: seq<string>)
    ensures AllInk(a + b) == AllInk(a) + AllInk(b)
  {
    if b == [] {
      assert a + b == a;
    } else {
      var init, last := b[..|b| - 1], b[|b| - 1];
      AllInkConcat(a, init);
      assert (a + b)[..|a + b| - 1] == a + init && (a + b)[|a + b| - 1] == last;
      assert AllInk(a + b) == AllInk(a + init) + Ink(last) && AllInk(b) == AllInk(init) + Ink(last);
      hide AllInk, Ink;
      Append(AllInk(a), AllInk(init), Ink(last));
    }
  }

  lemma Append(a: string, b: string, c: string)
    ensures a + b + c == a + (b + c)
  {
  }

  lemma {:induction false} InkJoin(lines: seq<string>)
    ensures Ink(Join(lines)) == AllInk(lines)
  {
    if |lines| == 1 {
      AllInkOne(lines[0]);
      assert [lines[0]] == lines;
    } else if lines != [] {
      var before, last := lines[..|lines| - 1], lines[|lines| - 1];
      JoinStep(lines);
      hide Join, Ink, AllInk, Blank;
      InkJoin(before);
      InkConcat(Join(before) + "\n", last);
      InkConcat(Join(before), "\n");
      LineFeedIsBlank();
      InkBlank("\n");
    }
  }

  lemma JoinStep(lines: seq<string>)
    requires |lines| > 1
    ensures var before, last := lines[..|lines| - 1], lines[|lines| - 1];
            && Join(lines) == Join(before) + "\n" + last
            && AllInk(lines) == AllInk(before) + Ink(last)
  {
    hide Ink;
  }

  lemma LineFeedIsBlank()
    ensures Blank("\n")
  {
  }

  /** Nor does splitting into lines. */
  lemma {:induction false} InkSplit(s: string)
    ensures AllInk(SplitLines(s)) == Ink(s)
    decreases |s|
  {
    var i := FirstBreak(s);
    if i < |s| {
      SplitStep(s);
      EndBlank(s);
      hide SplitLines, Ink, AllInk, Blank, FirstEnd, FirstBreak;
      var k := FirstEnd(s);
      InkSplit(s[k..]);
      AllInkConcat([s[..i]], SplitLines(s[k..]));
      AllInkOne(s[..i]);
      InkPieces(s, i, k);
      InkBlank(s[i..k]);
    } else if s != "" {
      AllInkOne(s);
    }
  }

  lemma EndBlank(s: string)
    requires FirstBreak(s) < |s|
    ensures Blank(s[FirstBreak(s)..FirstEnd(s)])
  {
    hide FirstBreak, IsBreak, IsSpace;
    var i, k := FirstBreak(s), FirstEnd(s);
    EndIs(s, i, k);
    BreakIsSpace(s[i]);
    BreakIsSpace('\n');
  }

  lemma BreakIsSpace(c: char)
    requires IsBreak(c)
    ensures IsSpace(c)
  {
  }

  lemma AllInkOne(s: string)
    ensures AllInk([s]) == Ink(s)
  {
    assert [s][..0] == [];
  }

  lemma {:induction false} WovenLast(before: seq<string>, ends: seq<string>, end: string, last: string)
    requires |before| == |ends| + 1
    ensures Woven(before + [last], ends + [end]) == Woven(before, ends) + end + last
  {
    var lines := before + [last];
    assert lines[1..] == before[1..] + [last];
    if ends == [] {
      assert Woven(lines[1..][1..], []) == "" && Woven(before[1..], []) == "";
      assert Woven(lines[1..], []) == last + "" == last;
      assert Woven(before, []) == before[0] + "" == before[0];
    } else {
      assert (ends + [end])[1..] == ends[1..] + [end];
      WovenLast(before[1..], ends[1..], end, last);
    }
  }

  /** Joining puts one line feed between two lines, and nothing else. */
  lemma {:induction false} JoinIsWoven(lines: seq<string>)
    requires lines != []
    ensures Join(lines) == Woven(lines, seq(|lines| - 1, _ => "\n"))
  {
    var ends := seq(|lines| - 1, _ => "\n");
    if |lines| == 1 {
      assert lines[1..] == [] && Woven(lines[1..], ends) == "";
      assert lines[0] + "" == lines[0];
    } else {
      var before, last := lines[..|lines| - 1], lines[|lines| - 1];
      JoinIsWoven(before);
      var fewer := seq(|before| - 1, _ => "\n");
      WovenLast(before, fewer, "\n", last);
      assert before + [last] == lines && fewer + ["\n"] == ends;
    }
  }
}
