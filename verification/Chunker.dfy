/** The knowledge chunker: one pass over the lines of a markdown document, or over the
    pages of an extracted PDF, that must tile what it reads. */
module Chunker {
  import opened Prelude
  import opened TextTools

  datatype Section = Section(ordinal: nat, section: string, lineStart: nat, lineEnd: nat, text: string)

  datatype Passage = Passage(ordinal: nat, section: string, page: nat, lineStart: nat, lineEnd: nat, text: string)

  function Hashes(line: string): (k: nat)
    ensures k <= |line| && (forall i :: 0 <= i < k ==> line[i] == '#') && (k < |line| ==> line[k] != '#')
  {
    if line != "" && line[0] == '#' then 1 + Hashes(line[1..]) else 0
  }

  /** The heading pattern: one to six `#`, white space, then a title up to trailing white
      space. When nothing but white space follows, its last character is the title. */
  function Heading(line: string): Option<string> {
    var k := Hashes(line);
    var spaces := Lead(line[k..]);
    var title := line[k + spaces..];
    if k == 0 || k > 6 || spaces == 0 then None
    else if title != "" then Some(RStrip(title))
    else if spaces >= 2 then Some([line[|line| - 1]])
    else None
  }

  /** The pattern, as a decomposition of the line: hashes, white space, at least one more
      character. */
  ghost predicate MatchesPattern(line: string, hashes: nat, titleStart: nat) {
    && 1 <= hashes <= 6 && hashes < titleStart < |line|
    && (forall j :: 0 <= j < hashes ==> line[j] == '#')
    && (forall j :: hashes <= j < titleStart ==> IsSpace(line[j]))
  }

  /** A line is a heading exactly when it can be split as the pattern asks. */
  lemma HeadingMatches(line: string)
    ensures Heading(line).Some? <==> exists hashes, titleStart :: MatchesPattern(line, hashes, titleStart)
  {
    var h := Hashes(line);
    var rest := line[h..];
    var spaces := Lead(rest);
    if Heading(line).Some? {
      var i := if spaces < |rest| then h + spaces else |line| - 1;
      assert forall j :: h <= j < i ==> line[j] == rest[j - h];
      assert MatchesPattern(line, h, i);
    }
    if hashes, titleStart :| MatchesPattern(line, hashes, titleStart) {
      PatternFound(line, hashes, titleStart);
    }
  }

  lemma PatternFound(line: string, hashes: nat, titleStart: nat)
    requires MatchesPattern(line, hashes, titleStart)
    ensures Heading(line).Some?
  {
    assert IsSpace(line[hashes]) && !IsSpace('#');
    assert Hashes(line) == hashes;
    var rest := line[hashes..];
    assert rest[0] == line[hashes];
    if Lead(rest) == |rest| {
      assert |rest| >= 2;
    }
  }

  /** The title: what follows the hashes and the white space after them, without the white
      space at the end; where there is nothing else, the last character. */
  lemma HeadingTitle(line: string)
    requires Heading(line).Some?
    ensures exists hashes, start :: MatchesPattern(line, hashes, start) && IsHeadingTitle(line, hashes, start, Heading(line).value)
  {
    var h := Hashes(line);
    var rest := line[h..];
    var spaces := Lead(rest);
    if spaces < |rest| {
      PlainTitle(line, h, spaces);
    } else {
      LastIsTitle(line, h);
    }
  }

  lemma PlainTitle(line: string, h: nat, spaces: nat)
    requires Heading(line).Some? && h == Hashes(line) && spaces == Lead(line[h..]) < |line[h..]|
    ensures MatchesPattern(line, h, h + spaces) && IsHeadingTitle(line, h, h + spaces, Heading(line).value)
  {
    hide IsSpace, RStrip;
    SpacesFollow(line, h, spaces);
    TitleFollows(line, h, spaces);
    hide IsHeadingTitle;
    assert 1 <= h <= 6 && spaces > 0;
    hide Heading, Lead;
  }

  lemma TitleFollows(line: string, h: nat, spaces: nat)
    requires Heading(line).Some? && h == Hashes(line) && spaces == Lead(line[h..]) < |line[h..]|
    ensures IsHeadingTitle(line, h, h + spaces, Heading(line).value)
  {
    hide IsSpace, RStrip, IsHeadingTitle;
    assert Heading(line).value == RStrip(line[h + spaces..]);
    SpacesFollow(line, h, spaces);
    hide Heading, Hashes, Lead;
    TailIsTitle(line, h, h + spaces);
  }

  lemma SpacesFollow(line: string, h: nat, spaces: nat)
    requires h <= |line| && spaces == Lead(line[h..]) < |line[h..]|
    ensures !IsSpace(line[h + spaces]) && forall j :: h <= j < h + spaces ==> IsSpace(line[j])
  {
    hide IsSpace;
    var rest := line[h..];
    assert line[h + spaces] == rest[spaces];
    forall j | h <= j < h + spaces
      ensures IsSpace(line[j])
    {
      assert line[j] == rest[j - h];
    }
  }

  lemma TailIsTitle(line: string, h: nat, start: nat)
    requires h <= start < |line| && !IsSpace(line[start])
    ensures IsHeadingTitle(line, h, start, RStrip(line[start..]))
  {
    hide IsSpace, RStrip;
    var tail := line[start..];
    RStripEnd(tail);
    var n := RStripIs(tail);
    SliceOfSlice(line, start, n);
    assert line[h..][start - h] == line[start];
  }

  lemma LastIsTitle(line: string, h: nat)
    requires Heading(line).Some? && h == Hashes(line) && Lead(line[h..]) == |line[h..]|
    ensures MatchesPattern(line, h, |line| - 1) && IsHeadingTitle(line, h, |line| - 1, Heading(line).value)
  {
    hide IsSpace, RStrip, IsHeadingTitle;
    AllSpaces(line, h);
    assert Heading(line).value == [line[|line| - 1]] && 1 <= h <= 6 && h + 2 <= |line|;
    hide Heading, Lead;
    LastCharacter(line, h);
  }

  lemma AllSpaces(line: string, h: nat)
    requires h <= |line| && Lead(line[h..]) == |line[h..]|
    ensures Blank(line[h..]) && forall j :: h <= j < |line| ==> IsSpace(line[j])
  {
    hide IsSpace;
    var rest := line[h..];
    forall j | h <= j < |line|
      ensures IsSpace(line[j])
    {
      assert line[j] == rest[j - h];
    }
  }

  lemma LastCharacter(line: string, h: nat)
    requires h + 2 <= |line| && Blank(line[h..])
    ensures IsHeadingTitle(line, h, |line| - 1, [line[|line| - 1]])
  {
    hide IsSpace;
  }

  ghost predicate IsHeadingTitle(line: string, hashes: nat, start: nat, title: string)
    requires hashes <= start < |line|
  {
    && title != "" && title <= line[start..] && Blank(line[start + |title|..])
    && if Blank(line[hashes..]) then start == |line| - 1 else !IsSpace(title[0]) && !IsSpace(title[|title| - 1])
  }

  lemma HeadingNotBlank(line: string)
    requires Heading(line).Some?
    ensures !Blank(line)
  {
    assert line[0] == '#' && !IsSpace('#');
  }

  function Lines(lines: seq<string>, from: nat, to: nat): seq<string>
    requires 1 <= from <= to + 1 <= |lines| + 1
  {
    lines[from - 1..to]
  }

  /** One section: it covers exactly its lines, carries the title of the heading it starts
      at, and contains no further heading. Only line 1 can start one without a heading. */
  ghost predicate Faithful(match_: string -> Option<string>, lines: seq<string>, s: Section) {
    && 1 <= s.lineStart <= s.lineEnd <= |lines|
    && s.text == Strip(Join(Lines(lines, s.lineStart, s.lineEnd))) != ""
    && Starts(match_, lines, s.lineStart, s.section)
    && Unbroken(match_, lines, s.lineStart, s.lineEnd)
  }

  ghost predicate Starts(match_: string -> Option<string>, lines: seq<string>, start: nat, title: string)
    requires 1 <= start <= |lines|
  {
    match match_(lines[start - 1])
    case Some(found) => title == found
    case None => start == 1 && title == "Document"
  }

  ghost predicate Unbroken(match_: string -> Option<string>, lines: seq<string>, start: nat, end: nat)
    requires end <= |lines|
  {
    forall i :: start <= i < end ==> match_(lines[i]).None?
  }

  ghost predicate BlankUpTo(lines: seq<string>, end: nat)
    requires end <= |lines|
  {
    forall i :: 0 <= i < end ==> Blank(lines[i])
  }

  /** The sections tile lines 1..end, save for a blank prefix before the first of them. */
  ghost predicate Tiles(match_: string -> Option<string>, lines: seq<string>, sections: seq<Section>, end: nat)
    requires end <= |lines|
  {
    if sections == [] then
      BlankUpTo(lines, end)
    else
      var last := sections[|sections| - 1];
      && last.ordinal == |sections| - 1
      && Faithful(match_, lines, last)
      && last.lineEnd == end
      && Tiles(match_, lines, sections[..|sections| - 1], last.lineStart - 1)
  }

  /** What tiling means section by section. */
  lemma {:induction false} TilesMeaning(match_: string -> Option<string>, lines: seq<string>, sections: seq<Section>, end: nat)
    requires end <= |lines| && Tiles(match_, lines, sections, end)
    ensures forall i :: 0 <= i < |sections| ==> sections[i].ordinal == i && Faithful(match_, lines, sections[i])
    ensures forall i :: 0 < i < |sections| ==> sections[i - 1].lineEnd + 1 == sections[i].lineStart
    ensures sections != [] ==>
              sections[|sections| - 1].lineEnd == end && 0 < sections[0].lineStart <= |lines| && BlankUpTo(lines, sections[0].lineStart - 1)
    ensures sections == [] ==> BlankUpTo(lines, end)
  {
    hide Starts, Unbroken, Strip, Lines, Join;
    if sections != [] {
      var init, last := sections[..|sections| - 1], sections[|sections| - 1];
      TilesMeaning(match_, lines, init, last.lineStart - 1);
      forall i | 0 <= i < |sections|
        ensures sections[i].ordinal == i && Faithful(match_, lines, sections[i])
      {
        if i < |init| { assert sections[i] == init[i]; }
      }
      forall i | 0 < i < |sections|
        ensures sections[i - 1].lineEnd + 1 == sections[i].lineStart
      {
        assert sections[i - 1] == init[i - 1];
      }
    }
  }

  lemma PassageEmpty(lines: seq<string>, start: nat, end: nat)
    requires 1 <= start <= end + 1 <= |lines| + 1
    ensures Strip(Join(Lines(lines, start, end))) == "" <==> forall i :: start - 1 <= i < end ==> Blank(lines[i])
  {
    var body := Lines(lines, start, end);
    StripEmpty(Join(body));
    JoinBlank(body);
    assert forall i :: start - 1 <= i < end ==> lines[i] == body[i - start + 1];
  }

  /** `emit`: close the section that started at line `start`, unless it is blank. */
  method Emit(ghost match_: string -> Option<string>, ghost lines: seq<string>, sections: seq<Section>,
              heading: string, start: nat, body: seq<string>, end: nat)
    returns (after: seq<Section>)
    requires 1 <= start <= end + 1 <= |lines| + 1 && body == Lines(lines, start, end)
    requires Tiles(match_, lines, sections, start - 1)
    requires forall i :: 0 <= i < |lines| ==> match_(lines[i]).Some? ==> !Blank(lines[i])
    requires start <= end ==> Starts(match_, lines, start, heading)
    requires start > end ==> sections == []
    requires Unbroken(match_, lines, start, end)
    ensures Tiles(match_, lines, after, end)
  {
    hide Starts, Unbroken, Strip, Join, Lines, Tiles;
    var passage := Strip(Join(body));
    if passage != "" {
      Emitted(match_, lines, sections, heading, start, end);
      after := sections + [Section(|sections|, heading, start, end, passage)];
    } else {
      NotEmitted(match_, lines, sections, heading, start, end);
      after := sections;
    }
  }

  lemma Emitted(match_: string -> Option<string>, lines: seq<string>, sections: seq<Section>, heading: string, start: nat, end: nat)
    requires 1 <= start <= end + 1 <= |lines| + 1 && Tiles(match_, lines, sections, start - 1)
    requires Strip(Join(Lines(lines, start, end))) != ""
    requires start <= end ==> Starts(match_, lines, start, heading)
    requires Unbroken(match_, lines, start, end)
    ensures Tiles(match_, lines, sections + [Section(|sections|, heading, start, end, Strip(Join(Lines(lines, start, end))))], end)
  {
    PassageEmpty(lines, start, end);
    hide Starts, Unbroken, Strip, Join, Lines;
    var section := Section(|sections|, heading, start, end, Strip(Join(Lines(lines, start, end))));
    assert Faithful(match_, lines, section);
    hide Faithful;
    assert (sections + [section])[..|sections|] == sections;
  }

  lemma NotEmitted(match_: string -> Option<string>, lines: seq<string>, sections: seq<Section>, heading: string, start: nat, end: nat)
    requires 1 <= start <= end + 1 <= |lines| + 1 && Tiles(match_, lines, sections, start - 1)
    requires Strip(Join(Lines(lines, start, end))) == ""
    requires forall i :: 0 <= i < |lines| ==> match_(lines[i]).Some? ==> !Blank(lines[i])
    requires start <= end ==> Starts(match_, lines, start, heading)
    requires start > end ==> sections == []
    ensures Tiles(match_, lines, sections, end)
  {
    hide Strip, Join, Lines, Blank, Unbroken;
    PassageEmpty(lines, start, end);
    if sections != [] {
      assert false;
    }
  }

  /** The sections of a document, given its lines and the heading pattern. */
  method ChunkLines(match_: string -> Option<string>, lines: seq<string>) returns (sections: seq<Section>)
    requires forall i :: 0 <= i < |lines| ==> match_(lines[i]).Some? ==> !Blank(lines[i])
    ensures Tiles(match_, lines, sections, |lines|)
  {
    hide Faithful, Blank, Tiles, Starts, Unbroken, Lines;
    NoLinesYet(match_, lines, 1);
    var heading, start, body := "Document", 1, [];
    sections := [];
    for number := 1 to |lines| + 1
      invariant 1 <= start <= number && (number > 1 ==> start < number)
      invariant body == Lines(lines, start, number - 1)
      invariant Tiles(match_, lines, sections, start - 1)
      invariant start < number ==> Starts(match_, lines, start, heading)
      invariant start == number ==> sections == [] && heading == "Document"
      invariant Unbroken(match_, lines, start, number - 1)
    {
      var line := lines[number - 1];
      var found := match_(line);
      NoLinesYet(match_, lines, number);
      if found.Some? {
        sections := Emit(match_, lines, sections, heading, start, body, number - 1);
        body := [];
        heading := found.value;
        start := number;
      }
      body := body + [line];
      LineTaken(match_, lines, start, number, heading);
    }
    sections := Emit(match_, lines, sections, heading, start, body, |lines|);
  }

  lemma NoLinesYet(match_: string -> Option<string>, lines: seq<string>, number: nat)
    requires 1 <= number <= |lines| + 1
    ensures Tiles(match_, lines, [], 0)
    ensures Lines(lines, number, number - 1) == [] && Unbroken(match_, lines, number, number - 1)
  {
  }

  /** One more line of the open section. */
  lemma LineTaken(match_: string -> Option<string>, lines: seq<string>, start: nat, number: nat, heading: string)
    requires 1 <= start <= number <= |lines|
    requires match_(lines[number - 1]).Some? ==> start == number && heading == match_(lines[number - 1]).value
    requires start == number ==> match_(lines[number - 1]).Some? || (number == 1 && heading == "Document")
    requires start < number ==> Starts(match_, lines, start, heading) && Unbroken(match_, lines, start, number - 1)
    ensures Starts(match_, lines, start, heading) && Unbroken(match_, lines, start, number)
    ensures Lines(lines, start, number) == Lines(lines, start, number - 1) + [lines[number - 1]]
  {
  }

  /** The sections of a text. */
  method Chunks(text: string) returns (sections: seq<Section>)
    ensures Tiles(Heading, SplitLines(text), sections, |SplitLines(text)|)
    ensures SectionInk(sections) == Ink(text)
  {
    var lines := SplitLines(text);
    forall i | 0 <= i < |lines| && Heading(lines[i]).Some?
      ensures !Blank(lines[i])
    {
      HeadingNotBlank(lines[i]);
    }
    sections := ChunkLines(Heading, lines);
    TilesInk(Heading, lines, sections, |lines|);
    assert lines[..|lines|] == lines;
    InkSplit(text);
  }

  /** What is written in the sections. */
  ghost function SectionInk(sections: seq<Section>): string {
    if sections == [] then "" else SectionInk(sections[..|sections| - 1]) + Ink(sections[|sections| - 1].text)
  }

  /** Conservation: sections that tile the lines hold all that is written there, in order. */
  lemma {:induction false} TilesInk(match_: string -> Option<string>, lines: seq<string>, sections: seq<Section>, end: nat)
    requires end <= |lines| && Tiles(match_, lines, sections, end)
    ensures SectionInk(sections) == AllInk(lines[..end])
  {
    hide Ink, AllInk, Faithful, Blank;
    if sections == [] {
      AllInkBlank(lines[..end]);
    } else {
      LastSection(match_, lines, sections, end);
      hide Tiles;
      var last := sections[|sections| - 1];
      TilesInk(match_, lines, sections[..|sections| - 1], last.lineStart - 1);
      FaithfulInk(match_, lines, last);
    }
  }

  lemma LastSection(match_: string -> Option<string>, lines: seq<string>, sections: seq<Section>, end: nat)
    requires end <= |lines| && Tiles(match_, lines, sections, end) && sections != []
    ensures var last := sections[|sections| - 1];
            && Faithful(match_, lines, last) && 1 <= last.lineStart <= last.lineEnd == end
            && Tiles(match_, lines, sections[..|sections| - 1], last.lineStart - 1)
  {
    hide Strip, Join, Starts, Unbroken;
  }

  lemma FaithfulInk(match_: string -> Option<string>, lines: seq<string>, s: Section)
    requires Faithful(match_, lines, s)
    ensures 1 <= s.lineStart <= s.lineEnd <= |lines|
    ensures AllInk(lines[..s.lineEnd]) == AllInk(lines[..s.lineStart - 1]) + Ink(s.text)
  {
    hide Starts, Unbroken, Strip, Join, Ink, AllInk;
    var before, own := lines[..s.lineStart - 1], Lines(lines, s.lineStart, s.lineEnd);
    assert before + own == lines[..s.lineEnd];
    AllInkConcat(before, own);
    InkStrip(Join(own));
    InkJoin(own);
  }

  lemma {:induction false} AllInkBlank(lines: seq<string>)
    requires forall i :: 0 <= i < |lines| ==> Blank(lines[i])
    ensures AllInk(lines) == ""
  {
    if lines != [] {
      AllInkBlank(lines[..|lines| - 1]);
      InkBlank(lines[|lines| - 1]);
    }
  }

  /** Every non-blank line is in a section. */
  lemma {:induction false} EveryLineKept(match_: string -> Option<string>, lines: seq<string>, sections: seq<Section>, end: nat, k: nat)
    requires end <= |lines| && Tiles(match_, lines, sections, end) && k < end && !Blank(lines[k])
    ensures exists i :: 0 <= i < |sections| && sections[i].lineStart <= k + 1 <= sections[i].lineEnd
  {
    var init, last := sections[..|sections| - 1], sections[|sections| - 1];
    if k + 1 < last.lineStart {
      EveryLineKept(match_, lines, init, last.lineStart - 1, k);
      var i :| 0 <= i < |init| && init[i].lineStart <= k + 1 <= init[i].lineEnd;
      assert sections[i] == init[i];
    }
  }

  const TITLE_LENGTH: nat := 500

  function Title(line: string): string {
    var stripped := Strip(line);
    if |stripped| <= TITLE_LENGTH then stripped else stripped[..TITLE_LENGTH]
  }

  /** The title of the first non-blank line, or the fallback. */
  function FirstTitle(lines: seq<string>, fallback: string): string {
    if lines == [] then fallback
    else if Strip(lines[0]) != "" then Title(lines[0])
    else FirstTitle(lines[1..], fallback)
  }

  /** A page's passage starts with a non-blank line, so the fallback title is never used. */
  lemma FallbackNeverUsed(page: string, fallback: string)
    requires Strip(page) != ""
    ensures SplitLines(Strip(page)) != []
    ensures FirstTitle(SplitLines(Strip(page)), fallback) == Title(SplitLines(Strip(page))[0])
  {
    StripEnds(page);
    FirstLine(Strip(page));
    StripEmpty(SplitLines(Strip(page))[0]);
  }

  /** The whole line, or its first 500 characters. */
  ghost predicate IsTitle(title: string, line: string) {
    title <= line && |title| <= 500 && (title == line || |title| == 500)
  }

  ghost predicate FromPage(pages: seq<string>, p: Passage) {
    && 1 <= p.page <= |pages|
    && p.text == Strip(pages[p.page - 1]) != ""
    && SplitLines(p.text) != []
    && p.lineEnd + 1 == p.lineStart + |SplitLines(p.text)|
    && IsTitle(p.section, Strip(SplitLines(p.text)[0]))
  }

  /** The passages are the non-blank pages in order; their line ranges start at 1, follow
      each other without a gap, and `cursor` is the next free line. */
  ghost predicate Paginates(pages: seq<string>, passages: seq<Passage>, upTo: nat, cursor: nat)
    requires upTo <= |pages|
  {
    if passages == [] then
      cursor == 1 && NoTextBetween(pages, 0, upTo)
    else
      var last := passages[|passages| - 1];
      && last.ordinal == |passages| - 1
      && FromPage(pages, last)
      && 1 <= last.page <= upTo && NoTextBetween(pages, last.page, upTo)
      && last.lineEnd + 1 == cursor
      && Paginates(pages, passages[..|passages| - 1], last.page - 1, last.lineStart)
  }

  ghost predicate NoTextBetween(pages: seq<string>, from: nat, to: nat)
    requires to <= |pages|
  {
    forall k :: from <= k < to ==> Strip(pages[k]) == ""
  }

  /** What pagination means passage by passage: no page with text is missing. */
  lemma PaginatesMeaning(pages: seq<string>, passages: seq<Passage>, upTo: nat, cursor: nat)
    requires upTo <= |pages| && Paginates(pages, passages, upTo, cursor)
    ensures forall i :: 0 <= i < |passages| ==> passages[i].ordinal == i && FromPage(pages, passages[i]) && passages[i].page <= upTo
    ensures forall i :: 0 < i < |passages| ==> passages[i - 1].page < passages[i].page
    ensures forall i :: 0 < i < |passages| ==> passages[i - 1].lineEnd + 1 == passages[i].lineStart
    ensures passages != [] ==> passages[0].lineStart == 1 && passages[|passages| - 1].lineEnd + 1 == cursor
    ensures forall k :: 0 <= k < upTo && Strip(pages[k]) != "" ==> exists i :: 0 <= i < |passages| && passages[i].page == k + 1
  {
    hide FromPage, Strip, Paginates;
    PassagesFollow(pages, passages, upTo, cursor);
    forall k | 0 <= k < upTo && Strip(pages[k]) != ""
      ensures exists i :: 0 <= i < |passages| && passages[i].page == k + 1
    {
      var i := PassageOf(pages, passages, upTo, cursor, k);
      assert passages[i].page == k + 1;
    }
  }

  lemma {:induction false} PassagesFollow(pages: seq<string>, passages: seq<Passage>, upTo: nat, cursor: nat)
    requires upTo <= |pages| && Paginates(pages, passages, upTo, cursor)
    ensures forall i :: 0 <= i < |passages| ==> passages[i].ordinal == i && FromPage(pages, passages[i]) && passages[i].page <= upTo
    ensures forall i :: 0 < i < |passages| ==> passages[i - 1].page < passages[i].page
    ensures forall i :: 0 < i < |passages| ==> passages[i - 1].lineEnd + 1 == passages[i].lineStart
    ensures passages != [] ==> passages[0].lineStart == 1 && passages[|passages| - 1].lineEnd + 1 == cursor
  {
    hide FromPage, Strip, NoTextBetween;
    if passages != [] {
      var init, last := passages[..|passages| - 1], passages[|passages| - 1];
      PassagesFollow(pages, init, last.page - 1, last.lineStart);
      hide Paginates;
      assert passages == init + [last];
    }
  }

  /** The passage of a page with text. */
  lemma {:induction false} PassageOf(pages: seq<string>, passages: seq<Passage>, upTo: nat, cursor: nat, k: nat) returns (i: nat)
    requires upTo <= |pages| && Paginates(pages, passages, upTo, cursor)
    requires k < upTo && Strip(pages[k]) != ""
    ensures i < |passages| && passages[i].page == k + 1
  {
    hide FromPage, Strip;
    i := |passages| - 1;
    if k + 1 < passages[i].page {
      i := PassageOf(pages, passages[..i], passages[i].page - 1, passages[i].lineStart, k);
    }
  }

  /** The passages of an extracted text, split at form feeds into `pages`. */
  method PdfChunks(pages: seq<string>, fallback: nat -> string) returns (passages: seq<Passage>, cursor: nat)
    ensures Paginates(pages, passages, |pages|, cursor)
    ensures PassageInk(passages) == AllInk(pages)
  {
    hide Strip, FirstTitle, SplitLines, FromPage;
    passages, cursor := [], 1;
    for ordinal := 0 to |pages|
      invariant Paginates(pages, passages, ordinal, cursor)
    {
      var passage := Strip(pages[ordinal]);
      if passage == "" {
        NoText(pages, passages, ordinal, cursor);
        continue;
      }
      var pageLines := SplitLines(passage);
      FallbackNeverUsed(pages[ordinal], fallback(ordinal + 1));
      var title := FirstTitle(pageLines, fallback(ordinal + 1));
      ghost var before := passages;
      TitleIsTitle(pageLines[0]);
      PageTaken(pages, Passage(|passages|, title, ordinal + 1, cursor, cursor + |pageLines| - 1, passage));
      passages := passages + [Passage(|passages|, title, ordinal + 1, cursor, cursor + |pageLines| - 1, passage)];
      assert passages[..|before|] == before;
      cursor := cursor + |pageLines|;
    }
    PaginatesInk(pages, passages, |pages|, cursor);
    assert pages[..|pages|] == pages;
  }

  lemma TitleIsTitle(line: string)
    ensures IsTitle(Title(line), Strip(line))
  {
    hide Strip;
  }

  lemma PageTaken(pages: seq<string>, p: Passage)
    requires 1 <= p.page <= |pages| && p.text == Strip(pages[p.page - 1]) != ""
    requires SplitLines(p.text) != [] && p.lineEnd + 1 == p.lineStart + |SplitLines(p.text)|
    requires IsTitle(p.section, Strip(SplitLines(p.text)[0]))
    ensures FromPage(pages, p)
  {
  }

  /** What is written in the passages. */
  ghost function PassageInk(passages: seq<Passage>): string {
    if passages == [] then "" else PassageInk(passages[..|passages| - 1]) + Ink(passages[|passages| - 1].text)
  }

  /** Conservation: the passages hold all that is written on the pages, in order. */
  lemma {:induction false} PaginatesInk(pages: seq<string>, passages: seq<Passage>, upTo: nat, cursor: nat)
    requires upTo <= |pages| && Paginates(pages, passages, upTo, cursor)
    ensures PassageInk(passages) == AllInk(pages[..upTo])
  {
    hide FromPage, Ink, AllInk, NoTextBetween, Paginates;
    if passages == [] {
      NoPassages(pages, upTo, cursor);
    } else {
      var last := passages[|passages| - 1];
      LastPassage(pages, passages, upTo, cursor);
      PaginatesInk(pages, passages[..|passages| - 1], last.page - 1, last.lineStart);
      PageInk(pages, last, upTo);
    }
  }

  lemma NoPassages(pages: seq<string>, upTo: nat, cursor: nat)
    requires upTo <= |pages| && Paginates(pages, [], upTo, cursor)
    ensures AllInk(pages[..upTo]) == ""
  {
    hide Ink;
    NoInkBetween(pages, 0, upTo);
    assert pages[..0] == [];
  }

  lemma LastPassage(pages: seq<string>, passages: seq<Passage>, upTo: nat, cursor: nat)
    requires upTo <= |pages| && Paginates(pages, passages, upTo, cursor) && passages != []
    ensures var last := passages[|passages| - 1];
            && 1 <= last.page <= upTo && NoTextBetween(pages, last.page, upTo) && FromPage(pages, last)
            && Paginates(pages, passages[..|passages| - 1], last.page - 1, last.lineStart)
  {
    hide FromPage, Strip;
  }

  lemma PageInk(pages: seq<string>, last: Passage, upTo: nat)
    requires 1 <= last.page <= upTo <= |pages| && NoTextBetween(pages, last.page, upTo) && FromPage(pages, last)
    ensures AllInk(pages[..upTo]) == AllInk(pages[..last.page - 1]) + Ink(last.text)
  {
    hide SplitLines, Strip, Ink, AllInk, NoTextBetween, IsTitle;
    NoInkBetween(pages, last.page, upTo);
    InkStrip(pages[last.page - 1]);
    AllInkSnoc(pages, last.page - 1);
  }

  lemma {:induction false} NoInkBetween(pages: seq<string>, from: nat, end: nat)
    requires from <= end <= |pages| && NoTextBetween(pages, from, end)
    ensures AllInk(pages[..end]) == AllInk(pages[..from])
    decreases end
  {
    hide Strip;
    if end > from {
      NoInkBetween(pages, from, end - 1);
      InkStrip(pages[end - 1]);
      AllInkSnoc(pages, end - 1);
    }
  }

  lemma AllInkSnoc(pages: seq<string>, k: nat)
    requires k < |pages|
    ensures AllInk(pages[..k + 1]) == AllInk(pages[..k]) + Ink(pages[k])
  {
    hide Ink;
    assert pages[..k + 1][..k] == pages[..k];
  }

  lemma NoText(pages: seq<string>, passages: seq<Passage>, upTo: nat, cursor: nat)
    requires upTo < |pages| && Paginates(pages, passages, upTo, cursor) && Strip(pages[upTo]) == ""
    ensures Paginates(pages, passages, upTo + 1, cursor)
  {
    hide FromPage, Strip;
  }
}
