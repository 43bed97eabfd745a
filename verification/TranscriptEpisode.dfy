/** The streaming parser of one episode page: two depth counters, a heading capture and
    a marker flag, which together must read the page as a recursive walk reads it. */
module TranscriptEpisode {
  import opened Markup

  const DIV := Div
  const MARKER := H3
  const HEADINGS := {H1, H4, H5}

  /** The heading being captured, if any. */
  datatype Capture = NoHeading | Heading(tag: Tag)

  predicate IsInfo(tag: Tag, attrs: Attrs) {
    tag == DIV && "podcast-info" in attrs.classes
  }

  predicate IsTranscript(tag: Tag, attrs: Attrs) {
    tag == DIV && "transcript" in attrs.classes && "tab-view" in attrs.classes
  }

  predicate IsMarker(tag: Tag, attrs: Attrs) {
    tag == MARKER && attrs.id == "transcript"
  }

  function Part(value: string, wanted: bool): seq<string> {
    if wanted && value != "" then [value] else []
  }

  /** A container counter: reset by its own start tag, moved by every other `div`. */
  function Enter(depth: int, container: bool, tag: Tag): int {
    if container then 1 else if depth != 0 && tag == DIV then depth + 1 else depth
  }

  function Leave(depth: int, tag: Tag): int {
    if depth != 0 && tag == DIV then depth - 1 else depth
  }

  datatype Info = Info(depth: int, capture: Capture, titles: seq<string>, bylines: seq<string>, dates: seq<string>)

  datatype Transcript = Transcript(depth: int, markerOpen: bool, started: bool, parts: seq<string>)

  function InfoStep(s: Info, token: Token): Info {
    match token
    case Start(tag, attrs) =>
      var depth := Enter(s.depth, IsInfo(tag, attrs), tag);
      s.(depth := depth, capture := if depth != 0 && tag in HEADINGS then Heading(tag) else s.capture)
    case End(tag) => s.(depth := Leave(s.depth, tag), capture := if s.capture == Heading(tag) then NoHeading else s.capture)
    case Data(value) =>
      s.(titles := s.titles + Part(value, s.capture == Heading(H1)),
         bylines := s.bylines + Part(value, s.capture == Heading(H4)),
         dates := s.dates + Part(value, s.capture == Heading(H5)))
  }

  function TranscriptStep(s: Transcript, token: Token): Transcript {
    match token
    case Start(tag, attrs) =>
      var depth := Enter(s.depth, IsTranscript(tag, attrs), tag);
      s.(depth := depth, markerOpen := s.markerOpen || (depth != 0 && IsMarker(tag, attrs)))
    case End(tag) =>
      var depth := Leave(s.depth, tag);
      var closing := tag == MARKER && s.markerOpen;
      s.(depth := depth,
         markerOpen := s.markerOpen && !closing,
         started := (s.started || closing) && !(s.depth != 0 && tag == DIV && depth == 0))
    case Data(value) => s.(parts := s.parts + Part(value, s.started))
  }

  class Parser {
    var infoDepth: int
    var transcriptDepth: int
    var capture: Capture
    var started: bool
    var markerOpen: bool
    var titles: seq<string>
    var bylines: seq<string>
    var dates: seq<string>
    var parts: seq<string>

    function InfoView(): Info
      reads this
    {
      Info(infoDepth, capture, titles, bylines, dates)
    }

    function TranscriptView(): Transcript
      reads this
    {
      Transcript(transcriptDepth, markerOpen, started, parts)
    }

    constructor ()
      ensures InfoView() == Info(0, NoHeading, [], [], []) && TranscriptView() == Transcript(0, false, false, [])
    {
      infoDepth, transcriptDepth, capture, started, markerOpen := 0, 0, NoHeading, false, false;
      titles, bylines, dates, parts := [], [], [], [];
    }

    method HandleStartTag(tag: Tag, attrs: Attrs)
      modifies this
      ensures InfoView() == InfoStep(old(InfoView()), Start(tag, attrs))
      ensures TranscriptView() == TranscriptStep(old(TranscriptView()), Start(tag, attrs))
      ensures old(infoDepth) == 0 ==> (infoDepth != 0 <==> tag == Div && "podcast-info" in attrs.classes)
      ensures old(transcriptDepth) == 0 ==>
                (transcriptDepth != 0 <==> tag == Div && "transcript" in attrs.classes && "tab-view" in attrs.classes)
      ensures capture == if infoDepth != 0 && (tag == H1 || tag == H4 || tag == H5) then Heading(tag) else old(capture)
      ensures markerOpen <==> old(markerOpen) || (transcriptDepth != 0 && tag == H3 && attrs.id == "transcript")
    {
      if IsInfo(tag, attrs) {
        infoDepth := 1;
      } else if infoDepth != 0 && tag == DIV {
        infoDepth := infoDepth + 1;
      }
      if IsTranscript(tag, attrs) {
        transcriptDepth := 1;
      } else if transcriptDepth != 0 && tag == DIV {
        transcriptDepth := transcriptDepth + 1;
      }
      if infoDepth != 0 && tag in HEADINGS {
        capture := Heading(tag);
      }
      if transcriptDepth != 0 && IsMarker(tag, attrs) {
        markerOpen := true;
      }
    }

    method HandleEndTag(tag: Tag)
      modifies this
      ensures InfoView() == InfoStep(old(InfoView()), End(tag))
      ensures TranscriptView() == TranscriptStep(old(TranscriptView()), End(tag))
    {
      if capture == Heading(tag) {
        capture := NoHeading;
      }
      if tag == MARKER && markerOpen {
        markerOpen := false;
        started := true;
      }
      if infoDepth != 0 && tag == DIV {
        infoDepth := infoDepth - 1;
      }
      if transcriptDepth != 0 && tag == DIV {
        transcriptDepth := transcriptDepth - 1;
        if transcriptDepth == 0 {
          started := false;
        }
      }
    }

    method HandleData(value: string)
      modifies this
      ensures InfoView() == InfoStep(old(InfoView()), Data(value))
      ensures TranscriptView() == TranscriptStep(old(TranscriptView()), Data(value))
      ensures titles == if value != "" && capture == Heading(H1) then old(titles) + [value] else old(titles)
      ensures bylines == if value != "" && capture == Heading(H4) then old(bylines) + [value] else old(bylines)
      ensures dates == if value != "" && capture == Heading(H5) then old(dates) + [value] else old(dates)
      ensures parts == if value != "" && started then old(parts) + [value] else old(parts)
    {
      if value == "" {
        return;
      }
      if capture == Heading(H1) {
        titles := titles + [value];
      } else if capture == Heading(H4) {
        bylines := bylines + [value];
      } else if capture == Heading(H5) {
        dates := dates + [value];
      }
      if started {
        parts := parts + [value];
      }
    }

    method Run(tokens: seq<Token>)
      modifies this
      ensures InfoView() == InfoFeed(old(InfoView()), tokens)
      ensures TranscriptView() == TranscriptFeed(old(TranscriptView()), tokens)
    {
      for i := 0 to |tokens|
        invariant InfoFeed(InfoView(), tokens[i..]) == InfoFeed(old(InfoView()), tokens)
        invariant TranscriptFeed(TranscriptView(), tokens[i..]) == TranscriptFeed(old(TranscriptView()), tokens)
      {
        assert tokens[i..][0] == tokens[i] && tokens[i..][1..] == tokens[i + 1..];
        match tokens[i]
        case Start(tag, attrs) => HandleStartTag(tag, attrs);
        case End(tag) => HandleEndTag(tag);
        case Data(value) => HandleData(value);
      }
    }
  }

  function InfoFeed(s: Info, tokens: seq<Token>): Info
    decreases |tokens|
  {
    if tokens == [] then s else InfoFeed(InfoStep(s, tokens[0]), tokens[1..])
  }

  function TranscriptFeed(s: Transcript, tokens: seq<Token>): Transcript
    decreases |tokens|
  {
    if tokens == [] then s else TranscriptFeed(TranscriptStep(s, tokens[0]), tokens[1..])
  }

  /** The reference for headings: the text below a heading of the wanted kind, below an
      info container. Both facts are handed down the tree. */
  function HeadingText(f: Forest, wanted: Tag, inInfo: bool, heading: Capture): seq<string> {
    match f
    case Empty => []
    case Text(value, rest) => Part(value, heading == Heading(wanted)) + HeadingText(rest, wanted, inInfo, heading)
    case Void(_, _, rest) => HeadingText(rest, wanted, inInfo, heading)
    case Element(tag, attrs, children, rest) =>
      var below := inInfo || IsInfo(tag, attrs);
      HeadingText(children, wanted, below, if below && tag in HEADINGS then Heading(tag) else heading)
      + HeadingText(rest, wanted, inInfo, heading)
  }

  /** No info container inside another, and no heading inside a heading of the info part. */
  predicate PlainInfo(f: Forest, inInfo: bool, inHeading: bool) {
    match f
    case Empty => true
    case Text(_, rest) => PlainInfo(rest, inInfo, inHeading)
    case Void(_, _, rest) => PlainInfo(rest, inInfo, inHeading)
    case Element(tag, attrs, children, rest) =>
      var below := inInfo || IsInfo(tag, attrs);
      && !(inInfo && IsInfo(tag, attrs))
      && !(inHeading && tag in HEADINGS)
      && PlainInfo(children, below, inHeading || (below && tag in HEADINGS))
      && PlainInfo(rest, inInfo, inHeading)
  }

  /** No info container inside another. */
  predicate NoNestedInfo(f: Forest, inInfo: bool) {
    match f
    case Empty => true
    case Text(_, rest) => NoNestedInfo(rest, inInfo)
    case Void(_, _, rest) => NoNestedInfo(rest, inInfo)
    case Element(tag, attrs, children, rest) =>
      && !(inInfo && IsInfo(tag, attrs))
      && NoNestedInfo(children, inInfo || IsInfo(tag, attrs))
      && NoNestedInfo(rest, inInfo)
  }

  predicate HasHeading(f: Forest) {
    match f
    case Empty => false
    case Text(_, rest) => HasHeading(rest)
    case Void(_, _, rest) => HasHeading(rest)
    case Element(tag, _, children, rest) => tag in HEADINGS || HasHeading(children) || HasHeading(rest)
  }

  /** The end of a heading nested in the captured one ends the capture. */
  function CaptureAfter(tag: Tag, children: Forest, capture: Capture): Capture {
    if tag in HEADINGS || HasHeading(children) then NoHeading else capture
  }

  /** What the capture really sees. */
  function HeadingSeen(f: Forest, wanted: Tag, inInfo: bool, capture: Capture): seq<string> {
    match f
    case Empty => []
    case Text(value, rest) => Part(value, capture == Heading(wanted)) + HeadingSeen(rest, wanted, inInfo, capture)
    case Void(_, _, rest) => HeadingSeen(rest, wanted, inInfo, capture)
    case Element(tag, attrs, children, rest) =>
      var below := inInfo || IsInfo(tag, attrs);
      HeadingSeen(children, wanted, below, if below && tag in HEADINGS then Heading(tag) else capture)
      + HeadingSeen(rest, wanted, inInfo, CaptureAfter(tag, children, capture))
  }

  /** How many pieces of a wanted heading stand where its capture has ended. */
  function HeadingLost(f: Forest, wanted: Tag, inInfo: bool, heading: Capture, capture: Capture): nat {
    match f
    case Empty => 0
    case Text(value, rest) =>
      (if value != "" && heading == Heading(wanted) && capture != heading then 1 else 0)
      + HeadingLost(rest, wanted, inInfo, heading, capture)
    case Void(_, _, rest) => HeadingLost(rest, wanted, inInfo, heading, capture)
    case Element(tag, attrs, children, rest) =>
      var below := inInfo || IsInfo(tag, attrs);
      var nested := below && tag in HEADINGS;
      HeadingLost(children, wanted, below, if nested then Heading(tag) else heading, if nested then Heading(tag) else capture)
      + HeadingLost(rest, wanted, inInfo, heading, CaptureAfter(tag, children, capture))
  }

  /** In the content of a heading `own`, after the end of a heading nested in it: there is
      text of a wanted heading that such an end precedes in its heading. */
  predicate CutAfterHeading(f: Forest, wanted: Tag, own: Tag) {
    match f
    case Empty => false
    case Text(value, rest) => (value != "" && own == wanted) || CutAfterHeading(rest, wanted, own)
    case Void(_, _, rest) => CutAfterHeading(rest, wanted, own)
    case Element(tag, _, children, rest) =>
      || (if tag in HEADINGS then CutInHeading(children, wanted, tag) else CutAfterHeading(children, wanted, own))
      || CutAfterHeading(rest, wanted, own)
  }

  /** In the content of a heading `own`, before such an end. */
  predicate CutInHeading(f: Forest, wanted: Tag, own: Tag) {
    match f
    case Empty => false
    case Text(_, rest) => CutInHeading(rest, wanted, own)
    case Void(_, _, rest) => CutInHeading(rest, wanted, own)
    case Element(tag, _, children, rest) =>
      || CutInHeading(children, wanted, if tag in HEADINGS then tag else own)
      || (if tag in HEADINGS || HasHeading(children) then CutAfterHeading(rest, wanted, own) else CutInHeading(rest, wanted, own))
  }

  /** On a page: below an info container, text of a wanted heading stands after the end of
      a heading nested in it. */
  predicate CutOnPage(f: Forest, wanted: Tag, inInfo: bool) {
    match f
    case Empty => false
    case Text(_, rest) => CutOnPage(rest, wanted, inInfo)
    case Void(_, _, rest) => CutOnPage(rest, wanted, inInfo)
    case Element(tag, attrs, children, rest) =>
      var below := inInfo || IsInfo(tag, attrs);
      || (if below && tag in HEADINGS then CutInHeading(children, wanted, tag) else CutOnPage(children, wanted, below))
      || CutOnPage(rest, wanted, inInfo)
  }

  /** The reference for the transcript: inside a container, the text that follows the
      end of a marker heading, up to the end of the container. `started` is the only
      fact that travels left to right, and it does not leave its container. */
  function TranscriptText(f: Forest, inside: bool, started: bool): (r: (seq<string>, bool)) {
    match f
    case Empty => ([], started)
    case Text(value, rest) =>
      var later := TranscriptText(rest, inside, started);
      (Part(value, started) + later.0, later.1)
    case Void(_, _, rest) => TranscriptText(rest, inside, started)
    case Element(tag, attrs, children, rest) =>
      if IsTranscript(tag, attrs) then
        var inner := TranscriptText(children, true, false);
        var later := TranscriptText(rest, inside, false);
        (inner.0 + later.0, later.1)
      else
        var inner := TranscriptText(children, inside, started);
        var later := TranscriptText(rest, inside, inner.1 || (inside && IsMarker(tag, attrs)));
        (inner.0 + later.0, later.1)
  }

  /** No transcript container inside another. */
  predicate NoNestedTranscript(f: Forest, inside: bool) {
    match f
    case Empty => true
    case Text(_, rest) => NoNestedTranscript(rest, inside)
    case Void(_, _, rest) => NoNestedTranscript(rest, inside)
    case Element(tag, attrs, children, rest) =>
      && !(inside && IsTranscript(tag, attrs))
      && NoNestedTranscript(children, inside || IsTranscript(tag, attrs))
      && NoNestedTranscript(rest, inside)
  }

  /** Where the walk stands between two siblings: is a marker open, has it closed? */
  datatype Seen = Seen(parts: seq<string>, open: bool, started: bool)

  /** What the flags really see: a marker is closed by the first `h3` that ends in it. */
  function TextSeen(f: Forest, inside: bool, open: bool, started: bool): Seen {
    match f
    case Empty => Seen([], open, started)
    case Text(value, rest) =>
      var later := TextSeen(rest, inside, open, started);
      later.(parts := Part(value, started) + later.parts)
    case Void(_, _, rest) => TextSeen(rest, inside, open, started)
    case Element(tag, attrs, children, rest) =>
      var below := inside || IsTranscript(tag, attrs);
      var inner := TextSeen(children, below, open || (below && IsMarker(tag, attrs)), started);
      var next := Closing(tag, attrs, inner);
      var later := TextSeen(rest, inside, next.open, next.started);
      later.(parts := inner.parts + later.parts)
  }

  function Closing(tag: Tag, attrs: Attrs, inner: Seen): Seen {
    var closing := tag == MARKER && inner.open;
    Seen(inner.parts, inner.open && !closing, (inner.started || closing) && !IsTranscript(tag, attrs))
  }

  /** How many pieces of text the parser takes before the marker heading has ended. */
  function TextEarly(f: Forest, inside: bool, open: bool, walked: bool, started: bool): nat {
    match f
    case Empty => 0
    case Text(value, rest) =>
      (if value != "" && started && !walked then 1 else 0) + TextEarly(rest, inside, open, walked, started)
    case Void(_, _, rest) => TextEarly(rest, inside, open, walked, started)
    case Element(tag, attrs, children, rest) =>
      var below := inside || IsTranscript(tag, attrs);
      var open' := open || (below && IsMarker(tag, attrs));
      var next := Closing(tag, attrs, TextSeen(children, below, open', started));
      TextEarly(children, below, open', walked && !IsTranscript(tag, attrs), started)
      + TextEarly(rest, inside, next.open, WalkedAfter(tag, attrs, children, inside, walked), next.started)
  }

  /** The reference's `started` after one element. */
  function WalkedAfter(tag: Tag, attrs: Attrs, children: Forest, inside: bool, walked: bool): bool {
    !IsTranscript(tag, attrs) && (TranscriptText(children, inside, walked).1 || (inside && IsMarker(tag, attrs)))
  }

  lemma {:induction false} InfoFeedConcat(s: Info, a: seq<Token>, b: seq<Token>)
    ensures InfoFeed(s, a + b) == InfoFeed(InfoFeed(s, a), b)
    decreases |a|
  {
    if a == [] {
      assert a + b == b;
    } else {
      assert (a + b)[1..] == a[1..] + b;
      InfoFeedConcat(InfoStep(s, a[0]), a[1..], b);
    }
  }

  lemma {:induction false} TranscriptFeedConcat(s: Transcript, a: seq<Token>, b: seq<Token>)
    ensures TranscriptFeed(s, a + b) == TranscriptFeed(TranscriptFeed(s, a), b)
    decreases |a|
  {
    if a == [] {
      assert a + b == b;
    } else {
      assert (a + b)[1..] == a[1..] + b;
      TranscriptFeedConcat(TranscriptStep(s, a[0]), a[1..], b);
    }
  }

  lemma InfoElement(s: Info, start: Token, inner: seq<Token>, end: Token, later: seq<Token>)
    ensures InfoFeed(s, [start] + inner + [end] + later) == InfoFeed(InfoStep(InfoFeed(InfoStep(s, start), inner), end), later)
  {
    assert ([start] + inner + [end] + later)[1..] == inner + ([end] + later);
    InfoFeedConcat(InfoStep(s, start), inner, [end] + later);
    assert ([end] + later)[1..] == later;
  }

  lemma TranscriptElement(s: Transcript, start: Token, inner: seq<Token>, end: Token, later: seq<Token>)
    ensures TranscriptFeed(s, [start] + inner + [end] + later)
            == TranscriptFeed(TranscriptStep(TranscriptFeed(TranscriptStep(s, start), inner), end), later)
  {
    assert ([start] + inner + [end] + later)[1..] == inner + ([end] + later);
    TranscriptFeedConcat(TranscriptStep(s, start), inner, [end] + later);
    assert ([end] + later)[1..] == later;
  }

  lemma ElementTokens(tag: Tag, attrs: Attrs, children: Forest, rest: Forest)
    ensures Tokens(Element(tag, attrs, children, rest)) == [Start(tag, attrs)] + Tokens(children) + [End(tag)] + Tokens(rest)
  {
  }

  /** On arbitrary token streams neither counter goes negative. */
  lemma {:induction false} DepthsNonNegative(i: Info, t: Transcript, tokens: seq<Token>)
    requires i.depth >= 0 && t.depth >= 0
    ensures InfoFeed(i, tokens).depth >= 0 && TranscriptFeed(t, tokens).depth >= 0
    decreases |tokens|
  {
    if tokens != [] {
      DepthsNonNegative(InfoStep(i, tokens[0]), TranscriptStep(t, tokens[0]), tokens[1..]);
    }
  }

  function InfoAfter(s: Info, f: Forest): Info {
    var inInfo := s.depth != 0;
    Info(s.depth, if HasHeading(f) then NoHeading else s.capture,
         s.titles + HeadingSeen(f, H1, inInfo, s.capture),
         s.bylines + HeadingSeen(f, H4, inInfo, s.capture),
         s.dates + HeadingSeen(f, H5, inInfo, s.capture))
  }

  /** Invariant of the info half between two siblings. */
  predicate InfoOk(s: Info) {
    s.depth >= 0 && (s.capture.Heading? ==> s.capture.tag in HEADINGS && s.depth != 0)
  }

  lemma InfoReturns(tag: Tag, attrs: Attrs, children: Forest, rest: Forest, s: Info)
    requires InfoOk(s) && NoNestedInfo(Element(tag, attrs, children, rest), s.depth != 0)
    ensures var s1 := InfoStep(s, Start(tag, attrs));
            && InfoOk(s1) && NoNestedInfo(children, s1.depth != 0)
            && (s1.depth != 0 <==> s.depth != 0 || IsInfo(tag, attrs))
            && s1.capture == (if s1.depth != 0 && tag in HEADINGS then Heading(tag) else s.capture)
            && (forall titles, bylines, dates ::
                 InfoStep(Info(s1.depth, if HasHeading(children) then NoHeading else s1.capture, titles, bylines, dates), End(tag))
                 == Info(s.depth, CaptureAfter(tag, children, s.capture), titles, bylines, dates))
  {
  }

  lemma HeadingSeenSplits(tag: Tag, attrs: Attrs, children: Forest, rest: Forest, s: Info, wanted: Tag, parts: seq<string>)
    ensures var below := s.depth != 0 || IsInfo(tag, attrs);
            parts + HeadingSeen(children, wanted, below, if below && tag in HEADINGS then Heading(tag) else s.capture)
            + HeadingSeen(rest, wanted, s.depth != 0, CaptureAfter(tag, children, s.capture))
            == parts + HeadingSeen(Element(tag, attrs, children, rest), wanted, s.depth != 0, s.capture)
  {
  }

  lemma InfoContinues(tag: Tag, attrs: Attrs, children: Forest, rest: Forest, s: Info)
    requires InfoOk(s) && NoNestedInfo(Element(tag, attrs, children, rest), s.depth != 0)
    ensures var s1 := InfoStep(s, Start(tag, attrs));
            var s2 := InfoStep(InfoAfter(s1, children), End(tag));
            && InfoOk(s1) && NoNestedInfo(children, s1.depth != 0)
            && InfoOk(s2) && s2.depth == s.depth
            && InfoAfter(s2, rest) == InfoAfter(s, Element(tag, attrs, children, rest))
  {
    InfoReturns(tag, attrs, children, rest, s);
    HeadingSeenSplits(tag, attrs, children, rest, s, H1, s.titles);
    HeadingSeenSplits(tag, attrs, children, rest, s, H4, s.bylines);
    HeadingSeenSplits(tag, attrs, children, rest, s, H5, s.dates);
    hide HeadingSeen, NoNestedInfo, InfoStep;
  }

  /** From the runs over the children and over the rest to the run over the whole. */
  lemma InfoJoins(tag: Tag, attrs: Attrs, children: Forest, rest: Forest, s: Info, s1: Info, s2: Info, s3: Info)
    requires s1 == InfoStep(s, Start(tag, attrs))
    requires s2 == InfoStep(InfoFeed(s1, Tokens(children)), End(tag)) && s3 == InfoFeed(s2, Tokens(rest))
    ensures InfoFeed(s, Tokens(Element(tag, attrs, children, rest))) == s3
  {
    InfoElement(s, Start(tag, attrs), Tokens(children), End(tag), Tokens(rest));
    ElementTokens(tag, attrs, children, rest);
    hide InfoFeed, InfoStep, Tokens;
  }

  /** On every tree without nested info containers the info half is the walk whose captures
      are ended by nested headings. */
  lemma {:induction false} InfoIsCapturingWalk(f: Forest, s: Info)
    requires Closed(f, HEADINGS + {DIV}) && InfoOk(s) && NoNestedInfo(f, s.depth != 0)
    ensures InfoFeed(s, Tokens(f)) == InfoAfter(s, f)
    decreases f
  {
    match f
    case Empty =>
    case Text(value, rest) =>
      TextContinues(value, rest, s);
      InfoIsCapturingWalk(rest, InfoStep(s, Data(value)));
      hide InfoAfter, InfoStep;
      assert Tokens(f)[1..] == Tokens(rest);
    case Void(tag, attrs, rest) =>
      VoidContinues(tag, attrs, rest, s);
      InfoIsCapturingWalk(rest, s);
      hide InfoAfter, InfoStep;
      assert Tokens(f)[1..] == Tokens(rest);
    case Element(tag, attrs, children, rest) => InfoOfElement(tag, attrs, children, rest, s);
  }

  lemma TextContinues(value: string, rest: Forest, s: Info)
    requires InfoOk(s)
    ensures var s1 := InfoStep(s, Data(value));
            && InfoOk(s1) && s1.depth == s.depth
            && InfoAfter(s1, rest) == InfoAfter(s, Text(value, rest))
  {
    var inInfo := s.depth != 0;
    Append(s.titles, Part(value, s.capture == Heading(H1)), HeadingSeen(rest, H1, inInfo, s.capture));
    Append(s.bylines, Part(value, s.capture == Heading(H4)), HeadingSeen(rest, H4, inInfo, s.capture));
    Append(s.dates, Part(value, s.capture == Heading(H5)), HeadingSeen(rest, H5, inInfo, s.capture));
    hide Part;
  }

  lemma VoidContinues(tag: Tag, attrs: Attrs, rest: Forest, s: Info)
    requires tag !in HEADINGS + {DIV}
    ensures InfoStep(s, Start(tag, attrs)) == s && InfoAfter(s, rest) == InfoAfter(s, Void(tag, attrs, rest))
  {
  }

  lemma {:induction false} InfoOfElement(tag: Tag, attrs: Attrs, children: Forest, rest: Forest, s: Info)
    requires Closed(children, HEADINGS + {DIV}) && Closed(rest, HEADINGS + {DIV})
    requires InfoOk(s) && NoNestedInfo(Element(tag, attrs, children, rest), s.depth != 0)
    ensures var f := Element(tag, attrs, children, rest); InfoFeed(s, Tokens(f)) == InfoAfter(s, f)
    decreases Element(tag, attrs, children, rest), 0
  {
    var s1 := InfoStep(s, Start(tag, attrs));
    var s2 := InfoStep(InfoAfter(s1, children), End(tag));
    InfoContinues(tag, attrs, children, rest, s);
    hide InfoAfter, InfoStep, InfoFeed, InfoOk, Tokens, Closed;
    InfoIsCapturingWalk(children, s1);
    InfoIsCapturingWalk(rest, s2);
    InfoJoins(tag, attrs, children, rest, s, s1, s2, InfoAfter(s2, rest));
  }

  /** Conservation: the text below a heading is what its capture sees plus what it loses. */
  lemma {:induction false} SeenPlusLost(f: Forest, wanted: Tag, inInfo: bool, heading: Capture, capture: Capture)
    requires capture == heading || capture.NoHeading?
    ensures Conserved(HeadingText(f, wanted, inInfo, heading), HeadingSeen(f, wanted, inInfo, capture),
                      HeadingLost(f, wanted, inInfo, heading, capture))
    decreases f
  {
    match f
    case Empty =>
    case Text(value, rest) => TextConserved(value, rest, wanted, inInfo, heading, capture);
    case Void(_, _, rest) => SeenPlusLost(rest, wanted, inInfo, heading, capture);
    case Element(tag, attrs, children, rest) => ElementConserved(tag, attrs, children, rest, wanted, inInfo, heading, capture);
  }

  lemma {:induction false} ElementConserved(tag: Tag, attrs: Attrs, children: Forest, rest: Forest,
                                            wanted: Tag, inInfo: bool, heading: Capture, capture: Capture)
    requires capture == heading || capture.NoHeading?
    ensures var f := Element(tag, attrs, children, rest);
            Conserved(HeadingText(f, wanted, inInfo, heading), HeadingSeen(f, wanted, inInfo, capture),
                      HeadingLost(f, wanted, inInfo, heading, capture))
    decreases Element(tag, attrs, children, rest), 0
  {
    hide Conserved, HeadingText, HeadingSeen, HeadingLost, IsInfo, HasHeading;
    var below := inInfo || IsInfo(tag, attrs);
    var nested := below && tag in HEADINGS;
    var h, c := if nested then Heading(tag) else heading, if nested then Heading(tag) else capture;
    var c' := CaptureAfter(tag, children, capture);
    SeenPlusLost(children, wanted, below, h, c);
    SeenPlusLost(rest, wanted, inInfo, heading, c');
    ConservedJoin(HeadingText(children, wanted, below, h), HeadingText(rest, wanted, inInfo, heading),
                  HeadingSeen(children, wanted, below, c), HeadingSeen(rest, wanted, inInfo, c'),
                  HeadingLost(children, wanted, below, h, c), HeadingLost(rest, wanted, inInfo, heading, c'));
    TextOfHeading(tag, attrs, children, rest, wanted, inInfo, heading);
    SeenOfHeading(tag, attrs, children, rest, wanted, inInfo, capture);
    LostOfHeading(tag, attrs, children, rest, wanted, inInfo, heading, capture);
  }

  lemma TextOfHeading(tag: Tag, attrs: Attrs, children: Forest, rest: Forest, wanted: Tag, inInfo: bool, heading: Capture)
    ensures var below := inInfo || IsInfo(tag, attrs);
            HeadingText(Element(tag, attrs, children, rest), wanted, inInfo, heading)
            == HeadingText(children, wanted, below, if below && tag in HEADINGS then Heading(tag) else heading)
               + HeadingText(rest, wanted, inInfo, heading)
  {
    hide IsInfo;
  }

  lemma SeenOfHeading(tag: Tag, attrs: Attrs, children: Forest, rest: Forest, wanted: Tag, inInfo: bool, capture: Capture)
    ensures var below := inInfo || IsInfo(tag, attrs);
            HeadingSeen(Element(tag, attrs, children, rest), wanted, inInfo, capture)
            == HeadingSeen(children, wanted, below, if below && tag in HEADINGS then Heading(tag) else capture)
               + HeadingSeen(rest, wanted, inInfo, CaptureAfter(tag, children, capture))
  {
    hide IsInfo, CaptureAfter;
  }

  lemma LostOfHeading(tag: Tag, attrs: Attrs, children: Forest, rest: Forest,
                      wanted: Tag, inInfo: bool, heading: Capture, capture: Capture)
    ensures var below := inInfo || IsInfo(tag, attrs);
            var nested := below && tag in HEADINGS;
            HeadingLost(Element(tag, attrs, children, rest), wanted, inInfo, heading, capture)
            == HeadingLost(children, wanted, below, if nested then Heading(tag) else heading, if nested then Heading(tag) else capture)
               + HeadingLost(rest, wanted, inInfo, heading, CaptureAfter(tag, children, capture))
  {
    hide IsInfo, CaptureAfter;
  }

  predicate Conserved(ideal: seq<string>, seen: seq<string>, lost: nat) {
    |ideal| == |seen| + lost && (lost == 0 ==> ideal == seen)
  }

  lemma ConservedJoin(i1: seq<string>, i2: seq<string>, s1: seq<string>, s2: seq<string>, l1: nat, l2: nat)
    requires Conserved(i1, s1, l1) && Conserved(i2, s2, l2)
    ensures Conserved(i1 + i2, s1 + s2, l1 + l2)
  {
  }

  lemma {:induction false} TextConserved(value: string, rest: Forest, wanted: Tag, inInfo: bool, heading: Capture, capture: Capture)
    requires capture == heading || capture.NoHeading?
    ensures var f := Text(value, rest);
            Conserved(HeadingText(f, wanted, inInfo, heading), HeadingSeen(f, wanted, inInfo, capture),
                      HeadingLost(f, wanted, inInfo, heading, capture))
    decreases Text(value, rest), 0
  {
    SeenPlusLost(rest, wanted, inInfo, heading, capture);
    var ideal, seen := Part(value, heading == Heading(wanted)), Part(value, capture == Heading(wanted));
    var lost := if value != "" && heading == Heading(wanted) && capture != heading then 1 else 0;
    assert Conserved(ideal, seen, lost);
    hide Part, Conserved;
    ConservedJoin(ideal, HeadingText(rest, wanted, inInfo, heading), seen, HeadingSeen(rest, wanted, inInfo, capture),
                  lost, HeadingLost(rest, wanted, inInfo, heading, capture));
  }

  lemma {:induction false} LostAfterHeading(f: Forest, wanted: Tag, own: Tag)
    ensures HeadingLost(f, wanted, true, Heading(own), NoHeading) > 0 <==> CutAfterHeading(f, wanted, own)
    decreases f
  {
    match f
    case Empty =>
    case Text(_, rest) => LostAfterHeading(rest, wanted, own);
    case Void(_, _, rest) => LostAfterHeading(rest, wanted, own);
    case Element(tag, _, children, rest) =>
      if tag in HEADINGS {
        LostInHeading(children, wanted, tag);
      } else {
        LostAfterHeading(children, wanted, own);
      }
      LostAfterHeading(rest, wanted, own);
      hide CutInHeading, HasHeading;
  }

  lemma {:induction false} LostInHeading(f: Forest, wanted: Tag, own: Tag)
    ensures HeadingLost(f, wanted, true, Heading(own), Heading(own)) > 0 <==> CutInHeading(f, wanted, own)
    decreases f
  {
    match f
    case Empty =>
    case Text(_, rest) => LostInHeading(rest, wanted, own);
    case Void(_, _, rest) => LostInHeading(rest, wanted, own);
    case Element(tag, attrs, children, rest) => LostBelowHeading(tag, attrs, children, rest, wanted, own);
  }

  lemma {:induction false} LostBelowHeading(tag: Tag, attrs: Attrs, children: Forest, rest: Forest, wanted: Tag, own: Tag)
    ensures var f := Element(tag, attrs, children, rest);
            HeadingLost(f, wanted, true, Heading(own), Heading(own)) > 0 <==> CutInHeading(f, wanted, own)
    decreases Element(tag, attrs, children, rest), 0
  {
    LostInHeading(children, wanted, if tag in HEADINGS then tag else own);
    if tag in HEADINGS || HasHeading(children) {
      LostAfterHeading(rest, wanted, own);
    } else {
      LostInHeading(rest, wanted, own);
    }
    LostOfElement(tag, attrs, children, rest, wanted, own);
    hide HeadingLost, CutAfterHeading, HasHeading;
  }

  lemma LostOfElement(tag: Tag, attrs: Attrs, children: Forest, rest: Forest, wanted: Tag, own: Tag)
    ensures var inner := Heading(if tag in HEADINGS then tag else own);
            HeadingLost(Element(tag, attrs, children, rest), wanted, true, Heading(own), Heading(own))
            == HeadingLost(children, wanted, true, inner, inner)
               + HeadingLost(rest, wanted, true, Heading(own), CaptureAfter(tag, children, Heading(own)))
  {
  }

  lemma {:induction false} LostOnPage(f: Forest, wanted: Tag, inInfo: bool)
    ensures HeadingLost(f, wanted, inInfo, NoHeading, NoHeading) > 0 <==> CutOnPage(f, wanted, inInfo)
    decreases f
  {
    match f
    case Empty =>
    case Text(_, rest) => LostOnPage(rest, wanted, inInfo);
    case Void(_, _, rest) => LostOnPage(rest, wanted, inInfo);
    case Element(tag, attrs, children, rest) =>
      LostInHeading(children, wanted, tag);
      LostOnPage(children, wanted, inInfo || IsInfo(tag, attrs));
      LostOnPage(rest, wanted, inInfo);
  }

  lemma {:induction false} PlainHeadings(f: Forest, inInfo: bool, inHeading: bool)
    requires PlainInfo(f, inInfo, inHeading)
    ensures NoNestedInfo(f, inInfo)
    ensures inHeading ==> !HasHeading(f) && forall wanted, own :: !CutInHeading(f, wanted, own)
    ensures !inHeading ==> forall wanted :: !CutOnPage(f, wanted, inInfo)
    decreases f
  {
    match f
    case Empty =>
    case Text(_, rest) => PlainHeadings(rest, inInfo, inHeading);
    case Void(_, _, rest) => PlainHeadings(rest, inInfo, inHeading);
    case Element(tag, attrs, children, rest) =>
      var below := inInfo || IsInfo(tag, attrs);
      PlainHeadings(children, below, inHeading || (below && tag in HEADINGS));
      PlainHeadings(rest, inInfo, inHeading);
  }

  function TranscriptAfter(s: Transcript, f: Forest): Transcript {
    var r := TextSeen(f, s.depth != 0, s.markerOpen, s.started);
    Transcript(s.depth, r.open, r.started, s.parts + r.parts)
  }

  predicate TranscriptOk(s: Transcript) {
    s.depth >= 0 && (s.depth == 0 ==> !s.started && !s.markerOpen)
  }

  /** A marker opened in a forest is closed in it; one open on entry closes or has started. */
  lemma {:induction false} MarkersClose(f: Forest, inside: bool, open: bool, started: bool)
    requires NoNestedTranscript(f, inside) && (!inside ==> !open && !started)
    ensures var r := TextSeen(f, inside, open, started);
            && (r.open ==> open)
            && (open ==> r.open || r.started)
            && (inside && started ==> r.started)
            && (!inside ==> !r.started)
    decreases f
  {
    match f
    case Empty =>
    case Text(_, rest) => MarkersClose(rest, inside, open, started);
    case Void(_, _, rest) => MarkersClose(rest, inside, open, started);
    case Element(tag, attrs, children, rest) =>
      var below := inside || IsTranscript(tag, attrs);
      var open' := open || (below && IsMarker(tag, attrs));
      MarkersClose(children, below, open', started);
      var next := Closing(tag, attrs, TextSeen(children, below, open', started));
      MarkersClose(rest, inside, next.open, next.started);
  }

  lemma TranscriptReturns(tag: Tag, attrs: Attrs, children: Forest, s: Transcript, inner: Seen)
    requires TranscriptOk(s) && NoNestedTranscript(Element(tag, attrs, children, Empty), s.depth != 0)
    requires s.depth == 0 && !IsTranscript(tag, attrs) ==> !inner.open && !inner.started
    requires IsTranscript(tag, attrs) ==> !inner.open
    ensures var s1 := TranscriptStep(s, Start(tag, attrs));
            && TranscriptOk(s1) && s1.parts == s.parts && s1.started == s.started
            && (s1.depth != 0 <==> s.depth != 0 || IsTranscript(tag, attrs))
            && s1.markerOpen == (s.markerOpen || (s1.depth != 0 && IsMarker(tag, attrs)))
            && (var next := Closing(tag, attrs, inner);
                TranscriptStep(Transcript(s1.depth, inner.open, inner.started, s.parts + inner.parts), End(tag))
                == Transcript(s.depth, next.open, next.started, s.parts + inner.parts))
  {
  }

  lemma Append(a: seq<string>, b: seq<string>, c: seq<string>)
    ensures a + b + c == a + (b + c)
  {
  }

  /** The threaded walk of an element, continued from where its children leave off. */
  lemma TranscriptContinues(tag: Tag, attrs: Attrs, children: Forest, rest: Forest, s: Transcript)
    requires TranscriptOk(s) && NoNestedTranscript(Element(tag, attrs, children, rest), s.depth != 0)
    ensures var s1 := TranscriptStep(s, Start(tag, attrs));
            var s2 := TranscriptStep(TranscriptAfter(s1, children), End(tag));
            && TranscriptOk(s1) && NoNestedTranscript(children, s1.depth != 0)
            && TranscriptOk(s2) && s2.depth == s.depth
            && TranscriptAfter(s2, rest) == TranscriptAfter(s, Element(tag, attrs, children, rest))
  {
    var below := s.depth != 0 || IsTranscript(tag, attrs);
    var inner := TextSeen(children, below, s.markerOpen || (below && IsMarker(tag, attrs)), s.started);
    var next := Closing(tag, attrs, inner);
    MarkersClose(children, below, s.markerOpen || (below && IsMarker(tag, attrs)), s.started);
    TranscriptReturns(tag, attrs, children, s, inner);
    Append(s.parts, inner.parts, TextSeen(rest, s.depth != 0, next.open, next.started).parts);
    MarkersClose(Element(tag, attrs, children, Empty), s.depth != 0, s.markerOpen, s.started);
    hide TranscriptStep;
  }

  /** On every tree without nested containers the machine is the threaded walk. */
  lemma {:induction false} MachineIsThreadedWalk(f: Forest, s: Transcript)
    requires Closed(f, {DIV, MARKER}) && TranscriptOk(s) && NoNestedTranscript(f, s.depth != 0)
    ensures TranscriptFeed(s, Tokens(f)) == TranscriptAfter(s, f)
    decreases f
  {
    match f
    case Empty =>
    case Text(value, rest) =>
      var s1 := TranscriptStep(s, Data(value));
      Append(s.parts, Part(value, s.started), TextSeen(rest, s.depth != 0, s.markerOpen, s.started).parts);
      assert TranscriptAfter(s1, rest) == TranscriptAfter(s, f);
      MachineIsThreadedWalk(rest, s1);
      hide TranscriptAfter;
      assert Tokens(f)[1..] == Tokens(rest);
    case Void(tag, attrs, rest) =>
      assert TranscriptAfter(s, rest) == TranscriptAfter(s, f);
      MachineIsThreadedWalk(rest, s);
      hide TranscriptAfter;
      assert Tokens(f)[1..] == Tokens(rest);
    case Element(tag, attrs, children, rest) => TranscriptOfElement(tag, attrs, children, rest, s);
  }

  lemma {:induction false} TranscriptOfElement(tag: Tag, attrs: Attrs, children: Forest, rest: Forest, s: Transcript)
    requires Closed(children, {DIV, MARKER}) && Closed(rest, {DIV, MARKER})
    requires TranscriptOk(s) && NoNestedTranscript(Element(tag, attrs, children, rest), s.depth != 0)
    ensures var f := Element(tag, attrs, children, rest); TranscriptFeed(s, Tokens(f)) == TranscriptAfter(s, f)
    decreases Element(tag, attrs, children, rest), 0
  {
    var s1 := TranscriptStep(s, Start(tag, attrs));
    var s2 := TranscriptStep(TranscriptAfter(s1, children), End(tag));
    TranscriptContinues(tag, attrs, children, rest, s);
    hide TranscriptAfter, TranscriptStep, TranscriptFeed, TranscriptOk, Tokens, Closed;
    MachineIsThreadedWalk(children, s1);
    MachineIsThreadedWalk(rest, s2);
    TranscriptJoins(tag, attrs, children, rest, s, s1, s2, TranscriptAfter(s2, rest));
  }

  lemma TranscriptJoins(tag: Tag, attrs: Attrs, children: Forest, rest: Forest,
                        s: Transcript, s1: Transcript, s2: Transcript, s3: Transcript)
    requires s1 == TranscriptStep(s, Start(tag, attrs))
    requires s2 == TranscriptStep(TranscriptFeed(s1, Tokens(children)), End(tag)) && s3 == TranscriptFeed(s2, Tokens(rest))
    ensures TranscriptFeed(s, Tokens(Element(tag, attrs, children, rest))) == s3
  {
    TranscriptElement(s, Start(tag, attrs), Tokens(children), End(tag), Tokens(rest));
    ElementTokens(tag, attrs, children, rest);
    hide TranscriptFeed, TranscriptStep, Tokens;
  }

  /** Conservation: the parser keeps what the walk keeps plus what it takes early. */
  lemma {:induction false} SeenIsWalkedPlusEarly(f: Forest, inside: bool, open: bool, walked: bool, started: bool)
    requires NoNestedTranscript(f, inside) && (!inside ==> !open && !started) && (walked ==> started)
    ensures var seen, ideal := TextSeen(f, inside, open, started), TranscriptText(f, inside, walked);
            && Conserved(seen.parts, ideal.0, TextEarly(f, inside, open, walked, started))
            && (ideal.1 ==> seen.started)
    decreases f
  {
    match f
    case Empty =>
    case Text(value, rest) =>
      SeenIsWalkedPlusEarly(rest, inside, open, walked, started);
      var early := if value != "" && started && !walked then 1 else 0;
      assert Conserved(Part(value, started), Part(value, walked), early);
      hide Part, Conserved;
      ConservedJoin(Part(value, started), TextSeen(rest, inside, open, started).parts,
                    Part(value, walked), TranscriptText(rest, inside, walked).0, early, TextEarly(rest, inside, open, walked, started));
    case Void(_, _, rest) => SeenIsWalkedPlusEarly(rest, inside, open, walked, started);
    case Element(tag, attrs, children, rest) =>
      SeenOfElement(tag, attrs, children, rest, inside, open, walked, started);
  }

  lemma {:induction false} SeenOfElement(tag: Tag, attrs: Attrs, children: Forest, rest: Forest,
                                         inside: bool, open: bool, walked: bool, started: bool)
    requires NoNestedTranscript(Element(tag, attrs, children, rest), inside)
    requires (!inside ==> !open && !started) && (walked ==> started)
    ensures var f := Element(tag, attrs, children, rest);
            var seen, ideal := TextSeen(f, inside, open, started), TranscriptText(f, inside, walked);
            && Conserved(seen.parts, ideal.0, TextEarly(f, inside, open, walked, started))
            && (ideal.1 ==> seen.started)
    decreases Element(tag, attrs, children, rest), 0
  {
    hide Conserved, TextSeen, TranscriptText, TextEarly, IsTranscript, Closing, WalkedAfter;
    var below := inside || IsTranscript(tag, attrs);
    var open' := open || (below && IsMarker(tag, attrs));
    var walked' := walked && !IsTranscript(tag, attrs);
    var inner := TextSeen(children, below, open', started);
    MarkersClose(children, below, open', started);
    SeenIsWalkedPlusEarly(children, below, open', walked', started);
    var next := Closing(tag, attrs, inner);
    var after := WalkedAfter(tag, attrs, children, inside, walked);
    StartedAfter(tag, attrs, children, inside, open', walked, inner);
    SeenIsWalkedPlusEarly(rest, inside, next.open, after, next.started);
    ConservedJoin(inner.parts, TextSeen(rest, inside, next.open, next.started).parts,
                  TranscriptText(children, below, walked').0, TranscriptText(rest, inside, after).0,
                  TextEarly(children, below, open', walked', started), TextEarly(rest, inside, next.open, after, next.started));
    SeenElement(tag, attrs, children, rest, inside, open, started);
    WalkedElement(tag, attrs, children, rest, inside, walked);
    EarlyElement(tag, attrs, children, rest, inside, open, walked, started);
  }

  /** Where the walk has started after an element, so has the machine. */
  lemma StartedAfter(tag: Tag, attrs: Attrs, children: Forest, inside: bool, open: bool, walked: bool, inner: Seen)
    requires inside && IsMarker(tag, attrs) ==> open
    requires open ==> inner.open || inner.started
    requires inner.open ==> open
    requires !inside ==> (open ==> IsMarker(tag, attrs)) && (!IsTranscript(tag, attrs) ==> !open && !inner.started)
    requires !IsTranscript(tag, attrs) && TranscriptText(children, inside, walked).1 ==> inner.started
    ensures var next := Closing(tag, attrs, inner);
            && (WalkedAfter(tag, attrs, children, inside, walked) ==> next.started)
            && (!inside ==> !next.open && !next.started)
  {
    hide TranscriptText;
  }

  lemma SeenElement(tag: Tag, attrs: Attrs, children: Forest, rest: Forest, inside: bool, open: bool, started: bool)
    ensures var below := inside || IsTranscript(tag, attrs);
            var inner := TextSeen(children, below, open || (below && IsMarker(tag, attrs)), started);
            var next := Closing(tag, attrs, inner);
            var later := TextSeen(rest, inside, next.open, next.started);
            TextSeen(Element(tag, attrs, children, rest), inside, open, started) == later.(parts := inner.parts + later.parts)
  {
    hide IsTranscript, IsMarker, Closing;
  }

  lemma WalkedElement(tag: Tag, attrs: Attrs, children: Forest, rest: Forest, inside: bool, walked: bool)
    requires !(inside && IsTranscript(tag, attrs))
    ensures var below := inside || IsTranscript(tag, attrs);
            var inner := TranscriptText(children, below, walked && !IsTranscript(tag, attrs));
            var later := TranscriptText(rest, inside, WalkedAfter(tag, attrs, children, inside, walked));
            TranscriptText(Element(tag, attrs, children, rest), inside, walked) == (inner.0 + later.0, later.1)
  {
    hide IsTranscript, IsMarker;
  }

  lemma EarlyElement(tag: Tag, attrs: Attrs, children: Forest, rest: Forest, inside: bool, open: bool, walked: bool, started: bool)
    ensures var below := inside || IsTranscript(tag, attrs);
            var open' := open || (below && IsMarker(tag, attrs));
            var next := Closing(tag, attrs, TextSeen(children, below, open', started));
            TextEarly(Element(tag, attrs, children, rest), inside, open, walked, started)
            == TextEarly(children, below, open', walked && !IsTranscript(tag, attrs), started)
               + TextEarly(rest, inside, next.open, WalkedAfter(tag, attrs, children, inside, walked), next.started)
  {
    hide IsTranscript, IsMarker, Closing, TextSeen, WalkedAfter;
  }

  predicate HasHeading3(f: Forest) {
    match f
    case Empty => false
    case Text(_, rest) => HasHeading3(rest)
    case Void(_, _, rest) => HasHeading3(rest)
    case Element(tag, _, children, rest) => tag == MARKER || HasHeading3(children) || HasHeading3(rest)
  }

  /** No `h3` inside a marker heading. */
  predicate PlainMarkers(f: Forest) {
    match f
    case Empty => true
    case Text(_, rest) => PlainMarkers(rest)
    case Void(_, _, rest) => PlainMarkers(rest)
    case Element(tag, attrs, children, rest) =>
      && (IsMarker(tag, attrs) ==> !HasHeading3(children))
      && PlainMarkers(children)
      && PlainMarkers(rest)
  }

  lemma {:induction false} NothingEarly(f: Forest, inside: bool, open: bool, started: bool)
    requires NoNestedTranscript(f, inside) && (!inside ==> !open && !started)
    requires PlainMarkers(f) && (open ==> !HasHeading3(f))
    ensures TextEarly(f, inside, open, started, started) == 0
    ensures TextSeen(f, inside, open, started).open == open
    ensures TranscriptText(f, inside, started).1 == TextSeen(f, inside, open, started).started
    decreases f
  {
    match f
    case Empty =>
    case Text(_, rest) => NothingEarly(rest, inside, open, started);
    case Void(_, _, rest) => NothingEarly(rest, inside, open, started);
    case Element(tag, attrs, children, rest) =>
      var below := inside || IsTranscript(tag, attrs);
      var open' := open || (below && IsMarker(tag, attrs));
      NothingEarly(children, below, open', started);
      MarkersClose(children, below, open', started);
      var next := Closing(tag, attrs, TextSeen(children, below, open', started));
      NothingEarly(rest, inside, next.open, next.started);
  }

  predicate HasMarker(f: Forest) {
    match f
    case Empty => false
    case Text(_, rest) => HasMarker(rest)
    case Void(_, _, rest) => HasMarker(rest)
    case Element(tag, attrs, children, rest) => IsMarker(tag, attrs) || HasMarker(children) || HasMarker(rest)
  }

  /** Some text of the forest has no end of a marker before it. */
  predicate TextBeforeMarkerEnd(f: Forest) {
    match f
    case Empty => false
    case Text(value, rest) => value != "" || TextBeforeMarkerEnd(rest)
    case Void(_, _, rest) => TextBeforeMarkerEnd(rest)
    case Element(tag, attrs, children, rest) =>
      || TextBeforeMarkerEnd(children)
      || (!IsMarker(tag, attrs) && !HasMarker(children) && TextBeforeMarkerEnd(rest))
  }

  /** In the content of a marker: some text stands after the end of an `h3` nested there,
      with no end of a marker before it. */
  predicate TextAfterHeading(f: Forest) {
    match f
    case Empty => false
    case Text(_, rest) => TextAfterHeading(rest)
    case Void(_, _, rest) => TextAfterHeading(rest)
    case Element(tag, attrs, children, rest) =>
      || TextAfterHeading(children)
      || (&& !IsMarker(tag, attrs) && !HasMarker(children)
          && if tag == MARKER || HasHeading3(children) then TextBeforeMarkerEnd(rest) else TextAfterHeading(rest))
  }

  /** In the content of a container: such text stands in its first marker. */
  predicate EarlyInContainer(f: Forest) {
    match f
    case Empty => false
    case Text(_, rest) => EarlyInContainer(rest)
    case Void(_, _, rest) => EarlyInContainer(rest)
    case Element(tag, attrs, children, rest) =>
      || (if IsMarker(tag, attrs) then TextAfterHeading(children) else EarlyInContainer(children))
      || (!IsMarker(tag, attrs) && !HasMarker(children) && EarlyInContainer(rest))
  }

  /** On a page: such text stands in the first marker of one of its containers. */
  predicate EarlyOnPage(f: Forest) {
    match f
    case Empty => false
    case Text(_, rest) => EarlyOnPage(rest)
    case Void(_, _, rest) => EarlyOnPage(rest)
    case Element(tag, attrs, children, rest) =>
      || (if IsTranscript(tag, attrs) then EarlyInContainer(children) else EarlyOnPage(children))
      || EarlyOnPage(rest)
  }

  lemma {:induction false} WalkedIsMarker(f: Forest, walked: bool)
    requires NoNestedTranscript(f, true)
    ensures TranscriptText(f, true, walked).1 <==> walked || HasMarker(f)
    decreases f
  {
    match f
    case Empty =>
    case Text(_, rest) => WalkedIsMarker(rest, walked);
    case Void(_, _, rest) => WalkedIsMarker(rest, walked);
    case Element(tag, attrs, children, rest) =>
      WalkedIsMarker(children, walked);
      WalkedIsMarker(rest, WalkedAfter(tag, attrs, children, true, walked));
  }

  /** The flags of the machine after a forest: an `h3` closes whatever marker is open. */
  lemma {:induction false} FlagsAfter(f: Forest, open: bool, started: bool)
    requires NoNestedTranscript(f, true)
    ensures var r := TextSeen(f, true, open, started);
            && (r.open <==> open && !HasHeading3(f))
            && (r.started <==> started || (open && HasHeading3(f)) || HasMarker(f))
    decreases f
  {
    match f
    case Empty =>
    case Text(_, rest) => FlagsAfter(rest, open, started);
    case Void(_, _, rest) => FlagsAfter(rest, open, started);
    case Element(tag, attrs, children, rest) =>
      var open' := open || IsMarker(tag, attrs);
      FlagsAfter(children, open', started);
      var next := Closing(tag, attrs, TextSeen(children, true, open', started));
      FlagsAfter(rest, next.open, next.started);
  }

  lemma {:induction false} NothingEarlyOnceWalked(f: Forest, open: bool)
    requires NoNestedTranscript(f, true)
    ensures TextEarly(f, true, open, true, true) == 0
    decreases f
  {
    match f
    case Empty =>
    case Text(_, rest) => NothingEarlyOnceWalked(rest, open);
    case Void(_, _, rest) => NothingEarlyOnceWalked(rest, open);
    case Element(tag, attrs, children, rest) =>
      var open' := open || IsMarker(tag, attrs);
      NothingEarlyOnceWalked(children, open');
      WalkedIsMarker(children, true);
      FlagsAfter(children, open', true);
      NothingEarlyOnceWalked(rest, Closing(tag, attrs, TextSeen(children, true, open', true)).open);
  }

  lemma {:induction false} EarlyOnceStarted(f: Forest, open: bool)
    requires NoNestedTranscript(f, true)
    ensures TextEarly(f, true, open, false, true) > 0 <==> TextBeforeMarkerEnd(f)
    decreases f
  {
    match f
    case Empty =>
    case Text(_, rest) => EarlyOnceStarted(rest, open);
    case Void(_, _, rest) => EarlyOnceStarted(rest, open);
    case Element(tag, attrs, children, rest) =>
      var open' := open || IsMarker(tag, attrs);
      EarlyOnceStarted(children, open');
      WalkedIsMarker(children, false);
      FlagsAfter(children, open', true);
      var next := Closing(tag, attrs, TextSeen(children, true, open', true));
      EarlyOnceStarted(rest, next.open);
      NothingEarlyOnceWalked(rest, next.open);
  }

  lemma {:induction false} EarlyInMarker(f: Forest)
    requires NoNestedTranscript(f, true)
    ensures TextEarly(f, true, true, false, false) > 0 <==> TextAfterHeading(f)
    decreases f
  {
    match f
    case Empty =>
    case Text(_, rest) => EarlyInMarker(rest);
    case Void(_, _, rest) => EarlyInMarker(rest);
    case Element(tag, attrs, children, rest) =>
      EarlyInMarker(children);
      MarkersAreHeadings(children);
      WalkedIsMarker(children, false);
      FlagsAfter(children, true, false);
      var next := Closing(tag, attrs, TextSeen(children, true, true, false));
      EarlyInMarker(rest);
      EarlyOnceStarted(rest, next.open);
      NothingEarlyOnceWalked(rest, next.open);
  }

  lemma {:induction false} MarkersAreHeadings(f: Forest)
    ensures HasMarker(f) ==> HasHeading3(f)
  {
    match f
    case Empty =>
    case Text(_, rest) => MarkersAreHeadings(rest);
    case Void(_, _, rest) => MarkersAreHeadings(rest);
    case Element(_, _, children, rest) =>
      MarkersAreHeadings(children);
      MarkersAreHeadings(rest);
  }

  lemma {:induction false} EarlyBeforeMarker(f: Forest)
    requires NoNestedTranscript(f, true)
    ensures TextEarly(f, true, false, false, false) > 0 <==> EarlyInContainer(f)
    decreases f
  {
    match f
    case Empty =>
    case Text(_, rest) => EarlyBeforeMarker(rest);
    case Void(_, _, rest) => EarlyBeforeMarker(rest);
    case Element(tag, attrs, children, rest) =>
      var open' := IsMarker(tag, attrs);
      EarlyBeforeMarker(children);
      EarlyInMarker(children);
      WalkedIsMarker(children, false);
      FlagsAfter(children, open', false);
      var next := Closing(tag, attrs, TextSeen(children, true, open', false));
      EarlyBeforeMarker(rest);
      NothingEarlyOnceWalked(rest, next.open);
  }

  lemma {:induction false} EarlyOutside(f: Forest)
    requires NoNestedTranscript(f, false)
    ensures TextEarly(f, false, false, false, false) > 0 <==> EarlyOnPage(f)
    ensures !TranscriptText(f, false, false).1
    decreases f
  {
    match f
    case Empty =>
    case Text(_, rest) => EarlyOutside(rest);
    case Void(_, _, rest) => EarlyOutside(rest);
    case Element(tag, attrs, children, rest) =>
      var container := IsTranscript(tag, attrs);
      if container {
        EarlyBeforeMarker(children);
      } else {
        EarlyOutside(children);
      }
      MarkersClose(children, container, false, false);
      EarlyOutside(rest);
  }

  const FRESH_INFO := Info(0, NoHeading, [], [], [])
  const FRESH_TRANSCRIPT := Transcript(0, false, false, [])

  /** A page without nested containers: the transcript read is that of the recursive
      walk if and only if in no container text stands between the end of an `h3` nested
      in its first marker and the first end of a marker; in particular when no marker
      heading contains an `h3`. */
  lemma TranscriptIsRecursiveWalkIff(f: Forest)
    requires Closed(f, {DIV, MARKER}) && NoNestedTranscript(f, false)
    ensures var read := TranscriptFeed(FRESH_TRANSCRIPT, Tokens(f));
            && read.depth == 0 && !read.started
            && (read.parts == TranscriptText(f, false, false).0 <==> !EarlyOnPage(f))
    ensures PlainMarkers(f) ==> !EarlyOnPage(f)
  {
    MachineIsThreadedWalk(f, FRESH_TRANSCRIPT);
    MarkersClose(f, false, false, false);
    SeenIsWalkedPlusEarly(f, false, false, false, false);
    EarlyOutside(f);
    if PlainMarkers(f) {
      NothingEarly(f, false, false, false);
    }
  }

  /** A page without nested info containers: title parts, byline parts and date parts are
      those of the recursive walk, each if and only if no text of its heading stands after
      the end of a heading nested in it. */
  lemma HeadingsAreRecursiveWalkIff(f: Forest)
    requires Closed(f, HEADINGS + {DIV}) && NoNestedInfo(f, false)
    ensures var read := InfoFeed(FRESH_INFO, Tokens(f));
            && read.depth == 0 && read.capture == NoHeading
            && (read.titles == HeadingText(f, H1, false, NoHeading) <==> !CutOnPage(f, H1, false))
            && (read.bylines == HeadingText(f, H4, false, NoHeading) <==> !CutOnPage(f, H4, false))
            && (read.dates == HeadingText(f, H5, false, NoHeading) <==> !CutOnPage(f, H5, false))
  {
    InfoIsCapturingWalk(f, FRESH_INFO);
    OneHeading(f, H1);
    OneHeading(f, H4);
    OneHeading(f, H5);
    hide InfoFeed, HeadingSeen, HeadingText, CutOnPage;
  }

  lemma OneHeading(f: Forest, wanted: Tag)
    ensures HeadingSeen(f, wanted, false, NoHeading) == HeadingText(f, wanted, false, NoHeading) <==> !CutOnPage(f, wanted, false)
  {
    SeenPlusLost(f, wanted, false, NoHeading, NoHeading);
    LostOnPage(f, wanted, false);
  }

  /** In particular where headings do not nest either. */
  lemma HeadingsAreRecursiveWalk(f: Forest)
    requires Closed(f, HEADINGS + {DIV}) && PlainInfo(f, false, false)
    ensures InfoFeed(FRESH_INFO, Tokens(f))
            == Info(0, NoHeading,
                    HeadingText(f, H1, false, NoHeading),
                    HeadingText(f, H4, false, NoHeading),
                    HeadingText(f, H5, false, NoHeading))
  {
    PlainHeadings(f, false, false);
    HeadingsAreRecursiveWalkIff(f);
  }

  /** A nested info container, `<div info><div info></div><h1>title`: its end ends the
      outer one, and the title is not read. */
  lemma NestedInfoStopsHeadings(info: Attrs, plain: Attrs, value: string)
    requires IsInfo(DIV, info) && value != ""
    ensures var page := Element(DIV, info, Element(DIV, info, Empty, Element(H1, plain, Text(value, Empty), Empty)), Empty);
            && HeadingText(page, H1, false, NoHeading) == [value]
            && InfoFeed(FRESH_INFO, Tokens(page)).titles == []
  {
    var title := Element(H1, plain, Text(value, Empty), Empty);
    var inner := Element(DIV, info, Empty, title);
    var page := Element(DIV, info, inner, Empty);
    assert HeadingText(Text(value, Empty), H1, true, Heading(H1)) == [value];
    assert HeadingText(title, H1, true, NoHeading) == [value];
    assert HeadingText(inner, H1, true, NoHeading) == [value];
    var open := Info(1, NoHeading, [], [], []);
    var out := FRESH_INFO.(depth := 0);
    assert InfoStep(FRESH_INFO, Start(DIV, info)) == open == InfoStep(open, Start(DIV, info));
    assert InfoStep(open, End(DIV)) == out == InfoStep(out, End(DIV));
    assert InfoStep(out, Start(H1, plain)) == out == InfoStep(out, End(H1)) && InfoStep(out, Data(value)) == out;
    assert InfoFeed(out, Tokens(Text(value, Empty))) == out by {
      assert Tokens(Text(value, Empty)) == [Data(value)];
    }
    assert InfoFeed(out, Tokens(title)) == out by {
      InfoJoins(H1, plain, Text(value, Empty), Empty, out, out, out, out);
    }
    InfoJoins(DIV, info, Empty, title, open, open, out, out);
    InfoJoins(DIV, info, inner, Empty, FRESH_INFO, open, out, out);
  }

  /** The failing family on its smallest page, `<div transcript><h3 marker><h3></h3>text`:
      text of the heading itself is read as transcript once a nested `h3` has ended. */
  lemma NestedHeadingReadEarly(container: Attrs, marker: Attrs, plain: Attrs, value: string)
    requires IsTranscript(DIV, container) && IsMarker(MARKER, marker) && !IsMarker(MARKER, plain) && value != ""
    ensures var heading := Element(MARKER, marker, Element(MARKER, plain, Empty, Text(value, Empty)), Empty);
            var page := Element(DIV, container, heading, Empty);
            && TranscriptText(page, false, false).0 == []
            && TranscriptFeed(FRESH_TRANSCRIPT, Tokens(page)).parts == [value]
  {
    var text := Text(value, Empty);
    var inner := Element(MARKER, plain, Empty, text);
    var heading := Element(MARKER, marker, inner, Empty);
    var page := Element(DIV, container, heading, Empty);
    assert Closed(text, {DIV, MARKER}) && Closed(inner, {DIV, MARKER}) && Closed(heading, {DIV, MARKER});
    assert NoNestedTranscript(text, true) && NoNestedTranscript(inner, true) && NoNestedTranscript(heading, true);
    MachineIsThreadedWalk(page, FRESH_TRANSCRIPT);
    assert TextSeen(Empty, true, true, false) == Seen([], true, false);
    assert TextSeen(text, true, false, true) == Seen([value], false, true);
    assert TextSeen(inner, true, true, false) == Seen([value], false, true);
    assert TextSeen(heading, true, false, false) == Seen([value], false, true);
    assert TranscriptText(Empty, true, false) == ([], false);
    assert Part(value, false) + TranscriptText(Empty, true, false).0 == [];
    assert TranscriptText(text, true, false) == ([], false);
    assert TranscriptText(inner, true, false) == ([], false);
    assert TranscriptText(heading, true, false) == ([], true);
    assert TextSeen(page, false, false, false) == Seen([value], false, false);
  }
}
