/** The streaming parser of the transcript index: a depth counter over start and end
    tags that must collect what a recursive walk of the page would. */
module TranscriptIndex {
  import opened Markup

  const ITEM := Li
  const ANCHOR := A

  predicate IsPreview(tag: Tag, attrs: Attrs) {
    tag == ITEM && "podcast-preview" in attrs.classes
  }

  /** A link worth keeping: an anchor with a root-relative target. */
  function LinkOf(tag: Tag, attrs: Attrs): seq<string> {
    if tag == ANCHOR && attrs.href != "" && attrs.href[0] == '/' then [attrs.href] else []
  }

  datatype State = State(depth: int, links: seq<string>)

  function Step(s: State, token: Token): State {
    match token
    case Start(tag, attrs) =>
      if IsPreview(tag, attrs) then
        s.(depth := 1)
      else
        var depth := if s.depth != 0 && tag == ITEM then s.depth + 1 else s.depth;
        State(depth, if depth != 0 then Extend(s.links, LinkOf(tag, attrs)) else s.links)
    case End(tag) => if s.depth != 0 && tag == ITEM then s.(depth := s.depth - 1) else s
    case Data(_) => s
  }

  function Feed(s: State, tokens: seq<Token>): State
    decreases |tokens|
  {
    if tokens == [] then s else Feed(Step(s, tokens[0]), tokens[1..])
  }

  class Parser {
    var previewDepth: int
    var links: seq<string>

    function View(): State
      reads this
    {
      State(previewDepth, links)
    }

    constructor ()
      ensures View() == State(0, [])
    {
      previewDepth, links := 0, [];
    }

    method HandleStartTag(tag: Tag, attrs: Attrs)
      modifies this
      ensures View() == Step(old(View()), Start(tag, attrs))
      ensures old(previewDepth) == 0 ==> (previewDepth != 0 <==> tag == Li && "podcast-preview" in attrs.classes)
      ensures links == old(links)
              || (links == old(links) + [attrs.href] && tag == A && previewDepth != 0
                  && attrs.href != "" && attrs.href[0] == '/' && attrs.href !in old(links))
      ensures tag == A && old(previewDepth) != 0 && attrs.href != "" && attrs.href[0] == '/' ==> attrs.href in links
    {
      if IsPreview(tag, attrs) {
        previewDepth := 1;
        return;
      }
      if previewDepth != 0 && tag == ITEM {
        previewDepth := previewDepth + 1;
      }
      if previewDepth != 0 && tag == ANCHOR {
        var href := attrs.href;
        ExtendOne(links, href);
        if href != "" && href[0] == '/' && href !in links {
          links := links + [href];
        }
      }
    }

    method HandleEndTag(tag: Tag)
      modifies this
      ensures View() == Step(old(View()), End(tag))
    {
      if previewDepth != 0 && tag == ITEM {
        previewDepth := previewDepth - 1;
      }
    }

    method Run(tokens: seq<Token>)
      modifies this
      ensures View() == Feed(old(View()), tokens)
    {
      for i := 0 to |tokens|
        invariant Feed(View(), tokens[i..]) == Feed(old(View()), tokens)
      {
        assert tokens[i..][0] == tokens[i] && tokens[i..][1..] == tokens[i + 1..];
        match tokens[i]
        case Start(tag, attrs) => HandleStartTag(tag, attrs);
        case End(tag) => HandleEndTag(tag);
        case Data(_) =>
      }
    }
  }

  /** The reference: a recursive walk that passes "inside a preview" down the tree. */
  function LinksInside(f: Forest, inside: bool): seq<string> {
    match f
    case Empty => []
    case Text(_, rest) => LinksInside(rest, inside)
    case Void(tag, attrs, rest) => (if inside then LinkOf(tag, attrs) else []) + LinksInside(rest, inside)
    case Element(tag, attrs, children, rest) =>
      (if inside then LinkOf(tag, attrs) else [])
      + LinksInside(children, inside || IsPreview(tag, attrs))
      + LinksInside(rest, inside)
  }

  predicate HasPreview(f: Forest) {
    match f
    case Empty => false
    case Text(_, rest) => HasPreview(rest)
    case Void(_, _, rest) => HasPreview(rest)
    case Element(tag, attrs, children, rest) => IsPreview(tag, attrs) || HasPreview(children) || HasPreview(rest)
  }

  predicate NoNestedPreview(f: Forest) {
    match f
    case Empty => true
    case Text(_, rest) => NoNestedPreview(rest)
    case Void(_, _, rest) => NoNestedPreview(rest)
    case Element(tag, attrs, children, rest) =>
      && (IsPreview(tag, attrs) ==> !HasPreview(children))
      && NoNestedPreview(children)
      && NoNestedPreview(rest)
  }

  /** What the counter really sees: it is switched off by the end of any preview, so
      `active` threads through the walk instead of being handed down. */
  function LinksSeen(f: Forest, active: bool): seq<string> {
    match f
    case Empty => []
    case Text(_, rest) => LinksSeen(rest, active)
    case Void(tag, attrs, rest) => (if active then LinkOf(tag, attrs) else []) + LinksSeen(rest, active)
    case Element(tag, attrs, children, rest) =>
      (if active then LinkOf(tag, attrs) else [])
      + LinksSeen(children, active || IsPreview(tag, attrs))
      + LinksSeen(rest, active && !IsPreview(tag, attrs) && !HasPreview(children))
  }

  /** How many links stand in a preview, but after another preview closed inside it. */
  function LinksLost(f: Forest, inside: bool, active: bool): nat {
    match f
    case Empty => 0
    case Text(_, rest) => LinksLost(rest, inside, active)
    case Void(tag, attrs, rest) =>
      (if inside && !active then |LinkOf(tag, attrs)| else 0) + LinksLost(rest, inside, active)
    case Element(tag, attrs, children, rest) =>
      var preview := IsPreview(tag, attrs);
      (if inside && !active then |LinkOf(tag, attrs)| else 0)
      + LinksLost(children, inside || preview, active || preview)
      + LinksLost(rest, inside, active && !preview && !HasPreview(children))
  }

  lemma {:induction false} FeedConcat(s: State, a: seq<Token>, b: seq<Token>)
    ensures Feed(s, a + b) == Feed(Feed(s, a), b)
    decreases |a|
  {
    if a == [] {
      assert a + b == b;
    } else {
      assert (a + b)[1..] == a[1..] + b;
      FeedConcat(Step(s, a[0]), a[1..], b);
    }
  }

  /** On arbitrary token streams, matched or not, the depth never goes negative. */
  lemma {:induction false} DepthNonNegative(s: State, tokens: seq<Token>)
    requires s.depth >= 0
    ensures Feed(s, tokens).depth >= 0
    decreases |tokens|
  {
    if tokens != [] {
      DepthNonNegative(Step(s, tokens[0]), tokens[1..]);
    }
  }

  /** On every tree, nested previews included, the counter machine is the threaded walk. */
  lemma {:induction false} MachineIsThreadedWalk(f: Forest, s: State)
    requires Closed(f, {ITEM}) && s.depth >= 0
    ensures Feed(s, Tokens(f)) == State(if HasPreview(f) then 0 else s.depth, Extend(s.links, LinksSeen(f, s.depth != 0)))
    decreases f
  {
    match f
    case Empty =>
    case Text(value, rest) =>
      MachineIsThreadedWalk(rest, s);
      assert Tokens(f)[1..] == Tokens(rest);
    case Void(tag, attrs, rest) =>
      var s' := Step(s, Start(tag, attrs));
      assert Tokens(f)[1..] == Tokens(rest);
      MachineIsThreadedWalk(rest, s');
      ExtendConcat(s.links, if s.depth != 0 then LinkOf(tag, attrs) else [], LinksSeen(rest, s.depth != 0));
    case Element(tag, attrs, children, rest) =>
      ElementStep(tag, attrs, children, rest, s);
  }

  lemma {:induction false} ElementStep(tag: Tag, attrs: Attrs, children: Forest, rest: Forest, s: State)
    requires Closed(children, {ITEM}) && Closed(rest, {ITEM}) && s.depth >= 0
    ensures var f := Element(tag, attrs, children, rest);
            Feed(s, Tokens(f)) == State(if HasPreview(f) then 0 else s.depth, Extend(s.links, LinksSeen(f, s.depth != 0)))
    decreases Element(tag, attrs, children, rest), 0
  {
    var f := Element(tag, attrs, children, rest);
    var own := if s.depth != 0 then LinkOf(tag, attrs) else [];
    var preview := IsPreview(tag, attrs);
    var s1 := Step(s, Start(tag, attrs));
    assert s1.links == Extend(s.links, own);
    var s2 := Feed(s1, Tokens(children));
    MachineIsThreadedWalk(children, s1);
    var s3 := Step(s2, End(tag));
    MachineIsThreadedWalk(rest, s3);
    var inner := LinksSeen(children, s1.depth != 0);
    var later := LinksSeen(rest, s3.depth != 0);
    ExtendConcat(s.links, own, inner);
    ExtendConcat(s.links, own + inner, later);
    assert own + inner + later == LinksSeen(f, s.depth != 0);
    FourParts(s, Start(tag, attrs), Tokens(children), End(tag), Tokens(rest));
  }

  lemma FourParts(s: State, start: Token, inner: seq<Token>, end: Token, later: seq<Token>)
    ensures Feed(s, [start] + inner + [end] + later) == Feed(Step(Feed(Step(s, start), inner), end), later)
  {
    assert ([start] + inner + [end] + later)[1..] == inner + ([end] + later);
    FeedConcat(Step(s, start), inner, [end] + later);
    assert ([end] + later)[1..] == later;
  }

  /** Conservation: the walk finds what the machine sees plus what it loses. */
  lemma {:induction false} SeenPlusLost(f: Forest, inside: bool, active: bool)
    requires active ==> inside
    ensures |LinksInside(f, inside)| == |LinksSeen(f, active)| + LinksLost(f, inside, active)
    ensures LinksLost(f, inside, active) == 0 ==> LinksInside(f, inside) == LinksSeen(f, active)
    decreases f
  {
    match f
    case Empty =>
    case Text(_, rest) => SeenPlusLost(rest, inside, active);
    case Void(_, _, rest) => SeenPlusLost(rest, inside, active);
    case Element(tag, attrs, children, rest) =>
      var preview := IsPreview(tag, attrs);
      SeenPlusLost(children, inside || preview, active || preview);
      SeenPlusLost(rest, inside, active && !preview && !HasPreview(children));
  }

  lemma {:induction false} NothingLost(f: Forest, inside: bool)
    requires NoNestedPreview(f) && (inside ==> !HasPreview(f))
    ensures LinksLost(f, inside, inside) == 0
    decreases f
  {
    match f
    case Empty =>
    case Text(_, rest) => NothingLost(rest, inside);
    case Void(_, _, rest) => NothingLost(rest, inside);
    case Element(tag, attrs, children, rest) =>
      NothingLost(children, inside || IsPreview(tag, attrs));
      NothingLost(rest, inside);
  }

  /** The previews of a page and the links in them, ordinary elements left out. */
  datatype Item = Link(href: string) | Preview(items: seq<Item>)

  function Links(tag: Tag, attrs: Attrs): (r: seq<Item>)
    ensures |r| == |LinkOf(tag, attrs)| && forall i :: 0 <= i < |r| ==> r[i] == Link(LinkOf(tag, attrs)[i])
  {
    if LinkOf(tag, attrs) == [] then [] else [Link(attrs.href)]
  }

  function Outline(f: Forest): seq<Item> {
    match f
    case Empty => []
    case Text(_, rest) => Outline(rest)
    case Void(tag, attrs, rest) => Links(tag, attrs) + Outline(rest)
    case Element(tag, attrs, children, rest) =>
      (if IsPreview(tag, attrs) then [Preview(Outline(children))] else Links(tag, attrs) + Outline(children)) + Outline(rest)
  }

  /** A link of a preview is late when a preview nested in the same one ends before it. */
  predicate Late(items: seq<Item>, j: nat)
    requires j <= |items|
  {
    exists i :: 0 <= i < j && items[i].Preview?
  }

  datatype Mark = Mark(href: string, late: bool)

  /** The links of a preview in page order, those of nested previews included. */
  function Marks(items: seq<Item>): seq<Mark> {
    if items == [] then []
    else Marks(items[..|items| - 1]) + MarksOf(items[|items| - 1], Late(items, |items| - 1))
  }

  function MarksOf(item: Item, late: bool): seq<Mark> {
    match item
    case Link(href) => [Mark(href, late)]
    case Preview(items) => Marks(items)
  }

  /** The links of a page that stand in a preview. */
  function PageMarks(items: seq<Item>): seq<Mark> {
    if items == [] then
      []
    else
      var last := items[|items| - 1];
      PageMarks(items[..|items| - 1]) + if last.Preview? then Marks(last.items) else []
  }

  function Hrefs(ms: seq<Mark>): seq<string> {
    seq(|ms|, i requires 0 <= i < |ms| => ms[i].href)
  }

  function OnTime(ms: seq<Mark>): seq<string> {
    if ms == [] then
      []
    else
      var last := ms[|ms| - 1];
      OnTime(ms[..|ms| - 1]) + if last.late then [] else [last.href]
  }

  lemma {:induction false} OnTimeConcat(a: seq<Mark>, b: seq<Mark>)
    ensures OnTime(a + b) == OnTime(a) + OnTime(b)
  {
    if b == [] {
      assert a + b == a;
    } else {
      var init, last := b[..|b| - 1], b[|b| - 1];
      OnTimeConcat(a, init);
      var own := if last.late then [] else [last.href];
      assert (a + b)[..|a + b| - 1] == a + init && (a + b)[|a + b| - 1] == last;
      assert OnTime(a + b) == OnTime(a + init) + own && OnTime(b) == OnTime(init) + own;
      hide OnTime;
      assert OnTime(a) + OnTime(init) + own == OnTime(a) + (OnTime(init) + own);
    }
  }

  lemma {:induction false} PageMarksConcat(a: seq<Item>, b: seq<Item>)
    ensures PageMarks(a + b) == PageMarks(a) + PageMarks(b)
  {
    hide Marks;
    if b == [] {
      assert a + b == a;
    } else {
      var init, last := b[..|b| - 1], b[|b| - 1];
      PageMarksConcat(a, init);
      assert (a + b)[..|a + b| - 1] == a + init;
      var tail := if last.Preview? then Marks(last.items) else [];
      assert PageMarks(a) + PageMarks(init) + tail == PageMarks(a) + (PageMarks(init) + tail);
    }
  }

  lemma {:induction false} HrefsConcat(a: seq<Item>, b: seq<Item>)
    ensures Hrefs(Marks(a + b)) == Hrefs(Marks(a)) + Hrefs(Marks(b))
  {
    hide Late, MarksOf, Hrefs;
    if b == [] {
      NoMarks();
      assert a + b == a;
    } else {
      var init, last := b[..|b| - 1], b[|b| - 1];
      HrefsConcat(a, init);
      assert (a + b)[..|a + b| - 1] == a + init;
      HrefsSnoc(a + b);
      HrefsSnoc(b);
      hide Marks;
      assert Hrefs(Marks(a + b)) == Hrefs(Marks(a)) + (Hrefs(Marks(init)) + Hrefs(MarksOf(last, false)));
    }
  }

  lemma HrefsSnoc(items: seq<Item>)
    requires items != []
    ensures var init, last := items[..|items| - 1], items[|items| - 1];
            Hrefs(Marks(items)) == Hrefs(Marks(init)) + Hrefs(MarksOf(last, false))
  {
    var last := items[|items| - 1];
    SameHrefs(last, Late(items, |items| - 1), false);
    HrefsAppend(Marks(items[..|items| - 1]), MarksOf(last, Late(items, |items| - 1)));
    hide Hrefs, MarksOf, Late;
  }

  lemma SameHrefs(item: Item, late: bool, late': bool)
    ensures Hrefs(MarksOf(item, late)) == Hrefs(MarksOf(item, late'))
  {
  }

  lemma HrefsAppend(a: seq<Mark>, b: seq<Mark>)
    ensures Hrefs(a + b) == Hrefs(a) + Hrefs(b)
  {
  }

  lemma MarksSnoc(items: seq<Item>)
    requires items != []
    ensures var init, last := items[..|items| - 1], items[|items| - 1];
            && OnTime(Marks(items)) == OnTime(Marks(init)) + OnTime(MarksOf(last, Late(items, |items| - 1)))
            && OnTime(PageMarks(items)) == OnTime(PageMarks(init)) + OnTime(MarksOf(last, true))
  {
    hide Late, OnTime;
    var init, last := items[..|items| - 1], items[|items| - 1];
    LateOwn(last);
    OnTimeConcat(Marks(init), MarksOf(last, Late(items, |items| - 1)));
    OnTimeConcat(PageMarks(init), if last.Preview? then Marks(last.items) else []);
  }

  /** In the second of two parts the own links are late once the first has a preview. */
  lemma {:induction false} MarksConcat(a: seq<Item>, b: seq<Item>)
    ensures OnTime(Marks(a + b)) == OnTime(Marks(a)) + if Late(a, |a|) then OnTime(PageMarks(b)) else OnTime(Marks(b))
  {
    hide Late, OnTime, MarksOf;
    if b == [] {
      NoMarks();
      assert a + b == a;
    } else {
      hide Marks, PageMarks;
      var init := b[..|b| - 1];
      MarksConcat(a, init);
      assert (a + b)[..|a + b| - 1] == a + init;
      LateConcat(a, b);
      MarksSnoc(a + b);
      MarksSnoc(b);
    }
  }

  lemma NoMarks()
    ensures Hrefs(Marks([])) == OnTime(Marks([])) == OnTime(PageMarks([])) == []
  {
  }

  lemma LateOwn(item: Item)
    ensures OnTime(MarksOf(item, true)) == OnTime(if item.Preview? then Marks(item.items) else [])
    ensures item.Preview? ==> MarksOf(item, true) == MarksOf(item, false)
  {
    if item.Link? {
      assert MarksOf(item, true)[..0] == [];
    }
  }

  lemma LateConcat(a: seq<Item>, b: seq<Item>)
    requires b != []
    ensures Late(a + b, |a + b| - 1) <==> Late(a, |a|) || Late(b, |b| - 1)
  {
    if Late(b, |b| - 1) {
      var i :| 0 <= i < |b| - 1 && b[i].Preview?;
      assert (a + b)[|a| + i].Preview?;
    }
    if Late(a, |a|) {
      var i :| 0 <= i < |a| && a[i].Preview?;
      assert (a + b)[i].Preview?;
    }
  }

  /** The outline says what the walk finds and what the machine visits. */
  ghost predicate Describes(items: seq<Item>, f: Forest) {
    && LinksInside(f, true) == Hrefs(Marks(items)) && LinksInside(f, false) == Hrefs(PageMarks(items))
    && LinksSeen(f, true) == OnTime(Marks(items)) && LinksSeen(f, false) == OnTime(PageMarks(items))
    && (HasPreview(f) <==> Late(items, |items|))
  }

  lemma {:induction false} Outlined(f: Forest)
    ensures Describes(Outline(f), f)
    decreases f
  {
    match f
    case Empty =>
    case Text(_, rest) => Outlined(rest);
    case Void(tag, attrs, rest) =>
      Outlined(rest);
      OwnLinks(tag, attrs);
      Joined(Links(tag, attrs), Outline(rest));
      hide Marks, PageMarks, OnTime, Late, Hrefs, Links, LinkOf;
    case Element(tag, attrs, children, rest) =>
      Outlined(children);
      Outlined(rest);
      if IsPreview(tag, attrs) {
        PreviewOutlined(tag, attrs, children, rest);
      } else {
        ElementOutlined(tag, attrs, children, rest);
      }
  }

  lemma PreviewOutlined(tag: Tag, attrs: Attrs, children: Forest, rest: Forest)
    requires IsPreview(tag, attrs) && Describes(Outline(children), children) && Describes(Outline(rest), rest)
    ensures Describes(Outline(Element(tag, attrs, children, rest)), Element(tag, attrs, children, rest))
  {
    hide Marks, PageMarks, OnTime, Late, Hrefs, Links;
    var one := [Preview(Outline(children))];
    assert LinkOf(tag, attrs) == [];
    OnePreview(Outline(children));
    Joined(one, Outline(rest));
    assert Outline(Element(tag, attrs, children, rest)) == one + Outline(rest);
  }

  lemma ElementOutlined(tag: Tag, attrs: Attrs, children: Forest, rest: Forest)
    requires !IsPreview(tag, attrs) && Describes(Outline(children), children) && Describes(Outline(rest), rest)
    ensures Describes(Outline(Element(tag, attrs, children, rest)), Element(tag, attrs, children, rest))
  {
    OwnLinks(tag, attrs);
    Joined(Links(tag, attrs), Outline(children));
    Joined(Links(tag, attrs) + Outline(children), Outline(rest));
    hide Marks, PageMarks, OnTime, Late, Hrefs, Links, LinkOf;
  }

  lemma Joined(a: seq<Item>, b: seq<Item>)
    ensures Hrefs(Marks(a + b)) == Hrefs(Marks(a)) + Hrefs(Marks(b))
    ensures Hrefs(PageMarks(a + b)) == Hrefs(PageMarks(a)) + Hrefs(PageMarks(b))
    ensures OnTime(Marks(a + b)) == OnTime(Marks(a)) + if Late(a, |a|) then OnTime(PageMarks(b)) else OnTime(Marks(b))
    ensures OnTime(PageMarks(a + b)) == OnTime(PageMarks(a)) + OnTime(PageMarks(b))
    ensures Late(a + b, |a + b|) <==> Late(a, |a|) || Late(b, |b|)
  {
    HrefsConcat(a, b);
    PageMarksConcat(a, b);
    MarksConcat(a, b);
    OnTimeConcat(PageMarks(a), PageMarks(b));
    hide Marks, PageMarks, OnTime;
    forall i | 0 <= i < |b| && b[i].Preview?
      ensures Late(a + b, |a + b|)
    {
      assert (a + b)[|a| + i].Preview?;
    }
    forall i | 0 <= i < |a| && a[i].Preview?
      ensures Late(a + b, |a + b|)
    {
      assert (a + b)[i].Preview?;
    }
  }

  lemma OwnLinks(tag: Tag, attrs: Attrs)
    ensures var own := Links(tag, attrs);
            && Hrefs(Marks(own)) == OnTime(Marks(own)) == LinkOf(tag, attrs)
            && Hrefs(PageMarks(own)) == OnTime(PageMarks(own)) == [] && !Late(own, |own|)
  {
    var own := Links(tag, attrs);
    if own != [] {
      assert own[..0] == [];
      assert Marks(own) == [Mark(attrs.href, false)];
      assert [Mark(attrs.href, false)][..0] == [];
    }
  }

  lemma OnePreview(inner: seq<Item>)
    ensures var items := [Preview(inner)];
            Marks(items) == Marks(inner) && PageMarks(items) == Marks(inner) && Late(items, |items|)
  {
    var items := [Preview(inner)];
    assert items[..0] == [];
    assert items[0].Preview?;
  }

  /** Among the first k marks, a link with this target; one that is on time. */
  predicate Mentioned(ms: seq<Mark>, k: nat, href: string)
    requires k <= |ms|
  {
    exists q :: 0 <= q < k && ms[q].href == href
  }

  predicate Visited(ms: seq<Mark>, k: nat, href: string)
    requires k <= |ms|
  {
    exists q :: 0 <= q < k && ms[q].href == href && !ms[q].late
  }

  /** The p-th link stands somewhere on time. */
  predicate OnTimeOnce(ms: seq<Mark>, p: nat)
    requires p < |ms|
  {
    Visited(ms, |ms|, ms[p].href)
  }

  /** The r-th link, if on time, does not overtake another link that came before its first
      appearance and has so far only been late. */
  predicate InTurn(ms: seq<Mark>, r: nat)
    requires r < |ms|
  {
    ms[r].late || forall p :: 0 <= p < r && !Mentioned(ms, p + 1, ms[r].href) ==> Visited(ms, r, ms[p].href)
  }

  /** Every link stands somewhere on time, and none is overtaken. */
  predicate InOrder(ms: seq<Mark>) {
    forall p :: 0 <= p < |ms| ==> OnTimeOnce(ms, p) && InTurn(ms, p)
  }

  /** The first appearances among the first k marks, and among those on time. */
  function First(ms: seq<Mark>, k: nat): seq<string>
    requires k <= |ms|
  {
    if k == 0 then []
    else if ms[k - 1].href in First(ms, k - 1) then First(ms, k - 1)
    else First(ms, k - 1) + [ms[k - 1].href]
  }

  function FirstVisits(ms: seq<Mark>, k: nat): seq<string>
    requires k <= |ms|
  {
    if k == 0 then []
    else if ms[k - 1].late || ms[k - 1].href in FirstVisits(ms, k - 1) then FirstVisits(ms, k - 1)
    else FirstVisits(ms, k - 1) + [ms[k - 1].href]
  }

  lemma MentionedStep(ms: seq<Mark>, k: nat, h: string)
    requires k < |ms|
    ensures Mentioned(ms, k + 1, h) <==> Mentioned(ms, k, h) || ms[k].href == h
  {
  }

  lemma {:induction false} FirstDistinct(ms: seq<Mark>, k: nat)
    requires k <= |ms|
    ensures Distinct(First(ms, k))
  {
    if k > 0 {
      FirstDistinct(ms, k - 1);
    }
  }

  lemma {:induction false} MentionedIff(ms: seq<Mark>, k: nat, h: string)
    requires k <= |ms|
    ensures h in First(ms, k) <==> Mentioned(ms, k, h)
  {
    if k > 0 {
      MentionedIff(ms, k - 1, h);
    }
  }

  lemma {:induction false} VisitedIff(ms: seq<Mark>, k: nat, h: string)
    requires k <= |ms|
    ensures h in FirstVisits(ms, k) <==> Visited(ms, k, h)
  {
    if k > 0 {
      VisitedIff(ms, k - 1, h);
    }
  }

  lemma {:induction false} FirstIsDedup(ms: seq<Mark>, k: nat)
    requires k <= |ms|
    ensures First(ms, k) == Dedup(Hrefs(ms[..k]))
  {
    if k > 0 {
      FirstIsDedup(ms, k - 1);
      ExtendIsDedup(Hrefs(ms[..k - 1]));
      assert Hrefs(ms[..k])[..k - 1] == Hrefs(ms[..k - 1]);
    }
  }

  lemma {:induction false} VisitsAreDedup(ms: seq<Mark>, k: nat)
    requires k <= |ms|
    ensures FirstVisits(ms, k) == Dedup(OnTime(ms[..k]))
  {
    if k == 0 {
      assert ms[..0] == [];
    } else {
      VisitsAreDedup(ms, k - 1);
      VisitsSnoc(ms, k);
    }
  }

  lemma OnTimeSnoc(ms: seq<Mark>, k: nat)
    requires 0 < k <= |ms|
    ensures OnTime(ms[..k]) == if ms[k - 1].late then OnTime(ms[..k - 1]) else OnTime(ms[..k - 1]) + [ms[k - 1].href]
  {
    assert ms[..k][..k - 1] == ms[..k - 1];
  }

  lemma VisitsSnoc(ms: seq<Mark>, k: nat)
    requires 0 < k <= |ms| && FirstVisits(ms, k - 1) == Dedup(OnTime(ms[..k - 1]))
    ensures FirstVisits(ms, k) == Dedup(OnTime(ms[..k]))
  {
    hide Dedup, OnTime;
    OnTimeSnoc(ms, k);
    DedupSnoc(OnTime(ms[..k - 1]), ms[k - 1].href);
  }

  lemma DedupSnoc(links: seq<string>, link: string)
    ensures Dedup(links + [link]) == if link in Dedup(links) then Dedup(links) else Dedup(links) + [link]
  {
    ExtendIsDedup(links);
    assert (links + [link])[..|links|] == links;
  }

  lemma {:induction false} FirstGrows(ms: seq<Mark>, j: nat, k: nat)
    requires j <= k <= |ms|
    ensures First(ms, j) <= First(ms, k) && FirstVisits(ms, j) <= FirstVisits(ms, k)
  {
    if j < k {
      FirstGrows(ms, j, k - 1);
    }
  }

  /** Only what is mentioned without `h` stands before `h` among the first appearances. */
  lemma {:induction false} FirstBefore(ms: seq<Mark>, k: nat, n: nat, h: string)
    requires k <= |ms| && n < |First(ms, k)| && h !in First(ms, k)[..n + 1]
    ensures exists p :: 0 <= p < k && ms[p].href == First(ms, k)[n] && !Mentioned(ms, p + 1, h)
  {
    if n < |First(ms, k - 1)| {
      assert First(ms, k)[..n + 1] == First(ms, k - 1)[..n + 1];
      FirstBefore(ms, k - 1, n, h);
    } else {
      assert First(ms, k)[..n] == First(ms, k - 1);
      MentionedIff(ms, k - 1, h);
      assert First(ms, k)[n] == ms[k - 1].href;
      MentionedStep(ms, k - 1, h);
    }
  }

  /** In order, what is collected is at every point a prefix of what is to be collected. */
  lemma {:induction false} InOrderPrefix(ms: seq<Mark>, k: nat)
    requires InOrder(ms) && k <= |ms|
    ensures FirstVisits(ms, k) <= First(ms, k)
  {
    if k > 0 {
      hide *;
      InOrderPrefix(ms, k - 1);
      NextInOrder(ms, k - 1);
      PrefixStep(ms, k);
    }
  }

  /** The next visit adds nothing, or what the walk adds, or what the walk added next. */
  predicate Follows(all: seq<string>, seen: seq<string>, m: Mark) {
    m.late || m.href in seen || |seen| >= |all| || all[|seen|] == m.href
  }

  lemma PrefixStep(ms: seq<Mark>, k: nat)
    requires 0 < k <= |ms| && FirstVisits(ms, k - 1) <= First(ms, k - 1)
    requires Follows(First(ms, k - 1), FirstVisits(ms, k - 1), ms[k - 1])
    ensures FirstVisits(ms, k) <= First(ms, k)
  {
  }

  lemma NextInOrder(ms: seq<Mark>, k: nat)
    requires InOrder(ms) && k < |ms| && FirstVisits(ms, k) <= First(ms, k)
    ensures Follows(First(ms, k), FirstVisits(ms, k), ms[k])
  {
    var all, seen := First(ms, k), FirstVisits(ms, k);
    FirstDistinct(ms, k);
    hide First, FirstVisits, InOrder, Distinct;
    if !Follows(all, seen, ms[k]) {
      NotYet(all, seen, ms[k].href);
      VisitedBeforeNew(ms, k, |seen|);
      NotAgain(all, seen);
    }
  }

  /** What stands before the first appearance of a link on time has been visited. */
  lemma VisitedBeforeNew(ms: seq<Mark>, k: nat, n: nat)
    requires InOrder(ms) && k < |ms| && !ms[k].late
    requires n < |First(ms, k)| && ms[k].href !in First(ms, k)[..n + 1]
    ensures First(ms, k)[n] in FirstVisits(ms, k)
  {
    hide First, FirstVisits, InOrder, Mentioned, Visited;
    FirstBefore(ms, k, n, ms[k].href);
    OvertakenVisited(ms, k, First(ms, k)[n]);
    VisitedIff(ms, k, First(ms, k)[n]);
  }

  lemma NotYet(all: seq<string>, seen: seq<string>, h: string)
    requires seen <= all && |seen| < |all| && h !in seen && all[|seen|] != h
    ensures h !in all[..|seen| + 1]
  {
    assert all[..|seen| + 1] == seen + [all[|seen|]];
  }

  lemma NotAgain(all: seq<string>, seen: seq<string>)
    requires Distinct(all) && seen <= all && |seen| < |all|
    ensures all[|seen|] !in seen
  {
  }

  lemma OvertakenVisited(ms: seq<Mark>, k: nat, u: string)
    requires InOrder(ms) && k < |ms| && !ms[k].late
    requires exists p :: 0 <= p < k && ms[p].href == u && !Mentioned(ms, p + 1, ms[k].href)
    ensures Visited(ms, k, u)
  {
    assert InTurn(ms, k);
    hide Visited, Mentioned;
    var p :| 0 <= p < k && ms[p].href == u && !Mentioned(ms, p + 1, ms[k].href);
  }

  /** The order of first visits is the order of first appearances exactly when no link is
      missed or overtaken. */
  lemma SameFirstAppearances(ms: seq<Mark>)
    ensures Dedup(OnTime(ms)) == Dedup(Hrefs(ms)) <==> InOrder(ms)
  {
    var k := |ms|;
    assert ms[..k] == ms;
    FirstIsDedup(ms, k);
    VisitsAreDedup(ms, k);
    if InOrder(ms) {
      InOrderPrefix(ms, k);
      AllVisited(ms);
    }
    if FirstVisits(ms, k) == First(ms, k) {
      SameIsInOrder(ms);
    }
  }

  lemma AllVisited(ms: seq<Mark>)
    requires InOrder(ms) && FirstVisits(ms, |ms|) <= First(ms, |ms|)
    ensures FirstVisits(ms, |ms|) == First(ms, |ms|)
  {
    var all, seen := First(ms, |ms|), FirstVisits(ms, |ms|);
    FirstDistinct(ms, |ms|);
    hide First, FirstVisits, InOrder, Distinct;
    if |seen| < |all| {
      EveryLinkVisited(ms, all[|seen|]);
      NotAgain(all, seen);
    }
  }

  lemma EveryLinkVisited(ms: seq<Mark>, h: string)
    requires InOrder(ms) && h in First(ms, |ms|)
    ensures h in FirstVisits(ms, |ms|)
  {
    MentionedIff(ms, |ms|, h);
    VisitedIff(ms, |ms|, h);
    hide Visited;
    var p :| 0 <= p < |ms| && ms[p].href == h;
    assert OnTimeOnce(ms, p);
  }

  lemma SameIsInOrder(ms: seq<Mark>)
    requires FirstVisits(ms, |ms|) == First(ms, |ms|)
    ensures InOrder(ms)
  {
    hide First, FirstVisits;
    forall r | 0 <= r < |ms|
      ensures OnTimeOnce(ms, r) && InTurn(ms, r)
    {
      AllSeen(ms, r);
      forall p | 0 <= p < r && !ms[r].late && !Mentioned(ms, p + 1, ms[r].href)
        ensures Visited(ms, r, ms[p].href)
      {
        NotOvertaken(ms, p, r);
      }
    }
  }

  lemma AllSeen(ms: seq<Mark>, r: nat)
    requires FirstVisits(ms, |ms|) == First(ms, |ms|) && r < |ms|
    ensures OnTimeOnce(ms, r)
  {
    assert Mentioned(ms, |ms|, ms[r].href);
    MentionedIff(ms, |ms|, ms[r].href);
    VisitedIff(ms, |ms|, ms[r].href);
  }

  lemma NotOvertaken(ms: seq<Mark>, p: nat, r: nat)
    requires FirstVisits(ms, |ms|) == First(ms, |ms|)
    requires p < r < |ms| && !ms[r].late && !Mentioned(ms, p + 1, ms[r].href)
    ensures Visited(ms, r, ms[p].href)
  {
    FirstAppearsLater(ms, p, r);
    VisitedBefore(ms, p, r);
  }

  lemma FirstAppearsLater(ms: seq<Mark>, p: nat, r: nat)
    requires p < r < |ms| && !Mentioned(ms, p + 1, ms[r].href)
    ensures ms[r].href !in First(ms, p + 1)
  {
    MentionedIff(ms, p + 1, ms[r].href);
  }

  lemma VisitedBefore(ms: seq<Mark>, p: nat, r: nat)
    requires FirstVisits(ms, |ms|) == First(ms, |ms|)
    requires p < r < |ms| && !ms[r].late && ms[r].href !in First(ms, p + 1)
    ensures Visited(ms, r, ms[p].href)
  {
    var all := First(ms, |ms|);
    FirstGrows(ms, p + 1, |ms|);
    FirstGrows(ms, r + 1, |ms|);
    FirstDistinct(ms, |ms|);
    hide First, FirstVisits, Distinct, Visited;
    SeenBefore(ms, p, r, all);
    VisitedIff(ms, r, ms[p].href);
  }

  lemma SeenBefore(ms: seq<Mark>, p: nat, r: nat, all: seq<string>)
    requires p < r < |ms| && !ms[r].late && ms[r].href !in First(ms, p + 1)
    requires Distinct(all) && First(ms, p + 1) <= all && FirstVisits(ms, r + 1) <= all
    ensures ms[p].href in FirstVisits(ms, r)
  {
    MentionedFirst(ms, p);
    VisitedFirst(ms, r, ms[p].href);
    hide First, FirstVisits, Distinct;
    EarlierElement(all, First(ms, p + 1), FirstVisits(ms, r + 1), ms[p].href, ms[r].href);
  }

  lemma MentionedFirst(ms: seq<Mark>, p: nat)
    requires p < |ms|
    ensures ms[p].href in First(ms, p + 1)
  {
  }

  lemma VisitedFirst(ms: seq<Mark>, r: nat, h: string)
    requires r < |ms| && !ms[r].late
    ensures ms[r].href in FirstVisits(ms, r + 1)
    ensures h in FirstVisits(ms, r + 1) && h != ms[r].href ==> h in FirstVisits(ms, r)
  {
  }

  /** Of two prefixes of a list without repeats, the one with `v` has `u`, if the other
      has `u` and not `v`. */
  lemma EarlierElement(all: seq<string>, first: seq<string>, seen: seq<string>, u: string, v: string)
    requires Distinct(all) && first <= all && seen <= all
    requires u in first && v !in first && v in seen
    ensures u in seen
  {
    var i :| 0 <= i < |first| && first[i] == u;
    var j :| 0 <= j < |seen| && seen[j] == v;
    assert forall m :: 0 <= m < |first| ==> first[m] == all[m];
    assert all[j] == v;
    assert seen[i] == all[i];
  }

  /** Every link is visited exactly when none is late. */
  lemma {:induction false} AllOnTime(ms: seq<Mark>)
    ensures |OnTime(ms)| <= |ms|
    ensures OnTime(ms) == Hrefs(ms) <==> NoneLate(ms)
  {
    if ms != [] {
      var init := ms[..|ms| - 1];
      AllOnTime(init);
      assert Hrefs(ms) == Hrefs(init) + [ms[|ms| - 1].href];
      assert forall p :: 0 <= p < |init| ==> init[p] == ms[p];
      if OnTime(ms) == Hrefs(ms) {
        assert OnTime(ms)[..|init|] == Hrefs(init);
      }
    }
  }

  predicate NoneLate(ms: seq<Mark>) {
    forall p :: 0 <= p < |ms| ==> !ms[p].late
  }

  /** The walk's links are visited one by one exactly when no link of a preview follows a
      preview nested in it. */
  lemma VisitsAllLinksIff(f: Forest)
    ensures LinksSeen(f, false) == LinksInside(f, false) <==> NoneLate(PageMarks(Outline(f)))
  {
    Outlined(f);
    AllOnTime(PageMarks(Outline(f)));
  }

  /** What the parser returns, on every page: the links of the recursive walk in
      first-appearance order exactly when no link is missed or overtaken. */
  lemma CollectsAllLinksIff(f: Forest)
    requires Closed(f, {ITEM})
    ensures Feed(State(0, []), Tokens(f)).links == Dedup(LinksInside(f, false)) <==> InOrder(PageMarks(Outline(f)))
  {
    MachineIsThreadedWalk(f, State(0, []));
    Outlined(f);
    var ms := PageMarks(Outline(f));
    ExtendIsDedup(OnTime(ms));
    SameFirstAppearances(ms);
  }

  /** The two conditions differ: a late link may repeat one that is on time, and then
      nothing is missing; and links that are all collected may come in another order. */
  lemma LateLinks(a: string, b: string)
    requires a != b
    ensures var ms := [Mark(a, false), Mark(a, true)]; InOrder(ms) && !NoneLate(ms)
    ensures var ms := [Mark(a, true), Mark(b, false), Mark(a, false)]; !InOrder(ms)
  {
    var repeated := [Mark(a, false), Mark(a, true)];
    assert repeated[0].href == a && repeated[1].late;
    var overtaken := [Mark(a, true), Mark(b, false), Mark(a, false)];
    assert !Visited(overtaken, 1, a);
    assert !Mentioned(overtaken, 1, b);
    assert overtaken[0].href == a && overtaken[1].href == b;
    assert !InTurn(overtaken, 1);
  }

  /** A page whose previews do not nest: the parser collects the root-relative links of
      the recursive walk, in first-appearance order and without repeats. */
  lemma ParserIsRecursiveWalk(f: Forest)
    requires Closed(f, {ITEM}) && NoNestedPreview(f)
    ensures Feed(State(0, []), Tokens(f)) == State(0, Dedup(LinksInside(f, false)))
  {
    MachineIsThreadedWalk(f, State(0, []));
    NothingLost(f, false);
    SeenPlusLost(f, false, false);
    ExtendIsDedup(LinksInside(f, false));
  }

  const PREVIEW := Attrs({"podcast-preview"}, "", "")

  /** The family that fails, on its smallest page: the link after a nested preview is
      inside the outer preview, and the parser misses it. */
  lemma NestedPreviewLosesLink()
    ensures var page := Element(ITEM, PREVIEW, Element(ITEM, PREVIEW, Empty, Element(ANCHOR, Attrs({}, "/late", ""), Empty, Empty)), Empty);
            && LinksInside(page, false) == ["/late"]
            && Feed(State(0, []), Tokens(page)).links == []
  {
    var anchor := Element(ANCHOR, Attrs({}, "/late", ""), Empty, Empty);
    var inner := Element(ITEM, PREVIEW, Empty, anchor);
    var page := Element(ITEM, PREVIEW, inner, Empty);
    assert LinkOf(ANCHOR, anchor.attrs) == ["/late"];
    assert LinksInside(anchor, true) == ["/late"];
    assert LinksInside(inner, true) == ["/late"];
    MachineIsThreadedWalk(page, State(0, []));
    assert LinksSeen(anchor, false) == [];
    assert LinksSeen(inner, true) == [];
  }
}
