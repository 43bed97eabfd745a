/** Element trees and the token streams an HTML tokenizer makes of them. */
module Markup {
  /** Tag names, compared for equality only. */
  datatype Tag = A | Li | Div | H1 | H3 | H4 | H5 | Other(name: string)

  /** The attributes the parsers look at; "" stands for an absent or empty value. */
  datatype Attrs = Attrs(classes: set<string>, href: string, id: string)

  /** A sequence of sibling nodes. A void node has a start tag only. */
  datatype Forest =
    | Empty
    | Text(value: string, rest: Forest)
    | Void(tag: Tag, attrs: Attrs, rest: Forest)
    | Element(tag: Tag, attrs: Attrs, children: Forest, rest: Forest)

  /** Text arrives with its white space already collapsed. */
  datatype Token = Start(tag: Tag, attrs: Attrs) | End(tag: Tag) | Data(value: string)

  function Tokens(f: Forest): seq<Token> {
    match f
    case Empty => []
    case Text(value, rest) => [Data(value)] + Tokens(rest)
    case Void(tag, attrs, rest) => [Start(tag, attrs)] + Tokens(rest)
    case Element(tag, attrs, children, rest) => [Start(tag, attrs)] + Tokens(children) + [End(tag)] + Tokens(rest)
  }

  /** No element of the given tags is written without its end tag. */
  predicate Closed(f: Forest, tags: set<Tag>) {
    match f
    case Empty => true
    case Text(_, rest) => Closed(rest, tags)
    case Void(tag, _, rest) => tag !in tags && Closed(rest, tags)
    case Element(_, _, children, rest) => Closed(children, tags) && Closed(rest, tags)
  }

  /** The values of a list in order of first appearance: an element is kept exactly when
      no element before it is equal. */
  function Dedup(links: seq<string>): seq<string> {
    if links == [] then
      []
    else
      var before, last := links[..|links| - 1], links[|links| - 1];
      Dedup(before) + if last in before then [] else [last]
  }

  /** The incremental form: append each link that is not kept yet. */
  function Extend(kept: seq<string>, links: seq<string>): (r: seq<string>)
    decreases |links|
  {
    if links == [] then kept
    else Extend(if links[0] in kept then kept else kept + [links[0]], links[1..])
  }

  lemma {:induction false} ExtendConcat(kept: seq<string>, a: seq<string>, b: seq<string>)
    ensures Extend(kept, a + b) == Extend(Extend(kept, a), b)
    decreases |a|
  {
    if a == [] {
      assert a + b == b;
    } else {
      assert (a + b)[1..] == a[1..] + b;
      ExtendConcat(if a[0] in kept then kept else kept + [a[0]], a[1..], b);
    }
  }

  lemma ExtendOne(kept: seq<string>, link: string)
    ensures Extend(kept, [link]) == if link in kept then kept else kept + [link]
  {
    assert [link][1..] == [];
  }

  predicate Distinct(links: seq<string>) {
    forall i, j :: 0 <= i < j < |links| ==> links[i] != links[j]
  }

  /** Nothing is kept twice, and nothing is kept or left out but what it should be. */
  lemma {:induction false} ExtendDistinct(kept: seq<string>, links: seq<string>)
    requires Distinct(kept)
    ensures Distinct(Extend(kept, links))
    decreases |links|
  {
    if links != [] {
      var next := if links[0] in kept then kept else kept + [links[0]];
      assert Distinct(next);
      hide Distinct;
      ExtendDistinct(next, links[1..]);
    }
  }

  lemma {:induction false} ExtendMember(kept: seq<string>, links: seq<string>, x: string)
    ensures x in Extend(kept, links) <==> x in kept || x in links
    decreases |links|
  {
    if links != [] {
      var next := if links[0] in kept then kept else kept + [links[0]];
      assert Extend(kept, links) == Extend(next, links[1..]);
      hide Extend;
      ExtendMember(next, links[1..], x);
      HeadOrTail(links, x);
      assert x in next <==> x in kept || x == links[0];
    }
  }

  lemma HeadOrTail(links: seq<string>, x: string)
    requires links != []
    ensures x in links <==> x == links[0] || x in links[1..]
  {
    assert links == [links[0]] + links[1..];
  }

  lemma ExtendShape(kept: seq<string>, links: seq<string>)
    requires Distinct(kept)
    ensures var r := Extend(kept, links);
            Distinct(r) && forall x :: x in r <==> x in kept || x in links
  {
    hide Distinct, Extend;
    ExtendDistinct(kept, links);
    forall x
      ensures x in Extend(kept, links) <==> x in kept || x in links
    {
      ExtendMember(kept, links, x);
    }
  }

  lemma {:induction false} ExtendIsDedup(links: seq<string>)
    ensures Extend([], links) == Dedup(links)
    ensures Distinct(Dedup(links)) && forall x :: x in Dedup(links) <==> x in links
  {
    ExtendShape([], links);
    if links != [] {
      var before, last := links[..|links| - 1], links[|links| - 1];
      ExtendIsDedup(before);
      assert links == before + [last];
      ExtendConcat([], before, [last]);
      assert [last][1..] == [];
    }
  }
}
