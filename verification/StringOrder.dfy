/** Strings in code-point order, and `sorted` of a set of strings: the one strictly
    increasing sequence with the given elements. */
module StringOrder {
  predicate Less(a: string, b: string) {
    if a == "" then b != ""
    else if b == "" then false
    else a[0] < b[0] || (a[0] == b[0] && Less(a[1..], b[1..]))
  }

  lemma {:induction false} LessIrreflexive(a: string)
    ensures !Less(a, a)
  {
    if a != "" {
      LessIrreflexive(a[1..]);
    }
  }

  lemma {:induction false} LessTotal(a: string, b: string)
    ensures Less(a, b) || a == b || Less(b, a)
  {
    if a != "" && b != "" && a[0] == b[0] {
      LessTotal(a[1..], b[1..]);
      assert a == [a[0]] + a[1..] && b == [b[0]] + b[1..];
    }
  }

  lemma {:induction false} LessTransitive(a: string, b: string, c: string)
    requires Less(a, b) && Less(b, c)
    ensures Less(a, c)
  {
    if a != "" && a[0] == b[0] && b[0] == c[0] {
      LessTransitive(a[1..], b[1..], c[1..]);
    }
  }

  predicate Increasing(s: seq<string>) {
    forall i, j :: 0 <= i < j < |s| ==> Less(s[i], s[j])
  }

  /** Insertion that leaves out a repeated element. */
  function Insert(s: seq<string>, x: string): seq<string> {
    if s == [] then [x]
    else if Less(x, s[0]) then [x] + s
    else if x == s[0] then s
    else [s[0]] + Insert(s[1..], x)
  }

  function Sorted(xs: seq<string>): seq<string> {
    if xs == [] then [] else Insert(Sorted(xs[1..]), xs[0])
  }

  lemma {:induction false} InsertMember(s: seq<string>, x: string, y: string)
    ensures y in Insert(s, x) <==> y == x || y in s
  {
    if s != [] {
      assert s == [s[0]] + s[1..];
      if x != s[0] && !Less(x, s[0]) {
        InsertMember(s[1..], x, y);
      }
    }
  }

  lemma {:induction false} InsertIncreasing(s: seq<string>, x: string)
    requires Increasing(s)
    ensures Increasing(Insert(s, x))
  {
    if s != [] {
      if Less(x, s[0]) {
        forall j | 0 < j < |s|
          ensures Less(x, s[j])
        {
          LessTransitive(x, s[0], s[j]);
        }
      } else if x != s[0] {
        InsertIncreasing(s[1..], x);
        LessTotal(x, s[0]);
        var rest := Insert(s[1..], x);
        forall j | 0 <= j < |rest|
          ensures Less(s[0], rest[j])
        {
          InsertMember(s[1..], x, rest[j]);
        }
        assert Insert(s, x) == [s[0]] + rest;
        hide Insert, Less;
      }
    }
  }

  lemma InsertShape(s: seq<string>, x: string)
    requires Increasing(s)
    ensures Increasing(Insert(s, x))
    ensures forall y :: y in Insert(s, x) <==> y == x || y in s
  {
    InsertIncreasing(s, x);
    hide Insert, Increasing;
    forall y
      ensures y in Insert(s, x) <==> y == x || y in s
    {
      InsertMember(s, x, y);
    }
  }

  lemma {:induction false} SortedShape(xs: seq<string>)
    ensures Increasing(Sorted(xs))
    ensures forall y :: y in Sorted(xs) <==> y in xs
  {
    if xs != [] {
      SortedShape(xs[1..]);
      InsertShape(Sorted(xs[1..]), xs[0]);
      assert xs == [xs[0]] + xs[1..];
    }
  }

  lemma HasElement(t: seq<string>)
    requires t != []
    ensures exists x :: x in t
  {
    assert t[0] in t;
  }

  /** A strictly increasing sequence is determined by its elements. */
  lemma {:induction false} IncreasingUnique(s: seq<string>, t: seq<string>)
    requires Increasing(s) && Increasing(t)
    requires forall x :: x in s <==> x in t
    ensures s == t
  {
    if s == [] {
      if t != [] {
        HasElement(t);
      }
    } else {
      assert s[0] in t && t[0] in s by { assert s[0] in s && |t| > 0 && t[0] in t; }
      if s[0] != t[0] {
        var i :| 0 <= i < |s| && s[i] == t[0];
        var j :| 0 <= j < |t| && t[j] == s[0];
        LessTransitive(s[0], t[0], s[0]);
        LessIrreflexive(s[0]);
        assert false;
      }
      TailElements(s);
      TailElements(t);
      IncreasingUnique(s[1..], t[1..]);
      assert s == [s[0]] + s[1..] && t == [t[0]] + t[1..];
    }
  }

  lemma TailElements(s: seq<string>)
    requires s != [] && Increasing(s)
    ensures Increasing(s[1..])
    ensures forall x :: x in s[1..] <==> x in s && x != s[0]
  {
    LessIrreflexive(s[0]);
    assert s == [s[0]] + s[1..];
    forall x | x in s[1..]
      ensures x != s[0]
    {
      var k :| 0 <= k < |s[1..]| && s[1..][k] == x;
      assert Less(s[0], s[k + 1]);
    }
  }

  /** `sorted` depends on the set of elements only. */
  lemma SortedDependsOnElements(xs: seq<string>, ys: seq<string>)
    requires forall x :: x in xs <==> x in ys
    ensures Sorted(xs) == Sorted(ys)
  {
    SortedShape(xs);
    SortedShape(ys);
    IncreasingUnique(Sorted(xs), Sorted(ys));
  }
}
