/** The latency percentile of the retrieval benchmark: linear interpolation between two
    neighbours of the sorted list, rounded to three decimals. Numbers are exact reals;
    binary floating point is not modelled. */
module Percentile {
  import opened Prelude

  predicate Sorted(s: seq<real>) {
    forall i, j :: 0 <= i < j < |s| ==> s[i] <= s[j]
  }

  function Insert(s: seq<real>, x: real): seq<real> {
    if s == [] || x <= s[0] then [x] + s else [s[0]] + Insert(s[1..], x)
  }

  function Sort(values: seq<real>): seq<real> {
    if values == [] then [] else Insert(Sort(values[1..]), values[0])
  }

  /** Round half to even. */
  function HalfEven(x: real): int {
    var floor := x.Floor;
    var rest := x - floor as real;
    if rest < 0.5 || (rest == 0.5 && floor % 2 == 0) then floor else floor + 1
  }

  function Round3(x: real): real {
    HalfEven(x * 1000.0) as real / 1000.0
  }

  function Index(last: nat, quantile: real): (index: real)
    requires 0.0 <= quantile <= 1.0
    ensures 0.0 <= index <= last as real
  {
    last as real * quantile
  }

  /** The interpolated value before rounding. */
  function Interpolate(ordered: seq<real>, quantile: real): real
    requires ordered != [] && 0.0 <= quantile <= 1.0
  {
    var index := Index(|ordered| - 1, quantile);
    var lower := index.Floor;
    var upper := if lower + 1 < |ordered| - 1 then lower + 1 else |ordered| - 1;
    var weight := index - lower as real;
    Blend(ordered[lower], ordered[upper], weight)
  }

  function Blend(a: real, b: real, weight: real): real {
    a * (1.0 - weight) + b * weight
  }

  /** `percentile`; an empty list makes the subscript fail. */
  function Percentile(values: seq<real>, quantile: real): Option<real>
    requires 0.0 <= quantile <= 1.0
  {
    if |values| == 1 then Some(Round3(values[0]))
    else
      SortShape(values);
      if values == [] then None else Some(Round3(Interpolate(Sort(values), quantile)))
  }

  lemma {:induction false} InsertShape(s: seq<real>, x: real)
    requires Sorted(s)
    ensures Sorted(Insert(s, x)) && |Insert(s, x)| == |s| + 1
  {
    if s != [] && x > s[0] {
      InsertShape(s[1..], x);
      var rest := Insert(s[1..], x);
      InsertElements(s[1..], x);
      forall i | 0 <= i < |rest|
        ensures s[0] <= rest[i]
      {
        assert rest[i] in multiset(rest);
        assert rest[i] == x || rest[i] in multiset(s[1..]);
      }
    }
  }

  lemma {:induction false} InsertElements(s: seq<real>, x: real)
    ensures multiset(Insert(s, x)) == multiset(s) + multiset{x}
  {
    if s != [] && x > s[0] {
      InsertElements(s[1..], x);
      assert s == [s[0]] + s[1..];
    }
  }

  lemma TailElements(s: seq<real>)
    requires s != []
    ensures multiset(s) == multiset{s[0]} + multiset(s[1..])
  {
    assert s == [s[0]] + s[1..];
  }

  lemma {:induction false} SortShape(values: seq<real>)
    ensures Sorted(Sort(values)) && |Sort(values)| == |values|
    ensures multiset(Sort(values)) == multiset(values)
  {
    if values != [] {
      SortShape(values[1..]);
      InsertShape(Sort(values[1..]), values[0]);
      InsertElements(Sort(values[1..]), values[0]);
      TailElements(values);
    }
  }

  lemma HeadIsLeast(s: seq<real>, x: real)
    requires Sorted(s) && x in multiset(s)
    ensures s != [] && s[0] <= x
  {
  }

  lemma SameTails(s: seq<real>, t: seq<real>)
    requires s != [] && t != [] && s[0] == t[0] && multiset(s) == multiset(t)
    ensures multiset(s[1..]) == multiset(t[1..])
  {
    TailElements(s);
    TailElements(t);
    assert multiset(s[1..]) == multiset(s) - multiset{s[0]};
    assert multiset(t[1..]) == multiset(t) - multiset{t[0]};
  }

  /** A sorted list is determined by its elements with their multiplicities. */
  lemma {:induction false} SortedUnique(s: seq<real>, t: seq<real>)
    requires Sorted(s) && Sorted(t) && multiset(s) == multiset(t)
    ensures s == t
  {
    if s == [] {
      assert |multiset(t)| == 0;
    } else {
      assert s[0] in multiset(s);
      HeadIsLeast(t, s[0]);
      assert t[0] in multiset(t);
      HeadIsLeast(s, t[0]);
      SameTails(s, t);
      SortedUnique(s[1..], t[1..]);
      assert s == [s[0]] + s[1..] && t == [t[0]] + t[1..];
    }
  }

  /** The order of the list is irrelevant. */
  lemma OrderIrrelevant(values: seq<real>, others: seq<real>, quantile: real)
    requires 0.0 <= quantile <= 1.0 && multiset(values) == multiset(others)
    ensures Percentile(values, quantile) == Percentile(others, quantile)
  {
    SortShape(values);
    SortShape(others);
    SortedUnique(Sort(values), Sort(others));
    assert |multiset(values)| == |values| && |multiset(others)| == |others|;
    if |values| == 1 {
      assert values[0] in multiset(others);
      assert others[0] == values[0];
    }
  }

  lemma NonNegativeProduct(x: real, y: real)
    requires x >= 0.0 && y >= 0.0
    ensures x * y >= 0.0
  {
  }

  lemma BlendBetween(a: real, b: real, weight: real)
    requires a <= b && 0.0 <= weight <= 1.0
    ensures a <= Blend(a, b, weight) <= b
  {
    assert Blend(a, b, weight) == a + (b - a) * weight;
    NonNegativeProduct(b - a, weight);
    NonNegativeProduct(b - a, 1.0 - weight);
    assert (b - a) * (1.0 - weight) == (b - a) - (b - a) * weight;
  }

  lemma BlendMonotone(a: real, b: real, v: real, w: real)
    requires a <= b && v <= w
    ensures Blend(a, b, v) <= Blend(a, b, w)
  {
    assert Blend(a, b, w) - Blend(a, b, v) == (b - a) * (w - v);
    NonNegativeProduct(b - a, w - v);
  }

  lemma BlendMonotoneInEnds(a: real, b: real, c: real, d: real, weight: real)
    requires a <= c && b <= d && 0.0 <= weight <= 1.0
    ensures Blend(a, b, weight) <= Blend(c, d, weight)
  {
    assert a * (1.0 - weight) <= c * (1.0 - weight);
    assert b * weight <= d * weight;
  }

  /** The bracket of an index: the two neighbours around the interpolated value. */
  lemma Bracket(ordered: seq<real>, quantile: real) returns (lower: nat, upper: nat, weight: real)
    requires ordered != [] && Sorted(ordered) && 0.0 <= quantile <= 1.0
    ensures lower <= upper < |ordered| && upper <= lower + 1 && 0.0 <= weight < 1.0
    ensures lower as real + weight == Index(|ordered| - 1, quantile)
    ensures upper == lower ==> lower == |ordered| - 1
    ensures Interpolate(ordered, quantile) == Blend(ordered[lower], ordered[upper], weight)
    ensures ordered[lower] <= Interpolate(ordered, quantile) <= ordered[upper]
  {
    hide Index;
    var index := Index(|ordered| - 1, quantile);
    lower := index.Floor;
    upper := if lower + 1 < |ordered| - 1 then lower + 1 else |ordered| - 1;
    weight := index - lower as real;
    BlendBetween(ordered[lower], ordered[upper], weight);
  }

  lemma InterpolateMonotone(ordered: seq<real>, p: real, q: real)
    requires ordered != [] && Sorted(ordered) && 0.0 <= p <= q <= 1.0
    ensures Interpolate(ordered, p) <= Interpolate(ordered, q)
  {
    var l1, u1, w1 := Bracket(ordered, p);
    var l2, u2, w2 := Bracket(ordered, q);
    hide Interpolate, Blend, Index;
    IndexMonotone(|ordered| - 1, p, q);
    if l1 == l2 {
      BlendMonotone(ordered[l1], ordered[u1], w1, w2);
    } else {
      assert u1 <= l2;
    }
  }

  lemma IndexMonotone(last: nat, p: real, q: real)
    requires 0.0 <= p <= q <= 1.0
    ensures Index(last, p) <= Index(last, q)
  {
    NonNegativeProduct(last as real, q - p);
    assert last as real * (q - p) == last as real * q - last as real * p;
  }

  lemma HalfEvenMonotone(x: real, y: real)
    requires x <= y
    ensures HalfEven(x) <= HalfEven(y)
  {
  }

  lemma Round3Monotone(x: real, y: real)
    requires x <= y
    ensures Round3(x) <= Round3(y)
  {
    HalfEvenMonotone(x * 1000.0, y * 1000.0);
  }

  /** Monotone in the quantile, across index boundaries. */
  lemma MonotoneInQuantile(values: seq<real>, p: real, q: real)
    requires values != [] && 0.0 <= p <= q <= 1.0
    ensures Percentile(values, p).value <= Percentile(values, q).value
  {
    SortShape(values);
    InterpolateMonotone(Sort(values), p, q);
    hide Interpolate, Sort, Round3;
    Round3Monotone(Interpolate(Sort(values), p), Interpolate(Sort(values), q));
  }

  ghost predicate Pointwise(s: seq<real>, t: seq<real>) {
    |s| == |t| && forall i :: 0 <= i < |s| ==> s[i] <= t[i]
  }

  lemma {:induction false} InsertMonotone(s: seq<real>, t: seq<real>, x: real, y: real)
    requires Sorted(s) && Sorted(t) && Pointwise(s, t) && x <= y
    ensures Pointwise(Insert(s, x), Insert(t, y))
  {
    if s != [] {
      if x <= s[0] && y > t[0] {
        FrontAndLater(s, t, x, y);
      } else if x > s[0] && y <= t[0] {
        LaterAndFront(s, t, x, y);
      } else if x > s[0] {
        InsertMonotone(s[1..], t[1..], x, y);
        var r, q := Insert(s[1..], x), Insert(t[1..], y);
        assert Insert(s, x) == [s[0]] + r && Insert(t, y) == [t[0]] + q;
      }
    }
  }

  lemma FrontAndLater(s: seq<real>, t: seq<real>, x: real, y: real)
    requires Sorted(t) && s != [] && Pointwise(s, t) && x <= s[0] && y > t[0]
    ensures Pointwise(Insert(s, x), Insert(t, y))
  {
    assert Insert(s, x) == [x] + s;
    InsertAbove(t, y);
    var r := Insert(t, y);
    hide Insert, Sorted;
    forall i | 0 <= i <= |s|
      ensures ([x] + s)[i] <= r[i]
    {
      if 0 < i {
        assert s[i - 1] <= t[i - 1];
        assert t[i - 1] <= r[i - 1 + 1];
      }
    }
  }

  lemma LaterAndFront(s: seq<real>, t: seq<real>, x: real, y: real)
    requires Sorted(s) && Sorted(t) && s != [] && Pointwise(s, t) && x <= y <= t[0]
    ensures Pointwise(Insert(s, x), Insert(t, y))
  {
    assert Insert(t, y) == [y] + t;
    InsertBelow(s, x);
    var r := Insert(s, x);
    hide Insert;
    forall i | 0 <= i <= |s|
      ensures r[i] <= ([y] + t)[i]
    {
      if 0 < i {
        assert r[i] <= s[i - 1] || r[i] <= x;
        assert x <= t[0] <= t[i - 1];
      }
    }
  }

  lemma {:induction false} InsertAbove(t: seq<real>, y: real)
    requires Sorted(t)
    ensures |Insert(t, y)| == |t| + 1 && forall i :: 0 <= i < |t| ==> t[i] <= Insert(t, y)[i + 1]
    ensures Insert(t, y)[0] <= y && (t != [] && y > t[0] ==> Insert(t, y)[0] == t[0])
  {
    if t != [] && y > t[0] {
      InsertAbove(t[1..], y);
      var r := Insert(t[1..], y);
      assert Insert(t, y) == [t[0]] + r;
      assert |t| > 1 ==> t[0] <= t[1];
      assert r[0] >= t[0] by {
        if |t| > 1 && y > t[1] {
          assert r[0] == t[1..][0];
        }
      }
    }
  }

  lemma {:induction false} InsertBelow(s: seq<real>, x: real)
    requires Sorted(s)
    ensures |Insert(s, x)| == |s| + 1 && Insert(s, x)[0] <= x
    ensures forall i :: 0 < i <= |s| ==> Insert(s, x)[i] <= s[i - 1] || Insert(s, x)[i] <= x
  {
    if s != [] && x > s[0] {
      InsertBelow(s[1..], x);
      var r := Insert(s[1..], x);
      assert Insert(s, x) == [s[0]] + r;
      forall i | 0 < i <= |s|
        ensures Insert(s, x)[i] <= s[i - 1] || Insert(s, x)[i] <= x
      {
        if i > 1 {
          assert r[i - 1] <= s[1..][i - 2] || r[i - 1] <= x;
        }
      }
    }
  }

  lemma {:induction false} SortMonotone(values: seq<real>, others: seq<real>)
    requires Pointwise(values, others)
    ensures Pointwise(Sort(values), Sort(others))
  {
    if values != [] {
      SortMonotone(values[1..], others[1..]);
      SortShape(values[1..]);
      SortShape(others[1..]);
      InsertMonotone(Sort(values[1..]), Sort(others[1..]), values[0], others[0]);
    }
  }

  /** Pointwise monotone in the values. */
  lemma MonotoneInValues(values: seq<real>, others: seq<real>, quantile: real)
    requires values != [] && Pointwise(values, others) && 0.0 <= quantile <= 1.0
    ensures Percentile(values, quantile).value <= Percentile(others, quantile).value
  {
    SortMonotone(values, others);
    SortShape(values);
    SortShape(others);
    hide Sort, Round3, Interpolate;
    var s, t := Sort(values), Sort(others);
    if |values| == 1 {
      Round3Monotone(values[0], others[0]);
    } else {
      InterpolateMonotoneInValues(s, t, quantile);
      Round3Monotone(Interpolate(s, quantile), Interpolate(t, quantile));
    }
  }

  lemma InterpolateMonotoneInValues(s: seq<real>, t: seq<real>, quantile: real)
    requires s != [] && Sorted(s) && Sorted(t) && Pointwise(s, t) && 0.0 <= quantile <= 1.0
    ensures Interpolate(s, quantile) <= Interpolate(t, quantile)
  {
    hide Interpolate, Blend, Index;
    var l, u, w := Bracket(s, quantile);
    var l', u', w' := Bracket(t, quantile);
    SameBracket(l, l', w, w');
    BlendMonotoneInEnds(s[l], s[u], t[l], t[u], w);
  }

  lemma SameBracket(l: nat, l': nat, w: real, w': real)
    requires 0.0 <= w < 1.0 && 0.0 <= w' < 1.0 && l as real + w == l' as real + w'
    ensures l == l' && w == w'
  {
  }

  /** At a quantile that hits a rank exactly, the value of that rank. */
  lemma AtRank(ordered: seq<real>, rank: nat)
    requires Sorted(ordered) && rank < |ordered| && |ordered| > 1
    ensures var quantile := rank as real / (|ordered| - 1) as real;
            0.0 <= quantile <= 1.0 && Interpolate(ordered, quantile) == ordered[rank]
  {
    var last := (|ordered| - 1) as real;
    var quantile := rank as real / last;
    Fraction(rank as real, last);
    var l, u, w := Bracket(ordered, quantile);
    assert Index(|ordered| - 1, quantile) == rank as real;
    hide Interpolate, Index;
    SameBracket(l, rank, w, 0.0);
    assert Blend(ordered[l], ordered[u], 0.0) == ordered[l];
  }

  lemma Fraction(part: real, whole: real)
    requires 0.0 <= part <= whole && whole > 0.0
    ensures var quotient := part / whole;
            0.0 <= quotient <= 1.0 && whole * quotient == part
  {
  }

  /** Between two ranks: on the straight line from one value to the next. */
  lemma BetweenRanks(ordered: seq<real>, k: nat, w: real)
    requires Sorted(ordered) && k + 1 < |ordered| && 0.0 <= w <= 1.0
    ensures var quantile := (k as real + w) / (|ordered| - 1) as real;
            && 0.0 <= quantile <= 1.0
            && Interpolate(ordered, quantile) == ordered[k] + w * (ordered[k + 1] - ordered[k])
  {
    var quantile := (k as real + w) / (|ordered| - 1) as real;
    Fraction(k as real + w, (|ordered| - 1) as real);
    assert Index(|ordered| - 1, quantile) == k as real + w;
    var l, u, v := Bracket(ordered, quantile);
    hide Interpolate, Index;
    if w < 1.0 {
      SameBracket(l, k, v, w);
      BlendIs(ordered[k], ordered[k + 1], w);
    } else {
      SameBracket(l, k + 1, v, 0.0);
      BlendIs(ordered[k + 1], ordered[u], 0.0);
    }
  }

  lemma BlendIs(a: real, b: real, w: real)
    ensures Blend(a, b, w) == a + w * (b - a)
  {
  }

  /** Rounding to three decimals: to a multiple of a thousandth no further than half of one
      away, and to the even one of two at that distance. */
  lemma Round3Is(x: real)
    ensures exists n: int :: Round3(x) == n as real / 1000.0 && NearestEven(x, n)
  {
    var y := x * 1000.0;
    var n := HalfEven(y);
    HalfEvenIs(y);
    assert Round3(x) == n as real / 1000.0;
    hide HalfEven, Round3;
    assert NearestEven(x, n);
  }

  ghost predicate NearestEven(x: real, n: int) {
    var gap := 1000.0 * x - n as real;
    -0.5 <= gap <= 0.5 && (gap == 0.5 || gap == -0.5 ==> n % 2 == 0)
  }

  lemma HalfEvenIs(y: real)
    ensures var gap := y - HalfEven(y) as real;
            -0.5 <= gap <= 0.5 && (gap == 0.5 || gap == -0.5 ==> HalfEven(y) % 2 == 0)
  {
  }

  lemma Round3Near(x: real)
    ensures -0.0005 <= Round3(x) - x <= 0.0005
  {
    HalfEvenIs(x * 1000.0);
    hide HalfEven;
  }

  /** The percentile between two ranks of the list in order: the point on that line, up to
      half a thousandth. */
  lemma PercentileBetweenRanks(values: seq<real>, ordered: seq<real>, k: nat, w: real)
    requires Sorted(ordered) && multiset(ordered) == multiset(values)
    requires k + 1 < |ordered| && 0.0 <= w <= 1.0
    ensures var quantile := (k as real + w) / (|ordered| - 1) as real;
            var exact := ordered[k] + w * (ordered[k + 1] - ordered[k]);
            && 0.0 <= quantile <= 1.0 && Percentile(values, quantile).Some?
            && -0.0005 <= Percentile(values, quantile).value - exact <= 0.0005
  {
    BetweenRanks(ordered, k, w);
    SortShape(values);
    SortedUnique(Sort(values), ordered);
    assert |values| == |multiset(values)| == |multiset(ordered)| == |ordered|;
    hide Interpolate, Sort, Round3;
    Round3Near(ordered[k] + w * (ordered[k + 1] - ordered[k]));
  }

  /** Every quantile lies between two ranks of a list of more than one value. */
  lemma QuantileIsBetween(n: nat, quantile: real) returns (k: nat, w: real)
    requires n > 1 && 0.0 <= quantile <= 1.0
    ensures k + 1 < n && 0.0 <= w <= 1.0 && quantile == (k as real + w) / (n - 1) as real
  {
    var last := n - 1;
    var index := Index(last, quantile);
    k := if index.Floor < last then index.Floor else last - 1;
    w := index - k as real;
    Quotient(last as real, quantile, index);
    assert k as real + w == index;
  }

  lemma Quotient(whole: real, part: real, product: real)
    requires whole > 0.0 && product == whole * part
    ensures part == product / whole
  {
  }

  /** One value is every percentile of itself; no value has none. */
  lemma PercentileOfFew(values: seq<real>, quantile: real)
    requires |values| <= 1 && 0.0 <= quantile <= 1.0
    ensures Percentile(values, quantile).None? <==> values == []
    ensures values != [] ==> -0.0005 <= Percentile(values, quantile).value - values[0] <= 0.0005
  {
    if values != [] {
      hide Round3;
      Round3Near(values[0]);
    }
  }

  function Least(values: seq<real>): real
    requires values != []
  {
    SortShape(values);
    Sort(values)[0]
  }

  function Greatest(values: seq<real>): real
    requires values != []
  {
    SortShape(values);
    Sort(values)[|values| - 1]
  }

  lemma LeastGreatest(values: seq<real>)
    requires values != []
    ensures Least(values) in values && Greatest(values) in values
    ensures forall x :: x in values ==> Least(values) <= x <= Greatest(values)
  {
    SortShape(values);
    var s := Sort(values);
    assert s[0] in multiset(s) && s[|s| - 1] in multiset(s);
    forall x | x in values
      ensures s[0] <= x <= s[|s| - 1]
    {
      assert x in multiset(values);
      assert x in multiset(s);
    }
  }

  /** The result lies between the rounded minimum and the rounded maximum, and takes
      both values at the two ends of the quantile range. */
  lemma WithinRoundedRange(values: seq<real>, quantile: real)
    requires values != [] && 0.0 <= quantile <= 1.0
    ensures Round3(Least(values)) <= Percentile(values, quantile).value <= Round3(Greatest(values))
    ensures Percentile(values, 0.0).value == Round3(Least(values))
    ensures Percentile(values, 1.0).value == Round3(Greatest(values))
  {
    SortShape(values);
    AtEnds(Sort(values));
    if |values| == 1 {
      assert values == [values[0]] + values[1..];
      assert Sort(values) == [values[0]];
    }
    MonotoneInQuantile(values, 0.0, quantile);
    MonotoneInQuantile(values, quantile, 1.0);
  }

  lemma AtEnds(ordered: seq<real>)
    requires ordered != []
    ensures Interpolate(ordered, 0.0) == ordered[0] && Interpolate(ordered, 1.0) == ordered[|ordered| - 1]
  {
  }

  /** Between the minimum and the maximum themselves, for every quantile, exactly when
      rounding moves neither of them outwards. */
  lemma WithinRangeIff(values: seq<real>)
    requires values != []
    ensures (forall q :: 0.0 <= q <= 1.0 ==> Least(values) <= Percentile(values, q).value <= Greatest(values))
            <==> Least(values) <= Round3(Least(values)) && Round3(Greatest(values)) <= Greatest(values)
  {
    hide Least, Greatest, Round3, Interpolate;
    WithinRoundedRange(values, 0.0);
    WithinRoundedRange(values, 1.0);
    if Least(values) <= Round3(Least(values)) && Round3(Greatest(values)) <= Greatest(values) {
      forall q | 0.0 <= q <= 1.0
        ensures Least(values) <= Percentile(values, q).value <= Greatest(values)
      {
        WithinRoundedRange(values, q);
      }
    }
  }

  /** A latency of 0.0004 ms is reported as 0.0: below the minimum. */
  lemma BelowMinimum()
    ensures Percentile([0.0004], 0.5) == Some(0.0)
  {
    assert 0.0004 * 1000.0 == 0.4;
  }

  lemma HalfEvenWhole(n: int)
    ensures HalfEven(n as real) == n
  {
  }

  lemma Round3Idempotent(x: real)
    ensures Round3(Round3(x)) == Round3(x)
  {
    var n := HalfEven(x * 1000.0);
    assert Round3(x) * 1000.0 == n as real;
    HalfEvenWhole(n);
  }

  /** The benchmark rounds every latency before it is collected, and on such lists the
      result does stay between the minimum and the maximum. */
  lemma RoundedLatencies(elapsed: seq<real>, values: seq<real>, quantile: real)
    requires elapsed != [] && 0.0 <= quantile <= 1.0
    requires |values| == |elapsed| && forall i :: 0 <= i < |values| ==> values[i] == Round3(elapsed[i])
    ensures Least(values) <= Percentile(values, quantile).value <= Greatest(values)
  {
    hide Least, Greatest, Round3, Percentile;
    LeastGreatest(values);
    var i :| 0 <= i < |values| && values[i] == Least(values);
    var j :| 0 <= j < |values| && values[j] == Greatest(values);
    Round3Idempotent(elapsed[i]);
    Round3Idempotent(elapsed[j]);
    WithinRoundedRange(values, quantile);
  }

  /** What a latency objective of a whole number of milliseconds accepts: half a
      thousandth more than it says, inclusive. */
  lemma ObjectiveSlack(x: real, objective: int)
    ensures Round3(x) <= objective as real <==> x <= objective as real + 0.0005
  {
    var half := 500 * objective;
    AtMost(x * 1000.0, half);
    RoundedAtMost(HalfEven(x * 1000.0), objective);
    hide HalfEven;
  }

  lemma RoundedAtMost(n: int, objective: int)
    ensures n as real / 1000.0 <= objective as real <==> n <= 1000 * objective
  {
  }

  lemma AtMost(y: real, half: int)
    ensures HalfEven(y) <= 2 * half <==> y <= (2 * half) as real + 0.5
  {
  }
}
