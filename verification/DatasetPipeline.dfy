/** The dataset builder: window, stable sort, hourly resampling and a lagged return. The
    claim is point-in-time causality of the whole pipeline. */
module DatasetPipeline {
  import opened Prelude

  /** One minute bar; `ts` counts seconds since 1970-01-01T00:00:00Z. */
  datatype Row = Row(ts: int, open: real, high: real, low: real, close: real, volume: real)

  const HOUR := 3600
  const WINDOW_START := 1735689600 // 2025-01-01T00:00:00Z
  const WINDOW_END := 1767225600 // 2026-01-01T00:00:00Z

  function HourOf(ts: int): int {
    ts / HOUR
  }

  function Filter(rows: seq<Row>, keep: int -> bool): seq<Row> {
    if rows == [] then
      []
    else
      var before, last := rows[..|rows| - 1], rows[|rows| - 1];
      if keep(last.ts) then Filter(before, keep) + [last] else Filter(before, keep)
  }

  function InWindow(ts: int): bool {
    WINDOW_START <= ts < WINDOW_END
  }

  function Window(source: seq<Row>): seq<Row> {
    Filter(source, InWindow)
  }

  predicate Sorted(rows: seq<Row>) {
    forall i, j :: 0 <= i < j < |rows| ==> rows[i].ts <= rows[j].ts
  }

  /** Insertion after all rows with the same or an earlier timestamp. */
  function Insert(rows: seq<Row>, row: Row): seq<Row> {
    if rows == [] || rows[|rows| - 1].ts <= row.ts then
      rows + [row]
    else
      Insert(rows[..|rows| - 1], row) + [rows[|rows| - 1]]
  }

  function StableSort(rows: seq<Row>): seq<Row> {
    if rows == [] then [] else Insert(StableSort(rows[..|rows| - 1]), rows[|rows| - 1])
  }

  lemma {:induction false} FilterIndex(rows: seq<Row>, keep: int -> bool)
    ensures forall r :: r in Filter(rows, keep) <==> r in rows && keep(r.ts)
  {
    if rows != [] {
      FilterIndex(rows[..|rows| - 1], keep);
      assert rows == rows[..|rows| - 1] + [rows[|rows| - 1]];
    }
  }

  lemma {:induction false} InsertShape(rows: seq<Row>, row: Row)
    requires Sorted(rows)
    ensures Sorted(Insert(rows, row))
    ensures forall r :: r in Insert(rows, row) <==> r in rows || r == row
  {
    if rows != [] && rows[|rows| - 1].ts > row.ts {
      var before, last := rows[..|rows| - 1], rows[|rows| - 1];
      InsertShape(before, row);
      assert rows == before + [last];
      assert forall i :: 0 <= i < |Insert(before, row)| ==> Insert(before, row)[i] in Insert(before, row);
    }
  }

  lemma {:induction false} StableSortShape(rows: seq<Row>)
    ensures Sorted(StableSort(rows))
    ensures forall r :: r in StableSort(rows) <==> r in rows
  {
    if rows != [] {
      StableSortShape(rows[..|rows| - 1]);
      InsertShape(StableSort(rows[..|rows| - 1]), rows[|rows| - 1]);
      assert rows == rows[..|rows| - 1] + [rows[|rows| - 1]];
    }
  }

  lemma FilterSnoc(rows: seq<Row>, row: Row, keep: int -> bool)
    ensures Filter(rows + [row], keep) == if keep(row.ts) then Filter(rows, keep) + [row] else Filter(rows, keep)
  {
    assert (rows + [row])[..|rows|] == rows;
  }

  lemma StableSortSnoc(rows: seq<Row>, row: Row)
    ensures StableSort(rows + [row]) == Insert(StableSort(rows), row)
  {
    assert (rows + [row])[..|rows|] == rows;
  }

  lemma InsertSnoc(rows: seq<Row>, last: Row, row: Row)
    ensures Insert(rows + [last], row) == if last.ts <= row.ts then rows + [last] + [row] else Insert(rows, row) + [last]
  {
    assert (rows + [last])[..|rows|] == rows;
  }

  lemma InsertAtEnd(rows: seq<Row>, row: Row)
    requires forall r :: r in rows ==> r.ts <= row.ts
    ensures Insert(rows, row) == rows + [row]
  {
    if rows != [] {
      assert rows[|rows| - 1] in rows;
    }
  }

  lemma {:induction false} FilterInsert(rows: seq<Row>, row: Row, keep: int -> bool)
    requires Sorted(rows)
    ensures Filter(Insert(rows, row), keep) == if keep(row.ts) then Insert(Filter(rows, keep), row) else Filter(rows, keep)
  {
    if rows == [] || rows[|rows| - 1].ts <= row.ts {
      FilterSnoc(rows, row, keep);
      FilterIndex(rows, keep);
      InsertAtEnd(Filter(rows, keep), row);
    } else {
      var before, last := rows[..|rows| - 1], rows[|rows| - 1];
      FilterInsert(before, row, keep);
      FilterSnoc(Insert(before, row), last, keep);
      InsertSnoc(Filter(before, keep), last, row);
    }
  }

  /** Selecting by time commutes with the stable sort. */
  lemma {:induction false} FilterStableSort(rows: seq<Row>, keep: int -> bool)
    ensures Filter(StableSort(rows), keep) == StableSort(Filter(rows, keep))
  {
    if rows != [] {
      var before, last := rows[..|rows| - 1], rows[|rows| - 1];
      FilterStableSort(before, keep);
      StableSortShape(before);
      FilterInsert(StableSort(before), last, keep);
      StableSortSnoc(Filter(before, keep), last);
    }
  }

  function At(ts: int): int -> bool {
    (t: int) => t == ts
  }

  lemma LastKept(s: seq<Row>)
    requires s != []
    ensures var kept := Filter(s, At(s[|s| - 1].ts)); kept != [] && kept[|kept| - 1] == s[|s| - 1]
  {
  }

  lemma {:induction false} SortedUnique(s: seq<Row>, t: seq<Row>)
    requires Sorted(s) && Sorted(t)
    requires forall ts :: Filter(s, At(ts)) == Filter(t, At(ts))
    ensures s == t
  {
    if s == [] || t == [] {
      if s != [] { LastKept(s); }
      if t != [] { LastKept(t); }
    } else {
      var a, b := s[|s| - 1], t[|t| - 1];
      SameLast(s, t);
      forall ts
        ensures Filter(s[..|s| - 1], At(ts)) == Filter(t[..|t| - 1], At(ts))
      {
        DropLast(s, t, At(ts));
      }
      SortedUnique(s[..|s| - 1], t[..|t| - 1]);
      assert s == s[..|s| - 1] + [a] && t == t[..|t| - 1] + [b];
    }
  }

  lemma SameLast(s: seq<Row>, t: seq<Row>)
    requires s != [] && t != [] && Sorted(s) && Sorted(t)
    requires forall ts :: Filter(s, At(ts)) == Filter(t, At(ts))
    ensures s[|s| - 1] == t[|t| - 1]
  {
    hide Filter;
    var a, b := s[|s| - 1], t[|t| - 1];
    LastKept(s);
    LastKept(t);
    LastBounds(t, a.ts);
    LastBounds(s, b.ts);
  }

  lemma LastBounds(s: seq<Row>, ts: int)
    requires s != [] && Sorted(s) && Filter(s, At(ts)) != []
    ensures ts <= s[|s| - 1].ts
  {
    FilterIndex(s, At(ts));
    var r := Filter(s, At(ts))[0];
    assert r in Filter(s, At(ts));
  }

  lemma DropLast(s: seq<Row>, t: seq<Row>, keep: int -> bool)
    requires s != [] && t != [] && s[|s| - 1] == t[|t| - 1]
    requires Filter(s, keep) == Filter(t, keep)
    ensures Filter(s[..|s| - 1], keep) == Filter(t[..|t| - 1], keep)
  {
    var p, q := Filter(s[..|s| - 1], keep), Filter(t[..|t| - 1], keep);
    if keep(s[|s| - 1].ts) {
      assert (p + [s[|s| - 1]])[..|p|] == p;
      assert (q + [t[|t| - 1]])[..|q|] == q;
    }
  }

  /** The sort is the stable sort: any ordered arrangement that keeps the source order of
      the rows of every timestamp is the same sequence. */
  lemma StableSortUnique(rows: seq<Row>, arranged: seq<Row>)
    requires Sorted(arranged) && forall ts :: Filter(arranged, At(ts)) == Filter(rows, At(ts))
    ensures arranged == StableSort(rows)
  {
    StableSortShape(rows);
    forall ts
      ensures Filter(StableSort(rows), At(ts)) == Filter(rows, At(ts))
    {
      FilterStableSort(rows, At(ts));
      SameTimeSorted(Filter(rows, At(ts)), ts) by { FilterIndex(rows, At(ts)); }
    }
    SortedUnique(arranged, StableSort(rows));
  }

  lemma {:induction false} SameTimeSorted(rows: seq<Row>, ts: int)
    requires forall r :: r in rows ==> r.ts == ts
    ensures StableSort(rows) == rows
  {
    if rows != [] {
      var before, last := rows[..|rows| - 1], rows[|rows| - 1];
      assert rows == before + [last];
      SameTimeSorted(before, ts);
      InsertAtEnd(before, last);
    }
  }

  /** The aggregated bar of one hour; an hour without rows has no prices. */
  datatype Prices = Prices(open: real, high: real, low: real, close: real)

  datatype Bar = Bar(hour: int, prices: Option<Prices>, volume: real)

  function InHour(hour: int): int -> bool {
    (ts: int) => HourOf(ts) == hour
  }

  function Before(hour: int): int -> bool {
    (ts: int) => HourOf(ts) < hour
  }

  function HighOf(rows: seq<Row>): real
    requires rows != []
  {
    if |rows| == 1 then rows[0].high
    else
      var rest := HighOf(rows[..|rows| - 1]);
      if rest < rows[|rows| - 1].high then rows[|rows| - 1].high else rest
  }

  function LowOf(rows: seq<Row>): real
    requires rows != []
  {
    if |rows| == 1 then rows[0].low
    else
      var rest := LowOf(rows[..|rows| - 1]);
      if rows[|rows| - 1].low < rest then rows[|rows| - 1].low else rest
  }

  function VolumeOf(rows: seq<Row>): real {
    if rows == [] then 0.0 else VolumeOf(rows[..|rows| - 1]) + rows[|rows| - 1].volume
  }

  function BarOf(rows: seq<Row>, hour: int): Bar {
    Bar(hour,
        if rows == [] then None else Some(Prices(rows[0].open, HighOf(rows), LowOf(rows), rows[|rows| - 1].close)),
        VolumeOf(rows))
  }

  /** One bar for every hour from the first row's to the last row's. */
  function Resample(rows: seq<Row>): seq<Bar>
    requires Sorted(rows)
  {
    if rows == [] then
      []
    else
      var first := HourOf(rows[0].ts);
      seq(HourOf(rows[|rows| - 1].ts) - first + 1, i requires i >= 0 => GridBar(rows, first, i))
  }

  function GridBar(rows: seq<Row>, first: int, i: int): Bar {
    BarOf(Filter(rows, InHour(first + i)), first + i)
  }

  function Closes(bars: seq<Bar>): seq<Option<real>> {
    seq(|bars|, i requires 0 <= i < |bars| => if bars[i].prices.Some? then Some(bars[i].prices.value.close) else None)
  }

  /** Forward fill, which `pct_change` applies first in the library versions that pad. */
  function Pad(cells: seq<Option<real>>): seq<Option<real>> {
    if cells == [] then
      []
    else
      var before, last := Pad(cells[..|cells| - 1]), cells[|cells| - 1];
      before + [if last.None? && before != [] then before[|before| - 1] else last]
  }

  function Return(prior: real, current: real): real
    requires prior != 0.0
  {
    current / prior - 1.0
  }

  function Change(prior: Option<real>, current: Option<real>): Option<real> {
    if prior.Some? && current.Some? && prior.value != 0.0 then Some(Return(prior.value, current.value)) else None
  }

  function PctChange(cells: seq<Option<real>>): seq<Option<real>> {
    seq(|cells|, i requires 0 <= i < |cells| => if i == 0 then None else Change(cells[i - 1], cells[i]))
  }

  function Shift(cells: seq<Option<real>>): seq<Option<real>> {
    seq(|cells|, i requires 0 <= i < |cells| => if i == 0 then None else cells[i - 1])
  }

  function Bars(source: seq<Row>): seq<Bar> {
    StableSortShape(Window(source));
    Resample(StableSort(Window(source)))
  }

  function Lagged(bars: seq<Bar>, pad: bool): (r: seq<Option<real>>)
    ensures |r| == |bars|
  {
    PadLength(Closes(bars));
    Shift(PctChange(if pad then Pad(Closes(bars)) else Closes(bars)))
  }

  lemma {:induction false} PadLength(cells: seq<Option<real>>)
    ensures |Pad(cells)| == |cells|
  {
    if cells != [] {
      PadLength(cells[..|cells| - 1]);
    }
  }

  lemma {:induction false} FilterCommutes(rows: seq<Row>, p: int -> bool, q: int -> bool)
    ensures Filter(Filter(rows, p), q) == Filter(Filter(rows, q), p)
  {
    if rows != [] {
      var before, last := rows[..|rows| - 1], rows[|rows| - 1];
      FilterCommutes(before, p, q);
      FilterSnoc(Filter(before, p), last, q);
      FilterSnoc(Filter(before, q), last, p);
    }
  }

  lemma {:induction false} FilterAbsorbs(rows: seq<Row>, p: int -> bool, q: int -> bool)
    requires forall ts :: q(ts) ==> p(ts)
    ensures Filter(Filter(rows, p), q) == Filter(rows, q)
  {
    if rows != [] {
      var before, last := rows[..|rows| - 1], rows[|rows| - 1];
      FilterAbsorbs(before, p, q);
      FilterSnoc(Filter(before, p), last, q);
    }
  }

  /** The rows an hour is aggregated from depend on the source rows of that hour only. */
  lemma HourRows(source: seq<Row>, hour: int)
    ensures Filter(StableSort(Window(source)), InHour(hour)) == StableSort(Filter(Filter(source, InHour(hour)), InWindow))
  {
    FilterStableSort(Window(source), InHour(hour));
    FilterCommutes(source, InWindow, InHour(hour));
  }

  ghost predicate AgreeBefore(a: seq<Row>, b: seq<Row>, hour: int) {
    Filter(a, Before(hour)) == Filter(b, Before(hour))
  }

  lemma SameHourRows(a: seq<Row>, b: seq<Row>, hour: int, earlier: int)
    requires AgreeBefore(a, b, hour) && earlier < hour
    ensures Filter(StableSort(Window(a)), InHour(earlier)) == Filter(StableSort(Window(b)), InHour(earlier))
  {
    HourRows(a, earlier);
    HourRows(b, earlier);
    FilterAbsorbs(a, Before(hour), InHour(earlier));
    FilterAbsorbs(b, Before(hour), InHour(earlier));
  }

  /** The grid of sorted rows: its first hour carries a row, and no row is earlier. */
  lemma FirstHour(rows: seq<Row>)
    requires Sorted(rows) && rows != []
    ensures var first := HourOf(rows[0].ts);
            && Filter(rows, InHour(first)) != []
            && (forall hour :: Filter(rows, InHour(hour)) != [] ==> first <= hour)
  {
    var first := HourOf(rows[0].ts);
    FilterIndex(rows, InHour(first));
    assert rows[0] in rows;
    assert rows[0] in Filter(rows, InHour(first));
    forall hour | Filter(rows, InHour(hour)) != []
      ensures first <= hour
    {
      var r := Filter(rows, InHour(hour))[0];
      FilterIndex(rows, InHour(hour));
      assert r in Filter(rows, InHour(hour));
      var k :| 0 <= k < |rows| && rows[k] == r;
      assert rows[0].ts <= rows[k].ts;
    }
  }

  lemma FirstLabel(source: seq<Row>)
    requires Bars(source) != []
    ensures var rows, first := StableSort(Window(source)), Bars(source)[0].hour;
            && Filter(rows, InHour(first)) != []
            && (forall hour :: Filter(rows, InHour(hour)) != [] ==> first <= hour)
            && (forall i :: 0 <= i < |Bars(source)| ==> Bars(source)[i] == GridBar(rows, first, i))
  {
    var rows := StableSort(Window(source));
    StableSortShape(Window(source));
    FirstHour(rows);
    assert Bars(source)[0] == GridBar(rows, HourOf(rows[0].ts), 0);
  }

  /** Sources that agree before an hour have the same grid start, unless neither has a
      label before that hour. */
  lemma SameFirstLabel(a: seq<Row>, b: seq<Row>, hour: int)
    requires AgreeBefore(a, b, hour) && Bars(a) != [] && Bars(b) != []
    requires Bars(a)[0].hour < hour || Bars(b)[0].hour < hour
    ensures Bars(a)[0].hour == Bars(b)[0].hour
  {
    var fa, fb := Bars(a)[0].hour, Bars(b)[0].hour;
    FirstLabel(a);
    FirstLabel(b);
    if fa < hour {
      SameHourRows(a, b, hour, fa);
    }
    if fb < hour {
      SameHourRows(a, b, hour, fb);
    }
  }

  lemma {:induction false} PadPrefix(cells: seq<Option<real>>, k: nat)
    requires k <= |cells|
    ensures |Pad(cells)| == |cells| && Pad(cells)[..k] == Pad(cells[..k])
  {
    PadLength(cells);
    if k < |cells| {
      PadPrefix(cells[..|cells| - 1], k);
      assert cells[..|cells| - 1][..k] == cells[..k];
    } else {
      assert cells[..k] == cells;
    }
  }

  /** A lagged cell is a function of the closes strictly before it. */
  lemma LaggedDependsOnPast(bars: seq<Bar>, pad: bool, i: nat)
    requires i < |bars|
    ensures Lagged(bars, pad)[i] == LaggedFrom(Closes(bars)[..i], pad)
  {
    hide Pad, Change, PctChange, Shift;
    var closes := Closes(bars);
    PadPrefix(closes, i);
    var cells := if pad then Pad(closes) else closes;
    ShiftedChange(cells, i);
    var past := cells[..i];
    assert i >= 2 ==> past[i - 2] == cells[i - 2] && past[i - 1] == cells[i - 1];
  }

  lemma ShiftedChange(cells: seq<Option<real>>, i: nat)
    requires i < |cells|
    ensures Shift(PctChange(cells))[i] == if i < 2 then None else Change(cells[i - 2], cells[i - 1])
  {
  }

  function LaggedFrom(past: seq<Option<real>>, pad: bool): Option<real> {
    PadLength(past);
    var cells := if pad then Pad(past) else past;
    if |cells| < 2 then None else Change(cells[|cells| - 2], cells[|cells| - 1])
  }

  lemma SamePast(a: seq<Row>, b: seq<Row>, hour: int, i: nat, j: nat)
    requires AgreeBefore(a, b, hour)
    requires i < |Bars(a)| && j < |Bars(b)|
    requires Bars(a)[i].hour == Bars(b)[j].hour <= hour
    ensures Closes(Bars(a))[..i] == Closes(Bars(b))[..j]
  {
    hide Filter, StableSort, HourOf, HighOf, LowOf, VolumeOf, Bars;
    var p, q := Bars(a), Bars(b);
    FirstLabel(a);
    FirstLabel(b);
    if i >= 1 || j >= 1 {
      SameFirstLabel(a, b, hour);
      assert p[i].hour == p[0].hour + i && q[j].hour == q[0].hour + j;
      forall k | 0 <= k < i
        ensures p[k] == q[k]
      {
        SameHourRows(a, b, hour, p[0].hour + k);
      }
      assert Closes(p)[..i] == Closes(q)[..i];
    }
  }

  /** Point-in-time causality of the whole pipeline: two sources that agree on all rows
      before an hour give the same feature at every common label up to and including
      that hour, whatever follows. */
  lemma PointInTime(a: seq<Row>, b: seq<Row>, hour: int, pad: bool, i: nat, j: nat)
    requires AgreeBefore(a, b, hour)
    requires i < |Bars(a)| && j < |Bars(b)|
    requires Bars(a)[i].hour == Bars(b)[j].hour <= hour
    ensures Lagged(Bars(a), pad)[i] == Lagged(Bars(b), pad)[j]
  {
    LaggedDependsOnPast(Bars(a), pad, i);
    LaggedDependsOnPast(Bars(b), pad, j);
    SamePast(a, b, hour, i, j);
  }

  lemma {:induction false} PadComplete(cells: seq<Option<real>>)
    requires forall i :: 0 <= i < |cells| ==> cells[i].Some?
    ensures Pad(cells) == cells
  {
    if cells != [] {
      PadComplete(cells[..|cells| - 1]);
      assert cells == cells[..|cells| - 1] + [cells[|cells| - 1]];
    }
  }

  predicate Complete(bars: seq<Bar>) {
    forall i :: 0 <= i < |bars| ==> bars[i].prices.Some? && bars[i].prices.value.close > 0.0
  }

  lemma CompletePast(bars: seq<Bar>, pad: bool, t: nat)
    requires t < |bars| && Complete(bars)
    ensures Lagged(bars, pad)[t] == if t < 2 then None else Change(Closes(bars)[t - 2], Closes(bars)[t - 1])
  {
    hide Lagged, Pad, Change;
    LaggedDependsOnPast(bars, pad, t);
    var past := Closes(bars)[..t];
    PadComplete(past);
    assert t >= 2 ==> past[t - 2] == Closes(bars)[t - 2] && past[t - 1] == Closes(bars)[t - 1];
  }

  lemma CloseOf(bars: seq<Bar>, t: nat)
    requires t < |bars| && Complete(bars)
    ensures Closes(bars)[t] == Some(bars[t].prices.value.close) && bars[t].prices.value.close != 0.0
  {
  }

  /** With no missing bar the feature is close[t-1] / close[t-2] - 1 from the third bar
      on, padded or not. */
  lemma FeatureOfBars(bars: seq<Bar>, pad: bool, t: nat)
    requires 2 <= t < |bars| && Complete(bars)
    ensures bars[t - 2].prices.value.close != 0.0
    ensures Lagged(bars, pad)[t] == Some(Return(bars[t - 2].prices.value.close, bars[t - 1].prices.value.close))
  {
    CompletePast(bars, pad, t);
    CloseOf(bars, t - 2);
    CloseOf(bars, t - 1);
  }

  // What a bar holds, in terms of the source rows of its hour.

  /** Source row `k` lies in the year and in the hour. */
  ghost predicate Mine(source: seq<Row>, k: int, hour: int) {
    && 0 <= k < |source| && 1735689600 <= source[k].ts < 1767225600
    && hour * 3600 <= source[k].ts < hour * 3600 + 3600
  }

  /** ... and is the last of its hour: no later row, and none after it of the same time. */
  ghost predicate LastOfHour(source: seq<Row>, k: int, hour: int) {
    Mine(source, k, hour) && forall j :: Mine(source, j, hour) ==> Follows(source, k, j)
  }

  ghost predicate FirstOfHour(source: seq<Row>, k: int, hour: int) {
    Mine(source, k, hour) && forall j :: Mine(source, j, hour) ==> Follows(source, j, k)
  }

  /** Row `k` is later than row `j`, or of the same time and not before it in the source. */
  ghost predicate Follows(source: seq<Row>, k: int, j: int)
    requires 0 <= k < |source| && 0 <= j < |source|
  {
    source[j].ts < source[k].ts || (source[j].ts == source[k].ts && j <= k)
  }

  /** The volume traded in an hour. */
  ghost function Traded(source: seq<Row>, hour: int): real {
    if source == [] then
      0.0
    else
      var n := |source| - 1;
      Traded(source[..n], hour) + if Mine(source, n, hour) then source[n].volume else 0.0
  }

  function OfHour(hour: int): int -> bool {
    (ts: int) => InWindow(ts) && HourOf(ts) == hour
  }

  lemma OfHourIs(source: seq<Row>, k: nat, hour: int)
    requires k < |source|
    ensures OfHour(hour)(source[k].ts) <==> Mine(source, k, hour)
  {
  }

  /** Where the selected rows stand in the source. */
  ghost predicate Placed(source: seq<Row>, keep: int -> bool, at: seq<nat>) {
    && |at| == |Filter(source, keep)|
    && (forall n :: 0 <= n < |at| ==> at[n] < |source| && Filter(source, keep)[n] == source[at[n]] && keep(source[at[n]].ts))
    && (forall m, n :: 0 <= m < n < |at| ==> at[m] < at[n])
    && (forall k :: 0 <= k < |source| && keep(source[k].ts) ==> k in at)
  }

  lemma {:induction false} Places(source: seq<Row>, keep: int -> bool) returns (at: seq<nat>)
    ensures Placed(source, keep, at)
  {
    at := [];
    if source != [] {
      var before, last := source[..|source| - 1], source[|source| - 1];
      at := Places(before, keep);
      if keep(last.ts) {
        at := at + [|before|];
      }
    }
  }

  lemma InsertLast(rows: seq<Row>, row: Row)
    ensures var r := Insert(rows, row);
            r != [] && r[|r| - 1] == if rows == [] || rows[|rows| - 1].ts <= row.ts then row else rows[|rows| - 1]
  {
  }

  ghost predicate IsLast(rows: seq<Row>, k: int) {
    0 <= k < |rows| && forall j :: 0 <= j < |rows| ==> Follows(rows, k, j)
  }

  ghost predicate IsFirst(rows: seq<Row>, k: int) {
    0 <= k < |rows| && forall j :: 0 <= j < |rows| ==> Follows(rows, j, k)
  }

  lemma LastStep(before: seq<Row>, row: Row, n: int)
    requires IsLast(before, n)
    ensures IsLast(before + [row], if before[n].ts <= row.ts then |before| else n)
  {
    var rows := before + [row];
    var k := if before[n].ts <= row.ts then |before| else n;
    forall j | 0 <= j < |rows|
      ensures Follows(rows, k, j)
    {
      assert j < |before| ==> Follows(before, n, j);
    }
  }

  lemma FirstStep(before: seq<Row>, row: Row, n: int)
    requires IsFirst(before, n)
    ensures IsFirst(before + [row], if row.ts < before[n].ts then |before| else n)
  {
    var rows := before + [row];
    var k := if row.ts < before[n].ts then |before| else n;
    forall j | 0 <= j < |rows|
      ensures Follows(rows, j, k)
    {
      assert j < |before| ==> Follows(before, j, n);
    }
  }

  /** The sort ends with the last row in time, and of several with the last in the source. */
  lemma {:induction false} SortLast(rows: seq<Row>) returns (k: nat)
    requires rows != []
    ensures IsLast(rows, k) && StableSort(rows) != [] && StableSort(rows)[|StableSort(rows)| - 1] == rows[k]
  {
    hide StableSort, Insert, IsLast;
    var before, last := rows[..|rows| - 1], rows[|rows| - 1];
    SortStep(rows);
    InsertLast(StableSort(before), last);
    if before == [] {
      k := 0;
    } else {
      var n := SortLast(before);
      IsLastShape(before, n);
      LastStep(before, last, n);
      k := if before[n].ts <= last.ts then |before| else n;
    }
  }

  lemma SortStep(rows: seq<Row>)
    requires rows != []
    ensures var before, last := rows[..|rows| - 1], rows[|rows| - 1];
            && before + [last] == rows && StableSort(rows) == Insert(StableSort(before), last)
            && (before == [] ==> StableSort(before) == [] && IsLast(rows, 0) && IsFirst(rows, 0))
  {
    hide Insert;
  }

  lemma IsLastShape(rows: seq<Row>, n: int)
    ensures IsLast(rows, n) ==> 0 <= n < |rows|
    ensures IsFirst(rows, n) ==> 0 <= n < |rows|
  {
  }

  lemma {:induction false} InsertFirst(rows: seq<Row>, row: Row)
    requires Sorted(rows)
    ensures Insert(rows, row) != []
    ensures Insert(rows, row)[0] == if rows == [] || row.ts < rows[0].ts then row else rows[0]
  {
    if rows != [] && rows[|rows| - 1].ts > row.ts {
      InsertFirst(rows[..|rows| - 1], row);
    }
  }

  lemma {:induction false} SortFirst(rows: seq<Row>) returns (k: nat)
    requires rows != []
    ensures IsFirst(rows, k) && StableSort(rows) != [] && StableSort(rows)[0] == rows[k]
  {
    hide StableSort, Insert, IsFirst, Sorted;
    var before, last := rows[..|rows| - 1], rows[|rows| - 1];
    SortStep(rows);
    StableSortShape(before);
    InsertFirst(StableSort(before), last);
    if before == [] {
      k := 0;
    } else {
      var n := SortFirst(before);
      IsLastShape(before, n);
      FirstStep(before, last, n);
      k := if last.ts < before[n].ts then |before| else n;
    }
  }

  lemma {:induction false} HighIs(rows: seq<Row>)
    requires rows != []
    ensures forall k :: 0 <= k < |rows| ==> rows[k].high <= HighOf(rows)
    ensures exists k :: 0 <= k < |rows| && rows[k].high == HighOf(rows)
  {
    if |rows| == 1 {
      assert rows[0].high == HighOf(rows);
    } else {
      var before := rows[..|rows| - 1];
      HighIs(before);
      var k :| 0 <= k < |before| && before[k].high == HighOf(before);
      assert rows[k].high == HighOf(rows) || rows[|before|].high == HighOf(rows);
      assert forall j :: 0 <= j < |before| ==> rows[j] == before[j];
    }
  }

  lemma {:induction false} LowIs(rows: seq<Row>)
    requires rows != []
    ensures forall k :: 0 <= k < |rows| ==> LowOf(rows) <= rows[k].low
    ensures exists k :: 0 <= k < |rows| && rows[k].low == LowOf(rows)
  {
    if |rows| == 1 {
      assert rows[0].low == LowOf(rows);
    } else {
      var before := rows[..|rows| - 1];
      LowIs(before);
      var k :| 0 <= k < |before| && before[k].low == LowOf(before);
      assert rows[k].low == LowOf(rows) || rows[|before|].low == LowOf(rows);
      assert forall j :: 0 <= j < |before| ==> rows[j] == before[j];
    }
  }

  lemma {:induction false} InsertVolume(rows: seq<Row>, row: Row)
    ensures VolumeOf(Insert(rows, row)) == VolumeOf(rows) + row.volume
  {
    if rows == [] || rows[|rows| - 1].ts <= row.ts {
      assert (rows + [row])[..|rows|] == rows;
    } else {
      var before, last := rows[..|rows| - 1], rows[|rows| - 1];
      InsertVolume(before, row);
      assert (Insert(before, row) + [last])[..|Insert(before, row)|] == Insert(before, row);
    }
  }

  lemma {:induction false} SortVolume(rows: seq<Row>)
    ensures VolumeOf(StableSort(rows)) == VolumeOf(rows)
  {
    if rows != [] {
      SortVolume(rows[..|rows| - 1]);
      InsertVolume(StableSort(rows[..|rows| - 1]), rows[|rows| - 1]);
    }
  }

  lemma {:induction false} FilterVolume(source: seq<Row>, hour: int)
    ensures VolumeOf(Filter(source, OfHour(hour))) == Traded(source, hour)
  {
    if source != [] {
      var n := |source| - 1;
      var kept := Filter(source[..n], OfHour(hour));
      FilterVolume(source[..n], hour);
      OfHourIs(source, n, hour);
      assert (kept + [source[n]])[..|kept|] == kept;
    }
  }

  /** The rows of an hour, in the order they are aggregated. */
  lemma HourOfSource(source: seq<Row>, hour: int)
    ensures Filter(StableSort(Window(source)), InHour(hour)) == StableSort(Filter(source, OfHour(hour)))
  {
    FilterStableSort(Window(source), InHour(hour));
    FilterTwice(source, hour);
  }

  lemma {:induction false} FilterTwice(source: seq<Row>, hour: int)
    ensures Filter(Window(source), InHour(hour)) == Filter(source, OfHour(hour))
  {
    if source != [] {
      var before, last := source[..|source| - 1], source[|source| - 1];
      FilterTwice(before, hour);
      FilterSnoc(Window(before), last, InHour(hour));
    }
  }

  lemma BarOfSource(source: seq<Row>, i: nat)
    requires i < |Bars(source)|
    ensures var hour := Bars(source)[i].hour; Bars(source)[i] == BarOf(StableSort(Filter(source, OfHour(hour))), hour)
  {
    FirstLabel(source);
    HourOfSource(source, Bars(source)[i].hour);
    hide Filter, StableSort, HourOf, BarOf;
  }

  /** Prices in terms of the source: the open of the first row, the close of the last, and
      the extremes, which are attained. */
  ghost predicate PricesOf(source: seq<Row>, hour: int, p: Prices) {
    && (exists k :: FirstOfHour(source, k, hour) && p.open == source[k].open)
    && (exists k :: LastOfHour(source, k, hour) && p.close == source[k].close)
    && (exists k :: Mine(source, k, hour) && p.high == source[k].high)
    && (exists k :: Mine(source, k, hour) && p.low == source[k].low)
    && (forall k :: Mine(source, k, hour) ==> p.low <= source[k].low && source[k].high <= p.high)
  }

  lemma NoneMine(source: seq<Row>, hour: int, at: seq<nat>)
    requires Placed(source, OfHour(hour), at)
    ensures at == [] <==> !exists k :: Mine(source, k, hour)
  {
    hide Filter;
    if at != [] {
      OfHourIs(source, at[0], hour);
    }
    forall k | Mine(source, k, hour)
      ensures k in at
    {
      OfHourIs(source, k, hour);
    }
  }

  /** Which selected row a source row of the hour is. */
  lemma PlaceOf(source: seq<Row>, hour: int, at: seq<nat>, k: int) returns (n: nat)
    requires Placed(source, OfHour(hour), at) && Mine(source, k, hour)
    ensures n < |at| && at[n] == k && Filter(source, OfHour(hour))[n] == source[k]
  {
    hide Filter;
    OfHourIs(source, k, hour);
    n :| n < |at| && at[n] == k;
  }

  lemma CloseMeaning(source: seq<Row>, hour: int, at: seq<nat>)
    requires Placed(source, OfHour(hour), at) && at != []
    ensures var s := StableSort(Filter(source, OfHour(hour)));
            s != [] && exists k :: LastOfHour(source, k, hour) && s[|s| - 1] == source[k]
  {
    hide Filter, StableSort;
    var rows := Filter(source, OfHour(hour));
    var n := SortLast(rows);
    OfHourIs(source, at[n], hour);
    forall k | Mine(source, k, hour)
      ensures Follows(source, at[n], k)
    {
      var m := PlaceOf(source, hour, at, k);
      assert Follows(rows, n, m);
    }
    assert LastOfHour(source, at[n], hour);
  }

  lemma OpenMeaning(source: seq<Row>, hour: int, at: seq<nat>)
    requires Placed(source, OfHour(hour), at) && at != []
    ensures var s := StableSort(Filter(source, OfHour(hour)));
            s != [] && exists k :: FirstOfHour(source, k, hour) && s[0] == source[k]
  {
    hide Filter, StableSort;
    var rows := Filter(source, OfHour(hour));
    var n := SortFirst(rows);
    OfHourIs(source, at[n], hour);
    forall k | Mine(source, k, hour)
      ensures Follows(source, k, at[n])
    {
      var m := PlaceOf(source, hour, at, k);
      assert Follows(rows, m, n);
    }
    assert FirstOfHour(source, at[n], hour);
  }

  lemma ExtremesMeaning(source: seq<Row>, hour: int, at: seq<nat>)
    requires Placed(source, OfHour(hour), at) && at != []
    ensures var s := StableSort(Filter(source, OfHour(hour)));
            && s != []
            && (exists k :: Mine(source, k, hour) && HighOf(s) == source[k].high)
            && (exists k :: Mine(source, k, hour) && LowOf(s) == source[k].low)
            && (forall k :: Mine(source, k, hour) ==> LowOf(s) <= source[k].low && source[k].high <= HighOf(s))
  {
    hide Filter, StableSort, HighOf, LowOf;
    var rows := Filter(source, OfHour(hour));
    var s := StableSort(rows);
    StableSortShape(rows);
    assert rows[0] in s;
    HighIs(s);
    LowIs(s);
    var h :| 0 <= h < |s| && s[h].high == HighOf(s);
    var l :| 0 <= l < |s| && s[l].low == LowOf(s);
    InSource(source, hour, at, s[h]);
    InSource(source, hour, at, s[l]);
    forall k | Mine(source, k, hour)
      ensures LowOf(s) <= source[k].low && source[k].high <= HighOf(s)
    {
      var n := PlaceOf(source, hour, at, k);
      assert rows[n] in s;
    }
  }

  lemma InSource(source: seq<Row>, hour: int, at: seq<nat>, row: Row)
    requires Placed(source, OfHour(hour), at) && row in Filter(source, OfHour(hour))
    ensures exists k :: Mine(source, k, hour) && source[k] == row
  {
    hide Filter;
    var n :| 0 <= n < |at| && Filter(source, OfHour(hour))[n] == row;
    OfHourIs(source, at[n], hour);
  }

  /** What a bar holds. It has prices exactly when its hour has a row; the open is that of
      the first row, the close that of the last; the high and the low are the extremes; and
      the volume is what was traded. */
  lemma BarMeaning(source: seq<Row>, i: nat)
    requires i < |Bars(source)|
    ensures var b := Bars(source)[i];
            && (b.prices.Some? <==> exists k :: Mine(source, k, b.hour))
            && b.volume == Traded(source, b.hour)
            && (b.prices.Some? ==> PricesOf(source, b.hour, b.prices.value))
  {
    var hour := Bars(source)[i].hour;
    var rows := Filter(source, OfHour(hour));
    BarOfSource(source, i);
    SortVolume(rows);
    FilterVolume(source, hour);
    var at := Places(source, OfHour(hour));
    NoneMine(source, hour, at);
    SortedEmpty(rows);
    if at != [] {
      CloseMeaning(source, hour, at);
      OpenMeaning(source, hour, at);
      ExtremesMeaning(source, hour, at);
    }
    hide Filter, StableSort, HighOf, LowOf, VolumeOf, Mine, LastOfHour, FirstOfHour, Traded;
  }

  lemma SortedEmpty(rows: seq<Row>)
    ensures StableSort(rows) == [] <==> rows == []
  {
    StableSortShape(rows);
    hide StableSort;
    if rows != [] { assert rows[0] in rows; }
    if StableSort(rows) != [] { assert StableSort(rows)[0] in StableSort(rows); }
  }

  ghost predicate InYear(source: seq<Row>, k: int) {
    0 <= k < |source| && 1735689600 <= source[k].ts < 1767225600
  }

  /** One bar for every hour from that of the earliest row to that of the latest. */
  lemma Grid(source: seq<Row>)
    ensures Bars(source) == [] <==> forall k :: !InYear(source, k)
    ensures forall i :: 0 <= i < |Bars(source)| ==> Bars(source)[i].hour == Bars(source)[0].hour + i
    ensures forall k :: InYear(source, k) ==> exists i :: 0 <= i < |Bars(source)| && Mine(source, k, Bars(source)[i].hour)
    ensures Bars(source) != [] ==> Bars(source)[0].prices.Some? && Bars(source)[|Bars(source)| - 1].prices.Some?
  {
    var rows := StableSort(Window(source));
    StableSortShape(Window(source));
    FilterIndex(source, InWindow);
    hide StableSort, Filter;
    if rows != [] {
      FirstLabel(source);
      GridEnds(rows);
      assert rows[0] in rows && rows[0] in source;
      var k :| 0 <= k < |source| && source[k] == rows[0];
      assert InYear(source, k);
    }
    forall k | InYear(source, k)
      ensures exists i :: 0 <= i < |Bars(source)| && Mine(source, k, Bars(source)[i].hour)
    {
      assert source[k] in source && source[k] in rows;
      GridCovers(rows, source[k]);
      var i := HourOf(source[k].ts) - HourOf(rows[0].ts);
      assert Mine(source, k, Bars(source)[i].hour);
    }
  }

  lemma GridEnds(rows: seq<Row>)
    requires Sorted(rows) && rows != []
    ensures Resample(rows) != [] && Resample(rows)[0].prices.Some? && Resample(rows)[|Resample(rows)| - 1].prices.Some?
  {
    var first, last := HourOf(rows[0].ts), HourOf(rows[|rows| - 1].ts);
    FilterIndex(rows, InHour(first));
    FilterIndex(rows, InHour(last));
    hide Filter, HighOf, LowOf, VolumeOf;
    assert rows[0] in rows && rows[|rows| - 1] in rows;
    assert rows[0] in Filter(rows, InHour(first));
    assert rows[|rows| - 1] in Filter(rows, InHour(last));
  }

  lemma GridCovers(rows: seq<Row>, row: Row)
    requires Sorted(rows) && row in rows
    ensures var i := HourOf(row.ts) - HourOf(rows[0].ts);
            0 <= i < |Resample(rows)| && Resample(rows)[i].hour == HourOf(row.ts)
  {
    hide Filter, HighOf, LowOf, VolumeOf;
    var k :| 0 <= k < |rows| && rows[k] == row;
    assert rows[0].ts <= rows[k].ts <= rows[|rows| - 1].ts;
  }

  /** The padded cell: the last one that is there, up to and including this one. */
  lemma {:induction false} PadMeaning(cells: seq<Option<real>>, i: nat) returns (j: int)
    requires i < |cells|
    ensures -1 <= j <= i && |Pad(cells)| == |cells|
    ensures forall k :: j < k <= i ==> cells[k].None?
    ensures j >= 0 ==> cells[j].Some? && Pad(cells)[i] == cells[j]
    ensures j < 0 ==> Pad(cells)[i].None?
  {
    PadLength(cells);
    if i < |cells| - 1 {
      j := PadMeaning(cells[..|cells| - 1], i);
    } else if cells[i].Some? {
      j := i;
    } else if i == 0 {
      j := -1;
    } else {
      j := PadMeaning(cells[..i], i - 1);
    }
  }

  /** The last row of the year before a moment. */
  ghost predicate LastBefore(source: seq<Row>, k: int, time: int) {
    && InYear(source, k) && source[k].ts < time
    && forall j :: InYear(source, j) && source[j].ts < time ==> Follows(source, k, j)
  }

  lemma CloseOfHour(source: seq<Row>, i: nat, k: int)
    requires i < |Bars(source)| && LastOfHour(source, k, Bars(source)[i].hour)
    ensures Closes(Bars(source))[i] == Some(source[k].close)
  {
    BarMeaning(source, i);
    hide Bars, Traded;
  }

  ghost predicate HasRow(source: seq<Row>, hour: int) {
    exists k :: LastOfHour(source, k, hour)
  }

  lemma HourWithoutRow(source: seq<Row>, i: nat)
    requires i < |Bars(source)|
    ensures Closes(Bars(source))[i].Some? ==> HasRow(source, Bars(source)[i].hour)
  {
    BarMeaning(source, i);
    hide Bars, Traded;
  }

  /** The padded close of a label: that of the last row before its hour ends. */
  lemma PaddedClose(source: seq<Row>, i: nat, k: int)
    requires i < |Bars(source)| && LastBefore(source, k, (Bars(source)[i].hour + 1) * 3600)
    ensures |Pad(Closes(Bars(source)))| == |Bars(source)| && Pad(Closes(Bars(source)))[i] == Some(source[k].close)
  {
    hide Bars, Closes, Pad, LastBefore, LastOfHour, HasRow;
    var bars := Bars(source);
    ClosesLength(bars);
    Grid(source);
    InYearBefore(source, k, (bars[i].hour + 1) * 3600);
    var j := PadMeaning(Closes(bars), i);
    var n :| 0 <= n < |bars| && Mine(source, k, bars[n].hour);
    assert bars[n].hour == bars[0].hour + n && bars[i].hour == bars[0].hour + i;
    HourOfLast(source, n, i, k);
    CloseOfHour(source, n, k);
    if j > n {
      HourWithoutRow(source, j);
      NoLaterRow(source, bars[n].hour, bars[j].hour, bars[i].hour, k);
    }
  }

  lemma ClosesLength(bars: seq<Bar>)
    ensures |Closes(bars)| == |bars|
  {
  }

  lemma InYearBefore(source: seq<Row>, k: int, time: int)
    requires LastBefore(source, k, time)
    ensures InYear(source, k) && source[k].ts < time
  {
  }

  lemma NoLaterRow(source: seq<Row>, own: int, later: int, last: int, k: int)
    requires LastBefore(source, k, (last + 1) * 3600) && Mine(source, k, own) && own < later <= last
    ensures !HasRow(source, later)
  {
    if HasRow(source, later) {
      var m :| LastOfHour(source, m, later);
      assert InYear(source, m);
    }
  }

  lemma HourOfLast(source: seq<Row>, n: nat, i: nat, k: int)
    requires n <= i < |Bars(source)| && Bars(source)[i].hour == Bars(source)[n].hour + i - n
    requires LastBefore(source, k, (Bars(source)[i].hour + 1) * 3600) && Mine(source, k, Bars(source)[n].hour)
    ensures LastOfHour(source, k, Bars(source)[n].hour)
  {
    hide Bars;
    forall j | Mine(source, j, Bars(source)[n].hour)
      ensures Follows(source, k, j)
    {
      assert InYear(source, j);
    }
  }

  lemma FeatureStep(source: seq<Row>, pad: bool, t: nat)
    requires t < |Bars(source)|
    ensures var closes := Closes(Bars(source));
            && |Pad(closes)| == |closes| == |Bars(source)|
            && var cells := if pad then Pad(closes) else closes;
               Lagged(Bars(source), pad)[t] == if t < 2 then None else Change(cells[t - 2], cells[t - 1])
  {
    var closes := Closes(Bars(source));
    PadLength(closes);
    ShiftedChange(if pad then Pad(closes) else closes, t);
    hide Bars, Closes, Pad, Shift, PctChange, Change;
  }

  /** The feature of a label, from the source rows, where the library pads: the last close
      before the label's hour over the last close before the hour preceding it, less one. */
  lemma FeatureDefinition(source: seq<Row>, t: nat, j: int, k: int)
    requires t < |Bars(source)|
    ensures t < 2 ==> Lagged(Bars(source), true)[t].None?
    ensures var hour := Bars(source)[t].hour;
            t >= 2 && LastBefore(source, j, (hour - 1) * 3600) && LastBefore(source, k, hour * 3600) && source[j].close != 0.0 ==>
              Lagged(Bars(source), true)[t] == Some(source[k].close / source[j].close - 1.0)
  {
    hide Bars, Closes, Pad, Lagged, LastBefore;
    FeatureStep(source, true, t);
    Grid(source);
    var bars := Bars(source);
    if t >= 2 && LastBefore(source, j, (bars[t].hour - 1) * 3600) && LastBefore(source, k, bars[t].hour * 3600) {
      assert bars[t - 2].hour + 1 == bars[t].hour - 1 && bars[t - 1].hour + 1 == bars[t].hour;
      PaddedClose(source, t - 2, j);
      PaddedClose(source, t - 1, k);
    }
  }

  /** Where it does not, those closes must be of the two preceding hours. */
  lemma FeatureUnpadded(source: seq<Row>, t: nat, j: int, k: int)
    requires t < |Bars(source)|
    ensures var hour := Bars(source)[t].hour;
            t >= 2 && LastOfHour(source, j, hour - 2) && LastOfHour(source, k, hour - 1) && source[j].close != 0.0 ==>
              Lagged(Bars(source), false)[t] == Some(source[k].close / source[j].close - 1.0)
    ensures Lagged(Bars(source), false)[t].Some? ==>
              t >= 2 && HasRow(source, Bars(source)[t].hour - 2) && HasRow(source, Bars(source)[t].hour - 1)
  {
    hide Bars, Closes, Pad, Lagged, LastOfHour, HasRow;
    FeatureStep(source, false, t);
    Grid(source);
    var bars := Bars(source);
    if t >= 2 {
      assert bars[t - 2].hour == bars[t].hour - 2 && bars[t - 1].hour == bars[t].hour - 1;
      HourWithoutRow(source, t - 2);
      HourWithoutRow(source, t - 1);
      if LastOfHour(source, j, bars[t].hour - 2) && LastOfHour(source, k, bars[t].hour - 1) {
        CloseOfHour(source, t - 2, j);
        CloseOfHour(source, t - 1, k);
      }
    }
  }

  function Duplicates(rows: seq<Row>): nat {
    if rows == [] then
      0
    else
      var before, last := rows[..|rows| - 1], rows[|rows| - 1];
      Duplicates(before) + if exists r :: r in before && r.ts == last.ts then 1 else 0
  }

  function OutOfOrder(rows: seq<Row>): nat {
    if |rows| < 2 then
      0
    else
      OutOfOrder(rows[..|rows| - 1]) + if rows[|rows| - 1].ts - rows[|rows| - 2].ts <= 0 then 1 else 0
  }

  /** The two quality counts are taken after the sort, where they always coincide: an
      unordered source without repeated timestamps is reported as in order. */
  lemma {:induction false} OutOfOrderIsDuplicates(rows: seq<Row>)
    requires Sorted(rows)
    ensures OutOfOrder(rows) == Duplicates(rows)
  {
    if rows != [] {
      var before, last := rows[..|rows| - 1], rows[|rows| - 1];
      OutOfOrderIsDuplicates(before);
      if before != [] {
        RepeatedLast(before, last);
      }
      hide Sorted;
    }
  }

  /** In order of time, a row repeats a time exactly when the row before it has that time. */
  lemma RepeatedLast(before: seq<Row>, last: Row)
    requires before != [] && Sorted(before + [last])
    ensures (exists r :: r in before && r.ts == last.ts) <==> last.ts - before[|before| - 1].ts <= 0
  {
    var rows := before + [last];
    var n := |before|;
    assert rows[n - 1].ts <= rows[n].ts;
    assert before[n - 1] in before;
    forall k | 0 <= k < n
      ensures before[k].ts <= before[n - 1].ts
    {
      assert rows[k].ts <= rows[n - 1].ts;
    }
  }

  lemma {:induction false} DuplicatesZero(rows: seq<Row>)
    ensures Duplicates(rows) == 0 <==> forall i, j :: 0 <= i < j < |rows| ==> rows[i].ts != rows[j].ts
  {
    if rows != [] {
      var before, last := rows[..|rows| - 1], rows[|rows| - 1];
      DuplicatesZero(before);
      assert forall i :: 0 <= i < |before| ==> before[i] in before && before[i] == rows[i];
    }
  }

  /** The reported out-of-order count is zero exactly when timestamps are distinct. */
  lemma OrderReport(source: seq<Row>)
    ensures var rows := StableSort(Window(source));
            && OutOfOrder(rows) == Duplicates(rows)
            && (OutOfOrder(rows) == 0 <==> forall i, j :: 0 <= i < j < |rows| ==> rows[i].ts != rows[j].ts)
  {
    StableSortShape(Window(source));
    OutOfOrderIsDuplicates(StableSort(Window(source)));
    DuplicatesZero(StableSort(Window(source)));
  }
}
