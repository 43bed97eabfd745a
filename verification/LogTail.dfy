/** The incremental reader of a growing newline-delimited log, and the claim it lives
    by: polling a file while it grows reads the same events as one read at the end. */
module LogTail {
  newtype byte = x: int | 0 <= x < 256

  type Bytes = seq<byte>

  const NEWLINE: byte := 10

  /** What the JSON decoder makes of one line; only objects are kept. */
  datatype Parsed<+E> = Malformed | Scalar | Object(event: E)

  /** The reference reader: a byte-at-a-time automaton that knows nothing of offsets. */
  datatype Scan = Scan(lines: seq<Bytes>, partial: Bytes)

  function ScanBytes(bytes: Bytes): Scan {
    if bytes == [] then
      Scan([], [])
    else
      var before, b := ScanBytes(bytes[..|bytes| - 1]), bytes[|bytes| - 1];
      if b == NEWLINE then Scan(before.lines + [before.partial + [b]], []) else Scan(before.lines, before.partial + [b])
  }

  function Events<E>(parse: Bytes -> Parsed<E>, lines: seq<Bytes>): seq<E> {
    if lines == [] then
      []
    else
      var before := Events(parse, lines[..|lines| - 1]);
      match parse(lines[|lines| - 1])
      case Object(event) => before + [event]
      case _ => before
  }

  /** Every event on a newline-terminated line of the file, read in one go. */
  function Batch<E>(parse: Bytes -> Parsed<E>, file: Bytes): seq<E> {
    Events(parse, ScanBytes(file).lines)
  }

  /** The position just after the last newline. */
  function Boundary(file: Bytes): (end: nat)
    ensures end <= |file|
  {
    ScanShape(file);
    |file| - |ScanBytes(file).partial|
  }

  /** `readline`: the bytes up to and including the next newline, or up to the end. */
  function ReadLine(file: Bytes, pos: nat): Bytes
    decreases |file| - pos
  {
    if pos >= |file| then []
    else if file[pos] == NEWLINE then [NEWLINE]
    else [file[pos]] + ReadLine(file, pos + 1)
  }

  /** A file is its whole lines and what is left without a newline. */
  lemma {:induction false} ScanSplit(bytes: Bytes) returns (whole: Bytes)
    ensures var s := ScanBytes(bytes);
            && bytes == whole + s.partial && ScanBytes(whole) == Scan(s.lines, [])
            && NEWLINE !in s.partial && (whole != [] ==> whole[|whole| - 1] == NEWLINE)
  {
    if bytes == [] || bytes[|bytes| - 1] == NEWLINE {
      whole := bytes;
    } else {
      var init, b := bytes[..|bytes| - 1], bytes[|bytes| - 1];
      assert ScanBytes(bytes) == Scan(ScanBytes(init).lines, ScanBytes(init).partial + [b]);
      hide ScanBytes;
      whole := ScanSplit(init);
      assert bytes == init + [b];
      Append(whole, ScanBytes(init).partial, [b]);
    }
  }

  lemma Append(a: Bytes, b: Bytes, c: Bytes)
    ensures a + b + c == a + (b + c)
  {
  }

  lemma ScanShape(bytes: Bytes)
    ensures var s := ScanBytes(bytes);
            && NEWLINE !in s.partial
            && |s.partial| <= |bytes|
            && bytes[|bytes| - |s.partial|..] == s.partial
            && (|s.partial| < |bytes| ==> bytes[|bytes| - |s.partial| - 1] == NEWLINE)
            && ScanBytes(bytes[..|bytes| - |s.partial|]) == Scan(s.lines, [])
  {
    hide ScanBytes;
    var whole := ScanSplit(bytes);
    assert bytes[..|whole|] == whole && bytes[|whole|..] == ScanBytes(bytes).partial;
  }

  /** A file split at a line boundary is read in two independent halves. */
  lemma {:induction false} ScanConcat(a: Bytes, b: Bytes)
    requires ScanBytes(a).partial == []
    ensures ScanBytes(a + b) == Scan(ScanBytes(a).lines + ScanBytes(b).lines, ScanBytes(b).partial)
  {
    if b == [] {
      assert a + b == a;
    } else {
      ScanConcat(a, b[..|b| - 1]);
      assert (a + b)[..|a + b| - 1] == a + b[..|b| - 1];
    }
  }

  lemma {:induction false} EventsConcat<E>(parse: Bytes -> Parsed<E>, a: seq<Bytes>, b: seq<Bytes>)
    ensures Events(parse, a + b) == Events(parse, a) + Events(parse, b)
  {
    if b == [] {
      assert a + b == a;
    } else {
      EventsConcat(parse, a, b[..|b| - 1]);
      assert (a + b)[..|a + b| - 1] == a + b[..|b| - 1];
    }
  }

  lemma {:induction false} ScanUnterminated(bytes: Bytes)
    requires NEWLINE !in bytes
    ensures ScanBytes(bytes) == Scan([], bytes)
  {
    if bytes != [] {
      ScanUnterminated(bytes[..|bytes| - 1]);
    }
  }

  lemma ScanOneLine(body: Bytes)
    requires NEWLINE !in body
    ensures ScanBytes(body + [NEWLINE]) == Scan([body + [NEWLINE]], [])
  {
    ScanUnterminated(body);
    assert (body + [NEWLINE])[..|body|] == body;
  }

  lemma ReadLineShape(file: Bytes, pos: nat)
    requires pos <= |file|
    ensures var line := ReadLine(file, pos);
            && pos + |line| <= |file|
            && line == file[pos..pos + |line|]
            && (if line != [] && line[|line| - 1] == NEWLINE
                then ScanBytes(line) == Scan([line], [])
                else line == file[pos..] && NEWLINE !in line)
  {
    hide ScanBytes, ReadLine;
    LineIsSlice(file, pos);
    var line := ReadLine(file, pos);
    if line != [] {
      NewlineOnlyAtEnd(file, pos);
      var body := line[..|line| - 1];
      assert line == body + [line[|line| - 1]];
      ScanOneLine(body);
    }
  }

  /** A line is the file from `pos` to its end, or to a newline. */
  lemma {:induction false} LineIsSlice(file: Bytes, pos: nat)
    requires pos <= |file|
    ensures var line := ReadLine(file, pos);
            && pos + |line| <= |file|
            && line == file[pos..pos + |line|]
            && (line == [] || line[|line| - 1] != NEWLINE ==> pos + |line| == |file|)
    decreases |file| - pos
  {
    if pos < |file| && file[pos] != NEWLINE {
      LineIsSlice(file, pos + 1);
      var rest := ReadLine(file, pos + 1);
      assert ReadLine(file, pos) == [file[pos]] + rest;
      hide ReadLine;
      assert [file[pos]] + file[pos + 1..pos + 1 + |rest|] == file[pos..pos + 1 + |rest|];
    }
  }

  lemma {:induction false} NewlineOnlyAtEnd(file: Bytes, pos: nat)
    requires pos < |file|
    ensures var line := ReadLine(file, pos); line != [] && NEWLINE !in line[..|line| - 1]
    decreases |file| - pos
  {
    if file[pos] != NEWLINE && pos + 1 < |file| {
      NewlineOnlyAtEnd(file, pos + 1);
      var rest := ReadLine(file, pos + 1);
      assert ReadLine(file, pos)[..|rest|] == [file[pos]] + rest[..|rest| - 1];
    }
  }

  function Kept<E>(parsed: Parsed<E>): seq<E> {
    match parsed
    case Object(event) => [event]
    case _ => []
  }

  lemma ReadWholeLine<E>(parse: Bytes -> Parsed<E>, seen: Bytes, line: Bytes)
    requires ScanBytes(seen).partial == [] && ScanBytes(line) == Scan([line], [])
    ensures ScanBytes(seen + line).partial == []
    ensures Batch(parse, seen + line) == Batch(parse, seen) + Kept(parse(line))
  {
    ScanConcat(seen, line);
    EventsConcat(parse, ScanBytes(seen).lines, [line]);
    assert [line][..0] == [];
    assert Events(parse, [line]) == Kept(parse(line));
  }

  lemma ReadUnterminated<E>(parse: Bytes -> Parsed<E>, seen: Bytes, rest: Bytes)
    requires ScanBytes(seen).partial == [] && NEWLINE !in rest
    ensures Batch(parse, seen + rest) == Batch(parse, seen) && Boundary(seen + rest) == |seen|
  {
    ScanConcat(seen, rest);
    ScanUnterminated(rest);
    assert ScanBytes(seen).lines + [] == ScanBytes(seen).lines;
  }

  lemma NothingRead<E>(parse: Bytes -> Parsed<E>, seen: Bytes)
    requires seen == []
    ensures ScanBytes(seen).partial == [] && Batch(parse, seen) == []
  {
  }

  /** The position after the last line feed from the offset on, or the offset. */
  ghost predicate LastLineEnd(file: Bytes, offset: nat, end: nat)
    requires offset <= |file|
  {
    && offset <= end <= |file| && (end == offset || file[end - 1] == 10)
    && forall i :: end <= i < |file| ==> file[i] != 10
  }

  lemma BoundaryIsLineEnd(file: Bytes, offset: nat)
    requires offset <= |file|
    ensures LastLineEnd(file, offset, offset + Boundary(file[offset..]))
  {
    var rest := file[offset..];
    BoundaryShape(rest);
    hide Boundary;
    forall i | offset + Boundary(rest) <= i < |file|
      ensures file[i] != 10
    {
      assert file[i] == rest[Boundary(rest)..][i - offset - Boundary(rest)];
    }
  }

  /** One poll: read whole lines from `offset`, stop before the first unterminated one. */
  method NewEvents<E>(file: Bytes, offset: nat, parse: Bytes -> Parsed<E>) returns (events: seq<E>, end: nat)
    ensures offset <= |file| ==> events == Batch(parse, file[offset..]) && end == offset + Boundary(file[offset..])
    ensures offset <= |file| ==> LastLineEnd(file, offset, end)
    ensures offset > |file| ==> events == [] && end == offset
  {
    hide ScanBytes, Events, Batch, Boundary, ReadLine, LastLineEnd;
    events, end := [], offset;
    if offset > |file| {
      return;
    }
    BoundaryIsLineEnd(file, offset);
    NothingRead(parse, file[offset..offset]);
    while true
      invariant offset <= end <= |file|
      invariant ScanBytes(file[offset..end]).partial == []
      invariant events == Batch(parse, file[offset..end])
      decreases |file| - end
    {
      var before := end;
      var line := ReadLine(file, before);
      ReadLineShape(file, before);
      if line == [] || line[|line| - 1] != NEWLINE {
        ReadUnterminated(parse, file[offset..before], line);
        assert file[offset..before] + line == file[offset..];
        return events, before;
      }
      end := before + |line|;
      ReadWholeLine(parse, file[offset..before], line);
      assert file[offset..before] + line == file[offset..end];
      match parse(line)
      case Malformed =>
      case Scalar =>
      case Object(event) => events := events + [event];
    }
  }

  /** The step behind every poll: from the boundary of what was read before, the new
      part of the file supplies exactly the missing events. */
  lemma Resume<E>(parse: Bytes -> Parsed<E>, earlier: Bytes, later: Bytes)
    requires earlier <= later
    ensures var offset := Boundary(earlier);
            && Batch(parse, later) == Batch(parse, earlier) + Batch(parse, later[offset..])
            && Boundary(later) == offset + Boundary(later[offset..])
            && offset <= Boundary(later)
  {
    var offset := Boundary(earlier);
    ScanShape(earlier);
    assert later[..offset] == earlier[..offset];
    ScanConcat(later[..offset], later[offset..]);
    assert later[..offset] + later[offset..] == later;
    EventsConcat(parse, ScanBytes(earlier).lines, ScanBytes(later[offset..]).lines);
  }

  /** What a file holds up to its boundary is all there is to read. */
  lemma UpToBoundary<E>(parse: Bytes -> Parsed<E>, file: Bytes)
    ensures ScanBytes(file[..Boundary(file)]).partial == []
    ensures Batch(parse, file[..Boundary(file)]) == Batch(parse, file)
    ensures ScanBytes(file).partial == [] ==> Boundary(file) == |file|
  {
    BoundaryScan(file);
    hide ScanBytes, Events, Boundary;
  }

  lemma BoundaryScan(file: Bytes)
    ensures ScanBytes(file[..Boundary(file)]) == Scan(ScanBytes(file).lines, [])
    ensures ScanBytes(file).partial == [] ==> Boundary(file) == |file|
  {
    hide Boundary, ScanBytes;
    BoundaryIs(file);
    var whole := ScanSplit(file);
    assert file[..|whole|] == whole;
  }

  lemma BoundaryIs(file: Bytes)
    ensures Boundary(file) + |ScanBytes(file).partial| == |file|
  {
    hide ScanBytes;
  }

  lemma BoundaryShape(file: Bytes)
    ensures var end := Boundary(file); NEWLINE !in file[end..] && (end == 0 || file[end - 1] == NEWLINE)
  {
    ScanShape(file);
  }

  lemma NothingReadYet<E>(parse: Bytes -> Parsed<E>)
    ensures Batch(parse, []) == [] && Boundary([]) == 0
  {
  }

  ghost predicate AppendOnly(snapshots: seq<Bytes>) {
    forall i :: 0 < i < |snapshots| ==> snapshots[i - 1] <= snapshots[i]
  }

  /** Any number of polls over any append-only growth reads what one batch read of the
      final file reads; the offset never moves back, rests on a line boundary, and
      leaves only an unterminated line behind it. */
  method PollAll<E>(snapshots: seq<Bytes>, parse: Bytes -> Parsed<E>) returns (events: seq<E>, offsets: seq<nat>)
    requires AppendOnly(snapshots)
    ensures snapshots != [] ==> events == Batch(parse, snapshots[|snapshots| - 1])
    ensures |offsets| == |snapshots|
    ensures forall i :: 0 <= i < |offsets| ==> offsets[i] <= |snapshots[i]| && NEWLINE !in snapshots[i][offsets[i]..]
    ensures forall i :: 0 <= i < |offsets| ==> offsets[i] == 0 || (offsets[i] <= |snapshots[i]| && snapshots[i][offsets[i] - 1] == NEWLINE)
    ensures forall i :: 0 < i < |offsets| ==> offsets[i - 1] <= offsets[i]
  {
    hide ScanBytes, Events, Batch, Boundary;
    events, offsets := [], [];
    var offset := 0;
    NothingReadYet(parse);
    for i := 0 to |snapshots|
      invariant |offsets| == i
      invariant offset == if i == 0 then 0 else Boundary(snapshots[i - 1])
      invariant events == if i == 0 then [] else Batch(parse, snapshots[i - 1])
      invariant forall j :: 0 <= j < i ==> offsets[j] == Boundary(snapshots[j])
      invariant forall j :: 0 < j < i ==> offsets[j - 1] <= offsets[j]
    {
      ghost var earlier := if i == 0 then [] else snapshots[i - 1];
      assert earlier <= snapshots[i];
      Resume(parse, earlier, snapshots[i]);
      var unread: seq<E>;
      unread, offset := NewEvents(snapshots[i], offset, parse);
      events := events + unread;
      offsets := offsets + [offset];
    }
    forall i | 0 <= i < |snapshots|
      ensures offsets[i] <= |snapshots[i]| && NEWLINE !in snapshots[i][offsets[i]..]
      ensures offsets[i] == 0 || snapshots[i][offsets[i] - 1] == NEWLINE
    {
      BoundaryShape(snapshots[i]);
    }
  }
}
