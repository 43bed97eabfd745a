/** The allocators of fresh versions: decimal printing and parsing, the lexicographic
    maximum of the versions in use, and the next one above it. Strings are ASCII. */
module Versions {
  import opened Prelude
  import opened TextTools

  predicate Digit(c: char) {
    '0' <= c <= '9'
  }

  function ValueOf(c: char): nat
    requires Digit(c)
  {
    c as int - '0' as int
  }

  function DigitFor(n: nat): (c: char)
    requires n < 10
    ensures Digit(c) && ValueOf(c) == n
  {
    ('0' as int + n) as char
  }

  /** `part.isdigit()`. */
  predicate Digits(s: string) {
    s != "" && forall i :: 0 <= i < |s| ==> Digit(s[i])
  }

  function NatOf(s: string): nat
    requires Digits(s)
  {
    var last := ValueOf(s[|s| - 1]);
    if |s| == 1 then last else 10 * NatOf(s[..|s| - 1]) + last
  }

  function PrintNat(n: nat): string {
    if n < 10 then [DigitFor(n)] else PrintNat(n / 10) + [DigitFor(n % 10)]
  }

  function Print(n: int): string {
    if n < 0 then "-" + PrintNat(-n) else PrintNat(n)
  }

  lemma {:induction false} PrintParse(n: nat)
    ensures Digits(PrintNat(n)) && NatOf(PrintNat(n)) == n
  {
    if n >= 10 {
      PrintParse(n / 10);
      assert PrintNat(n)[..|PrintNat(n)| - 1] == PrintNat(n / 10);
    }
  }

  /** Digits with single underscores between them, as `int` accepts them. */
  function Unsigned(s: string): Option<nat>
    decreases |s|
  {
    if s == "" || !Digit(s[|s| - 1]) then
      None
    else if |s| == 1 then
      Some(ValueOf(s[0]))
    else
      var prefix := if |s| > 2 && s[|s| - 2] == '_' then s[..|s| - 2] else s[..|s| - 1];
      var before := Unsigned(prefix);
      if before.Some? then Some(10 * before.value + ValueOf(s[|s| - 1])) else None
  }

  /** Digits, with underscores between digits only. */
  ghost predicate Grouped(s: string) {
    && s != "" && Digit(s[0]) && Digit(s[|s| - 1])
    && (forall i :: 0 <= i < |s| ==> Digit(s[i]) || s[i] == '_')
    && (forall i :: 0 < i < |s| ==> Digit(s[i - 1]) || Digit(s[i]))
  }

  ghost function Plain(s: string): string {
    if s == "" then ""
    else if s[|s| - 1] == '_' then Plain(s[..|s| - 1])
    else Plain(s[..|s| - 1]) + [s[|s| - 1]]
  }

  /** What `int` accepts without a sign, and its value: that of the digits. */
  lemma {:induction false} UnsignedIs(s: string)
    ensures Unsigned(s).Some? <==> Grouped(s)
    ensures Grouped(s) ==> Digits(Plain(s)) && Unsigned(s) == Some(NatOf(Plain(s)))
    decreases |s|
  {
    hide Unsigned, Grouped, Plain, NatOf, Digits, Digit;
    if s != "" && Digit(s[|s| - 1]) && |s| > 1 {
      var n := |s|;
      var skips := n > 2 && s[n - 2] == '_';
      var prefix := if skips then s[..n - 2] else s[..n - 1];
      UnsignedStep(s, prefix);
      UnsignedIs(prefix);
      GroupedStep(s, prefix);
      if Grouped(s) {
        PlainStep(s, prefix);
      }
    } else {
      UnsignedShort(s);
    }
  }

  lemma UnsignedShort(s: string)
    requires s == "" || !Digit(s[|s| - 1]) || |s| == 1
    ensures Unsigned(s).Some? <==> Grouped(s)
    ensures Grouped(s) ==> Digits(Plain(s)) && Unsigned(s) == Some(NatOf(Plain(s)))
  {
    if s == "" || !Digit(s[|s| - 1]) {
      hide Plain, NatOf;
    } else {
      OneDigit(s[0]);
      assert s == [s[0]];
    }
  }

  lemma OneDigit(c: char)
    requires Digit(c)
    ensures Grouped([c]) && Plain([c]) == [c] && Digits([c]) && Unsigned([c]) == Some(NatOf([c]))
  {
    PlainOne(c);
    UnsignedOne(c);
    hide Plain, Unsigned, NatOf;
  }

  lemma PlainOne(c: char)
    requires Digit(c)
    ensures Plain([c]) == [c]
  {
    var empty: string := [c][..0];
    assert empty == "" && Plain(empty) == "";
    assert c != '_';
    hide Digit;
    assert "" + [c] == [c];
  }

  lemma UnsignedOne(c: char)
    requires Digit(c)
    ensures Digits([c]) && Unsigned([c]) == Some(ValueOf(c)) && NatOf([c]) == ValueOf(c)
  {
  }

  lemma UnsignedStep(s: string, prefix: string)
    requires |s| > 1 && Digit(s[|s| - 1])
    requires prefix == if |s| > 2 && s[|s| - 2] == '_' then s[..|s| - 2] else s[..|s| - 1]
    ensures Unsigned(s) == if Unsigned(prefix).Some? then Some(10 * Unsigned(prefix).value + ValueOf(s[|s| - 1])) else None
  {
  }

  lemma GroupedStep(s: string, prefix: string)
    requires |s| > 1 && Digit(s[|s| - 1])
    requires prefix == if |s| > 2 && s[|s| - 2] == '_' then s[..|s| - 2] else s[..|s| - 1]
    ensures Grouped(s) <==> Grouped(prefix)
  {
    hide Digit;
    assert !Digit('_') by { NoDigit(); }
  }

  lemma NoDigit()
    ensures !Digit('_')
  {
  }

  lemma PlainStep(s: string, prefix: string)
    requires |s| > 1 && Digit(s[|s| - 1]) && Grouped(s) && Digits(Plain(prefix))
    requires prefix == if |s| > 2 && s[|s| - 2] == '_' then s[..|s| - 2] else s[..|s| - 1]
    ensures Digits(Plain(s)) && NatOf(Plain(s)) == 10 * NatOf(Plain(prefix)) + ValueOf(s[|s| - 1])
  {
    hide Grouped, Digits, NatOf;
    var init := s[..|s| - 1];
    if |s| > 2 && s[|s| - 2] == '_' {
      PlainSkips(init, prefix);
    }
    assert Plain(s) == Plain(init) + [s[|s| - 1]];
    hide Plain, Digit;
    DigitAfter(Plain(prefix), s[|s| - 1]);
  }

  lemma PlainSkips(init: string, prefix: string)
    requires init != "" && init[|init| - 1] == '_' && prefix == init[..|init| - 1]
    ensures Plain(init) == Plain(prefix)
  {
  }

  lemma DigitAfter(s: string, c: char)
    requires Digits(s) && Digit(c)
    ensures Digits(s + [c]) && NatOf(s + [c]) == 10 * NatOf(s) + ValueOf(c)
  {
    hide Digit;
    assert (s + [c])[..|s|] == s;
  }

  /** `int(text)`: surrounding white space and a sign are accepted; None is ValueError. */
  function PyInt(text: string): Option<int> {
    var s := Strip(text);
    if s == "" then
      None
    else if s[0] == '-' then
      var n := Unsigned(s[1..]);
      if n.Some? then Some(0 - n.value as int) else None
    else
      Unsigned(if s[0] == '+' then s[1..] else s)
  }

  lemma {:induction false} UnsignedDigits(s: string)
    requires Digits(s)
    ensures Unsigned(s) == Some(NatOf(s))
  {
    if |s| > 1 {
      assert Digit(s[|s| - 2]);
      UnsignedDigits(s[..|s| - 1]);
    }
  }

  lemma StripTight(s: string)
    requires s != "" && !IsSpace(s[0]) && !IsSpace(s[|s| - 1])
    ensures Strip(s) == s
  {
    assert Lead(s) == 0 && s[0..] == s;
    assert Trail(s) == |s| && s[..|s|] == s;
  }

  /** `int` undoes decimal printing. */
  lemma IntOfPrint(n: int)
    ensures PyInt(Print(n)) == Some(n)
  {
    var m: nat := if n < 0 then -n else n;
    PrintParse(m);
    UnsignedDigits(PrintNat(m));
    hide PrintNat, NatOf, Digits, Unsigned, Strip;
    var digits := PrintNat(m);
    TightDigits(digits, n < 0);
    if n < 0 {
      assert Print(n) == "-" + digits && ("-" + digits)[1..] == digits;
    }
  }

  /** Neither a sign nor digits are stripped. */
  lemma TightDigits(digits: string, negative: bool)
    requires Digits(digits)
    ensures digits != "" && digits[0] != '-' && digits[0] != '+'
    ensures Strip(if negative then "-" + digits else digits) == if negative then "-" + digits else digits
  {
    var s := if negative then "-" + digits else digits;
    assert Digit(digits[0]) && Digit(digits[|digits| - 1]);
    assert s[|s| - 1] == digits[|digits| - 1];
    hide Strip;
    StripTight(s);
  }

  /** `text.split(".")`. */
  function Split(s: string): (parts: seq<string>)
    ensures parts != []
  {
    if s == "" then [""]
    else
      var rest := Split(s[1..]);
      if s[0] == '.' then [""] + rest else [[s[0]] + rest[0]] + rest[1..]
  }

  lemma {:induction false} SplitPlain(s: string)
    requires '.' !in s
    ensures Split(s) == [s]
  {
    if s != "" {
      SplitPlain(s[1..]);
      assert s == [s[0]] + s[1..];
    }
  }

  lemma {:induction false} SplitFirst(s: string, rest: string)
    requires '.' !in s
    ensures Split(s + "." + rest) == [s] + Split(rest)
  {
    var whole := s + "." + rest;
    if s == "" {
      assert whole[1..] == rest;
    } else {
      SplitFirst(s[1..], rest);
      assert whole[1..] == s[1..] + "." + rest;
      assert s == [s[0]] + s[1..];
    }
  }

  lemma {:induction false} PrintHasNoDot(n: int)
    ensures '.' !in Print(n)
  {
    PrintParse(if n < 0 then -n else n);
  }

  function Render(major: int, minor: int, patch: int): string {
    Print(major) + "." + Print(minor) + "." + Print(patch)
  }

  lemma SplitRendered(major: int, minor: int, patch: int)
    ensures Split(Render(major, minor, patch)) == [Print(major), Print(minor), Print(patch)]
  {
    hide Print, Split;
    PrintHasNoDot(major);
    PrintHasNoDot(minor);
    PrintHasNoDot(patch);
    var tail := Print(minor) + "." + Print(patch);
    assert Render(major, minor, patch) == Print(major) + "." + tail;
    SplitFirst(Print(major), tail);
    SplitFirst(Print(minor), Print(patch));
    SplitPlain(Print(patch));
  }

  /** Three numbers compared like a tuple. */
  datatype Triple = Triple(major: nat, minor: nat, patch: int)

  predicate Below(a: Triple, b: Triple) {
    || a.major < b.major
    || (a.major == b.major && a.minor < b.minor)
    || (a.major == b.major && a.minor == b.minor && a.patch < b.patch)
  }

  predicate WellFormed(version: string) {
    var parts := Split(version);
    |parts| == 3 && Digits(parts[0]) && Digits(parts[1]) && Digits(parts[2])
  }

  function Parsed(version: string): Triple
    requires WellFormed(version)
  {
    var parts := Split(version);
    Triple(NatOf(parts[0]), NatOf(parts[1]), NatOf(parts[2]))
  }

  lemma ParsedRendered(major: nat, minor: nat, patch: nat)
    ensures WellFormed(Render(major, minor, patch))
    ensures Parsed(Render(major, minor, patch)) == Triple(major, minor, patch)
  {
    hide Split, NatOf;
    SplitRendered(major, minor, patch);
    PrintParse(major);
    PrintParse(minor);
    PrintParse(patch);
  }

  /** `max(parsed, default=(1, 0, -1))`. */
  method Largest(parsed: seq<Triple>) returns (largest: Triple)
    ensures parsed == [] ==> largest == Triple(1, 0, -1)
    ensures parsed != [] ==> largest in parsed
    ensures forall t :: t in parsed ==> !Below(largest, t)
  {
    if parsed == [] {
      return Triple(1, 0, -1);
    }
    largest := parsed[0];
    for i := 1 to |parsed|
      invariant largest in parsed
      invariant forall j :: 0 <= j < i ==> !Below(largest, parsed[j])
    {
      if Below(largest, parsed[i]) {
        largest := parsed[i];
      }
    }
  }

  ghost predicate AboveAll(largest: Triple, used: set<string>) {
    forall v :: v in used && WellFormed(v) ==> !Below(largest, Parsed(v))
  }

  /** The first candidate is above every well-formed version in use, so it is not in use:
      the loop that would try the next patch has nothing to do. */
  lemma FirstCandidateFresh(largest: Triple, used: set<string>)
    requires AboveAll(largest, used) && largest.patch >= -1
    ensures var candidate := Render(largest.major, largest.minor, largest.patch + 1);
            && candidate !in used
            && WellFormed(candidate)
            && forall v :: v in used && WellFormed(v) ==> Below(Parsed(v), Parsed(candidate))
  {
    hide Split, NatOf, Render, WellFormed, Parsed;
    ParsedRendered(largest.major, largest.minor, largest.patch + 1);
  }

  datatype Identity = Identity(agentId: string, version: string)

  ghost function Used(identities: seq<Identity>, agentId: string): set<string> {
    set item | item in identities && item.agentId == agentId :: item.version
  }

  /** The loop that collects the well-formed versions of one agent. */
  method ParseUsed(identities: seq<Identity>, agentId: string) returns (parsed: seq<Triple>)
    ensures forall v :: v in Used(identities, agentId) && WellFormed(v) ==> Parsed(v) in parsed
    ensures forall t :: t in parsed ==> exists v :: v in Used(identities, agentId) && WellFormed(v) && Parsed(v) == t
  {
    hide Split, NatOf;
    parsed := [];
    for i := 0 to |identities|
      invariant forall j :: 0 <= j < i && identities[j].agentId == agentId && WellFormed(identities[j].version) ==>
                  Parsed(identities[j].version) in parsed
      invariant forall t :: t in parsed ==> exists v :: v in Used(identities, agentId) && WellFormed(v) && Parsed(v) == t
    {
      var version := identities[i].version;
      if identities[i].agentId == agentId && WellFormed(version) {
        assert version in Used(identities, agentId);
        parsed := parsed + [Parsed(version)];
      }
    }
  }

  predicate InUse(identities: seq<Identity>, agentId: string, version: string) {
    Identity(agentId, version) in identities
  }

  lemma InUseIsUsed(identities: seq<Identity>, agentId: string, version: string)
    ensures InUse(identities, agentId, version) <==> version in Used(identities, agentId)
  {
  }

  ghost function TriesLeft(used: set<string>, major: nat, minor: nat, patch: int): set<int> {
    set v, p | v in used && p in Patches(v) && patch < p :: p
  }

  /** The patch a rendered version stands for, as a set with at most one element. */
  ghost function Patches(version: string): set<int> {
    var parts := Split(version);
    if |parts| == 3 && PyInt(parts[2]).Some? then {PyInt(parts[2]).value} else {}
  }

  lemma TriesShrink(used: set<string>, major: nat, minor: nat, patch: int)
    requires Render(major, minor, patch + 1) in used
    ensures TriesLeft(used, major, minor, patch + 1) < TriesLeft(used, major, minor, patch)
  {
    var version := Render(major, minor, patch + 1);
    SplitRendered(major, minor, patch + 1);
    IntOfPrint(patch + 1);
    assert patch + 1 in Patches(version);
    assert patch + 1 in TriesLeft(used, major, minor, patch);
  }

  /** `next_identity_version`: never used before, and lexicographically above every
      well-formed version in use; one patch above the largest of them. */
  method NextIdentityVersion(identities: seq<Identity>, agentId: string) returns (candidate: string)
    ensures candidate !in Used(identities, agentId) && WellFormed(candidate)
    ensures forall v :: v in Used(identities, agentId) && WellFormed(v) ==> Below(Parsed(v), Parsed(candidate))
    ensures candidate == "1.0.0"
            || exists v :: v in Used(identities, agentId) && WellFormed(v)
                           && Parsed(candidate) == Parsed(v).(patch := Parsed(v).patch + 1)
  {
    hide Split, NatOf, WellFormed, Parsed, Render, Used, TriesLeft;
    ghost var used := Used(identities, agentId);
    var parsed := ParseUsed(identities, agentId);
    var largest := Largest(parsed);
    var major, minor, patch := largest.major, largest.minor, largest.patch;
    candidate := Render(major, minor, patch + 1);
    InUseIsUsed(identities, agentId, candidate);
    while InUse(identities, agentId, candidate)
      invariant candidate == Render(major, minor, patch + 1)
      invariant InUse(identities, agentId, candidate) <==> candidate in used
      invariant patch == largest.patch || Render(major, minor, largest.patch + 1) in used
      decreases TriesLeft(used, major, minor, patch)
    {
      TriesShrink(used, major, minor, patch);
      patch := patch + 1;
      candidate := Render(major, minor, patch + 1);
      InUseIsUsed(identities, agentId, candidate);
    }
    assert largest.patch >= -1 by { PatchNonNegative(used, parsed); }
    assert AboveAll(largest, used);
    FirstCandidateFresh(largest, used);
    ParsedRendered(major, minor, patch + 1);
    if parsed == [] {
      FirstVersion();
    }
  }

  lemma PatchNonNegative(used: set<string>, parsed: seq<Triple>)
    requires forall t :: t in parsed ==> exists v :: v in used && WellFormed(v) && Parsed(v) == t
    ensures forall t :: t in parsed ==> t.patch >= 0
  {
  }

  lemma FirstVersion()
    ensures Render(1, 0, 0) == "1.0.0"
  {
  }

  /** The patch number of a "1.0.n" version as the charter and profile allocators read
      it; everything else, a missing version included, is skipped. */
  function PatchOf(version: Option<string>): Option<int> {
    if version.None? then
      None
    else
      var parts := Split(version.value);
      if |parts| == 3 && PyInt(parts[0]) == Some(1) && PyInt(parts[1]) == Some(0) then PyInt(parts[2]) else None
  }

  lemma PatchOfRendered(patch: int)
    ensures PatchOf(Some(Render(1, 0, patch))) == Some(patch)
  {
    SplitRendered(1, 0, patch);
    IntOfPrint(1);
    IntOfPrint(0);
    IntOfPrint(patch);
  }

  predicate AllWellFormed(versions: seq<Option<string>>) {
    forall v :: v in versions && v.Some? ==> WellFormed(v.value)
  }

  lemma NamedPatch(version: Option<string>)
    ensures PatchOf(version).Some? ==> version.Some?
  {
  }

  lemma PatchIsNatural(version: string)
    requires WellFormed(version)
    ensures PatchOf(Some(version)).Some? ==> PatchOf(Some(version)).value >= 0
  {
    var digits := Split(version)[2];
    StripTight(digits);
    UnsignedDigits(digits);
  }

  /** `next_charter_version` and the profile version: one above the largest patch, fresh
      among all versions; and it is a version the control plane takes, as long as those
      listed are: a dotted triple of digits. */
  method NextPatchVersion(versions: seq<Option<string>>) returns (version: string)
    ensures Some(version) !in versions
    ensures PatchOf(Some(version)).Some?
    ensures forall v :: v in versions && PatchOf(v).Some? ==> PatchOf(v).value < PatchOf(Some(version)).value
    ensures (version == "1.0.0" && forall v :: v in versions ==> PatchOf(v).None?)
            || exists v :: v in versions && PatchOf(v).Some? && version == Render(1, 0, PatchOf(v).value + 1)
    ensures AllWellFormed(versions) ==> WellFormed(version)
  {
    hide PatchOf, Render, WellFormed;
    var largest: Option<int> := None;
    for i := 0 to |versions|
      invariant forall j :: 0 <= j < i && PatchOf(versions[j]).Some? ==>
                  largest.Some? && PatchOf(versions[j]).value <= largest.value
      invariant largest.Some? ==> exists v :: v in versions && PatchOf(v) == largest
      invariant AllWellFormed(versions) && largest.Some? ==> largest.value >= 0
    {
      var patch := PatchOf(versions[i]);
      if AllWellFormed(versions) && patch.Some? {
        NamedPatch(versions[i]);
        assert versions[i] in versions;
        PatchIsNatural(versions[i].value);
      }
      if patch.Some? && (largest.None? || largest.value < patch.value) {
        largest := patch;
        assert versions[i] in versions;
      }
    }
    var next := (if largest.None? then -1 else largest.value) + 1;
    version := Render(1, 0, next);
    PatchOfRendered(next);
    if next >= 0 {
      ParsedRendered(1, 0, next);
    }
    if largest.None? {
      FirstVersion();
    }
  }
}
