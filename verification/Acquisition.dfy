/** The external acquisition run: bounded retries per source, then a qualification
    verdict derived from counts per channel. */
module Acquisition {
  import opened StringOrder

  /** `spec` stands for the remaining fields of a source definition. */
  datatype Source = Source(key: string, kind: string, spec: string)

  /** What one call of the fetcher does: a status with entries, or an exception. */
  datatype Fetch<+E> = Replied(status: int, entries: seq<E>) | Raised

  /** What the control plane records for one poll. */
  datatype Receipt = Receipt(succeeded: bool, entryCount: int, digest: string)

  datatype Outcome = Outcome(key: string, receipt: Receipt, connectorError: bool)

  datatype Coverage = Coverage(expected: nat, successful: nat, nonempty: nat)

  datatype Result =
    | SourceDrift
    | Completed(outcomes: seq<Outcome>, coverage: map<string, Coverage>, unproven: seq<string>)

  predicate Qualified(result: Result)
    requires result.Completed?
  {
    result.unproven == []
  }

  const ATTEMPTS: nat := 3
  const UNAVAILABLE := 503

  predicate Settles<E>(fetch: Fetch<E>) {
    fetch.Replied? && fetch.status < 500
  }

  function ReplyOf<E>(fetch: Fetch<E>): (int, seq<E>) {
    if fetch.Replied? then (fetch.status, fetch.entries) else (UNAVAILABLE, [])
  }

  /** The first attempt that settles the poll, or the last one. */
  function Used<E>(fetcher: (Source, nat) -> Fetch<E>, source: Source, attempt: nat): (used: nat)
    requires attempt < ATTEMPTS
    ensures attempt <= used < ATTEMPTS
    ensures forall k :: attempt <= k < used ==> !Settles(fetcher(source, k))
    ensures Settles(fetcher(source, used)) || used == ATTEMPTS - 1
    decreases ATTEMPTS - attempt
  {
    if Settles(fetcher(source, attempt)) || attempt == ATTEMPTS - 1 then attempt else Used(fetcher, source, attempt + 1)
  }

  /** An error is remembered even when a later attempt succeeds. */
  method FetchWithRetry<E>(source: Source, fetcher: (Source, nat) -> Fetch<E>)
    returns (status: int, entries: seq<E>, error: bool)
    ensures var used := Used(fetcher, source, 0);
            && (status, entries) == ReplyOf(fetcher(source, used))
            && (error <==> exists k :: 0 <= k <= used && fetcher(source, k).Raised?)
    ensures exists n :: Retried(fetcher, source, n, status, entries, error)
  {
    hide Retried;
    status, entries, error := UNAVAILABLE, [], false;
    for attempt := 0 to ATTEMPTS
      invariant attempt < ATTEMPTS ==> Used(fetcher, source, 0) == Used(fetcher, source, attempt)
      invariant attempt == ATTEMPTS ==> Used(fetcher, source, 0) == ATTEMPTS - 1
      invariant attempt > 0 ==> (status, entries) == ReplyOf(fetcher(source, attempt - 1))
      invariant error <==> exists k :: 0 <= k < attempt && fetcher(source, k).Raised?
    {
      match fetcher(source, attempt)
      case Replied(s, e) =>
        status, entries := s, e;
        if s < 500 {
          break;
        }
      case Raised =>
        error, status, entries := true, UNAVAILABLE, [];
    }
    RetriedIs(fetcher, source, status, entries, error);
  }

  /** Attempt `n` of three is the one that counts: none before it gave a status below 500,
      and it did, or is the last. An exception counts as 503 without entries. */
  ghost predicate Retried<E>(fetcher: (Source, nat) -> Fetch<E>, source: Source, n: nat, status: int, entries: seq<E>, error: bool) {
    && n < 3
    && (forall k :: 0 <= k < n ==> fetcher(source, k).Raised? || fetcher(source, k).status >= 500)
    && (n == 2 || (fetcher(source, n).Replied? && fetcher(source, n).status < 500))
    && (match fetcher(source, n)
        case Replied(s, e) => status == s && entries == e
        case Raised => status == 503 && entries == [])
    && (error <==> exists k :: 0 <= k <= n && fetcher(source, k).Raised?)
  }

  lemma RetriedIs<E>(fetcher: (Source, nat) -> Fetch<E>, source: Source, status: int, entries: seq<E>, error: bool)
    requires var used := Used(fetcher, source, 0);
             && (status, entries) == ReplyOf(fetcher(source, used))
             && (error <==> exists k :: 0 <= k <= used && fetcher(source, k).Raised?)
    ensures exists n :: Retried(fetcher, source, n, status, entries, error)
  {
    assert Retried(fetcher, source, Used(fetcher, source, 0), status, entries, error);
  }

  /** A source definition already registered must be the same definition. */
  predicate Drifted(remote: map<string, Source>, source: Source) {
    source.key in remote && remote[source.key] != source
  }

  function OutcomeOf<E>(source: Source, fetcher: (Source, nat) -> Fetch<E>, poll: (Source, int, seq<E>) -> Receipt): Outcome {
    var used := Used(fetcher, source, 0);
    var reply := ReplyOf(fetcher(source, used));
    Outcome(source.key, poll(source, reply.0, reply.1), exists k :: 0 <= k <= used && fetcher(source, k).Raised?)
  }

  function Matching(definitions: seq<Source>, outcomes: seq<Outcome>, kind: string, wanted: Outcome -> bool): nat
    requires |definitions| == |outcomes|
  {
    if definitions == [] then
      0
    else
      (if definitions[0].kind == kind && wanted(outcomes[0]) then 1 else 0)
      + Matching(definitions[1..], outcomes[1..], kind, wanted)
  }

  const ANY := (o: Outcome) => true
  const SUCCESSFUL := (o: Outcome) => o.receipt.succeeded
  const NONEMPTY := (o: Outcome) => o.receipt.succeeded && o.receipt.entryCount > 0

  function CoverageOf(definitions: seq<Source>, outcomes: seq<Outcome>, kind: string): Coverage
    requires |definitions| == |outcomes|
  {
    Coverage(Matching(definitions, outcomes, kind, ANY),
             Matching(definitions, outcomes, kind, SUCCESSFUL),
             Matching(definitions, outcomes, kind, NONEMPTY))
  }

  predicate Unproven(c: Coverage) {
    c.successful != c.expected || c.nonempty != c.expected
  }

  function Kinds(definitions: seq<Source>): seq<string> {
    seq(|definitions|, i requires 0 <= i < |definitions| => definitions[i].kind)
  }

  function KeepUnproven(kinds: seq<string>, coverage: map<string, Coverage>): seq<string>
    requires forall kind :: kind in kinds ==> kind in coverage
  {
    if kinds == [] then []
    else (if Unproven(coverage[kinds[0]]) then [kinds[0]] else []) + KeepUnproven(kinds[1..], coverage)
  }

  lemma {:induction false} KeepUnprovenShape(kinds: seq<string>, coverage: map<string, Coverage>)
    requires forall kind :: kind in kinds ==> kind in coverage
    requires Increasing(kinds)
    ensures var kept := KeepUnproven(kinds, coverage);
            && Increasing(kept)
            && (forall kind :: kind in kept <==> kind in kinds && Unproven(coverage[kind]))
  {
    if kinds != [] {
      KeepUnprovenShape(kinds[1..], coverage);
      assert kinds == [kinds[0]] + kinds[1..];
      var rest := KeepUnproven(kinds[1..], coverage);
      forall j | 0 <= j < |rest|
        ensures Less(kinds[0], rest[j])
      {
        assert rest[j] in kinds[1..];
      }
    }
  }

  ghost predicate Proven(o: Outcome) {
    o.receipt.succeeded && o.receipt.entryCount >= 1
  }

  /** In every channel: non-empty <= successful <= expected, and the channel is proven
      exactly when each of its sources ended with a succeeded, non-empty receipt. */
  lemma {:induction false} CoverageShape(definitions: seq<Source>, outcomes: seq<Outcome>, kind: string)
    requires |definitions| == |outcomes|
    ensures var c := CoverageOf(definitions, outcomes, kind);
            && c.nonempty <= c.successful <= c.expected <= |definitions|
            && (!Unproven(c) <==> forall i :: 0 <= i < |definitions| && definitions[i].kind == kind ==> Proven(outcomes[i]))
    decreases |definitions|
  {
    if definitions != [] {
      CoverageShape(definitions[1..], outcomes[1..], kind);
      var d, o := definitions[1..], outcomes[1..];
      if !Unproven(CoverageOf(definitions, outcomes, kind)) {
        forall i | 0 <= i < |definitions| && definitions[i].kind == kind
          ensures Proven(outcomes[i])
        {
          if i > 0 { assert d[i - 1].kind == kind && Proven(o[i - 1]); }
        }
      }
      if forall i :: 0 <= i < |definitions| && definitions[i].kind == kind ==> Proven(outcomes[i]) {
        forall i | 0 <= i < |d| && d[i].kind == kind
          ensures Proven(o[i])
        {
          assert definitions[i + 1].kind == kind;
        }
      }
    }
  }

  /** The counts of a channel, as numbers of its sources. */
  lemma CoverageCounts(definitions: seq<Source>, outcomes: seq<Outcome>, kind: string)
    requires |definitions| == |outcomes|
    ensures var c := CoverageOf(definitions, outcomes, kind);
            && c.expected == |set i: nat | i < |definitions| && definitions[i].kind == kind|
            && c.successful == |set i: nat | i < |definitions| && definitions[i].kind == kind && outcomes[i].receipt.succeeded|
            && c.nonempty == |set i: nat | i < |definitions| && definitions[i].kind == kind && Proven(outcomes[i])|
  {
    MatchingIs(definitions, outcomes, kind, ANY, 0);
    MatchingIs(definitions, outcomes, kind, SUCCESSFUL, 0);
    MatchingIs(definitions, outcomes, kind, NONEMPTY, 0);
    assert definitions[0..] == definitions && outcomes[0..] == outcomes;
    assert Places(definitions, outcomes, kind, ANY, 0) == set i: nat | i < |definitions| && definitions[i].kind == kind;
    assert Places(definitions, outcomes, kind, SUCCESSFUL, 0)
        == set i: nat | i < |definitions| && definitions[i].kind == kind && outcomes[i].receipt.succeeded;
    assert Places(definitions, outcomes, kind, NONEMPTY, 0)
        == set i: nat | i < |definitions| && definitions[i].kind == kind && Proven(outcomes[i]);
  }

  ghost function Places(definitions: seq<Source>, outcomes: seq<Outcome>, kind: string, wanted: Outcome -> bool, from: nat): set<nat>
    requires |definitions| == |outcomes|
  {
    set i: nat | from <= i < |definitions| && definitions[i].kind == kind && wanted(outcomes[i])
  }

  lemma {:induction false} MatchingIs(definitions: seq<Source>, outcomes: seq<Outcome>, kind: string, wanted: Outcome -> bool, from: nat)
    requires |definitions| == |outcomes| && from <= |definitions|
    ensures Matching(definitions[from..], outcomes[from..], kind, wanted) == |Places(definitions, outcomes, kind, wanted, from)|
    decreases |definitions| - from
  {
    var here := Places(definitions, outcomes, kind, wanted, from);
    if from == |definitions| {
      assert here == {};
    } else {
      MatchingIs(definitions, outcomes, kind, wanted, from + 1);
      assert definitions[from..][1..] == definitions[from + 1..] && outcomes[from..][1..] == outcomes[from + 1..];
      PlacesStep(definitions, outcomes, kind, wanted, from);
      hide Places;
    }
  }

  lemma PlacesStep(definitions: seq<Source>, outcomes: seq<Outcome>, kind: string, wanted: Outcome -> bool, from: nat)
    requires |definitions| == |outcomes| && from < |definitions|
    ensures |Places(definitions, outcomes, kind, wanted, from)|
            == |Places(definitions, outcomes, kind, wanted, from + 1)|
               + if definitions[from].kind == kind && wanted(outcomes[from]) then 1 else 0
  {
    var rest := Places(definitions, outcomes, kind, wanted, from + 1);
    var own: set<nat> := if definitions[from].kind == kind && wanted(outcomes[from]) then {from} else {};
    assert Places(definitions, outcomes, kind, wanted, from) == own + rest && own !! rest;
  }

  function TotalExpected(kinds: seq<string>, definitions: seq<Source>, outcomes: seq<Outcome>): nat
    requires |definitions| == |outcomes|
  {
    if kinds == [] then 0
    else CoverageOf(definitions, outcomes, kinds[0]).expected + TotalExpected(kinds[1..], definitions, outcomes)
  }

  lemma {:induction false} TotalStep(kinds: seq<string>, definitions: seq<Source>, outcomes: seq<Outcome>)
    requires |definitions| == |outcomes| && definitions != [] && Increasing(kinds)
    ensures TotalExpected(kinds, definitions, outcomes)
            == TotalExpected(kinds, definitions[1..], outcomes[1..]) + if definitions[0].kind in kinds then 1 else 0
    decreases |kinds|
  {
    if kinds != [] {
      TotalStep(kinds[1..], definitions, outcomes);
      TailElements(kinds);
    }
  }

  /** Every source is expected in exactly one channel. */
  lemma {:induction false} ExpectedSumsToSources(kinds: seq<string>, definitions: seq<Source>, outcomes: seq<Outcome>)
    requires |definitions| == |outcomes| && Increasing(kinds)
    requires forall i :: 0 <= i < |definitions| ==> definitions[i].kind in kinds
    ensures TotalExpected(kinds, definitions, outcomes) == |definitions|
    decreases |definitions|
  {
    if definitions == [] {
      NothingExpected(kinds);
    } else {
      TotalStep(kinds, definitions, outcomes);
      ExpectedSumsToSources(kinds, definitions[1..], outcomes[1..]);
    }
  }

  lemma {:induction false} NothingExpected(kinds: seq<string>)
    ensures TotalExpected(kinds, [], []) == 0
  {
    if kinds != [] {
      NothingExpected(kinds[1..]);
    }
  }

  /** The verdict: no channel is unproven exactly when every source is proven. */
  lemma QualifiedIff(definitions: seq<Source>, outcomes: seq<Outcome>, coverage: map<string, Coverage>, unproven: seq<string>)
    requires |definitions| == |outcomes|
    requires forall i :: 0 <= i < |definitions| ==> definitions[i].kind in coverage
    requires forall kind :: kind in coverage ==> coverage[kind] == CoverageOf(definitions, outcomes, kind)
    requires forall kind :: kind in unproven <==> kind in coverage && Unproven(coverage[kind])
    ensures unproven == [] <==> forall i :: 0 <= i < |definitions| ==> Proven(outcomes[i])
  {
    if unproven == [] {
      forall i | 0 <= i < |definitions|
        ensures Proven(outcomes[i])
      {
        CoverageShape(definitions, outcomes, definitions[i].kind);
      }
    } else {
      assert unproven[0] in unproven;
      CoverageShape(definitions, outcomes, unproven[0]);
    }
  }

  /** Register, fetch and submit every source in turn; stop at the first drifted one. */
  method PollSources<E>(definitions: seq<Source>, remote: map<string, Source>,
                        fetcher: (Source, nat) -> Fetch<E>, poll: (Source, int, seq<E>) -> Receipt)
    returns (outcomes: seq<Outcome>, drift: bool)
    ensures drift <==> exists i :: 0 <= i < |definitions|
                                   && definitions[i].key in remote && remote[definitions[i].key] != definitions[i]
    ensures drift ==> |outcomes| < |definitions| && var s := definitions[|outcomes|]; s.key in remote && remote[s.key] != s
    ensures !drift ==> |outcomes| == |definitions|
    ensures |outcomes| <= |definitions| && forall i :: 0 <= i < |outcomes| ==> outcomes[i] == OutcomeOf(definitions[i], fetcher, poll)
  {
    outcomes, drift := [], false;
    for i := 0 to |definitions|
      invariant |outcomes| == i
      invariant forall j :: 0 <= j < i ==> outcomes[j] == OutcomeOf(definitions[j], fetcher, poll)
      invariant forall j :: 0 <= j < i ==> !Drifted(remote, definitions[j])
    {
      var source := definitions[i];
      if Drifted(remote, source) {
        drift := true;
        return;
      }
      var status, entries, error := FetchWithRetry(source, fetcher);
      outcomes := outcomes + [Outcome(source.key, poll(source, status, entries), error)];
    }
  }

  /** Coverage per channel and the list of unproven channels, from the outcomes. */
  function Verdict(definitions: seq<Source>, outcomes: seq<Outcome>): Result
    requires |definitions| == |outcomes|
  {
    var coverage := map kind | kind in Kinds(definitions) :: CoverageOf(definitions, outcomes, kind);
    SortedShape(Kinds(definitions));
    Completed(outcomes, coverage, KeepUnproven(Sorted(Kinds(definitions)), coverage))
  }

  /** The verdict is `qualified` exactly when every configured source ended with a
      succeeded, non-empty receipt; the unproven channels are listed in order. */
  lemma VerdictShape(definitions: seq<Source>, outcomes: seq<Outcome>)
    requires |definitions| == |outcomes|
    ensures var v := Verdict(definitions, outcomes);
            && (Qualified(v) <==> forall i :: 0 <= i < |definitions| ==> Proven(outcomes[i]))
            && Increasing(v.unproven)
            && (forall kind :: kind in v.unproven <==> kind in v.coverage && Unproven(v.coverage[kind]))
            && TotalExpected(Sorted(Kinds(definitions)), definitions, outcomes) == |definitions|
  {
    var v := Verdict(definitions, outcomes);
    SortedShape(Kinds(definitions));
    KeepUnprovenShape(Sorted(Kinds(definitions)), v.coverage);
    forall i | 0 <= i < |definitions|
      ensures definitions[i].kind in Kinds(definitions)
    {
      assert Kinds(definitions)[i] == definitions[i].kind;
    }
    QualifiedIff(definitions, outcomes, v.coverage, v.unproven);
    ExpectedSumsToSources(Sorted(Kinds(definitions)), definitions, outcomes);
  }

  method Acquire<E>(definitions: seq<Source>, remote: map<string, Source>,
                    fetcher: (Source, nat) -> Fetch<E>, poll: (Source, int, seq<E>) -> Receipt)
    returns (result: Result)
    ensures result.SourceDrift? <==> exists i :: 0 <= i < |definitions|
                                                 && definitions[i].key in remote && remote[definitions[i].key] != definitions[i]
    ensures result.Completed? ==>
              && |result.outcomes| == |definitions|
              && (forall i :: 0 <= i < |definitions| ==> result.outcomes[i] == OutcomeOf(definitions[i], fetcher, poll))
              && result == Verdict(definitions, result.outcomes)
  {
    var outcomes, drift := PollSources(definitions, remote, fetcher, poll);
    if drift {
      return SourceDrift;
    }
    result := Verdict(definitions, outcomes);
  }
}
