/** The held-out fidelity sample: one pass over the candidates with a quota per stratum,
    three reasons to skip and a cache of page texts. */
module Sampler {
  import opened Prelude

  datatype Stratum = Equation | Table | Figure

  datatype Artifact = Artifact(id: string, mediaType: string)

  datatype Candidate = Candidate(
    id: string, stratum: Stratum, artifact: Option<Artifact>, page: int, target: string, lines: (int, int))

  /** The text of one page as the two parsers see it. */
  datatype Pages = Pages(native: string, structural: string)

  type PageKey = (string, int)

  /** The parts this model leaves open: reading a page (which may fail), locating the
      target region in a page text, stripping it, splitting a region into the rows of a
      table, and the status the registry gives to a pair of regions. */
  datatype Toolkit = Toolkit(
    read: PageKey -> Option<Pages>,
    region: (Candidate, string) -> string,
    strip: string -> string,
    grid: string -> seq<seq<string>>,
    accepts: (Candidate, string, string) -> bool)

  const PDF := "application/pdf"

  function Quota(s: Stratum): nat {
    match s
    case Equation => 10
    case Table => 5
    case Figure => 5
  }

  datatype Verdict = NonPdf | ParserError | EmptyRegion | Eligible

  predicate Usable(t: Toolkit, c: Candidate, pages: Pages) {
    var native, structural := t.region(c, pages.native), t.region(c, pages.structural);
    && t.strip(native) != "" && t.strip(structural) != ""
    && (c.stratum.Table? ==> |t.grid(native)| >= 2 && |t.grid(structural)| >= 2)
  }

  predicate Accepted(t: Toolkit, c: Candidate) {
    && Judge(t, c).Eligible?
    && var pages := t.read((c.artifact.value.id, c.page)).value;
       t.accepts(c, t.region(c, pages.native), t.region(c, pages.structural))
  }

  /** What a candidate is worth on its own, with its page read afresh. */
  function Judge(t: Toolkit, c: Candidate): Verdict {
    if c.artifact.None? || c.artifact.value.mediaType != PDF then
      NonPdf
    else
      match t.read((c.artifact.value.id, c.page))
      case None => ParserError
      case Some(pages) => if Usable(t, c, pages) then Eligible else EmptyRegion
  }

  function EligibleOf(t: Toolkit, cs: seq<Candidate>, s: Stratum): seq<Candidate> {
    if cs == [] then
      []
    else
      var before, c := EligibleOf(t, cs[..|cs| - 1], s), cs[|cs| - 1];
      if c.stratum == s && Judge(t, c).Eligible? then before + [c] else before
  }

  function OfStratum(cs: seq<Candidate>, s: Stratum): seq<Candidate> {
    if cs == [] then
      []
    else
      var before, c := OfStratum(cs[..|cs| - 1], s), cs[|cs| - 1];
      if c.stratum == s then before + [c] else before
  }

  function First(n: nat, cs: seq<Candidate>): seq<Candidate> {
    if n < |cs| then cs[..n] else cs
  }

  datatype Fate = OverQuota | Skipped(reason: Verdict) | Evaluated

  /** What the pass does with a candidate, given the candidates before it. */
  function FateOf(t: Toolkit, before: seq<Candidate>, c: Candidate): Fate {
    if |EligibleOf(t, before, c.stratum)| >= Quota(c.stratum) then OverQuota
    else if Judge(t, c).Eligible? then Evaluated
    else Skipped(Judge(t, c))
  }

  function Selected(t: Toolkit, cs: seq<Candidate>): seq<Candidate> {
    if cs == [] then
      []
    else
      var before, c := cs[..|cs| - 1], cs[|cs| - 1];
      if FateOf(t, before, c).Evaluated? then Selected(t, before) + [c] else Selected(t, before)
  }

  function Tally(t: Toolkit, cs: seq<Candidate>, fate: Fate): nat {
    if cs == [] then
      0
    else
      var before, c := cs[..|cs| - 1], cs[|cs| - 1];
      Tally(t, before, fate) + if FateOf(t, before, c) == fate then 1 else 0
  }

  function AcceptedIn(t: Toolkit, cs: seq<Candidate>): nat {
    if cs == [] then
      0
    else
      AcceptedIn(t, cs[..|cs| - 1]) + if Accepted(t, cs[|cs| - 1]) then 1 else 0
  }

  lemma Snoc(t: Toolkit, cs: seq<Candidate>, c: Candidate, s: Stratum)
    ensures EligibleOf(t, cs + [c], s) ==
            if c.stratum == s && Judge(t, c).Eligible? then EligibleOf(t, cs, s) + [c] else EligibleOf(t, cs, s)
    ensures OfStratum(cs + [c], s) == if c.stratum == s then OfStratum(cs, s) + [c] else OfStratum(cs, s)
  {
    assert (cs + [c])[..|cs|] == cs;
  }

  /** The sample, stratum by stratum: the first eligible candidates in input order, as
      many as the quota allows. */
  lemma {:induction false} SelectedPerStratum(t: Toolkit, cs: seq<Candidate>, s: Stratum)
    ensures OfStratum(Selected(t, cs), s) == First(Quota(s), EligibleOf(t, cs, s))
    ensures var eligible, quota := EligibleOf(t, cs, s), if s.Equation? then 10 else 5;
            OfStratum(Selected(t, cs), s) == if |eligible| <= quota then eligible else eligible[..quota]
  {
    if cs != [] {
      var before, c := cs[..|cs| - 1], cs[|cs| - 1];
      SelectedPerStratum(t, before, s);
      Snoc(t, Selected(t, before), c, s);
    }
  }

  lemma {:induction false} OwnCandidates(t: Toolkit, cs: seq<Candidate>, s: Stratum)
    ensures EligibleOf(t, OfStratum(cs, s), s) == EligibleOf(t, cs, s)
    ensures OfStratum(OfStratum(cs, s), s) == OfStratum(cs, s)
  {
    if cs != [] {
      var before, c := cs[..|cs| - 1], cs[|cs| - 1];
      OwnCandidates(t, before, s);
      Snoc(t, OfStratum(before, s), c, s);
    }
  }

  /** Strata do not interfere: candidates of other strata, wherever they stand and
      whatever pages they share, change nothing. */
  lemma StrataIndependent(t: Toolkit, cs: seq<Candidate>, ds: seq<Candidate>, s: Stratum)
    requires OfStratum(cs, s) == OfStratum(ds, s)
    ensures OfStratum(Selected(t, cs), s) == OfStratum(Selected(t, ds), s)
  {
    SelectedPerStratum(t, cs, s);
    SelectedPerStratum(t, ds, s);
    OwnCandidates(t, cs, s);
    OwnCandidates(t, ds, s);
  }

  /** Every candidate meets exactly one fate. */
  lemma {:induction false} FatesAddUp(t: Toolkit, cs: seq<Candidate>)
    ensures |cs| == Tally(t, cs, OverQuota) + Tally(t, cs, Skipped(NonPdf)) + Tally(t, cs, Skipped(ParserError))
                    + Tally(t, cs, Skipped(EmptyRegion)) + Tally(t, cs, Evaluated)
    ensures |Selected(t, cs)| == Tally(t, cs, Evaluated)
  {
    if cs != [] {
      FatesAddUp(t, cs[..|cs| - 1]);
    }
  }

  /** A page is read again only while every earlier read of it has failed. */
  ghost predicate ReadOnce(log: seq<(PageKey, bool)>) {
    forall i, j :: 0 <= i < j < |log| && log[i].0 == log[j].0 ==> !log[i].1
  }

  ghost predicate Cached(t: Toolkit, cache: map<PageKey, Pages>, log: seq<(PageKey, bool)>) {
    && (forall key :: key in cache ==> t.read(key) == Some(cache[key]))
    && (forall i :: 0 <= i < |log| && log[i].1 ==> log[i].0 in cache)
    && ReadOnce(log)
  }

  /** The page of a key, from the cache when it is there; a failed read is not cached. */
  method PageOf(t: Toolkit, key: PageKey, cache: map<PageKey, Pages>, ghost log: seq<(PageKey, bool)>)
    returns (page: Option<Pages>, cache': map<PageKey, Pages>, ghost log': seq<(PageKey, bool)>)
    requires Cached(t, cache, log)
    ensures page == t.read(key)
    ensures Cached(t, cache', log') && log' == if key in cache then log else log + [(key, t.read(key).Some?)]
  {
    page, cache', log' := None, cache, log;
    if key !in cache {
      page := t.read(key);
      log' := log + [(key, page.Some?)];
      if page.None? {
        return;
      }
      cache' := cache[key := page.value];
    }
    page := Some(cache'[key]);
  }

  /** One candidate within its quota: read its page through the cache and judge it. */
  method Examine(t: Toolkit, c: Candidate, cache: map<PageKey, Pages>, ghost log: seq<(PageKey, bool)>)
    returns (verdict: Verdict, accepted: bool, cache': map<PageKey, Pages>, ghost log': seq<(PageKey, bool)>)
    requires Cached(t, cache, log)
    ensures verdict == Judge(t, c) && accepted == Accepted(t, c)
    ensures verdict.NonPdf? <==> c.artifact.None? || c.artifact.value.mediaType != "application/pdf"
    ensures Cached(t, cache', log')
  {
    cache', log', accepted := cache, log, false;
    if c.artifact.None? || c.artifact.value.mediaType != PDF {
      return NonPdf, false, cache, log;
    }
    var page;
    page, cache', log' := PageOf(t, (c.artifact.value.id, c.page), cache, log);
    if page.None? {
      verdict := ParserError;
      return;
    }
    var native, structural := t.region(c, page.value.native), t.region(c, page.value.structural);
    if t.strip(native) == "" || t.strip(structural) == "" {
      verdict := EmptyRegion;
      return;
    }
    if c.stratum.Table? && (|t.grid(native)| < 2 || |t.grid(structural)| < 2) {
      verdict := EmptyRegion;
      return;
    }
    verdict, accepted := Eligible, t.accepts(c, native, structural);
  }

  const STRATA: set<Stratum> := {Equation, Table, Figure}
  const REASONS: set<Verdict> := {NonPdf, ParserError, EmptyRegion}

  datatype Report = Report(
    results: seq<Candidate>, evaluated: map<Stratum, nat>, accepted: map<Stratum, nat>, skipped: map<Verdict, nat>)

  function Zero<K>(keys: set<K>): map<K, nat> {
    map k | k in keys :: 0
  }

  /** `counts[key] += n`. */
  function Bump<K>(counts: map<K, nat>, key: K, n: nat): map<K, nat> {
    if key in counts then counts[key := counts[key] + n] else counts
  }

  ghost predicate Counts(t: Toolkit, cs: seq<Candidate>, s: Stratum, evaluated: nat, accepted: nat) {
    var taken := First(Quota(s), EligibleOf(t, cs, s));
    evaluated == |taken| && accepted == AcceptedIn(t, taken)
  }

  /** The whole state of the pass after the candidates `cs`, cache aside. */
  ghost predicate Reports(t: Toolkit, cs: seq<Candidate>, r: Report) {
    && r.results == Selected(t, cs)
    && r.evaluated.Keys == STRATA && r.accepted.Keys == STRATA && r.skipped.Keys == REASONS
    && (forall s :: s in STRATA ==> Counts(t, cs, s, r.evaluated[s], r.accepted[s]))
    && (forall v :: v in REASONS ==> r.skipped[v] == Tally(t, cs, Skipped(v)))
  }

  function After(r: Report, c: Candidate, fate: Fate, accepted: bool): Report {
    match fate
    case OverQuota => r
    case Skipped(reason) => r.(skipped := Bump(r.skipped, reason, 1))
    case Evaluated =>
      r.(results := r.results + [c],
         evaluated := Bump(r.evaluated, c.stratum, 1),
         accepted := Bump(r.accepted, c.stratum, if accepted then 1 else 0))
  }

  lemma CountsStep(t: Toolkit, cs: seq<Candidate>, c: Candidate, s: Stratum, evaluated: nat, accepted: nat)
    requires Counts(t, cs, s, evaluated, accepted)
    ensures var taken := s == c.stratum && FateOf(t, cs, c).Evaluated?;
            Counts(t, cs + [c], s,
                   evaluated + if taken then 1 else 0,
                   accepted + if taken && Accepted(t, c) then 1 else 0)
  {
    hide Judge, Accepted, Quota, First, EligibleOf, AcceptedIn;
    Snoc(t, cs, c, s);
    FirstSnoc(Quota(s), EligibleOf(t, cs, s), c);
    AcceptedSnoc(t, EligibleOf(t, cs, s), c);
  }

  lemma FirstSnoc(n: nat, cs: seq<Candidate>, c: Candidate)
    ensures First(n, cs + [c]) == if |cs| < n then cs + [c] else First(n, cs)
    ensures |cs| < n ==> First(n, cs) == cs
  {
  }

  lemma TallyStep(t: Toolkit, cs: seq<Candidate>, c: Candidate, fate: Fate)
    ensures Tally(t, cs + [c], fate) == Tally(t, cs, fate) + if FateOf(t, cs, c) == fate then 1 else 0
    ensures Selected(t, cs + [c]) == if FateOf(t, cs, c).Evaluated? then Selected(t, cs) + [c] else Selected(t, cs)
  {
    assert (cs + [c])[..|cs|] == cs;
  }

  lemma AcceptedSnoc(t: Toolkit, cs: seq<Candidate>, c: Candidate)
    ensures AcceptedIn(t, cs + [c]) == AcceptedIn(t, cs) + if Accepted(t, c) then 1 else 0
  {
    assert (cs + [c])[..|cs|] == cs;
  }

  lemma ReportsStep(t: Toolkit, cs: seq<Candidate>, c: Candidate, r: Report)
    requires Reports(t, cs, r)
    ensures Reports(t, cs + [c], After(r, c, FateOf(t, cs, c), Accepted(t, c)))
  {
    hide Judge, Accepted, FateOf, Selected, Tally, Counts;
    var next := After(r, c, FateOf(t, cs, c), Accepted(t, c));
    TallyStep(t, cs, c, Evaluated);
    forall s | s in STRATA
      ensures Counts(t, cs + [c], s, next.evaluated[s], next.accepted[s])
    {
      CountsStep(t, cs, c, s, r.evaluated[s], r.accepted[s]);
    }
    forall v | v in REASONS
      ensures next.skipped[v] == Tally(t, cs + [c], Skipped(v))
    {
      TallyStep(t, cs, c, Skipped(v));
    }
  }

  lemma ReportsStart(t: Toolkit)
    ensures Reports(t, [], Report([], Zero(STRATA), Zero(STRATA), Zero(REASONS)))
  {
    hide Judge, Accepted, FateOf;
  }

  lemma OverQuotaTest(t: Toolkit, cs: seq<Candidate>, c: Candidate, r: Report)
    requires Reports(t, cs, r)
    ensures c.stratum in r.evaluated && (r.evaluated[c.stratum] >= Quota(c.stratum) <==> FateOf(t, cs, c).OverQuota?)
    ensures !FateOf(t, cs, c).OverQuota? ==>
              FateOf(t, cs, c) == if Judge(t, c).Eligible? then Evaluated else Skipped(Judge(t, c))
  {
    hide Judge, Accepted, Selected, Tally, EligibleOf, AcceptedIn;
    assert c.stratum == Equation || c.stratum == Table || c.stratum == Figure;
    assert Counts(t, cs, c.stratum, r.evaluated[c.stratum], r.accepted[c.stratum]);
  }

  /** The sampling loop. Its early exit, meant for the moment when every quota is filled,
      is never taken (`exited`): the test before it has found a quota that is not. */
  method Sample(t: Toolkit, cs: seq<Candidate>) returns (r: Report, ghost log: seq<(PageKey, bool)>, ghost exited: bool)
    ensures Reports(t, cs, r) && ReadOnce(log)
    ensures !exited
  {
    hide Judge, Accepted, FateOf, EligibleOf, Selected, Tally, AcceptedIn, Counts, ReadOnce;
    exited := false;
    r, log := Report([], Zero(STRATA), Zero(STRATA), Zero(REASONS)), [];
    var cache: map<PageKey, Pages> := map[];
    ReportsStart(t);
    NothingCached(t);
    for i := 0 to |cs|
      invariant Reports(t, cs[..i], r) && Cached(t, cache, log) && !exited
    {
      var c := cs[i];
      assert cs[..i + 1] == cs[..i] + [c];
      OverQuotaTest(t, cs[..i], c, r);
      ReportsStep(t, cs[..i], c, r);
      if r.evaluated[c.stratum] >= Quota(c.stratum) {
        continue;
      }
      if forall s :: s in STRATA ==> r.evaluated[s] >= Quota(s) {
        exited := true;
        break;
      }
      var verdict, accepted;
      verdict, accepted, cache, log := Examine(t, c, cache, log);
      if verdict != Eligible {
        r := r.(skipped := Bump(r.skipped, verdict, 1));
        continue;
      }
      r := r.(results := r.results + [c],
              evaluated := Bump(r.evaluated, c.stratum, 1),
              accepted := Bump(r.accepted, c.stratum, if accepted then 1 else 0));
    }
    assert cs[..|cs|] == cs;
  }

  lemma NothingCached(t: Toolkit)
    ensures Cached(t, map[], [])
  {
  }

  lemma {:induction false} StrataCover(cs: seq<Candidate>)
    ensures |cs| == |OfStratum(cs, Equation)| + |OfStratum(cs, Table)| + |OfStratum(cs, Figure)|
  {
    if cs != [] {
      StrataCover(cs[..|cs| - 1]);
    }
  }

  /** The counters of a report account for every candidate that was within its quota. */
  lemma AccountedFor(t: Toolkit, cs: seq<Candidate>, r: Report)
    requires Reports(t, cs, r)
    ensures |cs| == Tally(t, cs, OverQuota) + r.skipped[NonPdf] + r.skipped[ParserError] + r.skipped[EmptyRegion]
                    + r.evaluated[Equation] + r.evaluated[Table] + r.evaluated[Figure]
  {
    hide FateOf, Selected, Tally, EligibleOf, OfStratum, First, Quota;
    FatesAddUp(t, cs);
    StrataCover(Selected(t, cs));
    SelectedPerStratum(t, cs, Equation);
    SelectedPerStratum(t, cs, Table);
    SelectedPerStratum(t, cs, Figure);
  }

  datatype Outcome = NoCandidates | NothingEligible | Published(report: Report, missing: set<Stratum>)

  /** The run: it publishes unless no candidate is eligible, and names as missing
      exactly the strata with too few eligible candidates. */
  method Run(t: Toolkit, cs: seq<Candidate>) returns (outcome: Outcome)
    ensures outcome.NoCandidates? <==> cs == []
    ensures outcome.NothingEligible? <==> cs != [] && forall s :: EligibleOf(t, cs, s) == []
    ensures outcome.Published? ==> Reports(t, cs, outcome.report)
    ensures outcome.Published? ==> forall s :: s in outcome.missing <==> |EligibleOf(t, cs, s)| < Quota(s)
  {
    hide Judge, FateOf, Selected, Tally;
    if cs == [] {
      return NoCandidates;
    }
    var report, _, _ := Sample(t, cs);
    NoneEligible(t, cs);
    hide EligibleOf, ReadOnce;
    ReportedCounts(t, cs, report);
    hide Reports;
    if report.results == [] {
      return NothingEligible;
    }
    outcome := Published(report, set s | s in STRATA && report.evaluated[s] < Quota(s));
  }

  lemma ReportedCounts(t: Toolkit, cs: seq<Candidate>, r: Report)
    requires Reports(t, cs, r)
    ensures r.results == Selected(t, cs) && r.evaluated.Keys == STRATA
    ensures forall s :: s in STRATA ==> (r.evaluated[s] < Quota(s) <==> |EligibleOf(t, cs, s)| < Quota(s))
  {
    hide Selected, EligibleOf, AcceptedIn, Tally;
  }

  lemma {:induction false} NoneEligible(t: Toolkit, cs: seq<Candidate>)
    ensures Selected(t, cs) == [] <==> forall s :: EligibleOf(t, cs, s) == []
  {
    forall s
      ensures Selected(t, cs) == [] ==> EligibleOf(t, cs, s) == []
    {
      SelectedPerStratum(t, cs, s);
    }
    if Selected(t, cs) != [] {
      var c := Selected(t, cs)[|Selected(t, cs)| - 1];
      SelectedPerStratum(t, cs, c.stratum);
      assert OfStratum(Selected(t, cs), c.stratum) != [];
    }
  }
}
