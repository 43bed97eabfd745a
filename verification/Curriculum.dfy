/** The curriculum pilot's `all` command: register a curriculum per domain, evaluate each,
    then register the portfolio, reusing at every step a record that is already there
    and agrees. The control plane keeps one record per key and version, stores payload
    fields as sent, and evaluates a curriculum only on the corpus it was registered on. */
module Curriculum {
  import opened Prelude
  import opened StringOrder

  /** One entry of a document's list of domains. */
  datatype Item<+T> = Item(key: string, value: T)

  datatype Domain = Domain(title: string, topic: string, heldOutQuery: string, opposingQuery: string)

  datatype Anchor = Anchor(expectedSource: string, opposingSource: string, expectedObject: string, opposingObject: string)

  datatype Catalog = Catalog(
    version: string, evaluationVersion: Option<string>, portfolioKey: string, portfolioVersion: Option<string>,
    project: string, roles: seq<string>, domains: seq<Item<Domain>>)

  /** Payloads without their constant fields. */
  datatype CurriculumPayload = CurriculumPayload(
    domainKey: string, version: string, title: string, project: string, topic: string,
    evidence: seq<string>, sources: seq<string>, opposing: seq<string>, roles: seq<string>)

  datatype Case = Case(
    caseKey: string, query: string, oppositionQuery: Option<string>,
    expected: seq<string>, opposing: seq<string>, shouldAbstain: bool)

  datatype EvaluationPayload = EvaluationPayload(curriculum: nat, version: string, cases: seq<Case>)

  datatype PortfolioPayload = PortfolioPayload(key: string, version: string, domainKeys: seq<string>, curricula: seq<nat>)

  /** The digest that the projections are built on, or that they are behind the corpus. */
  datatype Corpus = Stale | Fresh(digest: string)

  /** Records; curricula are identified by their position. */
  datatype Record = Record(payload: CurriculumPayload, corpus: string)

  datatype Evaluation = Evaluation(payload: EvaluationPayload, passed: bool)

  datatype Portfolio = Portfolio(payload: PortfolioPayload, ready: bool)

  function Index<T>(items: seq<Item<T>>): map<string, T> {
    if items == [] then map[]
    else Index(items[..|items| - 1])[items[|items| - 1].key := items[|items| - 1].value]
  }

  ghost predicate Distinct<T>(items: seq<Item<T>>) {
    forall i, j :: 0 <= i < j < |items| ==> items[i].key != items[j].key
  }

  lemma {:induction false} IndexKeys<T>(items: seq<Item<T>>)
    ensures forall k :: k in Index(items) <==> exists i :: 0 <= i < |items| && items[i].key == k
  {
    if items != [] {
      var before, last := items[..|items| - 1], items[|items| - 1];
      IndexKeys(before);
      forall k
        ensures k in Index(items) <==> exists i :: 0 <= i < |items| && items[i].key == k
      {
        if k in Index(before) {
          var i :| 0 <= i < |before| && before[i].key == k;
          assert items[i].key == k;
        }
      }
    }
  }

  /** `indexed_domains`: as many entries as items exactly when no key repeats. */
  lemma {:induction false} IndexMeaning<T>(items: seq<Item<T>>)
    ensures |Index(items)| <= |items| && (|Index(items)| == |items| <==> Distinct(items))
  {
    if items != [] {
      var before, last := items[..|items| - 1], items[|items| - 1];
      IndexMeaning(before);
      DistinctSnoc(items);
      hide Distinct;
      assert Index(items).Keys == Index(before).Keys + {last.key};
      if last.key in Index(before) {
        assert Index(items).Keys == Index(before).Keys;
      } else {
        assert |Index(items).Keys| == |Index(before).Keys| + 1;
      }
      assert |Index(items)| == |Index(items).Keys| && |Index(before)| == |Index(before).Keys|;
    }
  }

  lemma DistinctSnoc<T>(items: seq<Item<T>>)
    requires items != []
    ensures Distinct(items) <==> Distinct(items[..|items| - 1]) && items[|items| - 1].key !in Index(items[..|items| - 1])
  {
    hide Index;
    var before, last := items[..|items| - 1], items[|items| - 1];
    IndexKeys(before);
    if last.key in Index(before) {
      var i :| 0 <= i < |before| && before[i].key == last.key;
      assert items[i].key == items[|items| - 1].key;
    }
  }

  function Keys<T>(items: seq<Item<T>>): seq<string> {
    seq(|items|, i requires 0 <= i < |items| => items[i].key)
  }

  function SortedPair(a: string, b: string): seq<string> {
    Sorted([a, b])
  }

  /** The sorted set of two source ids has two members exactly when they differ. */
  lemma PairLength(a: string, b: string)
    ensures |SortedPair(a, b)| == 2 <==> a != b
  {
    var none: seq<string> := [];
    assert [a, b][1..] == [b] && [b][1..] == none;
    assert Sorted(none) == none && Insert(none, b) == [b] && Insert(none, a) == [a];
    assert Sorted([b]) == [b];
    assert Sorted([a, b]) == Insert([b], a);
    LessIrreflexive(a);
  }

  function EvaluationVersion(catalog: Catalog): string {
    if catalog.evaluationVersion.Some? then catalog.evaluationVersion.value else catalog.version
  }

  function PortfolioVersion(catalog: Catalog): string {
    if catalog.portfolioVersion.Some? then catalog.portfolioVersion.value else catalog.version
  }

  function CurriculumFor(catalog: Catalog, key: string, d: Domain, a: Anchor): CurriculumPayload {
    CurriculumPayload(
      key, catalog.version, d.title, catalog.project, d.topic, [a.expectedObject],
      SortedPair(a.expectedSource, a.opposingSource), [a.opposingObject], catalog.roles)
  }

  function Upper(s: string): string {
    seq(|s|, i requires 0 <= i < |s| => if 'a' <= s[i] <= 'z' then (s[i] as int - 32) as char else s[i])
  }

  function EvaluationFor(catalog: Catalog, key: string, d: Domain, a: Anchor, k: nat): EvaluationPayload {
    EvaluationPayload(
      k, EvaluationVersion(catalog),
      [Case(key + "-held-out", d.heldOutQuery, Some(d.opposingQuery), [a.expectedObject], [a.opposingObject], false),
       Case(key + "-unknown", "What was the result of private study HERMES-RI009B-" + Upper(key) + "-ZQX-2049?", None, [], [], true)])
  }

  /** The two documents, indexed, in the order the command walks them. */
  datatype Inputs = Inputs(catalog: Catalog, domains: map<string, Domain>, anchors: map<string, Anchor>, order: seq<string>)

  ghost predicate Readable(inputs: Inputs) {
    && (forall i :: 0 <= i < |inputs.order| ==> inputs.order[i] in inputs.domains && inputs.order[i] in inputs.anchors)
    && (forall i, j :: 0 <= i < j < |inputs.order| ==> inputs.order[i] != inputs.order[j])
  }

  predicate TwoSources(a: Anchor) {
    a.expectedSource != a.opposingSource
  }

  function Wanted(inputs: Inputs, i: nat): CurriculumPayload
    requires i < |inputs.order| && Readable(inputs)
  {
    var key := inputs.order[i];
    CurriculumFor(inputs.catalog, key, inputs.domains[key], inputs.anchors[key])
  }

  function WantedEvaluation(inputs: Inputs, i: nat, k: nat): (p: EvaluationPayload)
    requires i < |inputs.order| && Readable(inputs)
    ensures p.curriculum == k
  {
    var key := inputs.order[i];
    EvaluationFor(inputs.catalog, key, inputs.domains[key], inputs.anchors[key], k)
  }

  /** What a registered curriculum says, field by field: the expected object is its evidence
      and the opposing one its opposition, from the two sources in order. */
  ghost predicate Grounded(p: CurriculumPayload, inputs: Inputs, i: nat)
    requires i < |inputs.order| && Readable(inputs)
  {
    var c, d, a := inputs.catalog, inputs.domains[inputs.order[i]], inputs.anchors[inputs.order[i]];
    && p.domainKey == inputs.order[i] && p.version == c.version && p.project == c.project && p.roles == c.roles
    && p.title == d.title && p.topic == d.topic
    && p.evidence == [a.expectedObject] && p.opposing == [a.opposingObject]
    && Increasing(p.sources) && forall s :: s in p.sources <==> s == a.expectedSource || s == a.opposingSource
  }

  lemma WantedIsGrounded(inputs: Inputs, i: nat)
    requires i < |inputs.order| && Readable(inputs)
    ensures Grounded(Wanted(inputs, i), inputs, i)
  {
    var a := inputs.anchors[inputs.order[i]];
    SortedShape([a.expectedSource, a.opposingSource]);
    hide Sorted;
  }

  /** The fields leave no choice. */
  lemma GroundedIsWanted(p: CurriculumPayload, inputs: Inputs, i: nat)
    requires i < |inputs.order| && Readable(inputs) && Grounded(p, inputs, i)
    ensures p == Wanted(inputs, i)
  {
    WantedIsGrounded(inputs, i);
    IncreasingUnique(p.sources, Wanted(inputs, i).sources);
  }

  /** What an evaluation examines: the held-out question expects the evidence of the
      curriculum it evaluates and opposes its opposition; one more case, about a study that
      does not exist, expects nothing and must abstain. */
  ghost predicate Examines(e: EvaluationPayload, p: CurriculumPayload, inputs: Inputs, i: nat)
    requires i < |inputs.order| && Readable(inputs)
  {
    var c, key, d := inputs.catalog, inputs.order[i], inputs.domains[inputs.order[i]];
    && e.version == (if c.evaluationVersion.Some? then c.evaluationVersion.value else c.version)
    && |e.cases| == 2 && e.cases[0].caseKey != e.cases[1].caseKey
    && exists n :: 0 <= n < 2 && Abstains(e.cases[n], key) && Asks(e.cases[1 - n], key, p, d)
  }

  ghost predicate Asks(c: Case, key: string, p: CurriculumPayload, d: Domain) {
    && !c.shouldAbstain && c.caseKey == key + "-held-out"
    && c.query == d.heldOutQuery && c.oppositionQuery == Some(d.opposingQuery)
    && c.expected == p.evidence && c.opposing == p.opposing
  }

  ghost predicate Abstains(c: Case, key: string) {
    && c.shouldAbstain && c.caseKey == key + "-unknown" && c.oppositionQuery.None? && c.expected == [] && c.opposing == []
    && exists name :: InCapitals(name, key)
                      && c.query == "What was the result of private study HERMES-RI009B-" + name + "-ZQX-2049?"
  }

  ghost predicate InCapitals(name: string, key: string) {
    && |name| == |key|
    && forall i :: 0 <= i < |key| ==>
         if 'a' <= key[i] <= 'z' then name[i] as int - 'A' as int == key[i] as int - 'a' as int else name[i] == key[i]
  }

  lemma WantedEvaluationExamines(inputs: Inputs, i: nat, k: nat, p: CurriculumPayload)
    requires i < |inputs.order| && Readable(inputs) && Grounded(p, inputs, i)
    ensures Examines(WantedEvaluation(inputs, i, k), p, inputs, i)
  {
    var key := inputs.order[i];
    var e := WantedEvaluation(inputs, i, k);
    assert InCapitals(Upper(key), key);
    assert Abstains(e.cases[1], key);
    assert e.cases[0].caseKey[|key| + 1] == 'h' && e.cases[1].caseKey[|key| + 1] == 'u';
    assert Asks(e.cases[1 - 1], key, p, inputs.domains[key]);
  }

  /** `prepare` reading the documents: keys must be unique in both and the same in both. */
  method Read(catalog: Catalog, anchors: seq<Item<Anchor>>) returns (inputs: Option<Inputs>)
    ensures inputs.Some? <==>
              Distinct(catalog.domains) && Distinct(anchors) && Index(catalog.domains).Keys == Index(anchors).Keys
    ensures inputs.Some? ==> Readable(inputs.value)
    ensures inputs.Some? ==>
              inputs.value == Inputs(catalog, Index(catalog.domains), Index(anchors), Sorted(Keys(catalog.domains)))
    ensures inputs.Some? ==> Increasing(inputs.value.order) && forall k :: k in inputs.value.order <==> k in Keys(catalog.domains)
  {
    hide Index, Distinct;
    var d, a := Index(catalog.domains), Index(anchors);
    IndexMeaning(catalog.domains);
    IndexMeaning(anchors);
    if |d| != |catalog.domains| || |a| != |anchors| || d.Keys != a.Keys {
      return None;
    }
    var order := Sorted(Keys(catalog.domains));
    SortedShape(Keys(catalog.domains));
    IndexKeys(catalog.domains);
    forall k | k in order
      ensures k in d
    {
      var i :| 0 <= i < |catalog.domains| && Keys(catalog.domains)[i] == k;
      assert catalog.domains[i].key == k;
    }
    forall i, j | 0 <= i < j < |order|
      ensures order[i] != order[j]
    {
      LessIrreflexive(order[i]);
    }
    inputs := Some(Inputs(catalog, d, a, order));
  }

  lemma {:induction false} IndexEntry<T>(items: seq<Item<T>>, i: nat)
    requires Distinct(items) && i < |items|
    ensures items[i].key in Index(items) && Index(items)[items[i].key] == items[i].value
  {
    if i < |items| - 1 {
      DistinctSnoc(items);
      IndexEntry(items[..|items| - 1], i);
    }
  }

  lemma IndexLookup<T>(items: seq<Item<T>>, k: string)
    requires Distinct(items) && k in Index(items)
    ensures Item(k, Index(items)[k]) in items
  {
    IndexKeys(items);
    var i :| 0 <= i < |items| && items[i].key == k;
    IndexEntry(items, i);
    assert items[i] in items;
  }

  /** The entries of a document may stand in any order: its index and the order in which
      its domains are walked depend on the entries alone. */
  lemma ReadingOrder<T>(items: seq<Item<T>>, others: seq<Item<T>>)
    requires Distinct(items) && Distinct(others) && forall x :: x in items <==> x in others
    ensures Index(items) == Index(others) && Sorted(Keys(items)) == Sorted(Keys(others))
  {
    IndexedBy(items, others);
    IndexedBy(others, items);
    hide Index, Distinct;
    forall k
      ensures k in Keys(items) <==> k in Keys(others)
    {
      SameKeys(items, others, k);
      SameKeys(others, items, k);
    }
    SortedDependsOnElements(Keys(items), Keys(others));
  }

  lemma IndexedBy<T>(items: seq<Item<T>>, others: seq<Item<T>>)
    requires Distinct(items) && Distinct(others) && forall x :: x in items ==> x in others
    ensures forall k :: k in Index(items) ==> k in Index(others) && Index(others)[k] == Index(items)[k]
  {
    forall k | k in Index(items)
      ensures k in Index(others) && Index(others)[k] == Index(items)[k]
    {
      IndexLookup(items, k);
      var i :| 0 <= i < |others| && others[i] == Item(k, Index(items)[k]);
      IndexEntry(others, i);
    }
  }

  lemma SameKeys<T>(items: seq<Item<T>>, others: seq<Item<T>>, k: string)
    requires forall x :: x in items ==> x in others
    ensures k in Keys(items) ==> k in Keys(others)
  {
    if k in Keys(items) {
      var i :| 0 <= i < |items| && Keys(items)[i] == k;
      assert items[i] in others;
      var j :| 0 <= j < |others| && others[j] == items[i];
      assert Keys(others)[j] == k;
    }
  }

  predicate SameSlot(a: CurriculumPayload, b: CurriculumPayload) {
    a.domainKey == b.domainKey && a.version == b.version
  }

  predicate SameRound(a: EvaluationPayload, b: EvaluationPayload) {
    a.curriculum == b.curriculum && a.version == b.version
  }

  predicate SameTitle(a: PortfolioPayload, b: PortfolioPayload) {
    a.key == b.key && a.version == b.version
  }

  /** The first record in the slot of a payload. */
  function SlotOf(records: seq<Record>, p: CurriculumPayload): (k: Option<nat>)
    ensures k.Some? ==> k.value < |records| && SameSlot(records[k.value].payload, p)
    ensures k.None? ==> forall i :: 0 <= i < |records| ==> !SameSlot(records[i].payload, p)
  {
    if records == [] then None
    else
      var before := SlotOf(records[..|records| - 1], p);
      if before.Some? then before
      else if SameSlot(records[|records| - 1].payload, p) then Some(|records| - 1) else None
  }

  function RoundOf(evaluations: seq<Evaluation>, p: EvaluationPayload): (e: Option<nat>)
    ensures e.Some? ==> e.value < |evaluations| && SameRound(evaluations[e.value].payload, p)
    ensures e.None? ==> forall i :: 0 <= i < |evaluations| ==> !SameRound(evaluations[i].payload, p)
  {
    if evaluations == [] then None
    else
      var before := RoundOf(evaluations[..|evaluations| - 1], p);
      if before.Some? then before
      else if SameRound(evaluations[|evaluations| - 1].payload, p) then Some(|evaluations| - 1) else None
  }

  function TitleOf(portfolios: seq<Portfolio>, p: PortfolioPayload): (t: Option<nat>)
    ensures t.Some? ==> t.value < |portfolios| && SameTitle(portfolios[t.value].payload, p)
    ensures t.None? ==> forall i :: 0 <= i < |portfolios| ==> !SameTitle(portfolios[i].payload, p)
  {
    if portfolios == [] then None
    else
      var before := TitleOf(portfolios[..|portfolios| - 1], p);
      if before.Some? then before
      else if SameTitle(portfolios[|portfolios| - 1].payload, p) then Some(|portfolios| - 1) else None
  }

  /** A slot, once taken, stays with its record; a record elsewhere does not take it. */
  lemma {:induction false} SlotKept(records: seq<Record>, more: seq<Record>, p: CurriculumPayload)
    requires records <= more
    ensures SlotOf(records, p).Some? ==> SlotOf(more, p) == SlotOf(records, p)
    ensures (forall i :: |records| <= i < |more| ==> !SameSlot(more[i].payload, p)) ==> SlotOf(more, p) == SlotOf(records, p)
    decreases |more|
  {
    if |records| < |more| {
      SlotKept(records, more[..|more| - 1], p);
    } else {
      assert more == records;
    }
  }

  lemma {:induction false} RoundKept(evaluations: seq<Evaluation>, more: seq<Evaluation>, p: EvaluationPayload)
    requires evaluations <= more
    ensures RoundOf(evaluations, p).Some? ==> RoundOf(more, p) == RoundOf(evaluations, p)
    ensures (forall i :: |evaluations| <= i < |more| ==> !SameRound(more[i].payload, p)) ==> RoundOf(more, p) == RoundOf(evaluations, p)
    decreases |more|
  {
    if |evaluations| < |more| {
      RoundKept(evaluations, more[..|more| - 1], p);
    } else {
      assert more == evaluations;
    }
  }

  /** One curriculum per domain and version. */
  ghost predicate OnePerDomain(records: seq<Record>) {
    forall j, k :: 0 <= j < k < |records| ==>
      records[j].payload.domainKey != records[k].payload.domainKey || records[j].payload.version != records[k].payload.version
  }

  /** One evaluation per curriculum and version. */
  ghost predicate OnePerRound(evaluations: seq<Evaluation>) {
    forall d, e :: 0 <= d < e < |evaluations| ==>
      evaluations[d].payload.curriculum != evaluations[e].payload.curriculum || evaluations[d].payload.version != evaluations[e].payload.version
  }

  /** One portfolio per key and version. */
  ghost predicate OnePerTitle(portfolios: seq<Portfolio>) {
    forall t, u :: 0 <= t < u < |portfolios| ==> OtherTitle(portfolios[t].payload, portfolios[u].payload)
  }

  ghost predicate OtherTitle(p: PortfolioPayload, q: PortfolioPayload) {
    p.key != q.key || p.version != q.version
  }

  lemma TitlesDiffer(p: PortfolioPayload, q: PortfolioPayload)
    ensures OtherTitle(p, q) <==> !SameTitle(p, q)
  {
  }

  lemma SlotFree(records: seq<Record>, r: Record)
    requires OnePerDomain(records) && SlotOf(records, r.payload).None?
    ensures OnePerDomain(records + [r])
  {
    hide SlotOf;
  }

  lemma RoundFree(evaluations: seq<Evaluation>, more: seq<Evaluation>)
    requires OnePerRound(evaluations) && |more| == |evaluations| + 1 && evaluations <= more
    requires RoundOf(evaluations, more[|evaluations|].payload).None?
    ensures OnePerRound(more)
  {
    hide RoundOf;
    var n := |evaluations|;
    forall d, e | 0 <= d < e < |more|
      ensures more[d].payload.curriculum != more[e].payload.curriculum || more[d].payload.version != more[e].payload.version
    {
      assert more[d] == evaluations[d];
      if e < n {
        assert more[e] == evaluations[e];
      } else {
        assert !SameRound(evaluations[d].payload, more[n].payload);
      }
    }
  }

  lemma TitleFree(portfolios: seq<Portfolio>, more: seq<Portfolio>)
    requires OnePerTitle(portfolios) && |more| == |portfolios| + 1 && portfolios <= more
    requires TitleOf(portfolios, more[|portfolios|].payload).None?
    ensures OnePerTitle(more)
  {
    hide TitleOf, OtherTitle, SameTitle;
    var n := |portfolios|;
    forall t, u | 0 <= t < u < |more|
      ensures OtherTitle(more[t].payload, more[u].payload)
    {
      assert more[t] == portfolios[t];
      if u < n {
        assert more[u] == portfolios[u];
      } else {
        TitlesDiffer(portfolios[t].payload, more[n].payload);
      }
    }
  }

  /** What a fault-free `prepare` needs for one domain, given the records at its start. */
  predicate Preparable(records: seq<Record>, accepts: CurriculumPayload -> bool, corpus: Corpus, p: CurriculumPayload) {
    var k := SlotOf(records, p);
    if k.Some? then records[k.value].payload == p else corpus.Fresh? && accepts(p)
  }

  /** What a fault-free `evaluate` needs for one curriculum. */
  predicate Evaluable(records: seq<Record>, evaluations: seq<Evaluation>, corpus: Corpus, p: EvaluationPayload)
    requires p.curriculum < |records|
  {
    var e := RoundOf(evaluations, p);
    if e.Some? then evaluations[e.value].payload == p else corpus == Fresh(records[p.curriculum].corpus)
  }

  predicate Finalizable(portfolios: seq<Portfolio>, corpus: Corpus, p: PortfolioPayload) {
    var t := TitleOf(portfolios, p);
    if t.Some? then portfolios[t.value].payload == p else corpus.Fresh?
  }

  class ControlPlane {
    /** The corpus the projections are built on; it may move between runs. */
    var corpus: Corpus
    /** Whether the evidence a curriculum cites is known and of the required authority. */
    const accepts: CurriculumPayload -> bool
    var records: seq<Record>
    var evaluations: seq<Evaluation>
    var portfolios: seq<Portfolio>

    constructor (corpus: Corpus, accepts: CurriculumPayload -> bool)
      ensures this.accepts == accepts && records == [] && evaluations == [] && portfolios == []
    {
      this.corpus, this.accepts := corpus, accepts;
      records, evaluations, portfolios := [], [], [];
    }

    method PostCurriculum(faults: bool, p: CurriculumPayload) returns (ok: bool, k: nat)
      requires SlotOf(records, p).None?
      modifies this`records
      ensures records == old(records) || (corpus.Fresh? && accepts(p) && records == old(records) + [Record(p, corpus.digest)])
      ensures ok ==> |records| == |old(records)| + 1 && k == |old(records)|
      ensures !faults ==> (ok <==> corpus.Fresh? && accepts(p))
    {
      k := |records|;
      var stop := Stops(faults);
      if stop || corpus.Stale? || !accepts(p) {
        return false, k;
      }
      records := records + [Record(p, corpus.digest)];
      var lost := Stops(faults);
      ok := !lost;
    }

    method PostEvaluation(faults: bool, p: EvaluationPayload) returns (ok: bool, e: nat)
      requires p.curriculum < |records| && RoundOf(evaluations, p).None?
      modifies this`evaluations
      ensures evaluations == old(evaluations)
              || (|evaluations| == |old(evaluations)| + 1 && old(evaluations) <= evaluations
                  && evaluations[|old(evaluations)|].payload == p && corpus == Fresh(records[p.curriculum].corpus))
      ensures ok ==> |evaluations| == |old(evaluations)| + 1 && e == |old(evaluations)|
      ensures !faults ==> (ok <==> corpus == Fresh(records[p.curriculum].corpus))
    {
      e := |evaluations|;
      var stop := Stops(faults);
      if stop || corpus != Fresh(records[p.curriculum].corpus) {
        return false, e;
      }
      var passed: bool := *;
      evaluations := evaluations + [Evaluation(p, passed)];
      var lost := Stops(faults);
      ok := !lost;
    }

    method PostPortfolio(faults: bool, p: PortfolioPayload) returns (ok: bool, t: nat)
      requires TitleOf(portfolios, p).None?
      modifies this`portfolios
      ensures portfolios == old(portfolios)
              || (|portfolios| == |old(portfolios)| + 1 && old(portfolios) <= portfolios
                  && portfolios[|old(portfolios)|].payload == p && corpus.Fresh?)
      ensures ok ==> |portfolios| == |old(portfolios)| + 1 && t == |old(portfolios)|
      ensures !faults ==> (ok <==> corpus.Fresh?)
    {
      t := |portfolios|;
      var stop := Stops(faults);
      if stop || corpus.Stale? {
        return false, t;
      }
      var ready: bool := *;
      portfolios := portfolios + [Portfolio(p, ready)];
      var lost := Stops(faults);
      ok := !lost;
    }

    /** One domain of `prepare`: the registered curriculum when it is the same, an error
        when it differs, a new one when there is none. `existing` is the list fetched at
        the start. */
    method PrepareDomain(faults: bool, inputs: Inputs, i: nat, existing: seq<Record>) returns (ok: bool, k: nat)
      requires Readable(inputs) && i < |inputs.order|
      requires existing <= records && SlotOf(existing, Wanted(inputs, i)) == SlotOf(records, Wanted(inputs, i))
      modifies this`records
      ensures records == old(records)
              || (SlotOf(existing, Wanted(inputs, i)).None? && corpus.Fresh? && accepts(Wanted(inputs, i))
                  && records == old(records) + [Record(Wanted(inputs, i), corpus.digest)])
      ensures ok ==> k < |records| && SlotOf(records, Wanted(inputs, i)) == Some(k) && records[k].payload == Wanted(inputs, i)
      ensures ok ==> TwoSources(inputs.anchors[inputs.order[i]])
      ensures old(OnePerDomain(records)) ==> OnePerDomain(records)
      ensures !faults ==> (ok <==> DomainReady(inputs, accepts, corpus, existing, i))
    {
      hide CurriculumFor, SameSlot, SortedPair, OnePerDomain;
      k := 0;
      var a := inputs.anchors[inputs.order[i]];
      PairLength(a.expectedSource, a.opposingSource);
      if |SortedPair(a.expectedSource, a.opposingSource)| != 2 {
        return false, k;
      }
      var p := Wanted(inputs, i);
      var found := SlotOf(existing, p);
      if found.Some? {
        return records[found.value].payload == p, found.value;
      }
      ok, k := PostCurriculum(faults, p);
      if old(OnePerDomain(records)) && records != old(records) {
        SlotFree(old(records), Record(p, corpus.digest));
      }
      if ok {
        SlotTaken(old(records), Record(p, corpus.digest));
      }
    }

    /** `prepare` after the documents are read: one curriculum per domain. */
    method Prepare(faults: bool, inputs: Inputs) returns (ok: bool, ids: seq<nat>)
      requires Readable(inputs)
      modifies this`records
      ensures OnlyWanted(inputs, old(records), records, corpus, |inputs.order|) && OnlyAccepted(accepts, old(records), records)
      ensures ok ==> Served(inputs, records, ids, |inputs.order|)
      ensures ok ==> AllGrounded(inputs, records, ids)
      ensures NewGrounded(inputs, old(records), records)
      ensures old(OnePerDomain(records)) ==> OnePerDomain(records)
      ensures AllTaken(inputs, old(records), |inputs.order|) ==> records == old(records)
      ensures !faults ==> (ok <==> AllReady(inputs, accepts, corpus, old(records), |inputs.order|))
    {
      hide SlotOf, Wanted, SameSlot, OnlyWanted, Served, DomainReady, TwoSources, OnePerDomain, AllGrounded, Grounded;
      ids := [];
      var existing := records;
      PrepareStart(inputs, existing, corpus);
      for i := 0 to |inputs.order|
        invariant existing <= records && OnlyWanted(inputs, existing, records, corpus, i) && Served(inputs, records, ids, i)
        invariant OnlyAccepted(accepts, existing, records)
        invariant NewGrounded(inputs, existing, records)
        invariant old(OnePerDomain(records)) ==> OnePerDomain(records)
        invariant AllTaken(inputs, existing, i) ==> records == existing
        invariant !faults ==> AllReady(inputs, accepts, corpus, existing, i)
      {
        ghost var before := records;
        OtherSlots(inputs, existing, records, corpus, i);
        var k;
        ok, k := PrepareDomain(faults, inputs, i, existing);
        PrepareStep(inputs, existing, before, records, corpus, i);
        WantedAreGrounded(inputs, existing, records, corpus);
        if !ok {
          return;
        }
        ServedStep(inputs, before, records, ids, i, k);
        ids := ids + [k];
      }
      ok := true;
      ServedAreGrounded(inputs, records, ids);
    }

    ghost predicate Valid()
      reads this
    {
      Rooted(records, evaluations, portfolios)
    }

    /** One curriculum of `evaluate`. */
    method EvaluateOne(faults: bool, p: EvaluationPayload) returns (ok: bool, e: nat)
      requires p.curriculum < |records|
      modifies this`evaluations
      ensures evaluations == old(evaluations)
              || (RoundOf(old(evaluations), p).None? && |evaluations| == |old(evaluations)| + 1 && old(evaluations) <= evaluations
                  && evaluations[|old(evaluations)|].payload == p && corpus == Fresh(records[p.curriculum].corpus))
      ensures ok ==> e < |evaluations| && RoundOf(evaluations, p) == Some(e) && evaluations[e].payload == p
      ensures old(OnePerRound(evaluations)) ==> OnePerRound(evaluations)
      ensures !faults ==> (ok <==> Evaluable(records, old(evaluations), corpus, p))
    {
      hide OnePerRound;
      var found := RoundOf(evaluations, p);
      if found.Some? {
        return evaluations[found.value].payload == p, found.value;
      }
      ok, e := PostEvaluation(faults, p);
      if old(OnePerRound(evaluations)) && evaluations != old(evaluations) {
        RoundFree(old(evaluations), evaluations);
      }
      if ok {
        assert evaluations[..e] == old(evaluations);
      }
    }

    /** `evaluate`: one evaluation per curriculum, reused or posted. */
    method Evaluate(faults: bool, inputs: Inputs, ids: seq<nat>) returns (ok: bool, done: seq<nat>)
      requires Readable(inputs) && Served(inputs, records, ids, |inputs.order|)
      modifies this`evaluations
      ensures OnlyRounds(inputs, ids, records, corpus, old(evaluations), evaluations, |ids|)
      ensures ok ==> Evaluated(inputs, ids, evaluations, done, |ids|)
      ensures AllRounds(inputs, ids, old(evaluations), |ids|) ==> evaluations == old(evaluations)
      ensures old(OnePerRound(evaluations)) ==> OnePerRound(evaluations)
      ensures !faults ==> (ok <==> AllEvaluable(inputs, ids, records, old(evaluations), corpus, |ids|))
    {
      hide RoundOf, SlotOf, WantedEvaluation, Wanted, SameRound, OnlyRounds, Evaluated, Readable, Evaluable, Served, OnePerRound;
      done := [];
      ghost var e0 := evaluations;
      ServedShape(inputs, records, ids);
      EvaluateStart(inputs, ids, records, corpus, e0);
      for i := 0 to |ids|
        invariant OnlyRounds(inputs, ids, records, corpus, e0, evaluations, i) && Evaluated(inputs, ids, evaluations, done, i)
        invariant AllRounds(inputs, ids, e0, i) ==> evaluations == e0
        invariant OnePerRound(e0) ==> OnePerRound(evaluations)
        invariant !faults ==> AllEvaluable(inputs, ids, records, e0, corpus, i)
      {
        ghost var before := evaluations;
        OtherRounds(inputs, ids, records, corpus, e0, before, i);
        var e;
        ok, e := EvaluateOne(faults, WantedEvaluation(inputs, i, ids[i]));
        EvaluateStep(inputs, ids, records, corpus, e0, before, evaluations, i);
        if !ok {
          return;
        }
        EvaluatedStep(inputs, ids, before, evaluations, done, i, e);
        done := done + [e];
      }
      ok := true;
    }

    /** `finalize`: the portfolio over all curricula, reused or posted. */
    method Finalize(faults: bool, inputs: Inputs, ids: seq<nat>) returns (ok: bool, t: nat)
      modifies this`portfolios
      ensures var p := PortfolioFor(inputs, ids);
              portfolios == old(portfolios)
              || (TitleOf(old(portfolios), p).None? && |portfolios| == |old(portfolios)| + 1
                  && old(portfolios) <= portfolios && portfolios[|old(portfolios)|].payload == p && corpus.Fresh?)
      ensures ok ==> t < |portfolios| && TitleOf(portfolios, PortfolioFor(inputs, ids)) == Some(t)
                     && portfolios[t].payload == PortfolioFor(inputs, ids)
      ensures old(OnePerTitle(portfolios)) ==> OnePerTitle(portfolios)
      ensures !faults ==> (ok <==> Finalizable(old(portfolios), corpus, PortfolioFor(inputs, ids)))
    {
      hide OnePerTitle;
      var p := PortfolioFor(inputs, ids);
      var found := TitleOf(portfolios, p);
      if found.Some? {
        return portfolios[found.value].payload == p, found.value;
      }
      ok, t := PostPortfolio(faults, p);
      if old(OnePerTitle(portfolios)) && portfolios != old(portfolios) {
        TitleFree(old(portfolios), portfolios);
      }
      if ok {
        assert portfolios[..t] == old(portfolios);
      }
    }

    /** The command once the documents are read. Without faults it completes exactly
        when `Completable` holds; wherever it stops, the state is completable if and only
        if it was, and every evaluation it posted is one on the current corpus; and once
        it has completed, it posts nothing more and returns the same records, whatever
        the corpus does. */
    method All(faults: bool, inputs: Inputs) returns (result: Option<Result>)
      requires Readable(inputs) && Valid()
      modifies this`records, this`evaluations, this`portfolios
      ensures Valid()
      ensures result.Some? ==> Done(inputs, records, evaluations, portfolios, result.value)
      ensures result.Some? ==> Delivered(inputs, records, evaluations, portfolios, result.value)
      ensures NewGrounded(inputs, old(records), records)
      ensures old(OnePerDomain(records)) ==> OnePerDomain(records)
      ensures old(OnePerRound(evaluations)) ==> OnePerRound(evaluations)
      ensures old(OnePerTitle(portfolios)) ==> OnePerTitle(portfolios)
      ensures result.Some? ==> Completable(inputs, accepts, corpus, old(records), old(evaluations), old(portfolios))
      ensures !faults ==> (result.Some? <==> Completable(inputs, accepts, corpus, old(records), old(evaluations), old(portfolios)))
      ensures Completable(inputs, accepts, corpus, old(records), old(evaluations), old(portfolios))
              <==> Completable(inputs, accepts, corpus, records, evaluations, portfolios)
      ensures old(records) <= records && OnCorpus(records, corpus, old(evaluations), evaluations)
      ensures forall r :: Done(inputs, old(records), old(evaluations), old(portfolios), r) ==>
                && records == old(records) && evaluations == old(evaluations) && portfolios == old(portfolios)
                && (!faults ==> result == Some(r))
    {
      hide Served, Evaluated, OnlyWanted, OnlyRounds, OnlyAccepted, OnCorpus, AllReady, AllTaken, AllEvaluable, AllRounds, Done, Completable, Finalizable,
        PortfolioFor, SlotOf, RoundOf, TitleOf, Wanted, WantedEvaluation, Readable,
        OnePerDomain, OnePerRound, OnePerTitle, NewGrounded, AllGrounded, Delivered;
      ghost var r0, e0, p0 := records, evaluations, portfolios;
      DoneIsTaken(inputs, accepts, corpus, r0, e0, p0);
      CompletableIsReady(inputs, accepts, corpus, r0, e0, p0);
      var ok, ids := Prepare(faults, inputs);
      PrepareKeeps(inputs, accepts, corpus, r0, records, e0, p0);
      RecordsGrow(inputs, corpus, r0, records, e0);
      if !ok {
        return None;
      }
      ServedShape(inputs, records, ids);
      if AllReady(inputs, accepts, corpus, r0, |inputs.order|) {
        CompletableStages(inputs, accepts, corpus, r0, records, e0, p0, ids);
      }
      DoneIds(inputs, corpus, records, e0, p0, ids);
      var done;
      ok, done := Evaluate(faults, inputs, ids);
      EvaluateKeeps(inputs, accepts, corpus, records, e0, evaluations, p0, ids);
      RoundsOnCorpus(inputs, ids, records, corpus, e0, evaluations);
      if !ok {
        return None;
      }
      var t;
      ok, t := Finalize(faults, inputs, ids);
      FinalizeKeeps(inputs, accepts, corpus, records, evaluations, p0, portfolios, ids);
      if !ok {
        return None;
      }
      result := Some(Result(ids, done, t));
      DoneNow(inputs, records, evaluations, portfolios, result.value);
      DoneIsCompletable(inputs, accepts, corpus, records, evaluations, portfolios, result.value);
      DoneIsDelivered(inputs, records, evaluations, portfolios, result.value);
    }

    /** Convergence: after any number of interrupted runs, an undisturbed run completes;
        a repeat run, even on a corpus that has moved, posts nothing and returns the same. */
    method Converge(inputs: Inputs, interrupted: nat) returns (first: Option<Result>, second: Option<Result>, posted: int)
      requires Readable(inputs) && Valid()
      requires Completable(inputs, accepts, corpus, records, evaluations, portfolios)
      modifies this
      ensures first.Some? && second == first && posted == 0
      ensures Done(inputs, records, evaluations, portfolios, first.value)
    {
      hide Completable, Done, Readable, Rooted, OnePerDomain, OnePerRound, OnePerTitle, Delivered, NewGrounded, AllGrounded;
      for i := 0 to interrupted
        invariant Valid() && Completable(inputs, accepts, corpus, records, evaluations, portfolios)
      {
        var _ := All(true, inputs);
      }
      first := All(false, inputs);
      var count := |records| + |evaluations| + |portfolios|;
      corpus := *;
      second := All(false, inputs);
      posted := |records| + |evaluations| + |portfolios| - count;
    }

    /** A stuck domain blocks every run, interrupted or not, for as long as the corpus does
        not return to the one its curriculum was registered on. */
    method Blocked(inputs: Inputs, i: nat, corpora: seq<Corpus>) returns (results: seq<Option<Result>>)
      requires Readable(inputs) && Valid() && i < |inputs.order| && Stuck(inputs, records, evaluations, corpus, i)
      requires forall j :: 0 <= j < |corpora| ==> Stuck(inputs, records, evaluations, corpora[j], i)
      modifies this
      ensures Valid() && Stuck(inputs, records, evaluations, corpus, i)
      ensures |results| == |corpora| && forall j :: 0 <= j < |results| ==> results[j].None?
    {
      hide Stuck, Readable, Completable, Done, OnCorpus, Rooted, OnePerDomain, OnePerRound, OnePerTitle, Delivered, NewGrounded, AllGrounded;
      results := [];
      for n := 0 to |corpora|
        invariant Valid() && Stuck(inputs, records, evaluations, corpus, i)
        invariant forall j :: 0 <= j < |corpora| ==> Stuck(inputs, records, evaluations, corpora[j], i)
        invariant |results| == n && forall j :: 0 <= j < n ==> results[j].None?
      {
        corpus := corpora[n];
        ghost var r0, e0 := records, evaluations;
        StuckIsBlocked(inputs, accepts, corpus, records, evaluations, portfolios, i);
        var faults: bool := *;
        var result := All(faults, inputs);
        results := results + [result];
        forall j | 0 <= j < |corpora|
          ensures Stuck(inputs, records, evaluations, corpora[j], i)
        {
          StuckStays(inputs, r0, records, corpus, e0, evaluations, corpora[j], i);
        }
      }
    }

    /** The family that does not converge: the curricula are registered, the run stops
        before their evaluations, and the corpus moves. */
    method MovedBeforeEvaluation(inputs: Inputs, next: Corpus) returns (result: Option<Result>)
      requires Readable(inputs) && inputs.order != [] && records == [] && evaluations == [] && portfolios == []
      requires AllReady(inputs, accepts, corpus, [], |inputs.order|) && next != corpus
      modifies this
      ensures Valid() && result.None?
      ensures forall i :: 0 <= i < |inputs.order| ==> Stuck(inputs, records, evaluations, corpus, i)
    {
      hide SlotOf, Wanted, Readable, AllReady, Completable, Done, WantedEvaluation, OnePerDomain, OnePerRound, OnePerTitle, Delivered, NewGrounded, AllGrounded;
      var ok, ids := Prepare(false, inputs);
      forall i | 0 <= i < |inputs.order|
        ensures Stuck(inputs, records, evaluations, next, i)
      {
        ServedAnew(inputs, corpus, records, ids, i);
      }
      corpus := next;
      ghost var r0 := records;
      StuckIsBlocked(inputs, accepts, corpus, records, evaluations, portfolios, 0);
      result := All(false, inputs);
      forall i | 0 <= i < |inputs.order|
        ensures Stuck(inputs, records, evaluations, corpus, i)
      {
        StuckStays(inputs, r0, records, corpus, [], evaluations, corpus, i);
      }
    }
  }

  predicate DomainReady(inputs: Inputs, accepts: CurriculumPayload -> bool, corpus: Corpus, records: seq<Record>, i: nat)
    requires Readable(inputs) && i < |inputs.order|
  {
    TwoSources(inputs.anchors[inputs.order[i]]) && Preparable(records, accepts, corpus, Wanted(inputs, i))
  }

  ghost predicate AllReady(inputs: Inputs, accepts: CurriculumPayload -> bool, corpus: Corpus, records: seq<Record>, n: nat)
    requires Readable(inputs) && n <= |inputs.order|
  {
    forall i :: 0 <= i < n ==> DomainReady(inputs, accepts, corpus, records, i)
  }

  ghost predicate AllTaken(inputs: Inputs, records: seq<Record>, n: nat)
    requires Readable(inputs) && n <= |inputs.order|
  {
    forall i :: 0 <= i < n ==> SlotOf(records, Wanted(inputs, i)).Some?
  }

  /** The only new records are curricula of the first n domains, on the current corpus. */
  ghost predicate OnlyWanted(inputs: Inputs, before: seq<Record>, records: seq<Record>, corpus: Corpus, n: nat)
    requires Readable(inputs) && n <= |inputs.order|
  {
    && before <= records
    && forall k :: |before| <= k < |records| ==>
         corpus == Fresh(records[k].corpus) && IsWanted(inputs, records[k].payload, n)
  }

  ghost predicate IsWanted(inputs: Inputs, p: CurriculumPayload, n: nat)
    requires Readable(inputs) && n <= |inputs.order|
  {
    exists i :: 0 <= i < n && p == Wanted(inputs, i)
  }

  /** The new records are those the control plane accepts. */
  ghost predicate OnlyAccepted(accepts: CurriculumPayload -> bool, before: seq<Record>, records: seq<Record>) {
    forall k :: |before| <= k < |records| ==> accepts(records[k].payload)
  }

  /** The first n domains have their curricula, and `ids` names them. */
  ghost predicate Served(inputs: Inputs, records: seq<Record>, ids: seq<nat>, n: nat)
    requires Readable(inputs) && n <= |inputs.order|
  {
    && |ids| == n
    && forall i :: 0 <= i < n ==>
         && TwoSources(inputs.anchors[inputs.order[i]])
         && SlotOf(records, Wanted(inputs, i)) == Some(ids[i])
         && ids[i] < |records| && records[ids[i]].payload == Wanted(inputs, i)
  }

  /** The curricula returned are those of the domains, in order. */
  ghost predicate AllGrounded(inputs: Inputs, records: seq<Record>, ids: seq<nat>)
    requires Readable(inputs)
  {
    && |ids| == |inputs.order|
    && forall i :: 0 <= i < |ids| ==> ids[i] < |records| && Grounded(records[ids[i]].payload, inputs, i)
  }

  /** Nothing else is registered. */
  ghost predicate NewGrounded(inputs: Inputs, before: seq<Record>, records: seq<Record>)
    requires Readable(inputs)
  {
    forall k :: |before| <= k < |records| ==> OfSomeDomain(inputs, records[k].payload)
  }

  ghost predicate OfSomeDomain(inputs: Inputs, p: CurriculumPayload)
    requires Readable(inputs)
  {
    exists i :: 0 <= i < |inputs.order| && Grounded(p, inputs, i)
  }

  lemma ServedAreGrounded(inputs: Inputs, records: seq<Record>, ids: seq<nat>)
    requires Readable(inputs) && Served(inputs, records, ids, |inputs.order|)
    ensures AllGrounded(inputs, records, ids)
  {
    hide Grounded, SlotOf, Wanted;
    forall i | 0 <= i < |ids|
      ensures Grounded(records[ids[i]].payload, inputs, i)
    {
      WantedIsGrounded(inputs, i);
    }
  }

  lemma WantedAreGrounded(inputs: Inputs, before: seq<Record>, records: seq<Record>, corpus: Corpus)
    requires Readable(inputs) && OnlyWanted(inputs, before, records, corpus, |inputs.order|)
    ensures NewGrounded(inputs, before, records)
  {
    hide Grounded, Wanted;
    forall k | |before| <= k < |records|
      ensures OfSomeDomain(inputs, records[k].payload)
    {
      assert IsWanted(inputs, records[k].payload, |inputs.order|);
      var i :| 0 <= i < |inputs.order| && records[k].payload == Wanted(inputs, i);
      WantedIsGrounded(inputs, i);
    }
  }

  lemma PrepareStart(inputs: Inputs, records: seq<Record>, corpus: Corpus)
    requires Readable(inputs)
    ensures OnlyWanted(inputs, records, records, corpus, 0) && Served(inputs, records, [], 0)
  {
  }

  /** Records of earlier domains do not take the slot of this one. */
  lemma OtherSlots(inputs: Inputs, before: seq<Record>, records: seq<Record>, corpus: Corpus, i: nat)
    requires Readable(inputs) && i < |inputs.order| && OnlyWanted(inputs, before, records, corpus, i)
    ensures SlotOf(records, Wanted(inputs, i)) == SlotOf(before, Wanted(inputs, i))
  {
    hide SlotOf;
    SlotKept(before, records, Wanted(inputs, i));
  }

  lemma SlotTaken(records: seq<Record>, r: Record)
    requires SlotOf(records, r.payload).None?
    ensures SlotOf(records + [r], r.payload) == Some(|records|)
  {
    assert (records + [r])[..|records|] == records;
  }

  lemma PrepareStep(inputs: Inputs, existing: seq<Record>, before: seq<Record>, records: seq<Record>, corpus: Corpus, i: nat)
    requires Readable(inputs) && i < |inputs.order| && OnlyWanted(inputs, existing, before, corpus, i)
    requires records == before || (corpus.Fresh? && records == before + [Record(Wanted(inputs, i), corpus.digest)])
    ensures OnlyWanted(inputs, existing, records, corpus, i + 1) && before <= records
    ensures OnlyWanted(inputs, existing, records, corpus, |inputs.order|)
  {
    assert existing <= records;
    hide Wanted;
    forall k | |existing| <= k < |records|
      ensures corpus == Fresh(records[k].corpus) && IsWanted(inputs, records[k].payload, i + 1)
    {
      if k < |before| {
        assert records[k] == before[k] && IsWanted(inputs, before[k].payload, i);
      } else {
        assert records[k].payload == Wanted(inputs, i);
      }
    }
    assert forall p :: IsWanted(inputs, p, i + 1) ==> IsWanted(inputs, p, |inputs.order|);
  }

  /** A new record takes the slot it was posted for; the slots taken before are kept. */
  lemma ServedStep(inputs: Inputs, before: seq<Record>, records: seq<Record>, ids: seq<nat>, i: nat, k: nat)
    requires Readable(inputs) && i < |inputs.order| && before <= records && Served(inputs, before, ids, i)
    requires k < |records| && SlotOf(records, Wanted(inputs, i)) == Some(k) && records[k].payload == Wanted(inputs, i)
    requires TwoSources(inputs.anchors[inputs.order[i]])
    ensures Served(inputs, records, ids + [k], i + 1)
  {
    hide SlotOf, Wanted, Readable;
    forall j | 0 <= j < i
      ensures SlotOf(records, Wanted(inputs, j)) == Some(ids[j])
    {
      SlotKept(before, records, Wanted(inputs, j));
    }
  }

  function PortfolioFor(inputs: Inputs, ids: seq<nat>): PortfolioPayload {
    PortfolioPayload(inputs.catalog.portfolioKey, PortfolioVersion(inputs.catalog), inputs.order, ids)
  }

  /** What the command returns, as positions of the records. */
  datatype Result = Result(curricula: seq<nat>, evaluations: seq<nat>, portfolio: nat)

  ghost predicate AllEvaluable(inputs: Inputs, ids: seq<nat>, records: seq<Record>, evaluations: seq<Evaluation>, corpus: Corpus, n: nat)
    requires Readable(inputs) && n <= |ids| == |inputs.order|
    requires forall i :: 0 <= i < |ids| ==> ids[i] < |records|
  {
    forall i :: 0 <= i < n ==> Evaluable(records, evaluations, corpus, WantedEvaluation(inputs, i, ids[i]))
  }

  ghost predicate AllRounds(inputs: Inputs, ids: seq<nat>, evaluations: seq<Evaluation>, n: nat)
    requires Readable(inputs) && n <= |ids| == |inputs.order|
  {
    forall i :: 0 <= i < n ==> RoundOf(evaluations, WantedEvaluation(inputs, i, ids[i])).Some?
  }

  ghost predicate OnlyRounds(inputs: Inputs, ids: seq<nat>, records: seq<Record>, corpus: Corpus,
                             before: seq<Evaluation>, evaluations: seq<Evaluation>, n: nat)
    requires Readable(inputs) && n <= |ids| == |inputs.order|
    requires forall i :: 0 <= i < |ids| ==> ids[i] < |records|
  {
    && before <= evaluations
    && forall e :: |before| <= e < |evaluations| ==> IsRound(inputs, ids, records, corpus, evaluations[e].payload, n)
  }

  ghost predicate IsRound(inputs: Inputs, ids: seq<nat>, records: seq<Record>, corpus: Corpus, p: EvaluationPayload, n: nat)
    requires Readable(inputs) && n <= |ids| == |inputs.order|
    requires forall i :: 0 <= i < |ids| ==> ids[i] < |records|
  {
    exists i :: 0 <= i < n && p == WantedEvaluation(inputs, i, ids[i]) && corpus == Fresh(records[ids[i]].corpus)
  }

  ghost predicate Evaluated(inputs: Inputs, ids: seq<nat>, evaluations: seq<Evaluation>, done: seq<nat>, n: nat)
    requires Readable(inputs) && n <= |ids| == |inputs.order|
  {
    && |done| == n
    && forall i :: 0 <= i < n ==>
         && RoundOf(evaluations, WantedEvaluation(inputs, i, ids[i])) == Some(done[i])
         && done[i] < |evaluations| && evaluations[done[i]].payload == WantedEvaluation(inputs, i, ids[i])
  }

  /** Different domains have different curricula. */
  lemma ServedShape(inputs: Inputs, records: seq<Record>, ids: seq<nat>)
    requires Readable(inputs) && Served(inputs, records, ids, |inputs.order|)
    ensures |ids| == |inputs.order| && forall i :: 0 <= i < |ids| ==> ids[i] < |records|
    ensures forall i, j :: 0 <= i < j < |ids| ==> ids[i] != ids[j]
  {
    hide SlotOf;
    forall i, j | 0 <= i < j < |ids|
      ensures ids[i] != ids[j]
    {
      assert Wanted(inputs, i).domainKey == inputs.order[i] && Wanted(inputs, j).domainKey == inputs.order[j];
    }
  }

  lemma EvaluateStart(inputs: Inputs, ids: seq<nat>, records: seq<Record>, corpus: Corpus, evaluations: seq<Evaluation>)
    requires Readable(inputs) && |ids| == |inputs.order| && forall i :: 0 <= i < |ids| ==> ids[i] < |records|
    ensures OnlyRounds(inputs, ids, records, corpus, evaluations, evaluations, 0) && Evaluated(inputs, ids, evaluations, [], 0)
  {
  }

  lemma OtherRounds(inputs: Inputs, ids: seq<nat>, records: seq<Record>, corpus: Corpus,
                    before: seq<Evaluation>, evaluations: seq<Evaluation>, i: nat)
    requires Readable(inputs) && i < |ids| == |inputs.order| && forall i :: 0 <= i < |ids| ==> ids[i] < |records|
    requires forall i, j :: 0 <= i < j < |ids| ==> ids[i] != ids[j]
    requires OnlyRounds(inputs, ids, records, corpus, before, evaluations, i)
    ensures RoundOf(evaluations, WantedEvaluation(inputs, i, ids[i])) == RoundOf(before, WantedEvaluation(inputs, i, ids[i]))
    ensures Evaluable(records, evaluations, corpus, WantedEvaluation(inputs, i, ids[i]))
            <==> Evaluable(records, before, corpus, WantedEvaluation(inputs, i, ids[i]))
  {
    hide RoundOf;
    RoundKept(before, evaluations, WantedEvaluation(inputs, i, ids[i]));
  }

  lemma EvaluateStep(inputs: Inputs, ids: seq<nat>, records: seq<Record>, corpus: Corpus, e0: seq<Evaluation>,
                     before: seq<Evaluation>, evaluations: seq<Evaluation>, i: nat)
    requires Readable(inputs) && i < |ids| == |inputs.order| && forall i :: 0 <= i < |ids| ==> ids[i] < |records|
    requires OnlyRounds(inputs, ids, records, corpus, e0, before, i)
    requires evaluations == before
             || (|evaluations| == |before| + 1 && before <= evaluations && corpus == Fresh(records[ids[i]].corpus)
                 && evaluations[|before|].payload == WantedEvaluation(inputs, i, ids[i]))
    ensures OnlyRounds(inputs, ids, records, corpus, e0, evaluations, i + 1) && before <= evaluations
    ensures OnlyRounds(inputs, ids, records, corpus, e0, evaluations, |ids|)
  {
    assert e0 <= evaluations;
    forall e | |e0| <= e < |evaluations|
      ensures IsRound(inputs, ids, records, corpus, evaluations[e].payload, i + 1)
    {
      if e < |before| {
        assert IsRound(inputs, ids, records, corpus, before[e].payload, i);
        assert evaluations[e] == before[e];
      }
    }
    assert forall p :: IsRound(inputs, ids, records, corpus, p, i + 1) ==> IsRound(inputs, ids, records, corpus, p, |ids|);
  }

  lemma EvaluatedStep(inputs: Inputs, ids: seq<nat>, before: seq<Evaluation>, evaluations: seq<Evaluation>, done: seq<nat>, i: nat, e: nat)
    requires Readable(inputs) && i < |ids| == |inputs.order| && before <= evaluations && Evaluated(inputs, ids, before, done, i)
    requires e < |evaluations| && RoundOf(evaluations, WantedEvaluation(inputs, i, ids[i])) == Some(e)
    requires evaluations[e].payload == WantedEvaluation(inputs, i, ids[i])
    ensures Evaluated(inputs, ids, evaluations, done + [e], i + 1)
  {
    hide RoundOf, EvaluationFor;
    forall j | 0 <= j < i
      ensures RoundOf(evaluations, WantedEvaluation(inputs, j, ids[j])) == Some(done[j])
    {
      RoundKept(before, evaluations, WantedEvaluation(inputs, j, ids[j]));
    }
  }

  /** A finished state: everything is there, agrees, and is what the result names. */
  ghost predicate Done(inputs: Inputs, records: seq<Record>, evaluations: seq<Evaluation>, portfolios: seq<Portfolio>, r: Result)
    requires Readable(inputs)
  {
    && Served(inputs, records, r.curricula, |inputs.order|)
    && Evaluated(inputs, r.curricula, evaluations, r.evaluations, |inputs.order|)
    && TitleOf(portfolios, PortfolioFor(inputs, r.curricula)) == Some(r.portfolio)
    && portfolios[r.portfolio].payload == PortfolioFor(inputs, r.curricula)
  }

  /** What the command leaves, field by field and across its stages. */
  ghost predicate Delivered(inputs: Inputs, records: seq<Record>, evaluations: seq<Evaluation>, portfolios: seq<Portfolio>, r: Result)
    requires Readable(inputs)
  {
    && AllGrounded(inputs, records, r.curricula)
    && |r.evaluations| == |inputs.order|
    && (forall i :: 0 <= i < |inputs.order| ==>
          && r.evaluations[i] < |evaluations|
          && evaluations[r.evaluations[i]].payload.curriculum == r.curricula[i]
          && Examines(evaluations[r.evaluations[i]].payload, records[r.curricula[i]].payload, inputs, i))
    && r.portfolio < |portfolios|
    && var p, c := portfolios[r.portfolio].payload, inputs.catalog;
       && p.key == c.portfolioKey && p.domainKeys == inputs.order && p.curricula == r.curricula
       && p.version == if c.portfolioVersion.Some? then c.portfolioVersion.value else c.version
  }

  lemma DoneIsDelivered(inputs: Inputs, records: seq<Record>, evaluations: seq<Evaluation>, portfolios: seq<Portfolio>, r: Result)
    requires Readable(inputs) && Done(inputs, records, evaluations, portfolios, r)
    ensures Delivered(inputs, records, evaluations, portfolios, r)
  {
    ServedAreGrounded(inputs, records, r.curricula);
    hide Grounded, Examines, SlotOf, RoundOf, TitleOf, Wanted, EvaluationFor, Readable;
    forall i | 0 <= i < |inputs.order|
      ensures Examines(evaluations[r.evaluations[i]].payload, records[r.curricula[i]].payload, inputs, i)
    {
      WantedEvaluationExamines(inputs, i, r.curricula[i], records[r.curricula[i]].payload);
    }
  }

  /** A curriculum is registered for the domain, in the catalog's version. */
  ghost predicate Registered(inputs: Inputs, records: seq<Record>, i: nat, k: int)
    requires i < |inputs.order|
  {
    0 <= k < |records| && records[k].payload.domainKey == inputs.order[i] && records[k].payload.version == inputs.catalog.version
  }

  /** An evaluation of the curriculum is registered, in the catalog's evaluation version. */
  ghost predicate Examined(inputs: Inputs, evaluations: seq<Evaluation>, k: int, e: int) {
    var c := inputs.catalog;
    && 0 <= e < |evaluations| && evaluations[e].payload.curriculum == k
    && evaluations[e].payload.version == if c.evaluationVersion.Some? then c.evaluationVersion.value else c.version
  }

  ghost predicate Entitled(inputs: Inputs, portfolios: seq<Portfolio>, t: int) {
    var c := inputs.catalog;
    && 0 <= t < |portfolios| && portfolios[t].payload.key == c.portfolioKey
    && portfolios[t].payload.version == if c.portfolioVersion.Some? then c.portfolioVersion.value else c.version
  }

  /** What one domain needs, term by term: two sources; a curriculum registered before must
      be the one wanted, and its evaluation too, or missing on an unchanged corpus; else the
      projections must be fresh and the evidence accepted. */
  ghost predicate DomainTerms(inputs: Inputs, accepts: CurriculumPayload -> bool, corpus: Corpus,
                              records: seq<Record>, evaluations: seq<Evaluation>, i: nat)
    requires Readable(inputs) && i < |inputs.order|
  {
    var a := inputs.anchors[inputs.order[i]];
    && a.expectedSource != a.opposingSource
    && (forall k :: Registered(inputs, records, i, k) ==> RecordTerms(inputs, corpus, records, evaluations, i, k))
    && ((forall k :: !Registered(inputs, records, i, k)) ==> corpus.Fresh? && forall p :: Grounded(p, inputs, i) ==> accepts(p))
  }

  ghost predicate RecordTerms(inputs: Inputs, corpus: Corpus, records: seq<Record>, evaluations: seq<Evaluation>, i: nat, k: nat)
    requires Readable(inputs) && i < |inputs.order| && k < |records|
  {
    && Grounded(records[k].payload, inputs, i)
    && (forall e :: Examined(inputs, evaluations, k, e) ==> evaluations[e].payload == WantedEvaluation(inputs, i, k))
    && ((forall e :: !Examined(inputs, evaluations, k, e)) ==> corpus == Fresh(records[k].corpus))
  }

  /** And the portfolio: one registered before must be over the curricula of the domains. */
  ghost predicate PortfolioTerms(inputs: Inputs, corpus: Corpus, records: seq<Record>, portfolios: seq<Portfolio>)
    requires Readable(inputs)
  {
    && (forall t :: Entitled(inputs, portfolios, t) ==>
          && portfolios[t].payload.domainKeys == inputs.order && |portfolios[t].payload.curricula| == |inputs.order|
          && forall i :: 0 <= i < |inputs.order| ==> Registered(inputs, records, i, portfolios[t].payload.curricula[i]))
    && ((forall t :: !Entitled(inputs, portfolios, t)) ==> corpus.Fresh?)
  }

  /** Where no two records share a key and version, a state is completable exactly on
      these terms. */
  lemma CompletableTerms(inputs: Inputs, accepts: CurriculumPayload -> bool, corpus: Corpus,
                         records: seq<Record>, evaluations: seq<Evaluation>, portfolios: seq<Portfolio>)
    requires Readable(inputs) && OnePerDomain(records) && OnePerRound(evaluations) && OnePerTitle(portfolios)
    ensures Completable(inputs, accepts, corpus, records, evaluations, portfolios)
            <==> && (forall i :: 0 <= i < |inputs.order| ==> DomainTerms(inputs, accepts, corpus, records, evaluations, i))
                 && PortfolioTerms(inputs, corpus, records, portfolios)
  {
    hide Standing, Titled, DomainTerms, PortfolioTerms, OnePerDomain, OnePerRound, OnePerTitle;
    forall i | 0 <= i < |inputs.order|
      ensures Standing(inputs, accepts, corpus, records, evaluations, i)
              <==> DomainTerms(inputs, accepts, corpus, records, evaluations, i)
    {
      StandingTerms(inputs, accepts, corpus, records, evaluations, i);
    }
    if forall i :: 0 <= i < |inputs.order| ==> Standing(inputs, accepts, corpus, records, evaluations, i) {
      TitledTerms(inputs, accepts, corpus, records, evaluations, portfolios);
    }
  }

  /** The slot of a domain is where its curriculum is registered. */
  lemma SlotIs(inputs: Inputs, records: seq<Record>, i: nat)
    requires Readable(inputs) && i < |inputs.order| && OnePerDomain(records)
    ensures var s := SlotOf(records, Wanted(inputs, i));
            && (s.Some? ==> Registered(inputs, records, i, s.value))
            && forall k :: Registered(inputs, records, i, k) ==> s == Some(k)
  {
    hide SlotOf;
    WantedIsGrounded(inputs, i);
    var p := Wanted(inputs, i);
    forall k | Registered(inputs, records, i, k)
      ensures SlotOf(records, p) == Some(k)
    {
      assert SameSlot(records[k].payload, p);
    }
  }

  lemma RoundIs(inputs: Inputs, evaluations: seq<Evaluation>, i: nat, k: nat)
    requires Readable(inputs) && i < |inputs.order| && OnePerRound(evaluations)
    ensures var s := RoundOf(evaluations, WantedEvaluation(inputs, i, k));
            && (s.Some? ==> Examined(inputs, evaluations, k, s.value))
            && forall e :: Examined(inputs, evaluations, k, e) ==> s == Some(e)
  {
    hide RoundOf;
    var p := WantedEvaluation(inputs, i, k);
    forall e | Examined(inputs, evaluations, k, e)
      ensures RoundOf(evaluations, p) == Some(e)
    {
      assert SameRound(evaluations[e].payload, p);
    }
  }

  lemma StandingTerms(inputs: Inputs, accepts: CurriculumPayload -> bool, corpus: Corpus,
                      records: seq<Record>, evaluations: seq<Evaluation>, i: nat)
    requires Readable(inputs) && i < |inputs.order| && OnePerDomain(records) && OnePerRound(evaluations)
    ensures Standing(inputs, accepts, corpus, records, evaluations, i)
            <==> DomainTerms(inputs, accepts, corpus, records, evaluations, i)
  {
    SlotIs(inputs, records, i);
    OnlyWantedIsGrounded(inputs, accepts, i);
    hide SlotOf, RoundOf, OnePerDomain, OnePerRound, Wanted, WantedEvaluation, Grounded, Registered, Examined, Readable;
    var s := SlotOf(records, Wanted(inputs, i));
    if s.Some? {
      RoundIs(inputs, evaluations, i, s.value);
      GroundedIff(records[s.value].payload, inputs, i);
    }
  }

  lemma GroundedIff(p: CurriculumPayload, inputs: Inputs, i: nat)
    requires i < |inputs.order| && Readable(inputs)
    ensures Grounded(p, inputs, i) <==> p == Wanted(inputs, i)
  {
    WantedIsGrounded(inputs, i);
    if Grounded(p, inputs, i) {
      GroundedIsWanted(p, inputs, i);
    }
  }

  lemma OnlyWantedIsGrounded(inputs: Inputs, accepts: CurriculumPayload -> bool, i: nat)
    requires i < |inputs.order| && Readable(inputs)
    ensures accepts(Wanted(inputs, i)) <==> forall p :: Grounded(p, inputs, i) ==> accepts(p)
  {
    hide Grounded, Wanted;
    WantedIsGrounded(inputs, i);
    forall p | Grounded(p, inputs, i)
      ensures p == Wanted(inputs, i)
    {
      GroundedIsWanted(p, inputs, i);
    }
  }

  lemma TitleIs(inputs: Inputs, portfolios: seq<Portfolio>, ids: seq<nat>)
    requires OnePerTitle(portfolios)
    ensures var s := TitleOf(portfolios, PortfolioFor(inputs, ids));
            && (s.Some? ==> Entitled(inputs, portfolios, s.value))
            && forall t :: Entitled(inputs, portfolios, t) ==> s == Some(t)
  {
    hide TitleOf;
    var p := PortfolioFor(inputs, ids);
    forall t | Entitled(inputs, portfolios, t)
      ensures TitleOf(portfolios, p) == Some(t)
    {
      assert SameTitle(portfolios[t].payload, p);
      var s := TitleOf(portfolios, p);
      if s.value != t {
        TitlesDiffer(portfolios[s.value].payload, portfolios[t].payload);
      }
    }
  }

  lemma TitledTerms(inputs: Inputs, accepts: CurriculumPayload -> bool, corpus: Corpus,
                    records: seq<Record>, evaluations: seq<Evaluation>, portfolios: seq<Portfolio>)
    requires Readable(inputs) && OnePerDomain(records) && OnePerTitle(portfolios)
    requires forall i :: 0 <= i < |inputs.order| ==> Standing(inputs, accepts, corpus, records, evaluations, i)
    ensures Titled(inputs, corpus, records, portfolios) <==> PortfolioTerms(inputs, corpus, records, portfolios)
  {
    hide SlotOf, TitleOf, OnePerDomain, OnePerTitle, Wanted, Registered, Standing, Readable, PortfolioFor, Served;
    TitleIs(inputs, portfolios, []);
    var s := TitleOf(portfolios, PortfolioFor(inputs, []));
    if s.Some? {
      var p := portfolios[s.value].payload;
      TitlesServed(inputs, corpus, records, portfolios, s.value);
      if PortfolioTerms(inputs, corpus, records, portfolios) {
        RegisteredAreServed(inputs, accepts, corpus, records, evaluations, p.curricula);
        TitleIs(inputs, portfolios, p.curricula);
        PortfolioIs(inputs, p);
      }
    }
  }

  lemma PortfolioIs(inputs: Inputs, p: PortfolioPayload)
    ensures PortfolioFor(inputs, p.curricula) == p
            <==> && p.key == inputs.catalog.portfolioKey && p.domainKeys == inputs.order
                 && p.version == PortfolioVersion(inputs.catalog)
  {
  }

  lemma TitlesServed(inputs: Inputs, corpus: Corpus, records: seq<Record>, portfolios: seq<Portfolio>, t: nat)
    requires Readable(inputs) && OnePerDomain(records) && OnePerTitle(portfolios)
    requires TitleOf(portfolios, PortfolioFor(inputs, [])) == Some(t)
    ensures Titled(inputs, corpus, records, portfolios) ==> PortfolioTerms(inputs, corpus, records, portfolios)
  {
    hide SlotOf, TitleOf, OnePerDomain, OnePerTitle, Wanted, Registered, Entitled, Readable;
    if Titled(inputs, corpus, records, portfolios) {
      var ids :| Served(inputs, records, ids, |inputs.order|) && Finalizable(portfolios, corpus, PortfolioFor(inputs, ids));
      TitleIs(inputs, portfolios, []);
      TitleIs(inputs, portfolios, ids);
      forall i | 0 <= i < |inputs.order|
        ensures Registered(inputs, records, i, ids[i])
      {
        SlotIs(inputs, records, i);
      }
    }
  }

  lemma RegisteredAreServed(inputs: Inputs, accepts: CurriculumPayload -> bool, corpus: Corpus,
                            records: seq<Record>, evaluations: seq<Evaluation>, ids: seq<nat>)
    requires Readable(inputs) && OnePerDomain(records) && |ids| == |inputs.order|
    requires forall i :: 0 <= i < |inputs.order| ==> Standing(inputs, accepts, corpus, records, evaluations, i)
    requires forall i :: 0 <= i < |inputs.order| ==> Registered(inputs, records, i, ids[i])
    ensures Served(inputs, records, ids, |inputs.order|)
  {
    hide SlotOf, RoundOf, OnePerDomain, Wanted, WantedEvaluation, Registered;
    forall i | 0 <= i < |ids|
      ensures TwoSources(inputs.anchors[inputs.order[i]]) && SlotOf(records, Wanted(inputs, i)) == Some(ids[i])
      ensures ids[i] < |records| && records[ids[i]].payload == Wanted(inputs, i)
    {
      SlotIs(inputs, records, i);
      assert Standing(inputs, accepts, corpus, records, evaluations, i);
    }
  }

  /** When an undisturbed run completes: every domain can be prepared; every curriculum
      already registered has an agreeing evaluation, or none and the corpus has not
      moved; a portfolio already registered is the one over exactly these curricula;
      and whatever is missing meets projections that are not stale. */
  ghost predicate Completable(inputs: Inputs, accepts: CurriculumPayload -> bool, corpus: Corpus,
                              records: seq<Record>, evaluations: seq<Evaluation>, portfolios: seq<Portfolio>)
    requires Readable(inputs)
  {
    && (forall i :: 0 <= i < |inputs.order| ==> Standing(inputs, accepts, corpus, records, evaluations, i))
    && Titled(inputs, corpus, records, portfolios)
  }

  ghost predicate Standing(inputs: Inputs, accepts: CurriculumPayload -> bool, corpus: Corpus,
                           records: seq<Record>, evaluations: seq<Evaluation>, i: nat)
    requires Readable(inputs) && i < |inputs.order|
  {
    var k := SlotOf(records, Wanted(inputs, i));
    && DomainReady(inputs, accepts, corpus, records, i)
    && (k.Some? ==> Evaluable(records, evaluations, corpus, WantedEvaluation(inputs, i, k.value)))
  }

  ghost predicate Titled(inputs: Inputs, corpus: Corpus, records: seq<Record>, portfolios: seq<Portfolio>)
    requires Readable(inputs)
  {
    if TitleOf(portfolios, PortfolioFor(inputs, [])).None? then corpus.Fresh?
    else exists ids :: Served(inputs, records, ids, |inputs.order|) && Finalizable(portfolios, corpus, PortfolioFor(inputs, ids))
  }

  ghost predicate Rooted(records: seq<Record>, evaluations: seq<Evaluation>, portfolios: seq<Portfolio>) {
    && (forall e :: 0 <= e < |evaluations| ==> evaluations[e].payload.curriculum < |records|)
    && (forall t, k :: 0 <= t < |portfolios| && k in portfolios[t].payload.curricula ==> k < |records|)
  }

  lemma CompletableIsReady(inputs: Inputs, accepts: CurriculumPayload -> bool, corpus: Corpus,
                           records: seq<Record>, evaluations: seq<Evaluation>, portfolios: seq<Portfolio>)
    requires Readable(inputs)
    ensures Completable(inputs, accepts, corpus, records, evaluations, portfolios) ==> AllReady(inputs, accepts, corpus, records, |inputs.order|)
  {
    if Completable(inputs, accepts, corpus, records, evaluations, portfolios) {
      forall i | 0 <= i < |inputs.order|
        ensures DomainReady(inputs, accepts, corpus, records, i)
      {
        assert Standing(inputs, accepts, corpus, records, evaluations, i);
      }
    }
  }

  /** Slots after `prepare`: as before, or taken by a new record of the domain. */
  lemma SlotAfter(inputs: Inputs, corpus: Corpus, before: seq<Record>, records: seq<Record>, i: nat)
    requires Readable(inputs) && i < |inputs.order| && OnlyWanted(inputs, before, records, corpus, |inputs.order|)
    ensures var k0, k1 := SlotOf(before, Wanted(inputs, i)), SlotOf(records, Wanted(inputs, i));
            && (k0.Some? ==> k1 == k0)
            && (k0.None? && k1.Some? ==>
                  && k1.value >= |before| && corpus == Fresh(records[k1.value].corpus)
                  && records[k1.value].payload == Wanted(inputs, i))
  {
    var p := Wanted(inputs, i);
    SlotKept(before, records, p);
    var k0, k1 := SlotOf(before, p), SlotOf(records, p);
    hide SlotOf;
    if k0.None? && k1.Some? && k1.value >= |before| {
      assert IsWanted(inputs, records[k1.value].payload, |inputs.order|);
      var j :| 0 <= j < |inputs.order| && records[k1.value].payload == Wanted(inputs, j);
      assert inputs.order[j] == inputs.order[i];
    }
  }

  lemma {:induction false} NewRound(evaluations: seq<Evaluation>, p: EvaluationPayload, count: nat)
    requires forall e :: 0 <= e < |evaluations| ==> evaluations[e].payload.curriculum < count
    requires p.curriculum >= count
    ensures RoundOf(evaluations, p).None?
  {
  }

  /** Interrupted or not, `prepare` loses nothing. */
  lemma PrepareKeeps(inputs: Inputs, accepts: CurriculumPayload -> bool, corpus: Corpus,
                     before: seq<Record>, records: seq<Record>, evaluations: seq<Evaluation>, portfolios: seq<Portfolio>)
    requires Readable(inputs) && OnlyWanted(inputs, before, records, corpus, |inputs.order|)
    requires OnlyAccepted(accepts, before, records) && Rooted(before, evaluations, portfolios)
    ensures Rooted(records, evaluations, portfolios)
    ensures Completable(inputs, accepts, corpus, before, evaluations, portfolios)
            <==> Completable(inputs, accepts, corpus, records, evaluations, portfolios)
  {
    hide SlotOf, RoundOf, TitleOf, DomainReady, Titled, Evaluable;
    assert before <= records;
    forall i | 0 <= i < |inputs.order|
      ensures Standing(inputs, accepts, corpus, before, evaluations, i) <==> Standing(inputs, accepts, corpus, records, evaluations, i)
    {
      KeepsOne(inputs, accepts, corpus, before, records, evaluations, i);
    }
    TitledKept(inputs, corpus, before, records, evaluations, portfolios);
  }

  lemma TitledKept(inputs: Inputs, corpus: Corpus, before: seq<Record>, records: seq<Record>,
                   evaluations: seq<Evaluation>, portfolios: seq<Portfolio>)
    requires Readable(inputs) && OnlyWanted(inputs, before, records, corpus, |inputs.order|)
    requires Rooted(before, evaluations, portfolios)
    ensures Titled(inputs, corpus, before, portfolios) <==> Titled(inputs, corpus, records, portfolios)
  {
    hide SlotOf, TitleOf, OnlyWanted, Served, Readable;
    if TitleOf(portfolios, PortfolioFor(inputs, [])).Some? {
      if Titled(inputs, corpus, before, portfolios) {
        var ids :| Served(inputs, before, ids, |inputs.order|) && Finalizable(portfolios, corpus, PortfolioFor(inputs, ids));
        ServedKept(inputs, corpus, before, records, ids);
      }
      if Titled(inputs, corpus, records, portfolios) {
        var ids :| Served(inputs, records, ids, |inputs.order|) && Finalizable(portfolios, corpus, PortfolioFor(inputs, ids));
        SameTitles(portfolios, PortfolioFor(inputs, []), PortfolioFor(inputs, ids));
        ServedBefore(inputs, corpus, before, records, ids);
      }
    }
  }

  lemma ServedKept(inputs: Inputs, corpus: Corpus, before: seq<Record>, records: seq<Record>, ids: seq<nat>)
    requires Readable(inputs) && OnlyWanted(inputs, before, records, corpus, |inputs.order|)
    requires Served(inputs, before, ids, |inputs.order|)
    ensures Served(inputs, records, ids, |inputs.order|)
  {
    hide SlotOf;
    forall i | 0 <= i < |inputs.order|
      ensures SlotOf(records, Wanted(inputs, i)) == Some(ids[i])
    {
      SlotAfter(inputs, corpus, before, records, i);
    }
  }

  lemma KeepsOne(inputs: Inputs, accepts: CurriculumPayload -> bool, corpus: Corpus,
                 before: seq<Record>, records: seq<Record>, evaluations: seq<Evaluation>, i: nat)
    requires Readable(inputs) && i < |inputs.order| && OnlyWanted(inputs, before, records, corpus, |inputs.order|)
    requires OnlyAccepted(accepts, before, records)
    requires forall e :: 0 <= e < |evaluations| ==> evaluations[e].payload.curriculum < |before|
    ensures Standing(inputs, accepts, corpus, before, evaluations, i) <==> Standing(inputs, accepts, corpus, records, evaluations, i)
  {
    hide SlotOf, RoundOf;
    SlotAfter(inputs, corpus, before, records, i);
    var k := SlotOf(records, Wanted(inputs, i));
    if k.Some? && k.value >= |before| {
      NewRound(evaluations, WantedEvaluation(inputs, i, k.value), |before|);
    }
  }

  /** After a completed `prepare` the remaining conditions are those of the two stages. */
  lemma CompletableStages(inputs: Inputs, accepts: CurriculumPayload -> bool, corpus: Corpus,
                          before: seq<Record>, records: seq<Record>, evaluations: seq<Evaluation>, portfolios: seq<Portfolio>, ids: seq<nat>)
    requires Readable(inputs) && OnlyWanted(inputs, before, records, corpus, |inputs.order|)
    requires Rooted(before, evaluations, portfolios)
    requires Served(inputs, records, ids, |inputs.order|) && AllReady(inputs, accepts, corpus, before, |inputs.order|)
    requires forall i :: 0 <= i < |ids| ==> ids[i] < |records|
    ensures |ids| == |inputs.order|
    ensures Completable(inputs, accepts, corpus, before, evaluations, portfolios)
            <==> AllEvaluable(inputs, ids, records, evaluations, corpus, |ids|) && Finalizable(portfolios, corpus, PortfolioFor(inputs, ids))
  {
    hide SlotOf, RoundOf, TitleOf, Evaluable, Readable, Wanted, WantedEvaluation, DomainReady, Titled, Standing;
    forall i | 0 <= i < |ids|
      ensures Standing(inputs, accepts, corpus, before, evaluations, i)
              <==> Evaluable(records, evaluations, corpus, WantedEvaluation(inputs, i, ids[i]))
    {
      StageOne(inputs, accepts, corpus, before, records, evaluations, ids, i);
    }
    TitleStage(inputs, corpus, before, records, evaluations, portfolios, ids);
  }

  lemma StageOne(inputs: Inputs, accepts: CurriculumPayload -> bool, corpus: Corpus,
                 before: seq<Record>, records: seq<Record>, evaluations: seq<Evaluation>, ids: seq<nat>, i: nat)
    requires Readable(inputs) && i < |inputs.order| && OnlyWanted(inputs, before, records, corpus, |inputs.order|)
    requires DomainReady(inputs, accepts, corpus, before, i)
    requires forall e :: 0 <= e < |evaluations| ==> evaluations[e].payload.curriculum < |before|
    requires Served(inputs, records, ids, |inputs.order|) && ids[i] < |records|
    ensures Standing(inputs, accepts, corpus, before, evaluations, i)
            <==> Evaluable(records, evaluations, corpus, WantedEvaluation(inputs, i, ids[i]))
  {
    hide SlotOf, RoundOf, DomainReady;
    SlotAfter(inputs, corpus, before, records, i);
    if SlotOf(before, Wanted(inputs, i)).None? {
      NewRound(evaluations, WantedEvaluation(inputs, i, ids[i]), |before|);
    }
  }

  lemma TitleStage(inputs: Inputs, corpus: Corpus, before: seq<Record>, records: seq<Record>, evaluations: seq<Evaluation>,
                   portfolios: seq<Portfolio>, ids: seq<nat>)
    requires Readable(inputs) && OnlyWanted(inputs, before, records, corpus, |inputs.order|)
    requires Rooted(before, evaluations, portfolios) && Served(inputs, records, ids, |inputs.order|)
    ensures Titled(inputs, corpus, before, portfolios) <==> Finalizable(portfolios, corpus, PortfolioFor(inputs, ids))
  {
    hide SlotOf, TitleOf;
    SameTitles(portfolios, PortfolioFor(inputs, []), PortfolioFor(inputs, ids));
    var t := TitleOf(portfolios, PortfolioFor(inputs, ids));
    if t.Some? {
      if ids0 :| Served(inputs, before, ids0, |inputs.order|) && Finalizable(portfolios, corpus, PortfolioFor(inputs, ids0)) {
        ServedKept(inputs, corpus, before, records, ids0);
        assert ids0 == ids;
      }
      if Finalizable(portfolios, corpus, PortfolioFor(inputs, ids)) {
        ServedBefore(inputs, corpus, before, records, ids);
      }
    }
  }

  lemma ServedBefore(inputs: Inputs, corpus: Corpus, before: seq<Record>, records: seq<Record>, ids: seq<nat>)
    requires Readable(inputs) && OnlyWanted(inputs, before, records, corpus, |inputs.order|)
    requires Served(inputs, records, ids, |inputs.order|) && forall k :: k in ids ==> k < |before|
    ensures Served(inputs, before, ids, |inputs.order|)
  {
    hide SlotOf;
    forall i | 0 <= i < |inputs.order|
      ensures SlotOf(before, Wanted(inputs, i)) == Some(ids[i])
    {
      SlotAfter(inputs, corpus, before, records, i);
      assert ids[i] in ids;
    }
  }

  lemma {:induction false} SameTitles(portfolios: seq<Portfolio>, p: PortfolioPayload, q: PortfolioPayload)
    requires SameTitle(p, q)
    ensures TitleOf(portfolios, p) == TitleOf(portfolios, q)
  {
    if portfolios != [] {
      SameTitles(portfolios[..|portfolios| - 1], p, q);
    }
  }

  /** Nor does `evaluate`, wherever it stops. */
  lemma EvaluateKeeps(inputs: Inputs, accepts: CurriculumPayload -> bool, corpus: Corpus, records: seq<Record>,
                      before: seq<Evaluation>, evaluations: seq<Evaluation>, portfolios: seq<Portfolio>, ids: seq<nat>)
    requires Readable(inputs) && Served(inputs, records, ids, |inputs.order|) && Rooted(records, before, portfolios)
    requires |ids| == |inputs.order| && forall i :: 0 <= i < |ids| ==> ids[i] < |records|
    requires OnlyRounds(inputs, ids, records, corpus, before, evaluations, |ids|)
    ensures Rooted(records, evaluations, portfolios)
    ensures Completable(inputs, accepts, corpus, records, before, portfolios)
            <==> Completable(inputs, accepts, corpus, records, evaluations, portfolios)
  {
    hide SlotOf, RoundOf, TitleOf, AllReady, Readable, Evaluable, Finalizable;
    ServedShape(inputs, records, ids);
    forall e | 0 <= e < |evaluations|
      ensures evaluations[e].payload.curriculum < |records|
    {
      if e >= |before| {
        assert IsRound(inputs, ids, records, corpus, evaluations[e].payload, |ids|);
      }
    }
    forall i | 0 <= i < |inputs.order|
      ensures Standing(inputs, accepts, corpus, records, before, i) <==> Standing(inputs, accepts, corpus, records, evaluations, i)
    {
      RoundAfter(inputs, records, corpus, before, evaluations, ids, i);
    }
  }

  lemma RoundAfter(inputs: Inputs, records: seq<Record>, corpus: Corpus, before: seq<Evaluation>, evaluations: seq<Evaluation>,
                   ids: seq<nat>, i: nat)
    requires Readable(inputs) && i < |ids| == |inputs.order| && forall i :: 0 <= i < |ids| ==> ids[i] < |records|
    requires forall i, j :: 0 <= i < j < |ids| ==> ids[i] != ids[j]
    requires OnlyRounds(inputs, ids, records, corpus, before, evaluations, |ids|)
    ensures Evaluable(records, before, corpus, WantedEvaluation(inputs, i, ids[i]))
            <==> Evaluable(records, evaluations, corpus, WantedEvaluation(inputs, i, ids[i]))
  {
    var p := WantedEvaluation(inputs, i, ids[i]);
    RoundKept(before, evaluations, p);
    hide RoundOf, WantedEvaluation;
    var e0, e1 := RoundOf(before, p), RoundOf(evaluations, p);
    if e0.None? && e1.Some? && e1.value >= |before| {
      assert IsRound(inputs, ids, records, corpus, evaluations[e1.value].payload, |ids|);
    }
  }

  lemma FinalizeKeeps(inputs: Inputs, accepts: CurriculumPayload -> bool, corpus: Corpus, records: seq<Record>,
                      evaluations: seq<Evaluation>, before: seq<Portfolio>, portfolios: seq<Portfolio>, ids: seq<nat>)
    requires Readable(inputs) && Served(inputs, records, ids, |inputs.order|) && Rooted(records, evaluations, before)
    requires var p := PortfolioFor(inputs, ids);
             portfolios == before
             || (TitleOf(before, p).None? && |portfolios| == |before| + 1
                 && before <= portfolios && portfolios[|before|].payload == p && corpus.Fresh?)
    ensures Rooted(records, evaluations, portfolios)
    ensures Completable(inputs, accepts, corpus, records, evaluations, before)
            <==> Completable(inputs, accepts, corpus, records, evaluations, portfolios)
  {
    hide SlotOf, RoundOf, TitleOf, AllReady, Readable, Evaluable, Finalizable, Served, Wanted, WantedEvaluation;
    if portfolios != before {
      TitlePosted(before, portfolios, corpus, PortfolioFor(inputs, ids));
      RootedPosted(inputs, records, evaluations, before, portfolios, ids);
    }
  }

  lemma TitlePosted(before: seq<Portfolio>, portfolios: seq<Portfolio>, corpus: Corpus, p: PortfolioPayload)
    requires TitleOf(before, p).None? && |portfolios| == |before| + 1
    requires before <= portfolios && portfolios[|before|].payload == p
    ensures TitleOf(portfolios, p) == Some(|before|) && Finalizable(portfolios, corpus, p)
  {
    assert portfolios[..|before|] == before;
  }

  lemma RootedPosted(inputs: Inputs, records: seq<Record>, evaluations: seq<Evaluation>,
                     before: seq<Portfolio>, portfolios: seq<Portfolio>, ids: seq<nat>)
    requires Readable(inputs) && Served(inputs, records, ids, |inputs.order|) && Rooted(records, evaluations, before)
    requires |portfolios| == |before| + 1 && before <= portfolios && portfolios[|before|].payload.curricula == ids
    ensures Rooted(records, evaluations, portfolios)
  {
    hide SlotOf, Wanted;
  }

  lemma DoneIsTaken(inputs: Inputs, accepts: CurriculumPayload -> bool, corpus: Corpus, records: seq<Record>,
                    evaluations: seq<Evaluation>, portfolios: seq<Portfolio>)
    requires Readable(inputs)
    ensures forall r :: Done(inputs, records, evaluations, portfolios, r) ==>
              AllTaken(inputs, records, |inputs.order|) && AllReady(inputs, accepts, corpus, records, |inputs.order|)
  {
    hide SlotOf, RoundOf, TitleOf, WantedEvaluation;
  }

  /** A finished state is finished in one way, and asks nothing of the corpus. */
  lemma DoneStages(inputs: Inputs, corpus: Corpus, records: seq<Record>, evaluations: seq<Evaluation>, portfolios: seq<Portfolio>,
                   ids: seq<nat>, r: Result)
    requires Readable(inputs) && Done(inputs, records, evaluations, portfolios, r)
    requires Served(inputs, records, ids, |inputs.order|)
    requires |ids| == |inputs.order| && forall i :: 0 <= i < |ids| ==> ids[i] < |records|
    ensures ids == r.curricula
    ensures AllRounds(inputs, ids, evaluations, |ids|) && AllEvaluable(inputs, ids, records, evaluations, corpus, |ids|)
    ensures TitleOf(portfolios, PortfolioFor(inputs, ids)) == Some(r.portfolio) && Finalizable(portfolios, corpus, PortfolioFor(inputs, ids))
  {
    hide SlotOf, RoundOf, TitleOf, WantedEvaluation;
    assert ids == r.curricula by {
      forall i | 0 <= i < |ids|
        ensures ids[i] == r.curricula[i]
      {
        assert SlotOf(records, Wanted(inputs, i)) == Some(ids[i]);
      }
    }
  }

  lemma DoneIsCompletable(inputs: Inputs, accepts: CurriculumPayload -> bool, corpus: Corpus, records: seq<Record>,
                          evaluations: seq<Evaluation>, portfolios: seq<Portfolio>, r: Result)
    requires Readable(inputs) && Done(inputs, records, evaluations, portfolios, r)
    ensures Completable(inputs, accepts, corpus, records, evaluations, portfolios)
  {
    hide SlotOf, RoundOf, TitleOf, WantedEvaluation, Wanted, Readable;
    SameTitles(portfolios, PortfolioFor(inputs, []), PortfolioFor(inputs, r.curricula));
    forall i | 0 <= i < |inputs.order|
      ensures Standing(inputs, accepts, corpus, records, evaluations, i)
    {
      assert SlotOf(records, Wanted(inputs, i)) == Some(r.curricula[i]);
      assert RoundOf(evaluations, WantedEvaluation(inputs, i, r.curricula[i])) == Some(r.evaluations[i]);
    }
  }

  /** The new evaluations are of curricula registered on the current corpus. */
  ghost predicate OnCorpus(records: seq<Record>, corpus: Corpus, before: seq<Evaluation>, evaluations: seq<Evaluation>) {
    && before <= evaluations
    && forall e :: |before| <= e < |evaluations| ==>
         var k := evaluations[e].payload.curriculum;
         k < |records| && corpus == Fresh(records[k].corpus)
  }

  lemma RecordsGrow(inputs: Inputs, corpus: Corpus, before: seq<Record>, records: seq<Record>, evaluations: seq<Evaluation>)
    requires Readable(inputs) && OnlyWanted(inputs, before, records, corpus, |inputs.order|)
    ensures before <= records && OnCorpus(records, corpus, evaluations, evaluations)
  {
  }

  lemma RoundsOnCorpus(inputs: Inputs, ids: seq<nat>, records: seq<Record>, corpus: Corpus,
                       before: seq<Evaluation>, evaluations: seq<Evaluation>)
    requires Readable(inputs) && |ids| == |inputs.order| && forall i :: 0 <= i < |ids| ==> ids[i] < |records|
    requires OnlyRounds(inputs, ids, records, corpus, before, evaluations, |ids|)
    ensures OnCorpus(records, corpus, before, evaluations)
  {
    hide Readable, EvaluationFor;
    forall e | |before| <= e < |evaluations|
      ensures var k := evaluations[e].payload.curriculum; k < |records| && corpus == Fresh(records[k].corpus)
    {
      assert IsRound(inputs, ids, records, corpus, evaluations[e].payload, |ids|);
    }
  }

  /** A domain whose curriculum is registered, has no evaluation of the wanted version, and
      stands on another corpus than the current one. */
  ghost predicate Stuck(inputs: Inputs, records: seq<Record>, evaluations: seq<Evaluation>, corpus: Corpus, i: nat)
    requires Readable(inputs) && i < |inputs.order|
  {
    var k := SlotOf(records, Wanted(inputs, i));
    k.Some? && RoundOf(evaluations, WantedEvaluation(inputs, i, k.value)).None? && corpus != Fresh(records[k.value].corpus)
  }

  lemma StuckIsBlocked(inputs: Inputs, accepts: CurriculumPayload -> bool, corpus: Corpus,
                       records: seq<Record>, evaluations: seq<Evaluation>, portfolios: seq<Portfolio>, i: nat)
    requires Readable(inputs) && i < |inputs.order| && Stuck(inputs, records, evaluations, corpus, i)
    ensures !Completable(inputs, accepts, corpus, records, evaluations, portfolios)
  {
    hide SlotOf, RoundOf, TitleOf, Readable, Wanted, WantedEvaluation;
    assert !Standing(inputs, accepts, corpus, records, evaluations, i);
  }

  lemma StuckStays(inputs: Inputs, before: seq<Record>, records: seq<Record>, corpus: Corpus,
                   e0: seq<Evaluation>, evaluations: seq<Evaluation>, next: Corpus, i: nat)
    requires Readable(inputs) && i < |inputs.order| && before <= records && OnCorpus(records, corpus, e0, evaluations)
    requires Stuck(inputs, before, e0, corpus, i) && Stuck(inputs, before, e0, next, i)
    ensures Stuck(inputs, records, evaluations, next, i)
  {
    var p := Wanted(inputs, i);
    SlotKept(before, records, p);
    var k := SlotOf(before, p).value;
    RoundKept(e0, evaluations, WantedEvaluation(inputs, i, k));
    hide SlotOf, RoundOf, WantedEvaluation, Wanted, Readable;
    assert records[k] == before[k];
  }

  lemma ServedAnew(inputs: Inputs, corpus: Corpus, records: seq<Record>, ids: seq<nat>, i: nat)
    requires Readable(inputs) && i < |inputs.order| && Served(inputs, records, ids, |inputs.order|)
    requires OnlyWanted(inputs, [], records, corpus, |inputs.order|)
    ensures var k := SlotOf(records, Wanted(inputs, i)); k.Some? && corpus == Fresh(records[k.value].corpus)
    ensures SlotOf(records, Wanted(inputs, i)) == Some(ids[i])
  {
    hide SlotOf, Wanted, Readable;
    assert ids[i] < |records|;
  }

  lemma DoneIds(inputs: Inputs, corpus: Corpus, records: seq<Record>, evaluations: seq<Evaluation>, portfolios: seq<Portfolio>, ids: seq<nat>)
    requires Readable(inputs) && Served(inputs, records, ids, |inputs.order|)
    requires |ids| == |inputs.order| && forall i :: 0 <= i < |ids| ==> ids[i] < |records|
    ensures forall r :: Done(inputs, records, evaluations, portfolios, r) ==>
              && AllRounds(inputs, ids, evaluations, |ids|) && AllEvaluable(inputs, ids, records, evaluations, corpus, |ids|)
              && TitleOf(portfolios, PortfolioFor(inputs, ids)).Some? && Finalizable(portfolios, corpus, PortfolioFor(inputs, ids))
  {
    hide Done, AllRounds, AllEvaluable, TitleOf, Finalizable, Served, Readable, PortfolioFor;
    forall r | Done(inputs, records, evaluations, portfolios, r)
      ensures && AllRounds(inputs, ids, evaluations, |ids|) && AllEvaluable(inputs, ids, records, evaluations, corpus, |ids|)
              && TitleOf(portfolios, PortfolioFor(inputs, ids)).Some? && Finalizable(portfolios, corpus, PortfolioFor(inputs, ids))
    {
      DoneStages(inputs, corpus, records, evaluations, portfolios, ids, r);
    }
  }

  lemma DoneNow(inputs: Inputs, records: seq<Record>, evaluations: seq<Evaluation>, portfolios: seq<Portfolio>, r: Result)
    requires Readable(inputs) && |r.curricula| == |inputs.order|
    requires Served(inputs, records, r.curricula, |inputs.order|)
    requires Evaluated(inputs, r.curricula, evaluations, r.evaluations, |r.curricula|)
    requires r.portfolio < |portfolios| && TitleOf(portfolios, PortfolioFor(inputs, r.curricula)) == Some(r.portfolio)
    requires portfolios[r.portfolio].payload == PortfolioFor(inputs, r.curricula)
    ensures Done(inputs, records, evaluations, portfolios, r)
    ensures forall q :: Done(inputs, records, evaluations, portfolios, q) ==> q == r
  {
    hide SlotOf, RoundOf, TitleOf, WantedEvaluation, Wanted, PortfolioFor;
    forall q | Done(inputs, records, evaluations, portfolios, q)
      ensures q == r
    {
      assert q.curricula == r.curricula;
      assert q.evaluations == r.evaluations;
    }
  }
}
