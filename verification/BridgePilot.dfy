/** The governed-bridge pilot: one client drives a ten-state lifecycle through a control
    plane that accepts each record once and each stage in order. A run may stop at any
    call, before or after the call took effect; what is left behind is what the next
    run starts from. */
module BridgePilot {
  import opened Prelude

  datatype Stage =
    | AwaitingApproval | Approved | RegistryBound | Executed | TruthValidated
    | BundleFinalized | IndependentlyReviewed | Published | MemoryConfirmed | Complete

  function Rank(stage: Stage): nat {
    match stage
    case AwaitingApproval => 0
    case Approved => 1
    case RegistryBound => 2
    case Executed => 3
    case TruthValidated => 4
    case BundleFinalized => 5
    case IndependentlyReviewed => 6
    case Published => 7
    case MemoryConfirmed => 8
    case Complete => 9
  }

  /** The control plane's records, named by the keys that make them unique. */
  datatype Record =
    | Source | Snapshot | CanonicalSource | CanonicalDataset
    | Hypothesis | HypothesisReview | Experiment | ExperimentReview | Trial(ordinal: nat)
    | TrialResult | StatisticalReview | AdversarialReview | Decision
    | Publication | MemoryReceipt

  const RUNS: nat := 16

  datatype Event = Created(record: Record) | Advanced(stage: Stage, cited: set<Record>)

  function Trials(count: nat): set<Record> {
    set i | 0 <= i < count :: Trial(i)
  }

  /** What must exist before the control plane accepts a record. */
  function Needs(record: Record): set<Record> {
    match record
    case Snapshot => {Source}
    case CanonicalDataset => {CanonicalSource}
    case HypothesisReview => {Hypothesis}
    case Experiment => {Source, Snapshot, Hypothesis, HypothesisReview}
    case ExperimentReview => {Experiment}
    case Trial(ordinal) => {Experiment, ExperimentReview} + Trials(ordinal)
    case TrialResult => {Trial(0)}
    case StatisticalReview => {TrialResult}
    case AdversarialReview => {TrialResult}
    case Decision => {TrialResult, StatisticalReview, AdversarialReview}
    case _ => {}
  }

  const DATA := {Source, Snapshot, CanonicalSource, CanonicalDataset}

  const DESIGN := {Hypothesis, HypothesisReview, Experiment, ExperimentReview}

  const REGISTRY := DATA + DESIGN

  /** The records the receipt of a stage cites. */
  function Cited(stage: Stage): set<Record> {
    match stage
    case RegistryBound => {Hypothesis, Experiment} + Trials(RUNS)
    case IndependentlyReviewed => {StatisticalReview, AdversarialReview, Decision}
    case Published => {Publication}
    case MemoryConfirmed => {MemoryReceipt}
    case Complete => {Publication}
    case _ => {}
  }

  /** Every record that a receipt cites was created before the receipt was accepted. */
  ghost predicate CitedFirst(trace: seq<Event>) {
    forall i, r :: 0 <= i < |trace| && trace[i].Advanced? && r in trace[i].cited ==> Created(r) in trace[..i]
  }

  ghost predicate Before(trace: seq<Event>, i: int, rs: set<Record>)
    requires 0 <= i < |trace|
  {
    forall r :: r in rs ==> Created(r) in trace[..i]
  }

  /** What precedes a record, whoever created it: a review has what it reviews; an experiment
      has an approved hypothesis and its data; a trial has a reviewed experiment and all
      trials before it; a result has a trial; a decision has both reviews of the result. */
  ghost predicate Grounded(trace: seq<Event>, i: int)
    requires 0 <= i < |trace|
  {
    && (trace[i] == Created(Experiment) ==> Before(trace, i, {Source, Snapshot, Hypothesis, HypothesisReview}))
    && (trace[i].Created? && trace[i].record.Trial? ==>
          Before(trace, i, {Experiment, ExperimentReview})
          && forall n :: 0 <= n < trace[i].record.ordinal ==> Created(Trial(n)) in trace[..i])
    && (trace[i] == Created(Snapshot) ==> Before(trace, i, {Source}))
    && (trace[i] == Created(CanonicalDataset) ==> Before(trace, i, {CanonicalSource}))
    && (trace[i] == Created(HypothesisReview) ==> Before(trace, i, {Hypothesis}))
    && (trace[i] == Created(ExperimentReview) ==> Before(trace, i, {Experiment}))
    && (trace[i] == Created(TrialResult) ==> Before(trace, i, {Trial(0)}))
    && (trace[i] == Created(StatisticalReview) ==> Before(trace, i, {TrialResult}))
    && (trace[i] == Created(AdversarialReview) ==> Before(trace, i, {TrialResult}))
    && (trace[i] == Created(Decision) ==> Before(trace, i, {TrialResult, StatisticalReview, AdversarialReview}))
  }

  /** What a receipt cites: the bound bridge its hypothesis, its experiment and all sixteen
      trials; the reviewed one both reviews and the decision; then the publication and the
      memory receipt. */
  ghost predicate Citing(e: Event) {
    e.Advanced? ==>
      && (e.stage == RegistryBound ==>
            Hypothesis in e.cited && Experiment in e.cited && forall n: nat :: Trial(n) in e.cited <==> n < 16)
      && (e.stage == IndependentlyReviewed ==> e.cited == {StatisticalReview, AdversarialReview, Decision})
      && (e.stage == Published || e.stage == Complete ==> e.cited == {Publication})
      && (e.stage == MemoryConfirmed ==> e.cited == {MemoryReceipt})
  }

  ghost predicate Orderly(trace: seq<Event>) {
    forall i :: 0 <= i < |trace| ==> Grounded(trace, i) && Citing(trace[i])
  }

  lemma OrderlyCreated(trace: seq<Event>, records: set<Record>, record: Record)
    requires Orderly(trace) && CitedFirst(trace) && (forall r :: r in records ==> Created(r) in trace) && Needs(record) <= records
    ensures Orderly(trace + [Created(record)]) && CitedFirst(trace + [Created(record)])
  {
    hide Needs, Grounded, Orderly, CitedFirst;
    NeedsAreBefore(trace, records, record);
    OrderlyStep(trace, Created(record));
    CitedStep(trace, Created(record));
  }

  lemma OrderlyStep(trace: seq<Event>, e: Event)
    requires Orderly(trace) && Grounded(trace + [e], |trace|) && Citing(e)
    ensures Orderly(trace + [e])
  {
    hide Grounded, Citing;
    SamePast(trace, e);
  }

  lemma CitedStep(trace: seq<Event>, e: Event)
    requires CitedFirst(trace) && (e.Advanced? ==> forall r :: r in e.cited ==> Created(r) in trace)
    ensures CitedFirst(trace + [e])
  {
    var next := trace + [e];
    forall i, r | 0 <= i < |next| && next[i].Advanced? && r in next[i].cited
      ensures Created(r) in next[..i]
    {
      assert next[..i] == trace[..i];
    }
  }

  lemma NeedsAreBefore(trace: seq<Event>, records: set<Record>, record: Record)
    requires (forall r :: r in records ==> Created(r) in trace) && Needs(record) <= records
    ensures Grounded(trace + [Created(record)], |trace|)
  {
    var next := trace + [Created(record)];
    assert next[..|trace|] == trace && next[|trace|] == Created(record);
    if record.Trial? {
      assert forall n :: 0 <= n < record.ordinal ==> Trial(n) in Trials(record.ordinal);
    }
  }

  lemma OrderlyAdvanced(trace: seq<Event>, records: set<Record>, stage: Stage)
    requires Orderly(trace) && CitedFirst(trace) && (forall r :: r in records ==> Created(r) in trace) && Cited(stage) <= records
    ensures var next := trace + [Advanced(stage, Cited(stage))]; Orderly(next) && CitedFirst(next)
  {
    var e := Advanced(stage, Cited(stage));
    hide Cited, Grounded, Citing, Orderly, CitedFirst;
    CitedIs(stage);
    ReceiptIsGrounded(trace, e);
    OrderlyStep(trace, e);
    CitedStep(trace, e);
  }

  lemma ReceiptIsGrounded(trace: seq<Event>, e: Event)
    requires e.Advanced?
    ensures Grounded(trace + [e], |trace|)
  {
    assert (trace + [e])[|trace|] == e;
  }

  lemma CitedIs(stage: Stage)
    ensures Citing(Advanced(stage, Cited(stage)))
  {
  }

  lemma SamePast(trace: seq<Event>, e: Event)
    ensures forall i :: 0 <= i < |trace| ==> (Grounded(trace + [e], i) <==> Grounded(trace, i)) && (trace + [e])[i] == trace[i]
  {
    forall i | 0 <= i < |trace|
      ensures Grounded(trace + [e], i) <==> Grounded(trace, i)
    {
      assert (trace + [e])[..i] == trace[..i];
    }
  }

  class Pilot {
    // The control plane.
    var registered: bool
    var stage: Stage
    var records: set<Record>
    var trace: seq<Event>
    // The state file: the bridge stage it was written with.
    var file: Option<Stage>

    constructor ()
      ensures Inv() && !registered && records == {} && trace == [] && file.None?
    {
      registered, stage, records, trace, file := false, AwaitingApproval, {}, [], None;
    }

    ghost predicate Traced()
      reads this
    {
      CitedFirst(trace) && Orderly(trace) && forall r :: r in records ==> Created(r) in trace
    }

    /** What holds between any two calls of any number of runs. */
    ghost predicate Inv()
      reads this
    {
      && Traced()
      && (!registered ==> stage == AwaitingApproval && records == {})
      && (Source !in records ==> records == {})
      && (Rank(stage) >= Rank(RegistryBound) ==> Source in records && Trial(0) in records)
      && (TrialResult in records ==> file.Some?)
      && (TrialResult !in records ==> StatisticalReview !in records && AdversarialReview !in records && Decision !in records)
      && (Rank(stage) >= Rank(IndependentlyReviewed) ==> TrialResult in records)
      && (file.Some? ==> Rank(stage) >= Rank(BundleFinalized) && file.value in {BundleFinalized, Complete})
      && (file == Some(Complete) ==> stage == Complete)
    }

    /** The states from which a fault-free run completes. */
    ghost predicate Resumable()
      reads this
    {
      || (file.None? && Source !in records)
      || (file == Some(BundleFinalized) && stage == BundleFinalized && TrialResult !in records)
      || (file == Some(BundleFinalized) && Rank(IndependentlyReviewed) <= Rank(stage) <= Rank(MemoryConfirmed))
    }

    /** A POST that must create its record: refused when the record exists already or a
        prerequisite is missing. With `faults`, the run may stop before or after it. */
    method Create(record: Record, faults: bool) returns (ok: bool)
      requires Traced()
      modifies this`records, this`trace
      ensures Traced()
      ensures records == old(records) || records == old(records) + {record}
      ensures ok ==> record !in old(records) && records == old(records) + {record}
      ensures record in old(records) || !(Needs(record) <= old(records)) ==> records == old(records)
      ensures !faults ==> (ok <==> record !in old(records) && Needs(record) <= old(records))
    {
      hide CitedFirst, Orderly;
      var stop := Stops(faults);
      if stop || record in records || !(Needs(record) <= records) {
        return false;
      }
      ghost var before := trace;
      OrderlyCreated(trace, records, record);
      records, trace := records + {record}, trace + [Created(record)];
      assert trace[|before|] == Created(record);
      stop := Stops(faults);
      ok := !stop;
    }

    /** A POST that returns the existing record or creates it. */
    method Ensure(record: Record, faults: bool) returns (ok: bool)
      requires Traced() && Needs(record) <= records
      modifies this`records, this`trace
      ensures Traced()
      ensures records == old(records) || records == old(records) + {record}
      ensures ok ==> record in records
      ensures !faults ==> ok
    {
      hide CitedFirst, Orderly;
      if record in records {
        var stop := Stops(faults);
        ok := !stop;
      } else {
        ok := Create(record, faults);
      }
    }

    /** Compare-and-set on the stage: only the next stage, only from the expected one. */
    method Advance(expected: Stage, next: Stage, faults: bool) returns (ok: bool)
      requires Traced() && (stage == expected && Rank(next) == Rank(expected) + 1 ==> Cited(next) <= records)
      modifies this`stage, this`trace
      ensures Traced()
      ensures stage == old(stage) || (old(stage) == expected && stage == next && Rank(next) == Rank(expected) + 1)
      ensures ok ==> stage == next
      ensures !faults ==> (ok <==> old(stage) == next || (old(stage) == expected && Rank(next) == Rank(expected) + 1))
    {
      hide CitedFirst, Orderly;
      var stop := Stops(faults);
      if stop || (stage != next && (stage != expected || Rank(next) != Rank(expected) + 1)) {
        return false;
      }
      if stage != next {
        ghost var before := trace;
        OrderlyAdvanced(trace, records, next);
        stage, trace := next, trace + [Advanced(next, Cited(next))];
        assert trace[|before|] == Advanced(next, Cited(next));
      }
      stop := Stops(faults);
      ok := !stop;
    }

    /** Source, snapshot and their canonical evidence objects. */
    method RegisterData(faults: bool) returns (ok: bool)
      requires Traced() && (Source !in records ==> records == {})
      modifies this`records, this`trace
      ensures Traced() && old(records) <= records <= old(records) + DATA
      ensures Source !in records ==> records == {}
      ensures Source in old(records) ==> !ok && records == old(records)
      ensures ok ==> records == DATA
      ensures !faults && Source !in old(records) ==> ok
    {
      hide CitedFirst, Orderly;
      ok := Create(Source, faults);
      if !ok { return; }
      ok := Create(Snapshot, faults);
      if !ok { return; }
      ok := Ensure(CanonicalSource, faults);
      if !ok { return; }
      ok := Ensure(CanonicalDataset, faults);
    }

    /** Hypothesis and experiment, each approved before the next step needs it. */
    method RegisterDesign(faults: bool) returns (ok: bool)
      requires Traced() && records == DATA
      modifies this`records, this`trace
      ensures Traced() && DATA <= records <= REGISTRY
      ensures ok ==> records == REGISTRY
      ensures !faults ==> ok
    {
      hide CitedFirst, Orderly;
      ok := Create(Hypothesis, faults);
      if !ok { return; }
      ok := Create(HypothesisReview, faults);
      if !ok { return; }
      ok := Create(Experiment, faults);
      if !ok { return; }
      ok := Create(ExperimentReview, faults);
    }

    /** One trial per qualified run, in order. */
    method RegisterTrials(faults: bool) returns (ok: bool)
      requires Traced() && records == REGISTRY
      modifies this`records, this`trace
      ensures Traced() && REGISTRY <= records <= REGISTRY + Trials(RUNS)
      ensures ok ==> records == REGISTRY + Trials(RUNS)
      ensures !faults ==> ok
    {
      hide CitedFirst, Orderly;
      for i := 0 to RUNS
        invariant Traced() && records == REGISTRY + Trials(i)
      {
        assert Trials(i + 1) == Trials(i) + {Trial(i)};
        ok := Create(Trial(i), faults);
        if !ok { return; }
      }
      ok := true;
    }

    /** All records the registry must hold before the bridge is bound to it. */
    method RegisterRecords(faults: bool) returns (ok: bool)
      requires Traced() && (Source !in records ==> records == {})
      modifies this`records, this`trace
      ensures Traced() && old(records) <= records <= old(records) + REGISTRY + Trials(RUNS)
      ensures Source !in records ==> records == {}
      ensures Source in old(records) ==> !ok && records == old(records)
      ensures ok ==> records == REGISTRY + Trials(RUNS)
      ensures !faults && Source !in old(records) ==> ok
    {
      hide CitedFirst, Orderly;
      ok := RegisterData(faults);
      if !ok { return; }
      ok := RegisterDesign(faults);
      if !ok { return; }
      ok := RegisterTrials(faults);
    }

    /** The bridge, approved; `local` is the stage last returned. */
    method OpenApproved(faults: bool) returns (ok: bool, local: Stage)
      requires Inv() && file.None?
      modifies this`registered, this`stage, this`trace
      ensures Inv()
      ensures ok ==> registered && local == stage && stage != AwaitingApproval
      ensures stage == old(stage) || (old(stage) == AwaitingApproval && stage == Approved)
      ensures !faults ==> ok
    {
      hide CitedFirst, Orderly;
      local := AwaitingApproval;
      ok := OpenBridge(faults);
      if !ok { return; }
      local := stage;
      if local == AwaitingApproval {
        ok := Advance(AwaitingApproval, Approved, faults);
        local := Approved;
      }
    }

    /** `register`: from proposal to finalized bundles. It completes without faults
        exactly when no earlier run got as far as the first registry record. */
    method Register(faults: bool) returns (ok: bool)
      requires Inv() && file.None?
      modifies this`registered, this`stage, this`records, this`trace
      ensures Inv()
      ensures ok ==> stage == BundleFinalized && TrialResult !in records
      ensures Source in old(records) ==> !ok && Source in records
      ensures !faults && Source !in old(records) ==> ok
    {
      hide CitedFirst, Orderly;
      hide Needs;
      var local;
      ok, local := OpenApproved(faults);
      if !ok { return; }
      ok := RegisterRecords(faults);
      if !ok { return; }
      ok := AdvanceToFinalized(local, faults);
    }

    /** The four advances that follow registration; each uses the stage last returned. */
    method AdvanceToFinalized(local: Stage, faults: bool) returns (ok: bool)
      requires Inv() && registered && local == stage && stage == Approved
      requires records == REGISTRY + Trials(RUNS)
      modifies this`stage, this`trace
      ensures Inv()
      ensures ok ==> stage == BundleFinalized
      ensures !faults ==> ok
    {
      hide CitedFirst, Orderly;
      hide Needs;
      ok := Advance(local, RegistryBound, faults);
      if !ok { return; }
      ok := Advance(RegistryBound, Executed, faults);
      if !ok { return; }
      ok := Advance(Executed, TruthValidated, faults);
      if !ok { return; }
      ok := Advance(TruthValidated, BundleFinalized, faults);
    }

    /** The bridge is created in its first state, or returned as it is. */
    method OpenBridge(faults: bool) returns (ok: bool)
      requires Inv()
      modifies this`registered
      ensures Inv() && (ok ==> registered) && (old(registered) ==> registered)
      ensures !faults ==> ok
    {
      hide CitedFirst, Orderly;
      var stop := Stops(faults);
      if stop {
        return false;
      }
      registered := true;
      stop := Stops(faults);
      ok := !stop;
    }

    /** Result, two independent reviews and the decision. */
    method ReviewRecords(faults: bool) returns (ok: bool)
      requires Traced() && Trial(0) in records
      requires TrialResult !in records ==> StatisticalReview !in records && AdversarialReview !in records && Decision !in records
      modifies this`records, this`trace
      ensures Traced() && old(records) <= records <= old(records) + {TrialResult, StatisticalReview, AdversarialReview, Decision}
      ensures TrialResult !in records ==> records == old(records)
      ensures ok ==> StatisticalReview in records && AdversarialReview in records && Decision in records
      ensures TrialResult in old(records) ==> !ok && records == old(records)
      ensures !faults && TrialResult !in old(records) ==> ok
    {
      hide CitedFirst, Orderly;
      hide Trials;
      ok := Create(TrialResult, faults);
      if !ok { return; }
      ok := Create(StatisticalReview, faults);
      if !ok { return; }
      ok := Create(AdversarialReview, faults);
      if !ok { return; }
      ok := Create(Decision, faults);
    }

    /** Result, two independent reviews and the decision, then the stage that cites them. */
    method Review(faults: bool) returns (ok: bool)
      requires Inv() && file == Some(BundleFinalized) && stage == BundleFinalized
      modifies this`stage, this`records, this`trace
      ensures Inv() && Rank(stage) <= Rank(IndependentlyReviewed)
      ensures ok ==> stage == IndependentlyReviewed
      ensures TrialResult in old(records) ==> !ok && stage == old(stage) && TrialResult in records
      ensures !faults && TrialResult !in old(records) ==> ok
    {
      hide CitedFirst, Orderly;
      hide Trials, Needs;
      ok := ReviewRecords(faults);
      if !ok { return; }
      ok := Advance(BundleFinalized, IndependentlyReviewed, faults);
    }

    /** Have the record a stage cites, then take the stage unless it is behind already. */
    method EnsureThenAdvance(record: Record, expected: Stage, next: Stage, faults: bool) returns (ok: bool)
      requires Inv() && file == Some(BundleFinalized) && record in {Publication, MemoryReceipt} && Cited(next) == {record}
      requires Rank(next) == Rank(expected) + 1
      requires Rank(IndependentlyReviewed) <= Rank(expected) <= Rank(stage) <= Rank(MemoryConfirmed)
      modifies this`stage, this`records, this`trace
      ensures Inv() && (stage == old(stage) || stage == next)
      ensures ok ==> Rank(stage) >= Rank(next)
      ensures !faults ==> ok
    {
      hide CitedFirst, Orderly;
      ok := Ensure(record, faults);
      if !ok { return; }
      if stage == expected {
        ok := Advance(expected, next, faults);
      }
    }

    /** Publication, memory confirmation and completion, from any later stage. */
    method Conclude(faults: bool) returns (ok: bool)
      requires Inv() && file == Some(BundleFinalized) && Rank(IndependentlyReviewed) <= Rank(stage) <= Rank(MemoryConfirmed)
      modifies this`stage, this`records, this`trace
      ensures Inv()
      ensures ok ==> stage == Complete
      ensures !faults ==> ok
    {
      hide CitedFirst, Orderly;
      ok := EnsureThenAdvance(Publication, IndependentlyReviewed, Published, faults);
      if !ok { return; }
      ok := EnsureThenAdvance(MemoryReceipt, Published, MemoryConfirmed, faults);
      if !ok { return; }
      ok := EnsureThenAdvance(Publication, MemoryConfirmed, Complete, faults);
    }

    /** `publish`: review once, or resume from a later stage with the recorded result. */
    method Publish(faults: bool) returns (ok: bool)
      requires Inv() && file == Some(BundleFinalized)
      modifies this`stage, this`records, this`trace
      ensures Inv()
      ensures ok ==> stage == Complete
      ensures !old(Resumable()) ==> !ok && !Resumable()
      ensures !faults && old(Resumable()) ==> ok
    {
      hide CitedFirst, Orderly;
      var stop := Stops(faults);
      if stop {
        return false;
      }
      if stage == BundleFinalized {
        ok := Review(faults);
        if !ok { return; }
      } else if TrialResult !in records || stage !in {IndependentlyReviewed, Published, MemoryConfirmed} {
        return false;
      }
      ok := Conclude(faults);
    }

    /** `write_state`: an atomic replacement of the state file. */
    method WriteState(local: Stage, faults: bool) returns (ok: bool)
      modifies this`file
      ensures file == old(file) || file == Some(local)
      ensures ok ==> file == Some(local)
      ensures !faults ==> ok
    {
      hide CitedFirst, Orderly;
      var stop := Stops(faults);
      if stop {
        return false;
      }
      file := Some(local);
      stop := Stops(faults);
      ok := !stop;
    }

    /** `main`. Whatever the faults, the invariant survives; without faults the run
        completes if and only if the state it found is resumable. */
    method RunOnce(faults: bool) returns (ok: bool)
      requires Inv()
      modifies this
      ensures Inv()
      ensures ok ==> stage == Complete && file == Some(Complete)
      ensures !old(Resumable()) ==> !ok && !Resumable()
      ensures !faults ==> (ok <==> old(Resumable()))
    {
      hide CitedFirst, Orderly;
      if file.Some? {
        if file.value != BundleFinalized {
          return false;
        }
      } else {
        ok := Register(faults);
        if !ok { return; }
        ok := WriteState(BundleFinalized, faults);
        if !ok { return; }
      }
      ok := Publish(faults);
      if !ok { return; }
      ok := WriteState(Complete, faults);
    }

    /** Any number of runs, each stopping anywhere: every record cited by an accepted
        receipt was created before it, and a state that is not resumable stays so. */
    method FaultyRuns(count: nat)
      requires Inv()
      modifies this
      ensures Inv() && CitedFirst(trace) && Orderly(trace)
      ensures !old(Resumable()) ==> !Resumable()
    {
      hide CitedFirst, Orderly;
      for i := 0 to count
        invariant Inv() && (!old(Resumable()) ==> !Resumable())
      {
        var _ := RunOnce(true);
      }
    }

    /** The family the runbook's resume promise does not cover: a run that stops once its
        result is recorded, before the review stage, can never be completed. */
    method StopAfterResult()
      requires Inv() && file.None? && Source !in records
      modifies this
      ensures Inv() && stage == BundleFinalized && file == Some(BundleFinalized) && !Resumable()
    {
      hide CitedFirst, Orderly;
      var ok := Register(false);
      ok := WriteState(BundleFinalized, false);
      ok := Create(TrialResult, false);
    }
  }
}
