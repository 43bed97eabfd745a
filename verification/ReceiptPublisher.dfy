/** The recoverable receipt publisher: local files, a remote registry and a state file
    that is replaced atomically at the very end of a run. A run may stop at any call,
    in particular after a POST whose reply is lost. */
module ReceiptPublisher {
  import opened Prelude

  type Digest = string

  type Id = string

  /** A receipt file; `canonical` is the producer, milestone and digest check. */
  datatype File = File(path: string, canonical: bool, digest: Digest)

  datatype Registration = Registration(receiptId: Id, path: string)

  datatype StateFile = Missing | Malformed | Saved(registrations: map<Digest, Registration>)

  datatype Result = Stopped | Completed(published: nat, recovered: nat, skipped: nat, total: nat)

  /** The dictionary and the three counters a run keeps. */
  datatype Progress = Progress(registrations: map<Digest, Registration>, published: nat, recovered: nat, skipped: nat) {
    function Count(): nat {
      published + recovered + skipped
    }
  }

  function Digests(files: seq<File>): set<Digest> {
    set i | 0 <= i < |files| :: files[i].digest
  }

  function Known(file: StateFile): map<Digest, Registration> {
    if file.Saved? then file.registrations else map[]
  }

  /** The digests a run has to post: those not known yet, once each, in file order. */
  function Unposted(files: seq<File>, known: set<Digest>): seq<Digest> {
    if files == [] then
      []
    else
      var before, last := files[..|files| - 1], files[|files| - 1].digest;
      Unposted(before, known) + if last in known + Digests(before) then [] else [last]
  }

  /** The run gets past the i-th file: it is canonical, and its digest is known, or stands
      in an earlier file, or the registry accepts the receipt. */
  predicate Passes(files: seq<File>, known: set<Digest>, accepts: File -> bool, i: nat)
    requires i < |files|
  {
    files[i].canonical && (files[i].digest in known + Digests(files[..i]) || accepts(files[i]))
  }

  lemma NoFiles(known: set<Digest>)
    ensures Unposted([], known) == [] && Digests([]) == {}
  {
  }

  lemma DigestsSnoc(files: seq<File>)
    requires files != []
    ensures Digests(files) == Digests(files[..|files| - 1]) + {files[|files| - 1].digest}
  {
    var before := files[..|files| - 1];
    assert forall i :: 0 <= i < |before| ==> files[i] == before[i];
  }

  lemma Append(a: seq<Digest>, b: seq<Digest>, c: seq<Digest>)
    ensures a + b + c == a + (b + c)
  {
  }

  /** What the k-th file adds to the digests to post. */
  function Own(files: seq<File>, known: set<Digest>, k: nat): seq<Digest>
    requires k < |files|
  {
    if files[k].digest in known + Digests(files[..k]) then [] else [files[k].digest]
  }

  lemma UnpostedStep(files: seq<File>, known: set<Digest>, k: nat)
    requires k < |files|
    ensures Digests(files[..k + 1]) == Digests(files[..k]) + {files[k].digest}
    ensures Unposted(files[..k + 1], known)
            == Unposted(files[..k], known) + Own(files, known, k)
  {
    assert files[..k + 1][..k] == files[..k];
    DigestsSnoc(files[..k + 1]);
  }

  lemma {:induction false} UnpostedShape(files: seq<File>, known: set<Digest>)
    ensures forall d :: d in Unposted(files, known) <==> d in Digests(files) - known
    ensures forall i, j :: 0 <= i < j < |Unposted(files, known)| ==> Unposted(files, known)[i] != Unposted(files, known)[j]
  {
    if files != [] {
      var before := files[..|files| - 1];
      UnpostedShape(before, known);
      DigestsSnoc(files);
      var earlier := Unposted(before, known);
      forall i | 0 <= i < |earlier|
        ensures earlier[i] in Digests(before)
      {
        assert earlier[i] in earlier;
      }
    }
  }

  /** How far a run gets determines what it has posted. */
  lemma {:induction false} UnpostedPrefix(files: seq<File>, known: set<Digest>, k: nat)
    requires k <= |files|
    ensures Unposted(files[..k], known) <= Unposted(files, known)
  {
    if k < |files| {
      UnpostedPrefix(files[..|files| - 1], known, k);
      assert files[..|files| - 1][..k] == files[..k];
    } else {
      assert files[..k] == files;
    }
  }

  class World {
    // The registry's own checks of a receipt: its digests and its ledger.
    const accepts: File -> bool
    var registry: map<Digest, Id>
    var posted: seq<Digest>
    var state: StateFile

    constructor (accepts: File -> bool, registry: map<Digest, Id>)
      ensures Inv() && this.accepts == accepts && this.registry == registry && posted == [] && state == Missing
    {
      this.accepts, this.registry, posted, state := accepts, registry, [], Missing;
    }

    ghost predicate Agrees(registrations: map<Digest, Registration>)
      reads this
    {
      forall d :: d in registrations ==> d in registry && registrations[d].receiptId == registry[d]
    }

    ghost predicate Inv()
      reads this
    {
      && (forall i, j :: 0 <= i < j < |posted| ==> posted[i] != posted[j])
      && (forall d :: d in posted ==> d in registry)
      && Agrees(Known(state))
    }

    /** The listing read at the start of the run, against the registry as it is now. */
    ghost predicate Tracks(registered: map<Digest, Id>, progress: Progress)
      reads this
    {
      && (forall d :: d in registered ==> d in registry && registered[d] == registry[d])
      && (forall d :: d in registry ==> d in registered || d in posted)
      && (forall d :: d in posted ==> d in registered || d in progress.registrations)
    }

    /** The control plane refuses the receipt, returns the existing record or creates one. */
    method Post(file: File, faults: bool) returns (ok: bool, id: Id)
      modifies this`registry, this`posted
      ensures || (posted == old(posted) && registry == old(registry))
              || (posted == old(posted) + [file.digest] && registry.Keys == old(registry).Keys + {file.digest})
      ensures forall d :: d in old(registry) ==> d in registry && registry[d] == old(registry)[d]
      ensures ok ==> posted == old(posted) + [file.digest] && file.digest in registry && id == registry[file.digest]
      ensures !accepts(file) ==> posted == old(posted)
      ensures !faults ==> (ok <==> accepts(file))
    {
      id := "";
      var stop := Stops(faults);
      if stop || !accepts(file) {
        return false, id;
      }
      if file.digest !in registry {
        var created: Id := *;
        registry := registry[file.digest := created];
      }
      posted := posted + [file.digest];
      id := registry[file.digest];
      stop := Stops(faults);
      ok := !stop;
    }

    /** One file: skip what is known, recover what the registry has, post the rest. */
    method PublishOne(file: File, progress: Progress, registered: map<Digest, Id>, faults: bool)
      returns (ok: bool, next: Progress)
      requires Inv() && Agrees(progress.registrations) && Tracks(registered, progress)
      modifies this`registry, this`posted
      ensures Inv() && (ok ==> Agrees(next.registrations) && Tracks(registered, next))
      ensures forall d :: d in registry ==> d in registered || d in posted
      ensures var due := if file.digest in registered || file.digest in progress.registrations then [] else [file.digest];
              && old(posted) <= posted <= old(posted) + due
              && (ok ==> posted == old(posted) + due && next.published == progress.published + |due|)
      ensures ok ==> next.registrations.Keys == progress.registrations.Keys + {file.digest}
      ensures ok ==> next.Count() == progress.Count() + 1
      ensures !faults ==> (ok <==> file.digest in registered || file.digest in progress.registrations || accepts(file))
    {
      next := progress;
      if file.digest in progress.registrations {
        return true, progress.(skipped := progress.skipped + 1);
      }
      if file.digest in registered {
        return true, progress.(recovered := progress.recovered + 1,
                               registrations := progress.registrations[file.digest := Registration(registered[file.digest], file.path)]);
      }
      var id;
      ok, id := Post(file, faults);
      next := progress.(published := progress.published + 1,
                        registrations := progress.registrations[file.digest := Registration(id, file.path)]);
    }

    /** Where a run stands after its first `k` files, having started with `before` posted. */
    ghost predicate At(files: seq<File>, k: nat, before: seq<Digest>, start: map<Digest, Registration>,
                       registered: map<Digest, Id>, progress: Progress)
      requires k <= |files|
      reads this
    {
      var due := Unposted(files[..k], registered.Keys + start.Keys);
      && Inv() && Agrees(progress.registrations) && Tracks(registered, progress)
      && progress.Count() == k && progress.published == |due|
      && posted == before + due
      && progress.registrations.Keys == start.Keys + Digests(files[..k])
    }

    /** What a run has done to the registry, however far it got. */
    ghost predicate Partial(files: seq<File>, before: seq<Digest>, start: map<Digest, Registration>, registered: map<Digest, Id>)
      reads this
    {
      && Inv()
      && (forall d :: d in registry ==> d in registered || d in posted)
      && before <= posted <= before + Unposted(files, registered.Keys + start.Keys)
    }

    lemma PartialExtends(files: seq<File>, k: nat, before: seq<Digest>, start: map<Digest, Registration>, registered: map<Digest, Id>)
      requires k <= |files| && Partial(files[..k], before, start, registered)
      ensures Partial(files, before, start, registered)
    {
      UnpostedPrefix(files, registered.Keys + start.Keys, k);
    }

    /** The next canonical file. */
    method PublishNext(files: seq<File>, k: nat, ghost before: seq<Digest>, ghost start: map<Digest, Registration>,
                       registered: map<Digest, Id>, progress: Progress, faults: bool)
      returns (ok: bool, next: Progress)
      requires k < |files| && files[k].canonical && At(files, k, before, start, registered, progress)
      modifies this`registry, this`posted
      ensures Partial(files[..k + 1], before, start, registered)
      ensures ok ==> At(files, k + 1, before, start, registered, next)
      ensures !faults ==> (ok <==> Passes(files, registered.Keys + start.Keys, accepts, k))
    {
      ghost var known, d := registered.Keys + start.Keys, files[k].digest;
      ghost var due := Unposted(files[..k], known);
      UnpostedStep(files, known, k);
      assert d in known + Digests(files[..k]) <==> d in registered || d in progress.registrations;
      hide Unposted, Digests, Agrees, Tracks, Inv, At, Partial;
      ok, next := PublishOne(files[k], progress, registered, faults);
      PartialReached(files, k, before, start, registered, due);
      if ok {
        AtReached(files, k, before, start, registered, next, due);
      }
    }

    lemma PartialReached(files: seq<File>, k: nat, before: seq<Digest>, start: map<Digest, Registration>,
                         registered: map<Digest, Id>, due: seq<Digest>)
      requires k < |files| && due == Unposted(files[..k], registered.Keys + start.Keys)
      requires Inv() && forall d :: d in registry ==> d in registered || d in posted
      requires before + due <= posted <= before + due + Own(files, registered.Keys + start.Keys, k)
      ensures Partial(files[..k + 1], before, start, registered)
    {
      UnpostedStep(files, registered.Keys + start.Keys, k);
      hide Unposted, Inv, Own;
      Append(before, due, Own(files, registered.Keys + start.Keys, k));
    }

    lemma AtReached(files: seq<File>, k: nat, before: seq<Digest>, start: map<Digest, Registration>,
                    registered: map<Digest, Id>, next: Progress, due: seq<Digest>)
      requires k < |files| && due == Unposted(files[..k], registered.Keys + start.Keys)
      requires Inv() && Agrees(next.registrations) && Tracks(registered, next)
      requires var own := Own(files, registered.Keys + start.Keys, k);
               posted == before + due + own && next.published == |due| + |own|
      requires next.Count() == k + 1
      requires next.registrations.Keys == start.Keys + Digests(files[..k]) + {files[k].digest}
      ensures At(files, k + 1, before, start, registered, next)
    {
      UnpostedStep(files, registered.Keys + start.Keys, k);
      hide Unposted, Inv, Own, Agrees, Tracks, Digests;
      Append(before, due, Own(files, registered.Keys + start.Keys, k));
      assert start.Keys + Digests(files[..k]) + {files[k].digest} == start.Keys + (Digests(files[..k]) + {files[k].digest});
    }

    /** All files in order; stops at a noncanonical or refused one. */
    method PublishAll(files: seq<File>, start: map<Digest, Registration>, registered: map<Digest, Id>, faults: bool)
      returns (ok: bool, progress: Progress)
      requires Inv() && Agrees(start) && registered == registry
      modifies this`registry, this`posted
      ensures Partial(files, old(posted), start, registered)
      ensures ok ==> At(files, |files|, old(posted), start, registered, progress)
      ensures !faults ==> (ok <==> forall i :: 0 <= i < |files| ==> Passes(files, registered.Keys + start.Keys, accepts, i))
    {
      hide Unposted, Digests;
      progress := Progress(start, 0, 0, 0);
      NoFiles(registered.Keys + start.Keys);
      for k := 0 to |files|
        invariant At(files, k, old(posted), start, registered, progress)
        invariant !faults ==> forall i :: 0 <= i < k ==> Passes(files, registered.Keys + start.Keys, accepts, i)
      {
        if !files[k].canonical {
          PartialExtends(files, k, old(posted), start, registered);
          assert !Passes(files, registered.Keys + start.Keys, accepts, k);
          return false, progress;
        }
        ok, progress := PublishNext(files, k, old(posted), start, registered, progress, faults);
        if !ok {
          PartialExtends(files, k + 1, old(posted), start, registered);
          return;
        }
      }
      assert files[..|files|] == files;
      ok := true;
    }

    /** One run over the local receipts. */
    method Publish(files: seq<File>, faults: bool) returns (result: Result)
      requires Inv()
      modifies this
      ensures Inv()
      ensures forall d :: d in registry ==> d in old(registry) || d in posted
      ensures var unposted := Unposted(files, old(registry).Keys + Known(old(state)).Keys);
              && old(posted) <= posted <= old(posted) + unposted
              && (result.Completed? ==> posted == old(posted) + unposted && result.published == |unposted|)
      ensures result.Completed? ==> result.published + result.recovered + result.skipped == |files|
      ensures result.Completed? ==> state.Saved? && state.registrations.Keys == Known(old(state)).Keys + Digests(files)
      ensures result.Completed? ==> result.total == |state.registrations|
      ensures !faults ==>
                (result.Completed? <==>
                 && !old(state).Malformed?
                 && var known := old(registry).Keys + Known(old(state)).Keys;
                    forall i :: 0 <= i < |files| ==> Passes(files, known, accepts, i))
    {
      var stop := Stops(faults);
      if stop || state.Malformed? {
        return Stopped;
      }
      var ok, progress := PublishAll(files, Known(state), registry, faults);
      assert files[..|files|] == files;
      if !ok {
        return Stopped;
      }
      stop := Stops(faults);
      if stop {
        return Stopped;
      }
      state := Saved(progress.registrations);
      stop := Stops(faults);
      if stop {
        return Stopped;
      }
      result := Completed(progress.published, progress.recovered, progress.skipped, |progress.registrations|);
    }

    /** Any number of runs over whatever files are there, each stopping anywhere. */
    method Runs(batches: seq<seq<File>>)
      requires Inv()
      modifies this
      ensures Inv()
      ensures forall i, j :: 0 <= i < j < |posted| ==> posted[i] != posted[j]
      ensures state.Saved? ==> Agrees(state.registrations)
    {
      for k := 0 to |batches|
        invariant Inv()
      {
        var _ := Publish(batches[k], true);
      }
    }
  }
}
