/** The supervised inventory run: one child process at a time, a log that grows while
    the child lives, and a ledger that may keep a post whose reply was lost. Every
    fault the script can meet is a nondeterministic choice, so each `ensures` speaks
    about all runs. */
module Supervisor {
  import opened LogTail
  import opened Prelude

  datatype Event = ShardReady(path: string, digest: string) | OtherEvent

  datatype Document = Document(digest: string, runId: string)

  /** What can be read at a shard path, and whether the path stays in the run directory. */
  datatype Files = Files(directory: set<string>, documents: map<string, Document>)

  datatype OperationState = Running | Succeeded | Failed

  datatype Phase = InventoryPhase | PublicationPhase | QualityPhase | CompletePhase | FailedPhase

  datatype Post =
    | Report(state: OperationState, phase: Phase)
    | Shard(digest: string)
    | Inventory(digest: string)
    | Quality(digest: string)

  datatype Child = NotStarted | Alive | Exited(code: int)

  datatype Outcome = NotAcknowledged | Completed | Aborted

  /** What befalls a run: any fault anywhere; or no fault, and children that live until
      they are stopped, or that log valid events and exit with 0. */
  datatype Fate = AnyFault | ChildHangs | ChildFinishes

  predicate Valid(files: Files, runId: string, event: Event) {
    event.ShardReady? ==>
      && event.path in files.directory
      && event.path in files.documents
      && files.documents[event.path] == Document(event.digest, runId)
  }

  /** The receipt digests announced on newline-terminated lines of the log. */
  ghost function Announced(parse: Bytes -> Parsed<Event>, log: Bytes): set<string> {
    Digests(Batch(parse, log))
  }

  ghost function Digests(events: seq<Event>): set<string> {
    if events == [] then
      {}
    else
      Digests(events[..|events| - 1]) + Announcement(events[|events| - 1])
  }

  ghost function Announcement(event: Event): set<string> {
    if event.ShardReady? then {event.digest} else {}
  }

  lemma {:induction false} DigestsConcat(a: seq<Event>, b: seq<Event>)
    ensures Digests(a + b) == Digests(a) + Digests(b)
  {
    if b == [] {
      assert a + b == a;
    } else {
      DigestsConcat(a, b[..|b| - 1]);
      assert (a + b)[..|a + b| - 1] == a + b[..|b| - 1];
    }
  }

  lemma DigestsSnoc(events: seq<Event>, i: nat)
    requires i < |events|
    ensures Digests(events[..i + 1]) == Digests(events[..i]) + Announcement(events[i])
  {
    assert events[..i + 1][..i] == events[..i];
  }

  /** Everything a succeeded report stands for, found among the posts before it. */
  ghost predicate Backed(posts: seq<Post>, announced: set<string>, quality: bool) {
    && (forall d :: d in announced ==> Shard(d) in posts)
    && (exists d :: Inventory(d) in posts)
    && (quality ==> exists d :: Quality(d) in posts)
    && Report(Running, PublicationPhase) in posts && (quality ==> Report(Running, QualityPhase) in posts)
  }

  ghost predicate SucceededOnlyWhenBacked(posts: seq<Post>, announced: set<string>, quality: bool) {
    forall i :: 0 <= i < |posts| && posts[i] == Report(Succeeded, CompletePhase) ==> Backed(posts[..i], announced, quality)
  }

  ghost predicate ShardsOnce(posts: seq<Post>) {
    forall d :: multiset(posts)[Shard(d)] <= 1
  }

  /** When a post has its turn: shards and the reports of the scan; the report of the
      publication; the inventory; the reports of the second phase; its receipt; the success;
      a failure, at any time the last. */
  function Turn(p: Post): nat {
    match p
    case Shard(_) => 0
    case Inventory(_) => 2
    case Quality(_) => 4
    case Report(_, phase) =>
      match phase
      case InventoryPhase => 0
      case PublicationPhase => 1
      case QualityPhase => 3
      case CompletePhase => 5
      case FailedPhase => 6
  }

  ghost predicate InOrder(posts: seq<Post>) {
    forall i, j :: 0 <= i < j < |posts| ==> Turn(posts[i]) <= Turn(posts[j])
  }

  ghost predicate UpTo(posts: seq<Post>, turn: nat) {
    InOrder(posts) && forall p :: p in posts ==> Turn(p) <= turn
  }

  lemma NextTurn(posts: seq<Post>, more: seq<Post>, p: Post, turn: nat)
    requires UpTo(posts, turn) && turn <= Turn(p) && (more == posts || more == posts + [p])
    ensures UpTo(more, Turn(p))
  {
    forall i, j | 0 <= i < j < |more|
      ensures Turn(more[i]) <= Turn(more[j])
    {
      assert more[i] == posts[i] && posts[i] in posts;
    }
  }

  lemma LaterTurn(posts: seq<Post>, turn: nat, later: nat)
    requires UpTo(posts, turn) && turn <= later
    ensures UpTo(posts, later)
  {
  }

  class Run {
    const parse: Bytes -> Parsed<Event>
    const files: Files
    const runId: string
    const timeoutSeconds: int
    const fate: Fate
    // The world outside the script.
    var posts: seq<Post>
    var log: Bytes
    var child: Child
    var clock: int
    // The script's own variables.
    var bound: bool
    var offset: nat
    var shardReceipts: set<string>

    constructor (parse: Bytes -> Parsed<Event>, files: Files, runId: string, timeoutSeconds: int, fate: Fate)
      ensures this.fate == fate
      ensures posts == [] && log == [] && child.NotStarted? && !bound && offset == 0 && shardReceipts == {}
    {
      this.parse, this.files, this.runId := parse, files, runId;
      this.timeoutSeconds, this.fate := timeoutSeconds, fate;
      posts, log, child, clock := [], [], NotStarted, 0;
      bound, offset, shardReceipts := false, 0, {};
    }

    /** No closing report has been sent, nothing is out of its turn, and every shard posted
        is documented. */
    ghost predicate Unreported(turn: nat)
      reads this`posts
    {
      && (forall p :: p in posts ==> p.Report? ==> p.state == Running)
      && UpTo(posts, turn) && Documented()
    }

    /** Every shard receipt in the ledger is that of a document of this run in its own
        directory. */
    ghost predicate Documented()
      reads this`posts
    {
      forall d :: Shard(d) in posts ==> InDirectory(d)
    }

    ghost predicate InDirectory(digest: string) {
      exists path :: path in files.directory && path in files.documents
                     && files.documents[path].digest == digest && files.documents[path].runId == runId
    }

    lemma Later(turn: nat, later: nat)
      requires Unreported(turn) && turn <= later
      ensures Unreported(later)
    {
      LaterTurn(posts, turn, later);
    }

    /** A shard event that must not stop the run: its document lies in the directory of the
        run, has the announced digest, and is of this run. */
    predicate Acceptable(event: Event) {
      match event
      case OtherEvent => true
      case ShardReady(path, digest) =>
        && path in files.directory && path in files.documents
        && files.documents[path].digest == digest && files.documents[path].runId == runId
    }

    predicate AllValid(log: Bytes) {
      forall e :: e in Batch(parse, log) ==> Acceptable(e)
    }

    /** The local set of registered digests is exactly what the ledger holds. */
    ghost predicate Agrees()
      reads this
    {
      ShardsOnce(posts) && forall d :: d in shardReceipts <==> Shard(d) in posts
    }

    /** What holds as long as nothing has been raised. */
    ghost predicate Tracking()
      reads this
    {
      && Agrees()
      && offset <= |log|
      && ScanBytes(log[..offset]).partial == []
      && Announced(parse, log[..offset]) <= shardReceipts
    }

    /** A post either reaches the ledger or not; where there are faults, its reply may be
        lost either way. */
    method Publish(post: Post) returns (ok: bool)
      modifies this`posts
      ensures posts == old(posts) || posts == old(posts) + [post]
      ensures ok ==> posts == old(posts) + [post]
      ensures !fate.AnyFault? ==> ok
    {
      var stop := Stops(fate.AnyFault?);
      if stop {
        return false;
      }
      posts := posts + [post];
      stop := Stops(fate.AnyFault?);
      ok := !stop;
    }

    /** Report progress; the operation stays `running`. */
    method ReportRunning(phase: Phase) returns (ok: bool)
      requires Unreported(Turn(Report(Running, phase))) && ShardsOnce(posts)
      modifies this`posts
      ensures Unreported(Turn(Report(Running, phase))) && ShardsOnce(posts) && old(posts) <= posts
      ensures old(Tracking()) ==> Tracking()
      ensures ok ==> posts == old(posts) + [Report(Running, phase)]
      ensures !fate.AnyFault? ==> ok
    {
      hide UpTo;
      ghost var before := posts;
      ok := Publish(Report(Running, phase));
      NextTurn(before, posts, Report(Running, phase), Turn(Report(Running, phase)));
    }

    /** Register one of the two closing receipts. */
    method Register(post: Post) returns (ok: bool)
      requires (post.Inventory? || post.Quality?) && Unreported(Turn(post)) && ShardsOnce(posts)
      modifies this`posts
      ensures Unreported(Turn(post)) && ShardsOnce(posts) && old(posts) <= posts
      ensures old(Tracking()) ==> Tracking()
      ensures ok ==> post in posts
      ensures !fate.AnyFault? ==> ok
    {
      hide UpTo;
      ghost var before := posts;
      ok := Publish(post);
      NextTurn(before, posts, post, Turn(post));
    }

    /** Time in which only the child acts: it may write to its log and may exit. */
    method ChildActs(loggedChild: bool)
      modifies this`log, this`child
      ensures old(log) <= log && (log != old(log) ==> loggedChild && old(child).Alive?)
      ensures !old(child).Alive? || fate.ChildHangs? ==> child == old(child)
      ensures old(child).Alive? ==> !child.NotStarted?
      ensures fate.ChildFinishes? && old(child).Alive? ==> child == Exited(0)
      ensures fate.ChildFinishes? && AllValid(old(log)) ==> AllValid(log)
    {
      hide AllValid;
      if child.Alive? {
        if loggedChild {
          var written: Bytes := *;
          if !fate.ChildFinishes? || AllValid(log + written) {
            log := log + written;
          }
        }
        var exits := Stops(!fate.ChildHangs?);
        if exits || fate.ChildFinishes? {
          var code: int := *;
          child := Exited(if fate.ChildFinishes? then 0 else code);
        }
      }
    }

    /** One event of the log: skip it, reject it, or have its receipt registered. */
    method RegisterShard(event: Event) returns (ok: bool)
      requires Agrees() && Unreported(0)
      modifies this`posts, this`shardReceipts
      ensures ShardsOnce(posts) && Unreported(0) && old(posts) <= posts
      ensures !ok ==> shardReceipts == old(shardReceipts)
      ensures ok ==> Agrees() && shardReceipts == old(shardReceipts) + Announcement(event)
      ensures !fate.AnyFault? ==> (ok <==> Acceptable(event))
    {
      if event.OtherEvent? {
        return true;
      }
      if !Valid(files, runId, event) {
        return false;
      }
      var document := files.documents[event.path];
      if document.digest !in shardReceipts {
        ghost var before := posts;
        ok := Publish(Shard(document.digest));
        NextTurn(before, posts, Shard(document.digest), 0);
        if !ok {
          return false;
        }
        shardReceipts := shardReceipts + {document.digest};
      }
      ok := true;
    }

    /** Register each newly announced shard receipt that is not registered yet. */
    method PublishShards() returns (ok: bool)
      requires Tracking() && Unreported(0)
      modifies this`posts, this`offset, this`shardReceipts
      ensures ShardsOnce(posts) && Unreported(0) && old(posts) <= posts && old(shardReceipts) <= shardReceipts
      ensures ok ==> Tracking() && Announced(parse, log) <= shardReceipts
      ensures !fate.AnyFault? && AllValid(log) ==> ok
    {
      hide ScanBytes, Events, Batch, Boundary, Announcement, Valid, Acceptable, UpTo, Documented;
      ghost var seen := log[..offset];
      var events, end := NewEvents(log, offset, parse);
      Resumed(seen);
      offset := end;
      for i := 0 to |events|
        invariant offset == end && Agrees() && Unreported(0) && old(posts) <= posts
        invariant Announced(parse, seen) + Digests(events[..i]) <= shardReceipts && old(shardReceipts) <= shardReceipts
      {
        DigestsSnoc(events, i);
        ok := RegisterShard(events[i]);
        if !ok {
          return false;
        }
      }
      assert events[..|events|] == events;
      DigestsConcat(Batch(parse, seen), events);
      ok := true;
    }

    lemma Resumed(seen: Bytes)
      requires offset <= |log| && seen == log[..offset] && ScanBytes(seen).partial == []
      ensures Batch(parse, log) == Batch(parse, seen) + Batch(parse, log[offset..])
      ensures var end := offset + Boundary(log[offset..]);
              end <= |log| && ScanBytes(log[..end]).partial == [] && Batch(parse, log[..end]) == Batch(parse, log)
    {
      UpToBoundary(parse, log);
      UpToBoundary(parse, seen);
      hide Batch, ScanBytes, Boundary, Digests;
      Resume(parse, seen, log);
    }

    /** Start a child. Until the new handle is assigned, `bound` is false; the child is
        `lost` when an interrupt lands there, because the handler cannot see it. */
    method Spawn(interruptInGap: bool) returns (ok: bool, ghost lost: bool)
      requires !child.Alive?
      modifies this`child, this`bound
      ensures ok ==> bound && child.Alive? && !lost
      ensures !ok ==> !bound && (child.Alive? <==> lost) && (lost || child == old(child))
      ensures lost ==> interruptInGap
      ensures !fate.AnyFault? ==> ok == !interruptInGap && lost == interruptInGap
    {
      bound, lost := false, false;
      var fails := Stops(fate.AnyFault?);
      if fails {
        return false, false;
      }
      child := Alive;
      if interruptInGap {
        return false, true;
      }
      bound := true;
      ok := true;
    }

    /** The `except` clause: stop the child that the handle refers to. `stranded` marks
        an interrupt that lands in this clause while the child still lives. */
    method Cleanup(interruptCleanup: bool) returns (stranded: bool)
      modifies this`child, this`log
      ensures log == old(log)
      ensures child.Alive? <==> old(child).Alive? && (!bound || stranded)
      ensures stranded ==> interruptCleanup && bound && child.Alive?
      ensures interruptCleanup && fate.ChildHangs? && bound && old(child).Alive? ==> stranded
    {
      stranded := false;
      if bound && child.Alive? {
        ChildActs(false);
        if interruptCleanup && child.Alive? {
          return true;
        }
        if child.Alive? {
          child := Exited(-9);
        }
      }
    }

    /** One turn of the polling loop while the child lives. */
    method Poll(started: int, shards: bool) returns (ok: bool)
      requires Tracking() && Unreported(if shards then 0 else 3)
      modifies this`posts, this`clock, this`offset, this`shardReceipts
      ensures ShardsOnce(posts) && Unreported(if shards then 0 else 3) && old(posts) <= posts
      ensures ok ==> Tracking() && old(clock) - started <= timeoutSeconds && clock >= old(clock) + 10
      ensures ok ==> posts != [] && posts[|posts| - 1] == Report(Running, if shards then InventoryPhase else QualityPhase)
      ensures old(shardReceipts) <= shardReceipts
    {
      hide UpTo, Documented, ShardsOnce, Announced;
      if clock - started > timeoutSeconds {
        return false;
      }
      if shards {
        ok := PublishShards();
        if !ok { return; }
      }
      ok := ReportRunning(if shards then InventoryPhase else QualityPhase);
      if !ok { return; }
      var interrupted := Stops(fate.AnyFault?);
      if interrupted {
        return false;
      }
      var slept: int :| slept >= 0;
      clock := clock + 10 + slept;
      ok := true;
    }

    /** Wait for the child within the bounded runtime, tailing its log when it has shards. */
    method Watch(started: int, shards: bool) returns (ok: bool)
      requires Tracking() && Unreported(if shards then 0 else 3) && bound && child.Alive?
      requires shards || Announced(parse, log) <= shardReceipts
      modifies this`posts, this`log, this`child, this`clock, this`offset, this`shardReceipts
      ensures ShardsOnce(posts) && Unreported(if shards then 0 else 3) && !child.NotStarted? && old(posts) <= posts
      ensures !shards ==> log == old(log)
      ensures ok ==> child == Exited(0) && Tracking() && Announced(parse, log) <= shardReceipts
      ensures fate.ChildHangs? ==> !ok && child.Alive?
      ensures fate.ChildFinishes? && AllValid(old(log)) ==> ok && AllValid(log)
    {
      hide AllValid;
      Advance(shards);
      while !child.Exited?
        invariant fate.ChildHangs? ==> child.Alive?
        invariant fate.ChildFinishes? ==> child == Exited(0) && (AllValid(old(log)) ==> AllValid(log))
        invariant Tracking() && Unreported(if shards then 0 else 3) && !child.NotStarted? && old(posts) <= posts
        invariant !shards ==> log == old(log) && Announced(parse, log) <= shardReceipts
        decreases started + timeoutSeconds - clock
      {
        ok := Poll(started, shards);
        if !ok { return; }
        Advance(shards);
      }
      if child.code != 0 {
        return false;
      }
      if shards {
        ok := PublishShards();
      } else {
        ok := true;
      }
    }

    method Advance(loggedChild: bool)
      requires Tracking()
      modifies this`log, this`child
      ensures Tracking()
      ensures !loggedChild ==> log == old(log)
      ensures !child.NotStarted? || old(child).NotStarted?
      ensures fate.ChildHangs? ==> child == old(child)
      ensures fate.ChildFinishes? && old(child).Alive? ==> child == Exited(0)
      ensures fate.ChildFinishes? && AllValid(old(log)) ==> AllValid(log)
    {
      hide AllValid;
      ghost var seen := log;
      ChildActs(loggedChild);
      assert log[..offset] == seen[..offset];
    }

    /** The first phase of the `try` body: scan, shards, inventory receipt. */
    method InventoryScan(gap: bool) returns (ok: bool, started: int, ghost lost: bool)
      requires Tracking() && Unreported(0) && child.NotStarted? && !bound
      modifies this
      ensures ShardsOnce(posts) && Unreported(2) && old(posts) <= posts
      ensures ok ==> bound && child.Exited? && Tracking() && Announced(parse, log) <= shardReceipts
      ensures ok ==> exists d :: Inventory(d) in posts
      ensures ok ==> Report(Running, PublicationPhase) in posts
      ensures lost <==> child.Alive? && !bound
      ensures lost ==> gap && posts == old(posts)
      ensures !fate.AnyFault? ==> lost == gap
      ensures fate.ChildHangs? ==> !ok && child.Alive? && bound == !gap
      ensures fate.ChildFinishes? && AllValid(old(log)) ==> ok == !gap && AllValid(log)
    {
      hide AllValid, UpTo, Documented, ShardsOnce, Announced;
      started := clock;
      ok, lost := Spawn(gap);
      Later(0, 2);
      if !ok { return; }
      started := clock;
      ok := Watch(started, true);
      Later(0, 2);
      if !ok { return; }
      ok := Publication();
    }

    /** The publication of the scan: its report, then the inventory receipt. */
    method Publication() returns (ok: bool)
      requires Unreported(0) && ShardsOnce(posts)
      modifies this`posts
      ensures ShardsOnce(posts) && Unreported(2) && old(posts) <= posts
      ensures old(Tracking()) ==> Tracking()
      ensures ok ==> (exists d :: Inventory(d) in posts) && Report(Running, PublicationPhase) in posts
      ensures !fate.AnyFault? ==> ok
    {
      hide UpTo, Documented, ShardsOnce;
      Later(0, 1);
      ok := ReportRunning(PublicationPhase);
      Later(1, 2);
      if !ok { return; }
      ghost var reported := posts;
      assert Report(Running, PublicationPhase) in reported;
      var receipt: string := *;
      ok := Register(Inventory(receipt));
      StillThere(reported, posts, Report(Running, PublicationPhase));
    }

    lemma StillThere(before: seq<Post>, after: seq<Post>, p: Post)
      requires before <= after && p in before
      ensures p in after
    {
      var i :| 0 <= i < |before| && before[i] == p;
      assert after[i] == p;
    }

    /** The optional second phase: the quality child, whose log holds no shards. */
    method WindowQuality(started: int, gap: bool) returns (ok: bool, ghost lost: bool)
      requires Tracking() && Unreported(2) && child.Exited?
      requires Announced(parse, log) <= shardReceipts
      modifies this
      ensures ShardsOnce(posts) && Unreported(4) && old(posts) <= posts && log == old(log)
      ensures ok ==> child.Exited? && Tracking() && Announced(parse, log) <= shardReceipts
      ensures ok ==> exists d :: Quality(d) in posts
      ensures ok ==> Report(Running, QualityPhase) in posts
      ensures lost <==> child.Alive? && !bound
      ensures lost ==> gap
      ensures fate.ChildFinishes? && AllValid(old(log)) ==> ok == !gap && lost == gap
    {
      hide AllValid, UpTo, Documented, ShardsOnce, Announced;
      lost := false;
      Later(2, 3);
      ok := ReportRunning(QualityPhase);
      Later(3, 4);
      if !ok { return; }
      ghost var reported := posts;
      assert Report(Running, QualityPhase) in reported;
      ok, lost := Spawn(gap);
      if !ok { return; }
      ok := Watch(started, false);
      Later(3, 4);
      if !ok { return; }
      var receipt: string := *;
      ok := Register(Quality(receipt));
      StillThere(reported, posts, Report(Running, QualityPhase));
    }

    /** The body of the `try`: both phases, with an exception possible at every step. */
    method Body(quality: bool, gap1: bool, gap2: bool) returns (ok: bool, ghost lost: bool)
      requires Tracking() && Unreported(0) && child.NotStarted? && !bound
      modifies this
      ensures ShardsOnce(posts) && UpTo(posts, 5) && Documented() && old(posts) <= posts
      ensures SucceededOnlyWhenBacked(posts, Announced(parse, log), quality)
      ensures ok ==> child.Exited? && posts != [] && posts[|posts| - 1] == Report(Succeeded, CompletePhase)
      ensures lost <==> child.Alive? && !bound
      ensures lost ==> gap1 || (quality && gap2)
      ensures !fate.AnyFault? && gap1 ==> lost && posts == old(posts)
      ensures fate.ChildHangs? ==> !ok && child.Alive? && bound == !gap1 && Unreported(4)
      ensures fate.ChildFinishes? && AllValid(old(log)) ==> ok == !lost && (lost <==> gap1 || (quality && gap2))
    {
      hide ScanBytes, Batch, Announced, Events, AllValid, Documented, UpTo, ShardsOnce, SucceededOnlyWhenBacked, Backed;
      var started;
      ok, started, lost := InventoryScan(gap1);
      Later(2, 4);
      Unsuccessful(quality);
      if !ok { return; }
      ghost var scanned := posts;
      if quality {
        ok, lost := WindowQuality(started, gap2);
        Unsuccessful(quality);
        if !ok { return; }
      }
      AllBacked(scanned, quality);
      ok := ReportSucceeded(quality);
    }

    /** Nothing has been reported as succeeded yet. */
    lemma Unsuccessful(quality: bool)
      requires Unreported(4)
      ensures SucceededOnlyWhenBacked(posts, Announced(parse, log), quality) && UpTo(posts, 5)
    {
      hide Backed, Announced;
      Later(4, 5);
      assert forall i :: 0 <= i < |posts| ==> posts[i] in posts;
    }

    lemma AllBacked(scanned: seq<Post>, quality: bool)
      requires Tracking() && Announced(parse, log) <= shardReceipts && scanned <= posts
      requires (exists d :: Inventory(d) in scanned) && Report(Running, PublicationPhase) in scanned
      requires quality ==> (exists d :: Quality(d) in posts) && Report(Running, QualityPhase) in posts
      ensures Backed(posts, Announced(parse, log), quality)
    {
      hide Announced, ShardsOnce, ScanBytes;
      var d :| Inventory(d) in scanned;
      StillThere(scanned, posts, Inventory(d));
      StillThere(scanned, posts, Report(Running, PublicationPhase));
    }

    /** The last report, sent only when everything it stands for is in the ledger. */
    method ReportSucceeded(quality: bool) returns (ok: bool)
      requires ShardsOnce(posts) && Unreported(4) && Backed(posts, Announced(parse, log), quality)
      modifies this`posts
      ensures ShardsOnce(posts) && UpTo(posts, 5) && Documented() && old(posts) <= posts
      ensures SucceededOnlyWhenBacked(posts, Announced(parse, log), quality)
      ensures ok ==> posts != [] && posts[|posts| - 1] == Report(Succeeded, CompletePhase)
      ensures !fate.AnyFault? ==> ok
    {
      hide UpTo, InDirectory, ShardsOnce, SucceededOnlyWhenBacked, Backed, Announced;
      ghost var earlier := posts;
      ok := Publish(Report(Succeeded, CompletePhase));
      NextTurn(earlier, posts, Report(Succeeded, CompletePhase), 4);
      SuccessAppended(earlier, posts, Announced(parse, log), quality);
    }

    lemma SuccessAppended(earlier: seq<Post>, posts: seq<Post>, announced: set<string>, quality: bool)
      requires posts == earlier || posts == earlier + [Report(Succeeded, CompletePhase)]
      requires ShardsOnce(earlier) && Backed(earlier, announced, quality)
      requires forall p :: p in earlier ==> p.Report? ==> p.state == Running
      ensures ShardsOnce(posts) && SucceededOnlyWhenBacked(posts, announced, quality)
    {
      hide Backed;
      assert posts == earlier || posts[..|posts| - 1] == earlier;
      assert forall i :: 0 <= i < |earlier| ==> posts[i] in earlier;
    }

    /** The report of the `except` clause; that it cannot be sent is only printed. */
    method ReportFailed(quality: bool)
      requires ShardsOnce(posts) && UpTo(posts, 5) && Documented() && SucceededOnlyWhenBacked(posts, Announced(parse, log), quality)
      modifies this`posts
      ensures ShardsOnce(posts) && InOrder(posts) && Documented() && SucceededOnlyWhenBacked(posts, Announced(parse, log), quality)
      ensures old(posts) <= posts
      ensures !fate.AnyFault? ==> posts == old(posts) + [Report(Failed, FailedPhase)]
    {
      hide UpTo, InDirectory, ShardsOnce, SucceededOnlyWhenBacked, Announced;
      ghost var earlier := posts;
      var _ := Publish(Report(Failed, FailedPhase));
      NextTurn(earlier, posts, Report(Failed, FailedPhase), 5);
      FailureAppended(earlier, posts, Announced(parse, log), quality);
      OrderOf(posts, 6);
    }

    lemma FailureAppended(earlier: seq<Post>, posts: seq<Post>, announced: set<string>, quality: bool)
      requires posts == earlier || posts == earlier + [Report(Failed, FailedPhase)]
      requires ShardsOnce(earlier) && SucceededOnlyWhenBacked(earlier, announced, quality)
      requires forall d :: Shard(d) in earlier ==> InDirectory(d)
      ensures ShardsOnce(posts) && SucceededOnlyWhenBacked(posts, announced, quality)
      ensures forall d :: Shard(d) in posts ==> InDirectory(d)
    {
      hide Backed, InDirectory;
      assert forall i :: 0 <= i < |earlier| ==> posts[i] == earlier[i] && posts[..i] == earlier[..i];
    }

    lemma OrderOf(posts: seq<Post>, turn: nat)
      requires UpTo(posts, turn)
      ensures InOrder(posts)
    {
    }

    /** `main` from the acknowledgement on. `gap1`, `gap2` and `interruptCleanup` say
        whether an interrupt is delivered in the three windows where nothing guards
        the child; every other fault is free. A child outlives the run if and only if it
        was `lost`, its handle not yet assigned, or `stranded` by the handler; and where
        nothing else goes wrong, which of the two it is depends on the windows alone. */
    method Supervise(quality: bool, gap1: bool, gap2: bool, interruptCleanup: bool)
      returns (outcome: Outcome, ghost lost: bool, ghost stranded: bool)
      requires posts == [] && log == [] && child.NotStarted? && !bound && offset == 0 && shardReceipts == {}
      modifies this
      ensures outcome.NotAcknowledged? ==> child.NotStarted?
      ensures !outcome.NotAcknowledged? ==> posts != [] && posts[0] == Report(Running, InventoryPhase)
      ensures ShardsOnce(posts) && InOrder(posts) && Documented()
      ensures SucceededOnlyWhenBacked(posts, Announced(parse, log), quality)
      ensures outcome.Completed? ==> Report(Succeeded, CompletePhase) in posts
      ensures child.Alive? <==> lost || stranded
      ensures lost ==> outcome.Aborted? && !bound && (gap1 || (quality && gap2))
      ensures stranded ==> outcome.Aborted? && bound && interruptCleanup
      ensures fate.ChildHangs? ==> outcome.Aborted? && (lost <==> gap1) && (stranded <==> !gap1 && interruptCleanup)
      ensures fate.ChildFinishes? ==> !stranded && (lost <==> gap1 || (quality && gap2)) && outcome.Completed? == !lost
      ensures !fate.AnyFault? && gap1 ==>
                posts == [Report(Running, InventoryPhase), Report(Failed, FailedPhase)]
      ensures fate.ChildHangs? && stranded ==> Unreported(4)
    {
      hide Backed, AllValid, UpTo, InOrder, Documented, ShardsOnce, SucceededOnlyWhenBacked, Announced;
      lost, stranded := false, false;
      var acknowledged := Publish(Report(Running, InventoryPhase));
      FirstPost(quality);
      if !acknowledged {
        return NotAcknowledged, false, false;
      }
      assert log[..0] == [];
      NothingLogged();
      var ok;
      ok, lost := Body(quality, gap1, gap2);
      OrderOf(posts, 5);
      if ok {
        return Completed, false, false;
      }
      var left := Cleanup(interruptCleanup);
      stranded := left;
      outcome := Aborted;
      if !left {
        ReportFailed(quality);
      }
    }

    /** Where a run stands before and after its first report. */
    lemma FirstPost(quality: bool)
      requires (posts == [] || posts == [Report(Running, InventoryPhase)]) && shardReceipts == {} && offset == 0 && log == []
      ensures Unreported(0) && Agrees() && InOrder(posts)
      ensures Tracking() && SucceededOnlyWhenBacked(posts, Announced(parse, log), quality)
    {
      hide Backed;
      assert log[..0] == [];
    }

    lemma NothingLogged()
      ensures AllValid([])
    {
    }

    /** The first family that fails: the interrupt lands once the child has started and
        before its handle is assigned. The run reports its failure; the child lives. */
    method InterruptedInGap(quality: bool)
      requires posts == [] && log == [] && child.NotStarted? && !bound && offset == 0 && shardReceipts == {}
      requires !fate.AnyFault?
      modifies this
      ensures child.Alive? && posts == [Report(Running, InventoryPhase), Report(Failed, FailedPhase)]
    {
      var _, _, _ := Supervise(quality, true, false, false);
    }

    /** The second: an exception stops the body, and an interrupt stops its handler before
        the child has exited. The child lives, and the operation is left `running`. */
    method InterruptedInHandler(quality: bool)
      requires posts == [] && log == [] && child.NotStarted? && !bound && offset == 0 && shardReceipts == {}
      requires fate.ChildHangs?
      modifies this
      ensures child.Alive? && bound && Unreported(4)
    {
      var _, _, _ := Supervise(quality, false, false, true);
    }
  }
}
