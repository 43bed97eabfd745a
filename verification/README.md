# Proofs about the swarm control plane's operational scripts

A Dafny project that models the scripts with state, loops and arithmetic of their own, and
proves what they are for: that a polled log equals one read, that streaming parsers read
the tree, that crash-and-resume protocols lose and repeat nothing, that selections and
counts mean what they say, and that migrations take back what they did. The control plane
is modelled by its own service code where a protocol depends on it (compare-and-set on a
stage, one record per key, one active charter per agent, overlap rotation).

| Modules | What they model |
|---|---|
| `LogTail`, `Supervisor` | the incremental log reader and the supervised inventory run with its exit paths |
| `Markup`, `TranscriptIndex`, `TranscriptEpisode` | element trees, their token streams, and the two transcript parsers |
| `Acquisition` | bounded retries and the qualification verdict |
| `BridgePilot`, `ReceiptPublisher`, `WorkerRotation` | three resumable protocols; a run may stop before or after every call |
| `Curriculum`, `GovernanceReconcile` | two converging get-or-create drivers |
| `DatasetPipeline` | window, stable sort, hourly bars, lagged return, quality counts |
| `Chunker`, `TextTools` | markdown and PDF chunking |
| `Sampler`, `CampaignBindings`, `StringOrder` | the quota sampler and the order-independent selection |
| `Percentile`, `Versions` | interpolation with rounding; fresh version numbers |
| `Schema`, `Migrations`, `RevisionTables`, `Revisions`, `RevisionRoom` | a schema with accepted and refused statements, and the two revision chains |
| `Prelude` | optional values and the choice to stop |

A script that changes state is a class whose methods are proved against value-level
functions and predicates; lemmas about those functions carry the general statements. A
fault is a nondeterministic choice made wherever a call can fail, so an `ensures` holds for
every crash point. `dafny verify dfyconfig.toml` checks the whole project.

## What the proofs found

- Bridge pilot: `docs/runbooks/bt-009-governed-research-bridge.md:30-33` says that an
  interrupted publication is resumed by rerunning the command. It is, exactly from the
  states of `Resumable`. A run stopped after the first registry record and before the state
  file, or after the result and before the review stage, can never be completed, because
  those records have unique keys (`BridgePilot.Pilot.RunOnce`, `StopAfterResult`).
- Supervisor: of the interrupts that the handler can see, a child outlives the run exactly
  when one lands between the start of the child and the assignment of its handle, or in the
  handler while the child runs (`Supervisor.Run.Supervise`, `InterruptedInGap`,
  `InterruptedInHandler`).
- Transcript index: a preview nested in a preview switches collection off early. The list
  returned is still that of the recursive walk exactly when every link also stands before
  such a nested preview, or outside of one, and none is overtaken by another link on the way
  (`TranscriptIndex.CollectsAllLinksIff`).
- Transcript page: an `h3` nested in the marker heading starts the transcript early. What is
  read is that of the recursive walk exactly when, in every container, no text stands
  between the end of an `h3` nested in its first marker and the first end of a marker
  (`TranscriptEpisode.TranscriptIsRecursiveWalkIff`). The end of a heading nested in a title,
  byline or date heading ends its capture: the parts are those of the walk exactly when no
  text of the heading follows (`TranscriptEpisode.HeadingsAreRecursiveWalkIff`); and an info
  container nested in another ends the outer one (`NestedInfoStopsHeadings`).
- Worker rotation: the script takes the oldest active identity of the package, whatever its
  expiry or its charter, and the new credential expires with it. If that identity has
  expired, the run completes, the token it writes has expired already, and the old one is
  revoked: the worker is locked out. If its charter is superseded, under enforcement the
  worker is shut out as soon as its credentials are bound. Once
  written, the token is accepted exactly until that identity expires, a quarter has passed
  or, under enforcement, the identity no longer serves (`WorkerRotation.World.Run`,
  `FindExpiredIdentity`, `FindStaleIdentity`, `LockedOut`).
- Worker rotation: identities are unique per agent and version, and the script posts the
  package's version; an identity of another package that has it blocks the rotation
  (`WorkerRotation.VersionTaken`).
- Dataset builder: the out-of-order count is taken after the sort, where it always equals
  the duplicate count.
- Percentile: the rounded result can leave the range of the values; it does not on the
  benchmark's own latencies, which are rounded first.
- Sampler: the early exit for "every quota filled" is never taken (`Sampler.Sample`).
- Governance: charter versions are counted, so a count can name a version in use; and
  manifests are unique without naming the agent, so of two agents with equal manifests
  only one gets a charter (`CountCollides`, `TwinBlocked`). Without faults, a run on any
  records completes exactly when every row is ready and no two rows clash in this way
  (`GovernanceReconcile.ControlPlane.Reconcile`).
- Curriculum: a curriculum left without its evaluation when the corpus moves blocks its
  version until the corpus is again the one it was registered on
  (`Curriculum.ControlPlane.Blocked`, `MovedBeforeEvaluation`).

## Model

| member | source | states |
|---|---|---|
| `LogTail.NewEvents` | worker/scripts/alpha007_inventory_supervisor.py:60-74 | one poll returns exactly the events of a batch read of the file from the offset, and its end is the last line boundary; an unterminated line is never consumed; an offset past the end reads nothing |
| `LogTail.Resume` | worker/scripts/alpha007_inventory_supervisor.py:60-74 | for any growth of the file, what a poll from the last boundary adds is exactly what a batch read of the longer file has in addition |
| `LogTail.PollAll` | worker/scripts/alpha007_inventory_supervisor.py:60-74 | over any number of polls of any append-only growth the events together equal one batch read of the final file; offsets never decrease, rest on line boundaries and leave only an unterminated line behind |
| `LogTail.ScanConcat` | worker/scripts/alpha007_inventory_supervisor.py:60-74 | a file split at a line boundary is read in two independent halves |
| `Supervisor.Run.RegisterShard` | worker/scripts/alpha007_inventory_supervisor.py:139-153 | a shard event is skipped, registered once, or rejected: without faults exactly when its document is not in the run directory with the announced digest and this run; the local set stays equal to what the ledger holds |
| `Supervisor.Run.PublishShards` | worker/scripts/alpha007_inventory_supervisor.py:136-153 | after a successful call every digest announced on a newline-terminated line of the log is registered, each at most once |
| `Supervisor.Run.Watch` | worker/scripts/alpha007_inventory_supervisor.py:168-181 | the wait ends well only with a child that exited with 0 and with everything announced registered; the runtime bound is checked at every turn |
| `Supervisor.Run.Spawn` | worker/scripts/alpha007_inventory_supervisor.py:160-170 | a started child is known to the handler, or lost: an interrupt landed before the handle was assigned |
| `Supervisor.Run.Cleanup` | worker/scripts/alpha007_inventory_supervisor.py:220-228 | after the handler the child lives exactly when it lived before and the handle did not refer to it, or the handler was interrupted while it lived |
| `Supervisor.Run.Body` | worker/scripts/alpha007_inventory_supervisor.py:159-219 | through both phases and every exception: each digest registered once, success reported only with everything registered; a child that lives without a handle is one lost at its start; without faults and with children that finish, it succeeds exactly when no gap is hit |
| `Supervisor.Run.Supervise` | worker/scripts/alpha007_inventory_supervisor.py:131-238 | on every exit path: the posts come in the order of the protocol; each shard digest is registered at most once and is that of a document of this run; success reported only when all announced shards, the inventory receipt and a requested quality receipt are registered; a child is left running if and only if it was lost at its start or stranded by an interrupted handler; where nothing else fails, which of these happens is decided by the windows alone: with children that finish, exactly when an interrupt lands in the gap of a started child, and with a child that hangs, in the first gap or in the handler |
| `Supervisor.Run.InterruptedInGap` | worker/scripts/alpha007_inventory_supervisor.py:131-238 | a run whose only fault is an interrupt between the start of the child and the assignment of its handle reports its failure and leaves the child running |
| `Supervisor.Run.InterruptedInHandler` | worker/scripts/alpha007_inventory_supervisor.py:131-238 | a run with a child that hangs and an interrupted handler leaves the child running and the operation reported as running |
| `TranscriptIndex.Parser.Run` | worker/scripts/ri017_external_acquisition.py:163-184 | the parser object computes the machine on any token stream |
| `TranscriptIndex.DepthNonNegative` | worker/scripts/ri017_external_acquisition.py:169-184 | on arbitrary token streams the depth never goes negative |
| `TranscriptIndex.MachineIsThreadedWalk` | worker/scripts/ri017_external_acquisition.py:163-184 | on every tree, nested previews included, the machine is a walk of the tree with the activity flag threaded through |
| `TranscriptIndex.SeenPlusLost` | worker/scripts/ri017_external_acquisition.py:163-184 | conservation: the links of the recursive walk are those the parser visits plus those it loses after a nested preview |
| `TranscriptIndex.Outlined` | worker/scripts/ri017_external_acquisition.py:163-184 | the outline of a page, its previews and their links, determines what the recursive walk finds and what the parser visits |
| `TranscriptIndex.VisitsAllLinksIff` | worker/scripts/ri017_external_acquisition.py:163-184 | the parser visits the links of the recursive walk one by one if and only if no link of a preview follows a preview nested in it |
| `TranscriptIndex.SameFirstAppearances` | worker/scripts/ri017_external_acquisition.py:175-180 | links on time give the first appearances of all links, in order, if and only if every link stands somewhere on time and none is overtaken while it has only been late |
| `TranscriptIndex.CollectsAllLinksIff` | worker/scripts/ri017_external_acquisition.py:163-184 | on every page with closed list items: the parser returns the links of the recursive walk in first-appearance order if and only if no link of the outline is missed or overtaken |
| `TranscriptIndex.LateLinks` | worker/scripts/ri017_external_acquisition.py:175-184 | the two conditions differ: a late repetition loses nothing, and an overtaken link changes the order |
| `TranscriptIndex.ParserIsRecursiveWalk` | worker/scripts/ri017_external_acquisition.py:163-184 | where previews do not nest: root-relative links inside previews, in first-appearance order, without repeats |
| `TranscriptIndex.NestedPreviewLosesLink` | worker/scripts/ri017_external_acquisition.py:182-184 | a concrete page with a nested preview on which a link is lost |
| `Markup.ExtendIsDedup` | worker/scripts/ri017_external_acquisition.py:175-180 | collecting each link not collected yet gives the list of first appearances |
| `TranscriptEpisode.Parser.Run` | worker/scripts/ri017_external_acquisition.py:187-240 | the parser object computes both machines on any token stream |
| `TranscriptEpisode.DepthsNonNegative` | worker/scripts/ri017_external_acquisition.py:200-227 | on arbitrary token streams neither counter goes negative |
| `TranscriptEpisode.InfoIsCapturingWalk` | worker/scripts/ri017_external_acquisition.py:187-240 | on every tree without nested info containers the info half is the walk in which the end of a nested heading ends the capture |
| `TranscriptEpisode.SeenPlusLost` | worker/scripts/ri017_external_acquisition.py:187-240 | conservation: the text below a heading is the text its capture sees plus the pieces it loses |
| `TranscriptEpisode.HeadingsAreRecursiveWalkIff` | worker/scripts/ri017_external_acquisition.py:187-240 | where info containers do not nest, title, byline and date parts are those of the recursive walk, each if and only if no text of its heading stands after the end of a heading nested in it |
| `TranscriptEpisode.HeadingsAreRecursiveWalk` | worker/scripts/ri017_external_acquisition.py:187-240 | in particular where headings do not nest either |
| `TranscriptEpisode.NestedInfoStopsHeadings` | worker/scripts/ri017_external_acquisition.py:187-240 | an info container nested in another ends it: the title that follows is not read |
| `TranscriptEpisode.MachineIsThreadedWalk` | worker/scripts/ri017_external_acquisition.py:187-240 | on every tree without nested transcript containers the transcript machine is a threaded walk |
| `TranscriptEpisode.SeenIsWalkedPlusEarly` | worker/scripts/ri017_external_acquisition.py:187-240 | conservation: the text taken is the text after the closed marker plus what is taken early |
| `TranscriptEpisode.EarlyOutside` | worker/scripts/ri017_external_acquisition.py:187-240 | text is taken early exactly when, in some container, text stands between the end of an h3 nested in its first marker and the first end of a marker |
| `TranscriptEpisode.TranscriptIsRecursiveWalkIff` | worker/scripts/ri017_external_acquisition.py:187-240 | where containers do not nest, the transcript is the text after the closed marker up to the end of its container if and only if the page has no such text |
| `TranscriptEpisode.NestedHeadingReadEarly` | worker/scripts/ri017_external_acquisition.py:216-227 | the failing family on its smallest page |
| `Acquisition.FetchWithRetry` | worker/scripts/ri017_external_acquisition.py:528-541 | the reply of the first of three attempts with a status below 500, or of the last; an exception counts as 503 without entries, and is remembered even when a later attempt succeeds |
| `Acquisition.PollSources` | worker/scripts/ri017_external_acquisition.py:516-564 | every source in order, one outcome each, stopping at the first source whose registered definition under its key is another one |
| `Acquisition.CoverageShape` | worker/scripts/ri017_external_acquisition.py:565-596 | in every channel non-empty <= successful <= expected, and the channel is proven exactly when each of its sources succeeded with entries |
| `Acquisition.CoverageCounts` | worker/scripts/ri017_external_acquisition.py:565-590 | the three counts of a channel are the numbers of its sources, of those that succeeded, and of those that succeeded with entries |
| `Acquisition.ExpectedSumsToSources` | worker/scripts/ri017_external_acquisition.py:565-571 | expected counts sum to the number of sources over the channels |
| `Acquisition.QualifiedIff` | worker/scripts/ri017_external_acquisition.py:591-603 | no channel is unproven if and only if every configured source ended with a succeeded, non-empty receipt |
| `Acquisition.VerdictShape` | worker/scripts/ri017_external_acquisition.py:565-603 | the verdict computed from the counts has all of these properties, with the unproven channels sorted |
| `Acquisition.Acquire` | worker/scripts/ri017_external_acquisition.py:509-623 | a run that does not stop on drift ends with the verdict on exactly its own outcomes |
| `BridgePilot.Pilot.Create` | backend/app/services/research.py:66-345 | a record is created once, and only after what it depends on |
| `BridgePilot.Pilot.Advance` | worker/scripts/bt009_live_pilot.py:96-106 | compare-and-set: only the next state and only from the expected one; the cited records exist first |
| `BridgePilot.Pilot.Register` | worker/scripts/bt009_live_pilot.py:109-391 | proposal to finalized bundles; without faults it completes exactly when no earlier run reached the first registry record |
| `BridgePilot.Pilot.Publish` | worker/scripts/bt009_live_pilot.py:394-585 | without faults it completes exactly from bundle_finalized without a result, or from the next three states |
| `BridgePilot.Pilot.RunOnce` | worker/scripts/bt009_live_pilot.py:588-650 | a fault-free run completes if and only if the state it starts from is resumable; a state that is not resumable stays so |
| `BridgePilot.Pilot.FaultyRuns` | worker/scripts/bt009_live_pilot.py:588-650 | over any number of runs, each stopping anywhere: every record cited by a receipt exists before the receipt; the bound bridge cites all sixteen trials; each trial has a reviewed experiment and all trials before it, and a decision both reviews |
| `BridgePilot.Pilot.StopAfterResult` | worker/scripts/bt009_live_pilot.py:404-508 | a run stopped after its result and before the review stage leaves a state that no run completes |
| `ReceiptPublisher.World.PublishOne` | worker/scripts/disc010_publish.py:74-105 | known digests are skipped, listed ones recovered, others posted; exactly one counter grows |
| `ReceiptPublisher.World.PublishAll` | worker/scripts/disc010_publish.py:74-105 | whatever stops it, the run has posted a prefix of the digests that were missing, once each and in file order |
| `ReceiptPublisher.World.Post` | backend/app/services/quantitative_receipt.py:651-660 | a receipt the registry refuses leaves it unchanged; without faults one it accepts is posted |
| `ReceiptPublisher.World.Publish` | worker/scripts/disc010_publish.py:45-114 | a completed run has posted exactly the missing digests, its counters sum to the number of files and the saved registrations cover them all; without faults it completes exactly when the state file is well formed, every receipt canonical, and every receipt that must be posted accepted by the registry |
| `ReceiptPublisher.World.Runs` | worker/scripts/disc010_publish.py:45-114 | over any sequence of runs, each stopping anywhere, no digest is posted twice and saved registrations agree with the registry |
| `ReceiptPublisher.UnpostedShape` | worker/scripts/disc010_publish.py:74-105 | the digests a run posts are the missing ones, without repeats |
| `DatasetPipeline.FilterStableSort` | worker/scripts/m15_build_dataset.py:35-40 | selecting by time commutes with the stable sort |
| `DatasetPipeline.StableSortUnique` | worker/scripts/m15_build_dataset.py:40-40 | any ordered arrangement that keeps the source order within every timestamp is the sort |
| `DatasetPipeline.HourRows` | worker/scripts/m15_build_dataset.py:35-55 | the rows an hour is aggregated from depend on the source rows of that hour only |
| `DatasetPipeline.SameFirstLabel` | worker/scripts/m15_build_dataset.py:43-55 | sources that agree before an hour start their hourly grid at the same label |
| `DatasetPipeline.LaggedDependsOnPast` | worker/scripts/m15_build_dataset.py:69-69 | a lagged cell is determined by the closes strictly before it |
| `DatasetPipeline.PointInTime` | worker/scripts/m15_build_dataset.py:35-70 | two sources that agree on all rows before an hour give the same feature at every common label up to and including that hour, whatever follows |
| `DatasetPipeline.BarMeaning` | worker/scripts/m15_build_dataset.py:43-55 | a bar has prices exactly when its hour has a row in the year; its open is that of the earliest row (of several, the first in the source), its close that of the latest (of several, the last), its high and low are the extremes, and its volume is the sum |
| `DatasetPipeline.Grid` | worker/scripts/m15_build_dataset.py:43-55 | one bar for every hour from that of the earliest row in the year to that of the latest, every row in one of them |
| `DatasetPipeline.FeatureDefinition` | worker/scripts/m15_build_dataset.py:69-69 | where the library pads, the feature of a label is the close of the last source row before the label over that of the last one an hour earlier, less one; none for the first two labels |
| `DatasetPipeline.FeatureUnpadded` | worker/scripts/m15_build_dataset.py:69-69 | where it does not pad, it is the close of the last source row of the preceding hour over that of the hour before, less one, and needs a row in both |
| `DatasetPipeline.OutOfOrderIsDuplicates` | worker/scripts/m15_build_dataset.py:40-42 | after the sort the out-of-order count always equals the duplicate count |
| `DatasetPipeline.OrderReport` | worker/scripts/m15_build_dataset.py:35-42 | on every source the reported out-of-order count is zero if and only if timestamps are distinct |
| `WorkerRotation.ReplaceToken` | worker/scripts/rotate_engineering_worker.py:57-70 | every token entry carries the new token and a reader gets it; failure exactly when there is no entry; other lines are kept |
| `WorkerRotation.RotationOverlaps` | backend/app/services/workload_identity.py:400-445 | a rotation revokes nothing: until the overlap ends every other token holds exactly when it did; the new one holds until its identity expires or a quarter has passed, whichever is first |
| `WorkerRotation.FinalizeKeepsNewest` | backend/app/services/workload_identity.py:447-485 | finalizing revokes the credential the newest was issued from, and the newest stays as it was |
| `WorkerRotation.RebindKeeps` | backend/app/services/workload_identity.py:299-318 | binding sets the identity of the credentials and changes nothing else about any of them |
| `WorkerRotation.AcceptedBound` | backend/app/services/workload_identity.py:216-296 | once the credentials are bound, a token is accepted if and only if it holds and, under enforcement, the bound identity is authorized: not expired, its charter in force, deployed, with a live grant for every capability |
| `WorkerRotation.RevokeOthers` | worker/scripts/rotate_engineering_worker.py:261-282 | exactly the active records of other packages are revoked |
| `WorkerRotation.EnsureGrants` | worker/scripts/rotate_engineering_worker.py:166-207 | one active grant per required capability; without faults exactly when the charter admits each one that is missing |
| `WorkerRotation.EnsureIdentity` | worker/scripts/rotate_engineering_worker.py:209-239 | the oldest identity of the package, or a new one; without faults exactly when there is one, or one may be created and no identity of the agent has the package's version |
| `WorkerRotation.World.ReplaceCredential` | worker/scripts/rotate_engineering_worker.py:240-260 | at every crash point: until it is written, the token on disk holds within the overlap exactly when it did; once written, exactly until its identity expires or a quarter has passed; completion revokes the credential that was the newest; without faults it completes |
| `WorkerRotation.World.RevokeSuperseded` | worker/scripts/rotate_engineering_worker.py:261-282 | only other packages lose their deployments and grants; what the target has and may have stays |
| `WorkerRotation.World.Finish` | worker/scripts/rotate_engineering_worker.py:240-282 | from the identity on: the exact times at which the token on disk is accepted, before and after it is written, in terms of the identity found; without faults it completes |
| `WorkerRotation.World.Run` | worker/scripts/rotate_engineering_worker.py:115-282 | whatever stops it: before binding no acceptance is lost; after binding, within the overlap, the token on disk is accepted exactly when it held and, under enforcement, the identity found serves; once written, exactly until that identity expires, a quarter has passed or, under enforcement, it no longer serves; the target stays completable or not as it was, and without faults the run completes exactly when it is; a completed run leaves active deployments and grants of the target package only |
| `WorkerRotation.World.Runs` | worker/scripts/rotate_engineering_worker.py:115-282 | over any runs, each stopping anywhere, the token on disk is never revoked; and for one overlap from the start it is accepted whenever it was, as long as identities, charters and grants last |
| `WorkerRotation.World.FindExpiredIdentity` | backend/app/services/workload_identity.py:400-485 | the run that finds an expired identity completes, and from then on neither the old token nor the new one is accepted |
| `WorkerRotation.World.FindStaleIdentity` | backend/app/services/workload_identity.py:216-318 | under enforcement, a run that finds an identity on a superseded charter shuts the worker out from binding on |
| `WorkerRotation.World.LockedOut` | worker/scripts/rotate_engineering_worker.py:115-282 | a state in which the old token was accepted, after whose completed run neither token is |
| `WorkerRotation.VersionTaken` | worker/scripts/rotate_engineering_worker.py:219-239 | another package's identity of the version blocks a target without an identity |
| `Chunker.HeadingMatches` | worker/scripts/m12_knowledge_pilot.py:30-37 | a line is a heading exactly when it can be split as the pattern asks |
| `Chunker.HeadingTitle` | worker/scripts/m12_knowledge_pilot.py:30-37 | its title is what follows the hashes and white space, without white space at the end; where nothing else follows, the last character |
| `TextTools.SplitLinesAre` | worker/scripts/m12_knowledge_pilot.py:31-31 | the lines and their ends together are the text; no line holds a line-ending character, a carriage return never parts from its line feed, and only a last, non-empty line may lack an end |
| `TextTools.LinesAreUnique` | worker/scripts/m12_knowledge_pilot.py:31-31 | there is no other way to tell the lines of a text |
| `TextTools.JoinIsWoven` | worker/scripts/m12_knowledge_pilot.py:40-40 | joining puts one line feed between two lines and nothing else |
| `TextTools.InkStrip` | worker/scripts/m12_knowledge_pilot.py:40-40 | stripping loses nothing but white space |
| `Chunker.Chunks` | worker/scripts/m12_knowledge_pilot.py:30-65 | the sections tile the lines of the text, and hold every character of it that is not white space, in order |
| `Chunker.TilesMeaning` | worker/scripts/m12_knowledge_pilot.py:30-65 | ordinals are 0..k-1, ranges are contiguous and end at the last line, each text is the stripped join of its lines, each section starts at its heading; only a blank prefix is dropped |
| `Chunker.EveryLineKept` | worker/scripts/m12_knowledge_pilot.py:38-52 | every non-blank line is in a section |
| `Chunker.PdfChunks` | worker/scripts/m12_knowledge_pilot.py:68-100 | the passages paginate the pages, and hold every character of them that is not white space, in order |
| `Chunker.PaginatesMeaning` | worker/scripts/m12_knowledge_pilot.py:68-100 | contiguous line ranges from 1, strictly increasing pages, and no page with text missing |
| `Chunker.FallbackNeverUsed` | worker/scripts/m12_knowledge_pilot.py:79-86 | the fallback title of a page is never used |
| `Sampler.SelectedPerStratum` | backend/app/scientific_fidelity_pilot.py:118-223 | per stratum the sample is the first min(quota, available) eligible candidates in input order |
| `Sampler.StrataIndependent` | backend/app/scientific_fidelity_pilot.py:118-223 | candidates of other strata change nothing, wherever they stand |
| `Sampler.FatesAddUp` | backend/app/scientific_fidelity_pilot.py:123-187 | every candidate is over quota, skipped for one reason, or evaluated |
| `Sampler.AccountedFor` | backend/app/scientific_fidelity_pilot.py:118-223 | the reported counters account for every candidate within quota |
| `Sampler.PageOf` | backend/app/scientific_fidelity_pilot.py:144-151 | the cache is transparent when reads are deterministic; a page is read again only while every earlier read failed |
| `Sampler.Sample` | backend/app/scientific_fidelity_pilot.py:118-223 | the loop with its cache and counters reports exactly the cache-free sample; its early exit is never taken |
| `Sampler.Run` | backend/app/scientific_fidelity_pilot.py:101-230 | it publishes unless no candidate is eligible, and names exactly the strata with too few eligible candidates |
| `CampaignBindings.CompatibleCampaignBindings` | worker/scripts/alpha004_mandate.py:92-121 | exactly the complete bindings of matching campaigns, each once, in encoding order; an error exactly when there is none |
| `CampaignBindings.AnswerUnique` | worker/scripts/alpha004_mandate.py:111-121 | that promise determines the list |
| `CampaignBindings.OrderIndependent` | worker/scripts/alpha004_mandate.py:92-121 | no rearrangement of campaigns or of bindings within them changes the list |
| `StringOrder.IncreasingUnique` | worker/scripts/alpha004_mandate.py:115-115 | a strictly increasing list is determined by its elements |
| `Percentile.OrderIrrelevant` | worker/scripts/ri011_retrieval_pilot.py:148-156 | the order of the list is irrelevant |
| `Percentile.MonotoneInQuantile` | worker/scripts/ri011_retrieval_pilot.py:148-156 | monotone in the quantile, across index boundaries |
| `Percentile.MonotoneInValues` | worker/scripts/ri011_retrieval_pilot.py:148-156 | pointwise monotone in the values |
| `Percentile.AtRank` | worker/scripts/ri011_retrieval_pilot.py:151-156 | at a quantile that hits a rank, the value of that rank |
| `Percentile.BetweenRanks` | worker/scripts/ri011_retrieval_pilot.py:151-156 | between two ranks of the ordered list, the point on the straight line from one value to the next |
| `Percentile.PercentileBetweenRanks` | worker/scripts/ri011_retrieval_pilot.py:148-156 | for any list, the percentile at such a quantile is that point on its sorted arrangement, up to half a thousandth |
| `Percentile.QuantileIsBetween` | worker/scripts/ri011_retrieval_pilot.py:151-154 | every quantile lies between two ranks of a list of more than one value |
| `Percentile.PercentileOfFew` | worker/scripts/ri011_retrieval_pilot.py:149-150 | one value is every percentile of itself, up to half a thousandth |
| `Percentile.Round3Is` | worker/scripts/ri011_retrieval_pilot.py:156-156 | rounding gives a multiple of a thousandth no further than half of one away, the even one of two |
| `Percentile.WithinRoundedRange` | worker/scripts/ri011_retrieval_pilot.py:148-156 | between the rounded minimum and the rounded maximum, both attained |
| `Percentile.WithinRangeIff` | worker/scripts/ri011_retrieval_pilot.py:148-156 | between minimum and maximum for every quantile if and only if rounding moves neither outwards |
| `Percentile.BelowMinimum` | worker/scripts/ri011_retrieval_pilot.py:148-156 | a list whose percentile lies below its minimum |
| `Percentile.RoundedLatencies` | worker/scripts/ri011_retrieval_pilot.py:82-98 | on latencies rounded beforehand, as the benchmark rounds them, it stays between minimum and maximum |
| `Percentile.ObjectiveSlack` | worker/scripts/ri011_retrieval_pilot.py:117-122 | an objective of whole milliseconds accepts half a thousandth more than it says |
| `Versions.PrintParse` | worker/scripts/agt001_bootstrap.py:34-48 | decimal printing and digit parsing are inverse |
| `Versions.IntOfPrint` | worker/scripts/alpha002_bootstrap.py:35-44 | int() undoes decimal printing, for negative numbers too |
| `Versions.UnsignedIs` | worker/scripts/alpha002_bootstrap.py:35-44 | int() accepts digits with single underscores between digits, and reads the number of the digits |
| `Versions.ParsedRendered` | worker/scripts/agt001_bootstrap.py:34-48 | a rendered version parses back to its three numbers |
| `Versions.FirstCandidateFresh` | worker/scripts/agt001_bootstrap.py:43-47 | the first candidate is never in use, so the retry loop has nothing to do |
| `Versions.NextIdentityVersion` | worker/scripts/agt001_bootstrap.py:34-48 | never used before, lexicographically above every well-formed version in use, one patch above the largest |
| `Versions.NextPatchVersion` | worker/scripts/alpha002_bootstrap.py:35-44 | charter and profile versions are fresh and one above the largest patch in use, and well formed when those in use are |
| `GovernanceReconcile.ControlPlane.Activate` | backend/app/services/agent_governance.py:49-65 | one active charter per agent: the previous one is superseded and its grants revoked |
| `GovernanceReconcile.SuitableIsUnique` | worker/scripts/agt001_bootstrap.py:106-123 | with one active charter per agent and unique manifests both searches lead to the same active charter |
| `GovernanceReconcile.ControlPlane.EnsureCharter` | worker/scripts/agt001_bootstrap.py:98-129 | an active charter that suits the row; a charter it registers forbids exactly capital-allocation, order-placement and live-trading, has no conflicts, the machine of the agent only, what the package needs, the lower of the two risks, and a free manifest and version; without faults obtained exactly when it is obtainable; an interrupted attempt keeps it obtainable; nothing changes when one is in force |
| `GovernanceReconcile.ControlPlane.CreateGrant` | backend/app/services/agent_governance.py:66-104 | without faults the grant is appended exactly when the active charter and the package admit it |
| `GovernanceReconcile.ControlPlane.EnsureGrants` | worker/scripts/agt001_bootstrap.py:131-139 | a live grant per required capability; every created one has the task types and repositories of the package, the lower of the two risks and a year to run, and is for nothing the charter forbids; without faults exactly when the charter allows every one that is missing |
| `GovernanceReconcile.ControlPlane.EnsureIdentity` | worker/scripts/agt001_bootstrap.py:140-173 | a live identity for the charter and package; a created one has a version the agent never used; without faults exactly when there is one or a live grant to rest it on |
| `GovernanceReconcile.LatestMeaning` | worker/scripts/agt001_bootstrap.py:88-91 | the last active row of an agent decides |
| `GovernanceReconcile.ControlPlane.ReconcileRow` | worker/scripts/agt001_bootstrap.py:92-178 | one row ends governed; without faults exactly when it is ready on the records it finds |
| `GovernanceReconcile.ReadyKept` | worker/scripts/agt001_bootstrap.py:92-178 | a completed turn of one agent changes what another row needs only by taking a manifest that the other needs too |
| `GovernanceReconcile.ControlPlane.Reconcile` | worker/scripts/agt001_bootstrap.py:70-182 | a completed run leaves every enabled agent with an active deployment under an active charter that allows what its package needs, with a live grant per capability and a live identity; however a run ends, every created grant is within charter and package, every created charter is drafted for its agent and package, none of their grants is for one of the three forbidden actions, and no grant outlives its charter; when all are governed already nothing is touched; without faults it completes exactly when every due row is ready and no two of them clash |
| `GovernanceReconcile.FirstCharter` | worker/scripts/agt001_bootstrap.py:92-178 | for an agent without a charter, term by term: ready exactly when its package needs some capability, the agent has every one, none is forbidden, and no other charter has the manifest |
| `GovernanceReconcile.CountOfIs` | worker/scripts/agt001_bootstrap.py:125-125 | the number in a version counts the charters of the agent |
| `GovernanceReconcile.ControlPlane.Twice` | worker/scripts/agt001_bootstrap.py:70-182 | after a completed run and before anything lapses, a second run completes and creates nothing |
| `GovernanceReconcile.TwinBlocked` | worker/scripts/agt001_bootstrap.py:98-127 | manifests are unique but do not name the agent: of two agents with equal manifests the second needs a covering charter |
| `GovernanceReconcile.CountCollides` | worker/scripts/agt001_bootstrap.py:124-127 | the counted charter version can be one already in use, and then no charter can be obtained |
| `Curriculum.IndexMeaning` | worker/scripts/ri009b_curriculum_pilot.py:293-298 | indexing loses no entry exactly when keys are unique |
| `Curriculum.Read` | worker/scripts/ri009b_curriculum_pilot.py:306-309 | the documents are accepted exactly when keys are unique in both and the same in both |
| `Curriculum.ReadingOrder` | worker/scripts/ri009b_curriculum_pilot.py:293-316 | the order of the entries in a document changes neither its index nor the order in which domains are walked |
| `Curriculum.PairLength` | worker/scripts/ri009b_curriculum_pilot.py:319-323 | the sorted set of the two source ids has two members exactly when they differ |
| `Curriculum.ControlPlane.PrepareDomain` | worker/scripts/ri009b_curriculum_pilot.py:316-371 | the registered curriculum when it is the same, an error when it differs, a new one when there is none |
| `Curriculum.ControlPlane.Prepare` | worker/scripts/ri009b_curriculum_pilot.py:301-371 | one curriculum per domain, in order, with the expected object as its evidence, the opposing one as its opposition, and its two sources sorted; nothing else is registered, and nothing when all are there; without faults it completes exactly when every domain can be prepared |
| `Curriculum.ControlPlane.Evaluate` | worker/scripts/ri009b_curriculum_pilot.py:374-466 | one evaluation per curriculum; without faults it completes exactly when each existing one agrees and each missing one is for the current corpus |
| `Curriculum.ControlPlane.Finalize` | worker/scripts/ri009b_curriculum_pilot.py:469-500 | the portfolio, reused or posted; without faults an error exactly when the registered one differs, or none is registered and the projections are stale |
| `Curriculum.CompletableStages` | worker/scripts/ri009b_curriculum_pilot.py:301-500 | the condition on the starting state is the conjunction of the conditions of the stages |
| `Curriculum.PrepareKeeps` | worker/scripts/ri009b_curriculum_pilot.py:301-371 | a prepare, wherever it stops, leaves the state completable or not as it was |
| `Curriculum.EvaluateKeeps` | worker/scripts/ri009b_curriculum_pilot.py:374-466 | an evaluate, wherever it stops, leaves the state completable or not as it was |
| `Curriculum.ControlPlane.All` | worker/scripts/ri009b_curriculum_pilot.py:560-564 | without faults it completes if and only if the state is completable; wherever it stops the state is completable exactly if it was, and no two records share a key and version; once done it posts nothing and returns the same records; what it returns: the curricula of the domains, per curriculum an evaluation whose one question expects its evidence and opposes its opposition and whose other case must abstain, and the portfolio over them |
| `Curriculum.GroundedIsWanted` | worker/scripts/ri009b_curriculum_pilot.py:326-361 | those fields leave no choice |
| `Curriculum.CompletableTerms` | worker/scripts/ri009b_curriculum_pilot.py:301-500 | where no two records share a key and version, completable means, term by term: two sources per domain; a curriculum registered before has the wanted fields and an evaluation that agrees, or none on an unchanged corpus; one missing meets fresh projections and accepted evidence; a portfolio registered before is over the curricula of the domains |
| `Curriculum.ControlPlane.Blocked` | backend/app/services/curriculum.py:145-153 | a registered curriculum without its evaluation blocks every run, interrupted or not, as long as the corpus is not the one it was registered on |
| `Curriculum.ControlPlane.MovedBeforeEvaluation` | backend/app/services/curriculum.py:145-153 | a run that stops between its curricula and their evaluations, after which the corpus moves, leaves that state |
| `Curriculum.ControlPlane.Converge` | worker/scripts/ri009b_curriculum_pilot.py:560-564 | after any number of interrupted runs an undisturbed run completes, and a repeat run posts nothing and returns the same even when the corpus has moved |
| `Schema.LegalKeepsWellFormed` | backend/alembic/versions/6e8a1c4d9b20_add_knowledge_graph_services.py:20-157 | every accepted statement leaves no dangling column, key or function |
| `Schema.AcceptedHasEffect` | backend/alembic/versions/6e8a1c4d9b20_add_knowledge_graph_services.py:20-157 | every accepted statement changes the schema, save a default set again and the two drops that allow what is missing |
| `Migrations.Compose` | backend/alembic/versions/3c7e9a1d5b40_add_governed_surveillance.py:15-16 | downgrades compose in reverse order |
| `Migrations.TableUndoes` | backend/alembic/versions/4d8f1b2c6a70_add_corpus_sync_ledger.py:20-104 | a table with its indexes is undone by dropping any of the indexes in any order and then the table |
| `Migrations.InverseRestores` | backend/alembic/versions/6e8a1c4d9b20_add_knowledge_graph_services.py:20-157 | on a well-formed schema each statement and the one that takes it back restore the schema, and the second is always accepted |
| `Migrations.ChainUndoes` | backend/alembic/versions/9b3e6f8a2c10_index_evidence_edge_endpoints.py:11-12 | a chain of revisions that each undo themselves is undone by all downgrades in reverse |
| `Migrations.Database.Migrate` | backend/alembic/env.py:84-85 | a script takes effect as a whole, or is refused and changes nothing |
| `Migrations.Database.UpgradeAndDowngrade` | backend/alembic/versions/0a3c6e85bd20_add_corpus_operations.py:20-126 | when the upgrades of a chain are accepted, so is every statement of the downgrades, and the schema is the starting one |
| `Revisions.CorpusOperationsUndone` | backend/alembic/versions/0a3c6e85bd20_add_corpus_operations.py:20-126 | the downgrade undoes the upgrade, every drop accepted |
| `Revisions.SurveillanceUndone` | backend/alembic/versions/3c7e9a1d5b40_add_governed_surveillance.py:21-190 | the five-table foreign-key graph is taken down in an accepted order |
| `Revisions.SyncLedgerUndone` | backend/alembic/versions/4d8f1b2c6a70_add_corpus_sync_ledger.py:20-104 | triggers, then the function, then the tables; indexes go with their tables |
| `Revisions.KnowledgeGraphUndone` | backend/alembic/versions/6e8a1c4d9b20_add_knowledge_graph_services.py:20-157 | tables, constraints and columns are undone |
| `Revisions.IngestionRecoveryUndone` | backend/alembic/versions/8a2d5f7c1e40_add_ingestion_pdf_recovery.py:19-72 | the downgrade undoes the upgrade |
| `Revisions.EdgeIndexesUndone` | backend/alembic/versions/9b3e6f8a2c10_index_evidence_edge_endpoints.py:17-40 | the downgrade undoes the upgrade |
| `Revisions.AgentHeartbeatUndone` | backend/alembic/versions/5ab642aedfa6_add_agent_credentials_and_heartbeat_.py:21-68 | the downgrade undoes the upgrade, the altered default included |
| `Revisions.TaskLifecycleUndone` | backend/alembic/versions/8f4d2c1b7a90_add_task_execution_lifecycle.py:21-226 | trigger, function, indexes and eleven columns are undone |
| `Revisions.RoundTrips` | backend/alembic/versions/0a3c6e85bd20_add_corpus_operations.py:20-126 | for either chain and every well-formed schema on which it is accepted: all upgrades and all downgrades in reverse return the schema |
| `RevisionRoom.CorpusChainAccepted` | backend/alembic/versions/9b3e6f8a2c10_index_evidence_edge_endpoints.py:17-29 | the first chain is accepted on every schema with the tables it builds on and room for what it adds |
| `RevisionRoom.TaskChainAccepted` | backend/alembic/versions/8f4d2c1b7a90_add_task_execution_lifecycle.py:21-175 | the second chain is accepted on every schema with the tables it builds on and room for what it adds |
| `RevisionRoom.CorpusRoundTrip` | backend/alembic/versions/0a3c6e85bd20_add_corpus_operations.py:20-126 | the first chain is accepted on a schema of just the three tables it builds on |
| `RevisionRoom.TaskRoundTrip` | backend/alembic/versions/5ab642aedfa6_add_agent_credentials_and_heartbeat_.py:21-68 | the second chain is accepted on a schema of just the three tables it builds on |

## Left out

- The scholarly page and index parsers, the syndication parser, `entry` with its date
  parsing, and the fetchers: more of the same kind, or network code.
- HTTP, arguments, file modes, ssh and subprocess plumbing; hashing and JSON text, which
  appear as identities and abstract line parsers; `latest_progress`, a display value.
- LogTail.NewEvents: the file only grows; truncation or replacement between polls is not
  modelled.
- Supervisor.Run.Publish: one call stands for the remote command; a post reaches the ledger
  or not, and its reply may be lost either way.
- Supervisor.Run.Supervise: SIGHUP and SIGKILL, for which no handler runs; the signal mask
  and a second interrupt during the final report are not modelled beyond the three windows.
  Where nothing fails, the first child logs valid events and exits, or hangs.
- Markup: the tokenizer itself; trees arrive as token streams with text already collapsed.
- Acquisition.Acquire: the file written at the end, and a control plane that refuses a poll.
- BridgePilot.Pilot.RunOnce: validation of the qualification files, and payload contents;
  records are identified by their role.
- ReceiptPublisher.World.Publish: concurrent publishers; the listing is complete, as the
  control plane's route returns it; the registry's checks of a receipt are one predicate.
- WorkerRotation.World.Run: what `Policy` stands for (package registration, the charter's
  manifest, the agent's capabilities) is not derived from records; that the agent is enabled,
  its machine, scopes, the start of a grant's validity, and the status of an identity, which
  no route changes; emergency grants; time passing inside the preparation; the rollback route;
  the state file written last.
- DatasetPipeline.PointInTime: floating point and text formatting; prices are reals. Whether
  `pct_change` fills gaps depends on the library version, which the repository does not
  pin: both readings are proved. The counts of missing, non-finite and non-positive bars.
- DatasetPipeline.FeatureDefinition: a close of zero, over which the library divides to infinity; the
  selection of complete rows for the written table.
- Chunker.PdfChunks: text extraction; the pages are given.
- Sampler.Run: similarity scoring, the table splitter and the registry's accept rule are
  abstract functions; the query that selects and orders the candidates; the manifest.
- CampaignBindings.CompatibleCampaignBindings: the canonical encoding is an abstract
  injective function.
- Percentile.OrderIrrelevant: binary floating point; numbers are exact reals rounded half to
  even.
- Versions.NextIdentityVersion: digits outside ASCII.
- GovernanceReconcile.ControlPlane.EnsureCharter: validation of request fields (list
  lengths, name patterns, bounds); digests are the manifests themselves.
- GovernanceReconcile.ControlPlane.CreateGrant: the request's fields, which the schema of
  role packages bounds already; that the deployment of the row is still active.
- GovernanceReconcile.ControlPlane.EnsureIdentity: scopes, which script and control plane
  compute alike; the length limit of a version; binding credentials.
- Curriculum.ControlPlane.Prepare: constant payload fields, and upper case outside ASCII;
  which evidence the control plane accepts does not change; `preflight`, `discover`,
  `diagnose` and the source cache.
- Curriculum.ControlPlane.Evaluate: retrieval scores; whether an evaluation passes is free.
- Schema.LegalKeepsWellFormed: rows, column types, delete rules and lock behaviour.
- Revisions.RoundTrips: the single-record migrations outside the two chains.
- RevisionRoom.CorpusChainAccepted: a sufficient condition; a schema may be accepted without
  meeting it, when index names with a table's stem are used elsewhere.
- The remaining pilots, which register and replay fixed receipts.
