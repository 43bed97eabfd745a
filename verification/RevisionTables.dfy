/** The tables of the two revision chains: each with its columns, constraints and indexes
    in the order the upgrade creates them, and the statements by which the downgrade takes
    them away, in its order; a table dropped without its indexes takes them along. */
module RevisionTables {
  import opened Prelude
  import opened Schema
  import opened Migrations

  const REQUIRED := ColumnDef(false, NoDefault)
  const OPTIONAL := ColumnDef(true, NoDefault)
  const STAMPED := ColumnDef(false, Value("now()"))

  // Revision 0a3c6e85bd20: corpus security, backups and recovery.

  function Findings(): Op {
    CreateTable(
      CorpusSecurityFindings,
      map["id" := REQUIRED, "ingestion_job_id" := REQUIRED, "project" := REQUIRED, "finding_code" := REQUIRED,
          "stage" := REQUIRED, "severity" := REQUIRED, "disposition" := REQUIRED, "remediation" := REQUIRED,
          "recorded_at" := STAMPED],
      {ForeignKey(["ingestion_job_id"], ScientificIngestionJobs, ["id"]), PrimaryKey(["id"])})
  }

  function FindingsIndexes(): seq<Op> {
    [CreateIndex(Ix(CorpusSecurityFindings, IngestionJobId), CorpusSecurityFindings, ["ingestion_job_id"], false),
     CreateIndex(Ix(CorpusSecurityFindings, Project), CorpusSecurityFindings, ["project"], false),
     CreateIndex(Ix(CorpusSecurityFindings, FindingCode), CorpusSecurityFindings, ["finding_code"], false),
     CreateIndex(Ix(CorpusSecurityFindings, Severity), CorpusSecurityFindings, ["severity"], false)]
  }

  function FindingsDrops(): seq<Op> {
    [DropIndex(Ix(CorpusSecurityFindings, Severity), CorpusSecurityFindings),
     DropIndex(Ix(CorpusSecurityFindings, FindingCode), CorpusSecurityFindings),
     DropIndex(Ix(CorpusSecurityFindings, Project), CorpusSecurityFindings),
     DropIndex(Ix(CorpusSecurityFindings, IngestionJobId), CorpusSecurityFindings)]
  }

  function FindingsUp(): seq<Op> {
    [Findings()] + FindingsIndexes()
  }

  function FindingsDown(): seq<Op> {
    FindingsDrops() + [DropTable(CorpusSecurityFindings)]
  }

  lemma FindingsUndone()
    ensures Undoes(FindingsDown(), FindingsUp())
  {
    TableUndoes(Findings(), FindingsIndexes(), FindingsDrops(), [3, 2, 1, 0]);
  }

  lemma FindingsAccepted(s: Schema) returns (after: Schema)
    requires Vacant(s, CorpusSecurityFindings) && HasId(s, ScientificIngestionJobs)
    ensures Run(s, FindingsUp()) == Some(after)
    ensures Grown(s, after, {CorpusSecurityFindings}, {}) && HasId(after, CorpusSecurityFindings)
    ensures CorpusSecurityFindings in after.tables && after.tables[CorpusSecurityFindings].triggers == map[]
  {
    hide Vacant, HasId, Grown, Run;
    after := TableAccepted(s, Findings(), FindingsIndexes());
  }

  function Backups(): Op {
    CreateTable(
      CorpusBackups,
      map["id" := REQUIRED, "schema_version" := REQUIRED, "project" := REQUIRED, "corpus_digest" := REQUIRED,
          "manifest_digest" := REQUIRED, "storage_uri" := REQUIRED, "object_count" := REQUIRED,
          "artifact_count" := REQUIRED, "byte_size" := REQUIRED, "created_by" := REQUIRED, "created_at" := STAMPED],
      {PrimaryKey(["id"]), Unique(["manifest_digest"])})
  }

  function BackupsIndexes(): seq<Op> {
    [CreateIndex(Ix(CorpusBackups, Project), CorpusBackups, ["project"], false)]
  }

  function BackupsDrops(): seq<Op> {
    [DropIndex(Ix(CorpusBackups, Project), CorpusBackups)]
  }

  function BackupsUp(): seq<Op> {
    [Backups()] + BackupsIndexes()
  }

  function BackupsDown(): seq<Op> {
    BackupsDrops() + [DropTable(CorpusBackups)]
  }

  lemma BackupsUndone()
    ensures Undoes(BackupsDown(), BackupsUp())
  {
    TableUndoes(Backups(), BackupsIndexes(), BackupsDrops(), [0]);
  }

  lemma BackupsAccepted(s: Schema) returns (after: Schema)
    requires Vacant(s, CorpusBackups)
    ensures Run(s, BackupsUp()) == Some(after)
    ensures Grown(s, after, {CorpusBackups}, {}) && HasId(after, CorpusBackups)
    ensures CorpusBackups in after.tables && after.tables[CorpusBackups].triggers == map[]
  {
    hide Vacant, HasId, Grown, Run;
    after := TableAccepted(s, Backups(), BackupsIndexes());
  }

  function RecoveryRuns(): Op {
    CreateTable(
      CorpusRecoveryRuns,
      map["id" := REQUIRED, "operation" := REQUIRED, "project" := REQUIRED, "backup_id" := OPTIONAL,
          "status" := REQUIRED, "evidence" := REQUIRED, "evidence_digest" := REQUIRED, "error_code" := OPTIONAL,
          "started_at" := REQUIRED, "ended_at" := REQUIRED],
      {ForeignKey(["backup_id"], CorpusBackups, ["id"]), PrimaryKey(["id"])})
  }

  function RecoveryRunsIndexes(): seq<Op> {
    [CreateIndex(Ix(CorpusRecoveryRuns, Operation), CorpusRecoveryRuns, ["operation"], false),
     CreateIndex(Ix(CorpusRecoveryRuns, Project), CorpusRecoveryRuns, ["project"], false),
     CreateIndex(Ix(CorpusRecoveryRuns, Status), CorpusRecoveryRuns, ["status"], false)]
  }

  function RecoveryRunsDrops(): seq<Op> {
    [DropIndex(Ix(CorpusRecoveryRuns, Status), CorpusRecoveryRuns),
     DropIndex(Ix(CorpusRecoveryRuns, Project), CorpusRecoveryRuns),
     DropIndex(Ix(CorpusRecoveryRuns, Operation), CorpusRecoveryRuns)]
  }

  function RecoveryRunsUp(): seq<Op> {
    [RecoveryRuns()] + RecoveryRunsIndexes()
  }

  function RecoveryRunsDown(): seq<Op> {
    RecoveryRunsDrops() + [DropTable(CorpusRecoveryRuns)]
  }

  lemma RecoveryRunsUndone()
    ensures Undoes(RecoveryRunsDown(), RecoveryRunsUp())
  {
    TableUndoes(RecoveryRuns(), RecoveryRunsIndexes(), RecoveryRunsDrops(), [2, 1, 0]);
  }

  lemma RecoveryRunsAccepted(s: Schema) returns (after: Schema)
    requires Vacant(s, CorpusRecoveryRuns) && HasId(s, CorpusBackups)
    ensures Run(s, RecoveryRunsUp()) == Some(after)
    ensures Grown(s, after, {CorpusRecoveryRuns}, {}) && HasId(after, CorpusRecoveryRuns)
    ensures CorpusRecoveryRuns in after.tables && after.tables[CorpusRecoveryRuns].triggers == map[]
  {
    hide Vacant, HasId, Grown, Run;
    after := TableAccepted(s, RecoveryRuns(), RecoveryRunsIndexes());
  }

  // Revision 3c7e9a1d5b40: governed surveillance.

  function Sources(): Op {
    CreateTable(
      SurveillanceSources,
      map["id" := REQUIRED, "project" := REQUIRED, "source_key" := REQUIRED, "name" := REQUIRED,
          "feed_url" := REQUIRED, "feed_kind" := REQUIRED, "domains" := REQUIRED, "rights" := REQUIRED,
          "access_class" := REQUIRED, "cadence" := REQUIRED, "freshness_hours" := REQUIRED, "owner" := REQUIRED,
          "allowed_hosts" := REQUIRED, "is_enabled" := REQUIRED, "created_at" := STAMPED],
      {PrimaryKey(["id"]), Unique(["source_key"])})
  }

  function SourcesIndexes(): seq<Op> {
    [CreateIndex(Ix(SurveillanceSources, Project), SurveillanceSources, ["project"], false)]
  }

  function SourcesDrops(): seq<Op> {
    [DropIndex(Ix(SurveillanceSources, Project), SurveillanceSources)]
  }

  function SourcesUp(): seq<Op> {
    [Sources()] + SourcesIndexes()
  }

  function SourcesDown(): seq<Op> {
    SourcesDrops() + [DropTable(SurveillanceSources)]
  }

  lemma SourcesUndone()
    ensures Undoes(SourcesDown(), SourcesUp())
  {
    TableUndoes(Sources(), SourcesIndexes(), SourcesDrops(), [0]);
  }

  lemma SourcesAccepted(s: Schema) returns (after: Schema)
    requires Vacant(s, SurveillanceSources)
    ensures Run(s, SourcesUp()) == Some(after)
    ensures Grown(s, after, {SurveillanceSources}, {}) && HasId(after, SurveillanceSources)
    ensures SurveillanceSources in after.tables && after.tables[SurveillanceSources].triggers == map[]
  {
    hide Vacant, HasId, Grown, Run;
    after := TableAccepted(s, Sources(), SourcesIndexes());
  }

  function FetchReceipts(): Op {
    CreateTable(
      SurveillanceFetchReceipts,
      map["id" := REQUIRED, "source_id" := REQUIRED, "requested_by" := REQUIRED, "connector_version" := REQUIRED,
          "fetched_at" := REQUIRED, "http_status" := REQUIRED, "status" := REQUIRED, "entry_count" := REQUIRED,
          "new_count" := REQUIRED, "duplicate_count" := REQUIRED, "rejected_count" := REQUIRED,
          "receipt_digest" := REQUIRED, "error_code" := OPTIONAL],
      {ForeignKey(["source_id"], SurveillanceSources, ["id"]), PrimaryKey(["id"]), Unique(["receipt_digest"])})
  }

  function FetchReceiptsIndexes(): seq<Op> {
    [CreateIndex(Ix(SurveillanceFetchReceipts, SourceId), SurveillanceFetchReceipts, ["source_id"], false)]
  }

  function FetchReceiptsDrops(): seq<Op> {
    [DropIndex(Ix(SurveillanceFetchReceipts, SourceId), SurveillanceFetchReceipts)]
  }

  function FetchReceiptsUp(): seq<Op> {
    [FetchReceipts()] + FetchReceiptsIndexes()
  }

  function FetchReceiptsDown(): seq<Op> {
    FetchReceiptsDrops() + [DropTable(SurveillanceFetchReceipts)]
  }

  lemma FetchReceiptsUndone()
    ensures Undoes(FetchReceiptsDown(), FetchReceiptsUp())
  {
    TableUndoes(FetchReceipts(), FetchReceiptsIndexes(), FetchReceiptsDrops(), [0]);
  }

  lemma FetchReceiptsAccepted(s: Schema) returns (after: Schema)
    requires Vacant(s, SurveillanceFetchReceipts) && HasId(s, SurveillanceSources)
    ensures Run(s, FetchReceiptsUp()) == Some(after)
    ensures Grown(s, after, {SurveillanceFetchReceipts}, {}) && HasId(after, SurveillanceFetchReceipts)
    ensures SurveillanceFetchReceipts in after.tables && after.tables[SurveillanceFetchReceipts].triggers == map[]
  {
    hide Vacant, HasId, Grown, Run;
    after := TableAccepted(s, FetchReceipts(), FetchReceiptsIndexes());
  }

  function Publications(): Op {
    CreateTable(
      SurveillancePublications,
      map["id" := REQUIRED, "project" := REQUIRED, "source_id" := REQUIRED, "external_id" := REQUIRED,
          "title" := REQUIRED, "canonical_url" := REQUIRED, "published_at" := REQUIRED,
          "publication_status" := REQUIRED, "content_digest" := REQUIRED, "provenance" := REQUIRED,
          "assessment" := REQUIRED, "routing" := REQUIRED, "supersedes_id" := OPTIONAL, "created_at" := STAMPED],
      {ForeignKey(["source_id"], SurveillanceSources, ["id"]),
       ForeignKey(["supersedes_id"], SurveillancePublications, ["id"]), PrimaryKey(["id"]),
         Unique(["content_digest"])})
  }

  function PublicationsIndexes(): seq<Op> {
    [CreateIndex(Ix(SurveillancePublications, SourceId), SurveillancePublications, ["source_id"], false),
     CreateIndex(Ix(SurveillancePublications, Project), SurveillancePublications, ["project"], false),
     CreateIndex(Ix(SurveillancePublications, PublicationStatus), SurveillancePublications, ["publication_status"],
       false)]
  }

  function PublicationsDrops(): seq<Op> {
    [DropIndex(Ix(SurveillancePublications, PublicationStatus), SurveillancePublications),
     DropIndex(Ix(SurveillancePublications, SourceId), SurveillancePublications),
     DropIndex(Ix(SurveillancePublications, Project), SurveillancePublications)]
  }

  function PublicationsUp(): seq<Op> {
    [Publications()] + PublicationsIndexes()
  }

  function PublicationsDown(): seq<Op> {
    PublicationsDrops() + [DropTable(SurveillancePublications)]
  }

  lemma PublicationsUndone()
    ensures Undoes(PublicationsDown(), PublicationsUp())
  {
    TableUndoes(Publications(), PublicationsIndexes(), PublicationsDrops(), [2, 0, 1]);
  }

  lemma PublicationsAccepted(s: Schema) returns (after: Schema)
    requires Vacant(s, SurveillancePublications) && HasId(s, SurveillanceSources)
    ensures Run(s, PublicationsUp()) == Some(after)
    ensures Grown(s, after, {SurveillancePublications}, {}) && HasId(after, SurveillancePublications)
    ensures SurveillancePublications in after.tables && after.tables[SurveillancePublications].triggers == map[]
  {
    hide Vacant, HasId, Grown, Run;
    after := TableAccepted(s, Publications(), PublicationsIndexes());
  }

  function RoutingEvents(): Op {
    CreateTable(
      SurveillanceRoutingEvents,
      map["id" := REQUIRED, "publication_id" := REQUIRED, "decision" := REQUIRED, "decided_by" := REQUIRED,
          "rationale" := REQUIRED, "proposal" := REQUIRED, "event_digest" := REQUIRED, "created_at" := STAMPED],
      {ForeignKey(["publication_id"], SurveillancePublications, ["id"]), PrimaryKey(["id"]),
        Unique(["event_digest"])})
  }

  function RoutingEventsIndexes(): seq<Op> {
    [CreateIndex(Ix(SurveillanceRoutingEvents, PublicationId), SurveillanceRoutingEvents, ["publication_id"], false)]
  }

  function RoutingEventsDrops(): seq<Op> {
    [DropIndex(Ix(SurveillanceRoutingEvents, PublicationId), SurveillanceRoutingEvents)]
  }

  function RoutingEventsUp(): seq<Op> {
    [RoutingEvents()] + RoutingEventsIndexes()
  }

  function RoutingEventsDown(): seq<Op> {
    RoutingEventsDrops() + [DropTable(SurveillanceRoutingEvents)]
  }

  lemma RoutingEventsUndone()
    ensures Undoes(RoutingEventsDown(), RoutingEventsUp())
  {
    TableUndoes(RoutingEvents(), RoutingEventsIndexes(), RoutingEventsDrops(), [0]);
  }

  lemma RoutingEventsAccepted(s: Schema) returns (after: Schema)
    requires Vacant(s, SurveillanceRoutingEvents) && HasId(s, SurveillancePublications)
    ensures Run(s, RoutingEventsUp()) == Some(after)
    ensures Grown(s, after, {SurveillanceRoutingEvents}, {}) && HasId(after, SurveillanceRoutingEvents)
    ensures SurveillanceRoutingEvents in after.tables && after.tables[SurveillanceRoutingEvents].triggers == map[]
  {
    hide Vacant, HasId, Grown, Run;
    after := TableAccepted(s, RoutingEvents(), RoutingEventsIndexes());
  }

  function Digests(): Op {
    CreateTable(
      SurveillanceDigests,
      map["id" := REQUIRED, "project" := REQUIRED, "week_ending" := REQUIRED, "candidate_count" := REQUIRED,
          "correction_count" := REQUIRED, "retraction_count" := REQUIRED, "digest" := REQUIRED,
          "digest_sha256" := REQUIRED, "created_by" := REQUIRED, "created_at" := STAMPED],
      {PrimaryKey(["id"]), Unique(["digest_sha256"])})
  }

  function DigestsIndexes(): seq<Op> {
    [CreateIndex(Ix(SurveillanceDigests, Project), SurveillanceDigests, ["project"], false)]
  }

  function DigestsDrops(): seq<Op> {
    [DropIndex(Ix(SurveillanceDigests, Project), SurveillanceDigests)]
  }

  function DigestsUp(): seq<Op> {
    [Digests()] + DigestsIndexes()
  }

  function DigestsDown(): seq<Op> {
    DigestsDrops() + [DropTable(SurveillanceDigests)]
  }

  lemma DigestsUndone()
    ensures Undoes(DigestsDown(), DigestsUp())
  {
    TableUndoes(Digests(), DigestsIndexes(), DigestsDrops(), [0]);
  }

  lemma DigestsAccepted(s: Schema) returns (after: Schema)
    requires Vacant(s, SurveillanceDigests)
    ensures Run(s, DigestsUp()) == Some(after)
    ensures Grown(s, after, {SurveillanceDigests}, {}) && HasId(after, SurveillanceDigests)
    ensures SurveillanceDigests in after.tables && after.tables[SurveillanceDigests].triggers == map[]
  {
    hide Vacant, HasId, Grown, Run;
    after := TableAccepted(s, Digests(), DigestsIndexes());
  }

  // Revision 4d8f1b2c6a70: corpus synchronization ledger, append-only.

  function SyncRuns(): Op {
    CreateTable(
      CorpusSyncRuns,
      map["id" := REQUIRED, "schema_version" := REQUIRED, "project" := REQUIRED, "source_kind" := REQUIRED,
          "source_root" := REQUIRED, "inventory_digest" := REQUIRED, "requested_by" := REQUIRED, "status" := REQUIRED,
          "counts" := REQUIRED, "coverage_digest" := REQUIRED, "created_at" := STAMPED],
      {Check("status"), Check("source_kind"), PrimaryKey(["id"]), Unique(["inventory_digest"])})
  }

  function SyncRunsIndexes(): seq<Op> {
    [CreateIndex(Ix(CorpusSyncRuns, Project), CorpusSyncRuns, ["project"], false),
     CreateIndex(Ix(CorpusSyncRuns, SourceKind), CorpusSyncRuns, ["source_kind"], false),
     CreateIndex(Ix(CorpusSyncRuns, Status), CorpusSyncRuns, ["status"], false)]
  }

  function SyncRunsUp(): seq<Op> {
    [SyncRuns()] + SyncRunsIndexes()
  }

  function SyncRunsDown(): seq<Op> {
    [DropTable(CorpusSyncRuns)]
  }

  lemma SyncRunsUndone()
    ensures Undoes(SyncRunsDown(), SyncRunsUp())
  {
    TableUndoes(SyncRuns(), SyncRunsIndexes(), [], []);
    assert [] + [DropTable(CorpusSyncRuns)] == SyncRunsDown();
  }

  lemma SyncRunsAccepted(s: Schema) returns (after: Schema)
    requires Vacant(s, CorpusSyncRuns)
    ensures Run(s, SyncRunsUp()) == Some(after)
    ensures Grown(s, after, {CorpusSyncRuns}, {}) && HasId(after, CorpusSyncRuns)
    ensures CorpusSyncRuns in after.tables && after.tables[CorpusSyncRuns].triggers == map[]
  {
    hide Vacant, HasId, Grown, Run;
    after := TableAccepted(s, SyncRuns(), SyncRunsIndexes());
  }

  function SyncItems(): Op {
    CreateTable(
      CorpusSyncItems,
      map["id" := REQUIRED, "run_id" := REQUIRED, "source_locator" := REQUIRED, "content_digest" := OPTIONAL,
          "classification" := REQUIRED, "access_class" := REQUIRED, "disposition" := REQUIRED,
          "ingestion_job_id" := OPTIONAL, "canonical_object_ids" := REQUIRED, "predecessor_item_id" := OPTIONAL,
          "detail" := OPTIONAL, "created_at" := STAMPED],
      {ForeignKey(["run_id"], CorpusSyncRuns, ["id"]),
       ForeignKey(["ingestion_job_id"], ScientificIngestionJobs, ["id"]),
       ForeignKey(["predecessor_item_id"], CorpusSyncItems, ["id"]), Check("disposition"), Check("access_class"),
       PrimaryKey(["id"]), Unique(["run_id", "source_locator"])})
  }

  function SyncItemsIndexes(): seq<Op> {
    [CreateIndex(Ix(CorpusSyncItems, RunId), CorpusSyncItems, ["run_id"], false),
     CreateIndex(Ix(CorpusSyncItems, ContentDigest), CorpusSyncItems, ["content_digest"], false),
     CreateIndex(Ix(CorpusSyncItems, Disposition), CorpusSyncItems, ["disposition"], false)]
  }

  function SyncItemsUp(): seq<Op> {
    [SyncItems()] + SyncItemsIndexes()
  }

  function SyncItemsDown(): seq<Op> {
    [DropTable(CorpusSyncItems)]
  }

  lemma SyncItemsUndone()
    ensures Undoes(SyncItemsDown(), SyncItemsUp())
  {
    TableUndoes(SyncItems(), SyncItemsIndexes(), [], []);
    assert [] + [DropTable(CorpusSyncItems)] == SyncItemsDown();
  }

  lemma SyncItemsAccepted(s: Schema) returns (after: Schema)
    requires Vacant(s, CorpusSyncItems) && HasId(s, CorpusSyncRuns) && HasId(s, ScientificIngestionJobs)
    ensures Run(s, SyncItemsUp()) == Some(after)
    ensures Grown(s, after, {CorpusSyncItems}, {}) && HasId(after, CorpusSyncItems)
    ensures CorpusSyncItems in after.tables && after.tables[CorpusSyncItems].triggers == map[]
  {
    hide Vacant, HasId, Grown, Run;
    after := TableAccepted(s, SyncItems(), SyncItemsIndexes());
  }

  // Revision 6e8a1c4d9b20: knowledge graph services.

  function GraphStates(): Op {
    CreateTable(
      GraphProjectionStates,
      map["projection_name" := REQUIRED, "projection_version" := REQUIRED, "corpus_digest" := REQUIRED,
          "node_count" := REQUIRED, "edge_count" := REQUIRED, "manifest" := REQUIRED, "manifest_digest" := REQUIRED,
          "built_at" := STAMPED],
      {PrimaryKey(["projection_name"])})
  }

  function GraphStatesUp(): seq<Op> {
    [GraphStates()]
  }

  function GraphStatesDown(): seq<Op> {
    [DropTable(GraphProjectionStates)]
  }

  lemma GraphStatesUndone()
    ensures Undoes(GraphStatesDown(), GraphStatesUp())
  {
    TableUndoes(GraphStates(), [], [], []);
    assert [GraphStates()] + [] == GraphStatesUp();
    assert [] + [DropTable(GraphProjectionStates)] == GraphStatesDown();
  }

  lemma GraphStatesAccepted(s: Schema) returns (after: Schema)
    requires Vacant(s, GraphProjectionStates)
    ensures Run(s, GraphStatesUp()) == Some(after)
    ensures Grown(s, after, {GraphProjectionStates}, {})
    ensures GraphProjectionStates in after.tables && after.tables[GraphProjectionStates].triggers == map[]
  {
    hide Vacant, HasId, Grown, Run;
    assert [GraphStates()] + [] == GraphStatesUp();
    after := TableAccepted(s, GraphStates(), []);
  }

  function GraphNodes(): Op {
    CreateTable(
      GraphProjectionNodes,
      map["object_id" := REQUIRED, "object_type" := REQUIRED, "project" := REQUIRED, "access_class" := REQUIRED,
          "content_digest" := REQUIRED, "label" := REQUIRED, "projection_version" := REQUIRED],
      {PrimaryKey(["object_id"]), ForeignKey(["object_id"], CanonicalEvidenceObjects, ["id"])})
  }

  function GraphNodesIndexes(): seq<Op> {
    [CreateIndex(Ix(GraphProjectionNodes, ObjectType), GraphProjectionNodes, ["object_type"], false),
     CreateIndex(Ix(GraphProjectionNodes, Project), GraphProjectionNodes, ["project"], false),
     CreateIndex(Ix(GraphProjectionNodes, AccessClass), GraphProjectionNodes, ["access_class"], false)]
  }

  function GraphNodesUp(): seq<Op> {
    [GraphNodes()] + GraphNodesIndexes()
  }

  function GraphNodesDown(): seq<Op> {
    [DropTable(GraphProjectionNodes)]
  }

  lemma GraphNodesUndone()
    ensures Undoes(GraphNodesDown(), GraphNodesUp())
  {
    TableUndoes(GraphNodes(), GraphNodesIndexes(), [], []);
    assert [] + [DropTable(GraphProjectionNodes)] == GraphNodesDown();
  }

  lemma GraphNodesAccepted(s: Schema) returns (after: Schema)
    requires Vacant(s, GraphProjectionNodes) && HasId(s, CanonicalEvidenceObjects)
    ensures Run(s, GraphNodesUp()) == Some(after)
    ensures Grown(s, after, {GraphProjectionNodes}, {})
    ensures GraphProjectionNodes in after.tables && after.tables[GraphProjectionNodes].triggers == map[]
  {
    hide Vacant, HasId, Grown, Run;
    after := TableAccepted(s, GraphNodes(), GraphNodesIndexes());
  }

  function GraphEdges(): Op {
    CreateTable(
      GraphProjectionEdges,
      map["edge_id" := REQUIRED, "subject_id" := REQUIRED, "predicate" := REQUIRED, "object_id" := REQUIRED,
          "valid_from" := OPTIONAL, "valid_until" := OPTIONAL, "provenance_object_id" := OPTIONAL,
          "access_class" := REQUIRED, "record_digest" := REQUIRED, "projection_version" := REQUIRED],
      {PrimaryKey(["edge_id"]), ForeignKey(["edge_id"], CanonicalEvidenceEdges, ["id"])})
  }

  function GraphEdgesIndexes(): seq<Op> {
    [CreateIndex(Ix(GraphProjectionEdges, SubjectId), GraphProjectionEdges, ["subject_id"], false),
     CreateIndex(Ix(GraphProjectionEdges, Predicate), GraphProjectionEdges, ["predicate"], false),
     CreateIndex(Ix(GraphProjectionEdges, ObjectId), GraphProjectionEdges, ["object_id"], false)]
  }

  function GraphEdgesUp(): seq<Op> {
    [GraphEdges()] + GraphEdgesIndexes()
  }

  function GraphEdgesDown(): seq<Op> {
    [DropTable(GraphProjectionEdges)]
  }

  lemma GraphEdgesUndone()
    ensures Undoes(GraphEdgesDown(), GraphEdgesUp())
  {
    TableUndoes(GraphEdges(), GraphEdgesIndexes(), [], []);
    assert [] + [DropTable(GraphProjectionEdges)] == GraphEdgesDown();
  }

  lemma GraphEdgesAccepted(s: Schema) returns (after: Schema)
    requires Vacant(s, GraphProjectionEdges) && HasId(s, CanonicalEvidenceEdges)
    ensures Run(s, GraphEdgesUp()) == Some(after)
    ensures Grown(s, after, {GraphProjectionEdges}, {})
    ensures GraphProjectionEdges in after.tables && after.tables[GraphProjectionEdges].triggers == map[]
  {
    hide Vacant, HasId, Grown, Run;
    after := TableAccepted(s, GraphEdges(), GraphEdgesIndexes());
  }

  function ToolReceipts(): Op {
    CreateTable(
      CognitiveToolReceipts,
      map["id" := REQUIRED, "tool_name" := REQUIRED, "tool_version" := REQUIRED, "input_digest" := REQUIRED,
          "output_digest" := REQUIRED, "request" := REQUIRED, "result" := REQUIRED, "context_pack_digest" := OPTIONAL,
          "actor" := REQUIRED, "receipt_digest" := REQUIRED, "created_at" := STAMPED],
      {PrimaryKey(["id"]), Unique(["receipt_digest"])})
  }

  function ToolReceiptsIndexes(): seq<Op> {
    [CreateIndex(Ix(CognitiveToolReceipts, Tool), CognitiveToolReceipts, ["tool_name"], false)]
  }

  function ToolReceiptsUp(): seq<Op> {
    [ToolReceipts()] + ToolReceiptsIndexes()
  }

  function ToolReceiptsDown(): seq<Op> {
    [DropTable(CognitiveToolReceipts)]
  }

  lemma ToolReceiptsUndone()
    ensures Undoes(ToolReceiptsDown(), ToolReceiptsUp())
  {
    TableUndoes(ToolReceipts(), ToolReceiptsIndexes(), [], []);
    assert [] + [DropTable(CognitiveToolReceipts)] == ToolReceiptsDown();
  }

  lemma ToolReceiptsAccepted(s: Schema) returns (after: Schema)
    requires Vacant(s, CognitiveToolReceipts)
    ensures Run(s, ToolReceiptsUp()) == Some(after)
    ensures Grown(s, after, {CognitiveToolReceipts}, {}) && HasId(after, CognitiveToolReceipts)
    ensures CognitiveToolReceipts in after.tables && after.tables[CognitiveToolReceipts].triggers == map[]
  {
    hide Vacant, HasId, Grown, Run;
    after := TableAccepted(s, ToolReceipts(), ToolReceiptsIndexes());
  }

  // Revision 8a2d5f7c1e40: ingestion recovery.

  function Recoveries(): Op {
    CreateTable(
      ScientificIngestionRecoveries,
      map["id" := REQUIRED, "schema_version" := REQUIRED, "original_job_id" := REQUIRED,
          "sanitized_job_id" := OPTIONAL, "status" := REQUIRED, "requested_by" := REQUIRED, "receipt" := REQUIRED,
          "created_at" := STAMPED, "updated_at" := STAMPED],
      {Check("status"), ForeignKey(["original_job_id"], ScientificIngestionJobs, ["id"]),
       ForeignKey(["sanitized_job_id"], ScientificIngestionJobs, ["id"]), PrimaryKey(["id"]),
       Unique(["original_job_id"])})
  }

  function RecoveriesIndexes(): seq<Op> {
    [CreateIndex(Ix(ScientificIngestionRecoveries, Original), ScientificIngestionRecoveries, ["original_job_id"],
      false),
     CreateIndex(Ix(ScientificIngestionRecoveries, Status), ScientificIngestionRecoveries, ["status"], false)]
  }

  function RecoveriesDrops(): seq<Op> {
    [DropIndex(Ix(ScientificIngestionRecoveries, Status), ScientificIngestionRecoveries),
     DropIndex(Ix(ScientificIngestionRecoveries, Original), ScientificIngestionRecoveries)]
  }

  function RecoveriesUp(): seq<Op> {
    [Recoveries()] + RecoveriesIndexes()
  }

  function RecoveriesDown(): seq<Op> {
    RecoveriesDrops() + [DropTable(ScientificIngestionRecoveries)]
  }

  lemma RecoveriesUndone()
    ensures Undoes(RecoveriesDown(), RecoveriesUp())
  {
    TableUndoes(Recoveries(), RecoveriesIndexes(), RecoveriesDrops(), [1, 0]);
  }

  lemma RecoveriesAccepted(s: Schema) returns (after: Schema)
    requires Vacant(s, ScientificIngestionRecoveries) && HasId(s, ScientificIngestionJobs)
    ensures Run(s, RecoveriesUp()) == Some(after)
    ensures Grown(s, after, {ScientificIngestionRecoveries}, {}) && HasId(after, ScientificIngestionRecoveries)
    ensures ScientificIngestionRecoveries in after.tables &&
      after.tables[ScientificIngestionRecoveries].triggers == map[]
  {
    hide Vacant, HasId, Grown, Run;
    after := TableAccepted(s, Recoveries(), RecoveriesIndexes());
  }

  // Revision 5ab642aedfa6: agent credentials and heartbeat.

  function Credentials(): Op {
    CreateTable(
      AgentCredentials,
      map["id" := REQUIRED, "agent_id" := REQUIRED, "token_prefix" := REQUIRED, "token_digest" := REQUIRED,
          "created_at" := STAMPED, "last_used_at" := OPTIONAL, "expires_at" := OPTIONAL, "revoked_at" := OPTIONAL],
      {ForeignKey(["agent_id"], Agents, ["id"]), PrimaryKey(["id"])})
  }

  function CredentialsIndexes(): seq<Op> {
    [CreateIndex(Ix(AgentCredentials, AgentId), AgentCredentials, ["agent_id"], false),
     CreateIndex(Ix(AgentCredentials, TokenPrefix), AgentCredentials, ["token_prefix"], true)]
  }

  function CredentialsDrops(): seq<Op> {
    [DropIndex(Ix(AgentCredentials, TokenPrefix), AgentCredentials),
     DropIndex(Ix(AgentCredentials, AgentId), AgentCredentials)]
  }

  function CredentialsUp(): seq<Op> {
    [Credentials()] + CredentialsIndexes()
  }

  function CredentialsDown(): seq<Op> {
    CredentialsDrops() + [DropTable(AgentCredentials)]
  }

  lemma CredentialsUndone()
    ensures Undoes(CredentialsDown(), CredentialsUp())
  {
    TableUndoes(Credentials(), CredentialsIndexes(), CredentialsDrops(), [1, 0]);
  }

  lemma CredentialsAccepted(s: Schema) returns (after: Schema)
    requires Vacant(s, AgentCredentials) && HasId(s, Agents)
    ensures Run(s, CredentialsUp()) == Some(after)
    ensures Grown(s, after, {AgentCredentials}, {}) && HasId(after, AgentCredentials)
    ensures AgentCredentials in after.tables && after.tables[AgentCredentials].triggers == map[]
  {
    hide Vacant, HasId, Grown, Run;
    after := TableAccepted(s, Credentials(), CredentialsIndexes());
  }
}
