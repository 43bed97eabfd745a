/** The two revision chains as scripts, in the order the migrations issue their
    statements: each downgrade undoes its upgrade, and so do the chains. */
module Revisions {
  import opened Prelude
  import opened Schema
  import opened Migrations
  import opened RevisionTables

  const REJECT_SYNC_MUTATION := "reject_corpus_sync_mutation"
  const PREVENT_EVENT_MUTATION := "prevent_task_event_mutation"
  const EMPTY_OBJECT := ColumnDef(false, Value("'{}'::jsonb"))
  const EMPTY_LIST := ColumnDef(false, Value("'[]'::jsonb"))

  // Revision 0a3c6e85bd20.

  function CorpusOperationsUp(): seq<Op> {
    FindingsUp() + BackupsUp() + RecoveryRunsUp()
  }

  function CorpusOperationsDown(): seq<Op> {
    RecoveryRunsDown() + (BackupsDown() + FindingsDown())
  }

  lemma CorpusOperationsUndone()
    ensures Undoes(CorpusOperationsDown(), CorpusOperationsUp())
  {
    FindingsUndone();
    BackupsUndone();
    RecoveryRunsUndone();
    hide Undoes, FindingsUp, FindingsDown, BackupsUp, BackupsDown, RecoveryRunsUp, RecoveryRunsDown;
    Compose(FindingsUp(), FindingsDown(), BackupsUp(), BackupsDown());
    Compose(FindingsUp() + BackupsUp(), BackupsDown() + FindingsDown(), RecoveryRunsUp(), RecoveryRunsDown());
  }

  // Revision 3c7e9a1d5b40.

  function SurveillanceUp(): seq<Op> {
    SourcesUp() + FetchReceiptsUp() + PublicationsUp() + RoutingEventsUp() + DigestsUp()
  }

  function SurveillanceDown(): seq<Op> {
    DigestsDown() + (RoutingEventsDown() + (PublicationsDown() + (FetchReceiptsDown() + SourcesDown())))
  }

  lemma SurveillanceUndone()
    ensures Undoes(SurveillanceDown(), SurveillanceUp())
  {
    SourcesUndone();
    FetchReceiptsUndone();
    PublicationsUndone();
    RoutingEventsUndone();
    DigestsUndone();
    hide Undoes, SourcesUp, SourcesDown, FetchReceiptsUp, FetchReceiptsDown, PublicationsUp, PublicationsDown,
      RoutingEventsUp, RoutingEventsDown, DigestsUp, DigestsDown;
    Compose(SourcesUp(), SourcesDown(), FetchReceiptsUp(), FetchReceiptsDown());
    Compose(SourcesUp() + FetchReceiptsUp(), FetchReceiptsDown() + SourcesDown(), PublicationsUp(),
      PublicationsDown());
    Compose(SourcesUp() + FetchReceiptsUp() + PublicationsUp(), PublicationsDown() + (FetchReceiptsDown() +
      SourcesDown()), RoutingEventsUp(), RoutingEventsDown());
    Compose(SourcesUp() + FetchReceiptsUp() + PublicationsUp() + RoutingEventsUp(), RoutingEventsDown() +
      (PublicationsDown() + (FetchReceiptsDown() + SourcesDown())), DigestsUp(), DigestsDown());
  }

  // Revision 4d8f1b2c6a70.

  function AppendUp(): seq<Op> {
    [CreateFunction(REJECT_SYNC_MUTATION),
     CreateTrigger("corpus_sync_runs_immutable", CorpusSyncRuns, REJECT_SYNC_MUTATION),
     CreateTrigger("corpus_sync_items_immutable", CorpusSyncItems, REJECT_SYNC_MUTATION)]
  }

  function AppendDown(): seq<Op> {
    [DropTrigger("corpus_sync_items_immutable", CorpusSyncItems),
     DropTrigger("corpus_sync_runs_immutable", CorpusSyncRuns),
     DropFunction(REJECT_SYNC_MUTATION)]
  }

  lemma AppendUndone()
    ensures Undoes(AppendDown(), AppendUp())
  {
    InversesUndo(AppendUp(), AppendDown());
  }

  function SyncLedgerUp(): seq<Op> {
    SyncRunsUp() + SyncItemsUp() + AppendUp()
  }

  function SyncLedgerDown(): seq<Op> {
    AppendDown() + (SyncItemsDown() + SyncRunsDown())
  }

  lemma SyncLedgerUndone()
    ensures Undoes(SyncLedgerDown(), SyncLedgerUp())
  {
    SyncRunsUndone();
    SyncItemsUndone();
    AppendUndone();
    hide Undoes, SyncRunsUp, SyncRunsDown, SyncItemsUp, SyncItemsDown, AppendUp, AppendDown;
    Compose(SyncRunsUp(), SyncRunsDown(), SyncItemsUp(), SyncItemsDown());
    Compose(SyncRunsUp() + SyncItemsUp(), SyncItemsDown() + SyncRunsDown(), AppendUp(), AppendDown());
  }

  // Revision 6e8a1c4d9b20.

  function EdgeColumns(): seq<Op> {
    [AddColumn(CanonicalEvidenceEdges, "valid_from", OPTIONAL),
     AddColumn(CanonicalEvidenceEdges, "valid_until", OPTIONAL),
     AddColumn(CanonicalEvidenceEdges, "provenance_object_id", OPTIONAL),
     AddColumn(CanonicalEvidenceEdges, "access_class", ColumnDef(false, Value("internal"))),
     AddColumn(CanonicalEvidenceEdges, "record_digest", OPTIONAL)]
  }

  function EdgeConstraints(): seq<Op> {
    [AddConstraint("fk_evidence_edge_provenance", CanonicalEvidenceEdges,
                   ForeignKey(["provenance_object_id"], CanonicalEvidenceObjects, ["id"])),
     AddConstraint("uq_evidence_edge_record_digest", CanonicalEvidenceEdges, Unique(["record_digest"]))]
  }

  function EdgeColumnsUp(): seq<Op> {
    EdgeColumns() + EdgeConstraints()
  }

  function EdgeColumnsDown(): seq<Op> {
    [DropConstraint("uq_evidence_edge_record_digest", CanonicalEvidenceEdges),
     DropConstraint("fk_evidence_edge_provenance", CanonicalEvidenceEdges),
     DropColumn(CanonicalEvidenceEdges, "record_digest"),
     DropColumn(CanonicalEvidenceEdges, "access_class"),
     DropColumn(CanonicalEvidenceEdges, "provenance_object_id"),
     DropColumn(CanonicalEvidenceEdges, "valid_until"),
     DropColumn(CanonicalEvidenceEdges, "valid_from")]
  }

  lemma EdgeColumnsUndone()
    ensures Undoes(EdgeColumnsDown(), EdgeColumnsUp())
  {
    InversesUndo(EdgeColumnsUp(), EdgeColumnsDown());
  }

  function KnowledgeGraphUp(): seq<Op> {
    EdgeColumnsUp() + GraphStatesUp() + GraphNodesUp() + GraphEdgesUp() + ToolReceiptsUp()
  }

  function KnowledgeGraphDown(): seq<Op> {
    ToolReceiptsDown() + (GraphEdgesDown() + (GraphNodesDown() + (GraphStatesDown() + EdgeColumnsDown())))
  }

  lemma KnowledgeGraphUndone()
    ensures Undoes(KnowledgeGraphDown(), KnowledgeGraphUp())
  {
    EdgeColumnsUndone();
    GraphStatesUndone();
    GraphNodesUndone();
    GraphEdgesUndone();
    ToolReceiptsUndone();
    hide Undoes, EdgeColumnsUp, EdgeColumnsDown, GraphStatesUp, GraphStatesDown, GraphNodesUp, GraphNodesDown,
      GraphEdgesUp, GraphEdgesDown, ToolReceiptsUp, ToolReceiptsDown;
    Compose(EdgeColumnsUp(), EdgeColumnsDown(), GraphStatesUp(), GraphStatesDown());
    Compose(EdgeColumnsUp() + GraphStatesUp(), GraphStatesDown() + EdgeColumnsDown(), GraphNodesUp(),
      GraphNodesDown());
    Compose(EdgeColumnsUp() + GraphStatesUp() + GraphNodesUp(), GraphNodesDown() + (GraphStatesDown() +
      EdgeColumnsDown()), GraphEdgesUp(), GraphEdgesDown());
    Compose(EdgeColumnsUp() + GraphStatesUp() + GraphNodesUp() + GraphEdgesUp(), GraphEdgesDown() +
      (GraphNodesDown() + (GraphStatesDown() + EdgeColumnsDown())), ToolReceiptsUp(), ToolReceiptsDown());
  }

  // Revision 8a2d5f7c1e40.

  function IngestionRecoveryUp(): seq<Op> {
    RecoveriesUp()
  }

  function IngestionRecoveryDown(): seq<Op> {
    RecoveriesDown()
  }

  lemma IngestionRecoveryUndone()
    ensures Undoes(IngestionRecoveryDown(), IngestionRecoveryUp())
  {
    RecoveriesUndone();
  }

  // Revision 9b3e6f8a2c10.

  function EdgeIndexesUp(): seq<Op> {
    [CreateIndex(Ix(CanonicalEvidenceEdges, SubjectId), CanonicalEvidenceEdges, ["subject_id"], false),
     CreateIndex(Ix(CanonicalEvidenceEdges, ObjectId), CanonicalEvidenceEdges, ["object_id"], false)]
  }

  function EdgeIndexesDown(): seq<Op> {
    [DropIndex(Ix(CanonicalEvidenceEdges, ObjectId), CanonicalEvidenceEdges),
     DropIndex(Ix(CanonicalEvidenceEdges, SubjectId), CanonicalEvidenceEdges)]
  }

  lemma EdgeIndexesUndone()
    ensures Undoes(EdgeIndexesDown(), EdgeIndexesUp())
  {
    InversesUndo(EdgeIndexesUp(), EdgeIndexesDown());
  }

  // Revision 5ab642aedfa6.

  function AgentRuntimeUp(): seq<Op> {
    [AddColumn(Agents, "runtime", OPTIONAL), AddColumn(Agents, "runtime_version", OPTIONAL)]
  }

  function AgentRuntimeDown(): seq<Op> {
    [DropColumn(Agents, "runtime_version"), DropColumn(Agents, "runtime")]
  }

  lemma AgentRuntimeUndone()
    ensures Undoes(AgentRuntimeDown(), AgentRuntimeUp())
  {
    InversesUndo(AgentRuntimeUp(), AgentRuntimeDown());
  }

  function AgentHeartbeatsUp(): seq<Op> {
    [AddColumn(Agents, "heartbeat_metadata", EMPTY_OBJECT), AlterDefault(Agents, "heartbeat_metadata", NoDefault)]
  }

  function AgentHeartbeatsDown(): seq<Op> {
    [DropColumn(Agents, "heartbeat_metadata")]
  }

  lemma AgentHeartbeatsUndone()
    ensures Undoes(AgentHeartbeatsDown(), AgentHeartbeatsUp())
  {
    AlteredColumnUndoes(Agents, "heartbeat_metadata", EMPTY_OBJECT, NoDefault);
  }

  function AgentEnabledUp(): seq<Op> {
    [AddColumn(Agents, "is_enabled", ColumnDef(false, Value("true"))),
     CreateIndex(Ix(Agents, IsEnabled), Agents, ["is_enabled"], false)]
  }

  function AgentEnabledDown(): seq<Op> {
    [DropIndex(Ix(Agents, IsEnabled), Agents), DropColumn(Agents, "is_enabled")]
  }

  lemma AgentEnabledUndone()
    ensures Undoes(AgentEnabledDown(), AgentEnabledUp())
  {
    InversesUndo(AgentEnabledUp(), AgentEnabledDown());
  }

  function AgentHeartbeatUp(): seq<Op> {
    CredentialsUp() + AgentRuntimeUp() + AgentHeartbeatsUp() + AgentEnabledUp()
  }

  function AgentHeartbeatDown(): seq<Op> {
    AgentEnabledDown() + (AgentHeartbeatsDown() + (AgentRuntimeDown() + CredentialsDown()))
  }

  lemma AgentHeartbeatUndone()
    ensures Undoes(AgentHeartbeatDown(), AgentHeartbeatUp())
  {
    CredentialsUndone();
    AgentRuntimeUndone();
    AgentHeartbeatsUndone();
    AgentEnabledUndone();
    hide Undoes, CredentialsUp, CredentialsDown, AgentRuntimeUp, AgentRuntimeDown, AgentHeartbeatsUp,
      AgentHeartbeatsDown, AgentEnabledUp, AgentEnabledDown;
    Compose(CredentialsUp(), CredentialsDown(), AgentRuntimeUp(), AgentRuntimeDown());
    Compose(CredentialsUp() + AgentRuntimeUp(), AgentRuntimeDown() + CredentialsDown(), AgentHeartbeatsUp(),
      AgentHeartbeatsDown());
    Compose(CredentialsUp() + AgentRuntimeUp() + AgentHeartbeatsUp(), AgentHeartbeatsDown() + (AgentRuntimeDown() +
      CredentialsDown()), AgentEnabledUp(), AgentEnabledDown());
  }

  // Revision 8f4d2c1b7a90.

  function TaskColumns(): seq<Op> {
    [AddColumn(Tasks, "required_capabilities", EMPTY_LIST),
     AddColumn(Tasks, "allowed_machines", EMPTY_LIST),
     AddColumn(Tasks, "max_attempts", ColumnDef(false, Value("3"))),
     AddColumn(Tasks, "leased_at", OPTIONAL),
     AddColumn(Tasks, "lease_token_prefix", OPTIONAL),
     AddColumn(Tasks, "lease_token_digest", OPTIONAL),
     AddColumn(Tasks, "last_execution_heartbeat_at", OPTIONAL),
     AddColumn(Tasks, "result", EMPTY_OBJECT),
     AddColumn(Tasks, "failure", EMPTY_OBJECT),
     AddColumn(Tasks, "updated_at", STAMPED)]
  }

  function TaskObjects(): seq<Op> {
    [AddColumn(TaskEvents, "attempt_number", ColumnDef(false, Value("0"))),
     CreateIndex(Ix(Tasks, LeaseExpiresAt), Tasks, ["lease_expires_at"], false),
     CreateIndex(Ix(Tasks, LeaseTokenPrefix), Tasks, ["lease_token_prefix"], false),
     CreateIndex(Ix(Tasks, QueueSelection), Tasks, ["status", "priority", "created_at"], false),
     CreateFunction(PREVENT_EVENT_MUTATION),
     CreateTrigger("task_events_append_only", TaskEvents, PREVENT_EVENT_MUTATION)]
  }

  function TaskLifecycleUp(): seq<Op> {
    TaskColumns() + TaskObjects()
  }

  function TaskObjectsDown(): seq<Op> {
    [DropTrigger("task_events_append_only", TaskEvents),
     DropFunction(PREVENT_EVENT_MUTATION),
     DropIndex(Ix(Tasks, QueueSelection), Tasks),
     DropIndex(Ix(Tasks, LeaseTokenPrefix), Tasks),
     DropIndex(Ix(Tasks, LeaseExpiresAt), Tasks),
     DropColumn(TaskEvents, "attempt_number")]
  }

  function TaskColumnsDown(): seq<Op> {
    [DropColumn(Tasks, "updated_at"),
     DropColumn(Tasks, "failure"),
     DropColumn(Tasks, "result"),
     DropColumn(Tasks, "last_execution_heartbeat_at"),
     DropColumn(Tasks, "lease_token_digest"),
     DropColumn(Tasks, "lease_token_prefix"),
     DropColumn(Tasks, "leased_at"),
     DropColumn(Tasks, "max_attempts"),
     DropColumn(Tasks, "allowed_machines"),
     DropColumn(Tasks, "required_capabilities")]
  }

  function TaskLifecycleDown(): seq<Op> {
    TaskObjectsDown() + TaskColumnsDown()
  }

  lemma TaskLifecycleUndone()
    ensures Undoes(TaskLifecycleDown(), TaskLifecycleUp())
  {
    InversesUndo(TaskColumns(), TaskColumnsDown());
    InversesUndo(TaskObjects(), TaskObjectsDown());
    hide Undoes, TaskColumns, TaskObjects, TaskColumnsDown, TaskObjectsDown;
    Compose(TaskColumns(), TaskColumnsDown(), TaskObjects(), TaskObjectsDown());
  }

  /** From 0a3c6e85bd20 to 9b3e6f8a2c10. */
  function CorpusChain(): seq<Revision> {
    [Revision(CorpusOperationsUp(), CorpusOperationsDown()),
     Revision(SurveillanceUp(), SurveillanceDown()),
     Revision(SyncLedgerUp(), SyncLedgerDown()),
     Revision(KnowledgeGraphUp(), KnowledgeGraphDown()),
     Revision(IngestionRecoveryUp(), IngestionRecoveryDown()),
     Revision(EdgeIndexesUp(), EdgeIndexesDown())]
  }

  lemma CorpusChainReversible()
    ensures Reversible(CorpusChain())
  {
    CorpusOperationsUndone();
    SurveillanceUndone();
    SyncLedgerUndone();
    KnowledgeGraphUndone();
    IngestionRecoveryUndone();
    EdgeIndexesUndone();
    hide Undoes, CorpusOperationsUp, CorpusOperationsDown, SurveillanceUp, SurveillanceDown, SyncLedgerUp,
      SyncLedgerDown, KnowledgeGraphUp, KnowledgeGraphDown, IngestionRecoveryUp, IngestionRecoveryDown,
      EdgeIndexesUp, EdgeIndexesDown;
  }

  /** From 5ab642aedfa6 to 8f4d2c1b7a90. */
  function TaskChain(): seq<Revision> {
    [Revision(AgentHeartbeatUp(), AgentHeartbeatDown()),
     Revision(TaskLifecycleUp(), TaskLifecycleDown())]
  }

  lemma TaskChainReversible()
    ensures Reversible(TaskChain())
  {
    AgentHeartbeatUndone();
    TaskLifecycleUndone();
    hide Undoes, AgentHeartbeatUp, AgentHeartbeatDown, TaskLifecycleUp, TaskLifecycleDown;
  }

  /** All upgrades of a chain and then all downgrades in reverse: every statement of the
      downgrades is accepted, so no referenced table and no function in use is dropped,
      and the schema is the starting one. */
  method RoundTrips(database: Database, corpus: bool) returns (upgraded: bool, restored: bool)
    requires WellFormed(database.schema)
    modifies database
    ensures upgraded <==> Run(old(database.schema), Ups(if corpus then CorpusChain() else TaskChain())).Some?
    ensures upgraded ==> restored
    ensures database.schema == old(database.schema)
  {
    hide WellFormed, Run, Reversible, CorpusChain, TaskChain;
    CorpusChainReversible();
    TaskChainReversible();
    upgraded, restored := database.UpgradeAndDowngrade(if corpus then CorpusChain() else TaskChain());
  }
}
