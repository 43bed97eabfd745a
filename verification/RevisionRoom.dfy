/** When the chains are accepted: on every schema that has the tables they build on and
    room for the tables, columns, indexes, functions and triggers they add. */
module RevisionRoom {
  import opened Prelude
  import opened Schema
  import opened Migrations
  import opened RevisionTables
  import opened Revisions

  lemma CorpusOperationsAccepted(s: Schema) returns (after: Schema)
    requires HasId(s, ScientificIngestionJobs)
    requires Vacant(s, CorpusSecurityFindings) && Vacant(s, CorpusBackups) && Vacant(s, CorpusRecoveryRuns)
    ensures Run(s, CorpusOperationsUp()) == Some(after)
    ensures Grown(s, after, {CorpusSecurityFindings, CorpusBackups, CorpusRecoveryRuns}, {})
  {
    hide Run, Vacant, HasId, FindingsUp, BackupsUp, RecoveryRunsUp;
    var s1 := FindingsAccepted(s);
    VacantAfter(s, s1, {CorpusSecurityFindings}, {}, CorpusBackups);
    VacantAfter(s, s1, {CorpusSecurityFindings}, {}, CorpusRecoveryRuns);
    var s2 := BackupsAccepted(s1);
    VacantAfter(s1, s2, {CorpusBackups}, {}, CorpusRecoveryRuns);
    AcceptedThen(s, FindingsUp(), s1, BackupsUp(), s2, {CorpusSecurityFindings}, {CorpusBackups},
      {CorpusSecurityFindings, CorpusBackups}, {}, {}, {});
    after := RecoveryRunsAccepted(s2);
    AcceptedThen(s, FindingsUp() + BackupsUp(), s2, RecoveryRunsUp(), after, {CorpusSecurityFindings,
      CorpusBackups}, {CorpusRecoveryRuns}, {CorpusSecurityFindings, CorpusBackups, CorpusRecoveryRuns}, {}, {}, {});
  }

  lemma SurveillanceAccepted(s: Schema) returns (after: Schema)
    requires Vacant(s, SurveillanceSources) && Vacant(s, SurveillanceFetchReceipts) && Vacant(s,
      SurveillancePublications)
    requires Vacant(s, SurveillanceRoutingEvents) && Vacant(s, SurveillanceDigests)
    ensures Run(s, SurveillanceUp()) == Some(after)
    ensures Grown(s, after, {SurveillanceSources, SurveillanceFetchReceipts, SurveillancePublications,
      SurveillanceRoutingEvents, SurveillanceDigests}, {})
  {
    hide Run, Vacant, HasId, SourcesUp, FetchReceiptsUp, PublicationsUp, RoutingEventsUp, DigestsUp;
    var s1 := SourcesAccepted(s);
    VacantAfter(s, s1, {SurveillanceSources}, {}, SurveillanceFetchReceipts);
    VacantAfter(s, s1, {SurveillanceSources}, {}, SurveillancePublications);
    VacantAfter(s, s1, {SurveillanceSources}, {}, SurveillanceRoutingEvents);
    VacantAfter(s, s1, {SurveillanceSources}, {}, SurveillanceDigests);
    var s2 := FetchReceiptsAccepted(s1);
    VacantAfter(s1, s2, {SurveillanceFetchReceipts}, {}, SurveillancePublications);
    VacantAfter(s1, s2, {SurveillanceFetchReceipts}, {}, SurveillanceRoutingEvents);
    VacantAfter(s1, s2, {SurveillanceFetchReceipts}, {}, SurveillanceDigests);
    AcceptedThen(s, SourcesUp(), s1, FetchReceiptsUp(), s2, {SurveillanceSources}, {SurveillanceFetchReceipts},
      {SurveillanceSources, SurveillanceFetchReceipts}, {}, {}, {});
    var s3 := PublicationsAccepted(s2);
    VacantAfter(s2, s3, {SurveillancePublications}, {}, SurveillanceRoutingEvents);
    VacantAfter(s2, s3, {SurveillancePublications}, {}, SurveillanceDigests);
    AcceptedThen(s, SourcesUp() + FetchReceiptsUp(), s2, PublicationsUp(), s3, {SurveillanceSources,
      SurveillanceFetchReceipts}, {SurveillancePublications}, {SurveillanceSources, SurveillanceFetchReceipts,
      SurveillancePublications}, {}, {}, {});
    var s4 := RoutingEventsAccepted(s3);
    VacantAfter(s3, s4, {SurveillanceRoutingEvents}, {}, SurveillanceDigests);
    AcceptedThen(s, SourcesUp() + FetchReceiptsUp() + PublicationsUp(), s3, RoutingEventsUp(), s4,
      {SurveillanceSources, SurveillanceFetchReceipts, SurveillancePublications}, {SurveillanceRoutingEvents},
      {SurveillanceSources, SurveillanceFetchReceipts, SurveillancePublications, SurveillanceRoutingEvents}, {}, {},
      {});
    after := DigestsAccepted(s4);
    AcceptedThen(s, SourcesUp() + FetchReceiptsUp() + PublicationsUp() + RoutingEventsUp(), s4, DigestsUp(), after,
      {SurveillanceSources, SurveillanceFetchReceipts, SurveillancePublications, SurveillanceRoutingEvents},
      {SurveillanceDigests}, {SurveillanceSources, SurveillanceFetchReceipts, SurveillancePublications,
      SurveillanceRoutingEvents, SurveillanceDigests}, {}, {}, {});
  }

  lemma SyncTablesAccepted(s: Schema) returns (after: Schema)
    requires HasId(s, ScientificIngestionJobs)
    requires Vacant(s, CorpusSyncRuns) && Vacant(s, CorpusSyncItems)
    ensures Run(s, SyncRunsUp() + SyncItemsUp()) == Some(after)
    ensures Grown(s, after, {CorpusSyncRuns, CorpusSyncItems}, {})
    ensures forall t :: t in {CorpusSyncRuns, CorpusSyncItems} ==>
      t in after.tables && after.tables[t].triggers == map[]
  {
    hide Run, Vacant, HasId, SyncRunsUp, SyncItemsUp;
    var s1 := SyncRunsAccepted(s);
    VacantAfter(s, s1, {CorpusSyncRuns}, {}, CorpusSyncItems);
    after := SyncItemsAccepted(s1);
    AcceptedThen(s, SyncRunsUp(), s1, SyncItemsUp(), after, {CorpusSyncRuns}, {CorpusSyncItems}, {CorpusSyncRuns,
      CorpusSyncItems}, {}, {}, {});
  }

  lemma GraphTablesAccepted(s: Schema) returns (after: Schema)
    requires HasId(s, CanonicalEvidenceObjects) && HasId(s, CanonicalEvidenceEdges)
    requires Vacant(s, GraphProjectionStates) && Vacant(s, GraphProjectionNodes) && Vacant(s, GraphProjectionEdges)
    requires Vacant(s, CognitiveToolReceipts)
    ensures Run(s, GraphStatesUp() + GraphNodesUp() + GraphEdgesUp() + ToolReceiptsUp()) == Some(after)
    ensures Grown(s, after, {GraphProjectionStates, GraphProjectionNodes, GraphProjectionEdges,
      CognitiveToolReceipts}, {})
  {
    hide Run, Vacant, HasId, GraphStatesUp, GraphNodesUp, GraphEdgesUp, ToolReceiptsUp;
    var s1 := GraphStatesAccepted(s);
    VacantAfter(s, s1, {GraphProjectionStates}, {}, GraphProjectionNodes);
    VacantAfter(s, s1, {GraphProjectionStates}, {}, GraphProjectionEdges);
    VacantAfter(s, s1, {GraphProjectionStates}, {}, CognitiveToolReceipts);
    var s2 := GraphNodesAccepted(s1);
    VacantAfter(s1, s2, {GraphProjectionNodes}, {}, GraphProjectionEdges);
    VacantAfter(s1, s2, {GraphProjectionNodes}, {}, CognitiveToolReceipts);
    AcceptedThen(s, GraphStatesUp(), s1, GraphNodesUp(), s2, {GraphProjectionStates}, {GraphProjectionNodes},
      {GraphProjectionStates, GraphProjectionNodes}, {}, {}, {});
    var s3 := GraphEdgesAccepted(s2);
    VacantAfter(s2, s3, {GraphProjectionEdges}, {}, CognitiveToolReceipts);
    AcceptedThen(s, GraphStatesUp() + GraphNodesUp(), s2, GraphEdgesUp(), s3, {GraphProjectionStates,
      GraphProjectionNodes}, {GraphProjectionEdges}, {GraphProjectionStates, GraphProjectionNodes,
      GraphProjectionEdges}, {}, {}, {});
    after := ToolReceiptsAccepted(s3);
    AcceptedThen(s, GraphStatesUp() + GraphNodesUp() + GraphEdgesUp(), s3, ToolReceiptsUp(), after,
      {GraphProjectionStates, GraphProjectionNodes, GraphProjectionEdges}, {CognitiveToolReceipts},
      {GraphProjectionStates, GraphProjectionNodes, GraphProjectionEdges, CognitiveToolReceipts}, {}, {}, {});
  }

  lemma AppendAccepted(s: Schema) returns (after: Schema)
    requires REJECT_SYNC_MUTATION !in s.functions
    requires forall t :: t in {CorpusSyncRuns, CorpusSyncItems} ==> t in s.tables && s.tables[t].triggers == map[]
    ensures Run(s, AppendUp()) == Some(after)
    ensures Grown(s, after, {CorpusSyncRuns, CorpusSyncItems}, {REJECT_SYNC_MUTATION})
  {
    hide Run, OwnStem, HasId;
    assert CorpusSyncRuns in {CorpusSyncRuns, CorpusSyncItems} && CorpusSyncItems in {CorpusSyncRuns,
      CorpusSyncItems};
    var f, r, i := AppendUp()[0], AppendUp()[1], AppendUp()[2];
    var a := OneAccepted(s, f);
    FunctionGrown(s, REJECT_SYNC_MUTATION);
    var b := OneAccepted(a, r);
    PutGrown(a, CorpusSyncRuns, b.tables[CorpusSyncRuns]);
    AcceptedThen(s, [f], a, [r], b, {}, {CorpusSyncRuns}, {CorpusSyncRuns}, {REJECT_SYNC_MUTATION}, {},
      {REJECT_SYNC_MUTATION});
    after := OneAccepted(b, i);
    PutGrown(b, CorpusSyncItems, after.tables[CorpusSyncItems]);
    AcceptedThen(s, [f] + [r], b, [i], after, {CorpusSyncRuns}, {CorpusSyncItems}, {CorpusSyncRuns, CorpusSyncItems},
                 {REJECT_SYNC_MUTATION}, {}, {REJECT_SYNC_MUTATION});
    assert [f] + [r] + [i] == AppendUp();
  }

  lemma FunctionGrown(s: Schema, f: string)
    ensures Grown(s, s.(functions := s.functions + {f}), {}, {f})
  {
  }

  lemma SyncLedgerAccepted(s: Schema) returns (after: Schema)
    requires HasId(s, ScientificIngestionJobs) && Vacant(s, CorpusSyncRuns) && Vacant(s, CorpusSyncItems)
    requires REJECT_SYNC_MUTATION !in s.functions
    ensures Run(s, SyncLedgerUp()) == Some(after)
    ensures Grown(s, after, {CorpusSyncRuns, CorpusSyncItems}, {REJECT_SYNC_MUTATION})
  {
    hide Run, Vacant, HasId, OwnStem, SyncRunsUp, SyncItemsUp, AppendUp;
    var a := SyncTablesAccepted(s);
    after := AppendAccepted(a);
    AcceptedThen(s, SyncRunsUp() + SyncItemsUp(), a, AppendUp(), after,
                 {CorpusSyncRuns, CorpusSyncItems}, {CorpusSyncRuns, CorpusSyncItems}, {CorpusSyncRuns,
                   CorpusSyncItems},
                 {}, {REJECT_SYNC_MUTATION}, {REJECT_SYNC_MUTATION});
  }

  const EDGE_COLUMNS: set<Column> := {"valid_from", "valid_until", "provenance_object_id", "access_class",
    "record_digest"}

  /** Room in the edges table for the columns and constraints of 6e8a1c4d9b20. */
  predicate EdgeRoom(s: Schema) {
    && HasId(s, CanonicalEvidenceEdges)
    && (forall c :: c in EDGE_COLUMNS ==> c !in s.tables[CanonicalEvidenceEdges].columns)
    && "fk_evidence_edge_provenance" !in s.tables[CanonicalEvidenceEdges].named
    && "uq_evidence_edge_record_digest" !in s.tables[CanonicalEvidenceEdges].named
  }

  /** The edges table afterwards: still referenced by id, its indexes as before. */
  ghost predicate EdgesKept(s: Schema, after: Schema) {
    && HasId(after, CanonicalEvidenceEdges) && CanonicalEvidenceEdges in s.tables
    && after.tables[CanonicalEvidenceEdges].indexes == s.tables[CanonicalEvidenceEdges].indexes
    && s.tables[CanonicalEvidenceEdges].columns.Keys <= after.tables[CanonicalEvidenceEdges].columns.Keys
  }

  lemma EdgeColumnsNew(s: Schema)
    requires EdgeRoom(s)
    ensures NewColumns(s, CanonicalEvidenceEdges, EdgeColumns())
  {
  }

  lemma WidenedGrown(s: Schema, after: Schema, t: Table)
    requires Widened(s, after, t)
    ensures Grown(s, after, {t}, {}) && (HasId(s, t) ==> HasId(after, t))
  {
    PutGrown(s, t, after.tables[t]);
  }

  lemma EdgeColumnsAccepted(s: Schema) returns (after: Schema)
    requires EdgeRoom(s) && HasId(s, CanonicalEvidenceObjects)
    ensures Run(s, EdgeColumnsUp()) == Some(after)
    ensures Grown(s, after, {CanonicalEvidenceEdges}, {}) && EdgesKept(s, after)
  {
    EdgeColumnsNew(s);
    var a := ColumnsAccepted(s, CanonicalEvidenceEdges, EdgeColumns());
    assert EdgeColumns()[2].column == "provenance_object_id" && EdgeColumns()[4].column == "record_digest";
    WidenedGrown(s, a, CanonicalEvidenceEdges);
    hide Run, OwnStem, NewColumns, EdgeColumns;
    after := EdgeConstraintsAccepted(a);
    AcceptedThen(s, EdgeColumns(), a, EdgeConstraints(), after, {CanonicalEvidenceEdges}, {CanonicalEvidenceEdges},
                 {CanonicalEvidenceEdges}, {}, {}, {});
  }

  lemma EdgeConstraintsAccepted(s: Schema) returns (after: Schema)
    requires HasId(s, CanonicalEvidenceObjects) && HasId(s, CanonicalEvidenceEdges)
    requires "provenance_object_id" in s.tables[CanonicalEvidenceEdges].columns &&
      "record_digest" in s.tables[CanonicalEvidenceEdges].columns
    requires "fk_evidence_edge_provenance" !in s.tables[CanonicalEvidenceEdges].named
    requires "uq_evidence_edge_record_digest" !in s.tables[CanonicalEvidenceEdges].named
    ensures Run(s, EdgeConstraints()) == Some(after)
    ensures Grown(s, after, {CanonicalEvidenceEdges}, {}) && EdgesKept(s, after)
  {
    hide Run, OwnStem;
    var fk, uq := EdgeConstraints()[0], EdgeConstraints()[1];
    var a := OneAccepted(s, fk);
    AddedName(s.tables[CanonicalEvidenceEdges], fk.name, fk.constraint);
    PutGrown(s, CanonicalEvidenceEdges, a.tables[CanonicalEvidenceEdges]);
    assert "fk_evidence_edge_provenance"[0] != "uq_evidence_edge_record_digest"[0];
    after := OneAccepted(a, uq);
    AddedName(a.tables[CanonicalEvidenceEdges], uq.name, uq.constraint);
    PutGrown(a, CanonicalEvidenceEdges, after.tables[CanonicalEvidenceEdges]);
    AcceptedThen(s, [fk], a, [uq], after, {CanonicalEvidenceEdges}, {CanonicalEvidenceEdges},
      {CanonicalEvidenceEdges}, {}, {}, {});
    assert [fk] + [uq] == EdgeConstraints();
  }

  lemma KnowledgeGraphAccepted(s: Schema) returns (after: Schema)
    requires EdgeRoom(s) && HasId(s, CanonicalEvidenceObjects)
    requires Vacant(s, GraphProjectionStates) && Vacant(s, GraphProjectionNodes)
    requires Vacant(s, GraphProjectionEdges) && Vacant(s, CognitiveToolReceipts)
    ensures Run(s, KnowledgeGraphUp()) == Some(after)
    ensures Grown(s, after, {CanonicalEvidenceEdges, GraphProjectionStates, GraphProjectionNodes,
      GraphProjectionEdges, CognitiveToolReceipts}, {})
    ensures EdgesKept(s, after)
  {
    hide Run, Vacant, OwnStem, EdgeColumnsUp, GraphStatesUp, GraphNodesUp, GraphEdgesUp, ToolReceiptsUp;
    var a := EdgeColumnsAccepted(s);
    VacantAfter(s, a, {CanonicalEvidenceEdges}, {}, GraphProjectionStates);
    VacantAfter(s, a, {CanonicalEvidenceEdges}, {}, GraphProjectionNodes);
    VacantAfter(s, a, {CanonicalEvidenceEdges}, {}, GraphProjectionEdges);
    VacantAfter(s, a, {CanonicalEvidenceEdges}, {}, CognitiveToolReceipts);
    after := GraphTablesAccepted(a);
    AcceptedThen(s, EdgeColumnsUp(), a, GraphStatesUp() + GraphNodesUp() + GraphEdgesUp() + ToolReceiptsUp(), after,
                 {CanonicalEvidenceEdges},
                 {GraphProjectionStates, GraphProjectionNodes, GraphProjectionEdges, CognitiveToolReceipts},
                 {CanonicalEvidenceEdges, GraphProjectionStates, GraphProjectionNodes, GraphProjectionEdges,
                   CognitiveToolReceipts},
                 {}, {}, {});
    assert EdgeColumnsUp() + (GraphStatesUp() + GraphNodesUp() + GraphEdgesUp() +
      ToolReceiptsUp()) == KnowledgeGraphUp();
  }

  /** Room for the two endpoint indexes of 9b3e6f8a2c10. */
  ghost predicate EndpointRoom(s: Schema) {
    && CanonicalEvidenceEdges in s.tables && OwnStem(s, CanonicalEvidenceEdges)
    && "subject_id" in s.tables[CanonicalEvidenceEdges].columns &&
      "object_id" in s.tables[CanonicalEvidenceEdges].columns
    && Ix(CanonicalEvidenceEdges, SubjectId) !in s.tables[CanonicalEvidenceEdges].indexes
    && Ix(CanonicalEvidenceEdges, ObjectId) !in s.tables[CanonicalEvidenceEdges].indexes
  }

  lemma EdgeIndexesAccepted(s: Schema) returns (after: Schema)
    requires EndpointRoom(s)
    ensures Run(s, EdgeIndexesUp()) == Some(after)
  {
    hide Run;
    var i, j := EdgeIndexesUp()[0], EdgeIndexesUp()[1];
    var a := OneAccepted(s, i);
    after := OneAccepted(a, j);
    RunConcat(s, [i], [j]);
    assert [i] + [j] == EdgeIndexesUp();
  }

  /** Everything the first chain builds on, and room for everything it adds. */
  ghost predicate CorpusRoom(s: Schema) {
    && HasId(s, ScientificIngestionJobs) && HasId(s, CanonicalEvidenceObjects)
    && EdgeRoom(s) && EndpointRoom(s) && REJECT_SYNC_MUTATION !in s.functions
    && (forall t :: t in CORPUS_TABLES ==> Vacant(s, t))
  }

  const CORPUS_TABLES: set<Table> := {
    CorpusSecurityFindings, CorpusBackups, CorpusRecoveryRuns,
    SurveillanceSources, SurveillanceFetchReceipts, SurveillancePublications, SurveillanceRoutingEvents,
      SurveillanceDigests,
    CorpusSyncRuns, CorpusSyncItems,
    GraphProjectionStates, GraphProjectionNodes, GraphProjectionEdges, CognitiveToolReceipts,
    ScientificIngestionRecoveries
  }

  const SURVEILLANCE_TABLES: set<Table> := {
    SurveillanceSources, SurveillanceFetchReceipts, SurveillancePublications, SurveillanceRoutingEvents,
      SurveillanceDigests
  }

  const GRAPH_TABLES: set<Table> := {GraphProjectionStates, GraphProjectionNodes, GraphProjectionEdges,
    CognitiveToolReceipts}

  /** What the later revisions of the chain need: the tables they reference and room for
      those still to come. */
  ghost predicate Left(s: Schema, tables: set<Table>) {
    && HasId(s, ScientificIngestionJobs) && HasId(s, CanonicalEvidenceObjects) && EndpointRoom(s)
    && (forall t :: t in tables ==> Vacant(s, t))
  }

  lemma LeftAfter(s: Schema, after: Schema, added: set<Table>, functions: set<string>, before: set<Table>,
    left: set<Table>)
    requires Grown(s, after, added, functions) && Left(s, before) && left <= before && added !! left
    requires added !! {ScientificIngestionJobs, CanonicalEvidenceObjects, CanonicalEvidenceEdges}
    ensures Left(after, left) && (EdgeRoom(s) ==> EdgeRoom(after))
  {
    hide OwnStem;
    var kept := {ScientificIngestionJobs, CanonicalEvidenceObjects, CanonicalEvidenceEdges};
    assert forall t :: t in kept ==> t !in added;
    assert ScientificIngestionJobs in kept && CanonicalEvidenceObjects in kept && CanonicalEvidenceEdges in kept;
  }

  lemma EndpointsLeft(s: Schema, after: Schema)
    requires EndpointRoom(s) && EdgesKept(s, after) && (OwnStem(s, CanonicalEvidenceEdges) ==>
      OwnStem(after, CanonicalEvidenceEdges))
    ensures EndpointRoom(after)
  {
    hide OwnStem;
  }

  const FIRST: set<Table> := {CorpusSecurityFindings, CorpusBackups, CorpusRecoveryRuns}

  const AFTER_FIRST: set<Table> := SURVEILLANCE_TABLES + AFTER_SURVEILLANCE

  const AFTER_SURVEILLANCE: set<Table> := {CorpusSyncRuns, CorpusSyncItems} + AFTER_LEDGER

  const AFTER_LEDGER: set<Table> := GRAPH_TABLES + {ScientificIngestionRecoveries}

  lemma FirstTwo(s: Schema) returns (a: Schema, b: Schema)
    requires CorpusRoom(s)
    ensures Run(s, CorpusOperationsUp()) == Some(a) && Run(a, SurveillanceUp()) == Some(b)
    ensures Left(b, AFTER_SURVEILLANCE) && EdgeRoom(b) && b.functions == s.functions
  {
    hide Run, Vacant, HasId, EdgeRoom, EndpointRoom, OwnStem, CorpusOperationsUp, SurveillanceUp;
    a := CorpusOperationsAccepted(s);
    LeftAfter(s, a, FIRST, {}, CORPUS_TABLES, AFTER_FIRST);
    b := SurveillanceAccepted(a);
    LeftAfter(a, b, SURVEILLANCE_TABLES, {}, AFTER_FIRST, AFTER_SURVEILLANCE);
  }

  lemma NextTwo(b: Schema) returns (c: Schema, d: Schema)
    requires Left(b, AFTER_SURVEILLANCE) && EdgeRoom(b) && REJECT_SYNC_MUTATION !in b.functions
    ensures Run(b, SyncLedgerUp()) == Some(c) && Run(c, KnowledgeGraphUp()) == Some(d)
    ensures HasId(d, ScientificIngestionJobs) && Vacant(d, ScientificIngestionRecoveries) && EndpointRoom(d)
  {
    hide Run, Vacant, HasId, EdgeRoom, EndpointRoom, OwnStem, SyncLedgerUp, KnowledgeGraphUp, EdgesKept;
    c := SyncLedgerAccepted(b);
    LeftAfter(b, c, {CorpusSyncRuns, CorpusSyncItems}, {REJECT_SYNC_MUTATION}, AFTER_SURVEILLANCE, AFTER_LEDGER);
    d := KnowledgeGraphAccepted(c);
    VacantAfter(c, d, {CanonicalEvidenceEdges} + GRAPH_TABLES, {}, ScientificIngestionRecoveries);
    EndpointsLeft(c, d);
  }

  lemma LastTwo(d: Schema) returns (e: Schema, f: Schema)
    requires HasId(d, ScientificIngestionJobs) && Vacant(d, ScientificIngestionRecoveries) && EndpointRoom(d)
    ensures Run(d, RecoveriesUp()) == Some(e) && Run(e, EdgeIndexesUp()) == Some(f)
  {
    hide Run, Vacant, HasId, OwnStem, RecoveriesUp, EdgeIndexesUp;
    e := RecoveriesAccepted(d);
    f := EdgeIndexesAccepted(e);
  }

  /** The first chain is accepted wherever there is room for it. */
  lemma CorpusChainAccepted(s: Schema)
    requires CorpusRoom(s)
    ensures Run(s, Ups(CorpusChain())).Some?
  {
    hide Run, Left, EdgeRoom, EndpointRoom, HasId, Vacant, CorpusChain;
    var a, b := FirstTwo(s);
    var c, d := NextTwo(b);
    var e, f := LastTwo(d);
    CorpusChainRuns(s, a, b, c, d, e, f);
  }

  lemma CorpusChainRuns(s: Schema, a: Schema, b: Schema, c: Schema, d: Schema, e: Schema, f: Schema)
    requires Run(s, CorpusOperationsUp()) == Some(a) && Run(a, SurveillanceUp()) == Some(b) && Run(b,
      SyncLedgerUp()) == Some(c)
    requires Run(c, KnowledgeGraphUp()) == Some(d) && Run(d, RecoveriesUp()) == Some(e) && Run(e,
      EdgeIndexesUp()) == Some(f)
    ensures Run(s, Ups(CorpusChain())) == Some(f)
  {
    hide Run, CorpusOperationsUp, SurveillanceUp, SyncLedgerUp, KnowledgeGraphUp, EdgeIndexesUp, RecoveriesUp,
      CorpusOperationsDown, SurveillanceDown, SyncLedgerDown, KnowledgeGraphDown, IngestionRecoveryDown,
        EdgeIndexesDown;
    var chain := CorpusChain();
    CorpusUps();
    hide CorpusChain, Ups;
    NothingRuns(s, chain);
    UpsStep(s, chain, 0, s, a);
    UpsStep(s, chain, 1, a, b);
    UpsStep(s, chain, 2, b, c);
    UpsStep(s, chain, 3, c, d);
    UpsStep(s, chain, 4, d, e);
    UpsStep(s, chain, 5, e, f);
    assert chain[..6] == chain;
  }

  lemma CorpusUps()
    ensures var chain := CorpusChain();
            && |chain| == 6
            && chain[0].up == CorpusOperationsUp() && chain[1].up == SurveillanceUp() && chain[2].up == SyncLedgerUp()
            && chain[3].up == KnowledgeGraphUp() && chain[4].up == RecoveriesUp() && chain[5].up == EdgeIndexesUp()
  {
    hide CorpusOperationsUp, SurveillanceUp, SyncLedgerUp, KnowledgeGraphUp, EdgeIndexesUp, RecoveriesUp,
      CorpusOperationsDown, SurveillanceDown, SyncLedgerDown, KnowledgeGraphDown, IngestionRecoveryDown,
        EdgeIndexesDown;
  }

  lemma NothingRuns(s: Schema, chain: seq<Revision>)
    ensures Run(s, Ups(chain[..0])) == Some(s)
  {
  }

  lemma UpsStep(s: Schema, chain: seq<Revision>, i: nat, before: Schema, after: Schema)
    requires i < |chain| && Run(s, Ups(chain[..i])) == Some(before) && Run(before, chain[i].up) == Some(after)
    ensures Run(s, Ups(chain[..i + 1])) == Some(after)
  {
    hide Run;
    assert chain[..i + 1][..i] == chain[..i];
    RunConcat(s, Ups(chain[..i]), chain[i].up);
  }

  // The second chain.

  const AGENT_COLUMNS: set<Column> := {"runtime", "runtime_version", "heartbeat_metadata", "is_enabled"}

  predicate AgentRoom(s: Schema) {
    && HasId(s, Agents)
    && (forall c :: c in AGENT_COLUMNS ==> c !in s.tables[Agents].columns)
    && Ix(Agents, IsEnabled) !in s.tables[Agents].indexes
  }

  function AgentColumns(): seq<Op> {
    [AddColumn(Agents, "runtime", OPTIONAL), AddColumn(Agents, "runtime_version", OPTIONAL),
     AddColumn(Agents, "heartbeat_metadata", EMPTY_OBJECT)]
  }

  /** The agents part of 5ab642aedfa6. */
  lemma AgentColumnsAccepted(s: Schema) returns (after: Schema)
    requires AgentRoom(s) && OwnStem(s, Agents)
    ensures Run(s, AgentRuntimeUp() + AgentHeartbeatsUp() + AgentEnabledUp()) == Some(after)
    ensures Grown(s, after, {Agents}, {})
  {
    assert NewColumns(s, Agents, AgentColumns());
    var a := ColumnsAccepted(s, Agents, AgentColumns());
    WidenedGrown(s, a, Agents);
    assert AgentColumns()[2].column == "heartbeat_metadata" && AgentColumns()[0].column == "runtime" &&
      AgentColumns()[1].column == "runtime_version";
    hide Run, HasId, NewColumns, AgentColumns;
    var b, after_ := AgentEnabledAccepted(a);
    after := after_;
    AcceptedThen(s, AgentColumns(), a, [AlterDefault(Agents, "heartbeat_metadata", NoDefault)], b, {Agents},
      {Agents}, {Agents}, {}, {}, {});
    AcceptedThen(s, AgentColumns() + [AlterDefault(Agents, "heartbeat_metadata", NoDefault)], b, AgentEnabledUp(),
      after,
                 {Agents}, {Agents}, {Agents}, {}, {}, {});
    SameAgentScript();
  }

  lemma SameAgentScript()
    ensures AgentColumns() + [AlterDefault(Agents, "heartbeat_metadata", NoDefault)] + AgentEnabledUp()
            == AgentRuntimeUp() + AgentHeartbeatsUp() + AgentEnabledUp()
  {
  }

  lemma AgentEnabledAccepted(s: Schema) returns (b: Schema, after: Schema)
    requires Agents in s.tables && OwnStem(s, Agents) && Ix(Agents, IsEnabled) !in s.tables[Agents].indexes
    requires "heartbeat_metadata" in s.tables[Agents].columns && "is_enabled" !in s.tables[Agents].columns
    ensures Run(s, [AlterDefault(Agents, "heartbeat_metadata", NoDefault)]) == Some(b) && Grown(s, b, {Agents}, {})
    ensures Run(b, AgentEnabledUp()) == Some(after) && Grown(b, after, {Agents}, {})
  {
    hide Run;
    b := OneAccepted(s, AlterDefault(Agents, "heartbeat_metadata", NoDefault));
    PutGrown(s, Agents, b.tables[Agents]);
    hide Grown;
    after := AgentIsEnabledAccepted(b);
  }

  lemma AgentIsEnabledAccepted(b: Schema) returns (after: Schema)
    requires Agents in b.tables && OwnStem(b, Agents) && Ix(Agents, IsEnabled) !in b.tables[Agents].indexes
    requires "is_enabled" !in b.tables[Agents].columns
    ensures Run(b, AgentEnabledUp()) == Some(after) && Grown(b, after, {Agents}, {})
  {
    hide Run;
    var add, index := AgentEnabledUp()[0], AgentEnabledUp()[1];
    var c := OneAccepted(b, add);
    PutGrown(b, Agents, c.tables[Agents]);
    after := OneAccepted(c, index);
    PutGrown(c, Agents, after.tables[Agents]);
    AcceptedThen(b, [add], c, [index], after, {Agents}, {Agents}, {Agents}, {}, {}, {});
    assert [add] + [index] == AgentEnabledUp();
  }

  lemma AgentHeartbeatAccepted(s: Schema) returns (after: Schema)
    requires AgentRoom(s) && OwnStem(s, Agents) && Vacant(s, AgentCredentials)
    ensures Run(s, AgentHeartbeatUp()) == Some(after) && Grown(s, after, {AgentCredentials, Agents}, {})
  {
    hide Run, Vacant, OwnStem, CredentialsUp, AgentRuntimeUp, AgentHeartbeatsUp, AgentEnabledUp;
    var a := CredentialsAccepted(s);
    after := AgentColumnsAccepted(a);
    AcceptedThen(s, CredentialsUp(), a, AgentRuntimeUp() + AgentHeartbeatsUp() + AgentEnabledUp(), after,
                 {AgentCredentials}, {Agents}, {AgentCredentials, Agents}, {}, {}, {});
    assert CredentialsUp() + (AgentRuntimeUp() + AgentHeartbeatsUp() + AgentEnabledUp()) == AgentHeartbeatUp();
  }

  /** Room for 8f4d2c1b7a90 in the two task tables. */
  ghost predicate TaskRoom(s: Schema) {
    && Tasks in s.tables && TaskEvents in s.tables && OwnStem(s, Tasks)
    && "lease_expires_at" in s.tables[Tasks].columns && "status" in s.tables[Tasks].columns
    && "priority" in s.tables[Tasks].columns && "created_at" in s.tables[Tasks].columns
    && (forall i :: 0 <= i < |TaskColumns()| ==>
      TaskColumns()[i].AddColumn? && TaskColumns()[i].column !in s.tables[Tasks].columns)
    && Ix(Tasks, LeaseExpiresAt) !in s.tables[Tasks].indexes && Ix(Tasks,
      LeaseTokenPrefix) !in s.tables[Tasks].indexes
    && Ix(Tasks, QueueSelection) !in s.tables[Tasks].indexes
    && "attempt_number" !in s.tables[TaskEvents].columns &&
      "task_events_append_only" !in s.tables[TaskEvents].triggers
    && PREVENT_EVENT_MUTATION !in s.functions
  }

  lemma TaskColumnsNew(s: Schema)
    requires TaskRoom(s)
    ensures NewColumns(s, Tasks, TaskColumns())
  {
    hide OwnStem;
    assert "lease_token_prefix"[12] != "lease_token_digest"[12];
  }

  /** What the statements after the columns need. */
  ghost predicate TaskParts(s: Schema) {
    && IndexRoom(s)
    && "attempt_number" !in s.tables[TaskEvents].columns &&
      "task_events_append_only" !in s.tables[TaskEvents].triggers
    && PREVENT_EVENT_MUTATION !in s.functions
  }

  ghost predicate IndexRoom(s: Schema) {
    && Tasks in s.tables && TaskEvents in s.tables && OwnStem(s, Tasks)
    && "lease_expires_at" in s.tables[Tasks].columns && "lease_token_prefix" in s.tables[Tasks].columns
    && "status" in s.tables[Tasks].columns && "priority" in s.tables[Tasks].columns &&
      "created_at" in s.tables[Tasks].columns
    && Ix(Tasks, LeaseExpiresAt) !in s.tables[Tasks].indexes && Ix(Tasks,
      LeaseTokenPrefix) !in s.tables[Tasks].indexes
    && Ix(Tasks, QueueSelection) !in s.tables[Tasks].indexes
  }

  lemma TaskLifecycleAccepted(s: Schema)
    requires TaskRoom(s)
    ensures Run(s, TaskLifecycleUp()).Some?
  {
    hide Run, TaskObjects, TaskColumns, TaskRoom, TaskParts;
    var a := TaskColumnsAccepted(s);
    var b := TaskObjectsAccepted(a);
    RunConcat(s, TaskColumns(), TaskObjects());
  }

  lemma TaskColumnsAccepted(s: Schema) returns (a: Schema)
    requires TaskRoom(s)
    ensures Run(s, TaskColumns()) == Some(a) && TaskParts(a)
  {
    TaskColumnsNew(s);
    assert TaskColumns()[4].column == "lease_token_prefix" && |TaskColumns()| > 4;
    assert Tasks in s.tables;
    hide Run, NewColumns, HasId, OwnStem, TaskColumns, TaskRoom, TaskParts, Grown;
    a := ColumnsAccepted(s, Tasks, TaskColumns());
    WidenedGrown(s, a, Tasks);
    TaskPartsReady(s, a);
  }

  lemma TaskPartsReady(s: Schema, a: Schema)
    requires TaskRoom(s) && Grown(s, a, {Tasks}, {}) && Widened(s, a, Tasks)
    requires "lease_token_prefix" in a.tables[Tasks].columns
    ensures TaskParts(a)
  {
    hide HasId, OwnStem;
  }

  lemma TaskObjectsAccepted(s: Schema) returns (after: Schema)
    requires TaskParts(s)
    ensures Run(s, TaskObjects()) == Some(after)
  {
    hide Run, HasId, OwnStem;
    var o := TaskObjects();
    var a := OneAccepted(s, o[0]);
    PutGrown(s, TaskEvents, a.tables[TaskEvents]);
    var b := TaskIndexesAccepted(a);
    var c := OneAccepted(b, o[4]);
    after := OneAccepted(c, o[5]);
    hide IndexRoom, TaskParts;
    RunConcat(s, [o[0]], o[1..4]);
    RunConcat(s, [o[0]] + o[1..4], [o[4]]);
    RunConcat(s, [o[0]] + o[1..4] + [o[4]], [o[5]]);
    assert [o[0]] + o[1..4] + [o[4]] + [o[5]] == o;
  }

  lemma TaskIndexesAccepted(s: Schema) returns (after: Schema)
    requires IndexRoom(s)
    ensures Run(s, TaskObjects()[1..4]) == Some(after)
    ensures after.functions == s.functions && after.tables.Keys == s.tables.Keys &&
      after.tables[TaskEvents] == s.tables[TaskEvents]
  {
    hide Run, HasId, OwnStem;
    var x, y, z := TaskObjects()[1], TaskObjects()[2], TaskObjects()[3];
    TaskIndexColumns(s);
    var a := OwnIndexAccepted(s, Tasks, x);
    var b := OwnIndexAccepted(a, Tasks, y);
    after := OwnIndexAccepted(b, Tasks, z);
    RunConcat(s, [x], [y]);
    RunConcat(s, [x] + [y], [z]);
    assert [x] + [y] + [z] == TaskObjects()[1..4];
  }

  lemma TaskIndexColumns(s: Schema)
    requires IndexRoom(s)
    ensures forall k :: 1 <= k < 4 ==> TaskObjects()[k].CreateIndex? && Within(TaskObjects()[k].on, s.tables[Tasks])
  {
    hide OwnStem;
  }

  /** A table accepts an index of its own stem that it does not have. */
  lemma OwnIndexAccepted(s: Schema, t: Table, op: Op) returns (after: Schema)
    requires op.CreateIndex? && op.table == t && t in s.tables && OwnStem(s, t)
    requires op.index.Ix? && op.index.stem == t && op.index !in s.tables[t].indexes && Within(op.on, s.tables[t])
    ensures Run(s, [op]) == Some(after) && OwnStem(after, t) && after.tables.Keys == s.tables.Keys
    ensures after.tables[t].columns == s.tables[t].columns &&
      after.tables[t].indexes.Keys == s.tables[t].indexes.Keys + {op.index}
    ensures after.functions == s.functions && forall u :: u in s.tables && u != t ==> after.tables[u] == s.tables[u]
  {
    after := OneAccepted(s, op);
  }

  /** The second chain is accepted wherever there is room for it. */
  lemma TaskChainAccepted(s: Schema)
    requires AgentRoom(s) && OwnStem(s, Agents) && Vacant(s, AgentCredentials) && TaskRoom(s)
    ensures Run(s, Ups(TaskChain())).Some?
  {
    hide Run, Vacant, OwnStem, AgentRoom, TaskColumns, AgentHeartbeatUp, TaskLifecycleUp, AgentHeartbeatDown,
      TaskLifecycleDown;
    var a := AgentHeartbeatAccepted(s);
    TaskLifecycleAccepted(a);
    var chain := TaskChain();
    NothingRuns(s, chain);
    UpsStep(s, chain, 0, s, a);
    UpsStep(s, chain, 1, a, Run(a, TaskLifecycleUp()).value);
    assert chain[..2] == chain;
  }

  // Schemas with room.

  function Plain(columns: map<Column, ColumnDef>): TableDef {
    TableDef(columns, {PrimaryKey(["id"])}, map[], map[], map[])
  }

  /** What the first chain builds on, and nothing else. */
  function CorpusBase(): Schema {
    Schema(map[ScientificIngestionJobs := Plain(map["id" := REQUIRED]),
               CanonicalEvidenceObjects := Plain(map["id" := REQUIRED]),
               CanonicalEvidenceEdges := Plain(map["id" := REQUIRED, "subject_id" := REQUIRED,
                 "object_id" := REQUIRED])], {})
  }

  function TaskBase(): Schema {
    Schema(map[Agents := Plain(map["id" := REQUIRED]),
               Tasks := Plain(map["id" := REQUIRED, "lease_expires_at" := OPTIONAL, "status" := REQUIRED,
                                  "priority" := REQUIRED, "created_at" := STAMPED]),
               TaskEvents := Plain(map["id" := REQUIRED])], {})
  }

  /** Tables with an id and nothing built on them. */
  predicate Bare(s: Schema) {
    forall t :: t in s.tables ==>
      "id" in s.tables[t].columns && s.tables[t] == Plain(s.tables[t].columns)
  }

  lemma BareShape(s: Schema, t: Table)
    requires Bare(s)
    ensures WellFormed(s) && OwnStem(s, t)
    ensures t in s.tables ==>
              HasId(s, t) && s.tables[t].indexes == map[] && s.tables[t].named == map[] &&
                s.tables[t].triggers == map[]
    ensures t !in s.tables ==> Vacant(s, t)
  {
  }

  lemma CorpusBaseShape()
    ensures var s := CorpusBase();
            && Bare(s) && s.tables.Keys == {ScientificIngestionJobs, CanonicalEvidenceObjects, CanonicalEvidenceEdges}
            && s.functions == {}
            && s.tables[CanonicalEvidenceEdges].columns.Keys == {"id", "subject_id", "object_id"}
  {
  }

  lemma TaskBaseShape()
    ensures var s := TaskBase();
            && Bare(s) && s.tables.Keys == {Agents, Tasks, TaskEvents} && s.functions == {}
            && s.tables[Agents].columns.Keys == {"id"} && s.tables[TaskEvents].columns.Keys == {"id"}
            && s.tables[Tasks].columns.Keys == {"id", "lease_expires_at", "status", "priority", "created_at"}
  {
  }

  /** The round trip of the first chain is not vacuous. */
  lemma CorpusRoundTrip()
    ensures WellFormed(CorpusBase()) && Run(CorpusBase(), Ups(CorpusChain())).Some?
  {
    var s := CorpusBase();
    CorpusBaseShape();
    hide Run, CorpusChain, Bare, WellFormed, OwnStem, Vacant, HasId, CorpusBase, Plain;
    BareShape(s, ScientificIngestionJobs);
    BareShape(s, CanonicalEvidenceObjects);
    BareShape(s, CanonicalEvidenceEdges);
    OldColumns();
    forall t | t in CORPUS_TABLES
      ensures Vacant(s, t)
    {
      BareShape(s, t);
    }
    CorpusChainAccepted(s);
  }

  lemma OldColumns()
    ensures EDGE_COLUMNS !! {"id", "subject_id", "object_id"}
  {
    assert "valid_from"[0] != "subject_id"[0];
  }

  /** Nor is that of the second. */
  lemma TaskRoundTrip()
    ensures WellFormed(TaskBase()) && Run(TaskBase(), Ups(TaskChain())).Some?
  {
    var s := TaskBase();
    TaskBaseShape();
    hide Run, TaskChain, Bare, WellFormed, OwnStem, Vacant, HasId, TaskBase, TaskColumns, Plain;
    BareShape(s, Agents);
    BareShape(s, Tasks);
    BareShape(s, TaskEvents);
    BareShape(s, AgentCredentials);
    NewTaskColumns();
    TaskChainAccepted(s);
  }

  lemma NewTaskColumns()
    ensures forall i :: 0 <= i < |TaskColumns()| ==>
              TaskColumns()[i].AddColumn? &&
              TaskColumns()[i].column !in {"id", "lease_expires_at", "status", "priority", "created_at"}
  {
    assert "created_at"[0] != "updated_at"[0] && "lease_expires_at"[0] != "allowed_machines"[0];
  }
}
