/** A database schema and the statements that migrations issue against it, each with the
    condition under which the database accepts it. Rows and column types are left out. */
module Schema {
  import opened Prelude

  datatype Table =
    | ScientificIngestionJobs | CanonicalEvidenceObjects | CanonicalEvidenceEdges | Agents | Tasks | TaskEvents
    | CorpusSecurityFindings | CorpusBackups | CorpusRecoveryRuns
    | SurveillanceSources | SurveillanceFetchReceipts | SurveillancePublications | SurveillanceRoutingEvents | SurveillanceDigests
    | CorpusSyncRuns | CorpusSyncItems
    | GraphProjectionStates | GraphProjectionNodes | GraphProjectionEdges | CognitiveToolReceipts
    | ScientificIngestionRecoveries | AgentCredentials
    | OtherTable(name: string)

  type Column = string

  type Columns = seq<Column>

  /** Index names carry their table's stem and a suffix; they are unique in a schema. */
  datatype Index = Ix(stem: Table, suffix: Suffix) | OtherIndex(name: string)

  datatype Suffix =
    | IngestionJobId | Project | FindingCode | Severity | Operation | Status | SourceId | PublicationStatus | PublicationId
    | SourceKind | RunId | ContentDigest | Disposition | ObjectType | AccessClass | SubjectId | Predicate | ObjectId
    | Tool | Original | AgentId | TokenPrefix | IsEnabled | LeaseExpiresAt | LeaseTokenPrefix | QueueSelection

  datatype Default = NoDefault | Value(text: string)

  datatype ColumnDef = ColumnDef(nullable: bool, default: Default)

  datatype Constraint =
    | PrimaryKey(columns: Columns)
    | Unique(columns: Columns)
    | Check(text: string)
    | ForeignKey(columns: Columns, refTable: Table, refColumns: Columns)

  datatype IndexDef = IndexDef(columns: Columns, unique: bool)

  datatype TableDef = TableDef(
    columns: map<Column, ColumnDef>, constraints: set<Constraint>, named: map<string, Constraint>,
    indexes: map<Index, IndexDef>, triggers: map<string, string>)

  datatype Schema = Schema(tables: map<Table, TableDef>, functions: set<string>)

  datatype Op =
    | CreateTable(table: Table, columns: map<Column, ColumnDef>, constraints: set<Constraint>)
    | DropTable(table: Table)
    | CreateIndex(index: Index, table: Table, on: Columns, unique: bool)
    | DropIndex(index: Index, table: Table)
    | AddColumn(table: Table, column: Column, def: ColumnDef)
    | AlterDefault(table: Table, column: Column, default: Default)
    | DropColumn(table: Table, column: Column)
    | AddConstraint(name: string, table: Table, constraint: Constraint)
    | DropConstraint(name: string, table: Table)
    | CreateFunction(function_: string)
    | DropFunction(function_: string)
    | CreateTrigger(name: string, table: Table, function_: string)
    | DropTrigger(name: string, table: Table)

  function All(def: TableDef): set<Constraint> {
    def.constraints + def.named.Values
  }

  predicate Keyed(def: TableDef, columns: Columns) {
    PrimaryKey(columns) in All(def) || Unique(columns) in All(def)
  }

  predicate Within(columns: Columns, def: TableDef) {
    forall c :: c in columns ==> c in def.columns
  }

  /** A constraint fits its table: its columns exist, and a foreign key points at columns
      that are a key of an existing table. */
  predicate Fits(tables: map<Table, TableDef>, def: TableDef, c: Constraint) {
    match c
    case PrimaryKey(columns) => Within(columns, def)
    case Unique(columns) => Within(columns, def)
    case Check(_) => true
    case ForeignKey(columns, refTable, refColumns) =>
      && Within(columns, def) && refTable in tables
      && Within(refColumns, tables[refTable]) && Keyed(tables[refTable], refColumns)
  }

  predicate References(def: TableDef, table: Table) {
    exists c :: c in All(def) && c.ForeignKey? && c.refTable == table
  }

  predicate Mentions(c: Constraint, table: Table, column: Column) {
    match c
    case PrimaryKey(columns) => column in columns
    case Unique(columns) => column in columns
    case Check(_) => false
    case ForeignKey(columns, refTable, refColumns) => column in columns || (refTable == table && column in refColumns)
  }

  predicate Unused(s: Schema, index: Index) {
    forall t :: t in s.tables ==> index !in s.tables[t].indexes
  }

  ghost predicate TableOk(s: Schema, t: Table)
    requires t in s.tables
  {
    var def := s.tables[t];
    && (forall c :: c in All(def) ==> Fits(s.tables, def, c))
    && (forall i :: i in def.indexes ==> Within(def.indexes[i].columns, def))
    && (forall g :: g in def.triggers ==> def.triggers[g] in s.functions)
  }

  /** Nothing dangles: columns of constraints and indexes exist, foreign keys point at
      keys, triggers call existing functions. */
  ghost predicate WellFormed(s: Schema) {
    forall t :: t in s.tables ==> TableOk(s, t)
  }

  /** When the database accepts a statement. A table goes only when no other table's
      foreign key references it, a function only when no trigger calls it, a column or a
      key only when no foreign key elsewhere relies on it. */
  predicate Legal(s: Schema, op: Op) {
    match op
    case CreateTable(t, columns, constraints) =>
      && t !in s.tables
      && var def := TableDef(columns, constraints, map[], map[], map[]);
         forall c :: c in constraints ==> Fits(s.tables[t := def], def, c)
    case DropTable(t) => t in s.tables && forall u :: u in s.tables && u != t ==> !References(s.tables[u], t)
    case CreateIndex(i, t, columns, _) => t in s.tables && Unused(s, i) && Within(columns, s.tables[t])
    case DropIndex(i, t) => t in s.tables && i in s.tables[t].indexes
    case AddColumn(t, c, _) => t in s.tables && c !in s.tables[t].columns
    case AlterDefault(t, c, _) => t in s.tables && c in s.tables[t].columns
    case DropColumn(t, column) =>
      && t in s.tables && column in s.tables[t].columns
      && forall u, c :: u in s.tables && u != t && c in All(s.tables[u]) ==>
           !(c.ForeignKey? && c.refTable == t && column in c.refColumns)
    case AddConstraint(n, t, c) => t in s.tables && n !in s.tables[t].named && Fits(s.tables, s.tables[t], c)
    case DropConstraint(n, t) =>
      && t in s.tables && n in s.tables[t].named
      && var rest := Without(s.tables[t], n);
         forall u, c :: u in s.tables && c in All(if u == t then rest else s.tables[u]) && c.ForeignKey? && c.refTable == t ==>
           Keyed(rest, c.refColumns)
    case CreateFunction(f) => f !in s.functions
    case DropFunction(f) => forall t, g :: t in s.tables && g in s.tables[t].triggers ==> s.tables[t].triggers[g] != f
    case CreateTrigger(n, t, f) => t in s.tables && n !in s.tables[t].triggers && f in s.functions
    case DropTrigger(_, t) => t in s.tables
  }

  function Without(def: TableDef, name: string): TableDef {
    def.(named := def.named - {name})
  }

  function Pruned(def: TableDef, table: Table, column: Column): TableDef {
    def.(columns := def.columns - {column},
         constraints := (set c | c in def.constraints && !Mentions(c, table, column)),
         named := (map n | n in def.named && !Mentions(def.named[n], table, column) :: def.named[n]),
         indexes := (map i | i in def.indexes && column !in def.indexes[i].columns :: def.indexes[i]))
  }

  /** What an accepted statement does. Dropping a table takes its columns, constraints,
      indexes and triggers with it; dropping a column takes what is built on it. */
  function Apply(s: Schema, op: Op): Schema
    requires Legal(s, op)
  {
    match op
    case CreateTable(t, columns, constraints) => Put(s, t, TableDef(columns, constraints, map[], map[], map[]))
    case DropTable(t) => s.(tables := s.tables - {t})
    case CreateIndex(i, t, columns, unique) =>
      Put(s, t, s.tables[t].(indexes := s.tables[t].indexes[i := IndexDef(columns, unique)]))
    case DropIndex(i, t) => Put(s, t, s.tables[t].(indexes := s.tables[t].indexes - {i}))
    case AddColumn(t, c, def) => Put(s, t, s.tables[t].(columns := s.tables[t].columns[c := def]))
    case AlterDefault(t, c, default) =>
      Put(s, t, s.tables[t].(columns := s.tables[t].columns[c := s.tables[t].columns[c].(default := default)]))
    case DropColumn(t, c) => Put(s, t, Pruned(s.tables[t], t, c))
    case AddConstraint(n, t, c) => Put(s, t, s.tables[t].(named := s.tables[t].named[n := c]))
    case DropConstraint(n, t) => Put(s, t, Without(s.tables[t], n))
    case CreateFunction(f) => s.(functions := s.functions + {f})
    case DropFunction(f) => s.(functions := s.functions - {f})
    case CreateTrigger(n, t, f) => Put(s, t, s.tables[t].(triggers := s.tables[t].triggers[n := f]))
    case DropTrigger(n, t) => Put(s, t, s.tables[t].(triggers := s.tables[t].triggers - {n}))
  }

  function Put(s: Schema, t: Table, def: TableDef): Schema {
    s.(tables := s.tables[t := def])
  }

  /** An accepted statement has an effect, save for those that say so themselves: setting
      a default that is there already, and dropping what may be missing. */
  lemma AcceptedHasEffect(s: Schema, op: Op)
    requires Legal(s, op) && !op.DropFunction? && !op.DropTrigger?
    requires op.AlterDefault? ==> s.tables[op.table].columns[op.column].default != op.default
    ensures Apply(s, op) != s
  {
    match op
    case DropTable(t) => assert t in s.tables && t !in Apply(s, op).tables;
    case CreateTable(t, _, _) => assert t in Apply(s, op).tables;
    case CreateFunction(f) => assert f in Apply(s, op).functions;
    case CreateIndex(i, t, _, _) => assert i in Apply(s, op).tables[t].indexes && i !in s.tables[t].indexes;
    case DropIndex(i, t) => assert i !in Apply(s, op).tables[t].indexes && i in s.tables[t].indexes;
    case AddColumn(t, c, _) => assert c in Apply(s, op).tables[t].columns && c !in s.tables[t].columns;
    case AlterDefault(t, c, d) => assert Apply(s, op).tables[t].columns[c].default == d;
    case DropColumn(t, c) => assert c !in Apply(s, op).tables[t].columns && c in s.tables[t].columns;
    case AddConstraint(n, t, _) => assert n in Apply(s, op).tables[t].named && n !in s.tables[t].named;
    case DropConstraint(n, t) => assert n !in Apply(s, op).tables[t].named && n in s.tables[t].named;
    case CreateTrigger(n, t, _) => assert n in Apply(s, op).tables[t].triggers && n !in s.tables[t].triggers;
  }

  /** Statement after statement; None as soon as one is refused. */
  function Run(s: Schema, script: seq<Op>): Option<Schema> {
    if script == [] then
      Some(s)
    else
      var before := Run(s, script[..|script| - 1]);
      if before.Some? && Legal(before.value, script[|script| - 1]) then Some(Apply(before.value, script[|script| - 1])) else None
  }

  lemma RunOne(s: Schema, op: Op)
    ensures Run(s, [op]) == if Legal(s, op) then Some(Apply(s, op)) else None
  {
    hide Legal, Apply;
    assert [op][..0] == [];
    assert Run(s, []) == Some(s);
  }

  lemma {:induction false} RunConcat(s: Schema, a: seq<Op>, b: seq<Op>)
    ensures Run(s, a + b) == if Run(s, a).Some? then Run(Run(s, a).value, b) else None
  {
    hide Legal, Apply;
    if b == [] {
      assert a + b == a;
    } else {
      RunConcat(s, a, b[..|b| - 1]);
      assert (a + b)[..|a + b| - 1] == a + b[..|b| - 1];
    }
  }

  /** Every accepted statement leaves nothing dangling. */
  lemma LegalKeepsWellFormed(s: Schema, op: Op)
    requires WellFormed(s) && Legal(s, op)
    ensures WellFormed(Apply(s, op))
  {
    match op
    case CreateTable(t, columns, constraints) => CreateTableKeeps(s, t, columns, constraints);
    case DropTable(t) => DropTableKeeps(s, t);
    case CreateIndex(i, t, columns, unique) => SameKeysKeep(s, t, Apply(s, op).tables[t]);
    case DropIndex(i, t) => SameKeysKeep(s, t, Apply(s, op).tables[t]);
    case AddColumn(t, c, def) => SameKeysKeep(s, t, Apply(s, op).tables[t]);
    case AlterDefault(t, c, default) => SameKeysKeep(s, t, Apply(s, op).tables[t]);
    case DropColumn(t, c) => DropColumnKeeps(s, t, c);
    case AddConstraint(n, t, c) => AddConstraintKeeps(s, t, n, c);
    case DropConstraint(n, t) => DropConstraintKeeps(s, t, n);
    case CreateFunction(f) => FunctionsKeep(s, s.functions + {f});
    case DropFunction(f) => FunctionsKeep(s, s.functions - {f});
    case CreateTrigger(n, t, f) => SameKeysKeep(s, t, Apply(s, op).tables[t]);
    case DropTrigger(n, t) => SameKeysKeep(s, t, Apply(s, op).tables[t]);
  }

  /** A constraint that fits keeps fitting when its table and the referenced one keep
      their columns and keys. */
  predicate Wider(a: TableDef, b: TableDef) {
    (forall c :: c in a.columns ==> c in b.columns) && (forall c :: c in All(a) ==> c in All(b))
  }

  lemma FitsKept(tables: map<Table, TableDef>, more: map<Table, TableDef>, def: TableDef, def': TableDef, c: Constraint)
    requires Fits(tables, def, c) && Wider(def, def')
    requires forall t :: t in tables ==> t in more && Wider(tables[t], more[t])
    ensures Fits(more, def', c)
  {
  }

  /** A table is replaced by one with the same constraints and at least the same columns. */
  lemma SameKeysKeep(s: Schema, t: Table, def: TableDef)
    requires WellFormed(s) && t in s.tables
    requires All(def) == All(s.tables[t]) && Wider(s.tables[t], def)
    requires forall i :: i in def.indexes ==> Within(def.indexes[i].columns, def)
    requires forall g :: g in def.triggers ==> def.triggers[g] in s.functions
    ensures WellFormed(Put(s, t, def))
  {
    hide Fits, Within, All, Wider;
    var after := Put(s, t, def);
    WiderSame(s);
    forall u | u in after.tables
      ensures TableOk(after, u)
    {
      assert TableOk(s, u);
      forall c | c in All(after.tables[u])
        ensures Fits(after.tables, after.tables[u], c)
      {
        FitsKept(s.tables, after.tables, s.tables[u], after.tables[u], c);
      }
    }
  }

  lemma WiderSame(s: Schema)
    ensures forall t :: t in s.tables ==> Wider(s.tables[t], s.tables[t])
  {
  }

  lemma CreateTableKeeps(s: Schema, t: Table, columns: map<Column, ColumnDef>, constraints: set<Constraint>)
    requires WellFormed(s) && Legal(s, CreateTable(t, columns, constraints))
    ensures WellFormed(Apply(s, CreateTable(t, columns, constraints)))
  {
    var def := TableDef(columns, constraints, map[], map[], map[]);
    assert All(def) == constraints;
    hide Fits, Within, All, Wider;
    var after := Put(s, t, def);
    WiderSame(s);
    forall u | u in after.tables
      ensures TableOk(after, u)
    {
      if u != t {
        assert TableOk(s, u);
        forall c | c in All(after.tables[u])
          ensures Fits(after.tables, after.tables[u], c)
        {
          FitsKept(s.tables, after.tables, s.tables[u], after.tables[u], c);
        }
      }
    }
  }

  lemma DropTableKeeps(s: Schema, t: Table)
    requires WellFormed(s) && Legal(s, DropTable(t))
    ensures WellFormed(s.(tables := s.tables - {t}))
  {
    hide Within, All, Keyed;
    var after := s.(tables := s.tables - {t});
    forall u | u in after.tables
      ensures TableOk(after, u)
    {
      assert TableOk(s, u);
      assert !References(s.tables[u], t);
    }
  }

  lemma AddConstraintKeeps(s: Schema, t: Table, n: string, c: Constraint)
    requires WellFormed(s) && Legal(s, AddConstraint(n, t, c))
    ensures WellFormed(Apply(s, AddConstraint(n, t, c)))
  {
    var def := s.tables[t].(named := s.tables[t].named[n := c]);
    AddedName(s.tables[t], n, c);
    hide Fits, Within, All, Wider;
    var after := Put(s, t, def);
    WiderSame(s);
    forall u | u in after.tables
      ensures TableOk(after, u)
    {
      assert TableOk(s, u);
      forall d | d in All(after.tables[u])
        ensures Fits(after.tables, after.tables[u], d)
      {
        FitsKept(s.tables, after.tables, s.tables[u], after.tables[u], d);
      }
      assert after.tables[u].indexes == s.tables[u].indexes && after.tables[u].columns == s.tables[u].columns;
      IndexesKept(s.tables[u], after.tables[u]);
    }
  }

  lemma IndexesKept(a: TableDef, b: TableDef)
    requires a.columns == b.columns && a.indexes == b.indexes
    requires forall i :: i in a.indexes ==> Within(a.indexes[i].columns, a)
    ensures forall i :: i in b.indexes ==> Within(b.indexes[i].columns, b)
  {
  }

  lemma AddedName(def: TableDef, n: string, c: Constraint)
    requires n !in def.named
    ensures var after := def.(named := def.named[n := c]); All(after) == All(def) + {c} && Wider(def, after)
  {
    var after := def.(named := def.named[n := c]);
    forall d | d in All(def) + {c}
      ensures d in All(after)
    {
      if d in def.named.Values {
        var m :| m in def.named && def.named[m] == d;
        assert after.named[m] == d;
      } else if d == c {
        assert after.named[n] == c;
      }
    }
  }

  lemma FunctionsKeep(s: Schema, functions: set<string>)
    requires WellFormed(s)
    requires forall t, g :: t in s.tables && g in s.tables[t].triggers ==> s.tables[t].triggers[g] in functions
    ensures WellFormed(s.(functions := functions))
  {
    hide Fits, Within, All;
    var after := s.(functions := functions);
    forall t | t in after.tables
      ensures TableOk(after, t)
    {
      assert TableOk(s, t);
    }
  }

  lemma DropColumnKeeps(s: Schema, t: Table, column: Column)
    requires WellFormed(s) && Legal(s, DropColumn(t, column))
    ensures WellFormed(Apply(s, DropColumn(t, column)))
  {
    var def := Pruned(s.tables[t], t, column);
    var after := Put(s, t, def);
    PrunedShape(s.tables[t], t, column);
    hide Pruned, All;
    forall u | u in after.tables
      ensures TableOk(after, u)
    {
      assert TableOk(s, u);
      forall c | c in All(after.tables[u])
        ensures Fits(after.tables, after.tables[u], c)
      {
        assert Fits(s.tables, s.tables[u], c);
      }
    }
  }

  lemma PrunedShape(def: TableDef, t: Table, column: Column)
    ensures var after := Pruned(def, t, column);
            && (forall c :: c in All(after) <==> c in All(def) && !Mentions(c, t, column))
            && after.columns == def.columns - {column} && after.triggers == def.triggers
            && (forall i :: i in after.indexes ==> i in def.indexes && after.indexes[i] == def.indexes[i] && column !in def.indexes[i].columns)
  {
    var after := Pruned(def, t, column);
    forall c | c in All(def) && !Mentions(c, t, column)
      ensures c in All(after)
    {
      if c in def.named.Values {
        var n :| n in def.named && def.named[n] == c;
        assert after.named[n] == c;
      }
    }
    forall c | c in All(after)
      ensures c in All(def) && !Mentions(c, t, column)
    {
      if c in after.named.Values {
        var n :| n in after.named && after.named[n] == c;
        assert def.named[n] == c;
      }
    }
  }

  lemma DropConstraintKeeps(s: Schema, t: Table, n: string)
    requires WellFormed(s) && Legal(s, DropConstraint(n, t))
    ensures WellFormed(Apply(s, DropConstraint(n, t)))
  {
    var rest := Without(s.tables[t], n);
    var after := Put(s, t, rest);
    assert forall c :: c in All(rest) ==> c in All(s.tables[t]) by {
      forall c | c in rest.named.Values
        ensures c in s.tables[t].named.Values
      {
        var m :| m in rest.named && rest.named[m] == c;
        assert s.tables[t].named[m] == c;
      }
    }
    hide All, Keyed;
    forall u | u in after.tables
      ensures TableOk(after, u)
    {
      assert TableOk(s, u);
      forall c | c in All(after.tables[u])
        ensures Fits(after.tables, after.tables[u], c)
      {
        assert Fits(s.tables, s.tables[u], c);
      }
    }
  }
}
