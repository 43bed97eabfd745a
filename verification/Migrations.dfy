/** Upgrade and downgrade scripts: when one undoes the other, how that composes, and the
    database they run against. */
module Migrations {
  import opened Prelude
  import opened Schema

  /** A downgrade script undoes an upgrade script: from every well-formed schema on which
      the upgrade is accepted, every statement of the downgrade is accepted too and the
      schema is the starting one again. */
  ghost predicate Undoes(down: seq<Op>, up: seq<Op>) {
    forall s :: WellFormed(s) && Run(s, up).Some? ==> Run(Run(s, up).value, down) == Some(s)
  }

  lemma {:induction false} RunKeepsWellFormed(s: Schema, script: seq<Op>)
    requires WellFormed(s) && Run(s, script).Some?
    ensures WellFormed(Run(s, script).value)
  {
    hide WellFormed, Legal, Apply;
    if script != [] {
      RunKeepsWellFormed(s, script[..|script| - 1]);
      LegalKeepsWellFormed(Run(s, script[..|script| - 1]).value, script[|script| - 1]);
    }
  }

  /** Scripts compose, and their downgrades compose the other way round. */
  lemma Compose(up1: seq<Op>, down1: seq<Op>, up2: seq<Op>, down2: seq<Op>)
    requires Undoes(down1, up1) && Undoes(down2, up2)
    ensures Undoes(down2 + down1, up1 + up2)
  {
    hide WellFormed, Run;
    forall s | WellFormed(s) && Run(s, up1 + up2).Some?
      ensures Run(Run(s, up1 + up2).value, down2 + down1) == Some(s)
    {
      RunConcat(s, up1, up2);
      var mid := Run(s, up1).value;
      RunKeepsWellFormed(s, up1);
      RunConcat(Run(mid, up2).value, down2, down1);
    }
  }

  /** One statement and the one that takes it back. */
  predicate Inverse(op: Op, undo: Op) {
    match op
    case CreateTable(t, _, _) => undo == DropTable(t)
    case CreateIndex(i, t, _, _) => undo == DropIndex(i, t)
    case AddColumn(t, c, _) => undo == DropColumn(t, c)
    case AddConstraint(n, t, _) => undo == DropConstraint(n, t)
    case CreateFunction(f) => undo == DropFunction(f)
    case CreateTrigger(n, t, _) => undo == DropTrigger(n, t)
    case _ => false
  }

  lemma InverseUndoes(op: Op, undo: Op)
    requires Inverse(op, undo)
    ensures Undoes([undo], [op])
  {
    forall s | WellFormed(s) && Run(s, [op]).Some?
      ensures Run(Run(s, [op]).value, [undo]) == Some(s)
    {
      RunOne(s, op);
      RunOne(Apply(s, op), undo);
      InverseRestores(s, op, undo);
    }
  }

  lemma InverseRestores(s: Schema, op: Op, undo: Op)
    requires WellFormed(s) && Legal(s, op) && Inverse(op, undo)
    ensures Legal(Apply(s, op), undo) && Apply(Apply(s, op), undo) == s
  {
    match op
    case CreateTable(t, columns, constraints) => CreateTableRestored(s, t, columns, constraints);
    case CreateIndex(i, t, columns, unique) =>
      assert s.tables[t].indexes[i := IndexDef(columns, unique)] - {i} == s.tables[t].indexes;
      assert Apply(Apply(s, op), undo).tables == s.tables;
    case AddColumn(t, c, def) => AddColumnRestored(s, t, c, def);
    case AddConstraint(n, t, c) => AddConstraintRestored(s, t, n, c);
    case CreateFunction(f) => assert Apply(Apply(s, op), undo).functions == s.functions;
    case CreateTrigger(n, t, f) =>
      assert s.tables[t].triggers[n := f] - {n} == s.tables[t].triggers;
      assert Apply(Apply(s, op), undo).tables == s.tables;
  }

  /** No foreign key of a well-formed schema references a table it does not have. */
  lemma AbsentUnreferenced(s: Schema, t: Table)
    requires WellFormed(s) && t !in s.tables
    ensures forall u :: u in s.tables ==> !References(s.tables[u], t)
  {
    hide All, Within, Keyed;
    forall u | u in s.tables
      ensures !References(s.tables[u], t)
    {
      assert TableOk(s, u);
    }
  }

  lemma CreateTableRestored(s: Schema, t: Table, columns: map<Column, ColumnDef>, constraints: set<Constraint>)
    requires WellFormed(s) && Legal(s, CreateTable(t, columns, constraints))
    ensures var after := Apply(s, CreateTable(t, columns, constraints));
            Legal(after, DropTable(t)) && Apply(after, DropTable(t)) == s
  {
    hide WellFormed, Fits, References;
    AbsentUnreferenced(s, t);
    assert Apply(s, CreateTable(t, columns, constraints)).tables - {t} == s.tables;
  }

  lemma AddColumnRestored(s: Schema, t: Table, column: Column, def: ColumnDef)
    requires WellFormed(s) && Legal(s, AddColumn(t, column, def))
    ensures var after := Apply(s, AddColumn(t, column, def));
            Legal(after, DropColumn(t, column)) && Apply(after, DropColumn(t, column)) == s
  {
    var after := Apply(s, AddColumn(t, column, def));
    NewColumnUnused(s, t, column);
    hide All, WellFormed;
    var pruned := Pruned(after.tables[t], t, column);
    assert pruned.columns == s.tables[t].columns;
    assert pruned.constraints == s.tables[t].constraints;
    assert pruned.named == s.tables[t].named;
    assert pruned.indexes == s.tables[t].indexes;
    assert Apply(after, DropColumn(t, column)).tables == s.tables;
  }

  /** Nothing in a well-formed schema is built on a column the table does not have. */
  lemma NewColumnUnused(s: Schema, t: Table, column: Column)
    requires WellFormed(s) && t in s.tables && column !in s.tables[t].columns
    ensures forall c :: c in s.tables[t].constraints ==> !Mentions(c, t, column)
    ensures forall n :: n in s.tables[t].named ==> !Mentions(s.tables[t].named[n], t, column)
    ensures forall i :: i in s.tables[t].indexes ==> column !in s.tables[t].indexes[i].columns
    ensures forall u, c :: u in s.tables && u != t && c in All(s.tables[u]) ==>
              !(c.ForeignKey? && c.refTable == t && column in c.refColumns)
  {
    assert TableOk(s, t);
    forall c | c in All(s.tables[t])
      ensures !Mentions(c, t, column)
    {
      assert Fits(s.tables, s.tables[t], c);
    }
    forall u, c | u in s.tables && u != t && c in All(s.tables[u])
      ensures !(c.ForeignKey? && c.refTable == t && column in c.refColumns)
    {
      assert TableOk(s, u);
      assert Fits(s.tables, s.tables[u], c);
    }
  }

  lemma AddConstraintRestored(s: Schema, t: Table, n: string, c: Constraint)
    requires WellFormed(s) && Legal(s, AddConstraint(n, t, c))
    ensures var after := Apply(s, AddConstraint(n, t, c));
            Legal(after, DropConstraint(n, t)) && Apply(after, DropConstraint(n, t)) == s
  {
    var after := Apply(s, AddConstraint(n, t, c));
    assert s.tables[t].named[n := c] - {n} == s.tables[t].named;
    assert Without(after.tables[t], n) == s.tables[t];
    assert after.tables[t := s.tables[t]] == s.tables;
    forall u, d | u in after.tables && d in All(if u == t then s.tables[t] else after.tables[u]) && d.ForeignKey? && d.refTable == t
      ensures Keyed(s.tables[t], d.refColumns)
    {
      assert TableOk(s, u);
      assert Fits(s.tables, s.tables[u], d);
    }
  }

  /** A column whose default is changed before it is dropped. */
  lemma AlteredColumnUndoes(t: Table, c: Column, def: ColumnDef, default: Default)
    ensures Undoes([DropColumn(t, c)], [AddColumn(t, c, def), AlterDefault(t, c, default)])
  {
    var up := [AddColumn(t, c, def), AlterDefault(t, c, default)];
    forall s | WellFormed(s) && Run(s, up).Some?
      ensures Run(Run(s, up).value, [DropColumn(t, c)]) == Some(s)
    {
      assert up == [AddColumn(t, c, def)] + [AlterDefault(t, c, default)];
      hide WellFormed, Legal, Apply;
      RunConcat(s, [AddColumn(t, c, def)], [AlterDefault(t, c, default)]);
      RunOne(s, AddColumn(t, c, def));
      RunOne(Apply(s, AddColumn(t, c, def)), AlterDefault(t, c, default));
      AlteredIsAdded(s, t, c, def, default);
      RunOne(s, AddColumn(t, c, def.(default := default)));
      InverseUndoes(AddColumn(t, c, def.(default := default)), DropColumn(t, c));
    }
  }

  lemma AlteredIsAdded(s: Schema, t: Table, c: Column, def: ColumnDef, default: Default)
    requires Legal(s, AddColumn(t, c, def))
    ensures var added := AddColumn(t, c, def.(default := default));
            && Legal(s, added) && Legal(Apply(s, AddColumn(t, c, def)), AlterDefault(t, c, default))
            && Apply(Apply(s, AddColumn(t, c, def)), AlterDefault(t, c, default)) == Apply(s, added)
  {
    var columns := s.tables[t].columns;
    assert columns[c := def][c := def.(default := default)] == columns[c := def.(default := default)];
    var mid := Apply(s, AddColumn(t, c, def));
    assert Apply(mid, AlterDefault(t, c, default)).tables == Apply(s, AddColumn(t, c, def.(default := default))).tables;
  }

  /** A table with its indexes: created with all of them, dropped after some of them, in
      any order; the drop of the table takes the rest. */
  predicate IndexesOf(t: Table, indexes: seq<Op>) {
    forall i :: 0 <= i < |indexes| ==> indexes[i].CreateIndex? && indexes[i].table == t
  }

  /** Each drop takes one of the indexes, named by its place in `order`. */
  predicate DropsOf(t: Table, indexes: seq<Op>, drops: seq<Op>, order: seq<nat>)
    requires IndexesOf(t, indexes)
  {
    && |order| == |drops|
    && (forall i :: 0 <= i < |drops| ==> order[i] < |indexes| && drops[i] == DropIndex(indexes[order[i]].index, t))
    && (forall i, j :: 0 <= i < j < |drops| ==> drops[i] != drops[j])
  }

  /** `after` is `s` with some table put on top. */
  ghost predicate OnTop(s: Schema, after: Schema, t: Table) {
    t !in s.tables && t in after.tables && after.tables - {t} == s.tables && after.functions == s.functions
  }

  lemma {:induction false} IndexesOnTop(s: Schema, start: Schema, t: Table, indexes: seq<Op>)
    requires OnTop(s, start, t) && IndexesOf(t, indexes) && Run(start, indexes).Some?
    ensures var after := Run(start, indexes).value;
            OnTop(s, after, t) && forall j :: 0 <= j < |indexes| ==> indexes[j].index in after.tables[t].indexes
  {
    if indexes != [] {
      var before, last := indexes[..|indexes| - 1], indexes[|indexes| - 1];
      IndexesOnTop(s, start, t, before);
      assert forall j :: 0 <= j < |before| ==> indexes[j] == before[j];
      assert last.CreateIndex? && last.table == t;
    }
  }

  lemma {:induction false} DropsOnTop(s: Schema, start: Schema, t: Table, drops: seq<Op>)
    requires OnTop(s, start, t)
    requires forall i :: 0 <= i < |drops| ==> drops[i].DropIndex? && drops[i].table == t && drops[i].index in start.tables[t].indexes
    requires forall i, j :: 0 <= i < j < |drops| ==> drops[i] != drops[j]
    ensures Run(start, drops).Some?
    ensures var after := Run(start, drops).value;
            && OnTop(s, after, t)
            && forall i :: i in start.tables[t].indexes && (forall j :: 0 <= j < |drops| ==> drops[j].index != i) ==>
                 i in after.tables[t].indexes
  {
    if drops != [] {
      var before, last := drops[..|drops| - 1], drops[|drops| - 1];
      DropsOnTop(s, start, t, before);
      assert forall j :: 0 <= j < |before| ==> drops[j] == before[j];
    }
  }

  lemma TableUndoes(create: Op, indexes: seq<Op>, drops: seq<Op>, order: seq<nat>)
    requires create.CreateTable? && IndexesOf(create.table, indexes) && DropsOf(create.table, indexes, drops, order)
    ensures Undoes(drops + [DropTable(create.table)], [create] + indexes)
  {
    var t := create.table;
    forall s | WellFormed(s) && Run(s, [create] + indexes).Some?
      ensures Run(Run(s, [create] + indexes).value, drops + [DropTable(t)]) == Some(s)
    {
      RunConcat(s, [create], indexes);
      RunOne(s, create);
      var start := Apply(s, create);
      assert start.tables - {t} == s.tables;
      hide WellFormed, Legal, Apply, IndexesOf, Run;
      IndexesOnTop(s, start, t, indexes);
      var after := Run(start, indexes).value;
      DropsOnTop(s, after, t, drops);
      var last := Run(after, drops).value;
      RunConcat(after, drops, [DropTable(t)]);
      RunOne(last, DropTable(t));
      TopDropped(s, last, t);
    }
  }

  lemma TopDropped(s: Schema, last: Schema, t: Table)
    requires WellFormed(s) && OnTop(s, last, t)
    ensures Legal(last, DropTable(t)) && Apply(last, DropTable(t)) == s
  {
    hide WellFormed, References;
    AbsentUnreferenced(s, t);
    assert forall u :: u in last.tables && u != t ==> u in last.tables - {t} && last.tables[u] == s.tables[u];
  }

  /** Room for a new table: it does not exist, and no index uses a name of its stem. */
  ghost predicate Vacant(s: Schema, t: Table) {
    t !in s.tables && OwnStem(s, t)
  }

  ghost predicate OwnStem(s: Schema, t: Table) {
    forall u, i :: u in s.tables && u != t && i in s.tables[u].indexes ==> !(i.Ix? && i.stem == t)
  }

  /** A table other tables can reference by its id. */
  predicate HasId(s: Schema, t: Table) {
    t in s.tables && "id" in s.tables[t].columns && PrimaryKey(["id"]) in All(s.tables[t])
  }

  /** A schema with new or changed tables and new functions: the rest is as before, and
      there is still room for every other table. */
  ghost predicate Grown(s: Schema, after: Schema, added: set<Table>, functions: set<string>) {
    && after.functions == s.functions + functions
    && (forall u :: u in s.tables && u !in added ==> u in after.tables && after.tables[u] == s.tables[u])
    && (forall u :: u in after.tables ==> u in s.tables || u in added)
    && (forall u :: OwnStem(s, u) ==> OwnStem(after, u))
    && (forall u :: HasId(s, u) && u !in added ==> HasId(after, u))
  }

  predicate Sound(s: Schema, create: Op, c: Constraint)
    requires create.CreateTable?
  {
    match c
    case PrimaryKey(columns) => forall x :: x in columns ==> x in create.columns
    case Unique(columns) => forall x :: x in columns ==> x in create.columns
    case Check(_) => true
    case ForeignKey(columns, refTable, refColumns) =>
      && (forall x :: x in columns ==> x in create.columns) && refColumns == ["id"]
      && if refTable == create.table then "id" in create.columns && PrimaryKey(["id"]) in create.constraints else HasId(s, refTable)
  }

  predicate OwnIndexes(create: Op, indexes: seq<Op>)
    requires create.CreateTable?
  {
    && IndexesOf(create.table, indexes)
    && (forall i :: 0 <= i < |indexes| ==>
          indexes[i].index.Ix? && indexes[i].index.stem == create.table && forall c :: c in indexes[i].on ==> c in create.columns)
    && (forall i, j :: 0 <= i < j < |indexes| ==> indexes[i].index != indexes[j].index)
  }

  /** A table and its indexes are accepted wherever there is room for them and the tables
      they reference are there. */
  lemma TableAccepted(s: Schema, create: Op, indexes: seq<Op>) returns (after: Schema)
    requires create.CreateTable? && Vacant(s, create.table) && OwnIndexes(create, indexes)
    requires forall c :: c in create.constraints ==> Sound(s, create, c)
    ensures Run(s, [create] + indexes) == Some(after) && Grown(s, after, {create.table}, {})
    ensures "id" in create.columns && PrimaryKey(["id"]) in create.constraints ==> HasId(after, create.table)
    ensures create.table in after.tables && after.tables[create.table].triggers == map[]
  {
    var t := create.table;
    SoundIsLegal(s, create);
    var start := Apply(s, create);
    hide Legal, Apply, Vacant, HasId, Sound, OwnIndexes;
    RunConcat(s, [create], indexes);
    RunOne(s, create);
    IndexesAccepted(s, start, create, indexes);
    after := Run(start, indexes).value;
    OnTopGrown(s, after, create);
  }

  lemma SoundIsLegal(s: Schema, create: Op)
    requires create.CreateTable? && Vacant(s, create.table)
    requires forall c :: c in create.constraints ==> Sound(s, create, c)
    ensures Legal(s, create)
    ensures Topped(s, Apply(s, create), create)
  {
    var def := TableDef(create.columns, create.constraints, map[], map[], map[]);
    assert All(def) == create.constraints;
    hide Vacant, All;
    forall c | c in create.constraints
      ensures Fits(s.tables[create.table := def], def, c)
    {
      assert Sound(s, create, c);
    }
    assert Apply(s, create).tables - {create.table} == s.tables;
  }

  /** The new table on top of `s`, with indexes of its own stem only. */
  ghost predicate Topped(s: Schema, after: Schema, create: Op)
    requires create.CreateTable?
  {
    && OnTop(s, after, create.table)
    && after.tables[create.table].columns == create.columns
    && after.tables[create.table].constraints == create.constraints && after.tables[create.table].named == map[]
    && after.tables[create.table].triggers == map[]
    && forall i :: i in after.tables[create.table].indexes ==> i.Ix? && i.stem == create.table
  }

  lemma {:induction false} IndexesAccepted(s: Schema, start: Schema, create: Op, indexes: seq<Op>)
    requires create.CreateTable? && Vacant(s, create.table) && OwnIndexes(create, indexes)
    requires Topped(s, start, create) && start.tables[create.table].indexes == map[]
    ensures Run(start, indexes).Some? && Topped(s, Run(start, indexes).value, create)
    ensures forall i :: i in Run(start, indexes).value.tables[create.table].indexes ==>
              exists j :: 0 <= j < |indexes| && indexes[j].index == i
  {
    if indexes != [] {
      var before, last := indexes[..|indexes| - 1], indexes[|indexes| - 1];
      assert forall j :: 0 <= j < |before| ==> before[j] == indexes[j];
      IndexesAccepted(s, start, create, before);
      IndexAccepted(s, Run(start, before).value, create, last, before);
    }
  }

  lemma IndexAccepted(s: Schema, mid: Schema, create: Op, last: Op, before: seq<Op>)
    requires create.CreateTable? && Vacant(s, create.table) && Topped(s, mid, create)
    requires last.CreateIndex? && last.table == create.table && last.index.Ix? && last.index.stem == create.table
    requires forall c :: c in last.on ==> c in create.columns
    requires last.index !in mid.tables[create.table].indexes
    ensures Legal(mid, last) && Topped(s, Apply(mid, last), create)
    ensures Apply(mid, last).tables[create.table].indexes.Keys == mid.tables[create.table].indexes.Keys + {last.index}
  {
    forall u | u in mid.tables
      ensures last.index !in mid.tables[u].indexes
    {
      if u != create.table {
        assert u in mid.tables - {create.table};
        assert mid.tables[u] == s.tables[u];
      }
    }
    assert Apply(mid, last).tables - {create.table} == mid.tables - {create.table};
  }

  lemma OnTopGrown(s: Schema, after: Schema, create: Op)
    requires create.CreateTable? && Topped(s, after, create)
    ensures Grown(s, after, {create.table}, {})
    ensures "id" in create.columns && PrimaryKey(["id"]) in create.constraints ==> HasId(after, create.table)
  {
    assert forall u :: u in after.tables && u != create.table ==> u in after.tables - {create.table} && after.tables[u] == s.tables[u];
    assert forall u :: u in s.tables ==> u in after.tables - {create.table};
  }

  lemma VacantAfter(s: Schema, after: Schema, added: set<Table>, functions: set<string>, t: Table)
    requires Grown(s, after, added, functions) && Vacant(s, t) && t !in added
    ensures Vacant(after, t)
  {
    hide OwnStem, HasId;
  }

  /** A table changed in place, with indexes of its own stem at most added. */
  lemma PutGrown(s: Schema, t: Table, def: TableDef)
    requires t in s.tables
    requires forall i :: i in def.indexes ==> i in s.tables[t].indexes || (i.Ix? && i.stem == t)
    ensures Grown(s, Put(s, t, def), {t}, {})
  {
  }

  lemma OneAccepted(s: Schema, op: Op) returns (after: Schema)
    requires Legal(s, op)
    ensures after == Apply(s, op) && Run(s, [op]) == Some(after)
  {
    after := Apply(s, op);
    RunOne(s, op);
  }

  /** Two accepted scripts in a row. */
  lemma AcceptedThen(s: Schema, up1: seq<Op>, mid: Schema, up2: seq<Op>, after: Schema,
                     added1: set<Table>, added2: set<Table>, added: set<Table>,
                     functions1: set<string>, functions2: set<string>, functions: set<string>)
    requires added == added1 + added2 && functions == functions1 + functions2
    requires Run(s, up1) == Some(mid) && Run(mid, up2) == Some(after)
    requires Grown(s, mid, added1, functions1) && Grown(mid, after, added2, functions2)
    ensures Run(s, up1 + up2) == Some(after) && Grown(s, after, added, functions)
  {
    hide Run, Vacant, HasId;
    RunConcat(s, up1, up2);
  }

  /** Statements undone one by one, the last first. */
  lemma {:induction false} InversesUndo(ups: seq<Op>, downs: seq<Op>)
    requires |ups| == |downs| && forall i :: 0 <= i < |ups| ==> Inverse(ups[i], downs[|ups| - 1 - i])
    ensures Undoes(downs, ups)
  {
    hide Undoes, Inverse;
    if ups == [] {
      NothingUndoes();
    } else {
      var n := |ups| - 1;
      assert forall i :: 0 <= i < n ==> ups[..n][i] == ups[i] && downs[1..][n - 1 - i] == downs[n - i];
      InversesUndo(ups[..n], downs[1..]);
      InverseUndoes(ups[n], downs[0]);
      Compose(ups[..n], downs[1..], [ups[n]], [downs[0]]);
      assert ups == ups[..n] + [ups[n]] && downs == [downs[0]] + downs[1..];
    }
  }

  predicate NewColumns(s: Schema, t: Table, adds: seq<Op>) {
    && t in s.tables
    && (forall i :: 0 <= i < |adds| ==> adds[i].AddColumn? && adds[i].table == t && adds[i].column !in s.tables[t].columns)
    && (forall i, j :: 0 <= i < j < |adds| ==> adds[i] != adds[j] && adds[i].column != adds[j].column)
  }

  /** A table with more columns, and a schema with that table. */
  ghost predicate Widened(s: Schema, after: Schema, t: Table) {
    && t in s.tables && t in after.tables && after.functions == s.functions
    && after == Put(s, t, after.tables[t])
    && after.tables[t] == s.tables[t].(columns := after.tables[t].columns)
    && s.tables[t].columns.Keys <= after.tables[t].columns.Keys
  }

  lemma {:induction false} ColumnsAccepted(s: Schema, t: Table, adds: seq<Op>) returns (after: Schema)
    requires NewColumns(s, t, adds)
    ensures Run(s, adds) == Some(after) && Widened(s, after, t)
    ensures forall c :: c in after.tables[t].columns <==> c in s.tables[t].columns || exists i :: 0 <= i < |adds| && adds[i].column == c
  {
    if adds == [] {
      after := s;
      assert s.tables[t := s.tables[t]] == s.tables;
    } else {
      var before, last := adds[..|adds| - 1], adds[|adds| - 1];
      assert forall i :: 0 <= i < |before| ==> before[i] == adds[i];
      var mid := ColumnsAccepted(s, t, before);
      assert last.column !in mid.tables[t].columns;
      after := Apply(mid, last);
      ColumnAdded(s, mid, after, t, before, adds);
    }
  }

  lemma ColumnAdded(s: Schema, mid: Schema, after: Schema, t: Table, before: seq<Op>, adds: seq<Op>)
    requires NewColumns(s, t, adds) && adds != [] && before == adds[..|adds| - 1] && Widened(s, mid, t)
    requires Legal(mid, adds[|adds| - 1]) && after == Apply(mid, adds[|adds| - 1])
    requires forall c :: c in mid.tables[t].columns <==> c in s.tables[t].columns || exists i :: 0 <= i < |before| && before[i].column == c
    ensures Widened(s, after, t)
    ensures forall c :: c in after.tables[t].columns <==> c in s.tables[t].columns || exists i :: 0 <= i < |adds| && adds[i].column == c
  {
    assert after.tables == s.tables[t := after.tables[t]];
    forall c
      ensures c in after.tables[t].columns <==> c in s.tables[t].columns || exists i :: 0 <= i < |adds| && adds[i].column == c
    {
      if c in mid.tables[t].columns && c !in s.tables[t].columns {
        var i :| 0 <= i < |before| && before[i].column == c;
        assert adds[i].column == c;
      }
      if i :| 0 <= i < |adds| && adds[i].column == c {
        assert i < |before| ==> before[i].column == c;
      }
    }
  }

  datatype Revision = Revision(up: seq<Op>, down: seq<Op>)

  function Ups(chain: seq<Revision>): seq<Op> {
    if chain == [] then [] else Ups(chain[..|chain| - 1]) + chain[|chain| - 1].up
  }

  /** All downgrades, the last revision first. */
  function Downs(chain: seq<Revision>): seq<Op> {
    if chain == [] then [] else chain[|chain| - 1].down + Downs(chain[..|chain| - 1])
  }

  ghost predicate Reversible(chain: seq<Revision>) {
    forall i :: 0 <= i < |chain| ==> Undoes(chain[i].down, chain[i].up)
  }

  lemma {:induction false} ChainUndoes(chain: seq<Revision>)
    requires Reversible(chain)
    ensures Undoes(Downs(chain), Ups(chain))
  {
    hide Undoes;
    if chain == [] {
      NothingUndoes();
    } else {
      var before, last := chain[..|chain| - 1], chain[|chain| - 1];
      ChainUndoes(before);
      assert Undoes(last.down, last.up);
      Compose(Ups(before), Downs(before), last.up, last.down);
    }
  }

  lemma NothingUndoes()
    ensures Undoes([], [])
  {
    hide WellFormed, Legal, Apply;
  }

  /** The database. A command runs in one transaction: refused anywhere, it changes nothing. */
  class Database {
    var schema: Schema

    constructor (schema: Schema)
      ensures this.schema == schema
    {
      this.schema := schema;
    }

    method Execute(op: Op) returns (ok: bool)
      modifies this
      ensures ok <==> Legal(old(schema), op)
      ensures schema == if ok then Apply(old(schema), op) else old(schema)
    {
      ok := Legal(schema, op);
      if ok {
        schema := Apply(schema, op);
      }
    }

    method Migrate(script: seq<Op>) returns (ok: bool)
      modifies this
      ensures ok <==> Run(old(schema), script).Some?
      ensures schema == if ok then Run(old(schema), script).value else old(schema)
    {
      hide Legal, Apply;
      var start := schema;
      for i := 0 to |script|
        invariant Run(start, script[..i]) == Some(schema)
      {
        assert script[..i + 1][..i] == script[..i];
        assert script == script[..i + 1] + script[i + 1..];
        RunConcat(start, script[..i + 1], script[i + 1..]);
        ok := Execute(script[i]);
        if !ok {
          schema := start;
          return;
        }
      }
      assert script[..|script|] == script;
      ok := true;
    }

    /** Upgrade through a whole chain and downgrade all the way back: when the upgrades
        are accepted, so is every statement of the downgrades, and the schema is the
        starting one. */
    method UpgradeAndDowngrade(chain: seq<Revision>) returns (upgraded: bool, restored: bool)
      requires WellFormed(schema) && Reversible(chain)
      modifies this
      ensures upgraded <==> Run(old(schema), Ups(chain)).Some?
      ensures upgraded ==> restored
      ensures schema == old(schema)
    {
      hide WellFormed, Run, Reversible;
      ghost var start := schema;
      ChainUndoes(chain);
      restored := false;
      upgraded := UpgradeAll(chain);
      if upgraded {
        restored := DowngradeAll(chain, start);
      }
    }

    method UpgradeAll(chain: seq<Revision>) returns (ok: bool)
      modifies this
      ensures ok <==> Run(old(schema), Ups(chain)).Some?
      ensures schema == if ok then Run(old(schema), Ups(chain)).value else old(schema)
    {
      hide Legal, Apply;
      var start := schema;
      ok := true;
      for i := 0 to |chain|
        invariant Run(start, Ups(chain[..i])) == Some(schema)
      {
        hide Run;
        assert chain[..i + 1][..i] == chain[..i];
        RunConcat(start, Ups(chain[..i]), chain[i].up);
        ok := Migrate(chain[i].up);
        if !ok {
          UpsFail(start, chain, i + 1);
          schema := start;
          return;
        }
      }
      assert chain[..|chain|] == chain;
    }

    method DowngradeAll(chain: seq<Revision>, ghost start: Schema) returns (ok: bool)
      requires Run(schema, Downs(chain)) == Some(start)
      modifies this
      ensures ok && schema == start
    {
      hide Legal, Apply;
      ok := true;
      assert chain[..|chain|] == chain;
      for i := |chain| downto 0
        invariant ok && Run(schema, Downs(chain[..i])) == Some(start)
      {
        hide Run;
        assert chain[..i + 1][..i] == chain[..i];
        RunConcat(schema, chain[i].down, Downs(chain[..i]));
        ok := Migrate(chain[i].down);
      }
    }
  }

  lemma {:induction false} UpsFail(s: Schema, chain: seq<Revision>, i: nat)
    requires i <= |chain| && Run(s, Ups(chain[..i])).None?
    ensures Run(s, Ups(chain)).None?
    decreases |chain| - i
  {
    hide Run;
    if i < |chain| {
      assert chain[..i + 1][..i] == chain[..i];
      RunConcat(s, Ups(chain[..i]), chain[i].up);
      UpsFail(s, chain, i + 1);
    } else {
      assert chain[..i] == chain;
    }
  }
}
