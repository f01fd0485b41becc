// Declarative schema migration (crates/catalerum-api/src/db_migrate.rs): the additive planner,
// the meaning of the statements it emits, and what running them achieves.

module SchemaMigration {
  import opened Collections
  import opened SqlText

  datatype Column = Column(name: string, sqlType: string, nullable: bool, primaryKey: bool, default: Option<string>)
  datatype Table = Table(name: string, columns: seq<Column>, indexes: seq<Index>)

  /** A schema's tables with the nullability of their columns, and its index names. It is both
      what the database holds and, as far as introspection shows it, what the planner sees.
      Tables and indexes are relations alike: no two of either kind share a name. */
  datatype Schema = Schema(tables: map<string, map<string, bool>>, indexes: set<string>)

  datatype Statement =
    | CreateTable(table: string, columns: seq<Column>)
    | AddColumn(table: string, column: Column)
    | CreateIndex(table: string, index: Index)

  datatype Blocked = Blocked(table: string, column: string)
  datatype Plan = Plan(apply: seq<Statement>, blocked: seq<Blocked>)

  // ---------- The planner ----------

  /** A column an existing table can take on without looking at its rows. */
  predicate Addable(c: Column) {
    c.nullable || c.default.Some?
  }

  function Additions(table: string, cols: seq<Column>, existing: map<string, bool>): seq<Statement> {
    if cols == [] then []
    else
      var before, c := Additions(table, cols[..|cols| - 1], existing), cols[|cols| - 1];
      if c.name !in existing && Addable(c) then before + [AddColumn(table, c)] else before
  }

  function Refusals(table: string, cols: seq<Column>, existing: map<string, bool>): seq<Blocked> {
    if cols == [] then []
    else
      var before, c := Refusals(table, cols[..|cols| - 1], existing), cols[|cols| - 1];
      if c.name !in existing && !Addable(c) then before + [Blocked(table, c.name)] else before
  }

  function IndexPlan(table: string, indexes: seq<Index>, known: set<string>): seq<Statement> {
    if indexes == [] then []
    else
      var before, i := IndexPlan(table, indexes[..|indexes| - 1], known), indexes[|indexes| - 1];
      if i.name in known then before else before + [CreateIndex(table, i)]
  }

  function TableApply(t: Table, live: Schema): seq<Statement> {
    if t.name !in live.tables then [CreateTable(t.name, t.columns)] + IndexPlan(t.name, t.indexes, {})
    else Additions(t.name, t.columns, live.tables[t.name]) + IndexPlan(t.name, t.indexes, live.indexes)
  }

  function TableBlocked(t: Table, live: Schema): seq<Blocked> {
    if t.name in live.tables then Refusals(t.name, t.columns, live.tables[t.name]) else []
  }

  function PlanFor(desired: seq<Table>, live: Schema): Plan {
    if desired == [] then Plan([], [])
    else
      var before, t := PlanFor(desired[..|desired| - 1], live), desired[|desired| - 1];
      Plan(before.apply + TableApply(t, live), before.blocked + TableBlocked(t, live))
  }

  method DiffColumns(table: string, cols: seq<Column>, existing: map<string, bool>, start: Plan) returns (plan: Plan)
    ensures plan.apply == start.apply + Additions(table, cols, existing)
    ensures plan.blocked == start.blocked + Refusals(table, cols, existing)
  {
    plan := start;
    for i := 0 to |cols|
      invariant plan.apply == start.apply + Additions(table, cols[..i], existing)
      invariant plan.blocked == start.blocked + Refusals(table, cols[..i], existing)
    {
      assert cols[..i + 1][..i] == cols[..i];
      var col := cols[i];
      if col.name in existing {
        continue;
      }
      if !col.nullable && col.default.None? {
        plan := plan.(blocked := plan.blocked + [Blocked(table, col.name)]);
        continue;
      }
      plan := plan.(apply := plan.apply + [AddColumn(table, col)]);
    }
    assert cols[..|cols|] == cols;
  }

  method DiffIndexes(table: string, indexes: seq<Index>, known: set<string>, start: Plan) returns (plan: Plan)
    ensures plan == Plan(start.apply + IndexPlan(table, indexes, known), start.blocked)
  {
    plan := start;
    for i := 0 to |indexes|
      invariant plan == Plan(start.apply + IndexPlan(table, indexes[..i], known), start.blocked)
    {
      assert indexes[..i + 1][..i] == indexes[..i];
      if indexes[i].name !in known {
        plan := plan.(apply := plan.apply + [CreateIndex(table, indexes[i])]);
      }
    }
    assert indexes[..|indexes|] == indexes;
  }

  method Diff(desired: seq<Table>, live: Schema) returns (plan: Plan)
    ensures plan == PlanFor(desired, live)
  {
    plan := Plan([], []);
    for i := 0 to |desired|
      invariant plan == PlanFor(desired[..i], live)
    {
      assert desired[..i + 1][..i] == desired[..i];
      var t := desired[i];
      ghost var before := plan;
      if t.name !in live.tables {
        plan := plan.(apply := plan.apply + [CreateTable(t.name, t.columns)]);
        plan := DiffIndexes(t.name, t.indexes, {}, plan);
        Associate(before.apply, [CreateTable(t.name, t.columns)], IndexPlan(t.name, t.indexes, {}));
      } else {
        plan := DiffColumns(t.name, t.columns, live.tables[t.name], plan);
        plan := DiffIndexes(t.name, t.indexes, live.indexes, plan);
        Associate(before.apply, Additions(t.name, t.columns, live.tables[t.name]),
                  IndexPlan(t.name, t.indexes, live.indexes));
      }
    }
    assert desired[..|desired|] == desired;
  }

  // ---------- What the statements mean ----------

  function NamesOf(cols: seq<Column>): set<string> {
    set c | c in cols :: c.name
  }

  predicate DistinctColumns(cols: seq<Column>) {
    forall i, j :: 0 <= i < j < |cols| ==> cols[i].name != cols[j].name
  }

  /** Primary key columns are NOT NULL, whatever else was said of them. */
  function ColumnMap(cols: seq<Column>): (m: map<string, bool>)
    ensures m.Keys == NamesOf(cols)
  {
    if cols == [] then map[]
    else
      var c := cols[|cols| - 1];
      assert cols == cols[..|cols| - 1] + [c];
      ColumnMap(cols[..|cols| - 1])[c.name := c.nullable && !c.primaryKey]
  }

  /** No name is both a table's and an index's. */
  predicate OneNamespace(db: Schema) {
    forall t :: t in db.tables ==> t !in db.indexes
  }

  /** One statement on one database; `None` is an error. IF NOT EXISTS makes it a no-op when any
      relation has the name: a table keeps an index from being made, and the other way round. Adding
      a NOT NULL column without a default fails on a table with rows, and rows are not modelled: it
      is taken to fail. */
  function Exec(db: Schema, s: Statement): Option<Schema> {
    match s
    case CreateTable(table, columns) =>
      if table in db.tables || table in db.indexes then Some(db)
      else if !DistinctColumns(columns) then None
      else Some(db.(tables := db.tables[table := ColumnMap(columns)]))
    case AddColumn(table, c) =>
      if table !in db.tables then None
      else if c.name in db.tables[table] then Some(db)
      else if !Addable(c) then None
      else Some(db.(tables := db.tables[table := db.tables[table][c.name := c.nullable]]))
    case CreateIndex(table, index) =>
      if table !in db.tables || !Indexable(index, db.tables[table].Keys) then None
      else if index.name in db.tables then Some(db)
      else Some(db.(indexes := db.indexes + {index.name}))
  }

  predicate Indexable(index: Index, columns: set<string>) {
    index.columns != [] && forall c :: c in index.columns ==> c in columns
  }

  function ExecAll(db: Schema, statements: seq<Statement>): Option<Schema> {
    if statements == [] then Some(db)
    else
      match ExecAll(db, statements[..|statements| - 1])
      case None => None
      case Some(mid) => Exec(mid, statements[|statements| - 1])
  }

  /** Introspection goes through the columns, so a table without any is not seen. */
  function Introspected(db: Schema): Schema {
    Schema(map t | t in db.tables && db.tables[t] != map[] :: db.tables[t], db.indexes)
  }

  /** The whole endpoint: introspect, plan, and run the plan in one transaction. */
  function Migrate(db: Schema, desired: seq<Table>): Option<Schema> {
    ExecAll(db, PlanFor(desired, Introspected(db)).apply)
  }

  lemma ExecOneMore(db: Schema, before: seq<Statement>, s: Statement)
    ensures ExecAll(db, before + [s]) == match ExecAll(db, before) case None => None case Some(mid) => Exec(mid, s)
  {
  }

  lemma {:induction false} ExecConcat(db: Schema, a: seq<Statement>, b: seq<Statement>)
    ensures ExecAll(db, a + b) ==
            match ExecAll(db, a) case None => None case Some(mid) => ExecAll(mid, b)
  {
    if b == [] {
      assert a + b == a;
    } else {
      assert (a + b)[..|a + b| - 1] == a + b[..|b| - 1];
      ExecConcat(db, a, b[..|b| - 1]);
    }
  }

  // ---------- Every plan is additive ----------

  ghost predicate KeepsTable(a: Schema, b: Schema, t: string) {
    t in a.tables ==>
      t in b.tables && forall c :: c in a.tables[t] ==> c in b.tables[t] && b.tables[t][c] == a.tables[t][c]
  }

  ghost predicate Keeps(a: Schema, b: Schema) {
    (forall t :: KeepsTable(a, b, t)) && a.indexes <= b.indexes
  }

  lemma KeepsTransitive(a: Schema, b: Schema, c: Schema)
    requires Keeps(a, b) && Keeps(b, c)
    ensures Keeps(a, c)
  {
    forall t ensures KeepsTable(a, c, t) {
      assert KeepsTable(a, b, t) && KeepsTable(b, c, t);
    }
  }

  /** Running any of the three statements keeps every table, column, nullability and index. */
  lemma {:induction false} RunKeeps(db: Schema, statements: seq<Statement>)
    ensures match ExecAll(db, statements) case None => true case Some(out) => Keeps(db, out)
  {
    if statements != [] {
      RunKeeps(db, statements[..|statements| - 1]);
      match ExecAll(db, statements[..|statements| - 1]) {
        case None =>
        case Some(mid) =>
          var s := statements[|statements| - 1];
          if Exec(mid, s).Some? {
            assert Keeps(mid, Exec(mid, s).value);
            KeepsTransitive(db, mid, Exec(mid, s).value);
          }
      }
    }
  }

  lemma {:induction false} RunKeepsNamespace(db: Schema, statements: seq<Statement>)
    requires OneNamespace(db)
    ensures match ExecAll(db, statements) case None => true case Some(out) => OneNamespace(out)
  {
    if statements != [] {
      RunKeepsNamespace(db, statements[..|statements| - 1]);
    }
  }

  /** What the planner may emit: statements about tables it does or does not see, made from
      the desired schema only. */
  ghost predicate Planned(desired: seq<Table>, live: Schema, s: Statement) {
    exists d :: d in desired && d.name == s.table && FromTable(d, live, s)
  }

  ghost predicate FromTable(d: Table, live: Schema, s: Statement) {
    match s
    case CreateTable(t, columns) => t !in live.tables && columns == d.columns
    case AddColumn(t, c) => t in live.tables && c in d.columns && c.name !in live.tables[t] && Addable(c)
    case CreateIndex(t, i) => i in d.indexes && (t in live.tables ==> i.name !in live.indexes)
  }

  lemma {:induction false} AdditionsFrom(d: Table, cols: seq<Column>, live: Schema)
    requires d.name in live.tables && forall c :: c in cols ==> c in d.columns
    ensures forall s :: s in Additions(d.name, cols, live.tables[d.name]) ==> s.table == d.name && FromTable(d, live, s)
  {
    if cols != [] {
      AdditionsFrom(d, cols[..|cols| - 1], live);
    }
  }

  lemma {:induction false} IndexPlanFrom(d: Table, indexes: seq<Index>, known: set<string>, live: Schema)
    requires forall i :: i in indexes ==> i in d.indexes
    requires d.name in live.tables ==> known == live.indexes
    ensures forall s :: s in IndexPlan(d.name, indexes, known) ==> s.table == d.name && FromTable(d, live, s)
  {
    if indexes != [] {
      IndexPlanFrom(d, indexes[..|indexes| - 1], known, live);
    }
  }

  lemma TableApplyFrom(d: Table, live: Schema)
    ensures forall s :: s in TableApply(d, live) ==> s.table == d.name && FromTable(d, live, s)
  {
    if d.name in live.tables {
      AdditionsFrom(d, d.columns, live);
      IndexPlanFrom(d, d.indexes, live.indexes, live);
    } else {
      IndexPlanFrom(d, d.indexes, {}, live);
    }
  }

  lemma {:induction false} AdditionsIff(table: string, cols: seq<Column>, existing: map<string, bool>, c: Column)
    ensures AddColumn(table, c) in Additions(table, cols, existing) <==> c in cols && c.name !in existing && Addable(c)
  {
    if cols != [] {
      assert cols == cols[..|cols| - 1] + [cols[|cols| - 1]];
      AdditionsIff(table, cols[..|cols| - 1], existing, c);
    }
  }

  lemma {:induction false} IndexPlanIff(table: string, indexes: seq<Index>, known: set<string>, i: Index)
    ensures CreateIndex(table, i) in IndexPlan(table, indexes, known) <==> i in indexes && i.name !in known
  {
    if indexes != [] {
      assert indexes == indexes[..|indexes| - 1] + [indexes[|indexes| - 1]];
      IndexPlanIff(table, indexes[..|indexes| - 1], known, i);
    }
  }

  lemma TablePlanHasAll(d: Table, live: Schema, s: Statement)
    requires s.table == d.name && FromTable(d, live, s)
    ensures s in TableApply(d, live)
  {
    match s
    case CreateTable(t, columns) =>
    case AddColumn(t, c) => AdditionsIff(t, d.columns, live.tables[t], c);
    case CreateIndex(t, i) => IndexPlanIff(t, d.indexes, if t in live.tables then live.indexes else {}, i);
  }

  /** A statement is in the plan exactly when it makes an unseen table as described, adds to a seen
      table a missing column that is nullable or has a default, or makes an index of an unseen table
      or one missing from a seen one. */
  lemma {:induction false} PlanIs(desired: seq<Table>, live: Schema, s: Statement)
    ensures s in PlanFor(desired, live).apply <==> Planned(desired, live, s)
  {
    if desired != [] {
      var before, last := desired[..|desired| - 1], desired[|desired| - 1];
      PlanIs(before, live, s);
      OneMoreTable(desired, live, s);
      TableApplyIs(last, live, s);
      OneMorePlanned(before, last, live, s);
      assert desired == before + [last];
    }
  }

  lemma OneMoreTable(desired: seq<Table>, live: Schema, s: Statement)
    requires desired != []
    ensures s in PlanFor(desired, live).apply <==>
      s in PlanFor(desired[..|desired| - 1], live).apply || s in TableApply(desired[|desired| - 1], live)
  {
  }

  lemma TableApplyIs(d: Table, live: Schema, s: Statement)
    ensures s in TableApply(d, live) <==> s.table == d.name && FromTable(d, live, s)
  {
    TableApplyFrom(d, live);
    if s.table == d.name && FromTable(d, live, s) { TablePlanHasAll(d, live, s); }
  }

  /** The planner's half of additivity: nothing else is ever emitted, and in particular no
      NOT NULL column without a default for a table it sees. */
  lemma PlanIsAdditive(desired: seq<Table>, live: Schema)
    ensures forall s :: s in PlanFor(desired, live).apply ==> Planned(desired, live, s)
  {
    forall s | s in PlanFor(desired, live).apply ensures Planned(desired, live, s) { PlanIs(desired, live, s); }
  }

  lemma OneMorePlanned(before: seq<Table>, last: Table, live: Schema, s: Statement)
    ensures Planned(before + [last], live, s) <==>
      Planned(before, live, s) || (s.table == last.name && FromTable(last, live, s))
  {
    if Planned(before, live, s) {
      var d :| d in before && d.name == s.table && FromTable(d, live, s);
      assert d in before + [last];
    }
    assert last in before + [last];
  }

  /** The column is missing from its table as seen, and neither nullable nor with a default. */
  ghost predicate Unaddable(d: Table, col: Column, live: Schema) {
    d.name in live.tables && col in d.columns && col.name !in live.tables[d.name] && !col.nullable && col.default.None?
  }

  lemma {:induction false} RefusalsIff(table: string, cols: seq<Column>, existing: map<string, bool>, b: Blocked)
    ensures b in Refusals(table, cols, existing) <==>
      b.table == table && exists c ::
        c in cols && c.name == b.column && c.name !in existing && !c.nullable && c.default.None?
  {
    if cols != [] {
      assert cols == cols[..|cols| - 1] + [cols[|cols| - 1]];
      RefusalsIff(table, cols[..|cols| - 1], existing, b);
    }
  }

  /** What is reported as blocked: the NOT NULL columns without a default that a seen table lacks. */
  lemma {:induction false} BlockedIff(desired: seq<Table>, live: Schema, b: Blocked)
    ensures b in PlanFor(desired, live).blocked <==>
      exists d: Table, col: Column ::
        d in desired && d.name == b.table && col.name == b.column && Unaddable(d, col, live)
  {
    if desired != [] {
      var before, last := desired[..|desired| - 1], desired[|desired| - 1];
      assert desired == before + [last];
      BlockedIff(before, live, b);
      if last.name in live.tables {
        RefusalsIff(last.name, last.columns, live.tables[last.name], b);
        if b in TableBlocked(last, live) {
          var c :|
            && c in last.columns && c.name == b.column && c.name !in live.tables[last.name]
            && !c.nullable && c.default.None?;
          assert Unaddable(last, c, live);
        }
      }
    }
  }

  predicate DistinctTables(desired: seq<Table>) {
    forall i, j :: 0 <= i < j < |desired| ==> desired[i].name != desired[j].name
  }

  lemma AddedOnlyIfMissing(desired: seq<Table>, live: Schema, t: string, col: Column)
    requires AddColumn(t, col) in PlanFor(desired, live).apply
    ensures t in live.tables && col.name !in live.tables[t] && Addable(col)
  {
    PlanIs(desired, live, AddColumn(t, col));
  }

  lemma AddedIfAddable(desired: seq<Table>, live: Schema, d: Table, col: Column)
    requires d in desired && d.name in live.tables && col in d.columns && col.name !in live.tables[d.name]
    ensures if Addable(col) then AddColumn(d.name, col) in PlanFor(desired, live).apply
            else Blocked(d.name, col.name) in PlanFor(desired, live).blocked
  {
    if Addable(col) {
      PlanIs(desired, live, AddColumn(d.name, col));
      assert FromTable(d, live, AddColumn(d.name, col));
    } else {
      BlockedIff(desired, live, Blocked(d.name, col.name));
      assert Unaddable(d, col, live);
    }
  }

  /** The column a blocked entry is about; with distinct names there is one. */
  lemma BlockedColumn(desired: seq<Table>, live: Schema, d: Table, col: Column)
    requires d in desired && col in d.columns && Blocked(d.name, col.name) in PlanFor(desired, live).blocked
    ensures d.name in live.tables && col.name !in live.tables[d.name]
    ensures DistinctTables(desired) && DistinctColumns(d.columns) ==> !Addable(col)
  {
    BlockedIff(desired, live, Blocked(d.name, col.name));
    var e: Table, c: Column :| e in desired && e.name == d.name && c.name == col.name && Unaddable(e, c, live);
    if DistinctTables(desired) && DistinctColumns(d.columns) {
      OneTableOfAName(desired, d, e);
      OneColumnOfAName(d.columns, col, c);
    }
  }

  lemma OneTableOfAName(desired: seq<Table>, d: Table, e: Table)
    requires DistinctTables(desired) && d in desired && e in desired && d.name == e.name
    ensures d == e
  {
    var i :| 0 <= i < |desired| && desired[i] == d;
    var j :| 0 <= j < |desired| && desired[j] == e;
    assert i == j;
  }

  lemma OneColumnOfAName(cols: seq<Column>, a: Column, b: Column)
    requires DistinctColumns(cols) && a in cols && b in cols && a.name == b.name
    ensures a == b
  {
    var i :| 0 <= i < |cols| && cols[i] == a;
    var j :| 0 <= j < |cols| && cols[j] == b;
    assert i == j;
  }

  /** Nothing wanted of a seen table goes unmentioned: each column is there, added or blocked, and with
      distinct names it is just one of the three. */
  lemma EveryColumnIsAccountedFor(desired: seq<Table>, live: Schema, d: Table, col: Column)
    requires d in desired && d.name in live.tables && col in d.columns
    ensures var plan := PlanFor(desired, live);
      var there := col.name in live.tables[d.name];
      var added, blocked := AddColumn(d.name, col) in plan.apply, Blocked(d.name, col.name) in plan.blocked;
      && (there || added || blocked) && !(there && added) && !(there && blocked)
      && (DistinctTables(desired) && DistinctColumns(d.columns) ==> !(added && blocked))
  {
    if col.name !in live.tables[d.name] { AddedIfAddable(desired, live, d, col); }
    if AddColumn(d.name, col) in PlanFor(desired, live).apply { AddedOnlyIfMissing(desired, live, d.name, col); }
    if Blocked(d.name, col.name) in PlanFor(desired, live).blocked { BlockedColumn(desired, live, d, col); }
  }

  /** A column found after the run: it was there with this nullability, or the desired schema
      describes it - as written when added to a table, with the primary key made NOT NULL when
      created along with it. */
  ghost predicate ColumnAccounted(db: Schema, desired: seq<Table>, t: string, c: string, nullable: bool) {
    || (t in db.tables && c in db.tables[t] && db.tables[t][c] == nullable)
    || exists d, col ::
         d in desired && col in d.columns && d.name == t && col.name == c && Described(db, d, col, nullable)
  }

  ghost predicate Described(db: Schema, d: Table, col: Column, nullable: bool) {
    if d.name in db.tables then Addable(col) && nullable == col.nullable
    else nullable == (col.nullable && !col.primaryKey)
  }

  ghost predicate TableAccounted(db: Schema, desired: seq<Table>, out: Schema, t: string) {
    t in out.tables ==>
      && (t in db.tables || exists d :: d in desired && d.name == t)
      && forall c :: c in out.tables[t] ==> ColumnAccounted(db, desired, t, c, out.tables[t][c])
  }

  ghost predicate IndexAccounted(db: Schema, desired: seq<Table>, x: string) {
    x in db.indexes || exists d, i :: d in desired && i in d.indexes && i.name == x
  }

  ghost predicate Accounted(db: Schema, desired: seq<Table>, out: Schema) {
    && (forall t :: TableAccounted(db, desired, out, t))
    && (forall x :: x in out.indexes ==> IndexAccounted(db, desired, x))
  }

  lemma {:induction false} ColumnMapTells(cols: seq<Column>, c: string)
    requires DistinctColumns(cols) && c in ColumnMap(cols)
    ensures exists col :: col in cols && col.name == c && ColumnMap(cols)[c] == (col.nullable && !col.primaryKey)
  {
    var last := cols[|cols| - 1];
    if last.name == c {
      assert last in cols;
    } else {
      ColumnMapTells(cols[..|cols| - 1], c);
    }
  }

  lemma StatementAccounted(db: Schema, desired: seq<Table>, mid: Schema, s: Statement)
    requires Accounted(db, desired, mid) && Planned(desired, Introspected(db), s) && Keeps(db, mid)
    requires Exec(mid, s).Some?
    ensures Accounted(db, desired, Exec(mid, s).value)
  {
    var out := Exec(mid, s).value;
    var d :| d in desired && d.name == s.table && FromTable(d, Introspected(db), s);
    assert KeepsTable(db, mid, s.table);
    forall t ensures TableAccounted(db, desired, out, t) {
      assert TableAccounted(db, desired, mid, t);
      if t == s.table && t in out.tables {
        forall c | c in out.tables[t] ensures ColumnAccounted(db, desired, t, c, out.tables[t][c]) {
          if t in mid.tables && c in mid.tables[t] {
            assert out.tables[t][c] == mid.tables[t][c];
          } else if s.AddColumn? {
            assert s.column in d.columns && Described(db, d, s.column, out.tables[t][c]);
          } else {
            ColumnMapTells(d.columns, c);
            var col :| col in d.columns && col.name == c && out.tables[t][c] == (col.nullable && !col.primaryKey);
            assert Described(db, d, col, out.tables[t][c]);
          }
        }
      }
    }
  }

  lemma {:induction false} RunAccounted(db: Schema, desired: seq<Table>, statements: seq<Statement>)
    requires forall s :: s in statements ==> Planned(desired, Introspected(db), s)
    ensures match ExecAll(db, statements) case None => true case Some(out) => Accounted(db, desired, out)
  {
    if statements == [] {
      forall t ensures TableAccounted(db, desired, db, t) {
      }
    } else {
      var before, s := statements[..|statements| - 1], statements[|statements| - 1];
      RunAccounted(db, desired, before);
      RunKeeps(db, before);
      match ExecAll(db, before) {
        case None =>
        case Some(mid) => if Exec(mid, s).Some? { StatementAccounted(db, desired, mid, s); }
      }
    }
  }

  /** A migration that runs keeps everything there was, and everything it adds is something the
      desired schema describes. */
  lemma MigrationIsAdditive(db: Schema, desired: seq<Table>)
    requires Migrate(db, desired).Some?
    ensures Keeps(db, Migrate(db, desired).value)
    ensures Accounted(db, desired, Migrate(db, desired).value)
  {
    PlanIsAdditive(desired, Introspected(db));
    RunKeeps(db, PlanFor(desired, Introspected(db)).apply);
    RunAccounted(db, desired, PlanFor(desired, Introspected(db)).apply);
  }
}
