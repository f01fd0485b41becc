// What one, two and any number of declarative migrations achieve: exactly when a plan runs,
// when planning again comes back empty, and what is blocked again (crates/catalerum-api/src/db_migrate.rs).

module SchemaConvergence {
  import opened Collections
  import opened SqlText
  import opened SchemaMigration

  /** Introspection shows the table: it has a column. */
  predicate Visible(db: Schema, t: string) {
    t in db.tables && db.tables[t] != map[]
  }

  /** The index names a plan for this table leaves out. */
  function Known(db: Schema, t: string): set<string> {
    if Visible(db, t) then db.indexes else {}
  }

  // ---------- When a plan is empty ----------

  predicate HasColumns(cols: seq<Column>, existing: map<string, bool>) {
    forall c :: c in cols && Addable(c) ==> c.name in existing
  }

  predicate HasIndexes(indexes: seq<Index>, known: set<string>) {
    forall i :: i in indexes ==> i.name in known
  }

  lemma {:induction false} NoAdditions(table: string, cols: seq<Column>, existing: map<string, bool>)
    ensures Additions(table, cols, existing) == [] <==> HasColumns(cols, existing)
  {
    if cols != [] {
      var before, last := cols[..|cols| - 1], cols[|cols| - 1];
      assert cols == before + [last];
      NoAdditions(table, before, existing);
    }
  }

  lemma {:induction false} NoIndexPlan(table: string, indexes: seq<Index>, known: set<string>)
    ensures IndexPlan(table, indexes, known) == [] <==> HasIndexes(indexes, known)
  {
    if indexes != [] {
      var before, last := indexes[..|indexes| - 1], indexes[|indexes| - 1];
      assert indexes == before + [last];
      NoIndexPlan(table, before, known);
    }
  }

  /** Planning finds nothing to apply. */
  predicate Converged(db: Schema, desired: seq<Table>) {
    PlanFor(desired, Introspected(db)).apply == []
  }

  predicate Satisfied(d: Table, live: Schema) {
    && d.name in live.tables
    && HasColumns(d.columns, live.tables[d.name])
    && HasIndexes(d.indexes, live.indexes)
  }

  lemma TableApplyIsEmptyIff(d: Table, live: Schema)
    ensures TableApply(d, live) == [] <==> Satisfied(d, live)
  {
    if d.name in live.tables {
      NoAdditions(d.name, d.columns, live.tables[d.name]);
      NoIndexPlan(d.name, d.indexes, live.indexes);
    } else {
      assert TableApply(d, live)[0] == CreateTable(d.name, d.columns);
    }
  }

  /** Nothing to apply means every table is seen with all it can be given. */
  lemma {:induction false} PlanIsEmptyIff(desired: seq<Table>, live: Schema)
    ensures PlanFor(desired, live).apply == [] <==> forall d :: d in desired ==> Satisfied(d, live)
  {
    if desired != [] {
      var before, d := desired[..|desired| - 1], desired[|desired| - 1];
      assert desired == before + [d];
      PlanIsEmptyIff(before, live);
      TableApplyIsEmptyIff(d, live);
      assert |PlanFor(desired, live).apply| == |PlanFor(before, live).apply| + |TableApply(d, live)|;
    }
  }

  // ---------- What running one table's statements does ----------

  function AddableNames(cols: seq<Column>): set<string> {
    if cols == [] then {}
    else
      var before, last := AddableNames(cols[..|cols| - 1]), cols[|cols| - 1];
      if Addable(last) then before + {last.name} else before
  }

  function IndexNames(desired: seq<Table>): set<string> {
    if desired == [] then {}
    else IndexNames(desired[..|desired| - 1]) + NamesIn(desired[|desired| - 1].indexes)
  }

  function NamesIn(indexes: seq<Index>): set<string> {
    set i | i in indexes :: i.name
  }

  /** A name no new table can have: an index has it, or gets it from a table planned before. */
  predicate Taken(db: Schema, before: seq<Table>, name: string) {
    name in db.indexes || name in IndexNames(before)
  }

  /** The columns a table ends up with; none when it is hidden or its name is taken. */
  function FinalColumns(db: Schema, before: seq<Table>, d: Table): set<string> {
    if d.name in db.tables then
      if db.tables[d.name] == map[] then {} else db.tables[d.name].Keys + AddableNames(d.columns)
    else if Taken(db, before, d.name) then {} else NamesOf(d.columns)
  }

  /** The run succeeded and gave the table these columns besides its own. */
  ghost predicate Extended(mid: Schema, out: Option<Schema>, table: string, names: set<string>) {
    && table in mid.tables && out.Some? && table in out.value.tables
    && out.value.tables[table].Keys == mid.tables[table].Keys + names
    && out.value.indexes == mid.indexes
  }

  lemma {:induction false} RunAdditions(mid: Schema, table: string, cols: seq<Column>, existing: map<string, bool>)
    requires table in mid.tables && existing.Keys <= mid.tables[table].Keys
    ensures Extended(mid, ExecAll(mid, Additions(table, cols, existing)), table, AddableNames(cols))
  {
    if cols != [] {
      var before, last := cols[..|cols| - 1], cols[|cols| - 1];
      RunAdditions(mid, table, before, existing);
      var adds := Additions(table, before, existing);
      if last.name !in existing && Addable(last) {
        ExecOneMore(mid, adds, AddColumn(table, last));
      } else {
        assert Additions(table, cols, existing) == adds;
      }
    }
  }

  predicate AllIndexable(indexes: seq<Index>, known: set<string>, columns: set<string>) {
    forall i :: i in indexes && i.name !in known ==> Indexable(i, columns)
  }

  function ColumnsOf(db: Schema, table: string): set<string> {
    if table in db.tables then db.tables[table].Keys else {}
  }

  lemma NothingIndexable(i: Index)
    ensures !Indexable(i, {})
  {
    assert i.columns != [] ==> i.columns[0] in i.columns;
  }

  lemma {:induction false} IndexPlanRunsIff(mid: Schema, table: string, indexes: seq<Index>, known: set<string>)
    ensures ExecAll(mid, IndexPlan(table, indexes, known)).Some? <==>
      AllIndexable(indexes, known, ColumnsOf(mid, table))
    ensures ExecAll(mid, IndexPlan(table, indexes, known)).Some? ==>
      ExecAll(mid, IndexPlan(table, indexes, known)).value.tables == mid.tables
  {
    if indexes != [] {
      var before, last := indexes[..|indexes| - 1], indexes[|indexes| - 1];
      assert indexes == before + [last];
      IndexPlanRunsIff(mid, table, before, known);
      NothingIndexable(last);
      ExecOneMore(mid, IndexPlan(table, before, known), CreateIndex(table, last));
    }
  }

  predicate NamedIn(db: Schema, name: string) {
    name in db.tables || name in db.indexes
  }

  /** The index names columns its table has. */
  predicate Fits(db: Schema, table: string, i: Index) {
    table in db.tables && Indexable(i, db.tables[table].Keys)
  }

  predicate IndexLanded(known: set<string>, out: Schema, table: string, i: Index) {
    i.name in known || (NamedIn(out, i.name) && Fits(out, table, i))
  }

  lemma {:induction false} IndexesLand(mid: Schema, table: string, indexes: seq<Index>, known: set<string>)
    ensures match ExecAll(mid, IndexPlan(table, indexes, known))
            case None => true
            case Some(out) => forall i :: i in indexes ==> IndexLanded(known, out, table, i)
  {
    if indexes != [] {
      var before, last := indexes[..|indexes| - 1], indexes[|indexes| - 1];
      assert indexes == before + [last];
      IndexesLand(mid, table, before, known);
      ExecOneMore(mid, IndexPlan(table, before, known), CreateIndex(table, last));
      IndexPlanRunsIff(mid, table, indexes, known);
      IndexPlanRunsIff(mid, table, before, known);
    }
  }

  /** What a table needs for its statements to run: no column twice if it is to be created, and
      every index it is still missing to name columns the table will have. */
  predicate Ready(db: Schema, before: seq<Table>, d: Table) {
    && (d.name !in db.tables && !Taken(db, before, d.name) ==> DistinctColumns(d.columns))
    && AllIndexable(d.indexes, Known(db, d.name), FinalColumns(db, before, d))
  }

  predicate AllReady(db: Schema, desired: seq<Table>) {
    if desired == [] then true
    else
      var before, last := desired[..|desired| - 1], desired[|desired| - 1];
      AllReady(db, before) && Ready(db, before, last)
  }

  ghost predicate SameTable(a: Schema, b: Schema, t: string) {
    (t in a.tables <==> t in b.tables) && (t in a.tables ==> a.tables[t] == b.tables[t])
  }

  /** CREATE TABLE on its own. */
  lemma RunCreate(mid: Schema, d: Table)
    ensures ExecAll(mid, [CreateTable(d.name, d.columns)]) == Exec(mid, CreateTable(d.name, d.columns))
  {
    assert [] + [CreateTable(d.name, d.columns)] == [CreateTable(d.name, d.columns)];
  }

  lemma RunTable(db: Schema, mid: Schema, before: seq<Table>, d: Table)
    requires SameTable(db, mid, d.name)
    requires d.name !in db.tables ==> (d.name in mid.indexes <==> Taken(db, before, d.name))
    ensures ExecAll(mid, TableApply(d, Introspected(db))).Some? <==> Ready(db, before, d)
  {
    if Visible(db, d.name) {
      var adds := Additions(d.name, d.columns, db.tables[d.name]);
      ExecConcat(mid, adds, IndexPlan(d.name, d.indexes, db.indexes));
      RunAdditions(mid, d.name, d.columns, db.tables[d.name]);
      IndexPlanRunsIff(ExecAll(mid, adds).value, d.name, d.indexes, db.indexes);
    } else {
      ExecConcat(mid, [CreateTable(d.name, d.columns)], IndexPlan(d.name, d.indexes, {}));
      RunCreate(mid, d);
      var created := Exec(mid, CreateTable(d.name, d.columns));
      if created.Some? {
        IndexPlanRunsIff(created.value, d.name, d.indexes, {});
      }
    }
  }

  // ---------- Statements about one table leave the others alone ----------

  lemma {:induction false} RunLeavesOthers(db: Schema, statements: seq<Statement>, t: string)
    requires forall s :: s in statements ==> s.table != t
    ensures match ExecAll(db, statements) case None => true case Some(out) => SameTable(db, out, t)
  {
    if statements != [] {
      RunLeavesOthers(db, statements[..|statements| - 1], t);
    }
  }

  lemma PlanLeavesOthers(db: Schema, desired: seq<Table>, live: Schema, t: string)
    requires forall d :: d in desired ==> d.name != t
    ensures match ExecAll(db, PlanFor(desired, live).apply) case None => true case Some(out) => SameTable(db, out, t)
  {
    PlanIsAdditive(desired, live);
    forall s | s in PlanFor(desired, live).apply ensures s.table != t {
      assert Planned(desired, live, s);
    }
    RunLeavesOthers(db, PlanFor(desired, live).apply, t);
  }

  // ---------- What a migration leaves behind, duplicates and clashes or not ----------

  ghost predicate Landed(db: Schema, out: Schema, d: Table) {
    && NamedIn(out, d.name)
    && (Visible(db, d.name) ==> d.name in out.tables && HasColumns(d.columns, out.tables[d.name]))
    && forall i :: i in d.indexes ==> IndexLanded(Known(db, d.name), out, d.name, i)
  }

  lemma IndexLandedStays(known: set<string>, mid: Schema, out: Schema, table: string, i: Index)
    requires IndexLanded(known, mid, table, i) && Keeps(mid, out)
    ensures IndexLanded(known, out, table, i)
  {
    assert KeepsTable(mid, out, table) && KeepsTable(mid, out, i.name);
  }

  lemma LandedStays(db: Schema, mid: Schema, out: Schema, d: Table)
    requires Landed(db, mid, d) && Keeps(mid, out)
    ensures Landed(db, out, d)
  {
    assert KeepsTable(mid, out, d.name);
    forall i | i in d.indexes ensures IndexLanded(Known(db, d.name), out, d.name, i) {
      IndexLandedStays(Known(db, d.name), mid, out, d.name, i);
    }
  }

  lemma VisibleLands(db: Schema, mid: Schema, d: Table)
    requires Keeps(db, mid) && Visible(db, d.name) && ExecAll(mid, TableApply(d, Introspected(db))).Some?
    ensures Landed(db, ExecAll(mid, TableApply(d, Introspected(db))).value, d)
  {
    assert KeepsTable(db, mid, d.name);
    var adds, creates := Additions(d.name, d.columns, db.tables[d.name]), IndexPlan(d.name, d.indexes, db.indexes);
    RunAdditions(mid, d.name, d.columns, db.tables[d.name]);
    var added := ExecAll(mid, adds).value;
    RunKeeps(mid, adds);
    RunKeeps(added, creates);
    ExecConcat(mid, adds, creates);
    var out := ExecAll(added, creates).value;
    IndexesLand(added, d.name, d.indexes, db.indexes);
    ColumnsLand(d.columns, added.tables[d.name]);
    ColumnsStay(d, added, out);
  }

  lemma ColumnsStay(d: Table, mid: Schema, out: Schema)
    requires Keeps(mid, out) && d.name in mid.tables && HasColumns(d.columns, mid.tables[d.name])
    ensures d.name in out.tables && HasColumns(d.columns, out.tables[d.name])
  {
    assert KeepsTable(mid, out, d.name);
  }

  lemma HiddenLands(db: Schema, mid: Schema, d: Table)
    requires !Visible(db, d.name) && ExecAll(mid, TableApply(d, Introspected(db))).Some?
    ensures Landed(db, ExecAll(mid, TableApply(d, Introspected(db))).value, d)
  {
    var create, creates := [CreateTable(d.name, d.columns)], IndexPlan(d.name, d.indexes, {});
    ExecConcat(mid, create, creates);
    RunCreate(mid, d);
    var created := Exec(mid, create[0]).value;
    IndexesLand(created, d.name, d.indexes, {});
    RunKeeps(created, creates);
    var out := ExecAll(created, creates).value;
    assert KeepsTable(created, out, d.name);
  }

  lemma {:induction false} ColumnsLand(cols: seq<Column>, m: map<string, bool>)
    requires AddableNames(cols) <= m.Keys
    ensures HasColumns(cols, m)
  {
    if cols != [] {
      assert cols == cols[..|cols| - 1] + [cols[|cols| - 1]];
      ColumnsLand(cols[..|cols| - 1], m);
    }
  }

  lemma TableLands(db: Schema, mid: Schema, d: Table)
    requires Keeps(db, mid) && ExecAll(mid, TableApply(d, Introspected(db))).Some?
    ensures Landed(db, ExecAll(mid, TableApply(d, Introspected(db))).value, d)
  {
    if Visible(db, d.name) { VisibleLands(db, mid, d); } else { HiddenLands(db, mid, d); }
  }

  ghost predicate AllLanded(db: Schema, out: Schema, tables: seq<Table>) {
    tables == [] || (AllLanded(db, out, tables[..|tables| - 1]) && Landed(db, out, tables[|tables| - 1]))
  }

  lemma {:induction false} AllStay(db: Schema, mid: Schema, out: Schema, tables: seq<Table>)
    requires AllLanded(db, mid, tables) && Keeps(mid, out)
    ensures AllLanded(db, out, tables)
  {
    if tables != [] {
      AllStay(db, mid, out, tables[..|tables| - 1]);
      LandedStays(db, mid, out, tables[|tables| - 1]);
    }
  }

  lemma {:induction false} LandedOf(db: Schema, out: Schema, tables: seq<Table>, d: Table)
    requires AllLanded(db, out, tables) && d in tables
    ensures Landed(db, out, d)
  {
    if d != tables[|tables| - 1] {
      LandedOf(db, out, tables[..|tables| - 1], d);
    }
  }

  lemma {:induction false} PrefixLands(db: Schema, prefix: seq<Table>)
    requires ExecAll(db, PlanFor(prefix, Introspected(db)).apply).Some?
    ensures AllLanded(db, ExecAll(db, PlanFor(prefix, Introspected(db)).apply).value, prefix)
    decreases |prefix|
  {
    if prefix != [] {
      var before, d := prefix[..|prefix| - 1], prefix[|prefix| - 1];
      var first, more := PlanFor(before, Introspected(db)).apply, TableApply(d, Introspected(db));
      ExecConcat(db, first, more);
      PrefixLands(db, before);
      var mid := ExecAll(db, first).value;
      RunKeeps(db, first);
      RunKeeps(mid, more);
      TableLands(db, mid, d);
      AllStay(db, mid, ExecAll(mid, more).value, before);
    }
  }

  lemma MigrationLands(db: Schema, desired: seq<Table>, out: Schema, d: Table)
    requires Migrate(db, desired) == Some(out) && d in desired
    ensures Landed(db, out, d)
  {
    PrefixLands(db, desired);
    LandedOf(db, out, desired, d);
  }

  // ---------- A plan runs exactly when every table is ready ----------

  lemma {:induction false} IndexNamesAre(desired: seq<Table>, name: string)
    ensures name in IndexNames(desired) <==> exists d, i :: d in desired && i in d.indexes && i.name == name
  {
    if desired != [] {
      var before, last := desired[..|desired| - 1], desired[|desired| - 1];
      assert desired == before + [last];
      IndexNamesAre(before, name);
    }
  }

  /** Which names without a table are an index's after the run. */
  lemma NamesTakenAfter(db: Schema, prefix: seq<Table>, mid: Schema, name: string)
    requires Migrate(db, prefix) == Some(mid) && name !in mid.tables
    ensures name in mid.indexes <==> Taken(db, prefix, name)
  {
    MigrationIsAdditive(db, prefix);
    IndexNamesAre(prefix, name);
    if name in mid.indexes {
      assert IndexAccounted(db, prefix, name);
    }
    if name in IndexNames(prefix) {
      var d, i :| d in prefix && i in d.indexes && i.name == name;
      MigrationLands(db, prefix, mid, d);
      assert IndexLanded(Known(db, d.name), mid, d.name, i);
    }
  }

  /** A plan for a schema naming each table once runs exactly when every table is ready. */
  lemma {:induction false} MigrationRunsIff(db: Schema, desired: seq<Table>)
    requires DistinctTables(desired)
    ensures Migrate(db, desired).Some? <==> AllReady(db, desired)
    decreases |desired|
  {
    if desired != [] {
      var before, d, live := desired[..|desired| - 1], desired[|desired| - 1], Introspected(db);
      MigrationRunsIff(db, before);
      ExecConcat(db, PlanFor(before, live).apply, TableApply(d, live));
      match Migrate(db, before) {
        case None =>
        case Some(mid) =>
          PlanLeavesOthers(db, before, live, d.name);
          if d.name !in db.tables { NamesTakenAfter(db, before, mid, d.name); }
          RunTable(db, mid, before, d);
      }
    }
  }

  // ---------- A migration that ran once always runs again ----------

  lemma VisibleRunsAgain(db: Schema, mid: Schema, cur: Schema, d: Table)
    requires Keeps(db, mid) && Keeps(mid, cur) && Landed(db, mid, d) && Visible(mid, d.name)
    ensures ExecAll(cur, TableApply(d, Introspected(mid))).Some?
  {
    assert KeepsTable(mid, cur, d.name);
    var adds := Additions(d.name, d.columns, mid.tables[d.name]);
    RunAdditions(cur, d.name, d.columns, mid.tables[d.name]);
    var added := ExecAll(cur, adds).value;
    ExecConcat(cur, adds, IndexPlan(d.name, d.indexes, mid.indexes));
    IndexPlanRunsIff(added, d.name, d.indexes, mid.indexes);
    forall i | i in d.indexes && i.name !in mid.indexes ensures Indexable(i, added.tables[d.name].Keys) {
      assert IndexLanded(Known(db, d.name), mid, d.name, i);
    }
  }

  /** A table still hidden after a run can have had no index: its CREATE INDEX would have failed. */
  lemma HiddenHasNoIndexes(db: Schema, mid: Schema, d: Table)
    requires Keeps(db, mid) && Landed(db, mid, d) && !Visible(mid, d.name)
    ensures d.indexes == []
  {
    if Visible(db, d.name) {
      StillVisible(db, mid, d.name);
    } else {
      forall k | 0 <= k < |d.indexes| ensures Fits(mid, d.name, d.indexes[k]) {
        assert IndexLanded(Known(db, d.name), mid, d.name, d.indexes[k]);
      }
      if d.indexes != [] { NothingFits(mid, d.name, d.indexes[0]); }
    }
  }

  lemma NothingFits(db: Schema, table: string, i: Index)
    requires !Visible(db, table)
    ensures !Fits(db, table, i)
  {
    NothingIndexable(i);
  }

  lemma HiddenRunsAgain(db: Schema, mid: Schema, cur: Schema, d: Table)
    requires Keeps(db, mid) && Keeps(mid, cur) && Landed(db, mid, d) && !Visible(mid, d.name)
    ensures ExecAll(cur, TableApply(d, Introspected(mid))).Some?
  {
    HiddenHasNoIndexes(db, mid, d);
    RunCreate(cur, d);
    assert KeepsTable(mid, cur, d.name);
    assert TableApply(d, Introspected(mid)) == [CreateTable(d.name, d.columns)];
  }

  lemma {:induction false} PrefixRunsAgain(db: Schema, mid: Schema, prefix: seq<Table>)
    requires Keeps(db, mid) && AllLanded(db, mid, prefix)
    ensures Migrate(mid, prefix).Some?
    decreases |prefix|
  {
    if prefix != [] {
      var before, d := prefix[..|prefix| - 1], prefix[|prefix| - 1];
      var first := PlanFor(before, Introspected(mid)).apply;
      PrefixRunsAgain(db, mid, before);
      RunKeeps(mid, first);
      var cur := ExecAll(mid, first).value;
      ExecConcat(mid, first, TableApply(d, Introspected(mid)));
      if Visible(mid, d.name) { VisibleRunsAgain(db, mid, cur, d); } else { HiddenRunsAgain(db, mid, cur, d); }
    }
  }

  /** Whatever the desired schema, a migration that ran once runs again. */
  lemma MigrationRunsAgain(db: Schema, desired: seq<Table>)
    requires Migrate(db, desired).Some?
    ensures Migrate(Migrate(db, desired).value, desired).Some?
  {
    MigrationIsAdditive(db, desired);
    PrefixLands(db, desired);
    PrefixRunsAgain(db, Migrate(db, desired).value, desired);
  }

  lemma StillVisible(db: Schema, out: Schema, name: string)
    requires Visible(db, name) && Keeps(db, out)
    ensures Visible(out, name)
  {
    assert KeepsTable(db, out, name);
    var c :| c in db.tables[name];
    assert c in out.tables[name];
  }

  // ---------- What is created under a name ----------

  /** The first desired table of a name decides what is created under it. */
  function First(desired: seq<Table>, name: string): Option<Table> {
    if desired == [] then None
    else
      var before, last := First(desired[..|desired| - 1], name), desired[|desired| - 1];
      if before.Some? then before else if last.name == name then Some(last) else None
  }

  lemma {:induction false} FirstIsFirst(desired: seq<Table>, name: string)
    ensures First(desired, name).Some? ==>
      First(desired, name).value in desired && First(desired, name).value.name == name
    ensures First(desired, name).None? ==> forall d :: d in desired ==> d.name != name
    ensures DistinctTables(desired) ==> forall d :: d in desired && d.name == name ==> First(desired, name) == Some(d)
  {
    if desired != [] {
      var before := desired[..|desired| - 1];
      assert desired == before + [desired[|desired| - 1]];
      FirstIsFirst(before, name);
    }
  }

  /** What a table that introspection does not show holds after the plan's statements for a
      prefix of the desired tables. */
  ghost predicate CreatedFrom(db: Schema, out: Schema, first: Option<Table>, name: string) {
    if name in db.tables then name in out.tables && out.tables[name] == db.tables[name]
    else
      && (first.Some? ==> NamedIn(out, name))
      && (name in out.tables ==> first.Some? && out.tables[name] == ColumnMap(first.value.columns))
  }

  lemma OneMoreCreated(db: Schema, mid: Schema, d: Table, first: Option<Table>, name: string)
    requires !Visible(db, name) && CreatedFrom(db, mid, first, name)
    requires ExecAll(mid, TableApply(d, Introspected(db))).Some?
    ensures CreatedFrom(db, ExecAll(mid, TableApply(d, Introspected(db))).value,
                        if first.Some? then first else if d.name == name then Some(d) else None, name)
  {
    var more := TableApply(d, Introspected(db));
    RunKeeps(mid, more);
    if d.name != name {
      TableApplyFrom(d, Introspected(db));
      RunLeavesOthers(mid, more, name);
    } else {
      ExecConcat(mid, [CreateTable(name, d.columns)], IndexPlan(name, d.indexes, {}));
      RunCreate(mid, d);
      var created := Exec(mid, CreateTable(name, d.columns)).value;
      IndexPlanRunsIff(created, name, d.indexes, {});
      RunKeeps(created, IndexPlan(name, d.indexes, {}));
    }
  }

  lemma {:induction false} HiddenTableAfter(db: Schema, prefix: seq<Table>, name: string)
    requires !Visible(db, name)
    requires ExecAll(db, PlanFor(prefix, Introspected(db)).apply).Some?
    ensures CreatedFrom(db, ExecAll(db, PlanFor(prefix, Introspected(db)).apply).value, First(prefix, name), name)
    decreases |prefix|
  {
    if prefix != [] {
      var before, d := prefix[..|prefix| - 1], prefix[|prefix| - 1];
      var first, more := PlanFor(before, Introspected(db)).apply, TableApply(d, Introspected(db));
      ExecConcat(db, first, more);
      HiddenTableAfter(db, before, name);
      OneMoreCreated(db, ExecAll(db, first).value, d, First(before, name), name);
    }
  }

  // ---------- Convergence ----------

  function TableNames(desired: seq<Table>): set<string> {
    set d | d in desired :: d.name
  }

  /** Whether a desired table will be seen by the next introspection, judged beforehand. */
  predicate WillShow(db: Schema, desired: seq<Table>, name: string) {
    if name in db.tables then db.tables[name] != map[]
    else First(desired, name).Some? && First(desired, name).value.columns != []
  }

  /** The table does not have an index's name, nor any of its indexes a table's. */
  predicate ClashFree(db: Schema, desired: seq<Table>, d: Table) {
    d.name !in db.indexes && forall i :: i in d.indexes ==> i.name !in db.tables && i.name !in TableNames(desired)
  }

  /** Every desired table has a column to be seen by, and no desired table or index has a name of
      the other kind, present or desired. */
  predicate Settles(db: Schema, desired: seq<Table>) {
    forall d :: d in desired ==> ClashFree(db, desired, d) && WillShow(db, desired, d.name)
  }

  lemma ColumnsShow(cols: seq<Column>)
    ensures ColumnMap(cols) == map[] <==> cols == []
  {
    if cols != [] {
      assert cols[|cols| - 1].name in ColumnMap(cols);
    }
  }

  /** What shows after a run was bound to show. */
  lemma ShownWasBoundTo(db: Schema, desired: seq<Table>, out: Schema, name: string)
    requires Migrate(db, desired) == Some(out) && Visible(out, name) && First(desired, name).Some?
    ensures WillShow(db, desired, name)
  {
    if !Visible(db, name) {
      HiddenTableAfter(db, desired, name);
      ColumnsShow(First(desired, name).value.columns);
    }
  }

  lemma NameIsDesired(desired: seq<Table>, d: Table)
    requires d in desired
    ensures d.name in TableNames(desired) && First(desired, d.name).Some?
  {
    FirstIsFirst(desired, d.name);
  }

  /** Where the schema settles, no index takes a desired table's name, so the table comes to be. */
  lemma TableComesToBe(db: Schema, desired: seq<Table>, out: Schema, d: Table)
    requires Migrate(db, desired) == Some(out) && Settles(db, desired) && d in desired
    ensures Visible(out, d.name)
  {
    NameIsDesired(desired, d);
    MigrationIsAdditive(db, desired);
    if Visible(db, d.name) {
      StillVisible(db, out, d.name);
    } else {
      assert d.name in out.indexes ==> IndexAccounted(db, desired, d.name);
      HiddenTableAfter(db, desired, d.name);
      ColumnsShow(First(desired, d.name).value.columns);
    }
  }

  /** ... and no table takes a desired index's name. */
  lemma IndexesComeToBe(db: Schema, desired: seq<Table>, out: Schema, d: Table)
    requires Migrate(db, desired) == Some(out) && Settles(db, desired) && d in desired
    ensures HasIndexes(d.indexes, out.indexes)
  {
    MigrationIsAdditive(db, desired);
    MigrationLands(db, desired, out, d);
    forall i | i in d.indexes ensures i.name in out.indexes {
      assert IndexLanded(Known(db, d.name), out, d.name, i);
      assert TableAccounted(db, desired, out, i.name);
    }
  }

  /** A schema the plan for which is empty has settled. */
  lemma EmptyPlanSettles(db: Schema, desired: seq<Table>)
    requires OneNamespace(db) && Converged(db, desired)
    ensures Settles(db, desired)
  {
    PlanIsEmptyIff(desired, Introspected(db));
    assert forall x :: x in TableNames(desired) ==> x in db.tables;
    forall d | d in desired ensures ClashFree(db, desired, d) && WillShow(db, desired, d.name) {
    }
  }

  /** Running a migration does not make an unsettled schema settle. */
  lemma UnsettledStays(db: Schema, desired: seq<Table>, mid: Schema)
    requires Migrate(db, desired) == Some(mid) && Settles(mid, desired)
    ensures Settles(db, desired)
  {
    MigrationIsAdditive(db, desired);
    forall d | d in desired ensures ClashFree(db, desired, d) && WillShow(db, desired, d.name) {
      NameIsDesired(desired, d);
      MigrationLands(db, desired, mid, d);
      assert ClashFree(mid, desired, d) && WillShow(mid, desired, d.name);
      forall i | i in d.indexes ensures i.name !in db.tables {
        assert KeepsTable(db, mid, i.name);
      }
      ShownWasBoundTo(db, desired, mid, d.name);
    }
  }

  /** One desired table after a single round that names each table once. */
  lemma SatisfiedAfterOne(db: Schema, desired: seq<Table>, out: Schema, d: Table)
    requires DistinctTables(desired) && d in desired && Migrate(db, desired) == Some(out) && Settles(db, desired)
    ensures Satisfied(d, Introspected(out))
  {
    FirstIsFirst(desired, d.name);
    TableComesToBe(db, desired, out, d);
    IndexesComeToBe(db, desired, out, d);
    MigrationLands(db, desired, out, d);
    if !Visible(db, d.name) {
      HiddenTableAfter(db, desired, d.name);
    }
  }

  lemma SettlesStays(db: Schema, desired: seq<Table>, mid: Schema)
    requires OneNamespace(mid) && Migrate(db, desired) == Some(mid) && Settles(db, desired)
    ensures Settles(mid, desired)
  {
    MigrationIsAdditive(db, desired);
    forall d | d in desired ensures ClashFree(mid, desired, d) && WillShow(mid, desired, d.name) {
      TableComesToBe(db, desired, mid, d);
      IndexesComeToBe(db, desired, mid, d);
    }
  }

  /** One desired table after the second of two rounds. */
  lemma SatisfiedAfterTwo(db: Schema, desired: seq<Table>, mid: Schema, out: Schema, d: Table)
    requires OneNamespace(mid) && Migrate(db, desired) == Some(mid) && Migrate(mid, desired) == Some(out)
    requires d in desired && Settles(db, desired)
    ensures Satisfied(d, Introspected(out))
  {
    SettlesStays(db, desired, mid);
    TableComesToBe(db, desired, mid, d);
    TableComesToBe(mid, desired, out, d);
    IndexesComeToBe(mid, desired, out, d);
    MigrationLands(mid, desired, out, d);
  }

  lemma MigrationKeepsNamespace(db: Schema, desired: seq<Table>)
    requires OneNamespace(db) && Migrate(db, desired).Some?
    ensures OneNamespace(Migrate(db, desired).value)
  {
    RunKeepsNamespace(db, PlanFor(desired, Introspected(db)).apply);
  }

  /** One migration is enough for a schema naming each table once, exactly when it settles: a table
      without columns, and a name wanted for a table and an index both, are planned again for ever. */
  lemma OneRoundConvergesIff(db: Schema, desired: seq<Table>)
    requires OneNamespace(db) && DistinctTables(desired) && Migrate(db, desired).Some?
    ensures Converged(Migrate(db, desired).value, desired) <==> Settles(db, desired)
  {
    var out := Migrate(db, desired).value;
    MigrationKeepsNamespace(db, desired);
    PlanIsEmptyIff(desired, Introspected(out));
    if Settles(db, desired) {
      forall d | d in desired ensures Satisfied(d, Introspected(out)) { SatisfiedAfterOne(db, desired, out, d); }
    } else if Converged(out, desired) {
      EmptyPlanSettles(out, desired);
      UnsettledStays(db, desired, out);
    }
  }

  /** Two migrations are enough for any desired schema, tables, columns and indexes named twice
      included, under the same condition - and the second one always runs. */
  lemma TwoRoundsConvergeIff(db: Schema, desired: seq<Table>)
    requires OneNamespace(db) && Migrate(db, desired).Some?
    ensures Migrate(Migrate(db, desired).value, desired).Some?
    ensures Converged(Migrate(Migrate(db, desired).value, desired).value, desired) <==>
            Settles(db, desired)
  {
    MigrationRunsAgain(db, desired);
    var mid := Migrate(db, desired).value;
    var out := Migrate(mid, desired).value;
    MigrationKeepsNamespace(db, desired);
    MigrationKeepsNamespace(mid, desired);
    PlanIsEmptyIff(desired, Introspected(out));
    if Settles(db, desired) {
      forall d | d in desired ensures Satisfied(d, Introspected(out)) { SatisfiedAfterTwo(db, desired, mid, out, d); }
    } else if Converged(out, desired) {
      EmptyPlanSettles(out, desired);
      UnsettledStays(mid, desired, out);
      UnsettledStays(db, desired, mid);
    }
  }

  /** Any number of migrations, one after another. */
  function Rounds(db: Schema, desired: seq<Table>, n: nat): Option<Schema> {
    if n == 0 then Some(db)
    else match Rounds(db, desired, n - 1) case None => None case Some(mid) => Migrate(mid, desired)
  }

  lemma {:induction false} RoundsKeepGoing(db: Schema, desired: seq<Table>, n: nat)
    requires OneNamespace(db) && Migrate(db, desired).Some?
    ensures Rounds(db, desired, n).Some? && Migrate(Rounds(db, desired, n).value, desired).Some?
    ensures OneNamespace(Rounds(db, desired, n).value)
    ensures Settles(Rounds(db, desired, n).value, desired) <==> Settles(db, desired)
  {
    if n > 0 {
      RoundsKeepGoing(db, desired, n - 1);
      var mid := Rounds(db, desired, n - 1).value;
      MigrationRunsAgain(mid, desired);
      MigrationKeepsNamespace(mid, desired);
      var out := Migrate(mid, desired).value;
      if Settles(mid, desired) { SettlesStays(mid, desired, out); }
      if Settles(out, desired) { UnsettledStays(mid, desired, out); }
    }
  }

  lemma TwoMoreRounds(db: Schema, desired: seq<Table>, n: nat)
    requires OneNamespace(db) && Migrate(db, desired).Some?
    ensures Rounds(db, desired, n + 2).Some?
    ensures Converged(Rounds(db, desired, n + 2).value, desired) <==> Settles(db, desired)
  {
    RoundsKeepGoing(db, desired, n);
    TwoRoundsConvergeIff(Rounds(db, desired, n).value, desired);
    assert Rounds(db, desired, n + 1) == Migrate(Rounds(db, desired, n).value, desired);
  }

  /** If the first migration runs, all do; from the second on the plan is empty exactly when the
      schema settles. */
  lemma RoundsConvergeIff(db: Schema, desired: seq<Table>, n: nat)
    requires OneNamespace(db) && Migrate(db, desired).Some? && n >= 2
    ensures Rounds(db, desired, n).Some?
    ensures Converged(Rounds(db, desired, n).value, desired) <==> Settles(db, desired)
  {
    var k: nat := n - 2;
    TwoMoreRounds(db, desired, k);
    assert k + 2 == n;
  }

  /** A schema that does not settle is planned again for ever, from the very first plan. */
  lemma UnsettledNeverConverges(db: Schema, desired: seq<Table>, n: nat)
    requires OneNamespace(db) && Migrate(db, desired).Some? && !Settles(db, desired)
    ensures Rounds(db, desired, n).Some? && !Converged(Rounds(db, desired, n).value, desired)
  {
    RoundsKeepGoing(db, desired, n);
    var out := Rounds(db, desired, n).value;
    if Converged(out, desired) { EmptyPlanSettles(out, desired); }
  }

  /** A second migration of a schema that settled in one runs and changes nothing. */
  lemma MigrationIsIdempotent(db: Schema, desired: seq<Table>)
    requires OneNamespace(db) && DistinctTables(desired) && Migrate(db, desired).Some? && Settles(db, desired)
    ensures Migrate(Migrate(db, desired).value, desired) == Migrate(db, desired)
  {
    OneRoundConvergesIff(db, desired);
  }

  // ---------- What is blocked stays blocked ----------

  lemma {:induction false} RefusalsAgree(table: string, cols: seq<Column>, a: map<string, bool>, b: map<string, bool>)
    requires forall c :: c in cols && !Addable(c) ==> (c.name in a <==> c.name in b)
    ensures Refusals(table, cols, a) == Refusals(table, cols, b)
  {
    if cols != [] {
      assert cols == cols[..|cols| - 1] + [cols[|cols| - 1]];
      RefusalsAgree(table, cols[..|cols| - 1], a, b);
    }
  }

  lemma {:induction false} NothingRefused(table: string, cols: seq<Column>, m: map<string, bool>)
    requires forall c :: c in cols ==> c.name in m
    ensures Refusals(table, cols, m) == []
  {
    if cols != [] {
      NothingRefused(table, cols[..|cols| - 1], m);
    }
  }

  /** No column gained by a visible table is one the planner refused. */
  lemma RefusedIsNotGained(db: Schema, desired: seq<Table>, out: Schema, d: Table, c: Column)
    requires First(desired, d.name) == Some(d) && DistinctTables(desired) && DistinctColumns(d.columns)
    requires Visible(db, d.name) && Accounted(db, desired, out) && c in d.columns && !Addable(c)
    requires d.name in out.tables && c.name in out.tables[d.name]
    ensures c.name in db.tables[d.name]
  {
    FirstIsFirst(desired, d.name);
    assert TableAccounted(db, desired, out, d.name);
    assert ColumnAccounted(db, desired, d.name, c.name, out.tables[d.name][c.name]);
  }

  lemma TableBlockedAgain(db: Schema, desired: seq<Table>, d: Table)
    requires DistinctTables(desired) && d in desired && DistinctColumns(d.columns)
    requires Migrate(db, desired).Some?
    ensures TableBlocked(d, Introspected(Migrate(db, desired).value)) == TableBlocked(d, Introspected(db))
  {
    var out := Migrate(db, desired).value;
    FirstIsFirst(desired, d.name);
    if Visible(db, d.name) {
      MigrationIsAdditive(db, desired);
      assert KeepsTable(db, out, d.name);
      forall c | c in d.columns && !Addable(c) ensures c.name in db.tables[d.name] <==> c.name in out.tables[d.name] {
        if c.name in out.tables[d.name] { RefusedIsNotGained(db, desired, out, d, c); }
      }
      RefusalsAgree(d.name, d.columns, db.tables[d.name], out.tables[d.name]);
      StillVisible(db, out, d.name);
    } else {
      HiddenTableAfter(db, desired, d.name);
      if d.name !in db.tables { NothingRefused(d.name, d.columns, ColumnMap(d.columns)); }
    }
  }

  lemma {:induction false} BlockedAgain(db: Schema, desired: seq<Table>, prefix: seq<Table>)
    requires DistinctTables(desired) && forall d :: d in desired ==> DistinctColumns(d.columns)
    requires Migrate(db, desired).Some? && prefix <= desired
    ensures PlanFor(prefix, Introspected(Migrate(db, desired).value)).blocked ==
            PlanFor(prefix, Introspected(db)).blocked
    decreases |prefix|
  {
    if prefix != [] {
      var before, d := prefix[..|prefix| - 1], prefix[|prefix| - 1];
      BlockedAgain(db, desired, before);
      assert d == desired[|prefix| - 1];
      TableBlockedAgain(db, desired, d);
    }
  }

  /** The report of blocked changes is the same after the migration as before it. */
  lemma BlockedStaysBlocked(db: Schema, desired: seq<Table>)
    requires DistinctTables(desired) && forall d :: d in desired ==> DistinctColumns(d.columns)
    requires Migrate(db, desired).Some?
    ensures PlanFor(desired, Introspected(Migrate(db, desired).value)).blocked ==
            PlanFor(desired, Introspected(db)).blocked
  {
    BlockedAgain(db, desired, desired);
  }

  // ---------- Where one round is not enough ----------

  function Text(name: string): Column {
    Column(name, "text", true, false, None)
  }

  function Twice(): seq<Table> {
    [Table("t", [Text("a")], []), Table("t", [Text("b")], [])]
  }

  lemma TwicePlan()
    ensures PlanFor(Twice(), Introspected(Schema(map[], {}))).apply ==
            [CreateTable("t", [Text("a")]), CreateTable("t", [Text("b")])]
  {
  }

  lemma TwiceRuns()
    ensures Migrate(Schema(map[], {}), Twice()) == Some(Schema(map["t" := map["a" := true]], {}))
  {
    TwicePlan();
    var db, out := Schema(map[], {}), Schema(map["t" := map["a" := true]], {});
    var first := [CreateTable("t", [Text("a")])];
    assert [Text("a")][..0] == [];
    assert ColumnMap([Text("a")]) == map["a" := true];
    assert first[..0] == [];
    assert ExecAll(db, first) == Some(out);
  }

  lemma TwiceShows(d: Table)
    requires d in Twice()
    ensures ClashFree(Schema(map[], {}), Twice(), d) && WillShow(Schema(map[], {}), Twice(), d.name)
    ensures d == Twice()[1] ==> !HasColumns(d.columns, map["a" := true])
  {
  }

  /** A schema naming one table twice: the second copy's column waits for the second round. */
  lemma DuplicateTableNeedsTwoRounds() returns (db: Schema, desired: seq<Table>)
    ensures Migrate(db, desired).Some?
    ensures Settles(db, desired)
    ensures !Converged(Migrate(db, desired).value, desired)
  {
    db, desired := Schema(map[], {}), Twice();
    TwiceRuns();
    forall d | d in desired ensures ClashFree(db, desired, d) && WillShow(db, desired, d.name) { TwiceShows(d); }
    TwiceShows(desired[1]);
    PlanIsEmptyIff(desired, Introspected(Migrate(db, desired).value));
  }

  /** A table with an index of its own name: the table is created, the index never is. */
  lemma IndexNamedLikeItsTableNeverConverges(n: nat)
    ensures var db, desired := Schema(map[], {}), [Table("t", [Text("id")], [Index("t", ["id"], false)])];
      && Migrate(db, desired).Some?
      && Rounds(db, desired, n).Some? && !Converged(Rounds(db, desired, n).value, desired)
  {
    var i, db := Index("t", ["id"], false), Schema(map[], {});
    var d := Table("t", [Text("id")], [i]);
    var desired := [d];
    assert desired[..0] == [] && d.columns[..0] == [];
    assert Text("id") in d.columns;
    assert FinalColumns(db, [], d) == {"id"};
    assert AllReady(db, desired);
    MigrationRunsIff(db, desired);
    assert d in desired && i in d.indexes;
    assert !ClashFree(db, desired, d);
    UnsettledNeverConverges(db, desired, n);
  }
}
