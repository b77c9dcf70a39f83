/**
 * The data-access layer for projects. Every operation takes a fresh
 * connection, starts a transaction, runs its statements and ends the
 * transaction before returning or throwing. Each operation is specified by an
 * `...Outcome` function giving, for the state before the call and the fault of
 * the connection it uses, what it returns, the state it leaves, the final
 * state of its transaction and the statements it ran; the lemmas at the end
 * state what the layer promises about those outcomes.
 */
module Dao {
  import opened Entities
  import opened Store
  import opened Jdbc

  datatype Outcome<T> = Outcome(result: Result<T>, after: DbState, tx: TxState, issued: seq<StatementKind>)

  /** Faults that strike before startTransaction has taken effect: there is nothing to roll back. */
  predicate BeforeTransaction(f: Fault) {
    f == ConnectFails || f == StartFails
  }

  /** `new DbException(e)` around the SQLException that `f` raises. */
  function Thrown(f: Fault): Error {
    DbException(Wrapped(f))
  }

  /** The four statements of a fetch by id that finds its row. */
  const AggregateQueries: seq<StatementKind> := [ProjectStatement, MaterialQuery, StepQuery, CategoryQuery]

  function Inserted(s: DbState, p: Project): DbState {
    DbState(s.tables.(projects := s.tables.projects + [RowOf(s.nextId, p)]), s.nextId + 1)
  }

  /** `extract` applied to every row of a result set. */
  function ExtractAll(rows: seq<ProjectRow>): (r: seq<Project>)
    ensures |r| == |rows| && forall i :: 0 <= i < |rows| ==> r[i] == ExtractProject(rows[i])
  {
    seq(|rows|, i requires 0 <= i < |rows| => ExtractProject(rows[i]))
  }

  /** The project of `row` with its materials, steps and categories filled in. */
  function Aggregate(row: ProjectRow, t: Tables, id: Option<int>): Project {
    ExtractProject(row).(
      materials := MaterialsOf(t.materials, id),
      steps := StepsOf(t.steps, id),
      categories := CategoriesOf(t.categories, t.projectCategory, id))
  }

  function InsertOutcome(s: DbState, f: Fault, p: Project): Outcome<Project> {
    if BeforeTransaction(f) then Outcome(Err(Thrown(f)), s, NotStarted, [])
    else if f == StatementFails(ProjectStatement) then Outcome(Err(Thrown(f)), s, RolledBack, [ProjectStatement])
    // the row was written and is rolled back; the key it took is not handed out again
    else if f == LastIdFails || f == CommitFails then
      Outcome(Err(Thrown(f)), s.(nextId := s.nextId + 1), RolledBack, [ProjectStatement])
    else Outcome(Ok(p.(projectId := Some(s.nextId))), Inserted(s, p), Committed, [ProjectStatement])
  }

  function ModifyOutcome(s: DbState, f: Fault, p: Project): Outcome<bool> {
    var rows := s.tables.projects;
    if BeforeTransaction(f) then Outcome(Err(Thrown(f)), s, NotStarted, [])
    else if f == StatementFails(ProjectStatement) || f == CommitFails then
      Outcome(Err(Thrown(f)), s, RolledBack, [ProjectStatement])
    else
      Outcome(Ok(CountMatching(rows, p.projectId) == 1),
              s.(tables := s.tables.(projects := UpdateRows(rows, p))), Committed, [ProjectStatement])
  }

  function DeleteOutcome(s: DbState, f: Fault, id: Option<int>): Outcome<bool> {
    var rows := s.tables.projects;
    if BeforeTransaction(f) then Outcome(Err(Thrown(f)), s, NotStarted, [])
    else if f == StatementFails(ProjectStatement) || f == CommitFails then
      Outcome(Err(Thrown(f)), s, RolledBack, [ProjectStatement])
    else
      Outcome(Ok(CountMatching(rows, id) == 1),
              s.(tables := s.tables.(projects := DeleteRows(rows, id))), Committed, [ProjectStatement])
  }

  /** The success path never commits: the transaction is still active when the connection is closed. */
  function FetchAllOutcome(s: DbState, f: Fault): Outcome<seq<Project>> {
    if BeforeTransaction(f) then Outcome(Err(Thrown(f)), s, NotStarted, [])
    else if f == StatementFails(ProjectStatement) then Outcome(Err(Thrown(f)), s, RolledBack, [ProjectStatement])
    else Outcome(Ok(ExtractAll(SortByName(s.tables.projects))), s, Active, [ProjectStatement])
  }

  function FetchByIdOutcome(s: DbState, f: Fault, id: Option<int>): Outcome<Option<Project>> {
    if BeforeTransaction(f) then Outcome(Err(Thrown(f)), s, NotStarted, [])
    else FetchInTransaction(s, f, id)
  }

  /** The fetch by id once its transaction has started. */
  function FetchInTransaction(s: DbState, f: Fault, id: Option<int>): Outcome<Option<Project>> {
    var rows := RowsWithId(s.tables.projects, id);
    if f == StatementFails(ProjectStatement) then Outcome(Err(Thrown(f)), s, RolledBack, [ProjectStatement])
    else if rows == [] then Finish(s, f, None, [ProjectStatement])
    else if f == StatementFails(MaterialQuery) then Outcome(Err(Thrown(f)), s, RolledBack, AggregateQueries[..2])
    else if f == StatementFails(StepQuery) then Outcome(Err(Thrown(f)), s, RolledBack, AggregateQueries[..3])
    else if f == StatementFails(CategoryQuery) then Outcome(Err(Thrown(f)), s, RolledBack, AggregateQueries)
    else Finish(s, f, Some(Aggregate(rows[0], s.tables, id)), AggregateQueries)
  }

  /** The commit that ends a read: it returns `value`, or rolls back and throws. */
  function Finish<T>(s: DbState, f: Fault, value: T, issued: seq<StatementKind>): Outcome<T> {
    if f == CommitFails then Outcome(Err(Thrown(f)), s, RolledBack, issued)
    else Outcome(Ok(value), s, Committed, issued)
  }

  /** The `while (rs.next()) list.add(extract(rs, Project.class))` loop of the list query. */
  method ReadProjects(rs: seq<ProjectRow>) returns (projects: seq<Project>)
    ensures |projects| == |rs|
    ensures forall k :: 0 <= k < |rs| ==> projects[k] == ExtractProject(rs[k])
  {
    projects := [];
    var i := 0;
    while i < |rs|
      invariant 0 <= i <= |rs|
      invariant |projects| == i
      invariant forall k :: 0 <= k < i ==> projects[k] == ExtractProject(rs[k])
    {
      projects := projects + [ExtractProject(rs[i])];
      i := i + 1;
    }
  }

  /** The `while (rs.next()) list.add(extract(rs, ...))` loop of a child query, whose rows are the entities. */
  method ReadRows<T>(rs: seq<T>) returns (list: seq<T>)
    ensures list == rs
  {
    list := [];
    var i := 0;
    while i < |rs|
      invariant 0 <= i <= |rs|
      invariant list == rs[..i]
    {
      list := list + [rs[i]];
      i := i + 1;
    }
  }

  class ProjectDao {
    const db: Database

    ghost predicate Valid()
      reads db
    {
      db.Valid()
    }

    constructor (db: Database)
      ensures this.db == db
    {
      this.db := db;
    }

    method InsertProject(project: Project) returns (r: Result<Project>, ghost tx: TxState, ghost issued: seq<StatementKind>)
      requires Valid()
      modifies db
      ensures Valid() && db.faults == Tail(old(db.faults))
      ensures Outcome(r, db.State(), tx, issued) == InsertOutcome(old(db.State()), old(db.PendingFault()), project)
    {
      var conn := GetConnection(db);
      if conn == null {
        return Err(Thrown(ConnectFails)), NotStarted, [];
      }
      var started := conn.StartTransaction();
      if !started {
        return Err(Thrown(conn.fault)), conn.tx, conn.issued;
      }
      var ok := conn.ExecuteInsert(project);
      var projectId := 0;
      if ok {
        ok, projectId := conn.GetLastInsertId();
      }
      if ok {
        ok := conn.CommitTransaction();
      }
      if !ok {
        conn.RollbackTransaction();
        return Err(Thrown(conn.fault)), conn.tx, conn.issued;
      }
      r, tx, issued := Ok(project.(projectId := Some(projectId))), conn.tx, conn.issued;
    }

    method ModifyProjectDetails(project: Project) returns (r: Result<bool>, ghost tx: TxState, ghost issued: seq<StatementKind>)
      requires Valid()
      modifies db
      ensures Valid() && db.faults == Tail(old(db.faults))
      ensures Outcome(r, db.State(), tx, issued) == ModifyOutcome(old(db.State()), old(db.PendingFault()), project)
    {
      var conn := GetConnection(db);
      if conn == null {
        return Err(Thrown(ConnectFails)), NotStarted, [];
      }
      var started := conn.StartTransaction();
      if !started {
        return Err(Thrown(conn.fault)), conn.tx, conn.issued;
      }
      var ok, count := conn.ExecuteUpdate(project);
      var updated := count == 1;
      if ok {
        ok := conn.CommitTransaction();
      }
      if !ok {
        conn.RollbackTransaction();
        return Err(Thrown(conn.fault)), conn.tx, conn.issued;
      }
      r, tx, issued := Ok(updated), conn.tx, conn.issued;
    }

    /** `deleteProcject`: the spelling is the source's. */
    method DeleteProcject(project: Project) returns (r: Result<bool>, ghost tx: TxState, ghost issued: seq<StatementKind>)
      requires Valid()
      modifies db
      ensures Valid() && db.faults == Tail(old(db.faults))
      ensures Outcome(r, db.State(), tx, issued) == DeleteOutcome(old(db.State()), old(db.PendingFault()), project.projectId)
    {
      var conn := GetConnection(db);
      if conn == null {
        return Err(Thrown(ConnectFails)), NotStarted, [];
      }
      var started := conn.StartTransaction();
      if !started {
        return Err(Thrown(conn.fault)), conn.tx, conn.issued;
      }
      var ok, count := conn.ExecuteDelete(project.projectId);
      var deleted := count == 1;
      if ok {
        ok := conn.CommitTransaction();
      }
      if !ok {
        conn.RollbackTransaction();
        return Err(Thrown(conn.fault)), conn.tx, conn.issued;
      }
      r, tx, issued := Ok(deleted), conn.tx, conn.issued;
    }

    method FetchAllProjects() returns (r: Result<seq<Project>>, ghost tx: TxState, ghost issued: seq<StatementKind>)
      requires Valid()
      modifies db
      ensures Valid() && db.faults == Tail(old(db.faults))
      ensures Outcome(r, db.State(), tx, issued) == FetchAllOutcome(old(db.State()), old(db.PendingFault()))
    {
      var conn := GetConnection(db);
      if conn == null {
        return Err(Thrown(ConnectFails)), NotStarted, [];
      }
      var started := conn.StartTransaction();
      if !started {
        return Err(Thrown(conn.fault)), conn.tx, conn.issued;
      }
      var ok, rs := conn.QueryProjectsByName();
      if !ok {
        conn.RollbackTransaction();
        return Err(Thrown(conn.fault)), conn.tx, conn.issued;
      }
      var projects := ReadProjects(rs);
      assert projects == ExtractAll(rs);
      r, tx, issued := Ok(projects), conn.tx, conn.issued;
    }

    method FetchProjectById(projectId: Option<int>) returns (r: Result<Option<Project>>, ghost tx: TxState, ghost issued: seq<StatementKind>)
      requires Valid()
      modifies db
      ensures Valid() && db.faults == Tail(old(db.faults))
      ensures Outcome(r, db.State(), tx, issued) == FetchByIdOutcome(old(db.State()), old(db.PendingFault()), projectId)
    {
      var conn := GetConnection(db);
      if conn == null {
        return Err(Thrown(ConnectFails)), NotStarted, [];
      }
      var started := conn.StartTransaction();
      if !started {
        return Err(Thrown(conn.fault)), conn.tx, conn.issued;
      }
      r := FetchOnConnection(conn, projectId);
      tx, issued := conn.tx, conn.issued;
    }

    /** The `try` block of `fetchProjectById`, with its rollback on any exception. */
    method FetchOnConnection(conn: Connection, projectId: Option<int>) returns (r: Result<Option<Project>>)
      requires conn.Valid() && conn.db == db && conn.tx == Active && conn.issued == [] && conn.snapshot == db.tables
      modifies conn, db`tables
      ensures conn.Valid() && db.nextId == old(db.nextId)
      ensures Outcome(r, db.State(), conn.tx, conn.issued) == FetchInTransaction(old(db.State()), conn.fault, projectId)
    {
      var ok, rs := conn.QueryProjectById(projectId);
      if !ok {
        conn.RollbackTransaction();
        return Err(Thrown(conn.fault));
      }
      if rs == [] {
        r := CommitRead(conn, None);
      } else {
        r := FetchFound(conn, projectId, rs[0]);
      }
    }

    /** The rest of `fetchProjectById` once the project row has been found. */
    method FetchFound(conn: Connection, projectId: Option<int>, row: ProjectRow) returns (r: Result<Option<Project>>)
      requires conn.Valid() && conn.db == db && conn.tx == Active && conn.snapshot == db.tables
      requires conn.issued == [ProjectStatement] && conn.fault != StatementFails(ProjectStatement)
      requires RowsWithId(db.tables.projects, projectId) != [] && row == RowsWithId(db.tables.projects, projectId)[0]
      modifies conn, db`tables
      ensures conn.Valid() && db.nextId == old(db.nextId)
      ensures Outcome(r, db.State(), conn.tx, conn.issued) == FetchInTransaction(old(db.State()), conn.fault, projectId)
    {
      ghost var s := db.State();
      var ok, filled := AddChildren(conn, projectId, ExtractProject(row));
      if !ok {
        conn.RollbackTransaction();
        return Err(Thrown(conn.fault));
      }
      assert conn.issued == AggregateQueries;
      assert filled == Aggregate(row, s.tables, projectId);
      r := CommitRead(conn, Some(filled));
    }

    /** `commitTransaction` at the end of a read, with the rollback of the enclosing `catch`. */
    method CommitRead<T>(conn: Connection, value: T) returns (r: Result<T>)
      requires conn.Valid() && conn.db == db && conn.tx == Active && conn.snapshot == db.tables
      modifies conn, db`tables
      ensures conn.Valid() && db.nextId == old(db.nextId)
      ensures Outcome(r, db.State(), conn.tx, conn.issued) == Finish(old(db.State()), conn.fault, value, old(conn.issued))
    {
      var ok := conn.CommitTransaction();
      if !ok {
        conn.RollbackTransaction();
        return Err(Thrown(conn.fault));
      }
      r := Ok(value);
    }

    /**
     * The three `addAll` calls of the fetch by id: each child query in turn,
     * stopping at the first that throws.
     */
    method AddChildren(conn: Connection, projectId: Option<int>, project: Project) returns (ok: bool, filled: Project)
      requires conn.Valid() && conn.tx == Active
      modifies conn`issued
      ensures ok == (conn.fault !in {StatementFails(MaterialQuery), StatementFails(StepQuery), StatementFails(CategoryQuery)})
      ensures conn.issued == old(conn.issued) +
        if conn.fault == StatementFails(MaterialQuery) then AggregateQueries[1..2]
        else if conn.fault == StatementFails(StepQuery) then AggregateQueries[1..3]
        else AggregateQueries[1..]
      ensures ok ==> filled == project.(
        materials := project.materials + MaterialsOf(conn.db.tables.materials, projectId),
        steps := project.steps + StepsOf(conn.db.tables.steps, projectId),
        categories := project.categories + CategoriesOf(conn.db.tables.categories, conn.db.tables.projectCategory, projectId))
    {
      filled := project;
      var materials, steps, categories;
      ok, materials := FetchMaterialsForProject(conn, projectId);
      if !ok {
        return;
      }
      filled := filled.(materials := filled.materials + materials);
      ok, steps := FetchStepsForProject(conn, projectId);
      if !ok {
        return;
      }
      filled := filled.(steps := filled.steps + steps);
      ok, categories := FetchCategoriesForProject(conn, projectId);
      if !ok {
        return;
      }
      filled := filled.(categories := filled.categories + categories);
    }

    method FetchMaterialsForProject(conn: Connection, projectId: Option<int>) returns (ok: bool, materials: seq<Material>)
      requires conn.Valid() && conn.tx == Active
      modifies conn`issued
      ensures conn.issued == old(conn.issued) + [MaterialQuery]
      ensures ok == (conn.fault != StatementFails(MaterialQuery))
      ensures ok ==> materials == MaterialsOf(conn.db.tables.materials, projectId)
    {
      var rs;
      ok, rs := conn.QueryMaterials(projectId);
      materials := [];
      if ok {
        materials := ReadRows(rs);
      }
    }

    method FetchStepsForProject(conn: Connection, projectId: Option<int>) returns (ok: bool, steps: seq<Step>)
      requires conn.Valid() && conn.tx == Active
      modifies conn`issued
      ensures conn.issued == old(conn.issued) + [StepQuery]
      ensures ok == (conn.fault != StatementFails(StepQuery))
      ensures ok ==> steps == StepsOf(conn.db.tables.steps, projectId)
    {
      var rs;
      ok, rs := conn.QuerySteps(projectId);
      steps := [];
      if ok {
        steps := ReadRows(rs);
      }
    }

    method FetchCategoriesForProject(conn: Connection, projectId: Option<int>) returns (ok: bool, categories: seq<Category>)
      requires conn.Valid() && conn.tx == Active
      modifies conn`issued
      ensures conn.issued == old(conn.issued) + [CategoryQuery]
      ensures ok == (conn.fault != StatementFails(CategoryQuery))
      ensures ok ==> categories == CategoriesOf(conn.db.tables.categories, conn.db.tables.projectCategory, projectId)
    {
      var rs;
      ok, rs := conn.QueryCategories(projectId);
      categories := [];
      if ok {
        categories := ReadRows(rs);
      }
    }
  }

  // ---------------------------------------------------------------------------
  // What the layer promises

  /**
   * A call that returns has committed; one that throws carries the wrapped
   * `SQLException`, leaves the tables as they were, and either never opened a
   * transaction or rolled it back.
   */
  predicate EndsTransaction<T>(o: Outcome<T>, s: DbState, f: Fault) {
    && (o.result.Ok? ==> o.tx == Committed)
    && (o.result.Err? ==>
          && o.result.error == Thrown(f) && o.after.tables == s.tables
          && o.tx == if BeforeTransaction(f) then NotStarted else RolledBack)
  }

  /** Insert, update and delete end their transaction whether they return or throw. */
  lemma WritesEndTransaction(s: DbState, f: Fault, p: Project, id: Option<int>)
    ensures EndsTransaction(InsertOutcome(s, f, p), s, f)
    ensures EndsTransaction(ModifyOutcome(s, f, p), s, f)
    ensures EndsTransaction(DeleteOutcome(s, f, id), s, f)
  {
  }

  /**
   * The fetch by id ends its transaction too; the list query leaves its
   * transaction active exactly when it returns. Neither changes the store.
   */
  lemma ReadsEndTransaction(s: DbState, f: Fault, id: Option<int>)
    ensures EndsTransaction(FetchByIdOutcome(s, f, id), s, f) && FetchByIdOutcome(s, f, id).after == s
    ensures var o := FetchAllOutcome(s, f);
      && o.after == s
      && (o.result.Ok? <==> o.tx == Active)
      && (o.result.Err? ==> o.result.error == Thrown(f) && o.tx == if BeforeTransaction(f) then NotStarted else RolledBack)
  {
    if !BeforeTransaction(f) {
      FetchInTransactionEnds(s, f, id);
    }
  }

  /** Every path of the fetch once its transaction is open commits or rolls back, and none writes. */
  lemma FetchInTransactionEnds(s: DbState, f: Fault, id: Option<int>)
    requires !BeforeTransaction(f)
    ensures var o := FetchInTransaction(s, f, id);
      && o.after == s
      && (o.result.Ok? ==> o.tx == Committed)
      && (o.result.Err? ==> o.result.error == Thrown(f) && o.tx == RolledBack)
  {
  }

  /**
   * A successful insert returns the same project with the key generated on its
   * own connection, and the new row, read back by that key, has the project's values.
   */
  lemma {:induction false} InsertRoundTrip(s: DbState, f: Fault, p: Project, g: Fault)
    requires WellFormed(s)
    ensures var o := InsertOutcome(s, f, p);
      o.result.Ok? ==>
        && o.result.value == p.(projectId := Some(s.nextId))
        && WellFormed(o.after)
        && var back := FetchByIdOutcome(o.after, g, o.result.value.projectId).result;
           back.Ok? ==> back.value.Some? && RowOf(s.nextId, back.value.value) == RowOf(s.nextId, p)
  {
    var o := InsertOutcome(s, f, p);
    if o.result.Ok? {
      var rows := o.after.tables.projects;
      var n := |rows| - 1;
      assert rows[n] == RowOf(s.nextId, p);
      assert WellFormed(o.after);
      FetchByIdFindsRow(o.after, g, n);
    }
  }

  /** An insert that fails adds no row. */
  lemma InsertFailureAddsNoRow(s: DbState, f: Fault, p: Project)
    ensures var o := InsertOutcome(s, f, p);
      o.result.Err? ==> o.after.tables == s.tables && (o.tx == RolledBack || BeforeTransaction(f))
  {
  }

  /**
   * An update reports success exactly when one row has the key, commits whether
   * or not it did, writes the five fields into that row, and changes nothing
   * when no row has the key.
   */
  lemma {:induction false} ModifyExactlyOneRow(s: DbState, f: Fault, p: Project)
    requires WellFormed(s)
    ensures var o := ModifyOutcome(s, f, p);
      o.result.Ok? ==>
        && o.tx == Committed
        && (o.result.value <==> HasRow(s.tables.projects, p.projectId))
        && WellFormed(o.after)
        && (!o.result.value ==> o.after == s)
        && forall i :: 0 <= i < |s.tables.projects| && Matches(p.projectId, s.tables.projects[i]) ==>
             o.after.tables.projects[i] == RowOf(s.tables.projects[i].projectId, p)
  {
    var o := ModifyOutcome(s, f, p);
    var rows := s.tables.projects;
    CountMatchingUnique(rows, p.projectId);
    if o.result.Ok? {
      var updated := UpdateRows(rows, p);
      forall i | 0 <= i < |rows| ensures updated[i].projectId == rows[i].projectId {
        UpdateRowsEffect(rows, p, i);
      }
      if !HasRow(rows, p.projectId) {
        UpdateOfMissingRow(rows, p);
      }
    }
  }

  /**
   * A delete reports success exactly when one row had the key, commits whether
   * or not it did, and afterwards no row has the key.
   */
  lemma {:induction false} DeleteExactlyOneRow(s: DbState, f: Fault, id: Option<int>)
    requires WellFormed(s)
    ensures var o := DeleteOutcome(s, f, id);
      o.result.Ok? ==>
        && o.tx == Committed
        && (o.result.value <==> HasRow(s.tables.projects, id))
        && !HasRow(o.after.tables.projects, id)
        && WellFormed(o.after)
        && (!o.result.value ==> o.after == s)
  {
    var o := DeleteOutcome(s, f, id);
    var rows := s.tables.projects;
    CountMatchingUnique(rows, id);
    if o.result.Ok? {
      DeleteRowsWellFormed(s, id);
      var left := DeleteRows(rows, id);
      forall i | 0 <= i < |left| ensures !Matches(id, left[i]) {
        assert left[i] in left;
      }
      if !HasRow(rows, id) {
        DeleteOfMissingRow(rows, id);
      }
    }
  }

  /** Once a delete has removed the row, fetching by the same key finds nothing. */
  lemma {:induction false} DeleteThenFetch(s: DbState, f: Fault, id: Option<int>, g: Fault)
    requires WellFormed(s)
    ensures var o := DeleteOutcome(s, f, id);
      o.result.Ok? ==> FetchByIdOutcome(o.after, g, id).result in {Ok(None), Err(Thrown(g))}
  {
    var o := DeleteOutcome(s, f, id);
    if o.result.Ok? {
      DeleteExactlyOneRow(s, f, id);
      RowsWithIdNonEmpty(o.after.tables.projects, id);
    }
  }

  /**
   * The list query returns one child-less project per row of the table, ordered
   * by name; an empty table gives an empty list.
   */
  lemma FetchAllOrderedByName(s: DbState, f: Fault)
    ensures var o := FetchAllOutcome(s, f);
      o.result.Ok? ==>
        var r := o.result.value;
        && |r| == |s.tables.projects|
        && (forall i, j :: 0 <= i < j < |r| ==> NameLe(r[i].projectName, r[j].projectName))
        && (forall i :: 0 <= i < |r| ==>
              r[i].materials == [] && r[i].steps == [] && r[i].categories == [] &&
              r[i].projectId.Some? && RowOf(r[i].projectId.value, r[i]) in s.tables.projects)
        && (forall row :: row in s.tables.projects ==> ExtractProject(row) in r)
        && (s.tables.projects == [] ==> r == [])
  {
    var rows := s.tables.projects;
    SortByNameSpec(rows);
    var sorted := SortByName(rows);
    ExtractPermuted(sorted, rows);
    ExtractKeepsNameOrder(sorted);
  }

  /** Extracting a permutation of the rows gives one child-less project per row, and every row's project. */
  lemma ExtractPermuted(sorted: seq<ProjectRow>, rows: seq<ProjectRow>)
    requires multiset(sorted) == multiset(rows)
    ensures var r := ExtractAll(sorted);
      && |r| == |rows|
      && (forall i :: 0 <= i < |r| ==>
            r[i].materials == [] && r[i].steps == [] && r[i].categories == [] &&
            r[i].projectId.Some? && RowOf(r[i].projectId.value, r[i]) in rows)
      && (forall row :: row in rows ==> ExtractProject(row) in r)
  {
    var r := ExtractAll(sorted);
    assert |sorted| == |multiset(sorted)| == |rows|;
    forall i | 0 <= i < |r| ensures RowOf(r[i].projectId.value, r[i]) in rows {
      assert sorted[i] in multiset(sorted);
    }
    forall row | row in rows ensures ExtractProject(row) in r {
      assert row in multiset(sorted);
      var k :| 0 <= k < |sorted| && sorted[k] == row;
      assert r[k] == ExtractProject(row);
    }
  }

  /** Extracting keeps each row's name, so name-ordered rows give name-ordered projects. */
  lemma ExtractKeepsNameOrder(sorted: seq<ProjectRow>)
    requires SortedByName(sorted)
    ensures var r := ExtractAll(sorted);
      forall i, j :: 0 <= i < j < |r| ==> NameLe(r[i].projectName, r[j].projectName)
  {
    var r := ExtractAll(sorted);
    forall i, j | 0 <= i < j < |r| ensures NameLe(r[i].projectName, r[j].projectName) {
      assert r[i].projectName == sorted[i].projectName && r[j].projectName == sorted[j].projectName;
    }
  }

  /** A fetch by a key that has no row never runs the material, step or category query. */
  lemma FetchByIdShortCircuit(s: DbState, f: Fault, id: Option<int>)
    requires !HasRow(s.tables.projects, id)
    ensures var o := FetchByIdOutcome(s, f, id);
      && o.issued in {[], [ProjectStatement]}
      && o.result in {Ok(None), Err(Thrown(f))}
  {
    RowsWithIdNonEmpty(s.tables.projects, id);
  }

  /** A project that the fetch by id returns carries the key it was fetched by. */
  lemma FetchByIdReturnsKey(s: DbState, f: Fault, id: Option<int>)
    ensures var o := FetchByIdOutcome(s, f, id);
      o.result.Ok? && o.result.value.Some? ==> o.result.value.value.projectId == id
  {
    var rows := RowsWithId(s.tables.projects, id);
    if rows != [] {
      assert rows[0] in rows;
    }
  }

  /** Under the primary key, a fetch by the key of a row that returns a project returns that row's aggregate. */
  lemma FetchByIdFindsRow(s: DbState, f: Fault, i: int)
    requires UniqueIds(s.tables.projects) && 0 <= i < |s.tables.projects|
    ensures var row := s.tables.projects[i];
      var o := FetchByIdOutcome(s, f, Some(row.projectId));
      o.result.Ok? ==> o.result.value == Some(Aggregate(row, s.tables, Some(row.projectId)))
  {
    var row := s.tables.projects[i];
    RowsWithIdUnique(s.tables.projects, Some(row.projectId));
    assert Matches(Some(row.projectId), row);
  }

  /**
   * A fetch by a key that has a row either fails, or returns that row with all
   * three collections filled: the materials and steps of the project and the
   * categories linked to it. No partly filled project is ever returned.
   */
  lemma {:induction false} FetchByIdComplete(s: DbState, f: Fault, i: int)
    requires WellFormed(s) && 0 <= i < |s.tables.projects|
    ensures var row := s.tables.projects[i];
      var id := Some(row.projectId);
      var t := s.tables;
      var o := FetchByIdOutcome(s, f, id);
      && (o.result.Ok? <==> !BeforeTransaction(f) && f !in {StatementFails(ProjectStatement), StatementFails(MaterialQuery), StatementFails(StepQuery), StatementFails(CategoryQuery), CommitFails})
      && (o.result.Ok? ==>
            && o.tx == Committed && o.issued == AggregateQueries
            && o.result.value.Some?
            && var p := o.result.value.value;
               && p.projectId == id && RowOf(row.projectId, p) == row
               && (forall m :: m in p.materials <==> m in t.materials && m.projectId == row.projectId)
               && (forall st :: st in p.steps <==> st in t.steps && st.projectId == row.projectId)
               && (forall c :: c in p.categories <==> c in t.categories && Linked(t.projectCategory, id, c.categoryId)))
  {
    FetchByIdFindsRow(s, f, i);
    var row := s.tables.projects[i];
    RowsWithIdUnique(s.tables.projects, Some(row.projectId));
    assert Matches(Some(row.projectId), row);
  }
}
