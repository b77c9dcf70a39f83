/**
 * The store and the connections to it, with the primitives the data-access
 * layer builds on: obtaining a connection, `startTransaction`,
 * `commitTransaction`, `rollbackTransaction`, `getLastInsertId`, and running
 * one prepared statement (binding its parameters, executing it, and reading
 * its result set). Each primitive either does its work or throws an
 * `SQLException`; which one throws is decided by the connection's fault.
 */
module Jdbc {
  import opened Entities
  import opened Store

  datatype TxState = NotStarted | Active | Committed | RolledBack

  /** The database: its tables, its auto-increment counter and how successive connections will fail. */
  class Database {
    var tables: Tables
    var nextId: int
    var faults: seq<Fault>

    ghost predicate Valid()
      reads this
    {
      WellFormed(State())
    }

    function State(): DbState
      reads this
    {
      DbState(tables, nextId)
    }

    /** The fault of the next connection to be opened; none once the script is used up. */
    function PendingFault(): Fault
      reads this
    {
      if faults == [] then NoFault else faults[0]
    }

    constructor (tables: Tables, nextId: int, faults: seq<Fault>)
      requires WellFormed(DbState(tables, nextId))
      ensures Valid() && this.tables == tables && this.nextId == nextId && this.faults == faults
    {
      this.tables := tables;
      this.nextId := nextId;
      this.faults := faults;
    }
  }

  /**
   * `DbConnection.getConnection()`: a new connection with no transaction, or
   * null when the connection cannot be obtained. Uses up one fault of the script.
   */
  method GetConnection(db: Database) returns (conn: Connection?)
    requires db.Valid()
    modifies db`faults
    ensures db.faults == Tail(old(db.faults))
    ensures (conn == null) == (old(db.PendingFault()) == ConnectFails)
    ensures conn != null ==>
      && fresh(conn) && conn.Valid() && conn.db == db && conn.fault == old(db.PendingFault())
      && conn.tx == NotStarted && conn.issued == []
  {
    var fault := db.PendingFault();
    db.faults := Tail(db.faults);
    if fault == ConnectFails {
      conn := null;
    } else {
      conn := new Connection(db, fault);
    }
  }

  class Connection {
    const db: Database
    const fault: Fault
    var tx: TxState
    /** The tables as they were when the transaction started: what a rollback restores. */
    var snapshot: Tables
    /** `LAST_INSERT_ID()`: the key generated by the latest insert on THIS connection. */
    var lastInsertId: int
    /** The statements run on this connection, in order. */
    ghost var issued: seq<StatementKind>

    ghost predicate Valid()
      reads this, db
    {
      db.Valid() && (tx == Active ==> WellFormed(DbState(snapshot, db.nextId)))
    }

    constructor (db: Database, fault: Fault)
      requires db.Valid()
      ensures Valid() && this.db == db && this.fault == fault
      ensures tx == NotStarted && lastInsertId == 0 && issued == []
    {
      this.db := db;
      this.fault := fault;
      tx := NotStarted;
      snapshot := db.tables;
      lastInsertId := 0;
      issued := [];
    }

    method StartTransaction() returns (ok: bool)
      requires Valid() && tx == NotStarted
      modifies this
      ensures Valid()
      ensures ok == (fault != StartFails)
      ensures tx == (if ok then Active else NotStarted)
      ensures ok ==> snapshot == db.tables
      ensures issued == old(issued) && lastInsertId == old(lastInsertId)
    {
      ok := fault != StartFails;
      if ok {
        tx := Active;
        snapshot := db.tables;
      }
    }

    method CommitTransaction() returns (ok: bool)
      requires Valid() && tx == Active
      modifies this
      ensures Valid()
      ensures ok == (fault != CommitFails)
      ensures tx == (if ok then Committed else Active)
      ensures snapshot == old(snapshot) && issued == old(issued) && lastInsertId == old(lastInsertId)
    {
      ok := fault != CommitFails;
      if ok {
        tx := Committed;
      }
    }

    /** Undoes every change of the transaction; the auto-increment counter is not given back. */
    method RollbackTransaction()
      requires Valid() && tx == Active
      modifies this, db`tables
      ensures Valid()
      ensures tx == RolledBack && db.tables == old(snapshot)
      ensures issued == old(issued) && lastInsertId == old(lastInsertId)
    {
      db.tables := snapshot;
      tx := RolledBack;
    }

    /** `INSERT INTO project (<five columns>) VALUES (?, ?, ?, ?, ?)`. */
    method ExecuteInsert(p: Project) returns (ok: bool)
      requires Valid() && tx == Active
      modifies this, db`tables, db`nextId
      ensures Valid() && tx == Active && snapshot == old(snapshot)
      ensures issued == old(issued) + [ProjectStatement]
      ensures ok == (fault != StatementFails(ProjectStatement))
      ensures ok ==>
        && db.tables == old(db.tables).(projects := old(db.tables.projects) + [RowOf(old(db.nextId), p)])
        && db.nextId == old(db.nextId) + 1
        && lastInsertId == old(db.nextId)
      ensures !ok ==> db.tables == old(db.tables) && db.nextId == old(db.nextId) && lastInsertId == old(lastInsertId)
    {
      issued := issued + [ProjectStatement];
      ok := fault != StatementFails(ProjectStatement);
      if ok {
        var id := db.nextId;
        db.tables := db.tables.(projects := db.tables.projects + [RowOf(id, p)]);
        db.nextId := id + 1;
        lastInsertId := id;
      }
    }

    /** `getLastInsertId(conn, "project")`: reads this connection's `LAST_INSERT_ID()`. */
    method GetLastInsertId() returns (ok: bool, id: int)
      requires Valid()
      ensures ok == (fault != LastIdFails)
      ensures ok ==> id == lastInsertId
    {
      ok := fault != LastIdFails;
      id := lastInsertId;
    }

    /** `UPDATE project SET <five columns> WHERE project_id = ?`, returning the affected-row count. */
    method ExecuteUpdate(p: Project) returns (ok: bool, count: nat)
      requires Valid() && tx == Active
      modifies this, db`tables
      ensures Valid() && tx == Active && snapshot == old(snapshot) && lastInsertId == old(lastInsertId)
      ensures issued == old(issued) + [ProjectStatement]
      ensures ok == (fault != StatementFails(ProjectStatement))
      ensures ok ==>
        && count == CountMatching(old(db.tables.projects), p.projectId)
        && db.tables == old(db.tables).(projects := UpdateRows(old(db.tables.projects), p))
      ensures !ok ==> db.tables == old(db.tables)
    {
      issued := issued + [ProjectStatement];
      ok := fault != StatementFails(ProjectStatement);
      count := 0;
      if ok {
        count := CountMatching(db.tables.projects, p.projectId);
        var rows := db.tables.projects;
        var updated := UpdateRows(rows, p);
        assert forall i :: 0 <= i < |updated| ==> updated[i].projectId == rows[i].projectId by {
          forall i | 0 <= i < |updated| ensures updated[i].projectId == rows[i].projectId {
            UpdateRowsEffect(rows, p, i);
          }
        }
        db.tables := db.tables.(projects := updated);
      }
    }

    /** `DELETE FROM project WHERE project_id = ?`, returning the affected-row count. */
    method ExecuteDelete(id: Option<int>) returns (ok: bool, count: nat)
      requires Valid() && tx == Active
      modifies this, db`tables
      ensures Valid() && tx == Active && snapshot == old(snapshot) && lastInsertId == old(lastInsertId)
      ensures issued == old(issued) + [ProjectStatement]
      ensures ok == (fault != StatementFails(ProjectStatement))
      ensures ok ==>
        && count == CountMatching(old(db.tables.projects), id)
        && db.tables == old(db.tables).(projects := DeleteRows(old(db.tables.projects), id))
      ensures !ok ==> db.tables == old(db.tables)
    {
      issued := issued + [ProjectStatement];
      ok := fault != StatementFails(ProjectStatement);
      count := 0;
      if ok {
        count := CountMatching(db.tables.projects, id);
        DeleteRowsWellFormed(db.State(), id);
        db.tables := db.tables.(projects := DeleteRows(db.tables.projects, id));
      }
    }

    /** `SELECT * FROM project ORDER BY project_name`: the rows of the result set. */
    method QueryProjectsByName() returns (ok: bool, rs: seq<ProjectRow>)
      requires Valid() && tx == Active
      modifies this`issued
      ensures issued == old(issued) + [ProjectStatement]
      ensures ok == (fault != StatementFails(ProjectStatement))
      ensures ok ==> rs == SortByName(db.tables.projects)
    {
      issued := issued + [ProjectStatement];
      ok := fault != StatementFails(ProjectStatement);
      rs := if ok then SortByName(db.tables.projects) else [];
    }

    /** `SELECT * FROM project WHERE project_id = ?`. */
    method QueryProjectById(id: Option<int>) returns (ok: bool, rs: seq<ProjectRow>)
      requires Valid() && tx == Active
      modifies this`issued
      ensures issued == old(issued) + [ProjectStatement]
      ensures ok == (fault != StatementFails(ProjectStatement))
      ensures ok ==> rs == RowsWithId(db.tables.projects, id)
    {
      issued := issued + [ProjectStatement];
      ok := fault != StatementFails(ProjectStatement);
      rs := if ok then RowsWithId(db.tables.projects, id) else [];
    }

    /** `SELECT * FROM material m WHERE m.project_id = ?`. */
    method QueryMaterials(id: Option<int>) returns (ok: bool, rs: seq<Material>)
      requires Valid() && tx == Active
      modifies this`issued
      ensures issued == old(issued) + [MaterialQuery]
      ensures ok == (fault != StatementFails(MaterialQuery))
      ensures ok ==> rs == MaterialsOf(db.tables.materials, id)
    {
      issued := issued + [MaterialQuery];
      ok := fault != StatementFails(MaterialQuery);
      rs := if ok then MaterialsOf(db.tables.materials, id) else [];
    }

    /** `SELECT * FROM step s WHERE s.project_id = ?`. */
    method QuerySteps(id: Option<int>) returns (ok: bool, rs: seq<Step>)
      requires Valid() && tx == Active
      modifies this`issued
      ensures issued == old(issued) + [StepQuery]
      ensures ok == (fault != StatementFails(StepQuery))
      ensures ok ==> rs == StepsOf(db.tables.steps, id)
    {
      issued := issued + [StepQuery];
      ok := fault != StatementFails(StepQuery);
      rs := if ok then StepsOf(db.tables.steps, id) else [];
    }

    /** The join of `category` and `project_category` for one project. */
    method QueryCategories(id: Option<int>) returns (ok: bool, rs: seq<Category>)
      requires Valid() && tx == Active
      modifies this`issued
      ensures issued == old(issued) + [CategoryQuery]
      ensures ok == (fault != StatementFails(CategoryQuery))
      ensures ok ==> rs == CategoriesOf(db.tables.categories, db.tables.projectCategory, id)
    {
      issued := issued + [CategoryQuery];
      ok := fault != StatementFails(CategoryQuery);
      rs := if ok then CategoriesOf(db.tables.categories, db.tables.projectCategory, id) else [];
    }
  }
}
