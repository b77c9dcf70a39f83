/**
 * The relational store behind the application, seen as values: the five
 * tables `project`, `material`, `step`, `category` and `project_category`,
 * each a sequence of rows in storage order, and what the statements the
 * data-access layer issues do to them or read from them.
 */
module Store {
  import opened Entities

  /** One row of `project(project_id, project_name, estimated_hours, actual_hours, difficulty, notes)`. */
  datatype ProjectRow = ProjectRow(
    projectId: int,
    projectName: Option<string>,
    estimatedHours: Option<Hours>,
    actualHours: Option<Hours>,
    difficulty: Option<int>,
    notes: Option<string>)

  /** One row of the join table `project_category`. */
  datatype ProjectCategory = ProjectCategory(projectId: int, categoryId: int)

  datatype Tables = Tables(
    projects: seq<ProjectRow>,
    materials: seq<Material>,
    steps: seq<Step>,
    categories: seq<Category>,
    projectCategory: seq<ProjectCategory>)

  /** The tables together with the next AUTO_INCREMENT value of `project.project_id`. */
  datatype DbState = DbState(tables: Tables, nextId: int)

  /** `project_id` is the primary key. */
  ghost predicate UniqueIds(rows: seq<ProjectRow>) {
    forall i, j :: 0 <= i < j < |rows| ==> rows[i].projectId != rows[j].projectId
  }

  /** The key is unique and every key was handed out by the auto-increment counter. */
  ghost predicate WellFormed(s: DbState) {
    && 1 <= s.nextId
    && UniqueIds(s.tables.projects)
    && forall i :: 0 <= i < |s.tables.projects| ==> 1 <= s.tables.projects[i].projectId < s.nextId
  }

  /** `WHERE project_id = ?`; a NULL parameter matches no row. */
  predicate Matches(id: Option<int>, row: ProjectRow) {
    id == Some(row.projectId)
  }

  ghost predicate HasRow(rows: seq<ProjectRow>, id: Option<int>) {
    exists i :: 0 <= i < |rows| && Matches(id, rows[i])
  }

  /** The row an INSERT or UPDATE writes for `p` under key `id`. */
  function RowOf(id: int, p: Project): ProjectRow {
    ProjectRow(id, p.projectName, p.estimatedHours, p.actualHours, p.difficulty, p.notes)
  }

  /** `extract(rs, Project.class)`: the columns of the row, no children. */
  function ExtractProject(row: ProjectRow): (p: Project)
    ensures p.projectId == Some(row.projectId) && RowOf(row.projectId, p) == row
    ensures p.materials == [] && p.steps == [] && p.categories == []
  {
    Project(Some(row.projectId), row.projectName, row.estimatedHours, row.actualHours,
            row.difficulty, row.notes, [], [], [])
  }

  /** The number of rows a statement `WHERE project_id = ?` touches. */
  function CountMatching(rows: seq<ProjectRow>, id: Option<int>): nat {
    if rows == [] then 0
    else (if Matches(id, rows[0]) then 1 else 0) + CountMatching(rows[1..], id)
  }

  lemma {:induction false} CountMatchingUnique(rows: seq<ProjectRow>, id: Option<int>)
    requires UniqueIds(rows)
    ensures CountMatching(rows, id) == if HasRow(rows, id) then 1 else 0
  {
    if rows != [] {
      var tail := rows[1..];
      assert UniqueIds(tail) by {
        forall i, j | 0 <= i < j < |tail| ensures tail[i].projectId != tail[j].projectId {
          assert tail[i] == rows[i + 1] && tail[j] == rows[j + 1];
        }
      }
      CountMatchingUnique(tail, id);
      if Matches(id, rows[0]) {
        assert HasRow(rows, id);
        forall k | 0 <= k < |tail| ensures !Matches(id, tail[k]) {
          assert tail[k] == rows[k + 1];
        }
      } else {
        if HasRow(rows, id) {
          var k :| 0 <= k < |rows| && Matches(id, rows[k]);
          assert k > 0 && tail[k - 1] == rows[k];
          assert HasRow(tail, id);
        }
        if HasRow(tail, id) {
          var k :| 0 <= k < |tail| && Matches(id, tail[k]);
          assert tail[k] == rows[k + 1];
        }
      }
    }
  }

  /** `SELECT * FROM project WHERE project_id = ?`, in storage order. */
  function RowsWithId(rows: seq<ProjectRow>, id: Option<int>): (r: seq<ProjectRow>)
    ensures forall row :: row in r <==> row in rows && Matches(id, row)
    ensures |r| == CountMatching(rows, id)
  {
    if rows == [] then []
    else
      assert rows == [rows[0]] + rows[1..];
      (if Matches(id, rows[0]) then [rows[0]] else []) + RowsWithId(rows[1..], id)
  }

  /** The query by id yields something exactly when some row has the key. */
  lemma RowsWithIdNonEmpty(rows: seq<ProjectRow>, id: Option<int>)
    ensures HasRow(rows, id) <==> RowsWithId(rows, id) != []
  {
    var r := RowsWithId(rows, id);
    if HasRow(rows, id) {
      var k :| 0 <= k < |rows| && Matches(id, rows[k]);
      assert rows[k] in r;
    }
    if r != [] {
      assert r[0] in rows;
      var k :| 0 <= k < |rows| && rows[k] == r[0];
      assert Matches(id, rows[k]);
    }
  }

  /** Under a unique key the query by id yields the one row with that key, or nothing. */
  lemma RowsWithIdUnique(rows: seq<ProjectRow>, id: Option<int>)
    requires UniqueIds(rows)
    ensures HasRow(rows, id) <==> RowsWithId(rows, id) != []
    ensures forall i :: 0 <= i < |rows| && Matches(id, rows[i]) ==> RowsWithId(rows, id) == [rows[i]]
  {
    CountMatchingUnique(rows, id);
    var r := RowsWithId(rows, id);
    forall i | 0 <= i < |rows| && Matches(id, rows[i]) ensures r == [rows[i]] {
      assert HasRow(rows, id);
      assert rows[i] in r;
    }
    if r != [] {
      assert r[0] in rows;
      var k :| 0 <= k < |rows| && rows[k] == r[0];
      assert Matches(id, rows[k]);
    }
  }

  /** `DELETE FROM project WHERE project_id = ?`. */
  function DeleteRows(rows: seq<ProjectRow>, id: Option<int>): (r: seq<ProjectRow>)
    ensures forall row :: row in r <==> row in rows && !Matches(id, row)
    ensures |r| == |rows| - CountMatching(rows, id)
  {
    if rows == [] then []
    else
      assert rows == [rows[0]] + rows[1..];
      (if Matches(id, rows[0]) then [] else [rows[0]]) + DeleteRows(rows[1..], id)
  }

  /** Deleting keeps a subset of the rows, so the key stays unique and below the counter. */
  lemma DeleteRowsWellFormed(s: DbState, id: Option<int>)
    requires WellFormed(s)
    ensures WellFormed(s.(tables := s.tables.(projects := DeleteRows(s.tables.projects, id))))
  {
    DeleteRowsUnique(s.tables.projects, id);
    var r := DeleteRows(s.tables.projects, id);
    forall i | 0 <= i < |r| ensures 1 <= r[i].projectId < s.nextId {
      assert r[i] in s.tables.projects;
    }
  }

  lemma {:induction false} DeleteRowsUnique(rows: seq<ProjectRow>, id: Option<int>)
    requires UniqueIds(rows)
    ensures UniqueIds(DeleteRows(rows, id))
  {
    if rows != [] {
      var tail := rows[1..];
      UniqueIdsTail(rows);
      DeleteRowsUnique(tail, id);
      var t := DeleteRows(tail, id);
      if !Matches(id, rows[0]) {
        forall j | 0 <= j < |t| ensures t[j].projectId != rows[0].projectId {
          assert t[j] in tail;
          var k :| 0 <= k < |tail| && tail[k] == t[j];
          assert rows[k + 1] == t[j];
        }
        UniqueIdsCons(rows[0], t);
      }
    }
  }

  lemma UniqueIdsTail(rows: seq<ProjectRow>)
    requires rows != [] && UniqueIds(rows)
    ensures UniqueIds(rows[1..])
  {
    var tail := rows[1..];
    forall i, j | 0 <= i < j < |tail| ensures tail[i].projectId != tail[j].projectId {
      assert tail[i] == rows[i + 1] && tail[j] == rows[j + 1];
    }
  }

  lemma UniqueIdsCons(x: ProjectRow, t: seq<ProjectRow>)
    requires UniqueIds(t) && forall j :: 0 <= j < |t| ==> t[j].projectId != x.projectId
    ensures UniqueIds([x] + t)
  {
    var r := [x] + t;
    forall i, j | 0 <= i < j < |r| ensures r[i].projectId != r[j].projectId {
      assert r[j] == t[j - 1];
      if i > 0 {
        assert r[i] == t[i - 1];
      }
    }
  }

  /** A delete whose key matches no row changes nothing. */
  lemma {:induction false} DeleteOfMissingRow(rows: seq<ProjectRow>, id: Option<int>)
    requires !HasRow(rows, id)
    ensures DeleteRows(rows, id) == rows
  {
    if rows != [] {
      assert !Matches(id, rows[0]);
      assert !HasRow(rows[1..], id) by {
        forall k | 0 <= k < |rows| - 1 ensures !Matches(id, rows[1..][k]) {
          assert rows[1..][k] == rows[k + 1];
        }
      }
      DeleteOfMissingRow(rows[1..], id);
      assert rows == [rows[0]] + rows[1..];
    }
  }

  /** `UPDATE project SET <five columns> WHERE project_id = ?`: matching rows keep their key. */
  function UpdateRows(rows: seq<ProjectRow>, p: Project): (r: seq<ProjectRow>)
    ensures |r| == |rows|
  {
    seq(|rows|, i requires 0 <= i < |rows| =>
      if Matches(p.projectId, rows[i]) then RowOf(rows[i].projectId, p) else rows[i])
  }

  /** The row with the key takes the five fields of `p`; every other row is as it was. */
  lemma UpdateRowsEffect(rows: seq<ProjectRow>, p: Project, i: int)
    requires 0 <= i < |rows|
    ensures UpdateRows(rows, p)[i].projectId == rows[i].projectId
    ensures Matches(p.projectId, rows[i]) ==>
      var row := UpdateRows(rows, p)[i];
      && row.projectName == p.projectName && row.estimatedHours == p.estimatedHours
      && row.actualHours == p.actualHours && row.difficulty == p.difficulty && row.notes == p.notes
    ensures !Matches(p.projectId, rows[i]) ==> UpdateRows(rows, p)[i] == rows[i]
  {
  }

  /** An update whose key matches no row changes nothing. */
  lemma UpdateOfMissingRow(rows: seq<ProjectRow>, p: Project)
    requires !HasRow(rows, p.projectId)
    ensures UpdateRows(rows, p) == rows
  {
    var r := UpdateRows(rows, p);
    forall i | 0 <= i < |rows| ensures r[i] == rows[i] {
      assert !Matches(p.projectId, rows[i]);
    }
  }

  /** `SELECT * FROM material m WHERE m.project_id = ?`, in storage order. */
  function MaterialsOf(materials: seq<Material>, id: Option<int>): (r: seq<Material>)
    ensures forall m :: m in r <==> m in materials && id == Some(m.projectId)
    ensures |r| <= |materials|
  {
    if materials == [] then []
    else
      assert materials == [materials[0]] + materials[1..];
      (if id == Some(materials[0].projectId) then [materials[0]] else []) + MaterialsOf(materials[1..], id)
  }

  /** `SELECT * FROM step s WHERE s.project_id = ?`, in storage order. */
  function StepsOf(steps: seq<Step>, id: Option<int>): (r: seq<Step>)
    ensures forall s :: s in r <==> s in steps && id == Some(s.projectId)
    ensures |r| <= |steps|
  {
    if steps == [] then []
    else
      assert steps == [steps[0]] + steps[1..];
      (if id == Some(steps[0].projectId) then [steps[0]] else []) + StepsOf(steps[1..], id)
  }

  function CategoriesWithId(categories: seq<Category>, categoryId: int): (r: seq<Category>)
    ensures forall c :: c in r <==> c in categories && c.categoryId == categoryId
  {
    if categories == [] then []
    else
      assert categories == [categories[0]] + categories[1..];
      (if categories[0].categoryId == categoryId then [categories[0]] else [])
        + CategoriesWithId(categories[1..], categoryId)
  }

  /** Some row of `project_category` links project `id` to category `categoryId`. */
  ghost predicate Linked(links: seq<ProjectCategory>, id: Option<int>, categoryId: int) {
    exists l :: l in links && id == Some(l.projectId) && l.categoryId == categoryId
  }

  /**
   * `SELECT c.* FROM category c JOIN project_category pc USING (category_id)
   * WHERE project_id = ?`, one result row per matching link, links in storage order.
   */
  function CategoriesOf(categories: seq<Category>, links: seq<ProjectCategory>, id: Option<int>): (r: seq<Category>)
    ensures forall c :: c in r <==> c in categories && Linked(links, id, c.categoryId)
  {
    if links == [] then []
    else
      assert links == [links[0]] + links[1..];
      (if id == Some(links[0].projectId) then CategoriesWithId(categories, links[0].categoryId) else [])
        + CategoriesOf(categories, links[1..], id)
  }

  // ---------------------------------------------------------------------------
  // ORDER BY project_name

  /** Lexicographic order of strings by character code. */
  predicate StrLe(a: string, b: string) {
    a == [] || (b != [] && (a[0] < b[0] || (a[0] == b[0] && StrLe(a[1..], b[1..]))))
  }

  lemma {:induction false} StrLeTotal(a: string, b: string)
    ensures StrLe(a, b) || StrLe(b, a)
  {
    if a != [] && b != [] && a[0] == b[0] {
      StrLeTotal(a[1..], b[1..]);
    }
  }

  lemma {:induction false} StrLeTransitive(a: string, b: string, c: string)
    requires StrLe(a, b) && StrLe(b, c)
    ensures StrLe(a, c)
  {
    if a != [] && b != [] && c != [] && a[0] == b[0] && b[0] == c[0] {
      StrLeTransitive(a[1..], b[1..], c[1..]);
    }
  }

  /** Ascending order of a nullable name: NULL sorts first. */
  predicate NameLe(a: Option<string>, b: Option<string>) {
    match a
    case None => true
    case Some(x) => b.Some? && StrLe(x, b.value)
  }

  lemma NameLeTotal(a: Option<string>, b: Option<string>)
    ensures NameLe(a, b) || NameLe(b, a)
  {
    if a.Some? && b.Some? {
      StrLeTotal(a.value, b.value);
    }
  }

  lemma NameLeTransitive(a: Option<string>, b: Option<string>, c: Option<string>)
    requires NameLe(a, b) && NameLe(b, c)
    ensures NameLe(a, c)
  {
    if a.Some? {
      StrLeTransitive(a.value, b.value, c.value);
    }
  }

  ghost predicate SortedByName(rows: seq<ProjectRow>) {
    forall i, j :: 0 <= i < j < |rows| ==> NameLe(rows[i].projectName, rows[j].projectName)
  }

  function InsertByName(x: ProjectRow, rows: seq<ProjectRow>): seq<ProjectRow> {
    if rows == [] || NameLe(x.projectName, rows[0].projectName) then [x] + rows
    else [rows[0]] + InsertByName(x, rows[1..])
  }

  /** The rows as `ORDER BY project_name` returns them; rows with equal names keep storage order. */
  function SortByName(rows: seq<ProjectRow>): seq<ProjectRow> {
    if rows == [] then [] else InsertByName(rows[0], SortByName(rows[1..]))
  }

  lemma {:induction false} InsertByNameSpec(x: ProjectRow, rows: seq<ProjectRow>)
    requires SortedByName(rows)
    ensures SortedByName(InsertByName(x, rows))
    ensures multiset(InsertByName(x, rows)) == multiset(rows) + multiset{x}
  {
    if rows == [] || NameLe(x.projectName, rows[0].projectName) {
      var r := [x] + rows;
      forall i, j | 0 <= i < j < |r| ensures NameLe(r[i].projectName, r[j].projectName) {
        if i == 0 && j > 1 {
          NameLeTransitive(x.projectName, rows[0].projectName, rows[j - 1].projectName);
        }
      }
    } else {
      var tail := rows[1..];
      SortedByNameTail(rows);
      InsertByNameSpec(x, tail);
      var t := InsertByName(x, tail);
      NameLeTotal(x.projectName, rows[0].projectName);
      forall j | 0 <= j < |t| ensures NameLe(rows[0].projectName, t[j].projectName) {
        assert t[j] in multiset(t);
        if t[j] != x {
          assert t[j] in multiset(tail);
          var k :| 0 <= k < |tail| && tail[k] == t[j];
          assert rows[k + 1] == t[j];
        }
      }
      ConsSortedByName(rows[0], t);
      assert rows == [rows[0]] + tail;
    }
  }

  lemma SortedByNameTail(rows: seq<ProjectRow>)
    requires rows != [] && SortedByName(rows)
    ensures SortedByName(rows[1..])
  {
    var tail := rows[1..];
    forall i, j | 0 <= i < j < |tail| ensures NameLe(tail[i].projectName, tail[j].projectName) {
      assert tail[i] == rows[i + 1] && tail[j] == rows[j + 1];
    }
  }

  /** A row whose name is at most every name of a sorted sequence can be put in front of it. */
  lemma ConsSortedByName(head: ProjectRow, t: seq<ProjectRow>)
    requires SortedByName(t) && forall j :: 0 <= j < |t| ==> NameLe(head.projectName, t[j].projectName)
    ensures SortedByName([head] + t)
  {
    var r := [head] + t;
    forall i, j | 0 <= i < j < |r| ensures NameLe(r[i].projectName, r[j].projectName) {
      if i > 0 {
        assert r[i] == t[i - 1] && r[j] == t[j - 1];
      } else {
        assert r[j] == t[j - 1];
      }
    }
  }

  /** The name-ordered result is sorted by name and holds exactly the rows of the table. */
  lemma {:induction false} SortByNameSpec(rows: seq<ProjectRow>)
    ensures SortedByName(SortByName(rows))
    ensures multiset(SortByName(rows)) == multiset(rows)
  {
    if rows != [] {
      SortByNameSpec(rows[1..]);
      InsertByNameSpec(rows[0], SortByName(rows[1..]));
      assert rows == [rows[0]] + rows[1..];
    }
  }
}
