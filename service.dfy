/**
 * The policy layer between the application and the data-access layer: it
 * re-sorts the project list by key, turns an absent project into
 * `NoSuchElementException` and turns a `false` from an update or a delete into
 * `DbException`. Each operation is specified by a function from the store and
 * its fault script before the call to the reply and the store after it.
 */
module Service {
  import opened Entities
  import opened Store
  import opened Jdbc
  import opened Dao

  /** The store as the service sees it: the database state and how the next connections fail. */
  datatype Env = Env(state: DbState, faults: seq<Fault>)

  datatype Reply<T> = Reply(result: Result<T>, env: Env)

  function Pending(faults: seq<Fault>): Fault {
    if faults == [] then NoFault else faults[0]
  }

  /** The environment after a DAO call with outcome `o`: one connection used up. */
  function After<T>(e: Env, o: Outcome<T>): Env {
    Env(o.after, Tail(e.faults))
  }

  // ---------------------------------------------------------------------------
  // Sorting by projectId

  ghost predicate HasIds(ps: seq<Project>) {
    forall p :: p in ps ==> p.projectId.Some?
  }

  ghost predicate SortedById(ps: seq<Project>)
    requires HasIds(ps)
  {
    forall i, j :: 0 <= i < j < |ps| ==> ps[i].projectId.value <= ps[j].projectId.value
  }

  /** No two projects share a key. */
  ghost predicate DistinctIds(ps: seq<Project>) {
    forall i, j :: 0 <= i < j < |ps| ==> ps[i].projectId != ps[j].projectId
  }

  /** Places `x` before the first project whose key is not smaller: the comparator `p1.id - p2.id`. */
  function InsertById(x: Project, ps: seq<Project>): (r: seq<Project>)
    requires x.projectId.Some? && HasIds(ps)
    ensures multiset(r) == multiset(ps) + multiset{x} && HasIds(r)
  {
    if ps == [] || x.projectId.value <= ps[0].projectId.value then [x] + ps
    else
      assert ps[0] in ps;
      assert ps == [ps[0]] + ps[1..];
      [ps[0]] + InsertById(x, ps[1..])
  }

  /** `stream().sorted(comparator).collect(...)`: a stable sort by ascending key. */
  function SortById(ps: seq<Project>): (r: seq<Project>)
    requires HasIds(ps)
    ensures multiset(r) == multiset(ps) && HasIds(r)
  {
    if ps == [] then []
    else
      assert ps[0] in ps;
      assert ps == [ps[0]] + ps[1..];
      InsertById(ps[0], SortById(ps[1..]))
  }

  lemma {:induction false} InsertByIdSorted(x: Project, ps: seq<Project>)
    requires x.projectId.Some? && HasIds(ps) && SortedById(ps)
    ensures SortedById(InsertById(x, ps))
  {
    if ps != [] && x.projectId.value > ps[0].projectId.value {
      var head, tail := ps[0], ps[1..];
      assert head in ps;
      SortedTail(ps);
      InsertByIdSorted(x, tail);
      SortedBound(ps);
      InsertKeepsBound(head.projectId.value, x, tail);
      SortedCons(head, InsertById(x, tail));
    }
  }

  /** In a key-sorted list no key after the first is smaller than the first. */
  lemma SortedBound(ps: seq<Project>)
    requires ps != [] && HasIds(ps) && SortedById(ps)
    ensures ps[0].projectId.Some? && BoundedBelow(ps[0].projectId.value, ps[1..])
  {
    assert ps[0] in ps;
    forall q | q in ps[1..] ensures q.projectId.Some? && ps[0].projectId.value <= q.projectId.value {
      var k :| 0 <= k < |ps[1..]| && ps[1..][k] == q;
      assert ps[k + 1] == q;
    }
  }

  lemma InsertKeepsBound(lo: int, x: Project, ps: seq<Project>)
    requires x.projectId.Some? && lo <= x.projectId.value && HasIds(ps) && BoundedBelow(lo, ps)
    ensures BoundedBelow(lo, InsertById(x, ps))
  {
    var t := InsertById(x, ps);
    forall q | q in t ensures q.projectId.Some? && lo <= q.projectId.value {
      assert q in multiset(t);
      if q != x {
        assert q in multiset(ps);
      }
    }
  }

  /** Every project of `ps` has a key, none below `lo`. */
  ghost predicate BoundedBelow(lo: int, ps: seq<Project>) {
    forall q :: q in ps ==> q.projectId.Some? && lo <= q.projectId.value
  }

  lemma SortedCons(head: Project, t: seq<Project>)
    requires head.projectId.Some? && BoundedBelow(head.projectId.value, t) && SortedById(t)
    ensures HasIds([head] + t) && SortedById([head] + t)
  {
    var r := [head] + t;
    forall i, j | 0 <= i < j < |r| ensures r[i].projectId.value <= r[j].projectId.value {
      assert r[j] == t[j - 1];
      if i > 0 {
        assert r[i] == t[i - 1];
      }
    }
  }

  /** The service's list is sorted by ascending key and holds exactly the projects it was given. */
  lemma {:induction false} SortByIdSpec(ps: seq<Project>)
    requires HasIds(ps)
    ensures SortedById(SortById(ps)) && multiset(SortById(ps)) == multiset(ps)
  {
    if ps != [] {
      assert ps[0] in ps;
      SortByIdSpec(ps[1..]);
      InsertByIdSorted(ps[0], SortById(ps[1..]));
    }
  }

  /** A project occurs at most once in a list whose keys are distinct. */
  lemma {:induction false} DistinctOccursOnce(ps: seq<Project>, x: Project)
    requires DistinctIds(ps)
    ensures multiset(ps)[x] <= 1
  {
    if ps != [] {
      var tail := ps[1..];
      assert ps == [ps[0]] + tail;
      assert DistinctIds(tail) by {
        forall i, j | 0 <= i < j < |tail| ensures tail[i].projectId != tail[j].projectId {
          assert tail[i] == ps[i + 1] && tail[j] == ps[j + 1];
        }
      }
      DistinctOccursOnce(tail, x);
      if ps[0] == x {
        assert x !in tail;
      }
    }
  }

  /** Reordering a list with distinct keys keeps them distinct. */
  lemma DistinctPermutation(a: seq<Project>, b: seq<Project>)
    requires multiset(a) == multiset(b) && DistinctIds(b)
    ensures DistinctIds(a)
  {
    forall i, j | 0 <= i < j < |a| ensures a[i].projectId != a[j].projectId {
      assert a[i] in multiset(b) && a[j] in multiset(b);
      var k :| 0 <= k < |b| && b[k] == a[i];
      var l :| 0 <= l < |b| && b[l] == a[j];
      if a[i] == a[j] {
        assert a == a[..j] + a[j..];
        assert a[i] in a[..j] && a[j] in a[j..];
        assert multiset(a)[a[i]] == multiset(a[..j])[a[i]] + multiset(a[j..])[a[i]];
        DistinctOccursOnce(b, a[i]);
      } else {
        assert k != l;
      }
    }
  }

  /** Dropping the first project keeps a list keyed, sorted and distinct. */
  lemma SortedTail(a: seq<Project>)
    requires a != [] && HasIds(a) && SortedById(a)
    ensures HasIds(a[1..]) && SortedById(a[1..])
    ensures DistinctIds(a) ==> DistinctIds(a[1..])
  {
    var ta := a[1..];
    forall p | p in ta ensures p.projectId.Some? {
      assert p in a;
    }
    forall i, j | 0 <= i < j < |ta| ensures ta[i].projectId.value <= ta[j].projectId.value {
      assert ta[i] == a[i + 1] && ta[j] == a[j + 1];
    }
    if DistinctIds(a) {
      forall i, j | 0 <= i < j < |ta| ensures ta[i].projectId != ta[j].projectId {
        assert ta[i] == a[i + 1] && ta[j] == a[j + 1];
      }
    }
  }

  /** Two key-sorted lists with distinct keys and the same elements start with the same project. */
  lemma SortedHeadsAgree(a: seq<Project>, b: seq<Project>)
    requires HasIds(a) && HasIds(b) && SortedById(a) && SortedById(b)
    requires DistinctIds(a) && multiset(a) == multiset(b) && a != []
    ensures b != [] && a[0] == b[0]
  {
    assert a[0] in multiset(b);
    assert b != [] && b[0] in multiset(a);
    var k :| 0 <= k < |b| && b[k] == a[0];
    var m :| 0 <= m < |a| && a[m] == b[0];
    assert b[0].projectId.value <= b[k].projectId.value;
    assert a[0].projectId.value <= a[m].projectId.value;
  }

  /**
   * Two key-sorted lists with distinct keys and the same elements are the same
   * list: the key order leaves nothing to the order the lists came in.
   */
  lemma {:induction false} SortedByIdCanonical(a: seq<Project>, b: seq<Project>)
    requires HasIds(a) && HasIds(b) && SortedById(a) && SortedById(b)
    requires DistinctIds(a) && multiset(a) == multiset(b)
    ensures a == b
  {
    if a != [] {
      SortedHeadsAgree(a, b);
      assert a == [a[0]] + a[1..] && b == [b[0]] + b[1..];
      assert multiset(a[1..]) == multiset(a) - multiset{a[0]};
      assert multiset(b[1..]) == multiset(b) - multiset{a[0]};
      SortedTail(a);
      SortedTail(b);
      SortedByIdCanonical(a[1..], b[1..]);
    }
  }

  lemma {:induction false} ExtractAllConcat(u: seq<ProjectRow>, v: seq<ProjectRow>)
    ensures ExtractAll(u + v) == ExtractAll(u) + ExtractAll(v)
  {
    var l, r := ExtractAll(u + v), ExtractAll(u) + ExtractAll(v);
    forall i | 0 <= i < |l| ensures l[i] == r[i] {
      if i < |u| {
        assert (u + v)[i] == u[i];
      } else {
        assert (u + v)[i] == v[i - |u|];
      }
    }
  }

  /** Extracting the projects of two orderings of the same rows gives two orderings of the same projects. */
  lemma {:induction false} ExtractAllPermutation(a: seq<ProjectRow>, b: seq<ProjectRow>)
    requires multiset(a) == multiset(b)
    ensures multiset(ExtractAll(a)) == multiset(ExtractAll(b))
    decreases |a|
  {
    if a == [] {
      assert |multiset(b)| == 0;
    } else {
      var x := a[0];
      assert x in multiset(b);
      var k :| 0 <= k < |b| && b[k] == x;
      var rest := b[..k] + b[k + 1..];
      assert b == b[..k] + [x] + b[k + 1..];
      assert a == [x] + a[1..];
      assert multiset(b) == multiset(b[..k]) + multiset{x} + multiset(b[k + 1..]);
      assert multiset(rest) == multiset(b[..k]) + multiset(b[k + 1..]);
      assert multiset(a) == multiset{x} + multiset(a[1..]);
      assert multiset(a[1..]) == multiset(a) - multiset{x};
      assert multiset(rest) == multiset(b) - multiset{x};
      ExtractAllPermutation(a[1..], rest);
      ExtractAllConcat([x], a[1..]);
      ExtractAllConcat(b[..k], b[k + 1..]);
      ExtractAllConcat(b[..k] + [x], b[k + 1..]);
      ExtractAllConcat(b[..k], [x]);
    }
  }

  /** Every extracted project carries the key of its row. */
  lemma ExtractAllHasIds(rows: seq<ProjectRow>)
    ensures HasIds(ExtractAll(rows))
  {
    var ps := ExtractAll(rows);
    forall p | p in ps ensures p.projectId.Some? {
      var k :| 0 <= k < |ps| && ps[k] == p;
      assert p == ExtractProject(rows[k]);
    }
  }

  /** Distinct row keys give distinct project keys. */
  lemma ExtractAllDistinct(rows: seq<ProjectRow>)
    requires UniqueIds(rows)
    ensures DistinctIds(ExtractAll(rows))
  {
  }

  // ---------------------------------------------------------------------------
  // The boolean and the Optional turned into exceptions

  /** `orElseThrow(() -> new NoSuchElementException("Project with project ID <id>, does not exist."))`. */
  function PresentOrNotFound(d: Result<Option<Project>>, id: Option<int>): (r: Result<Project>)
    ensures r.Ok? <==> d.Ok? && d.value.Some?
    ensures r.Ok? ==> r.value == d.value.value
    ensures d.Err? ==> r == Err(d.error)
    ensures d == Ok(None) ==> r == Err(NoSuchElementException(ProjectWithId(id)))
  {
    match d
    case Err(e) => Err(e)
    case Ok(None) => Err(NoSuchElementException(ProjectWithId(id)))
    case Ok(Some(p)) => Ok(p)
  }

  /** `if (!dao...) throw new DbException("Project <id> does not exist.")`. */
  function RequireFound(d: Result<bool>, id: Option<int>): (r: Result<()>)
    ensures r.Ok? <==> d == Ok(true)
    ensures d.Err? ==> r == Err(d.error)
    ensures d == Ok(false) ==> r == Err(DbException(ProjectDoesNotExist(id)))
  {
    match d
    case Err(e) => Err(e)
    case Ok(false) => Err(DbException(ProjectDoesNotExist(id)))
    case Ok(true) => Ok(())
  }

  // ---------------------------------------------------------------------------
  // The operations
  //
  // Each `...Spec` function is the specification of one method of
  // `ProjectService`: the reply and the store after the call, as a function of
  // the store before it. The class below is the model of the Java class; its
  // methods call the DAO as the Java methods do and are proved to follow these
  // functions, and the lemmas further down state the properties on them.

  function AddSpec(e: Env, p: Project): Reply<Project> {
    var o := InsertOutcome(e.state, Pending(e.faults), p);
    Reply(o.result, After(e, o))
  }

  function ListSpec(e: Env): Reply<seq<Project>> {
    var o := FetchAllOutcome(e.state, Pending(e.faults));
    match o.result
    case Err(x) => Reply(Err(x), After(e, o))
    case Ok(ps) =>
      ExtractAllHasIds(SortByName(e.state.tables.projects));
      Reply(Ok(SortById(ps)), After(e, o))
  }

  function FetchSpec(e: Env, id: Option<int>): Reply<Project> {
    var o := FetchByIdOutcome(e.state, Pending(e.faults), id);
    Reply(PresentOrNotFound(o.result, id), After(e, o))
  }

  function ModifySpec(e: Env, p: Project): Reply<()> {
    var o := ModifyOutcome(e.state, Pending(e.faults), p);
    Reply(RequireFound(o.result, p.projectId), After(e, o))
  }

  function DeleteSpec(e: Env, p: Project): Reply<()> {
    var o := DeleteOutcome(e.state, Pending(e.faults), p.projectId);
    Reply(RequireFound(o.result, p.projectId), After(e, o))
  }

  /** `ProjectService`: each method models the Java method of the same name and ends as its `...Spec` function says. */
  class ProjectService {
    const dao: ProjectDao

    ghost predicate Valid()
      reads dao.db
    {
      dao.Valid()
    }

    function Environment(): Env
      reads dao.db
    {
      Env(dao.db.State(), dao.db.faults)
    }

    constructor (dao: ProjectDao)
      ensures this.dao == dao
    {
      this.dao := dao;
    }

    method AddProject(project: Project) returns (r: Result<Project>)
      requires Valid()
      modifies dao.db
      ensures Valid() && Reply(r, Environment()) == AddSpec(old(Environment()), project)
    {
      ghost var tx, issued;
      r, tx, issued := dao.InsertProject(project);
    }

    method FetchAllProjects() returns (r: Result<seq<Project>>)
      requires Valid()
      modifies dao.db
      ensures Valid() && Reply(r, Environment()) == ListSpec(old(Environment()))
    {
      var d; ghost var tx, issued;
      d, tx, issued := dao.FetchAllProjects();
      match d
      case Err(e) => r := Err(e);
      case Ok(ps) =>
        ExtractAllHasIds(SortByName(old(dao.db.tables.projects)));
        r := Ok(SortById(ps));
    }

    method FetchProjectById(projectId: Option<int>) returns (r: Result<Project>)
      requires Valid()
      modifies dao.db
      ensures Valid() && Reply(r, Environment()) == FetchSpec(old(Environment()), projectId)
    {
      var d; ghost var tx, issued;
      d, tx, issued := dao.FetchProjectById(projectId);
      r := PresentOrNotFound(d, projectId);
    }

    method ModifyProjectDetails(project: Project) returns (r: Result<()>)
      requires Valid()
      modifies dao.db
      ensures Valid() && Reply(r, Environment()) == ModifySpec(old(Environment()), project)
    {
      var d; ghost var tx, issued;
      d, tx, issued := dao.ModifyProjectDetails(project);
      r := RequireFound(d, project.projectId);
    }

    method DeleteProject(project: Project) returns (r: Result<()>)
      requires Valid()
      modifies dao.db
      ensures Valid() && Reply(r, Environment()) == DeleteSpec(old(Environment()), project)
    {
      var d; ghost var tx, issued;
      d, tx, issued := dao.DeleteProcject(project);
      r := RequireFound(d, project.projectId);
    }
  }

  // ---------------------------------------------------------------------------
  // What the layer promises

  /**
   * The list is the DAO's list sorted by ascending key: a permutation of it,
   * and equal to the key-sorted projects of the table in storage order, so the
   * name order the DAO used leaves no trace.
   */
  lemma ListSortedById(e: Env)
    requires WellFormed(e.state)
    ensures var o := FetchAllOutcome(e.state, Pending(e.faults));
      var r := ListSpec(e).result;
      && (r.Ok? <==> o.result.Ok?)
      && (r.Err? ==> r == Err(o.result.error))
      && (r.Ok? ==>
            && HasIds(r.value) && SortedById(r.value)
            && multiset(r.value) == multiset(o.result.value)
            && r.value == SortById(ExtractAll(e.state.tables.projects)))
  {
    var rows := e.state.tables.projects;
    var o := FetchAllOutcome(e.state, Pending(e.faults));
    if o.result.Ok? {
      var byName := SortByName(rows);
      SortByNameSpec(rows);
      ExtractAllHasIds(rows);
      ExtractAllHasIds(byName);
      ExtractAllDistinct(rows);
      ExtractAllPermutation(byName, rows);
      var r := SortById(ExtractAll(byName));
      var q := SortById(ExtractAll(rows));
      SortByIdSpec(ExtractAll(byName));
      SortByIdSpec(ExtractAll(rows));
      DistinctPermutation(r, ExtractAll(rows));
      SortedByIdCanonical(r, q);
    }
  }

  /**
   * The fetch throws `NoSuchElementException` for the requested key exactly
   * when the DAO found no project; it passes on the DAO's project and its
   * `DbException`s unchanged.
   */
  lemma FetchReportsMissing(e: Env, id: Option<int>)
    ensures var d := FetchByIdOutcome(e.state, Pending(e.faults), id).result;
      var r := FetchSpec(e, id).result;
      && (r == Err(NoSuchElementException(ProjectWithId(id))) <==> d == Ok(None))
      && (d == Ok(None) ==> !HasRow(e.state.tables.projects, id))
      && (r.Ok? <==> d.Ok? && d.value.Some?)
      && (r.Ok? ==> d == Ok(Some(r.value)))
      && (d.Err? ==> r == Err(d.error))
  {
    RowsWithIdNonEmpty(e.state.tables.projects, id);
  }

  /**
   * An update or a delete throws `DbException("Project <id> does not exist.")`
   * exactly when the DAO returned false, which happens exactly when the
   * statement ran and no row had the key; otherwise it returns normally or
   * passes on the DAO's exception.
   */
  lemma NotFoundIffDaoFalse(e: Env, p: Project)
    requires WellFormed(e.state)
    ensures var f := Pending(e.faults);
      var notFound := Err(DbException(ProjectDoesNotExist(p.projectId)));
      var ran := !BeforeTransaction(f) && f != StatementFails(ProjectStatement) && f != CommitFails;
      && (ModifySpec(e, p).result == notFound <==> ModifyOutcome(e.state, f, p).result == Ok(false))
      && (ModifyOutcome(e.state, f, p).result == Ok(false) <==> ran && !HasRow(e.state.tables.projects, p.projectId))
      && (ModifySpec(e, p).result.Ok? <==> ran && HasRow(e.state.tables.projects, p.projectId))
      && (DeleteSpec(e, p).result == notFound <==> DeleteOutcome(e.state, f, p.projectId).result == Ok(false))
      && (DeleteOutcome(e.state, f, p.projectId).result == Ok(false) <==> ran && !HasRow(e.state.tables.projects, p.projectId))
      && (DeleteSpec(e, p).result.Ok? <==> ran && HasRow(e.state.tables.projects, p.projectId))
  {
    CountMatchingUnique(e.state.tables.projects, p.projectId);
  }

  /** The add passes the DAO's result through: on success the project with its new key and nothing else changed. */
  lemma AddPassesThrough(e: Env, p: Project)
    ensures var o := InsertOutcome(e.state, Pending(e.faults), p);
      && AddSpec(e, p).result == o.result
      && (o.result.Ok? ==> o.result.value == p.(projectId := Some(e.state.nextId)))
  {
  }
}
