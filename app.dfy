/**
 * The console application: a menu loop that reads a selection, runs the
 * chosen operation through the service and keeps the currently selected
 * project. Every operation is specified by a function from the world before
 * it (store, console lines still to be read, current project) to its result
 * and the world after it; the class methods are proved to follow them.
 */
module App {
  import opened Entities
  import opened Store
  import opened Dao
  import opened Service
  import opened Input

  /** Everything an operation of the application reads or changes. */
  datatype World = World(env: Env, input: seq<string>, cur: Option<Project>)

  /** What an operation threw or returned, and the world it left. */
  datatype Effect<T> = Effect(result: Result<T>, world: World)

  function Unit<T>(r: Result<T>): (u: Result<()>)
    ensures u.Ok? <==> r.Ok?
    ensures r.Err? ==> u.error == r.error
  {
    match r
    case Ok(_) => Ok(())
    case Err(e) => Err(e)
  }

  // ---------------------------------------------------------------------------
  // The menu

  datatype Command = Exit | CreateCommand | ListCommand | SelectCommand | UpdateCommand | DeleteCommand | NotValid(selection: int)

  /** The `switch` of the menu loop. */
  function MenuCommand(n: int): (c: Command)
    ensures c.NotValid? <==> n !in {-1, 1, 2, 3, 4, 5}
    ensures c == Exit <==> n == -1
    ensures c.NotValid? ==> c.selection == n
    ensures c == CreateCommand <==> n == 1
    ensures c == ListCommand <==> n == 2
    ensures c == SelectCommand <==> n == 3
    ensures c == UpdateCommand <==> n == 4
    ensures c == DeleteCommand <==> n == 5
  {
    if n == -1 then Exit
    else if n == 1 then CreateCommand
    else if n == 2 then ListCommand
    else if n == 3 then SelectCommand
    else if n == 4 then UpdateCommand
    else if n == 5 then DeleteCommand
    else NotValid(n)
  }

  /** `getUserSelection`: the number typed, -1 for a blank line. */
  function UserSelection(lines: seq<string>): (r: Read<int>)
    ensures lines == [] ==> r == Read(Err(NoLine), [])
    ensures lines != [] ==> r.rest == lines[1..]
    ensures lines != [] && IsBlank(lines[0]) ==> r.result == Ok(-1)
    ensures lines != [] && !IsBlank(lines[0]) ==>
      r.result == if ParseInt(Trim(lines[0])).Some? then Ok(ParseInt(Trim(lines[0])).value)
                  else Err(DbException(NotAValidNumber(Trim(lines[0]))))
  {
    var n := IntInput(lines);
    match n.result
    case Err(e) => Read(Err(e), n.rest)
    case Ok(v) => Read(Ok(if v.None? then -1 else v.value), n.rest)
  }

  // ---------------------------------------------------------------------------
  // The update merge and the delete confirmation

  /** The five answers of the update dialogue; absent where the line was blank. */
  datatype Edits = Edits(
    projectName: Option<string>,
    estimatedHours: Option<Hours>,
    actualHours: Option<Hours>,
    difficulty: Option<int>,
    notes: Option<string>)

  const NoEdits: Edits := Edits(None, None, None, None, None)

  function Prefer<T>(edit: Option<T>, current: Option<T>): Option<T> {
    if edit.Some? then edit else current
  }

  /** The project `updateProjectDetails` sends: each field from the answer when there is one, else from `cur`. */
  function MergeUpdate(cur: Project, e: Edits): Project {
    EmptyProject.(
      projectName := Prefer(e.projectName, cur.projectName),
      estimatedHours := Prefer(e.estimatedHours, cur.estimatedHours),
      actualHours := Prefer(e.actualHours, cur.actualHours),
      difficulty := Prefer(e.difficulty, cur.difficulty),
      notes := Prefer(e.notes, cur.notes),
      projectId := cur.projectId)
  }

  /**
   * The merge keeps the current project's key, takes every answered field and
   * keeps every unanswered one, and sends no child lists.
   */
  lemma MergeFieldByField(cur: Project, e: Edits)
    ensures var p := MergeUpdate(cur, e);
      && p.projectId == cur.projectId
      && (e.projectName.Some? ==> p.projectName == e.projectName) && (e.projectName.None? ==> p.projectName == cur.projectName)
      && (e.estimatedHours.Some? ==> p.estimatedHours == e.estimatedHours) && (e.estimatedHours.None? ==> p.estimatedHours == cur.estimatedHours)
      && (e.actualHours.Some? ==> p.actualHours == e.actualHours) && (e.actualHours.None? ==> p.actualHours == cur.actualHours)
      && (e.difficulty.Some? ==> p.difficulty == e.difficulty) && (e.difficulty.None? ==> p.difficulty == cur.difficulty)
      && (e.notes.Some? ==> p.notes == e.notes) && (e.notes.None? ==> p.notes == cur.notes)
      && p.materials == [] && p.steps == [] && p.categories == []
  {
  }

  /**
   * Leaving every answer blank writes the current project's row back as it is:
   * if that row is in the table, the update changes no table.
   */
  lemma {:induction false} BlankEditsChangeNothing(s: DbState, f: Fault, cur: Project)
    requires WellFormed(s) && cur.projectId.Some? && RowOf(cur.projectId.value, cur) in s.tables.projects
    ensures ModifyOutcome(s, f, MergeUpdate(cur, NoEdits)).after == s
  {
    var rows := s.tables.projects;
    var p := MergeUpdate(cur, NoEdits);
    var id := cur.projectId.value;
    var k :| 0 <= k < |rows| && rows[k] == RowOf(id, cur);
    var updated := UpdateRows(rows, p);
    forall i | 0 <= i < |rows| ensures updated[i] == rows[i] {
      UpdateRowsEffect(rows, p, i);
      if Matches(p.projectId, rows[i]) {
        assert rows[i].projectId == rows[k].projectId;
        assert i == k;
      }
    }
  }

  /**
   * `verifyDelete.equals("Yes")`: only the exact answer `Yes` confirms; a blank
   * answer is null and throws.
   */
  function ConfirmDelete(answer: Option<string>): (r: Result<bool>)
    ensures r == Err(NullPointerException) <==> answer.None?
    ensures r == Ok(true) <==> answer == Some("Yes")
    ensures answer.Some? && answer.value != "Yes" ==> r == Ok(false)
  {
    match answer
    case None => Err(NullPointerException)
    case Some(text) => Ok(text == "Yes")
  }

  // ---------------------------------------------------------------------------
  // The operations of the menu
  //
  // Each `...Step` function is the specification of one method of
  // `ProjectsApp`: its result and the world after it, as a function of the
  // world before it. The class below is the model of the Java class; its
  // methods read the console and call the service as the Java methods do and
  // are proved to follow these functions, and the lemmas at the end state the
  // properties on them.

  /** `listProjects`: the list is printed, so only whether it threw is kept. */
  function ListStep(w: World): (r: Effect<()>)
    ensures r.world.input == w.input && r.world.cur == w.cur
  {
    var l := ListSpec(w.env);
    Effect(Unit(l.result), w.(env := l.env))
  }

  function CreateStep(w: World): (r: Effect<()>)
    ensures |w.input| - 5 <= |r.world.input| <= |w.input| && r.world.cur == w.cur
    ensures r.result.Ok? ==> |r.world.input| == |w.input| - 5
  {
    var name := StringInput(w.input);
    var est := DecimalInput(name.rest);
    var act := DecimalInput(est.rest);
    var diff := IntInput(act.rest);
    var notes := StringInput(diff.rest);
    if name.result.Err? then Effect(Unit(name.result), w.(input := name.rest))
    else if est.result.Err? then Effect(Unit(est.result), w.(input := est.rest))
    else if act.result.Err? then Effect(Unit(act.result), w.(input := act.rest))
    else if diff.result.Err? then Effect(Unit(diff.result), w.(input := diff.rest))
    else if notes.result.Err? then Effect(Unit(notes.result), w.(input := notes.rest))
    else
      var p := EmptyProject.(
        projectName := name.result.value,
        estimatedHours := est.result.value,
        actualHours := act.result.value,
        difficulty := diff.result.value,
        notes := notes.result.value);
      var r := AddSpec(w.env, p);
      Effect(Unit(r.result), World(r.env, notes.rest, w.cur))
  }

  /**
   * The common start of select, update and delete: list the projects, read a
   * key, drop the current project, and fetch the one with that key, which
   * becomes current when the fetch succeeds.
   */
  function ChooseStep(w: World): (r: Effect<Project>)
    ensures |r.world.input| <= |w.input|
    ensures r.result.Ok? ==> r.world.cur == Some(r.result.value)
  {
    var l := ListStep(w);
    if l.result.Err? then Effect(Err(l.result.error), l.world)
    else
      var id := IntInput(l.world.input);
      if id.result.Err? then Effect(Err(id.result.error), l.world.(input := id.rest))
      else
        var f := FetchSpec(l.world.env, id.result.value);
        Effect(f.result, World(f.env, id.rest, if f.result.Ok? then Some(f.result.value) else None))
  }

  function SelectStep(w: World): (r: Effect<()>)
    ensures |r.world.input| <= |w.input|
  {
    var c := ChooseStep(w);
    Effect(Unit(c.result), c.world)
  }

  /** Reads the five answers of the update dialogue and sends the merge, then fetches the project again. */
  function EditStep(w: World, cur: Project): (r: Effect<()>)
    ensures |r.world.input| <= |w.input|
  {
    var name := StringInput(w.input);
    var est := DecimalInput(name.rest);
    var act := DecimalInput(est.rest);
    var diff := IntInput(act.rest);
    var notes := StringInput(diff.rest);
    if name.result.Err? then Effect(Unit(name.result), w.(input := name.rest))
    else if est.result.Err? then Effect(Unit(est.result), w.(input := est.rest))
    else if act.result.Err? then Effect(Unit(act.result), w.(input := act.rest))
    else if diff.result.Err? then Effect(Unit(diff.result), w.(input := diff.rest))
    else if notes.result.Err? then Effect(Unit(notes.result), w.(input := notes.rest))
    else
      var e := Edits(name.result.value, est.result.value, act.result.value, diff.result.value, notes.result.value);
      var m := ModifySpec(w.env, MergeUpdate(cur, e));
      if m.result.Err? then Effect(m.result, World(m.env, notes.rest, w.cur))
      else
        var f := FetchSpec(m.env, cur.projectId);
        Effect(Unit(f.result), World(f.env, notes.rest, if f.result.Ok? then Some(f.result.value) else w.cur))
  }

  function UpdateStep(w: World): (r: Effect<()>)
    ensures |r.world.input| <= |w.input|
  {
    var c := ChooseStep(w);
    if c.result.Err? then Effect(Unit(c.result), c.world)
    else EditStep(c.world, c.result.value)
  }

  /** Asks for confirmation and deletes `cur` on `Yes`; the current project is dropped once the list is shown again. */
  function ConfirmStep(w: World, cur: Project): (r: Effect<()>)
    ensures |r.world.input| <= |w.input|
  {
    var answer := StringInput(w.input);
    var w1 := w.(input := answer.rest);
    if answer.result.Err? then Effect(Unit(answer.result), w1)
    else
      var confirm := ConfirmDelete(answer.result.value);
      if confirm.Err? then Effect(Unit(confirm), w1)
      else
        var d := if confirm.value then DeleteSpec(w1.env, EmptyProject.(projectId := cur.projectId))
                 else Reply(Ok(()), w1.env);
        if d.result.Err? then Effect(d.result, w1.(env := d.env))
        else
          var l := ListStep(w1.(env := d.env));
          if l.result.Err? then l else Effect(Ok(()), l.world.(cur := None))
  }

  function DeleteStep(w: World): (r: Effect<()>)
    ensures |r.world.input| <= |w.input|
  {
    var c := ChooseStep(w);
    if c.result.Err? then Effect(Unit(c.result), c.world)
    else ConfirmStep(c.world, c.result.value)
  }

  function Done(s: Effect<()>): Effect<bool> {
    Effect(if s.result.Ok? then Ok(false) else Err(s.result.error), s.world)
  }

  /** The `switch` on the selection, run in world `w`. */
  function Dispatch(c: Command, w: World): (r: Effect<bool>)
    ensures |r.world.input| <= |w.input|
    ensures c.NotValid? ==> r == Effect(Ok(false), w)
    ensures c == Exit ==> r == Effect(Ok(true), w)
  {
    match c
    case Exit => Effect(Ok(true), w)
    case CreateCommand => Done(CreateStep(w))
    case ListCommand => Done(ListStep(w))
    case SelectCommand => Done(SelectStep(w))
    case UpdateCommand => Done(UpdateStep(w))
    case DeleteCommand => Done(DeleteStep(w))
    case NotValid(_) => Effect(Ok(false), w)
  }

  /** One pass of the menu loop: `Ok(true)` sets `done`; an error is caught by the loop. */
  function IterationStep(w: World): (r: Effect<bool>)
    ensures w.input != [] ==> |r.world.input| < |w.input|
  {
    var sel := UserSelection(w.input);
    var w1 := w.(input := sel.rest);
    if sel.result.Err? then Effect(Err(sel.result.error), w1)
    else Dispatch(MenuCommand(sel.result.value), w1)
  }

  /**
   * The menu loop from world `w`: the world it ends in, and whether it ended
   * because the console ran out rather than on an exit selection. Once the
   * console is exhausted every further pass throws and changes nothing, so
   * the loop that would spin forever stops there.
   */
  function Run(w: World): (World, bool)
    decreases |w.input|
  {
    if w.input == [] then (w, true)
    else
      var s := IterationStep(w);
      if s.result == Ok(true) then (s.world, false) else Run(s.world)
  }

  // ---------------------------------------------------------------------------
  // The application object

  /** `ProjectsApp`: each method models the Java method of the same name and ends as its `...Step` function says. */
  class ProjectsApp {
    const service: ProjectService
    /** The console lines not yet read. */
    var input: seq<string>
    var curProject: Option<Project>

    ghost predicate Valid()
      reads service.dao.db
    {
      service.Valid()
    }

    function State(): World
      reads this, service.dao.db
    {
      World(service.Environment(), input, curProject)
    }

    /** `new ProjectsApp()`, reading from `input`. */
    constructor (service: ProjectService, input: seq<string>)
      ensures this.service == service && this.input == input && curProject == Some(EmptyProject)
    {
      this.service := service;
      this.input := input;
      curProject := Some(EmptyProject);
    }

    method GetStringInput() returns (r: Result<Option<string>>)
      modifies this`input
      ensures Read(r, input) == StringInput(old(input))
    {
      if input == [] {
        return Err(NoLine);
      }
      var line := input[0];
      input := input[1..];
      r := Ok(Normalise(line));
    }

    method GetIntInput() returns (r: Result<Option<int>>)
      modifies this`input
      ensures Read(r, input) == IntInput(old(input))
    {
      var s := GetStringInput();
      match s
      case Err(e) => r := Err(e);
      case Ok(None) => r := Ok(None);
      case Ok(Some(text)) =>
        var n := ParseInt(text);
        r := if n.Some? then Ok(Some(n.value)) else Err(DbException(NotAValidNumber(text)));
    }

    method GetDecimalInput() returns (r: Result<Option<Hours>>)
      modifies this`input
      ensures Read(r, input) == DecimalInput(old(input))
    {
      var s := GetStringInput();
      match s
      case Err(e) => r := Err(e);
      case Ok(None) => r := Ok(None);
      case Ok(Some(text)) =>
        match ParseDecimal(text)
        case None => r := Err(DbException(NotAValidDecimal(text)));
        case Some((unscaled, scale)) =>
          var h := ToHundredths(unscaled, scale);
          r := if h.Ok? then Ok(Some(h.value)) else Err(h.error);
    }

    method GetUserSelection() returns (r: Result<int>)
      modifies this`input
      ensures Read(r, input) == UserSelection(old(input))
    {
      var n := GetIntInput();
      match n
      case Err(e) => r := Err(e);
      case Ok(v) => r := Ok(if v.None? then -1 else v.value);
    }

    method ListProjects() returns (r: Result<()>)
      requires Valid()
      modifies service.dao.db
      ensures Valid() && Effect(r, State()) == ListStep(old(State()))
    {
      var projects := service.FetchAllProjects();
      r := Unit(projects);
    }

    method CreateProject() returns (r: Result<()>)
      requires Valid()
      modifies this, service.dao.db
      ensures Valid() && Effect(r, State()) == CreateStep(old(State()))
    {
      var projectName := GetStringInput();
      if projectName.Err? {
        return Unit(projectName);
      }
      var estimatedHours := GetDecimalInput();
      if estimatedHours.Err? {
        return Unit(estimatedHours);
      }
      var actualHours := GetDecimalInput();
      if actualHours.Err? {
        return Unit(actualHours);
      }
      var difficulty := GetIntInput();
      if difficulty.Err? {
        return Unit(difficulty);
      }
      var notes := GetStringInput();
      if notes.Err? {
        return Unit(notes);
      }
      var project := EmptyProject.(
        projectName := projectName.value,
        estimatedHours := estimatedHours.value,
        actualHours := actualHours.value,
        difficulty := difficulty.value,
        notes := notes.value);
      var dbProject := service.AddProject(project);
      r := Unit(dbProject);
    }

    /** Lists, reads a key, deselects, and fetches; shared by select, update and delete. */
    method ChooseProject() returns (r: Result<Project>)
      requires Valid()
      modifies this, service.dao.db
      ensures Valid() && Effect(r, State()) == ChooseStep(old(State()))
    {
      var listed := ListProjects();
      if listed.Err? {
        return Err(listed.error);
      }
      var projectId := GetIntInput();
      if projectId.Err? {
        return Err(projectId.error);
      }
      curProject := None;
      r := service.FetchProjectById(projectId.value);
      if r.Ok? {
        curProject := Some(r.value);
      }
    }

    method SelectProject() returns (r: Result<()>)
      requires Valid()
      modifies this, service.dao.db
      ensures Valid() && Effect(r, State()) == SelectStep(old(State()))
    {
      var chosen := ChooseProject();
      r := Unit(chosen);
    }

    method UpdateProjectDetails() returns (r: Result<()>)
      requires Valid()
      modifies this, service.dao.db
      ensures Valid() && Effect(r, State()) == UpdateStep(old(State()))
    {
      var chosen := ChooseProject();
      if chosen.Err? {
        return Unit(chosen);
      }
      r := EditProject(chosen.value);
    }

    /** The dialogue of `updateProjectDetails` once the project is fetched. */
    method EditProject(cur: Project) returns (r: Result<()>)
      requires Valid()
      modifies this, service.dao.db
      ensures Valid() && Effect(r, State()) == EditStep(old(State()), cur)
    {
      var projectName := GetStringInput();
      if projectName.Err? {
        return Unit(projectName);
      }
      var estimatedHours := GetDecimalInput();
      if estimatedHours.Err? {
        return Unit(estimatedHours);
      }
      var actualHours := GetDecimalInput();
      if actualHours.Err? {
        return Unit(actualHours);
      }
      var difficulty := GetIntInput();
      if difficulty.Err? {
        return Unit(difficulty);
      }
      var notes := GetStringInput();
      if notes.Err? {
        return Unit(notes);
      }
      var edits := Edits(projectName.value, estimatedHours.value, actualHours.value, difficulty.value, notes.value);
      r := service.ModifyProjectDetails(MergeUpdate(cur, edits));
      if r.Err? {
        return;
      }
      var fetched := service.FetchProjectById(cur.projectId);
      if fetched.Ok? {
        curProject := Some(fetched.value);
      }
      r := Unit(fetched);
    }

    method DeleteProject() returns (r: Result<()>)
      requires Valid()
      modifies this, service.dao.db
      ensures Valid() && Effect(r, State()) == DeleteStep(old(State()))
    {
      var chosen := ChooseProject();
      if chosen.Err? {
        return Unit(chosen);
      }
      r := ConfirmAndDelete(chosen.value);
    }

    /** The confirmation of `deleteProject` once the project is fetched. */
    method ConfirmAndDelete(cur: Project) returns (r: Result<()>)
      requires Valid()
      modifies this, service.dao.db
      ensures Valid() && Effect(r, State()) == ConfirmStep(old(State()), cur)
    {
      var project := EmptyProject.(projectId := cur.projectId);
      var verifyDelete := GetStringInput();
      if verifyDelete.Err? {
        return Unit(verifyDelete);
      }
      var confirm := ConfirmDelete(verifyDelete.value);
      if confirm.Err? {
        return Unit(confirm);
      }
      if confirm.value {
        r := service.DeleteProject(project);
        if r.Err? {
          return;
        }
      }
      r := ListProjects();
      if r.Err? {
        return;
      }
      curProject := None;
    }

    /** The body of the `try` in the menu loop. */
    method RunIteration() returns (r: Result<bool>)
      requires Valid()
      modifies this, service.dao.db
      ensures Valid() && Effect(r, State()) == IterationStep(old(State()))
    {
      var selection := GetUserSelection();
      if selection.Err? {
        return Err(selection.error);
      }
      var done: Result<()>;
      ghost var w := State();
      match MenuCommand(selection.value) {
        case Exit => return Ok(true);
        case CreateCommand => done := CreateProject();
        case ListCommand => done := ListProjects();
        case SelectCommand => done := SelectProject();
        case UpdateCommand => done := UpdateProjectDetails();
        case DeleteCommand => done := DeleteProject();
        case NotValid(_) => return Ok(false);
      }
      r := if done.Ok? then Ok(false) else Err(done.error);
      assert Effect(r, State()) == Dispatch(MenuCommand(selection.value), w);
    }

    /**
     * `processUserSelections`: deselects, then runs the menu until an exit
     * selection, catching every error a pass throws.
     */
    method ProcessUserSelections() returns (exhausted: bool)
      requires Valid()
      modifies this, service.dao.db
      ensures Valid() && (State(), exhausted) == Run(old(State()).(cur := None))
    {
      var done := false;
      curProject := None;
      exhausted := false;
      while !done && input != []
        invariant Valid()
        invariant !done ==> Run(State()) == Run(old(State()).(cur := None))
        invariant done ==> (State(), false) == Run(old(State()).(cur := None))
        decreases |input|
      {
        var r := RunIteration();
        done := r == Ok(true);
      }
      exhausted := !done;
    }
  }

  // ---------------------------------------------------------------------------
  // What the application promises

  /** A blank line, or `-1`, at the menu ends the loop at once and changes nothing else. */
  lemma ExitSelectionEndsLoop(w: World)
    requires w.input != [] && UserSelection(w.input).result == Ok(-1)
    ensures Run(w) == (w.(input := w.input[1..]), false)
  {
  }

  /** A number outside the menu is reported and the loop goes on with the next line. */
  lemma InvalidSelectionContinues(w: World)
    requires w.input != []
    requires UserSelection(w.input).result.Ok? && MenuCommand(UserSelection(w.input).result.value).NotValid?
    ensures Run(w) == Run(w.(input := w.input[1..]))
  {
    assert IterationStep(w) == Effect(Ok(false), w.(input := w.input[1..]));
  }

  /** An error thrown by a pass is caught and the loop goes on from the world the pass left. */
  lemma ErrorsAreCaught(w: World)
    requires w.input != [] && IterationStep(w).result.Err?
    ensures Run(w) == Run(IterationStep(w).world)
  {
  }

  /** The loop reports an exhausted console only when every line has been read. */
  lemma {:induction false} ExhaustedMeansNoLinesLeft(w: World)
    ensures Run(w).1 ==> Run(w).0.input == []
    decreases |w.input|
  {
    if w.input != [] {
      var s := IterationStep(w);
      if s.result != Ok(true) {
        ExhaustedMeansNoLinesLeft(s.world);
      }
    }
  }

  /**
   * Select, update and delete drop the current project before fetching; a
   * fetch that throws leaves no project selected, and one that succeeds
   * selects the project with the key typed.
   */
  lemma FailedFetchLeavesNoSelection(w: World)
    requires ListStep(w).result.Ok? && IntInput(w.input).result.Ok?
    ensures var c := ChooseStep(w);
      && (c.result.Err? <==> c.world.cur == None)
      && (c.result.Ok? ==> c.result.value.projectId == IntInput(w.input).result.value)
      && (c.result.Err? ==> SelectStep(w).world.cur == None && UpdateStep(w).world.cur == None && DeleteStep(w).world.cur == None)
  {
    ChooseSelectsKey(w);
    if ChooseStep(w).result.Err? {
      ChoiceFailureEndsOperation(w);
    }
  }

  /** Once the list and the key have been read, the choice selects the project with that key or nothing. */
  lemma ChooseSelectsKey(w: World)
    requires ListStep(w).result.Ok? && IntInput(w.input).result.Ok?
    ensures var c := ChooseStep(w);
      && (c.result.Err? <==> c.world.cur == None)
      && (c.result.Ok? ==> c.result.value.projectId == IntInput(w.input).result.value)
  {
    var l := ListStep(w);
    var id := IntInput(l.world.input).result.value;
    var e := l.world.env;
    FetchReportsMissing(e, id);
    FetchByIdReturnsKey(e.state, Pending(e.faults), id);
  }

  /** When the choice throws, select, update and delete stop there with the world it left. */
  lemma ChoiceFailureEndsOperation(w: World)
    requires ChooseStep(w).result.Err?
    ensures SelectStep(w).world == ChooseStep(w).world
    ensures UpdateStep(w).world == ChooseStep(w).world
    ensures DeleteStep(w).world == ChooseStep(w).world
  {
  }

  /** Listing and fetching change no table; a fetch that ran has read exactly the key's line. */
  lemma ChooseKeepsState(w: World)
    ensures ChooseStep(w).world.env.state == w.env.state
    ensures ChooseStep(w).result.Ok? ==> w.input != [] && ChooseStep(w).world.input == w.input[1..]
  {
    var l := ListStep(w);
    ReadsEndTransaction(w.env.state, Pending(w.env.faults), None);
    if l.result.Ok? {
      var id := IntInput(l.world.input);
      if id.result.Ok? {
        ReadsEndTransaction(l.world.env.state, Pending(l.world.env.faults), id.result.value);
      }
    }
  }

  /** Any answer but `Yes` leaves the tables as they were; a normal return leaves no project selected. */
  lemma ConfirmWithoutYes(w: World, cur: Project)
    requires w.input != [] && Normalise(w.input[0]) != Some("Yes")
    ensures ConfirmStep(w, cur).world.env.state == w.env.state
    ensures ConfirmStep(w, cur).result.Ok? ==> ConfirmStep(w, cur).world.cur == None
    ensures Normalise(w.input[0]).None? ==> ConfirmStep(w, cur).result == Err(NullPointerException)
  {
    var w1 := w.(input := w.input[1..]);
    ReadsEndTransaction(w1.env.state, Pending(w1.env.faults), None);
  }

  /**
   * Only the answer `Yes` deletes: any other answer leaves the store as it
   * was, and a blank one throws. When the delete returns normally no project
   * is selected.
   */
  lemma DeleteNeedsYes(w: World)
    requires |w.input| >= 2 && Normalise(w.input[1]) != Some("Yes")
    ensures DeleteStep(w).world.env.state == w.env.state
    ensures DeleteStep(w).result.Ok? ==> DeleteStep(w).world.cur == None
    ensures ChooseStep(w).result.Ok? && Normalise(w.input[1]).None? ==> DeleteStep(w).result == Err(NullPointerException)
  {
    var c := ChooseStep(w);
    ChooseKeepsState(w);
    if c.result.Ok? {
      ConfirmWithoutYes(c.world, c.result.value);
    }
  }

  /** The confirmed delete of a project that was just fetched removes its row and drops the selection. */
  lemma ConfirmedDeleteRemovesRow(w: World, cur: Project)
    requires WellFormed(w.env.state) && w.input != [] && Normalise(w.input[0]) == Some("Yes")
    ensures var r := ConfirmStep(w, cur);
      r.result.Ok? ==> !HasRow(r.world.env.state.tables.projects, cur.projectId) && r.world.cur == None
  {
    DeleteExactlyOneRow(w.env.state, Pending(w.env.faults), cur.projectId);
  }

  /** An exhausted console ends the loop and changes nothing. */
  lemma ExhaustedConsoleStops(w: World)
    requires w.input == []
    ensures Run(w) == (w, true)
  {
  }
}
