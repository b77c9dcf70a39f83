/**
 * The plain records of the projects application (project, material, step,
 * category), the outcome wrappers used in place of Java's null and
 * exceptions, and the kinds of failure the store can raise.
 */
module Entities {

  /** Java's nullable reference, or `Optional`. */
  datatype Option<+T> = None | Some(value: T)

  /** A call that either returns a value or throws `error`. */
  datatype Result<+T> = Ok(value: T) | Err(error: Error)

  /** A decimal number of hours with scale 2, held as a whole number of hundredths. */
  type Hours = int

  datatype Material = Material(materialId: int, projectId: int, materialName: string)

  datatype Step = Step(stepId: int, projectId: int, stepText: string)

  datatype Category = Category(categoryId: int, categoryName: string)

  /**
   * A project as the application holds it. `projectId` is null until the store
   * assigns one; the three child lists are filled only by the fetch by id.
   */
  datatype Project = Project(
    projectId: Option<int>,
    projectName: Option<string>,
    estimatedHours: Option<Hours>,
    actualHours: Option<Hours>,
    difficulty: Option<int>,
    notes: Option<string>,
    materials: seq<Material>,
    steps: seq<Step>,
    categories: seq<Category>)

  /** `new Project()`: every field null, every child list empty. */
  const EmptyProject: Project := Project(None, None, None, None, None, None, [], [], [])

  /** The statements a connection can be asked to run. */
  datatype StatementKind = ProjectStatement | MaterialQuery | StepQuery | CategoryQuery

  /** Where, if anywhere, the work on one connection throws an `SQLException`. */
  datatype Fault =
    | NoFault
    | ConnectFails                        // obtaining the connection
    | StartFails                          // startTransaction
    | StatementFails(kind: StatementKind)  // preparing, binding, running or reading that statement
    | LastIdFails                         // getLastInsertId
    | CommitFails                         // commitTransaction

  /** What a `DbException` says. */
  datatype DbReason =
    | Wrapped(fault: Fault)                   // new DbException(e) around an SQLException
    | ProjectDoesNotExist(projectId: Option<int>)  // "Project <id> does not exist."
    | NotAValidNumber(text: string)           // "<text> is not a valid number."
    | NotAValidDecimal(text: string)          // "<text> is not a valid decimal number."

  /** What a `NoSuchElementException` is about. */
  datatype Missing =
    | ProjectWithId(projectId: Option<int>)   // "Project with project ID <id>, does not exist."
    | NoLineFound                             // Scanner.nextLine on exhausted input

  datatype Error =
    | DbException(reason: DbReason)
    | NoSuchElementException(missing: Missing)
    | NullPointerException
    | ArithmeticException

  /** The sequence without its first element; empty stays empty. */
  function Tail<T>(s: seq<T>): (r: seq<T>)
    ensures s != [] ==> |r| == |s| - 1 && forall i :: 0 <= i < |r| ==> r[i] == s[i + 1]
    ensures s == [] ==> r == []
  {
    if s == [] then [] else s[1..]
  }
}
