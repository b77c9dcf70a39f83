# Projects: a verified model of the DIY-projects console application

The application keeps DIY projects in a MySQL schema of five tables:
`project`, `material`, `step`, `category`, and the join table
`project_category`. It has three layers:

- **`ProjectDao`** (data access). Every operation takes its own connection,
  starts a transaction and runs its statements. Insert, update, delete and
  fetch by key then commit. The list by name returns without committing,
  leaving its transaction open. A failure after the transaction has started
  is rolled back; a failure to connect or to start the transaction is not.
  Either way the failure is rethrown wrapped in a `DbException`. The
  operations are insert, update of the five detail columns, delete, list
  ordered by name, and fetch by key with the project's materials, steps and
  categories.
- **`ProjectService`**. It re-sorts the list by key. It turns an empty
  `Optional` into a `NoSuchElementException`. It turns a `false` from update
  or delete into `DbException("Project <id> does not exist.")`.
- **`ProjectsApp`**. A menu loop reads console lines:
  - blank lines count as absent and other lines are trimmed;
  - numbers are read as `Integer` or as `BigDecimal` with scale 2;
  - the app keeps a current project, merges the update dialogue's answers
    into it, and asks for `Yes` before a delete;
  - it catches every exception a pass throws and shows the menu again.

## How the model is built

- `entities.dfy` (module `Entities`):
  - the records: project, material, step and category;
  - `Option` and `Result`, which stand in for Java's null, `Optional` and
    exceptions;
  - the kinds of failure.
- `store.dfy` — the relational store as values:
  - each table is a sequence of rows in storage order;
  - `project_id` is a unique key below the auto-increment counter;
  - pure functions say what each SQL statement reads or writes;
  - `ORDER BY project_name` is an insertion sort, proved sorted and a
    permutation.
- `jdbc.dfy` — the primitives the DAO inherits and calls:
  - a `Database` class holding tables, counter and fault script;
  - a `Connection` class holding the transaction state, the snapshot a
    rollback restores, `LAST_INSERT_ID()` and the statements it ran.
  - Each primitive either does its work or throws. Which primitive throws on
    a connection is fixed by the `Fault` the database hands that connection.
- `dao.dfy`:
  - The class `ProjectDao` performs each operation step by step on a
    connection, with `modifies` frames.
  - Each method is proved equal to an `...Outcome` function of the state
    before the call and the connection's fault. The function gives the
    result, the state after, the final transaction state and the statements
    run.
  - Lemmas state what the layer promises about those outcomes.
- `service.dfy`:
  - specification functions (`AddSpec` … `DeleteSpec`) over an `Env`, the
    store plus its fault script;
  - the class `ProjectService`, whose methods are proved to follow them;
  - lemmas on the sorting and the exceptions.
- `input.dfy`:
  - `isBlank`, `trim`, `Integer.valueOf`, and `new BigDecimal(...).setScale(2)`
    as functions on `string`;
  - the console as a sequence of lines still to be read.
- `app.dfy`:
  - each menu operation is a function from a `World` (environment, console,
    current project) to a result and the next `World`;
  - the class `ProjectsApp` has methods proved to follow those functions. Its
    `while` loop is proved to compute `Run`, the function form of the menu
    loop.
  - Lemmas cover the loop, the selection, the update merge and the delete
    confirmation.

Hours are whole numbers of hundredths: each value has scale 2.

The one source of nondeterminism is where JDBC throws. It becomes the
database's fault script, one `Fault` per connection obtained. So every
operation is a function of its inputs.

Where the code's behaviour is not what its comments suggest, the model
follows the code:

- `fetchAllProjects` never commits. Its transaction is still active when the
  connection is closed (`Dao.ReadsEndTransaction`).
- The null checks after `fetchProjectById` in the application can never
  fire, because the service throws first.
- An update that leaves every answer blank still sends the update, which
  writes the same values back. The statement still runs and commits.
- A blank answer to the delete confirmation is null, and `equals` on it
  throws `NullPointerException`.

## Model

| member | source | states |
|---|---|---|
| Store.ExtractProject | src/main/java/projects/dao/ProjectDao.java:151 | extracting a row gives a project with that row's key and columns and no child lists |
| Store.RowsWithId | src/main/java/projects/dao/ProjectDao.java:142 | the query by key yields exactly the rows whose key equals the parameter (a null parameter matches none); their number is the number of matching rows |
| Store.RowsWithIdUnique | src/main/java/projects/dao/ProjectDao.java:142-152 | under the primary key, the query yields the one row with the key or nothing |
| Store.RowsWithIdNonEmpty | src/main/java/projects/dao/ProjectDao.java:149-152 | `rs.next()` succeeds exactly when some row has the key |
| Store.CountMatchingUnique | src/main/java/projects/dao/ProjectDao.java:78 | under the primary key, a statement `WHERE project_id = ?` touches one row when the key exists and none otherwise |
| Store.DeleteRows | src/main/java/projects/dao/ProjectDao.java:94-95 | the delete keeps exactly the rows without the key, and its count of removed rows is the number that matched |
| Store.DeleteRowsWellFormed | src/main/java/projects/dao/ProjectDao.java:94-95 | a delete keeps the key unique and below the counter |
| Store.DeleteOfMissingRow | src/main/java/projects/dao/ProjectDao.java:94-95 | a delete whose key matches no row leaves the table unchanged |
| Store.UpdateRowsEffect | src/main/java/projects/dao/ProjectDao.java:62-77 | the row with the key takes the five detail fields of the project and keeps its key; every other row is unchanged |
| Store.UpdateOfMissingRow | src/main/java/projects/dao/ProjectDao.java:62-65 | an update whose key matches no row leaves the table unchanged |
| Store.MaterialsOf | src/main/java/projects/dao/ProjectDao.java:173 | the material query yields exactly the materials of the project |
| Store.StepsOf | src/main/java/projects/dao/ProjectDao.java:189 | the step query yields exactly the steps of the project |
| Store.CategoriesOf | src/main/java/projects/dao/ProjectDao.java:204-207 | the join yields exactly the categories that some `project_category` row links to the project |
| Store.SortByNameSpec | src/main/java/projects/dao/ProjectDao.java:119-120 | `ORDER BY project_name` returns the table's rows, permuted, in ascending name order |
| Jdbc.GetConnection | src/main/java/projects/dao/ProjectDao.java:37 | a connection is obtained unless the database refuses it; it starts with no transaction and uses up one fault of the script |
| Jdbc.Connection.StartTransaction | src/main/java/projects/dao/ProjectDao.java:38 | a started transaction is active and snapshots the tables; a failed start leaves none |
| Jdbc.Connection.CommitTransaction | src/main/java/projects/dao/ProjectDao.java:48 | a commit succeeds unless the connection's fault is on the commit, and then the transaction stays active for the rollback |
| Jdbc.Connection.RollbackTransaction | src/main/java/projects/dao/ProjectDao.java:52 | a rollback restores the snapshot of the tables and leaves the auto-increment counter as it is |
| Jdbc.Connection.ExecuteInsert | src/main/java/projects/dao/ProjectDao.java:30-46 | a successful insert appends the project's row under the next counter value, advances the counter and records the key on this connection |
| Jdbc.Connection.GetLastInsertId | src/main/java/projects/dao/ProjectDao.java:47 | reads the key of this connection's latest insert |
| Jdbc.Connection.ExecuteUpdate | src/main/java/projects/dao/ProjectDao.java:62-78 | the update rewrites the matching rows and returns how many there were |
| Jdbc.Connection.ExecuteDelete | src/main/java/projects/dao/ProjectDao.java:94-102 | the delete removes the matching rows and returns how many there were |
| Jdbc.Connection.QueryProjectsByName | src/main/java/projects/dao/ProjectDao.java:119-125 | the list query returns the rows in name order |
| Jdbc.Connection.QueryProjectById | src/main/java/projects/dao/ProjectDao.java:142-149 | the key query returns the rows with the key |
| Jdbc.Connection.QueryMaterials | src/main/java/projects/dao/ProjectDao.java:173-177 | the material query returns the project's materials |
| Jdbc.Connection.QuerySteps | src/main/java/projects/dao/ProjectDao.java:189-192 | the step query returns the project's steps |
| Jdbc.Connection.QueryCategories | src/main/java/projects/dao/ProjectDao.java:204-211 | the join returns the project's categories |
| Dao.ExtractAll | src/main/java/projects/dao/ProjectDao.java:126-129 | one extracted project per row, in result-set order |
| Dao.ReadProjects | src/main/java/projects/dao/ProjectDao.java:126-130 | the `while (rs.next())` loop of the list query builds, position by position, the extracted project of each row |
| Dao.ReadRows | src/main/java/projects/dao/ProjectDao.java:178-183 | the `while (rs.next())` loops of the child queries collect every row of the result set, in order |
| Dao.ProjectDao.InsertProject | src/main/java/projects/dao/ProjectDao.java:28-58 | the insert's result, state after, transaction end and statements are those of `InsertOutcome`: the project with its generated key, or the wrapped exception with the row rolled back |
| Dao.ProjectDao.ModifyProjectDetails | src/main/java/projects/dao/ProjectDao.java:60-90 | the update follows `ModifyOutcome`: `true` exactly when one row was touched, committed either way, rolled back on an exception |
| Dao.ProjectDao.DeleteProcject | src/main/java/projects/dao/ProjectDao.java:92-114 | the delete follows `DeleteOutcome`, with the same shape as the update |
| Dao.ProjectDao.FetchAllProjects | src/main/java/projects/dao/ProjectDao.java:117-139 | the list follows `FetchAllOutcome`: the extracted rows in name order, with the transaction left active |
| Dao.ProjectDao.FetchProjectById | src/main/java/projects/dao/ProjectDao.java:141-169 | the fetch follows `FetchByIdOutcome` |
| Dao.ProjectDao.FetchOnConnection | src/main/java/projects/dao/ProjectDao.java:145-165 | once the transaction is open, the fetch follows `FetchInTransaction`: no project when no row has the key, else the project with its children; rolled back on any exception |
| Dao.ProjectDao.FetchFound | src/main/java/projects/dao/ProjectDao.java:150-160 | once the row is found, the three child queries fill its lists and the read is committed, or the first failure rolls back |
| Dao.ProjectDao.CommitRead | src/main/java/projects/dao/ProjectDao.java:159-164 | the commit of a read returns its value, or rolls back and throws |
| Dao.ProjectDao.AddChildren | src/main/java/projects/dao/ProjectDao.java:154-158 | the three `addAll` calls run the material, step and category queries in that order, stop at the first that throws, and on success append exactly the project's children |
| Dao.ProjectDao.FetchMaterialsForProject | src/main/java/projects/dao/ProjectDao.java:171-186 | returns the project's materials, or throws |
| Dao.ProjectDao.FetchStepsForProject | src/main/java/projects/dao/ProjectDao.java:188-200 | returns the project's steps, or throws |
| Dao.ProjectDao.FetchCategoriesForProject | src/main/java/projects/dao/ProjectDao.java:202-219 | returns the categories linked to the project, or throws |
| Dao.WritesEndTransaction | src/main/java/projects/dao/ProjectDao.java:37-57 | insert, update and delete commit when they return; when a JDBC call inside the transaction throws, they throw the wrapped `SQLException`, the tables are as before, and the transaction was rolled back or never opened (a failing `close` is not modelled, see "Left out") |
| Dao.ReadsEndTransaction | src/main/java/projects/dao/ProjectDao.java:122-168 | the fetch by key ends its transaction in the same way and changes nothing; the list changes nothing and leaves its transaction active exactly when it returns |
| Dao.InsertRoundTrip | src/main/java/projects/dao/ProjectDao.java:46-50 | a successful insert returns the project with the key generated on its own connection and keeps the store well formed; a later fetch of that key that returns finds a row with the project's five values |
| Dao.InsertFailureAddsNoRow | src/main/java/projects/dao/ProjectDao.java:51-56 | a failed insert leaves the tables as they were |
| Dao.ModifyExactlyOneRow | src/main/java/projects/dao/ProjectDao.java:77-81 | a returning update is `true` exactly when the key exists, commits, writes the five fields into that row, and changes nothing when `false` |
| Dao.DeleteExactlyOneRow | src/main/java/projects/dao/ProjectDao.java:101-105 | a returning delete is `true` exactly when the key existed; afterwards no row has the key, and nothing changed when `false` |
| Dao.DeleteThenFetch | src/main/java/projects/dao/ProjectDao.java:94-169 | after a returning delete, a fetch by the same key finds nothing or throws |
| Dao.FetchAllOrderedByName | src/main/java/projects/dao/ProjectDao.java:119-130 | the list has one project per row, in name order, without children; every row's project is in it; an empty table gives an empty list |
| Dao.FetchByIdShortCircuit | src/main/java/projects/dao/ProjectDao.java:150-158 | a key with no row runs no child query and returns empty or throws |
| Dao.FetchByIdReturnsKey | src/main/java/projects/dao/ProjectDao.java:142-160 | a returned project carries the key it was fetched by |
| Dao.FetchByIdFindsRow | src/main/java/projects/dao/ProjectDao.java:141-169 | under the primary key, a fetch by a row's key that returns a project returns that row with its children filled in |
| Dao.FetchInTransactionEnds | src/main/java/projects/dao/ProjectDao.java:145-165 | once the transaction is open, every path of the fetch commits or rolls back and writes nothing |
| Dao.FetchByIdComplete | src/main/java/projects/dao/ProjectDao.java:141-169 | fetching an existing key returns the project unless one of its five steps throws; the project has that row's columns and exactly its materials, its steps and its linked categories |
| Service.InsertById | src/main/java/projects/service/ProjectService.java:22 | inserting one project into a key-sorted list keeps the list's contents plus that project |
| Service.SortById | src/main/java/projects/service/ProjectService.java:22 | the key sort is a permutation |
| Service.InsertByIdSorted | src/main/java/projects/service/ProjectService.java:22 | inserting into a key-sorted list keeps it key-sorted |
| Service.SortByIdSpec | src/main/java/projects/service/ProjectService.java:22 | `sorted((p1, p2) -> p1.getProjectId() - p2.getProjectId())` yields a key-sorted permutation |
| Service.SortedByIdCanonical | src/main/java/projects/service/ProjectService.java:22 | two key-sorted permutations of a list with distinct keys are equal, so the result is independent of the order the DAO returned |
| Service.ExtractAllPermutation | src/main/java/projects/service/ProjectService.java:22 | extracting a permutation of the rows gives a permutation of the projects |
| Service.ExtractAllDistinct | src/main/java/projects/service/ProjectService.java:22 | projects extracted from a table with a unique key have distinct keys |
| Service.PresentOrNotFound | src/main/java/projects/service/ProjectService.java:27 | `orElseThrow` returns the present project, throws `NoSuchElementException` for the key on empty, and passes on the DAO's exception |
| Service.RequireFound | src/main/java/projects/service/ProjectService.java:32-36 | `false` from the DAO becomes `DbException("Project <id> does not exist.")`, `true` returns normally, and an exception passes on |
| Service.ProjectService.AddProject | src/main/java/projects/service/ProjectService.java:16-18 | the add follows `AddSpec`, the DAO's insert |
| Service.ProjectService.FetchAllProjects | src/main/java/projects/service/ProjectService.java:20-23 | the list follows `ListSpec`: the DAO's list sorted by key |
| Service.ProjectService.FetchProjectById | src/main/java/projects/service/ProjectService.java:25-28 | the fetch follows `FetchSpec` |
| Service.ProjectService.ModifyProjectDetails | src/main/java/projects/service/ProjectService.java:30-37 | the update follows `ModifySpec` |
| Service.ProjectService.DeleteProject | src/main/java/projects/service/ProjectService.java:39-46 | the delete follows `DeleteSpec` |
| Service.ListSortedById | src/main/java/projects/service/ProjectService.java:20-23 | the service's list is the DAO's list sorted by ascending key: a permutation of it, equal to the key-sorted projects of the table, and it passes the DAO's exception on |
| Service.FetchReportsMissing | src/main/java/projects/service/ProjectService.java:25-28 | the fetch throws `NoSuchElementException` for the key exactly when the DAO found nothing, which means no row has the key; otherwise it returns the DAO's project or its exception |
| Service.NotFoundIffDaoFalse | src/main/java/projects/service/ProjectService.java:30-46 | update and delete throw "does not exist" exactly when the DAO returned `false`, which is exactly when the statement ran and no row had the key; they return normally exactly when the key existed |
| Service.AddPassesThrough | src/main/java/projects/service/ProjectService.java:16-18 | the add returns the DAO's result unchanged: on success, the project with the next key |
| Input.TrimStart | src/main/java/projects/ProjectsApp.java:199 | drops exactly the leading characters at or below space |
| Input.TrimEnd | src/main/java/projects/ProjectsApp.java:199 | drops exactly the trailing characters at or below space |
| Input.TrimSpec | src/main/java/projects/ProjectsApp.java:199 | `trim` yields an infix of the line that neither starts nor ends with a character at or below space; everything it removes before and after is such a character |
| Input.Normalise | src/main/java/projects/ProjectsApp.java:196-200 | a line is absent exactly when it is blank, and otherwise is that line trimmed |
| Input.NulLineIsPresentButEmpty | src/main/java/projects/ProjectsApp.java:199 | a line holding only NUL is not blank but trims to the empty string; blanks and tabs are absent |
| Input.NormaliseKeepsPlainText | src/main/java/projects/ProjectsApp.java:199 | a non-blank line with no character at or below space is returned as typed |
| Input.ParseInt | src/main/java/projects/ProjectsApp.java:189 | `Integer.valueOf` succeeds exactly when an optional sign is followed by at least one digit and the signed value is within the 32-bit range, and then yields that signed value |
| Input.ParseShow | src/main/java/projects/ProjectsApp.java:189 | every 32-bit integer, typed as it is printed, reads back as itself |
| Input.ShowNatValue | src/main/java/projects/ProjectsApp.java:189 | the printed digits of a number denote that number |
| Input.ToHundredths | src/main/java/projects/ProjectsApp.java:166 | `setScale(2)` keeps the value exactly, and throws `ArithmeticException` exactly when the scale is above 2 and the digits it would drop are not all zero |
| Input.IntOfLine | src/main/java/projects/ProjectsApp.java:183-194 | a line reads as no number when blank, as the number when `Integer.valueOf` accepts it, and otherwise throws "is not a valid number" with the trimmed text |
| Input.DecimalOfLine | src/main/java/projects/ProjectsApp.java:160-170 | a line reads as no hours when blank, throws "is not a valid decimal number" when `BigDecimal` rejects it, and otherwise gives the value in hundredths or the uncaught `ArithmeticException` |
| Input.WholeDecimal | src/main/java/projects/ProjectsApp.java:166 | a run of digits denotes its digit value at scale 0 |
| Input.PlainDecimal | src/main/java/projects/ProjectsApp.java:166 | digits, a point and more digits denote the value of all their digits, with the fraction's length as scale |
| Input.DecimalOfPlainText | src/main/java/projects/ProjectsApp.java:160-170 | a line kept as typed, which `BigDecimal` reads at a scale that `setScale(2)` keeps exactly, gives that value in hundredths |
| Input.DecimalOfDigits | src/main/java/projects/ProjectsApp.java:160-170 | a line of digits read as hours is that many whole hours (100 hundredths each) |
| Input.DecimalOfTwoPlaces | src/main/java/projects/ProjectsApp.java:160-170 | a line `<digits>.<two digits>` read as hours is the number its digits spell, in hundredths |
| Input.DecimalOfWholeNumber | src/main/java/projects/ProjectsApp.java:160-170 | a whole number typed as hours is that many hours |
| Input.DecimalOfShownHours | src/main/java/projects/ProjectsApp.java:160-170 | hours typed with two decimals read back as the same amount |
| Input.NumberTextIsPlain | src/main/java/projects/ProjectsApp.java:196-200 | a line of digits and points is kept as typed |
| Input.StringInput | src/main/java/projects/ProjectsApp.java:196-200 | `getStringInput` consumes exactly one line; it throws exactly when the console is exhausted; the value is null exactly when the line is blank, and otherwise the trimmed line |
| Input.IntInput | src/main/java/projects/ProjectsApp.java:183-194 | `getIntInput` consumes exactly one line; it succeeds exactly when the line is blank or a valid number, gives null exactly for a blank line and otherwise the number, and names the trimmed text when it throws `DbException` |
| Input.DecimalInput | src/main/java/projects/ProjectsApp.java:160-170 | `getDecimalInput` consumes exactly one line; blank gives null, text that is no decimal throws `DbException` naming it, and a decimal gives its hundredths or, exactly when `setScale(2)` would round, `ArithmeticException` |
| App.MenuCommand | src/main/java/projects/ProjectsApp.java:42-63 | the `switch`: exactly -1 exits; exactly 1, 2, 3, 4, 5 choose create, list, select, update, delete respectively; any other number is not valid and is reported as typed |
| App.UserSelection | src/main/java/projects/ProjectsApp.java:177-181 | a blank line selects -1; otherwise the number typed, or the "not a valid number" exception; always one line consumed |
| App.MergeFieldByField | src/main/java/projects/ProjectsApp.java:110-116 | the merged project keeps the current key, takes every answered field, keeps every unanswered one, and has no child lists |
| App.BlankEditsChangeNothing | src/main/java/projects/ProjectsApp.java:104-120 | leaving every answer blank writes the current row back unchanged |
| App.ConfirmDelete | src/main/java/projects/ProjectsApp.java:82-84 | only the exact answer `Yes` confirms; any other answer returns false; a blank answer throws `NullPointerException` |
| App.ListStep | src/main/java/projects/ProjectsApp.java:134-138 | listing reads no line and keeps the current project |
| App.CreateStep | src/main/java/projects/ProjectsApp.java:140-158 | creating keeps the current project, reads at most five lines, and exactly five when it succeeds |
| App.ChooseStep | src/main/java/projects/ProjectsApp.java:124-132 | a successful choice makes the fetched project current |
| App.Dispatch | src/main/java/projects/ProjectsApp.java:42-64 | an exit selection ends the loop with the world unchanged; an invalid one continues with the world unchanged |
| App.IterationStep | src/main/java/projects/ProjectsApp.java:40-67 | every pass with lines left consumes at least one |
| App.ProjectsApp.GetStringInput | src/main/java/projects/ProjectsApp.java:196-200 | consumes and normalises one line, as `StringInput` |
| App.ProjectsApp.GetIntInput | src/main/java/projects/ProjectsApp.java:183-194 | as `IntInput` |
| App.ProjectsApp.GetDecimalInput | src/main/java/projects/ProjectsApp.java:160-170 | as `DecimalInput` |
| App.ProjectsApp.GetUserSelection | src/main/java/projects/ProjectsApp.java:177-181 | as `UserSelection` |
| App.ProjectsApp.ListProjects | src/main/java/projects/ProjectsApp.java:134-138 | the store and the current project afterwards are those of `ListStep` |
| App.ProjectsApp.CreateProject | src/main/java/projects/ProjectsApp.java:140-158 | reads the five answers and adds the project, as `CreateStep` |
| App.ProjectsApp.ChooseProject | src/main/java/projects/ProjectsApp.java:124-128 | lists, reads a key, drops the current project and fetches, as `ChooseStep` |
| App.ProjectsApp.SelectProject | src/main/java/projects/ProjectsApp.java:124-132 | as `SelectStep` |
| App.ProjectsApp.UpdateProjectDetails | src/main/java/projects/ProjectsApp.java:95-122 | as `UpdateStep` |
| App.ProjectsApp.EditProject | src/main/java/projects/ProjectsApp.java:104-121 | reads the five answers, sends the merge, and fetches the project again, as `EditStep` |
| App.ProjectsApp.DeleteProject | src/main/java/projects/ProjectsApp.java:72-93 | as `DeleteStep` |
| App.ProjectsApp.ConfirmAndDelete | src/main/java/projects/ProjectsApp.java:80-92 | asks for confirmation, deletes on `Yes`, lists again, and drops the current project, as `ConfirmStep` |
| App.ProjectsApp.RunIteration | src/main/java/projects/ProjectsApp.java:40-67 | one pass of the loop body follows `IterationStep` |
| App.ProjectsApp.ProcessUserSelections | src/main/java/projects/ProjectsApp.java:36-70 | the loop first drops the current project, then runs passes until an exit selection, catching every error, and ends in the world `Run` gives |
| App.ExitSelectionEndsLoop | src/main/java/projects/ProjectsApp.java:43-45 | a blank line or `-1` ends the loop at once and changes nothing else |
| App.InvalidSelectionContinues | src/main/java/projects/ProjectsApp.java:61-63 | a number outside the menu changes nothing, and the loop goes on with the next line |
| App.ErrorsAreCaught | src/main/java/projects/ProjectsApp.java:65-67 | an exception thrown by a pass does not end the loop, which goes on from the world that pass left |
| App.ExhaustedMeansNoLinesLeft | src/main/java/projects/ProjectsApp.java:39-68 | the loop ends without an exit selection only when every line has been read |
| App.ExhaustedConsoleStops | src/main/java/projects/ProjectsApp.java:39-68 | on an exhausted console the loop changes nothing |
| App.ChooseSelectsKey | src/main/java/projects/ProjectsApp.java:124-132 | once the list and the key are read, the choice throws exactly when it leaves no project selected, and a chosen project has the key typed |
| App.ChoiceFailureEndsOperation | src/main/java/projects/ProjectsApp.java:72-132 | when the choice throws, select, update and delete stop there |
| App.FailedFetchLeavesNoSelection | src/main/java/projects/ProjectsApp.java:75-76 | because the current project is dropped before the fetch, a fetch that throws leaves select, update and delete with no project selected |
| App.ChooseKeepsState | src/main/java/projects/ProjectsApp.java:124-138 | listing and fetching change no table, and a successful choice has read exactly one line |
| App.ConfirmWithoutYes | src/main/java/projects/ProjectsApp.java:82-93 | any answer other than `Yes` leaves the tables as they were; a blank one throws; a normal return leaves no project selected |
| App.DeleteNeedsYes | src/main/java/projects/ProjectsApp.java:72-93 | the delete changes no table unless the confirmation line is `Yes`, and a normal return leaves no project selected |
| App.ConfirmedDeleteRemovesRow | src/main/java/projects/ProjectsApp.java:82-92 | a confirmed delete that returns has removed the project's row and leaves no project selected |

## Left out

- SQL text, prepared-statement parameter binding, and result-set column
  mapping. These are the statements' effects on the tables, stated as
  functions in `store.dfy`.
- The base class `DaoBase` and `DbConnection` are not part of this model.
  Their primitives (`getConnection`, `startTransaction`, `commitTransaction`,
  `rollbackTransaction`, `getLastInsertId`, `setParameter`, `extract`) are
  modelled by contracts of their own in `jdbc.dfy`:
  - an exception from `getConnection` is taken to be an `SQLException`;
  - `rollbackTransaction` is taken never to throw;
  - a rollback does not give back the auto-increment values it consumed.
- Where JDBC throws is a script of faults fixed in advance, one per
  connection, not an outcome of real I/O.
- Store.DeleteRows: the schema's foreign-key action on delete is not
  modelled, since the schema is not part of this model. Only the `project`
  row is removed; the project's `material`, `step` and `project_category`
  rows stay. With `ON DELETE CASCADE` they would go, which no operation here
  can observe because keys are never reused. With `RESTRICT`,
  `deleteProcject` of a project that has children would throw a wrapped
  `SQLException` where the model returns `true`.
- Dao.WritesEndTransaction: failures of `close` are not modelled. The
  try-with-resources blocks of `insertProject`, `modifyProjectDetails` and
  `deleteProject` (`ProjectDao.java:37-57`, `68-89`, `97-113`) also catch an
  `SQLException` thrown when the statement or the connection is closed after
  `commitTransaction`. Then the write is committed and `DbException` is thrown
  anyway. The fault script has no such fault, so the model never reports a
  committed write as failed, and "the tables are as before when it throws"
  holds only for faults inside the transaction. The same holds for a failing
  `close` in the two fetches (`ProjectDao.java:122-138`, `143-168`), whose
  result would be lost.
- `ORDER BY project_name` uses code-point order with NULL first, and rows
  with equal names stay in storage order. The database's collation
  (case-insensitive, accent rules) and its order among equal names are not
  modelled.
- `Character.isWhitespace` and `String.trim` are modelled by their character
  classes. `Integer.valueOf` and `new BigDecimal` accept only ASCII digits
  here, although Java also accepts other Unicode decimal digits.
- `new BigDecimal`: exponents beyond the `int` range, which Java rejects, are
  accepted by the model.
- Entity columns other than those the code reads or writes: a material's
  cost and count, and a step's order.
- `Project` is a value. `insertProject` setting the key on the caller's own
  object, and `addAll` filling the lists of the object it extracted, are
  modelled as returning a new value, so aliasing of those objects is not
  captured.
- Integer width:
  - the auto-increment counter is unbounded;
  - the comparator `p1.getProjectId() - p2.getProjectId()` is modelled as a
    comparison of keys. This is exact for the positive 32-bit keys the
    counter hands out.
- An exhausted console: Java's loop would catch the `NoSuchElementException`
  of `nextLine` forever. `Run` stops there and reports it (see
  `App.ExhaustedConsoleStops`).
- Console output: prompts, the menu text, `printOperations` and every
  `System.out.println`.
- `exitMenu` is modelled only as its result, `true`.
- Concurrency and transaction isolation between connections: operations run
  one after another.
