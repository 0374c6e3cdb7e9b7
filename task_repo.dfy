/**
 * The Postgres task repository of internal/repository/postgres/task_repo.go.
 * Statements are abstract descriptions (table, columns, filter) instead of
 * SQL text, and what the driver does with a statement is an input.
 */
module TaskRepo {
  import opened Wrappers
  import opened GoInt
  import opened ErrorCodes
  import opened CommonError
  import opened Domain

  /** `ErrNotFoundTask`, the cause of every not-found error of the repository. */
  const ErrNotFoundTask: RawError := TextError("task not found")

  /**
   * A `sql.NullTime` as a scan leaves it: a NULL column gives `Valid == false`
   * and the zero `Time`.
   */
  datatype NullTime = Null | NotNull(value: Time)
  {
    /** The `Time` field. */
    function TimeField(): (t: Time)
      ensures Null? ==> t == ZeroTime
      ensures NotNull? ==> t == value
    {
      if Null? then ZeroTime else value
    }
  }

  /** `repoTask`, one scanned row of the tasks table. */
  datatype RepoTask = RepoTask(id: Int64, name: string, status: bool, createdAt: Time, updatedAt: NullTime)
  {
    /** `toTask()`: the domain task; a NULL `updated_at` becomes the zero time. */
    function ToTask(): (t: Task)
      ensures t.id == id && t.name == name && t.status == status && t.createdAt == createdAt
      ensures updatedAt.Null? ==> t.updatedAt == ZeroTime
      ensures updatedAt.NotNull? ==> t.updatedAt == updatedAt.value
    {
      Task(id, name, status, createdAt, updatedAt.TimeField())
    }
  }

  /** `repoTableTask`. */
  const TableTask: string := "tasks"

  /** `repoFieldNameTask`, the column name of each field of a task. */
  datatype FieldNames = FieldNames(id: string, name: string, status: string, createdAt: string, updatedAt: string)
  {
    /** `fields()`: the five column names, in field order. */
    function Fields(): (f: seq<string>)
      ensures |f| == 5
      ensures f[0] == id && f[1] == name && f[2] == status && f[3] == createdAt && f[4] == updatedAt
    {
      [id, name, status, createdAt, updatedAt]
    }
  }

  /** `repoFieldTask`. */
  const FieldTask: FieldNames := FieldNames("id", "name", "status", "created_at", "updated_at")

  /** The columns every statement returns, with no column twice. */
  lemma TaskFields()
    ensures FieldTask.Fields() == ["id", "name", "status", "created_at", "updated_at"]
    ensures forall i, j :: 0 <= i < j < 5 ==> FieldTask.Fields()[i] != FieldTask.Fields()[j]
  {
  }

  /** A value bound to a statement parameter. */
  datatype SqlValue = IntValue(i: int) | TextValue(s: string) | BoolValue(b: bool) | TimeValue(t: Time)

  /** `squirrel.Eq{column: value}`. */
  datatype Eq = Eq(column: string, value: SqlValue)

  /** What a squirrel builder describes; `filter` is the conjunction of its entries. */
  datatype Statement =
    | Select(columns: seq<string>, from: string, filter: seq<Eq>)
    | Insert(into: string, columns: seq<string>, values: seq<SqlValue>, returning: seq<string>)
    | Update(table: string, setMap: map<string, SqlValue>, filter: seq<Eq>, returning: seq<string>)
    | Delete(from: string, filter: seq<Eq>)

  /** `sql.Result`, reduced to what `RowsAffected()` answers. */
  datatype SqlResult = SqlResult(rowsAffected: Result<Int64, RawError>)

  /**
   * The statement builder and the database as functions of the statement:
   * whether `ToSql()` fails, and what `SelectContext`, `GetContext` (with
   * `NoRows` when nothing comes back) and `ExecContext` give.
   */
  datatype Driver = Driver(
    toSql: Statement -> Option<RawError>,
    selectRows: Statement -> Result<seq<RepoTask>, RawError>,
    getRow: Statement -> Result<RepoTask, RawError>,
    exec: Statement -> Result<SqlResult, RawError>)

  /** The SELECT of `ListTasks`: every field, from tasks, with the (empty) filter of `param`. */
  function ListStatement(param: TaskParam): (s: Statement)
    ensures s == Select(["id", "name", "status", "created_at", "updated_at"], "tasks", [])
  {
    Select(FieldTask.Fields(), TableTask, [])
  }

  /** The INSERT of `CreateTask`: exactly name and status, with the input's values, returning every field. */
  function InsertStatement(param: Task): (s: Statement)
    ensures s.Insert? && s.into == "tasks"
    ensures s.columns == ["name", "status"]
    ensures s.values == [TextValue(param.name), BoolValue(param.status)]
    ensures s.returning == FieldTask.Fields()
  {
    Insert(TableTask, [FieldTask.name, FieldTask.status], [TextValue(param.name), BoolValue(param.status)],
           FieldTask.Fields())
  }

  /**
   * The UPDATE of `UpdateTask`: exactly name, status and updated_at (the
   * clock reading `now`), on the row whose id is `param.id`, returning every field.
   */
  function UpdateStatement(param: Task, now: Time): (s: Statement)
    ensures s.Update? && s.table == "tasks"
    ensures s.setMap.Keys == {"name", "status", "updated_at"}
    ensures s.setMap["name"] == TextValue(param.name)
    ensures s.setMap["status"] == BoolValue(param.status)
    ensures s.setMap["updated_at"] == TimeValue(now)
    ensures s.filter == [Eq("id", IntValue(param.id))]
    ensures s.returning == FieldTask.Fields()
  {
    var updates := map[FieldTask.name := TextValue(param.name),
                       FieldTask.status := BoolValue(param.status),
                       FieldTask.updatedAt := TimeValue(now)];
    Update(TableTask, updates, [Eq(FieldTask.id, IntValue(param.id))], FieldTask.Fields())
  }

  /** The DELETE of `DeleteTaskByID`: the row whose id is `id`. */
  function DeleteStatement(id: Int64): (s: Statement)
    ensures s == Delete("tasks", [Eq("id", IntValue(id))])
  {
    Delete(TableTask, [Eq(FieldTask.id, IntValue(id))])
  }

  /** The loop of `ListTasks` that fills `tasks` with one task per row, in row order. */
  method RowsToTasks(rows: seq<RepoTask>) returns (tasks: seq<Task>)
    ensures |tasks| == |rows|
    ensures forall i :: 0 <= i < |rows| ==> tasks[i] == rows[i].ToTask()
  {
    var a := new Task[|rows|];
    for i := 0 to |rows|
      invariant forall k :: 0 <= k < i ==> a[k] == rows[k].ToTask()
    {
      a[i] := rows[i].ToTask();
    }
    tasks := a[..];
  }

  /**
   * `ListTasks`: a build or select failure becomes INTERNAL_PROCESS with the
   * failure's text as client message; otherwise one task per row, in order
   * (no rows: an empty list and no error).
   */
  method ListTasks(db: Driver, param: TaskParam) returns (r: Result<seq<Task>, Error>)
    ensures var s := ListStatement(param);
      db.toSql(s).Some? ==>
        r.Err? && fresh(r.error) && r.error.State() == Wrapped(InternalProcess.Code(), db.toSql(s).value)
    ensures var s := ListStatement(param);
      db.toSql(s).None? && db.selectRows(s).Err? ==>
        r.Err? && fresh(r.error) && r.error.State() == Wrapped(InternalProcess.Code(), db.selectRows(s).error)
    ensures var s := ListStatement(param);
      db.toSql(s).None? && db.selectRows(s).Ok? ==>
        var rows := db.selectRows(s).value;
        r.Ok? && |r.value| == |rows| && forall i :: 0 <= i < |rows| ==> r.value[i] == rows[i].ToTask()
  {
    var stmt := ListStatement(param);
    var buildErr := db.toSql(stmt);
    if buildErr.Some? {
      var e := NewError(InternalProcess.Code(), Some(buildErr.value), [WithMsg(buildErr.value.Text())]);
      return Err(e);
    }
    var rows := db.selectRows(stmt);
    if rows.Err? {
      var e := NewError(InternalProcess.Code(), Some(rows.error), [WithMsg(rows.error.Text())]);
      return Err(e);
    }
    var tasks := RowsToTasks(rows.value);
    return Ok(tasks);
  }

  /**
   * `CreateTask`: every failure (build, or the fetch of the returned row)
   * becomes INTERNAL_PROCESS; otherwise the task the returned row maps to.
   */
  method CreateTask(db: Driver, param: Task) returns (r: Result<Task, Error>)
    ensures var s := InsertStatement(param);
      db.toSql(s).Some? ==>
        r.Err? && fresh(r.error) && r.error.State() == Wrapped(InternalProcess.Code(), db.toSql(s).value)
    ensures var s := InsertStatement(param);
      db.toSql(s).None? && db.getRow(s).Err? ==>
        r.Err? && fresh(r.error) && r.error.State() == Wrapped(InternalProcess.Code(), db.getRow(s).error)
    ensures var s := InsertStatement(param);
      db.toSql(s).None? && db.getRow(s).Ok? ==> r == Ok(db.getRow(s).value.ToTask())
  {
    var stmt := InsertStatement(param);
    var buildErr := db.toSql(stmt);
    if buildErr.Some? {
      var e := NewError(InternalProcess.Code(), Some(buildErr.value), [WithMsg(buildErr.value.Text())]);
      return Err(e);
    }
    var row := db.getRow(stmt);
    if row.Err? {
      var e := NewError(InternalProcess.Code(), Some(row.error), [WithMsg(row.error.Text())]);
      return Err(e);
    }
    var task := row.value.ToTask();
    return Ok(task);
  }

  /**
   * `UpdateTask`: no returned row (sql.ErrNoRows) is RESOURCE_NOT_FOUND with
   * message "task not found"; any other failure is INTERNAL_PROCESS;
   * otherwise the task the returned row maps to.
   */
  method UpdateTask(db: Driver, param: Task, now: Time) returns (r: Result<Task, Error>)
    ensures var s := UpdateStatement(param, now);
      db.toSql(s).Some? ==>
        r.Err? && fresh(r.error) && r.error.State() == Wrapped(InternalProcess.Code(), db.toSql(s).value)
    ensures var s := UpdateStatement(param, now);
      db.toSql(s).None? && db.getRow(s) == Err(NoRows) ==>
        r.Err? && fresh(r.error) && r.error.State() == Wrapped(ResourceNotFound.Code(), ErrNotFoundTask)
    ensures var s := UpdateStatement(param, now);
      db.toSql(s).None? && db.getRow(s).Err? && db.getRow(s).error != NoRows ==>
        r.Err? && fresh(r.error) && r.error.State() == Wrapped(InternalProcess.Code(), db.getRow(s).error)
    ensures var s := UpdateStatement(param, now);
      db.toSql(s).None? && db.getRow(s).Ok? ==> r == Ok(db.getRow(s).value.ToTask())
    ensures var s := UpdateStatement(param, now);
      (r.Err? && r.error.errCode == ResourceNotFound.Code()) <==>
        (db.toSql(s).None? && db.getRow(s) == Err(NoRows))
  {
    var stmt := UpdateStatement(param, now);
    var buildErr := db.toSql(stmt);
    if buildErr.Some? {
      var e := NewError(InternalProcess.Code(), Some(buildErr.value), [WithMsg(buildErr.value.Text())]);
      return Err(e);
    }
    var row := db.getRow(stmt);
    if row.Err? {
      if row.error == NoRows {
        var err := ErrNotFoundTask;
        var e := NewError(ResourceNotFound.Code(), Some(err), [WithMsg(err.Text())]);
        return Err(e);
      }
      var e := NewError(InternalProcess.Code(), Some(row.error), [WithMsg(row.error.Text())]);
      return Err(e);
    }
    var task := row.value.ToTask();
    return Ok(task);
  }

  /**
   * `DeleteTaskByID`: zero affected rows is RESOURCE_NOT_FOUND with message
   * "task not found"; a failure to build, to execute or to count the
   * affected rows is INTERNAL_PROCESS; any other count is success.
   */
  method DeleteTaskByID(db: Driver, id: Int64) returns (err: Error?)
    ensures var s := DeleteStatement(id);
      db.toSql(s).Some? ==>
        err != null && fresh(err) && err.State() == Wrapped(InternalProcess.Code(), db.toSql(s).value)
    ensures var s := DeleteStatement(id);
      db.toSql(s).None? && db.exec(s).Err? ==>
        err != null && fresh(err) && err.State() == Wrapped(InternalProcess.Code(), db.exec(s).error)
    ensures var s := DeleteStatement(id);
      db.toSql(s).None? && db.exec(s).Ok? && db.exec(s).value.rowsAffected.Err? ==>
        err != null && fresh(err) &&
        err.State() == Wrapped(InternalProcess.Code(), db.exec(s).value.rowsAffected.error)
    ensures var s := DeleteStatement(id);
      db.toSql(s).None? && db.exec(s).Ok? && db.exec(s).value.rowsAffected == Ok(0) ==>
        err != null && fresh(err) && err.State() == Wrapped(ResourceNotFound.Code(), ErrNotFoundTask)
    ensures var s := DeleteStatement(id);
      err == null <==>
        (db.toSql(s).None? && db.exec(s).Ok? && db.exec(s).value.rowsAffected.Ok? &&
         db.exec(s).value.rowsAffected.value != 0)
  {
    var stmt := DeleteStatement(id);
    var buildErr := db.toSql(stmt);
    if buildErr.Some? {
      err := NewError(InternalProcess.Code(), Some(buildErr.value), [WithMsg(buildErr.value.Text())]);
      return;
    }
    var result := db.exec(stmt);
    if result.Err? {
      err := NewError(InternalProcess.Code(), Some(result.error), [WithMsg(result.error.Text())]);
      return;
    }
    var affects := result.value.rowsAffected;
    if affects.Err? {
      err := NewError(InternalProcess.Code(), Some(affects.error), [WithMsg(affects.error.Text())]);
      return;
    }
    if affects.value == 0 {
      var notFound := ErrNotFoundTask;
      err := NewError(ResourceNotFound.Code(), Some(notFound), [WithMsg(notFound.Text())]);
      return;
    }
    return null;
  }
}
