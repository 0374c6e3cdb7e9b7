/**
 * The task handlers of internal/handler/http/task_handler.go, as decision
 * chains over abstract inputs: the outcome of Gin's body binding, the
 * path value of `id`, and the service.
 */
module TaskHandler {
  import opened Wrappers
  import opened GoInt
  import opened ErrorCodes
  import opened CommonError
  import opened Domain
  import opened HttpResponse
  import opened RequestParameters
  import opened TaskService

  const StatusOK: int := 200

  /** `TaskResponse`, the projection of a task the API shows. */
  datatype TaskResponse = TaskResponse(id: Int64, name: string, status: bool)

  /** The `TaskResponse{ID, Name, Status}` literal of a task. */
  function ToResponse(t: Task): (r: TaskResponse)
    ensures r.id == t.id && r.name == t.name && r.status == t.status
  {
    TaskResponse(t.id, t.name, t.status)
  }

  /** What the handlers put under "result". */
  datatype Payload = TaskList(items: seq<TaskResponse>) | OneTask(item: TaskResponse)

  /** The outcome of `c.ShouldBind(&req)`. */
  datatype Binding<R> = Bound(req: R) | BindFailed(err: RawError)

  /** The request body of `CreateTask`. */
  datatype CreateRequest = CreateRequest(name: string)

  /** A `null.Bool`: its `Bool` and `Valid` fields. */
  datatype NullBool = NullBool(value: bool, valid: bool)

  /** The request body of `UpdateTask`. */
  datatype UpdateRequest = UpdateRequest(id: Int64, name: string, status: NullBool)

  /** The objects an error result refers to. */
  function ErrFootprint<T>(r: Result<T, AnyError>): set<object>
  {
    if r.Err? then r.error.Footprint() else {}
  }

  /** `domain.Task{Name: req.Name}`: only the name is set. */
  function CreateArg(req: CreateRequest): (t: Task)
    ensures t.name == req.name
    ensures t.id == 0 && !t.status && t.createdAt == ZeroTime && t.updatedAt == ZeroTime
  {
    Task(0, req.name, false, ZeroTime, ZeroTime)
  }

  /**
   * Whether `err.Error()` panics: for a domain error with neither a client
   * message nor a cause, `ClientMsg()` calls Error() on a nil cause.
   */
  predicate ErrorTextPanics(err: AnyError)
    reads err.Footprint()
  {
    err.Domain? && !err.domain.State().HasClientMsg()
  }

  /**
   * `Error()` panics exactly for an error with neither message nor cause;
   * an error wrapped the way the repository wraps its failures never does.
   */
  lemma ErrorTextPanicsExactly(e: Error, code: ErrCode, cause: RawError)
    ensures ErrorTextPanics(Domain(e)) <==> e.clientMsg == "" && e.causeErr.None?
    ensures e.State() == Wrapped(code, cause) ==> !ErrorTextPanics(Domain(e))
  {
  }

  /** The task `UpdateTask` sends: the id from the path, name and status from the body. */
  function UpdateArg(req: UpdateRequest, id: Int64): (t: Task)
    ensures t.id == id && t.name == req.name && t.status == req.status.value
    ensures t.createdAt == ZeroTime && t.updatedAt == ZeroTime
  {
    Task(id, req.name, req.status.value, ZeroTime, ZeroTime)
  }

  /** The loop of `ListTasks` that fills `response` with the projection of each task, in order. */
  method ProjectTasks(tasks: seq<Task>) returns (response: seq<TaskResponse>)
    ensures |response| == |tasks|
    ensures forall i :: 0 <= i < |tasks| ==>
      response[i] == TaskResponse(tasks[i].id, tasks[i].name, tasks[i].status)
  {
    var a := new TaskResponse[|tasks|];
    for i := 0 to |tasks|
      invariant forall k :: 0 <= k < i ==> a[k] == ToResponse(tasks[k])
    {
      a[i] := ToResponse(tasks[i]);
    }
    response := a[..];
  }

  /** `ListTasks`: the service error goes to the renderer as it is; otherwise 200 and every task projected. */
  method ListTasks(svc: Service) returns (reply: Reply<Payload>)
    modifies ErrFootprint(svc.ListTasks(TaskParam))
    ensures var res := svc.ListTasks(TaskParam);
      res.Err? ==>
        reply.Aborted? && reply.recorded == res.error &&
        (reply.status, reply.body) == Render(Prepared(old(Initial(res.error)))) &&
        (res.error.Domain? ==> res.error.domain.State() == Prepared(old(res.error.domain.State())))
    ensures var res := svc.ListTasks(TaskParam);
      res.Ok? ==>
        reply.Json? && reply.status == StatusOK && reply.result.TaskList? &&
        |reply.result.items| == |res.value| &&
        forall i :: 0 <= i < |res.value| ==> reply.result.items[i] == ToResponse(res.value[i])
  {
    var tasks := svc.ListTasks(TaskParam);
    if tasks.Err? {
      reply := ResponseWithError(tasks.error);
      return;
    }
    var response := ProjectTasks(tasks.value);
    reply := Json(StatusOK, TaskList(response));
  }

  /**
   * `CreateTask`: a binding failure is INVALID_PARAMETER with the binding
   * error's text as client message, and the service is not called;
   * otherwise the service gets a task with only the name set, its error
   * goes to the renderer as it is, and a success is 200 with the projection.
   * `sent` is the task handed to the service, if it was called.
   */
  method CreateTask(svc: Service, binding: Binding<CreateRequest>) returns (reply: Reply<Payload>, sent: Option<Task>)
    modifies if binding.Bound? then ErrFootprint(svc.CreateTask(CreateArg(binding.req))) else {}
    ensures binding.BindFailed? ==>
      sent.None? && reply.Aborted? && reply.recorded.Domain? && fresh(reply.recorded.domain) &&
      reply.recorded.domain.State() == Prepared(Wrapped(InvalidParameter.Code(), binding.err)) &&
      (reply.status, reply.body) == Render(Prepared(Wrapped(InvalidParameter.Code(), binding.err)))
    ensures binding.Bound? ==> sent == Some(Task(0, binding.req.name, false, ZeroTime, ZeroTime))
    ensures binding.Bound? ==>
      var res := svc.CreateTask(CreateArg(binding.req));
      (res.Err? && old(ErrorTextPanics(res.error)) ==>
        reply == Panicked && res.error.domain.State() == old(res.error.domain.State())) &&
      (res.Err? && !old(ErrorTextPanics(res.error)) ==>
        reply.Aborted? && reply.recorded == res.error &&
        (reply.status, reply.body) == Render(Prepared(old(Initial(res.error)))) &&
        (res.error.Domain? ==> res.error.domain.State() == Prepared(old(res.error.domain.State())))) &&
      (res.Ok? ==> reply == Json(StatusOK, OneTask(ToResponse(res.value))))
  {
    if binding.BindFailed? {
      var e := NewError(InvalidParameter.Code(), Some(binding.err), [WithMsg(binding.err.Text())]);
      reply := ResponseWithError(Domain(e));
      return reply, None;
    }
    var task := CreateArg(binding.req);
    var createdTask := svc.CreateTask(task);
    if createdTask.Err? {
      if ErrorTextPanics(createdTask.error) {
        // fmt.Println(err.Error()) stops the handler before anything is written.
        return Panicked, Some(task);
      }
      reply := ResponseWithError(createdTask.error);
      return reply, Some(task);
    }
    reply := Json(StatusOK, OneTask(ToResponse(createdTask.value)));
    return reply, Some(task);
  }

  /**
   * `UpdateTask`: the body is checked first (INVALID_PARAMETER on failure),
   * then the path id (its error goes to the renderer as `GetPathInt` made
   * it); only then is the service called, with the path id and not the
   * body's. Service errors are rendered as they are; a success is 200 with
   * the projection.
   */
  method UpdateTask(svc: Service, binding: Binding<UpdateRequest>, pathValue: string, atoi: string -> Option<Int64>)
    returns (reply: Reply<Payload>, sent: Option<Task>)
    modifies if binding.Bound? && PathOutcome("id", pathValue, atoi).Ok?
             then ErrFootprint(svc.UpdateTask(UpdateArg(binding.req, PathOutcome("id", pathValue, atoi).value)))
             else {}
    ensures binding.BindFailed? ==>
      sent.None? && reply.Aborted? && reply.recorded.Domain? && fresh(reply.recorded.domain) &&
      reply.recorded.domain.State() == Prepared(Wrapped(InvalidParameter.Code(), binding.err)) &&
      (reply.status, reply.body) == Render(Prepared(Wrapped(InvalidParameter.Code(), binding.err)))
    ensures binding.Bound? && PathOutcome("id", pathValue, atoi).Err? ==>
      sent.None? && reply.Aborted? && reply.recorded.Domain? && fresh(reply.recorded.domain) &&
      reply.recorded.domain.State() == Prepared(ParamError(PathOutcome("id", pathValue, atoi).error)) &&
      (reply.status, reply.body) == Render(Prepared(ParamError(PathOutcome("id", pathValue, atoi).error)))
    ensures binding.Bound? && PathOutcome("id", pathValue, atoi).Ok? ==>
      var id := PathOutcome("id", pathValue, atoi).value;
      sent == Some(UpdateArg(binding.req, id)) &&
      var res := svc.UpdateTask(UpdateArg(binding.req, id));
      (res.Err? ==>
        reply.Aborted? && reply.recorded == res.error &&
        (reply.status, reply.body) == Render(Prepared(old(Initial(res.error)))) &&
        (res.error.Domain? ==> res.error.domain.State() == Prepared(old(res.error.domain.State())))) &&
      (res.Ok? ==> reply == Json(StatusOK, OneTask(ToResponse(res.value))))
  {
    if binding.BindFailed? {
      var e := NewError(InvalidParameter.Code(), Some(binding.err), [WithMsg(binding.err.Text())]);
      reply := ResponseWithError(Domain(e));
      return reply, None;
    }
    // The service's answer only refers to objects that exist on entry, which GetPathInt leaves alone.
    ghost var id := if PathOutcome("id", pathValue, atoi).Ok? then PathOutcome("id", pathValue, atoi).value else 0;
    assert allocated(svc.UpdateTask(UpdateArg(binding.req, id)));
    var taskID, err := GetPathInt(pathValue, "id", atoi);
    if err != null {
      reply := ResponseWithError(Domain(err));
      return reply, None;
    }
    var task := UpdateArg(binding.req, taskID);
    var updatedTask := svc.UpdateTask(task);
    if updatedTask.Err? {
      reply := ResponseWithError(updatedTask.error);
      return reply, Some(task);
    }
    reply := Json(StatusOK, OneTask(ToResponse(updatedTask.value)));
    return reply, Some(task);
  }

  /**
   * `DeleteTask`: the path id is checked (its error rendered as `GetPathInt`
   * made it), then the service is called with it; its error is rendered as
   * it is, and a success is status 200 with no body.
   */
  method DeleteTask(svc: Service, pathValue: string, atoi: string -> Option<Int64>)
    returns (reply: Reply<Payload>, sent: Option<Int64>)
    modifies if PathOutcome("id", pathValue, atoi).Ok?
             then (var r := svc.DeleteTaskByID(PathOutcome("id", pathValue, atoi).value);
                   if r.Some? then r.value.Footprint() else {})
             else {}
    ensures PathOutcome("id", pathValue, atoi).Err? ==>
      sent.None? && reply.Aborted? && reply.recorded.Domain? && fresh(reply.recorded.domain) &&
      reply.recorded.domain.State() == Prepared(ParamError(PathOutcome("id", pathValue, atoi).error)) &&
      (reply.status, reply.body) == Render(Prepared(ParamError(PathOutcome("id", pathValue, atoi).error)))
    ensures PathOutcome("id", pathValue, atoi).Ok? ==>
      var id := PathOutcome("id", pathValue, atoi).value;
      sent == Some(id) &&
      var res := svc.DeleteTaskByID(id);
      (res.Some? ==>
        reply.Aborted? && reply.recorded == res.value &&
        (reply.status, reply.body) == Render(Prepared(old(Initial(res.value)))) &&
        (res.value.Domain? ==> res.value.domain.State() == Prepared(old(res.value.domain.State())))) &&
      (res.None? ==> reply == NoContent(StatusOK))
  {
    // The service's answer only refers to objects that exist on entry, which GetPathInt leaves alone.
    ghost var id := if PathOutcome("id", pathValue, atoi).Ok? then PathOutcome("id", pathValue, atoi).value else 0;
    assert allocated(svc.DeleteTaskByID(id));
    var taskID, err := GetPathInt(pathValue, "id", atoi);
    if err != null {
      reply := ResponseWithError(Domain(err));
      return reply, None;
    }
    var res := svc.DeleteTaskByID(taskID);
    if res.Some? {
      reply := ResponseWithError(res.value);
      return reply, Some(taskID);
    }
    reply := NoContent(StatusOK);
    return reply, Some(taskID);
  }

  /**
   * A binding failure reaches the client as 400 INVALID_PARAMETER with the
   * binding error's text; a ValidationErrors failure lists each field
   * error's text in the details (a body without its required name, say).
   */
  lemma BindFailureRendering(err: RawError)
    ensures Render(Prepared(Wrapped(InvalidParameter.Code(), err))) ==
      (400, ErrResponse("INVALID_PARAMETER", err.Text(),
                        if err.ValidationErrors? then FieldTexts(err.fieldErrors) else []))
  {
  }

  /** A bad path id reaches the client as 400 INVALID_PARAMETER with the path message and no details. */
  lemma PathErrorRendering(msg: string)
    ensures Render(Prepared(ParamError(msg))) == (400, ErrResponse("INVALID_PARAMETER", msg, []))
  {
  }

  /** The repository's not-found error reaches the client as 404 RESOURCE_NOT_FOUND "task not found". */
  lemma NotFoundRendering()
    ensures Render(Prepared(Wrapped(ResourceNotFound.Code(), TextError("task not found")))) ==
      (404, ErrResponse("RESOURCE_NOT_FOUND", "task not found", []))
  {
  }
}
