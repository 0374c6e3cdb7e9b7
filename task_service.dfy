/**
 * The task service of internal/application/task/task_service.go, over the
 * repository interface of internal/application/task/interface.go.
 */
module TaskService {
  import opened Wrappers
  import opened GoInt
  import opened ErrorCodes
  import opened CommonError
  import opened Domain

  /**
   * The `TaskRepository` interface: what each operation gives for each
   * argument. `Result` stands for Go's (value, error) pair; a nil error
   * always comes with a value.
   */
  datatype TaskRepository = TaskRepository(
    listTasks: TaskParam -> Result<seq<Task>, AnyError>,
    createTask: Task -> Result<Task, AnyError>,
    updateTask: Task -> Result<Task, AnyError>,
    deleteTaskByID: Int64 -> Option<AnyError>)

  /** `Service`: every operation is handed to the repository, argument and answer unchanged. */
  datatype Service = Service(postgresRepo: TaskRepository)
  {
    function ListTasks(param: TaskParam): (r: Result<seq<Task>, AnyError>)
      ensures r == postgresRepo.listTasks(param)
    {
      postgresRepo.listTasks(param)
    }

    function CreateTask(param: Task): (r: Result<Task, AnyError>)
      ensures r == postgresRepo.createTask(param)
    {
      postgresRepo.createTask(param)
    }

    function UpdateTask(param: Task): (r: Result<Task, AnyError>)
      ensures r == postgresRepo.updateTask(param)
    {
      postgresRepo.updateTask(param)
    }

    function DeleteTaskByID(id: Int64): (r: Option<AnyError>)
      ensures r == postgresRepo.deleteTaskByID(id)
    {
      postgresRepo.deleteTaskByID(id)
    }
  }

  /**
   * The service adds no rule of its own: each operation answers exactly
   * what the repository answers for the same argument, so an error code the
   * repository reports, RESOURCE_NOT_FOUND included, is the one the caller
   * sees, and so is every success.
   */
  lemma ErrorCodesPassThrough(s: Service, p: TaskParam, t: Task, id: Int64, code: ErrCode)
    ensures s.ListTasks(p) == s.postgresRepo.listTasks(p)
    ensures s.CreateTask(t) == s.postgresRepo.createTask(t)
    ensures s.UpdateTask(t) == s.postgresRepo.updateTask(t)
    ensures s.DeleteTaskByID(id) == s.postgresRepo.deleteTaskByID(id)
    ensures s.postgresRepo.updateTask(t).Err? ==>
      IsErrCode(s.UpdateTask(t).error, code) == IsErrCode(s.postgresRepo.updateTask(t).error, code)
    ensures s.postgresRepo.deleteTaskByID(id).Some? ==>
      IsErrCode(s.DeleteTaskByID(id).value, code) == IsErrCode(s.postgresRepo.deleteTaskByID(id).value, code)
  {
  }
}
