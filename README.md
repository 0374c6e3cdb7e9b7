# gogolook task API — a Dafny model of its core

gogolook is a small CRUD service for tasks (id, name, status, creation and
update times). It is written in Go, uses Gin for HTTP and Postgres for
storage, and is layered as handler → service → repository. All layers share
one domain error type, `common.Error`. An `Error` holds four things:

- a declared error code: a name and an HTTP status;
- a cause: the underlying Go `error`;
- a client message;
- a list of details.

This project models three parts of that core:

1. The error machinery:
   - the code table;
   - construction of an `Error` with options (`NewError`, `WithMsg`, `WithDetail`);
   - the readers and `Error()`;
   - the two methods that change an `Error` in place (`CauseErr`, `WithDetails`);
   - `IsErrCode`.
2. The handler helpers:
   - paging arithmetic (`nextPage`, `responseToList`);
   - `responseError` / `responseWithError`, which turn any error into an HTTP status and an `ErrResponse` body;
   - `GetPathInt`, which parses the path parameter.
3. The request flow of the four endpoints (list, create, update, delete):
   - the Postgres repository;
   - the forwarding service;
   - the Gin handlers.

Modules, one file each:

| file | module | models |
|---|---|---|
| `wrappers.dfy` | `Wrappers` | `Option`, `Result` |
| `go_int.dfy` | `GoInt` | 64-bit `int`/`int64` with wrap-around |
| `fmt.dfy` | `Fmt` | the `%d` verb |
| `error_code.dfy` | `ErrorCodes` | `error_code.go` |
| `error.dfy` | `CommonError` | `error.go` |
| `domain.dfy` | `Domain` | `domain.Task`, `domain.TaskParam` |
| `response.dfy` | `HttpResponse` | `response.go` |
| `request_parameters.dfy` | `RequestParameters` | `request_parameters.go` |
| `task_repo.dfy` | `TaskRepo` | `task_repo.go` |
| `task_service.dfy` | `TaskService` | `task_service.go` (and the repository interface) |
| `task_handler.dfy` | `TaskHandler` | `task_handler.go` |

## How the model maps the Go program

**`*Error` is a class.** `CommonError.Error` has the four fields of the Go struct. Its `State()` is the `ErrorValue` record those fields hold.

- `CauseErr` and `WithDetails` change that state in place, as the Go methods do through their pointer receiver.
- The readers are functions on the record.
- `NewError` is a method with a loop over the options. It is proved against `ApplyOptions`, which applies the options in order from first to last.
- Both `responseError` and the handlers act on the `Error` the caller handed them. So `responseError` changes a domain error's state in place, as the Go code does.

**A Go `error` is an `AnyError`.** It is either a domain `Error` (`Domain`) or a raw error (`Raw`). A raw error is one of three things:

- the text of an `errors.New` value or a driver failure;
- `sql.ErrNoRows`;
- a validator `ValidationErrors` value: its text and its field errors.

`errors.As` then becomes the test "is this a `Domain`?".

**The interface and the outside world are inputs:**

- The repository interface seen by the service is a datatype of functions (`TaskService.TaskRepository`). Dafny traits would otherwise be needed.
- The squirrel builder and the database driver are likewise a datatype of functions of the statement (`TaskRepo.Driver`).
- The clock reading `time.Now().UTC()` is the parameter `now`.
- `strconv.Atoi` is the parameter `atoi`.
- The outcome of `c.ShouldBind` is a `Binding` value.

**A handler returns what it leaves in the Gin context.** That is a `Reply`:

- a JSON status with the value placed under "result";
- a bare status;
- an abort, which carries the status, the `ErrResponse` body, and the error recorded with `c.Error`;
- or `Panicked`: the handler hit a Go run-time panic before it wrote anything.

A handler also returns `sent`, the argument it handed to the service, when it called the service.

## Model

| member | source | states |
|---|---|---|
| ErrorCodes.DeclaredCode.Code | internal/domain/common/error_code.go:16-70 | every declared code has a non-empty name and a status between 400 and 599, never 0 |
| ErrorCodes.CodeTable | internal/domain/common/error_code.go:16-70 | the six codes with their names and statuses 400, 401, 403, 404, 409, 500 |
| ErrorCodes.NamesDistinct | internal/domain/common/error_code.go:16-70 | two different declared codes never share a name |
| ErrorCodes.StatusDeterminesCode | internal/domain/common/error_code.go:16-70 | two declared codes with the same status are the same code |
| CommonError.ErrorValue.With | internal/domain/common/error.go:22-32 | `WithMsg` sets only the client message; `WithDetail` replaces only the details list; code and cause are never touched |
| CommonError.ApplyOptions | internal/domain/common/error.go:41-43 | applying options never changes the code or the cause |
| CommonError.MsgKeptWithoutWithMsg | internal/domain/common/error.go:22-26 | with no `WithMsg` among the options, the client message stays as it was |
| CommonError.LastWithMsgWins | internal/domain/common/error.go:22-26 | the client message is that of the last `WithMsg`, whatever the options before or after it |
| CommonError.DetailsKeptWithoutWithDetail | internal/domain/common/error.go:28-32 | with no `WithDetail`, the details stay as they were |
| CommonError.LastWithDetailWins | internal/domain/common/error.go:28-32 | the details are the list of the last `WithDetail`, which replaces the list rather than adding to it |
| CommonError.NewError | internal/domain/common/error.go:35-46 | a fresh error whose record is the bare record (code and cause set, no message, no details) with every option applied in order |
| CommonError.Error.constructor | internal/domain/common/error.go:36-39 | the literal with only code and cause set |
| CommonError.Error.Apply | internal/domain/common/error.go:42 | running one option on the record in place |
| CommonError.Wrapped | internal/domain/common/error.go:35-46 | `NewError(code, err, WithMsg(err.Error()))` has client message and cause message both equal to the cause's text, and no details |
| CommonError.DeclaredCodeReported | internal/domain/common/error.go:35-46 | an error built from a declared code reports that code's status and name, whatever the options |
| CommonError.AsErr | internal/domain/common/error.go:49-51 | finds a domain error exactly when the value is one, and returns that same error |
| CommonError.IsErrCode | internal/domain/common/error.go:54-61 | true exactly when the value is a domain error carrying the code; never true for a raw error |
| CommonError.IsErrCodeOfNewError | internal/domain/common/error.go:54-61 | an error made by `NewError` matches its own code and no other |
| CommonError.ErrorValue.ErrorText | internal/domain/common/error.go:64-80 | `Error()` is "[status] client msg: message " with "cause err: cause" after it only when there is a cause; the status is printed in decimal |
| Fmt.Digits | internal/domain/common/error.go:68 | a non-empty string of decimal digits with no leading zero except for 0 itself |
| Fmt.DecimalString | internal/domain/common/error.go:68 | the `%d` text: the digits of the magnitude, preceded by "-" for a negative number; never empty |
| Fmt.DigitsRoundTrip | internal/domain/common/error.go:68 | the decimal digits printed for a natural number read back as that number |
| Fmt.DecimalStringRoundTrip | internal/domain/common/error.go:68 | the `%d` text of any integer gives back its sign and magnitude |
| CommonError.ErrorValue.WithDefaultCause | internal/domain/common/error.go:83-88 | afterwards the cause is always present; an existing cause is kept; a missing one becomes "cause error should be implemented" |
| CommonError.DefaultCauseIdempotent | internal/domain/common/error.go:83-88 | a second `CauseErr()` changes nothing and returns the same cause |
| CommonError.Error.CauseErr | internal/domain/common/error.go:83-88 | never returns nil; installs the default cause in the record when there was none; otherwise returns the old cause unchanged |
| CommonError.ErrorValue.ClientMsg | internal/domain/common/error.go:96-101 | the stored message when it is non-empty; the cause's text when it is empty |
| CommonError.RawError.Text | internal/domain/common/error.go:98 | what a raw error's `Error()` returns: the errors.New text, "sql: no rows in result set" for sql.ErrNoRows, the validator's joined text |
| CommonError.ErrorValue.Name | internal/domain/common/error.go:91-93 | the code's name, non-empty for every declared code |
| CommonError.ErrorValue.CauseMsg | internal/domain/common/error.go:104-106 | the cause's text; with no stored message it is also the client message |
| CommonError.ErrorValue.DetailMsg | internal/domain/common/error.go:109-111 | the details list as stored |
| CommonError.ErrorValue.HTTPStatus | internal/domain/common/error.go:114-119 | never 0: the code's status, or 500 when the code carries 0 |
| CommonError.ErrorValue.AppendDetails | internal/domain/common/error.go:122-125 | old details kept as a prefix, `errs` as the suffix, length the sum; code, cause and message unchanged |
| CommonError.Error.WithDetails | internal/domain/common/error.go:122-125 | the error's record after the call is the old record with `errs` appended |
| HttpResponse.NextPage | internal/handler/http/response.go:34-39 | either 0 or `page + 1` in 64-bit arithmetic; whenever the product `page * perPage` fits in 64 bits and `page` is below the maximum, the result is `page + 1` when `page * perPage < totalSize` and 0 otherwise |
| HttpResponse.NextPageProductWraps | internal/handler/http/response.go:35 | the 64-bit product wraps: page 2^32 of 2^32 rows announces a next page for a one-row table |
| HttpResponse.ResponseToList | internal/handler/http/response.go:25-31 | the data and total are passed through; `nextPage` is computed from page, page size and total |
| HttpResponse.FieldTexts | internal/handler/http/response.go:73-76 | one text per field error, in order |
| HttpResponse.FieldDetails | internal/handler/http/response.go:73-76 | the loop fills the list with each field error's text, in order |
| HttpResponse.Initial | internal/handler/http/response.go:60-65 | a domain error is used as is; any other error becomes INTERNAL_PROCESS with its own text as message |
| HttpResponse.Prepared | internal/handler/http/response.go:67-80 | after preparation the cause is present and the message readable; code and message unchanged; field texts appended after the old details only for a ValidationErrors cause |
| HttpResponse.Render | internal/handler/http/response.go:82-88 | the status (never 0) and the body: the code's name, the stored message or else the cause's text, and the details list |
| HttpResponse.ResponseError | internal/handler/http/response.go:58-91 | the status and body are the rendering of the prepared record; a domain error is left in its prepared state |
| HttpResponse.ResponseWithError | internal/handler/http/response.go:53-56 | aborts with that rendering and records the original error, not the wrapper |
| HttpResponse.NonDomainRendering | internal/handler/http/response.go:58-91 | a raw error renders as 500 INTERNAL_PROCESS with its text as message, and field texts as details only for ValidationErrors |
| HttpResponse.RenderingOfRecord | internal/handler/http/response.go:58-91 | for any record: status never 0 and equal to its status; its code's name; its message, or the default cause's text when it had neither message nor cause; no earlier detail lost |
| HttpResponse.DeclaredCodeRendering | internal/handler/http/response.go:82-88 | a record with a declared code renders with that code's status and name |
| RequestParameters.EmptyMsg | internal/handler/http/request_parameters.go:16 | "the ", the parameter name, then " from path parameter value is empty or not specified" |
| RequestParameters.InvalidMsg | internal/handler/http/request_parameters.go:22 | "the ", the parameter name, then " from path parameter value is invalid" |
| RequestParameters.ParamError | internal/handler/http/request_parameters.go:16-17 | the error is 400 INVALID_PARAMETER with the message as both client message and cause, and no details |
| RequestParameters.PathOutcome | internal/handler/http/request_parameters.go:13-27 | an empty value is refused with the "empty or not specified" message; a value the parser rejects gets the "invalid" message; otherwise the parsed integer |
| RequestParameters.EmptyMsgIsNotInvalidMsg | internal/handler/http/request_parameters.go:16-22 | the two messages differ for every parameter name |
| RequestParameters.EmptyCheckedFirst | internal/handler/http/request_parameters.go:15-18 | an empty value is reported as empty, whatever the parser would make of it |
| RequestParameters.GetPathInt | internal/handler/http/request_parameters.go:13-27 | the integer and a nil error on success; 0 and a fresh INVALID_PARAMETER error carrying the outcome's message otherwise |
| TaskRepo.NullTime.TimeField | internal/repository/postgres/task_repo.go:38 | a NULL time reads as the zero time, a present one as itself |
| TaskRepo.RepoTask.ToTask | internal/repository/postgres/task_repo.go:31-40 | id, name, status and creation time copied; a NULL `updated_at` becomes the zero time |
| TaskRepo.FieldNames.Fields | internal/repository/postgres/task_repo.go:61-69 | the five column names in field order |
| TaskRepo.TaskFields | internal/repository/postgres/task_repo.go:53-69 | the columns are id, name, status, created_at, updated_at, with no duplicates |
| TaskRepo.ListStatement | internal/repository/postgres/task_repo.go:74-81 | selects every field from tasks with an empty filter |
| TaskRepo.InsertStatement | internal/repository/postgres/task_repo.go:104-116 | inserts only name and status, with the input's values, and returns every field |
| TaskRepo.UpdateStatement | internal/repository/postgres/task_repo.go:136-150 | sets exactly name, status and updated_at (the clock reading) on the row with the input's id, and returns every field |
| TaskRepo.DeleteStatement | internal/repository/postgres/task_repo.go:174-178 | deletes from tasks the row with the given id |
| TaskRepo.RowsToTasks | internal/repository/postgres/task_repo.go:92-96 | one task per row, in row order |
| TaskRepo.ListTasks | internal/repository/postgres/task_repo.go:72-99 | a build or select failure gives INTERNAL_PROCESS with the failure's text; otherwise every row converted, in order |
| TaskRepo.CreateTask | internal/repository/postgres/task_repo.go:102-131 | a build failure or row failure gives INTERNAL_PROCESS; otherwise the task of the returned row |
| TaskRepo.UpdateTask | internal/repository/postgres/task_repo.go:134-169 | no returned row gives RESOURCE_NOT_FOUND "task not found"; other failures give INTERNAL_PROCESS; the result is not-found exactly when no row came back |
| TaskRepo.DeleteTaskByID | internal/repository/postgres/task_repo.go:172-199 | zero affected rows gives RESOURCE_NOT_FOUND "task not found"; build, execute or count failures give INTERNAL_PROCESS; no error exactly when a non-zero count was read |
| TaskService.Service.ListTasks | internal/application/task/task_service.go:11-14 | the repository's answer for the same filter |
| TaskService.Service.CreateTask | internal/application/task/task_service.go:17-20 | the repository's answer for the same task |
| TaskService.Service.UpdateTask | internal/application/task/task_service.go:23-29 | the repository's answer for the same task, its not-found error included |
| TaskService.Service.DeleteTaskByID | internal/application/task/task_service.go:32-38 | the repository's answer for the same id, its not-found error included |
| TaskService.ErrorCodesPassThrough | internal/application/task/task_service.go:11-38 | each of the four operations equals the repository's answer; in particular `IsErrCode` of an update or delete error, RESOURCE_NOT_FOUND included, is the repository's |
| TaskHandler.ToResponse | internal/handler/http/task_handler.go:89-93 | the response carries the task's id, name and status |
| TaskHandler.CreateArg | internal/handler/http/task_handler.go:82 | the task sent for a create has only the body's name set: id 0, status false, zero times |
| TaskHandler.ErrorTextPanicsExactly | internal/handler/http/task_handler.go:84 | `err.Error()` panics exactly for a domain error with no message and no cause; an error wrapped as the repository wraps its failures never panics |
| TaskHandler.UpdateArg | internal/handler/http/task_handler.go:136-140 | the task sent for an update has the path id, the body's name and status, and zero times |
| TaskHandler.ProjectTasks | internal/handler/http/task_handler.go:43-51 | one response per task, in order, with its id, name and status |
| TaskHandler.ListTasks | internal/handler/http/task_handler.go:32-55 | a service error is rendered and recorded as it is, and a domain error is left in its prepared state; otherwise 200 with every task projected, in order |
| TaskHandler.CreateTask | internal/handler/http/task_handler.go:64-97 | a bind failure gives INVALID_PARAMETER, with the new error's prepared state given, and the service is not called; otherwise the service gets a task with only the name set; a service error whose `Error()` panics stops the handler with nothing written and the error unchanged; any other service error is rendered and recorded, left in its prepared state; a success is 200 with its projection |
| TaskHandler.UpdateTask | internal/handler/http/task_handler.go:108-154 | the body is checked before the path id; each failure is a new INVALID_PARAMETER error whose prepared state is given; the service is called only when both pass, with the path id; its error is rendered, recorded and left prepared; a success is 200 with its projection |
| TaskHandler.DeleteTask | internal/handler/http/task_handler.go:165-184 | a bad path id is a new INVALID_PARAMETER error whose prepared state is given, and the service is not called; otherwise the service gets the id; its error is rendered, recorded and left prepared; a success is 200 with no body |
| TaskHandler.BindFailureRendering | internal/handler/http/task_handler.go:76-80 | a bind failure reaches the client as 400 INVALID_PARAMETER with the bind error's text, and its field texts for ValidationErrors |
| TaskHandler.PathErrorRendering | internal/handler/http/task_handler.go:130-134 | a bad path id reaches the client as 400 INVALID_PARAMETER with the path message and no details |
| TaskHandler.NotFoundRendering | internal/handler/http/task_handler.go:141-144 | the repository's not-found error reaches the client as 404 RESOURCE_NOT_FOUND "task not found" |

## Left out

- **Startup and wiring.** The program's start-up is not part of this model, and neither are configuration, the database connection and route registration. They only assemble the parts modelled here.
- **Gin internals.** The HTTP transport, JSON encoding and Gin's context are left out. A reply records only the error passed to `c.Error`, not the rest of the context's error list.
- **The `omitempty` tag on `Details`.** An empty details list is a value of the model; whether JSON omits it is not modelled.
- **SQL text.** The squirrel builder's SQL text and placeholder syntax are left out. So are sqlx scanning and Postgres itself.
  - Statements are abstract descriptions.
  - What `ToSql`, `SelectContext`, `GetContext`, `ExecContext` and `RowsAffected` answer for a statement is an input.
- **TaskRepo.UpdateTask: wrapped no-rows errors.** Only the plain `sql.ErrNoRows` is recognised as "not found". `errors.Is` also sees through wrapped errors, and a driver that wraps it is not modelled.
- **`context.Context`, the clock and `strconv.Atoi`.** Cancellation is not modelled. The clock reading and the parser are parameters, and the parser's exact grammar and range checks are left out.
- **`c.ShouldBind` is an input.** This covers body decoding and the validator's `binding:"required"` rules, including what counts as a missing `null.Bool`. The handler is modelled on the binding's outcome.
- **`details []any` holds strings.** The core only ever stores strings there.
- **Unwrap chains.** `errors.As` is modelled on the error value itself, not on chains of wrapped errors.
  - No error in the core wraps a domain error, and a domain error's cause is always a raw error.
  - A domain error that reaches `responseError` inside another error is not modelled.
- **Go's `(nil, nil)` result.** A repository may in principle return two nils; the `Result` type of the model excludes it.
- **The zero `Error{}`.** A domain error whose cause is nil and whose message is empty makes `ClientMsg()` call `Error()` on a nil cause, a Go panic. `CommonError.ErrorValue.ClientMsg` and `CommonError.ErrorValue.ErrorText` therefore require a message or a cause.
  - `responseError` installs a cause before it reads the message, so it never meets that case.
  - The create handler prints `err.Error()` before it renders a service error, so there it is met: `TaskHandler.CreateTask` ends in the `Panicked` reply for such an error. What Gin's recovery middleware then answers is not part of the model.
- **TaskHandler.CreateTask: the text `fmt.Println` writes to the console** is not modelled; only whether computing it panics is.
- **TaskService.ErrorCodesPassThrough: the Postgres repository is not itself packaged as a `TaskRepository`.** The repository methods of `TaskRepo` allocate new errors, and the functions of a `TaskRepository` value cannot. The service is modelled over an arbitrary repository, so every property stated about it holds for the Postgres one in particular.
- **The swagger annotations and the code differ.** The model follows the code.
  - The `@Failure` examples at internal/handler/http/task_handler.go:30, 62, 105 and 162 show a `"code"` field; the code's `ErrResponse` has `name`, `message` and `details`.
  - `@Success 201` at internal/handler/http/task_handler.go:61 announces 201 for a create; the code answers 200.
- **HttpResponse.ResponseToList and HttpResponse.NextPage are not called by any handler.** `ListTasks` sends the bare list without page data. They are modelled because the response helpers define them.
