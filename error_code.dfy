/**
 * The error-code table of internal/domain/common/error_code.go: the
 * record ErrCode and the six codes the package declares.
 */
module ErrorCodes {

  /** HTTP statuses of Go's net/http that the table uses. */
  const StatusBadRequest: int := 400
  const StatusUnauthorized: int := 401
  const StatusForbidden: int := 403
  const StatusNotFound: int := 404
  const StatusConflict: int := 409
  const StatusInternalServerError: int := 500

  /**
   * The Go struct `ErrCode{Name, StatusCode}`. Any record can be built,
   * the zero record `ErrCode("", 0)` included; the declared codes below
   * are the ones the program uses.
   */
  datatype ErrCode = ErrCode(name: string, statusCode: int)

  /** The closed set of declared codes, `ErrCodeInvalidParameter` ... `ErrCodeInternalProcess`. */
  datatype DeclaredCode =
    | InvalidParameter
    | Unauthorized
    | AccessNotAllowed
    | ResourceNotFound
    | ResourceAlreadyExisted
    | InternalProcess
  {
    /** The record the package variable of this code holds. */
    function Code(): (c: ErrCode)
      ensures c.statusCode != 0
      ensures 400 <= c.statusCode <= 599
      ensures |c.name| > 0
    {
      match this
      case InvalidParameter => ErrCode("INVALID_PARAMETER", StatusBadRequest)
      case Unauthorized => ErrCode("UNAUTHORIZED", StatusUnauthorized)
      case AccessNotAllowed => ErrCode("ACCESS_NOT_ALLOWED", StatusForbidden)
      case ResourceNotFound => ErrCode("RESOURCE_NOT_FOUND", StatusNotFound)
      case ResourceAlreadyExisted => ErrCode("RESOURCE_ALREADY_EXISTED", StatusConflict)
      case InternalProcess => ErrCode("INTERNAL_PROCESS", StatusInternalServerError)
    }
  }

  /** The table as the source writes it: name and status of each declared code. */
  lemma CodeTable()
    ensures InvalidParameter.Code() == ErrCode("INVALID_PARAMETER", 400)
    ensures Unauthorized.Code() == ErrCode("UNAUTHORIZED", 401)
    ensures AccessNotAllowed.Code() == ErrCode("ACCESS_NOT_ALLOWED", 403)
    ensures ResourceNotFound.Code() == ErrCode("RESOURCE_NOT_FOUND", 404)
    ensures ResourceAlreadyExisted.Code() == ErrCode("RESOURCE_ALREADY_EXISTED", 409)
    ensures InternalProcess.Code() == ErrCode("INTERNAL_PROCESS", 500)
  {
  }

  /** No two declared codes share a name. */
  lemma NamesDistinct(a: DeclaredCode, b: DeclaredCode)
    requires a != b
    ensures a.Code().name != b.Code().name
  {
  }

  /** No two declared codes share a status, so the status determines the code. */
  lemma StatusDeterminesCode(a: DeclaredCode, b: DeclaredCode)
    requires a.Code().statusCode == b.Code().statusCode
    ensures a == b
  {
  }
}
