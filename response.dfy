/**
 * The response helpers of internal/handler/http/response.go: paging
 * arithmetic, the list envelope, and the rendering of any error as an
 * HTTP status and an ErrResponse body.
 */
module HttpResponse {
  import opened Wrappers
  import opened GoInt
  import opened ErrorCodes
  import opened CommonError

  /** The list envelope `List{Data, TotalSize, NextPage}`. */
  datatype List<T> = List(data: T, totalSize: Int64, nextPage: Int64)

  /** The error body `ErrResponse{Name, Message, Details}`. */
  datatype ErrResponse = ErrResponse(name: string, message: string, details: seq<Detail>)

  /**
   * What a handler leaves in the Gin context: `responseWithJSON` (status and
   * the value put under "result"), `responseWithNoContent` (a status and no
   * body), or `responseWithError` (the error recorded with `c.Error`, and
   * the status and body it was aborted with). `Panicked` is a handler that
   * hit a Go run-time panic before it wrote anything.
   */
  datatype Reply<T> =
    | Json(status: int, result: T)
    | NoContent(status: int)
    | Aborted(status: int, body: ErrResponse, recorded: AnyError)
    | Panicked

  /**
   * `nextPage(page, perPage, totalSize)`: the following page number while
   * rows remain past the first `page * perPage`, and 0 otherwise. The product
   * and the increment are Go's 64-bit ones and wrap around; while they stay
   * in range the result is the one the unbounded arithmetic gives.
   */
  function NextPage(page: Int64, perPage: Int64, totalSize: Int64): (r: Int64)
    ensures r == 0 || r == Add(page, 1)
    ensures page < MaxInt64 && MinInt64 <= page * perPage <= MaxInt64 ==>
      r == (if page * perPage < totalSize then page + 1 else 0)
  {
    if Mul(page, perPage) < totalSize then Add(page, 1) else 0
  }

  /**
   * The product wraps: with 2^32 rows per page, page 2^32 starts past every
   * row of a one-row table, yet the product wraps to 0 and a next page is
   * announced.
   */
  lemma NextPageProductWraps()
    ensures NextPage(0x1_0000_0000, 0x1_0000_0000, 1) == 0x1_0000_0001
  {
  }

  /** `responseToList`: data and total kept, next page computed from them. */
  function ResponseToList<T>(data: T, page: Int64, perPage: Int64, totalSize: Int64): (l: List<T>)
    ensures l.data == data && l.totalSize == totalSize
    ensures l.nextPage == NextPage(page, perPage, totalSize)
  {
    List(data, totalSize, NextPage(page, perPage, totalSize))
  }

  /** The texts of a list of field errors, in order. */
  function FieldTexts(fieldErrors: seq<FieldError>): (d: seq<Detail>)
    ensures |d| == |fieldErrors|
    ensures forall i :: 0 <= i < |fieldErrors| ==> d[i] == fieldErrors[i].text
  {
    seq(|fieldErrors|, i requires 0 <= i < |fieldErrors| => fieldErrors[i].text)
  }

  /** The loop of `responseError` that fills `errDetails` with each field error's text. */
  method FieldDetails(fieldsErrs: seq<FieldError>) returns (errDetails: seq<Detail>)
    ensures errDetails == FieldTexts(fieldsErrs)
  {
    var a := new Detail[|fieldsErrs|];
    for i := 0 to |fieldsErrs|
      invariant forall k :: 0 <= k < i ==> a[k] == fieldsErrs[k].text
    {
      a[i] := fieldsErrs[i].text;
    }
    errDetails := a[..];
  }

  /**
   * The record `responseError` works on: the domain error itself, or, for
   * any other error, `NewError(ErrCodeInternalProcess, err, WithMsg(err.Error()))`.
   */
  function Initial(err: AnyError): (v: ErrorValue)
    reads err.Footprint()
    ensures err.Domain? ==> v == err.domain.State()
    ensures err.Raw? ==> v == Wrapped(InternalProcess.Code(), err.raw)
  {
    match err
    case Domain(e) => e.State()
    case Raw(r) => Wrapped(InternalProcess.Code(), r)
  }

  /**
   * The record after `responseError` has called `CauseErr()` and, for a
   * ValidationErrors cause, appended each field error's text to the details.
   */
  function Prepared(v: ErrorValue): (w: ErrorValue)
    ensures w.causeErr.Some? && w.HasClientMsg()
    ensures w.errCode == v.errCode && w.clientMsg == v.clientMsg
    ensures w.causeErr == v.WithDefaultCause().causeErr
    ensures w.causeErr.value.ValidationErrors? ==>
      w.details == v.details + FieldTexts(w.causeErr.value.fieldErrors)
    ensures !w.causeErr.value.ValidationErrors? ==> w.details == v.details
  {
    var u := v.WithDefaultCause();
    match u.causeErr.value
    case ValidationErrors(_, fs) => u.AppendDetails(FieldTexts(fs))
    case _ => u
  }

  /** The status and body read off a prepared record. */
  function Render(w: ErrorValue): (r: (int, ErrResponse))
    requires w.HasClientMsg()
    ensures r.0 == w.HTTPStatus() && r.0 != 0
    ensures r.1.name == w.errCode.name
    ensures r.1.message == (if w.clientMsg != "" then w.clientMsg else w.causeErr.value.Text())
    ensures r.1.details == w.details
  {
    (w.HTTPStatus(), ErrResponse(w.Name(), w.ClientMsg(), w.DetailMsg()))
  }

  /**
   * `responseError(err)`. A domain error is changed in place (a default
   * cause, appended field texts); status and body are read off the result.
   */
  method ResponseError(err: AnyError) returns (statusCode: int, errResp: ErrResponse)
    modifies err.Footprint()
    ensures err.Domain? ==> err.domain.State() == Prepared(old(err.domain.State()))
    ensures (statusCode, errResp) == Render(Prepared(old(Initial(err))))
  {
    var appErr: Error;
    match AsErr(err) {
      case Some(e) =>
        appErr := e;
      case None =>
        appErr := NewError(InternalProcess.Code(), Some(err.raw), [WithMsg(err.raw.Text())]);
    }
    var causeErr := appErr.CauseErr();
    if causeErr.ValidationErrors? {
      var errDetails := FieldDetails(causeErr.fieldErrors);
      appErr.WithDetails(errDetails);
    }
    statusCode := appErr.State().HTTPStatus();
    errResp := ErrResponse(appErr.State().Name(), appErr.State().ClientMsg(), appErr.State().DetailMsg());
  }

  /** `responseWithError(c, err)`: record `err` itself in the context and abort with its rendering. */
  method ResponseWithError<T>(err: AnyError) returns (reply: Reply<T>)
    modifies err.Footprint()
    ensures err.Domain? ==> err.domain.State() == Prepared(old(err.domain.State()))
    ensures reply.Aborted? && reply.recorded == err
    ensures (reply.status, reply.body) == Render(Prepared(old(Initial(err))))
  {
    var statusCode, errResp := ResponseError(err);
    reply := Aborted(statusCode, errResp, err);
  }

  /**
   * A non-domain error is rendered as INTERNAL_PROCESS with status 500 and
   * its own text as message; only a ValidationErrors value brings details.
   */
  lemma NonDomainRendering(raw: RawError)
    ensures Render(Prepared(Initial(Raw(raw)))) ==
      (500, ErrResponse("INTERNAL_PROCESS", raw.Text(),
                        if raw.ValidationErrors? then FieldTexts(raw.fieldErrors) else []))
  {
  }

  /**
   * The rendering of any record: its status (never 0), its code's name, its
   * client message, and its details with nothing earlier lost; field errors
   * of a ValidationErrors cause follow the existing details in order.
   */
  lemma RenderingOfRecord(v: ErrorValue)
    ensures var (status, body) := Render(Prepared(v));
      status == v.HTTPStatus() && status != 0 &&
      body.name == v.Name() &&
      (v.HasClientMsg() ==> body.message == v.ClientMsg()) &&
      (!v.HasClientMsg() ==> body.message == DefaultCauseText) &&
      body.details[..|v.details|] == v.details &&
      (v.causeErr.Some? && v.causeErr.value.ValidationErrors? ==>
        body.details[|v.details|..] == FieldTexts(v.causeErr.value.fieldErrors)) &&
      (v.causeErr.Some? && !v.causeErr.value.ValidationErrors? ==> body.details == v.details)
  {
    var w := Prepared(v);
    if w.causeErr.value.ValidationErrors? {
      assert w.details == v.details + FieldTexts(w.causeErr.value.fieldErrors);
    }
  }

  /** An error with a declared code renders with that code's status and name. */
  lemma DeclaredCodeRendering(v: ErrorValue, d: DeclaredCode)
    requires v.errCode == d.Code()
    ensures Render(Prepared(v)).0 == d.Code().statusCode
    ensures Render(Prepared(v)).1.name == d.Code().name
  {
  }
}
