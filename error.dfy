/**
 * The domain error of internal/domain/common/error.go: the record behind
 * `*Error`, the options `NewError` applies, the readers, and the two
 * methods that change the record in place.
 */
module CommonError {
  import opened Wrappers
  import opened ErrorCodes
  import Fmt

  /** One entry of a validator.ValidationErrors list; `text` is what its Error() returns. */
  datatype FieldError = FieldError(text: string)

  /** The text of Go's sql.ErrNoRows. */
  const NoRowsText: string := "sql: no rows in result set"

  /** The cause `CauseErr` installs when an error has none. */
  const DefaultCauseText: string := "cause error should be implemented"

  /**
   * A non-nil Go `error` that is not a domain `*Error`: an errors.New value
   * or a driver failure (its text), the sentinel sql.ErrNoRows, or the
   * validator's ValidationErrors (its joined text and its field errors).
   */
  datatype RawError =
    | TextError(message: string)
    | NoRows
    | ValidationErrors(text: string, fieldErrors: seq<FieldError>)
  {
    /** What the value's Error() method returns. */
    function Text(): (t: string)
      ensures TextError? ==> t == message
      ensures NoRows? ==> t == "sql: no rows in result set"
      ensures ValidationErrors? ==> t == text
    {
      match this
      case TextError(m) => m
      case NoRows => NoRowsText
      case ValidationErrors(t, _) => t
    }
  }

  /** An entry of the `details []any` list; the core only ever stores strings there. */
  type Detail = string

  /** The two ErrOption closures the package offers. */
  datatype ErrOption = WithMsg(msg: string) | WithDetail(detail: seq<Detail>)

  /** The record an `*Error` points to. `causeErr == None` is a nil cause. */
  datatype ErrorValue = ErrorValue(
    errCode: ErrCode,
    causeErr: Option<RawError>,
    clientMsg: string,
    details: seq<Detail>)
  {
    /** What running the closure `o` on the record does. */
    function With(o: ErrOption): (w: ErrorValue)
      ensures w.errCode == errCode && w.causeErr == causeErr
      ensures o.WithMsg? ==> w.clientMsg == o.msg && w.details == details
      ensures o.WithDetail? ==> w.details == o.detail && w.clientMsg == clientMsg
    {
      match o
      case WithMsg(m) => this.(clientMsg := m)
      case WithDetail(d) => this.(details := d)
    }

    /** `HTTPStatus()`: the code's status, or 500 when the code carries none. */
    function HTTPStatus(): (s: int)
      ensures s != 0
      ensures errCode.statusCode != 0 ==> s == errCode.statusCode
      ensures errCode.statusCode == 0 ==> s == StatusInternalServerError
    {
      if errCode.statusCode == 0 then StatusInternalServerError else errCode.statusCode
    }

    /** `Name()`: the code's name, unchanged. */
    function Name(): (n: string)
      ensures n == errCode.name
      ensures (exists d: DeclaredCode :: errCode == d.Code()) ==> |n| > 0
    {
      errCode.name
    }

    /** What `ClientMsg()` needs to run without dereferencing a nil cause. */
    predicate HasClientMsg()
    {
      clientMsg != "" || causeErr.Some?
    }

    /** `ClientMsg()`: the stored message, or the cause's text when none is stored. */
    function ClientMsg(): (m: string)
      requires HasClientMsg()
      ensures clientMsg != "" ==> m == clientMsg
      ensures clientMsg == "" ==> m == causeErr.value.Text()
    {
      if clientMsg == "" then causeErr.value.Text() else clientMsg
    }

    /** `CauseMsg()`: the cause's text. */
    function CauseMsg(): (m: string)
      requires causeErr.Some?
      ensures m == causeErr.value.Text()
      ensures clientMsg == "" ==> m == ClientMsg()
    {
      causeErr.value.Text()
    }

    /** `DetailMsg()`: the details list. */
    function DetailMsg(): (d: seq<Detail>)
      ensures d == details
    {
      details
    }

    /**
     * `Error()`: "[<status>] client msg: <client msg> ", followed by
     * "cause err: <cause msg>" only when there is a cause.
     */
    function ErrorText(): (t: string)
      requires HasClientMsg()
      ensures var head := "[" + Fmt.DecimalString(HTTPStatus()) + "] client msg: " + ClientMsg() + " ";
        (causeErr.None? ==> t == head) &&
        (causeErr.Some? ==> t == head + "cause err: " + CauseMsg())
    {
      var head := "[" + Fmt.DecimalString(HTTPStatus()) + "] client msg: " + ClientMsg() + " ";
      if causeErr.Some? then head + "cause err: " + CauseMsg() else head
    }

    /** The record after `CauseErr()`: a nil cause is replaced by the default one. */
    function WithDefaultCause(): (w: ErrorValue)
      ensures w.causeErr.Some?
      ensures causeErr.Some? ==> w == this
      ensures causeErr.None? ==> w == this.(causeErr := Some(TextError(DefaultCauseText)))
    {
      if causeErr.None? then this.(causeErr := Some(TextError(DefaultCauseText))) else this
    }

    /** The record after `WithDetails(errs...)`: the old details, then `errs`. */
    function AppendDetails(errs: seq<Detail>): (w: ErrorValue)
      ensures w.errCode == errCode && w.causeErr == causeErr && w.clientMsg == clientMsg
      ensures |w.details| == |details| + |errs|
      ensures w.details[..|details|] == details
      ensures w.details[|details|..] == errs
    {
      this.(details := details + errs)
    }
  }

  /**
   * The record `NewError` returns: the options applied to it one after the
   * other, from the first to the last.
   */
  function ApplyOptions(v: ErrorValue, options: seq<ErrOption>): (w: ErrorValue)
    ensures w.errCode == v.errCode && w.causeErr == v.causeErr
    decreases |options|
  {
    if options == [] then v
    else ApplyOptions(v, options[..|options| - 1]).With(options[|options| - 1])
  }

  /** With no `WithMsg` among the options the message is the one the record had. */
  lemma {:induction false} MsgKeptWithoutWithMsg(v: ErrorValue, options: seq<ErrOption>)
    requires forall j :: 0 <= j < |options| ==> !options[j].WithMsg?
    ensures ApplyOptions(v, options).clientMsg == v.clientMsg
    decreases |options|
  {
    if options != [] {
      MsgKeptWithoutWithMsg(v, options[..|options| - 1]);
    }
  }

  /** A later `WithMsg` overrides every earlier one: the last `WithMsg` decides the message. */
  lemma {:induction false} LastWithMsgWins(v: ErrorValue, options: seq<ErrOption>, i: nat)
    requires i < |options| && options[i].WithMsg?
    requires forall j :: i < j < |options| ==> !options[j].WithMsg?
    ensures ApplyOptions(v, options).clientMsg == options[i].msg
    decreases |options|
  {
    if i < |options| - 1 {
      LastWithMsgWins(v, options[..|options| - 1], i);
    }
  }

  /** With no `WithDetail` among the options the details are the ones the record had. */
  lemma {:induction false} DetailsKeptWithoutWithDetail(v: ErrorValue, options: seq<ErrOption>)
    requires forall j :: 0 <= j < |options| ==> !options[j].WithDetail?
    ensures ApplyOptions(v, options).details == v.details
    decreases |options|
  {
    if options != [] {
      DetailsKeptWithoutWithDetail(v, options[..|options| - 1]);
    }
  }

  /** `WithDetail` replaces the whole list: the last `WithDetail` decides the details. */
  lemma {:induction false} LastWithDetailWins(v: ErrorValue, options: seq<ErrOption>, i: nat)
    requires i < |options| && options[i].WithDetail?
    requires forall j :: i < j < |options| ==> !options[j].WithDetail?
    ensures ApplyOptions(v, options).details == options[i].detail
    decreases |options|
  {
    if i < |options| - 1 {
      LastWithDetailWins(v, options[..|options| - 1], i);
    }
  }

  /** The record `NewError` starts from: code and cause set, everything else zero. */
  function Fresh(errCode: ErrCode, causeErr: Option<RawError>): ErrorValue
  {
    ErrorValue(errCode, causeErr, "", [])
  }

  /**
   * The record of `NewError(code, err, WithMsg(err.Error()))`, the way every
   * layer of the core wraps a raw failure: its message is the cause's text,
   * and it has no details.
   */
  function Wrapped(code: ErrCode, cause: RawError): (v: ErrorValue)
    ensures v == ErrorValue(code, Some(cause), cause.Text(), [])
    ensures v.ClientMsg() == v.CauseMsg() == cause.Text()
  {
    var options := [WithMsg(cause.Text())];
    assert options[..|options| - 1] == [];
    assert ApplyOptions(Fresh(code, Some(cause)), options[..|options| - 1]) == Fresh(code, Some(cause));
    ApplyOptions(Fresh(code, Some(cause)), options)
  }

  /** Installing the default cause twice is installing it once: `CauseErr()` is stable. */
  lemma DefaultCauseIdempotent(v: ErrorValue)
    ensures v.WithDefaultCause().WithDefaultCause() == v.WithDefaultCause()
    ensures v.WithDefaultCause().CauseMsg() == (if v.causeErr.Some? then v.CauseMsg() else DefaultCauseText)
  {
  }

  /** A domain error. Its record is `State()`. */
  class Error {
    var errCode: ErrCode
    var causeErr: Option<RawError>
    var clientMsg: string
    var details: seq<Detail>

    function State(): ErrorValue
      reads this
    {
      ErrorValue(errCode, causeErr, clientMsg, details)
    }

    /** The composite literal `Error{errCode: errCode, causeErr: causeErr}`. */
    constructor (errCode: ErrCode, causeErr: Option<RawError>)
      ensures State() == Fresh(errCode, causeErr)
    {
      this.errCode := errCode;
      this.causeErr := causeErr;
      this.clientMsg := "";
      this.details := [];
    }

    /** `o(&err)`: run one option on this record. */
    method Apply(o: ErrOption)
      modifies this
      ensures State() == old(State()).With(o)
    {
      match o
      case WithMsg(m) => clientMsg := m;
      case WithDetail(d) => details := d;
    }

    /**
     * `CauseErr()`: never nil. A missing cause is replaced, in the record,
     * by the default one, so every later call returns that same cause.
     */
    method CauseErr() returns (c: RawError)
      modifies this
      ensures State() == old(State()).WithDefaultCause()
      ensures causeErr == Some(c)
      ensures old(causeErr).Some? ==> c == old(causeErr).value
    {
      if causeErr.None? {
        causeErr := Some(TextError(DefaultCauseText));
      }
      c := causeErr.value;
    }

    /** `WithDetails(errs...)`: append `errs` to the details, losing none of the old ones. */
    method WithDetails(errs: seq<Detail>)
      modifies this
      ensures State() == old(State()).AppendDetails(errs)
    {
      details := details + errs;
    }
  }

  /** `NewError(errCode, causeErr, options...)`: a new record with the options applied in order. */
  method NewError(errCode: ErrCode, causeErr: Option<RawError>, options: seq<ErrOption>) returns (e: Error)
    ensures fresh(e)
    ensures e.State() == ApplyOptions(Fresh(errCode, causeErr), options)
  {
    e := new Error(errCode, causeErr);
    for i := 0 to |options|
      invariant e.State() == ApplyOptions(Fresh(errCode, causeErr), options[..i])
    {
      assert options[..i + 1][..i] == options[..i];
      e.Apply(options[i]);
    }
    assert options[..|options|] == options;
  }

  /** A non-nil value of Go's `error` interface: a raw error or a domain `*Error`. */
  datatype AnyError = Raw(raw: RawError) | Domain(domain: Error)
  {
    /** The objects an operation on this error may read or change. */
    function Footprint(): set<object>
    {
      if Domain? then {domain} else {}
    }
  }

  /** `AsErr(err, &domainErr)`: the domain error `err` is, if it is one. */
  function AsErr(err: AnyError): (r: Option<Error>)
    ensures r.Some? <==> err.Domain?
    ensures r.Some? ==> r.value == err.domain
  {
    match err
    case Domain(e) => Some(e)
    case Raw(_) => None
  }

  /** `IsErrCode(target, code)`: true exactly for a domain error carrying `code`. */
  function IsErrCode(target: AnyError, code: ErrCode): (r: bool)
    reads target.Footprint()
    ensures r <==> target.Domain? && target.domain.errCode == code
    ensures target.Raw? ==> !r
  {
    match AsErr(target)
    case Some(e) => e.errCode == code
    case None => false
  }

  /** An error made by `NewError` from a declared code reports that code's status and name. */
  lemma DeclaredCodeReported(d: DeclaredCode, cause: Option<RawError>, options: seq<ErrOption>)
    ensures var v := ApplyOptions(Fresh(d.Code(), cause), options);
      v.HTTPStatus() == d.Code().statusCode && v.Name() == d.Code().name
  {
  }

  /** `IsErrCode` of an error made by `NewError` holds for its own code and for no other. */
  lemma IsErrCodeOfNewError(e: Error, code: ErrCode, cause: Option<RawError>, options: seq<ErrOption>, other: ErrCode)
    requires e.State() == ApplyOptions(Fresh(code, cause), options)
    ensures IsErrCode(Domain(e), code)
    ensures IsErrCode(Domain(e), other) <==> other == code
  {
  }
}
