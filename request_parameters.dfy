/** `GetPathInt` of internal/handler/http/request_parameters.go. */
module RequestParameters {
  import opened Wrappers
  import opened GoInt
  import opened ErrorCodes
  import opened CommonError

  /** The message for a path parameter that is missing or empty. */
  function EmptyMsg(name: string): (m: string)
    ensures 4 + |name| <= |m|
    ensures m[..4 + |name|] == "the " + name
    ensures m[4 + |name|..] == " from path parameter value is empty or not specified"
  {
    "the " + name + " from path parameter value is empty or not specified"
  }

  /** The message for a path parameter that `strconv.Atoi` rejects. */
  function InvalidMsg(name: string): (m: string)
    ensures 4 + |name| <= |m|
    ensures m[..4 + |name|] == "the " + name
    ensures m[4 + |name|..] == " from path parameter value is invalid"
  {
    "the " + name + " from path parameter value is invalid"
  }

  /** The two messages differ for every parameter name. */
  lemma EmptyMsgIsNotInvalidMsg(name: string)
    ensures EmptyMsg(name) != InvalidMsg(name)
  {
    var common := "the " + name + " from path parameter value is ";
    assert EmptyMsg(name) == common + "empty or not specified";
    assert InvalidMsg(name) == common + "invalid";
    assert EmptyMsg(name)[|common|] == 'e';
    assert InvalidMsg(name)[|common|] == 'i';
  }

  /** The record of `NewError(ErrCodeInvalidParameter, errors.New(msg), WithMsg(msg))`. */
  function ParamError(msg: string): (v: ErrorValue)
    ensures v == ErrorValue(InvalidParameter.Code(), Some(TextError(msg)), msg, [])
    ensures v.HTTPStatus() == 400 && v.Name() == "INVALID_PARAMETER"
    ensures v.ClientMsg() == v.CauseMsg() == msg
    ensures v.details == []
  {
    Wrapped(InvalidParameter.Code(), TextError(msg))
  }

  /**
   * The decision `GetPathInt` takes for the path value `strVal`: an empty
   * value is refused before it is parsed, a value `atoi` (standing for
   * `strconv.Atoi`) rejects is refused next, and any other value is its
   * parsed integer. An error carries its message.
   */
  function PathOutcome(name: string, strVal: string, atoi: string -> Option<Int64>): (r: Result<Int64, string>)
    ensures strVal == "" ==> r == Err(EmptyMsg(name))
    ensures strVal != "" && atoi(strVal).None? ==> r == Err(InvalidMsg(name))
    ensures strVal != "" && atoi(strVal).Some? ==> r == Ok(atoi(strVal).value)
  {
    if strVal == "" then Err(EmptyMsg(name))
    else match atoi(strVal)
      case None => Err(InvalidMsg(name))
      case Some(n) => Ok(n)
  }

  /** An empty value gets the "empty" message whatever the parser would say of it, never the "invalid" one. */
  lemma EmptyCheckedFirst(name: string, atoi: string -> Option<Int64>)
    ensures PathOutcome(name, "", atoi) == Err(EmptyMsg(name))
    ensures PathOutcome(name, "", atoi) != Err(InvalidMsg(name))
  {
    EmptyMsgIsNotInvalidMsg(name);
  }

  /**
   * `GetPathInt(c, name)` with `strVal` the value `c.Params.ByName(name)`
   * returns: the parsed integer and no error, or 0 and a new
   * INVALID_PARAMETER error whose client message is its cause's message.
   */
  method GetPathInt(strVal: string, name: string, atoi: string -> Option<Int64>) returns (intVal: Int64, err: Error?)
    ensures PathOutcome(name, strVal, atoi).Ok? ==>
      err == null && intVal == PathOutcome(name, strVal, atoi).value
    ensures PathOutcome(name, strVal, atoi).Err? ==>
      intVal == 0 && err != null && fresh(err) &&
      err.State() == ParamError(PathOutcome(name, strVal, atoi).error)
  {
    if strVal == "" {
      var msg := EmptyMsg(name);
      err := NewError(InvalidParameter.Code(), Some(TextError(msg)), [WithMsg(msg)]);
      return 0, err;
    }
    var parsed := atoi(strVal);
    if parsed.None? {
      var msg := InvalidMsg(name);
      err := NewError(InvalidParameter.Code(), Some(TextError(msg)), [WithMsg(msg)]);
      return 0, err;
    }
    return parsed.value, null;
  }
}
