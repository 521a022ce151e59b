/**
 * The client's view of one attempt answered by this package's own server:
 * what `send` makes of the response `ServeHTTP` writes.
 */
module EndToEnd {
  import opened Wrappers
  import opened Proto
  import opened RpcErrors
  import opened ServerHandler
  import opened ServerRegistry
  import opened ServerDispatch
  import opened RpcClient

  /**
   * The decoding `send` does (client.go:86-98): the response is decoded with
   * its result going into the caller's sink. `resultDecode` says, for a result
   * value, which decode error the client meets, if any: the sink cannot hold
   * that value, or the server could not encode it and wrote nothing. A
   * response without a result decodes whatever the sink is.
   */
  function ClientSees(r: Response, resultDecode: Value -> Option<string>): (o: Outcome)
    ensures o.Decoded? <==> ResultFits(r.result, resultDecode)
    ensures o.Decoded? ==> o.response == r
    ensures o.DecodeFailed? ==> o.err == resultDecode(r.result.value).value
    ensures r.result.None? ==> o == Decoded(r)
  {
    if r.result.Some? && resultDecode(r.result.value).Some? then DecodeFailed(resultDecode(r.result.value).value)
    else Decoded(r)
  }

  /** The client decodes a response carrying `result` without error. */
  predicate ResultFits(result: Option<Value>, resultDecode: Value -> Option<string>)
  {
    result.None? || resultDecode(result.value).None?
  }

  /** The status one attempt ends with when the upstream is this package's server. */
  function Attempt(handlers: map<string, Handler>, req: HttpRequest, unmarshal: Unmarshal,
                   resultDecode: Value -> Option<string>): Status
    requires HandlersConform(handlers)
  {
    SendOnce(ClientSees(ServeHttp(handlers, req, unmarshal), resultDecode))
  }

  /** The plain error an internal-error response becomes on the client's side. */
  const InternalFailure := Failed(Plain(ErrorFmt(InternalError, "Internal error")))

  /**
   * The client stops retrying exactly when the request reached its handler,
   * the handler returned, reflection let the call return, and a result, if
   * any, decodes into the caller's sink; protocol errors, panics and client
   * decode errors send it to the next upstream.
   */
  lemma FinalIffHandlerReturned(handlers: map<string, Handler>, req: HttpRequest, unmarshal: Unmarshal,
                                resultDecode: Value -> Option<string>)
    requires HandlersConform(handlers)
    ensures Final(Attempt(handlers, req, unmarshal, resultDecode)) <==>
      Reaches(handlers, req, unmarshal) && BodyRun(handlers, req, unmarshal).Returns? &&
      ReflectionReturns(Target(handlers, req).fn.sig, BodyRun(handlers, req, unmarshal).err.None?) &&
      (BodyRun(handlers, req, unmarshal).err.None? ==> ResultFits(BodyRun(handlers, req, unmarshal).result, resultDecode))
  {
    SuccessIffHandlerSucceeds(handlers, req, unmarshal);
    LogicErrIffHandlerFails(handlers, req, unmarshal);
  }

  /**
   * A handler's result reaches the caller unchanged when reflection lets the
   * call return and the caller's sink can hold it; a result the sink cannot
   * hold is the decoder's plain error; without reflection returning, the
   * caller sees the internal error.
   */
  lemma ResultDelivered(handlers: map<string, Handler>, req: HttpRequest, unmarshal: Unmarshal,
                        resultDecode: Value -> Option<string>, result: Option<Value>)
    requires HandlersConform(handlers) && Reaches(handlers, req, unmarshal)
    requires BodyRun(handlers, req, unmarshal) == Returns(result, None)
    ensures ReflectionReturns(Target(handlers, req).fn.sig, true) && ResultFits(result, resultDecode) ==>
      Attempt(handlers, req, unmarshal, resultDecode) == Sent(result)
    ensures ReflectionReturns(Target(handlers, req).fn.sig, true) && !ResultFits(result, resultDecode) ==>
      Attempt(handlers, req, unmarshal, resultDecode) == Failed(Plain(resultDecode(result.value).value))
    ensures !ReflectionReturns(Target(handlers, req).fn.sig, true) ==>
      Attempt(handlers, req, unmarshal, resultDecode) == InternalFailure
  {
    SuccessIffHandlerSucceeds(handlers, req, unmarshal);
  }

  /**
   * A handler's error reaches the caller as a `LogicError` with the same text
   * when reflection lets the call return; otherwise the caller sees the
   * internal error. An error response carries no result, so the sink plays no part.
   */
  lemma HandlerErrorDelivered(handlers: map<string, Handler>, req: HttpRequest, unmarshal: Unmarshal,
                              resultDecode: Value -> Option<string>, text: string)
    requires HandlersConform(handlers) && Reaches(handlers, req, unmarshal)
    requires BodyRun(handlers, req, unmarshal).Returns? && BodyRun(handlers, req, unmarshal).err == Some(text)
    ensures ReflectionReturns(Target(handlers, req).fn.sig, false) ==>
      Attempt(handlers, req, unmarshal, resultDecode) == Failed(Logic(LogicError(text))) &&
      Attempt(handlers, req, unmarshal, resultDecode).err.logic.Error() == text
    ensures !ReflectionReturns(Target(handlers, req).fn.sig, false) ==>
      Attempt(handlers, req, unmarshal, resultDecode) == InternalFailure
  {
    LogicErrIffHandlerFails(handlers, req, unmarshal);
  }

  /** Every other server answer reaches the caller as a plain error whose text is `errorFmt` of its code and message. */
  lemma ProtocolErrorDelivered(handlers: map<string, Handler>, req: HttpRequest, unmarshal: Unmarshal,
                               resultDecode: Value -> Option<string>)
    requires HandlersConform(handlers)
    requires !(Reaches(handlers, req, unmarshal) && BodyRun(handlers, req, unmarshal).Returns? &&
      ReflectionReturns(Target(handlers, req).fn.sig, BodyRun(handlers, req, unmarshal).err.None?))
    ensures var r := ServeHttp(handlers, req, unmarshal);
      r.error.Some? && r.error.value.code != LogicErr &&
      Attempt(handlers, req, unmarshal, resultDecode) == Failed(Plain(ErrorFmt(r.error.value.code, Errors[r.error.value.code])))
  {
    SuccessIffHandlerSucceeds(handlers, req, unmarshal);
    LogicErrIffHandlerFails(handlers, req, unmarshal);
  }

  /**
   * Over the corrected dispatcher, the client stops exactly when the handler's
   * body returned and a result, if any, decodes into the caller's sink.
   */
  lemma CorrectedFinalIffHandlerReturned(handlers: map<string, Handler>, req: HttpRequest, unmarshal: Unmarshal,
                                         resultDecode: Value -> Option<string>)
    ensures Final(SendOnce(ClientSees(ServeHttpCorrected(handlers, req, unmarshal), resultDecode))) <==>
      Reaches(handlers, req, unmarshal) && BodyRun(handlers, req, unmarshal).Returns? &&
      (BodyRun(handlers, req, unmarshal).err.None? ==> ResultFits(BodyRun(handlers, req, unmarshal).result, resultDecode))
  {
  }
}
