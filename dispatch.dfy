/**
 * The server's HTTP entry point (server/server_serve_http.go): one request in,
 * exactly one JSON-RPC response out.
 *
 * The HTTP request is reduced to its verb and to what the JSON decoder made
 * of its body. A panic raised while the request is handled is caught by the
 * deferred recovery, which answers with an internal error instead.
 *
 * `ServeHttp` calls the handler as the code does (`CallAsWritten`);
 * `ServeHttpCorrected` is the same dispatcher over the corrected `Call`.
 */
module ServerDispatch {
  import opened Wrappers
  import opened Proto
  import opened RpcErrors
  import opened ServerHandler
  import opened ServerRegistry

  /** What decoding the body into a `ServerRequest` produced; a failed decode may have set the id already. */
  datatype BodyDecoding = Malformed(err: string, partialId: string) | WellFormed(request: ServerRequest)

  datatype HttpRequest = HttpRequest(verb: string, body: BodyDecoding)

  /** An error response carrying the standard message of `code`. */
  function StandardError(requestId: string, code: Int16, data: string): Response
    requires code in Errors
  {
    Response("2.0", requestId, None, Some(Error(code, Errors[code], data)))
  }

  /** The deferred recovery's response: no id, an internal error, and the printed panic value. */
  function PanicResponse(value: string): Response
  {
    StandardError("", InternalError, value)
  }

  /** The id the response to `req` echoes, once the body has been decoded. */
  function EchoedId(req: HttpRequest): string
  {
    match req.body
    case Malformed(_, partialId) => partialId
    case WellFormed(request) => request.requestId
  }

  /** Every response: version "2.0", never both members, codes from the table with their standard messages. */
  predicate WellFormedResponse(r: Response)
  {
    && r.jsonrpc == "2.0"
    && (r.error.Some? ==> r.result.None?)
    && (r.error.Some? ==> r.error.value.code in Codes)
    && (r.error.Some? && r.error.value.code != LogicErr ==>
          r.error.value.code in Errors && r.error.value.message == Errors[r.error.value.code])
  }

  /** The handler registered for the method a decoded request names. */
  function Target(handlers: map<string, Handler>, req: HttpRequest): Handler
    requires req.body.WellFormed? && req.body.request.methodName in handlers
  {
    handlers[req.body.request.methodName]
  }

  /** A request that reaches its handler: a POST, decoded, for a registered method, with params decoded and valid. */
  predicate Reaches(handlers: map<string, Handler>, req: HttpRequest, unmarshal: Unmarshal)
  {
    && req.verb == "POST"
    && req.body.WellFormed?
    && req.body.request.methodName in handlers
    && var d := DecodeParams(Target(handlers, req), req.body.request.params, unmarshal);
       d.ParamsDecoded? && IsValid(d.params)
  }

  /** The params a request that reaches its handler is called with. */
  function ParamsOf(handlers: map<string, Handler>, req: HttpRequest, unmarshal: Unmarshal): Params
    requires Reaches(handlers, req, unmarshal)
  {
    DecodeParams(Target(handlers, req), req.body.request.params, unmarshal).params
  }

  /** What the handler's body does with the params of a request that reaches it. */
  function BodyRun(handlers: map<string, Handler>, req: HttpRequest, unmarshal: Unmarshal): BodyOutcome
    requires Reaches(handlers, req, unmarshal)
  {
    Target(handlers, req).fn.body(ParamsOf(handlers, req, unmarshal))
  }

  /** How far a request gets before its handler is called: already answered, or ready to call. */
  datatype Stage = Answered(response: Response) | Ready(handler: Handler, params: Params, requestId: string)

  /** Lines 31-91 and 113-124 of `ServeHTTP`: every answer given before the handler is called. */
  function Prepare(handlers: map<string, Handler>, req: HttpRequest, unmarshal: Unmarshal): (s: Stage)
    ensures s.Ready? <==> Reaches(handlers, req, unmarshal)
    ensures s.Ready? ==>
      s == Ready(Target(handlers, req), ParamsOf(handlers, req, unmarshal), req.body.request.requestId)
    ensures s.Answered? ==> WellFormedResponse(s.response) && s.response.error.Some?
  {
    if req.verb != "POST" then Answered(StandardError("", InvalidRequest, ""))
    else match req.body
      case Malformed(err, partialId) => Answered(StandardError(partialId, ParseError, err))
      case WellFormed(request) =>
        if request.methodName !in handlers then Answered(StandardError(request.requestId, MethodNotFound, ""))
        else
          var h := handlers[request.methodName];
          match DecodeParams(h, request.params, unmarshal)
          case DecodePanicked(v) => Answered(PanicResponse(v))
          case ParamsRejected(err) => Answered(StandardError(request.requestId, ParseError, err))
          case ParamsDecoded(params) =>
            if !IsValid(params) then Answered(StandardError(request.requestId, InvalidParams, ""))
            else Ready(h, params, request.requestId)
  }

  /** Lines 93-111 and the recovery: the response to what calling the handler produced. */
  function Respond(requestId: string, call: Invocation): (r: Response)
    ensures WellFormedResponse(r)
    ensures r.error.None? <==> call.Returned? && call.err.None?
    ensures r.error.Some? && r.error.value.code == LogicErr <==> call.Returned? && call.err.Some?
    ensures call.Panicked? ==> r == PanicResponse(call.value)
  {
    match call
    case Panicked(v) => PanicResponse(v)
    case Returned(result, err) =>
      if err.None? then Response("2.0", requestId, result, None)
      else Response("2.0", requestId, None, Some(Error(LogicErr, err.value, "")))
  }

  /**
   * `ServeHTTP` over the registered handlers, as written. The decoder oracle
   * `unmarshal` stands for `json.Unmarshal` into a fresh value of the
   * handler's parameter type.
   */
  function ServeHttp(handlers: map<string, Handler>, req: HttpRequest, unmarshal: Unmarshal): (r: Response)
    requires HandlersConform(handlers)
    ensures WellFormedResponse(r)
    ensures req.verb != "POST" ==> r == StandardError("", InvalidRequest, "")
    ensures r.error.Some? && r.error.value.code == InternalError <==>
      req.verb == "POST" && req.body.WellFormed? && req.body.request.methodName in handlers &&
      var h := Target(handlers, req);
      var d := DecodeParams(h, req.body.request.params, unmarshal);
      d.DecodePanicked? || (d.ParamsDecoded? && IsValid(d.params) && CallAsWritten(h, d.params).Panicked?)
    ensures r.error.Some? && r.error.value.code == InternalError ==> r.requestId == ""
    ensures req.verb == "POST" && !(r.error.Some? && r.error.value.code == InternalError) ==>
      r.requestId == EchoedId(req)
  {
    match Prepare(handlers, req, unmarshal)
    case Answered(response) => response
    case Ready(h, params, requestId) => Respond(requestId, CallAsWritten(h, params))
  }

  /** The dispatcher over the corrected `Call`, which every registered handler can answer through. */
  function ServeHttpCorrected(handlers: map<string, Handler>, req: HttpRequest, unmarshal: Unmarshal): (r: Response)
    ensures WellFormedResponse(r)
    ensures r.error.None? <==>
      Reaches(handlers, req, unmarshal) && BodyRun(handlers, req, unmarshal).Returns? &&
      BodyRun(handlers, req, unmarshal).err.None?
    ensures r.error.Some? && r.error.value.code == LogicErr <==>
      Reaches(handlers, req, unmarshal) && BodyRun(handlers, req, unmarshal).Returns? &&
      BodyRun(handlers, req, unmarshal).err.Some?
  {
    match Prepare(handlers, req, unmarshal)
    case Answered(response) => response
    case Ready(h, params, requestId) => Respond(requestId, Call(h, params))
  }

  /** Where every handler takes a pointer and returns nillable results, the two dispatchers agree. */
  lemma DispatchersAgree(handlers: map<string, Handler>, req: HttpRequest, unmarshal: Unmarshal)
    requires forall m :: m in handlers ==>
      Conforms(handlers[m].fn.sig) && handlers[m].fn.sig.ins[0].kind.Pointer? &&
      Nillable(handlers[m].fn.sig.outs[0].kind) && Nillable(handlers[m].fn.sig.outs[1].kind)
    ensures ServeHttp(handlers, req, unmarshal) == ServeHttpCorrected(handlers, req, unmarshal)
  {
    if Reaches(handlers, req, unmarshal) {
      CallAsWrittenAgrees(Target(handlers, req), ParamsOf(handlers, req, unmarshal));
    }
  }

  /**
   * A response without an error is sent exactly when the handler was reached,
   * returned a nil error, and reflection let the call return; it carries the
   * handler's result and the request's id.
   */
  lemma SuccessIffHandlerSucceeds(handlers: map<string, Handler>, req: HttpRequest, unmarshal: Unmarshal)
    requires HandlersConform(handlers)
    ensures ServeHttp(handlers, req, unmarshal).error.None? <==>
      Reaches(handlers, req, unmarshal) && BodyRun(handlers, req, unmarshal).Returns? &&
      BodyRun(handlers, req, unmarshal).err.None? && ReflectionReturns(Target(handlers, req).fn.sig, true)
    ensures ServeHttp(handlers, req, unmarshal).error.None? ==>
      ServeHttp(handlers, req, unmarshal) ==
        Response("2.0", req.body.request.requestId, BodyRun(handlers, req, unmarshal).result, None)
  {
  }

  /**
   * A handler's error becomes the business-logic code with the error's text
   * as message, exactly when reflection let the call return.
   */
  lemma LogicErrIffHandlerFails(handlers: map<string, Handler>, req: HttpRequest, unmarshal: Unmarshal)
    requires HandlersConform(handlers)
    ensures var r := ServeHttp(handlers, req, unmarshal);
      r.error.Some? && r.error.value.code == LogicErr <==>
        Reaches(handlers, req, unmarshal) && BodyRun(handlers, req, unmarshal).Returns? &&
        BodyRun(handlers, req, unmarshal).err.Some? && ReflectionReturns(Target(handlers, req).fn.sig, false)
    ensures var r := ServeHttp(handlers, req, unmarshal);
      r.error.Some? && r.error.value.code == LogicErr ==>
        r == Response("2.0", req.body.request.requestId, None,
          Some(Error(LogicErr, BodyRun(handlers, req, unmarshal).err.value, "")))
  {
  }

  /**
   * A panic in the handler's body is answered by the recovery with the
   * printed panic value; so is the reflection panic of a handler whose
   * parameter is not a pointer, whatever its body does.
   */
  lemma HandlerPanicIsInternalError(handlers: map<string, Handler>, req: HttpRequest, unmarshal: Unmarshal)
    requires HandlersConform(handlers) && Reaches(handlers, req, unmarshal)
    ensures Target(handlers, req).fn.sig.ins[0].kind.Pointer? && BodyRun(handlers, req, unmarshal).Panics? ==>
      ServeHttp(handlers, req, unmarshal) == PanicResponse(BodyRun(handlers, req, unmarshal).value)
    ensures !Target(handlers, req).fn.sig.ins[0].kind.Pointer? ==>
      ServeHttp(handlers, req, unmarshal) == PanicResponse(CallTypePanic(Target(handlers, req)))
  {
  }

  /** A body that cannot be decoded is a parse error carrying the decoder's message. */
  lemma MalformedBodyIsParseError(handlers: map<string, Handler>, req: HttpRequest, unmarshal: Unmarshal)
    requires HandlersConform(handlers)
    requires req.verb == "POST" && req.body.Malformed?
    ensures ServeHttp(handlers, req, unmarshal) ==
      Response("2.0", req.body.partialId, None, Some(Error(ParseError, "Parse Error", req.body.err)))
  {
  }

  /** An unregistered method is reported as not found, whatever its params. */
  lemma UnknownMethodNotFound(handlers: map<string, Handler>, req: HttpRequest, unmarshal: Unmarshal)
    requires HandlersConform(handlers)
    requires req.verb == "POST" && req.body.WellFormed?
    ensures var r := ServeHttp(handlers, req, unmarshal);
      r.error.Some? && r.error.value.code == MethodNotFound <==> req.body.request.methodName !in handlers
  {
  }

  /**
   * Params the decoder rejects are a parse error with its message; params that
   * decode but fail `IsValid` are invalid params; in neither case is the
   * handler's function consulted.
   */
  lemma ParamsErrors(handlers: map<string, Handler>, req: HttpRequest, unmarshal: Unmarshal)
    requires HandlersConform(handlers)
    requires req.verb == "POST" && req.body.WellFormed? && req.body.request.methodName in handlers
    ensures var d := DecodeParams(Target(handlers, req), req.body.request.params, unmarshal);
      var r := ServeHttp(handlers, req, unmarshal);
      (d.ParamsRejected? ==> r == StandardError(req.body.request.requestId, ParseError, d.err)) &&
      (d.ParamsDecoded? && !IsValid(d.params) ==> r == StandardError(req.body.request.requestId, InvalidParams, ""))
  {
  }

  /** `"params": null` makes the type assertion panic, and the recovery answers with an internal error. */
  lemma NullParamsIsInternalError(handlers: map<string, Handler>, req: HttpRequest, unmarshal: Unmarshal)
    requires HandlersConform(handlers)
    requires req.verb == "POST" && req.body.WellFormed? && req.body.request.methodName in handlers
    requires unmarshal(Target(handlers, req).params, req.body.request.params).UnmarshalledNull?
    ensures ServeHttp(handlers, req, unmarshal) == PanicResponse(NilParamsPanic)
  {
  }

  /** Registering more methods changes nothing for requests to methods already registered. */
  lemma MoreHandlersSameAnswer(handlers: map<string, Handler>, more: map<string, Handler>, req: HttpRequest, unmarshal: Unmarshal)
    requires HandlersConform(handlers) && HandlersConform(more)
    requires handlers.Keys <= more.Keys
    requires forall m :: m in handlers ==> more[m] == handlers[m]
    requires req.body.WellFormed? && req.body.request.methodName in handlers
    ensures ServeHttp(more, req, unmarshal) == ServeHttp(handlers, req, unmarshal)
  {
  }
}
