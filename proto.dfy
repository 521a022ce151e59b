/**
 * The JSON-RPC 2.0 envelopes shared by the client and the server (proto.go).
 * JSON itself is not modelled: a JSON value the system never looks into is an
 * opaque `Value`, and an undecoded byte payload is a `RawMessage`.
 */
module Proto {
  import opened Wrappers

  /** Go's `int16`, the type of `Error.Code`. */
  type Int16 = x: int | -0x8000 <= x < 0x8000

  /** An opaque JSON value (Go's `interface{}` result), known by its encoding. */
  datatype Value = Value(json: string)

  /** Undecoded JSON bytes (Go's `json.RawMessage`). */
  datatype RawMessage = RawMessage(bytes: seq<bv8>)

  /** The concrete Go type behind a `Params` value, known by its name. */
  datatype ParamsType = ParamsType(name: string)

  /** The parameter type with no fields that the package itself provides. */
  const EmptyParamsType := ParamsType("jsonrpc2.EmptyParams")

  /**
   * A value of some concrete type implementing the `Params` interface.
   * `verdict` is what that type's own `IsValid` method reports for this value;
   * `EmptyParams` ignores it.
   */
  datatype Params = Params(typ: ParamsType, fields: Value, verdict: bool)

  /** `Params.IsValid`, dispatched on the concrete type. */
  predicate IsValid(p: Params): (valid: bool)
    ensures p.typ == EmptyParamsType ==> valid
    ensures p.typ != EmptyParamsType ==> (valid <==> p.verdict)
  {
    if p.typ == EmptyParamsType then true else p.verdict
  }

  /** `EmptyParams.IsValid` accepts every value. */
  lemma EmptyParamsAlwaysValid(p: Params)
    requires p.typ == EmptyParamsType
    ensures IsValid(p)
  {
  }

  /** The client-side request envelope; the id is an opaque correlation string. */
  datatype Request = Request(jsonrpc: string, requestId: string, methodName: string, params: Params)

  /**
   * The server-side view of a request: the same envelope with `params` kept as
   * raw, undecoded bytes (the outer field shadows the typed one of `Request`).
   */
  datatype ServerRequest = ServerRequest(jsonrpc: string, requestId: string, methodName: string, params: RawMessage)

  /** The `error` member. An empty `data` is omitted on the wire. */
  datatype Error = Error(code: Int16, message: string, data: string)

  /**
   * The response envelope. Both `result` and `error` are optional members,
   * omitted when nil, so a success with a nil result carries neither.
   */
  datatype Response = Response(jsonrpc: string, requestId: string, result: Option<Value>, error: Option<Error>)
}
