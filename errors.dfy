/**
 * The error-code table and the error values the client hands back (errors.go).
 */
module RpcErrors {
  import opened Wrappers
  import opened Proto

  const ParseError: Int16 := -32700
  const InvalidRequest: Int16 := -32600
  const MethodNotFound: Int16 := -32601
  const InvalidParams: Int16 := -32602
  const InternalError: Int16 := -32603
  const ServerError: Int16 := -32000
  /** The one custom code: a business-logic error returned on purpose by a handler. */
  const LogicErr: Int16 := -32001

  /** The standard messages; `LogicErr` has none, its message is the handler's. */
  const Errors: map<Int16, string> := map[
    ParseError := "Parse Error",
    InvalidRequest := "Invalid Request",
    MethodNotFound := "Method not found",
    InvalidParams := "Invalid params",
    InternalError := "Internal error",
    ServerError := "Server error"
  ]

  /** The seven codes the package defines. */
  const Codes: seq<Int16> := [ParseError, InvalidRequest, MethodNotFound, InvalidParams, InternalError, ServerError, LogicErr]

  /** Section 5.1 of JSON-RPC 2.0: -32768 to -32000 are reserved for pre-defined errors. */
  predicate ReservedByJsonRpc(code: int)
  {
    -32768 <= code <= -32000
  }

  /** Section 5.1 of JSON-RPC 2.0: -32099 to -32000 are implementation-defined server errors. */
  predicate ImplementationDefined(code: int)
  {
    -32099 <= code <= -32000
  }

  /** The five errors section 5.1 of JSON-RPC 2.0 names, with their codes. */
  function StandardCode(name: string): Option<int>
  {
    match name
    case "Parse error" => Some(-32700)
    case "Invalid Request" => Some(-32600)
    case "Method not found" => Some(-32601)
    case "Invalid params" => Some(-32602)
    case "Internal error" => Some(-32603)
    case _ => None
  }

  /** The seven codes are pairwise distinct. */
  lemma CodesDistinct()
    ensures forall i, j :: 0 <= i < j < |Codes| ==> Codes[i] != Codes[j]
  {
  }

  /**
   * The five standard codes are the ones section 5.1 of JSON-RPC 2.0 assigns;
   * `ServerError` and `LogicErr` lie in its implementation-defined range, and no
   * standard code does. Every code is reserved by the standard and fits `Int16`.
   */
  lemma CodesFollowJsonRpc()
    ensures StandardCode("Parse error") == Some(ParseError as int)
    ensures StandardCode("Invalid Request") == Some(InvalidRequest as int)
    ensures StandardCode("Method not found") == Some(MethodNotFound as int)
    ensures StandardCode("Invalid params") == Some(InvalidParams as int)
    ensures StandardCode("Internal error") == Some(InternalError as int)
    ensures ImplementationDefined(ServerError) && ImplementationDefined(LogicErr)
    ensures forall c :: c in Codes[..5] ==> !ImplementationDefined(c)
    ensures forall c :: c in Codes ==> ReservedByJsonRpc(c)
  {
  }

  /** `Errors` has a message for exactly the six codes other than `LogicErr`. */
  lemma ErrorsTable()
    ensures Errors.Keys == set c | c in Codes && c != LogicErr
    ensures LogicErr !in Errors
  {
  }

  /** A business-logic error; it carries only the handler's message. */
  datatype LogicError = LogicError(message: string)
  {
    /** `LogicError.Error()`: the stored message, verbatim. */
    function Error(): (s: string)
      ensures s == message
    {
      message
    }
  }

  /**
   * The Go `error` values the client returns.
   * `NoLiveUpstreams` is `ErrorNoLiveUpstreams`, `Logic` a `*LogicError`, and
   * `Plain` any other error, known only by the text of its `Error()`.
   */
  datatype Failure =
    | NoLiveUpstreams
    | Logic(logic: LogicError)
    | Plain(text: string)
}
