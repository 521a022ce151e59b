/**
 * A registered handler and the two things the dispatcher asks of it
 * (server/handler.go): decoding raw params into a fresh value of the
 * handler's parameter type, and calling it.
 *
 * Reflection is replaced by what it reports about a type (`TypeFacts`), the
 * JSON decoder by an oracle (`Unmarshal`), and a Go function value by its
 * signature and its behaviour (`Func`).
 */
module ServerHandler {
  import opened Wrappers
  import opened Proto

  /** The kind of a Go type, as far as calling through reflection cares. */
  datatype Kind = Pointer | Interface | OtherNillable | NotNillable(kindName: string)

  /** `reflect.Value.IsNil` accepts chan, func, interface, map, pointer and slice values only. */
  predicate Nillable(k: Kind)
  {
    !k.NotNillable?
  }

  /**
   * What reflection reports about a parameter or result type. For a pointer
   * type `name` is the name of the type pointed to.
   */
  datatype TypeFacts = TypeFacts(name: string, kind: Kind, implementsParams: bool, implementsError: bool)

  /** The parameter and result types of a function. */
  datatype Signature = Signature(ins: seq<TypeFacts>, outs: seq<TypeFacts>)

  /** The handler shape: one `Params` parameter, two results, the second an `error`. */
  predicate Conforms(sig: Signature)
  {
    |sig.ins| == 1 && |sig.outs| == 2 && sig.ins[0].implementsParams && sig.outs[1].implementsError
  }

  /**
   * What running a handler's body produced: its two results (None stands for
   * nil; an error is known by its `Error()` text), or a panic, known by its
   * printed value.
   */
  datatype BodyOutcome = Returns(result: Option<Value>, err: Option<string>) | Panics(value: string)

  /** A Go function value. */
  datatype Func = Func(sig: Signature, body: Params -> BodyOutcome)

  /** `handler`: the function and the prototype of its parameter type. */
  datatype Handler = Handler(fn: Func, params: ParamsType)

  /**
   * What the JSON decoder makes of raw params aimed at a fresh value of a
   * parameter type: an error, the literal `null` (which resets the target
   * interface to nil), or the decoded fields with the verdict `IsValid` gives.
   */
  datatype Unmarshalled = UnmarshalFailed(err: string) | UnmarshalledNull | UnmarshalledValue(fields: Value, verdict: bool)

  type Unmarshal = (ParamsType, RawMessage) -> Unmarshalled

  /** What `DecodeParams` returns: params, or nil and the decoder's error, or a panic. */
  datatype Decoding = ParamsDecoded(params: Params) | ParamsRejected(err: string) | DecodePanicked(value: string)

  /** The panic of asserting a nil interface to `Params`. */
  const NilParamsPanic := "interface conversion: interface is nil, not jsonrpc2.Params"

  /**
   * `DecodeParams`: decodes into a fresh value of the prototype's type, never
   * into the prototype itself (which, as a value here, cannot change).
   */
  function DecodeParams(h: Handler, raw: RawMessage, unmarshal: Unmarshal): (r: Decoding)
    ensures r.ParamsDecoded? ==> r.params.typ == h.params
    ensures r.ParamsDecoded? <==> unmarshal(h.params, raw).UnmarshalledValue?
    ensures r.ParamsRejected? <==> unmarshal(h.params, raw).UnmarshalFailed?
    ensures r.ParamsRejected? ==> r.err == unmarshal(h.params, raw).err
    ensures r.ParamsDecoded? ==>
      r.params == Params(h.params, unmarshal(h.params, raw).fields, unmarshal(h.params, raw).verdict)
    ensures r.DecodePanicked? ==> r.value == NilParamsPanic
  {
    match unmarshal(h.params, raw)
    case UnmarshalFailed(err) => ParamsRejected(err)
    case UnmarshalledNull => DecodePanicked(NilParamsPanic)
    case UnmarshalledValue(fields, verdict) => ParamsDecoded(Params(h.params, fields, verdict))
  }

  /** Decoding looks at the prototype only, never at the handler's function. */
  lemma DecodeIgnoresFunction(f1: Func, f2: Func, pt: ParamsType, raw: RawMessage, unmarshal: Unmarshal)
    ensures DecodeParams(Handler(f1, pt), raw, unmarshal) == DecodeParams(Handler(f2, pt), raw, unmarshal)
  {
  }

  /** What `Call` returns: a result and an error (None for nil), or a panic. */
  datatype Invocation = Returned(result: Option<Value>, err: Option<string>) | Panicked(value: string)

  function IsNilPanic(kindName: string): string
  {
    "reflect: call of reflect.Value.IsNil on " + kindName + " Value"
  }

  function CallTypePanic(h: Handler): string
  {
    "reflect: Call using *" + h.params.name + " as type " + h.params.name
  }

  /**
   * Whether, as written, reflection lets a body that returned normally return
   * from `Call`: the parameter must be a pointer, the error result nillable,
   * and, when the error is nil, the first result nillable too.
   */
  predicate ReflectionReturns(sig: Signature, errIsNil: bool)
    requires Conforms(sig)
  {
    sig.ins[0].kind.Pointer? && Nillable(sig.outs[1].kind) && (errIsNil ==> Nillable(sig.outs[0].kind))
  }

  /**
   * `handler.Call` as written. The decoded params are always a pointer, so
   * reflection panics unless the parameter is a pointer type; `IsNil` panics on
   * a result whose kind is not nillable.
   */
  function CallAsWritten(h: Handler, p: Params): (r: Invocation)
    requires Conforms(h.fn.sig)
    ensures r.Returned? ==> r == Call(h, p)
    ensures r.Returned? <==>
      h.fn.body(p).Returns? && ReflectionReturns(h.fn.sig, h.fn.body(p).err.None?)
    ensures !h.fn.sig.ins[0].kind.Pointer? ==> r == Panicked(CallTypePanic(h))
    ensures h.fn.sig.ins[0].kind.Pointer? && h.fn.body(p).Panics? ==> r == Panicked(h.fn.body(p).value)
  {
    var sig := h.fn.sig;
    if !sig.ins[0].kind.Pointer? then Panicked(CallTypePanic(h))
    else match h.fn.body(p)
      case Panics(v) => Panicked(v)
      case Returns(result, err) =>
        if !Nillable(sig.outs[1].kind) then Panicked(IsNilPanic(sig.outs[1].kind.kindName))
        else if err.None? then
          if !Nillable(sig.outs[0].kind) then Panicked(IsNilPanic(sig.outs[0].kind.kindName))
          else if result.None? then Returned(None, None)
          else Returned(result, None)
        else Returned(None, err)
  }

  /**
   * `handler.Call`, corrected so that every handler registration accepts can
   * be called: a non-nil error discards the result, otherwise the result is
   * returned unchanged (nil included), and only the body itself can panic.
   */
  function Call(h: Handler, p: Params): (r: Invocation)
    ensures r.Panicked? <==> h.fn.body(p).Panics?
    ensures r.Panicked? ==> r.value == h.fn.body(p).value
    ensures r.Returned? && r.err.Some? ==> r.result.None? && r.err == h.fn.body(p).err
    ensures r.Returned? && r.err.None? ==> h.fn.body(p) == Returns(r.result, None)
  {
    match h.fn.body(p)
    case Panics(v) => Panicked(v)
    case Returns(result, err) => if err.Some? then Returned(None, err) else Returned(result, None)
  }

  /**
   * Where the parameter is a pointer and both results are nillable, the code
   * as written and the corrected `Call` agree.
   */
  lemma CallAsWrittenAgrees(h: Handler, p: Params)
    requires Conforms(h.fn.sig)
    requires h.fn.sig.ins[0].kind.Pointer?
    requires Nillable(h.fn.sig.outs[0].kind) && Nillable(h.fn.sig.outs[1].kind)
    ensures CallAsWritten(h, p) == Call(h, p)
  {
  }

  const EmptyParamsValue := TypeFacts("jsonrpc2.EmptyParams", NotNillable("struct"), true, false)
  const EmptyParamsPointer := TypeFacts("jsonrpc2.EmptyParams", Pointer, true, false)
  const AnyValue := TypeFacts("interface {}", Interface, false, false)
  const StringValue := TypeFacts("string", NotNillable("string"), false, false)
  const ErrorValue := TypeFacts("error", Interface, false, true)

  /**
   * A handler taking `jsonrpc2.EmptyParams` by value has the handler shape,
   * yet as written every call of it panics, even when its body returns normally.
   */
  lemma ValueParamsHandlerPanics(h: Handler, p: Params, answer: Value)
    requires h.fn.sig == Signature([EmptyParamsValue], [AnyValue, ErrorValue])
    requires h.params == EmptyParamsType
    requires h.fn.body(p) == Returns(Some(answer), None)
    ensures Conforms(h.fn.sig)
    ensures CallAsWritten(h, p) == Panicked("reflect: Call using *" + "jsonrpc2.EmptyParams" + " as type " + "jsonrpc2.EmptyParams")
    ensures Call(h, p) == Returned(Some(answer), None)
  {
  }

  /**
   * A handler whose first result is a `string` has the handler shape, yet as
   * written each successful call of it panics in `IsNil`.
   */
  lemma StringResultHandlerPanics(h: Handler, p: Params, answer: Value)
    requires h.fn.sig == Signature([EmptyParamsPointer], [StringValue, ErrorValue])
    requires h.fn.body(p) == Returns(Some(answer), None)
    ensures Conforms(h.fn.sig)
    ensures CallAsWritten(h, p) == Panicked("reflect: call of reflect.Value.IsNil on string Value")
    ensures Call(h, p) == Returned(Some(answer), None)
  {
  }
}
