# jsonrpc2 in Dafny

A model of the Go JSON-RPC 2.0 client/server library `kshvakov/jsonrpc2`.
Each part gets its own module:

- `RoundRobin` (`balancer.go`): the client's round-robin address pool, a
  class holding the address list and the cursor. `Next` resets the cursor to
  0 once it has run past the end, returns the address there and always
  advances the cursor. A refresh replaces the list or keeps it.
- `RpcClient` (`client.go`): the client's send/retry policy.
  - `Send` is a loop over at most `len()` attempts, each on the address the
    next `next()` call returns. It stops at the first success or the first
    business-logic error; otherwise it returns the last attempt's error.
  - One attempt (`send`) classifies the response. Code `LogicErr` becomes a
    `LogicError`; any other code becomes the text `"<code>:<message>"`
    (`errorFmt`). `Decimal` holds the `%d` rendering and its inverse, so that
    text can be read back.
- `RpcErrors` (`errors.go`) and `Proto` (`proto.go`): the error-code table,
  `LogicError`, and the request/response envelopes of sections 4 and 5 of the
  JSON-RPC 2.0 specification.
- `ServerHandler` (`server/handler.go`): a registered handler.
  `DecodeParams` decodes raw params into a fresh value of the handler's
  parameter type. `CallAsWritten` is `Call` as the code has it, reflection
  panics included; `Call` is the corrected version, which normalises the
  handler's `(result, error)` pair for every handler registration accepts.
- `ServerRegistry` (`server/server.go`): the method table, a class whose map
  `RegisterFunc` and `RegisterObject` fill.
- `ServerDispatch` (`server/server_serve_http.go`): `ServeHTTP`, a total
  function from the facts of one HTTP request to exactly one JSON-RPC
  response. Its panic recovery is one more branch. `ServeHttp` calls the
  handler through `CallAsWritten`; `ServeHttpCorrected` is the same
  dispatcher over the corrected `Call`.
- `EndToEnd`: what the client's attempt makes of the response this package's
  own server writes.

Foreign machinery becomes inputs to the model:

- The HTTP transport is an oracle from an address to an outcome: a transport
  error, an undecodable body, or a decoded response.
- `encoding/json` decoding of params is an oracle (`Unmarshal`). It fails,
  meets the literal `null`, or yields a value together with what that value's
  `IsValid` says.
- Go reflection is replaced by what it reports about a type (`TypeFacts`: its
  kind, whether it implements `Params`, whether it implements `error`).
- A handler's Go function is its signature plus its behaviour on each params
  value.
- A panic is a returned message: `fault` in the registry, `Panicked` /
  `DecodePanicked` in the handler.

A description of the pool that takes the cursor modulo the list length
disagrees with the code. When a refresh has shrunk the list below the cursor,
`balancer.go:61-64` restarts at 0. The model follows the code, and
`RoundRobin.ShrunkPoolRestartsAtFront` exhibits the difference.

## Model

| member | source | states |
|---|---|---|
| `RoundRobin.IndexFor` | balancer.go:61-66 | the index `next` reads is always in bounds; it is the cursor while the cursor is inside the list, and 0 once the cursor is at or past the end |
| `RoundRobin.Schedule` | balancer.go:45-67 | `k` successive `next` calls return exactly `k` addresses |
| `RoundRobin.Balancer.constructor` | balancer.go:12-27 | a successful discovery seeds the address list; a failed one leaves it empty; the cursor starts at 0 |
| `RoundRobin.Balancer.Len` | balancer.go:36-43 | returns the current number of addresses and changes nothing |
| `RoundRobin.Balancer.Next` | balancer.go:45-67 | never changes the list; an empty pool fails with `NoLiveUpstreams` and still advances the cursor; otherwise returns the address at the in-bounds index and leaves the cursor one past it |
| `RoundRobin.Balancer.Refresh` | balancer.go:75-82 | a successful discovery replaces the list wholesale; a failed one keeps it; the cursor is never touched |
| `RoundRobin.CursorWalk` | balancer.go:49-64 | within two laps the cursor climbs by one per call from the start index up to the list length, then restarts from 1 |
| `RoundRobin.IndexAt` | balancer.go:49-66 | the `j`-th call reads the index `j` places after the start index, wrapping once |
| `RoundRobin.ScheduleIsRotation` | balancer.go:45-67 | the `j`-th address returned is the one `j` places after the start index, cyclically |
| `RoundRobin.SchedulePrefix` | balancer.go:45-67 | the first `i` of `k` calls return what `i` calls alone return |
| `RoundRobin.ScheduleAt` | balancer.go:45-67 | for every `i < k`, the `i`-th of `k` calls returns the address at the in-bounds index read under the cursor that the `i` calls before it left |
| `RoundRobin.FreshPoolOrder` | balancer.go:45-67 | from a fresh pool of N addresses, N calls return the list in order and the next N repeat it |
| `RoundRobin.OneLapIsRotation` | balancer.go:45-67 | N calls from any cursor return the list rotated to start at the index the first call reads |
| `RoundRobin.OneLapCoversPool` | balancer.go:45-67 | N calls from any cursor visit every address exactly as often as it occurs in the list |
| `RoundRobin.ShrunkPoolRestartsAtFront` | balancer.go:61-64 | after the list shrinks to or below the cursor, the next call returns the first address; this in general differs from the address at the cursor modulo the length (cursor 3 on `["a", "b"]` gives `"a"`, not `"b"`) |
| `RoundRobin.ResetAgreesWithModulo` | balancer.go:61-66 | while the cursor is at most the list length, it stays at most the list length, and reset-to-0 reads the same index as the cursor modulo the length |
| `RpcErrors.CodesDistinct` | errors.go:3-11 | the seven error codes are pairwise distinct |
| `RpcErrors.CodesFollowJsonRpc` | errors.go:3-11 | the five standard codes are the ones section 5.1 of JSON-RPC 2.0 assigns; `ServerError` and `LogicErr` lie in its implementation-defined range and no standard code does; every code is reserved by the standard and fits `int16` |
| `RpcErrors.ErrorsTable` | errors.go:13-20 | the message table has an entry for exactly the six codes other than `LogicErr` |
| `RpcErrors.LogicError.Error` | errors.go:26-29 | returns the stored message verbatim |
| `Proto.IsValid` | proto.go:11-16 | `EmptyParams` accepts every value; any other params type answers with its own verdict |
| `Proto.EmptyParamsAlwaysValid` | proto.go:11-16 | `EmptyParams` is valid whatever its value |
| `Decimal.NatToString` | client.go:113-116 | `%d` of a natural number is a non-empty string of decimal digits; it starts with `0` only for zero, and is one digit long exactly below 10 (no leading zero) |
| `Decimal.IntToString` | client.go:113-116 | `%d` of an integer is non-empty and starts with a minus sign exactly when the integer is negative |
| `Decimal.IntToStringDigits` | client.go:113-116 | after the optional sign `%d` writes at least one digit and only digits, with no leading zero, and writes `"0"` exactly for zero |
| `Decimal.ParseNatToString` | client.go:113-116 | the digits `%d` writes for a natural number read back as that number |
| `Decimal.ParseIntToString` | client.go:113-116 | what `%d` writes for any integer, sign included, reads back as that integer |
| `Decimal.NoColon` | client.go:113-116 | `%d` never writes a colon, so the first colon of an `errorFmt` text ends the code |
| `RpcClient.ErrorFmt` | client.go:113-116 | the text is the code's decimal rendering, then a colon, then the message verbatim; its first colon is the one right after the code |
| `RpcClient.ErrorFmtRoundTrip` | client.go:113-116 | `errorFmt` loses nothing: splitting its text at the first colon gives back the code and the message |
| `RpcClient.SendOnce` | client.go:77-111 | succeeds iff the response decoded and has no error member, passing its result on; transport and decode errors come back unchanged; it yields a `LogicError` carrying the server's message iff the code is `LogicErr`; any other code gives a plain error whose text is exactly `errorFmt` of that code and message, and reads back as them; it never yields `NoLiveUpstreams` |
| `RpcClient.Retry` | client.go:52-74 | makes between 1 and N attempts in address order; returns the status of the last attempt made; every earlier attempt was neither a success nor a logic error; it stops early only on a success or a logic error |
| `RpcClient.RetryStopsAt` | client.go:52-74 | conversely, the first attempt that succeeds or fails with a logic error ends the call, and so does the last available one |
| `RpcClient.Client.constructor` | client.go:21-29 | a new client owns a fresh pool seeded by one discovery, cursor at 0 |
| `RpcClient.Client.Send` | client.go:36-75 | an empty pool fails with `NoLiveUpstreams` without an attempt and without moving the cursor; otherwise the result is the retry policy over the addresses that successive `next` calls return, and the cursor has advanced once per attempt made; the address list is unchanged |
| `RpcClient.ThirdUpstreamAnswers` | client.go:52-66 | with two unreachable upstreams and then one that answers, a fresh client succeeds on its third attempt |
| `RpcClient.LastErrorIsReturned` | client.go:52-74 | one two-address instance: an unreachable upstream, then one answering with a non-logic error, gives that error formatted as code and message after two attempts (the general statement is `RpcClient.Retry`'s contract) |
| `RpcClient.LogicErrorIsNotRetried` | client.go:68-71 | a first answer with code `LogicErr`, whatever the rest of its envelope, ends the call after one attempt with a `LogicError` carrying its message, whatever the other upstreams would answer |
| `ServerHandler.DecodeParams` | server/handler.go:14-24 | decoded params have the handler's parameter type and carry exactly the fields and the `IsValid` verdict the decoder produced; decoding succeeds, fails with the decoder's own error, or panics (on `null`) exactly as the decoder reports |
| `ServerHandler.DecodeIgnoresFunction` | server/handler.go:14-16 | decoding depends only on the stored prototype's type, never on the handler's function |
| `ServerHandler.CallAsWritten` | server/handler.go:26-41 | as written, `Call` returns exactly when the body returns, the parameter is a pointer, the error result is nillable and, for a nil error, the first result is nillable too; it then agrees with the corrected `Call`; a non-pointer parameter always panics in reflection; with a pointer parameter a panicking body panics with its own value |
| `ServerHandler.Call` | server/handler.go:26-41 | panics exactly when the handler's body panics, with the same value; a non-nil error discards the result and is returned as is; otherwise the handler's result is returned unchanged, nil included |
| `ServerHandler.CallAsWrittenAgrees` | server/handler.go:26-41 | for a pointer parameter and nillable results, the code as written and the corrected `Call` coincide |
| `ServerHandler.ValueParamsHandlerPanics` | server/handler.go:26-28 | a handler taking `EmptyParams` by value passes registration, yet as written even a normal return of its body ends in a reflection panic |
| `ServerHandler.StringResultHandlerPanics` | server/handler.go:26-32 | a handler whose first result is a `string` passes registration, yet as written each successful call panics in `IsNil` |
| `ServerRegistry.Register` | server/server.go:40-77 | a name already present panics, whatever is offered; a panic leaves the table as it was; existing entries are never replaced; a function without the handler shape is a silent no-op; the name is added iff it is new and the function has the shape (and its parameter is not an interface), and then it maps to that function with its parameter type |
| `ServerRegistry.ObjectEntries` | server/server.go:27-36 | an object offers at most one registration per method |
| `ServerRegistry.ObjectEntriesExported` | server/server.go:25-38 | exactly the exported methods are offered, each under `name + "." + method name` |
| `ServerRegistry.RegisterAll` | server/server.go:25-38 | a sequence of registrations, stopping at the first panic, never removes a name and registers only functions with the handler shape |
| `ServerRegistry.RegisterFreshStep` | server/server.go:42-71 | one function offered under a fresh name never panics, and adds one entry exactly when it has the handler shape |
| `ServerRegistry.RegisterFresh` | server/server.go:40-77 | functions under fresh, distinct names never panic, and add exactly the names whose function has the handler shape |
| `ServerRegistry.RegisterAllKeeps` | server/server.go:40-77 | any sequence of registrations keeps every earlier entry, unchanged |
| `ServerRegistry.RegisterFreshCount` | server/server.go:40-77 | N conforming functions under distinct fresh names grow the table by exactly N |
| `ServerRegistry.ResultTypeUnconstrained` | server/server.go:51-59 | the type of a handler's first result plays no part in registration |
| `ServerRegistry.FaultStops` | server/server.go:25-38 | once a registration panics, no later registration takes place |
| `ServerRegistry.Server.constructor` | server/server.go:9-14 | a new server has an empty handler table |
| `ServerRegistry.Server.AddHandler` | server/server.go:40-77 | the live table and the panic are exactly those of `Register` on the old table |
| `ServerRegistry.Server.RegisterFunc` | server/server.go:20-23 | registers one function under the given name, as `Register` does |
| `ServerRegistry.Server.RegisterObject` | server/server.go:25-38 | registers the object's exported methods in order under qualified names; a panic stops the loop with the earlier methods registered |
| `ServerDispatch.Prepare` | server/server_serve_http.go:31-124 | the request reaches its handler exactly when it is a POST, decodes, names a registered method and has params that decode and pass `IsValid`; it is then called with those params and the request's id; every earlier answer is a well-formed error response |
| `ServerDispatch.Respond` | server/server_serve_http.go:93-111 | the response to the call is well formed; it has no error iff the call returned a nil error, code `LogicErr` iff it returned an error, and a panic gives the recovery's internal error |
| `ServerDispatch.ServeHttp` | server/server_serve_http.go:10-125 | each response is version "2.0", never carries both result and error, and uses a code from the table with that code's standard message (except `LogicErr`); a non-POST verb gives `InvalidRequest` with an empty id; an internal error answers exactly a panic in decoding or in `Call` as written (the handler's own panic or a reflection panic), and carries no id; every other POST response echoes the request's id |
| `ServerDispatch.ServeHttpCorrected` | server/server_serve_http.go:10-125 | over the corrected `Call`: no error iff the request reached its handler and the body returned a nil error; code `LogicErr` iff it returned an error |
| `ServerDispatch.DispatchersAgree` | server/server_serve_http.go:93-111 | when every handler takes a pointer and has nillable results, the dispatcher as written and the corrected one give the same response |
| `ServerDispatch.SuccessIffHandlerSucceeds` | server/server_serve_http.go:93-99 | a response without an error is sent iff the request reached its handler, the body returned a nil error and reflection lets `Call` return (pointer parameter, nillable results); that response carries the handler's result and the request's id |
| `ServerDispatch.LogicErrIffHandlerFails` | server/server_serve_http.go:101-111 | code `LogicErr` is sent iff the request reached its handler, the body returned an error and reflection lets `Call` return (pointer parameter, nillable error result); its message is the error's text |
| `ServerDispatch.HandlerPanicIsInternalError` | server/server_serve_http.go:14-29 | with a pointer parameter, a panic in the handler's body is answered with an internal error whose data is the printed panic value; a non-pointer parameter is answered with the internal error of the reflection panic, whatever the body does |
| `ServerDispatch.MalformedBodyIsParseError` | server/server_serve_http.go:44-59 | an undecodable body gives `ParseError` with the decoder's message as data and whatever id was decoded |
| `ServerDispatch.UnknownMethodNotFound` | server/server_serve_http.go:61-75 | a decoded POST gets `MethodNotFound` iff its method is not registered |
| `ServerDispatch.ParamsErrors` | server/server_serve_http.go:77-124 | rejected params give `ParseError` with the decoder's message; params that fail `IsValid` give `InvalidParams`; the handler is not invoked in either case |
| `ServerDispatch.NullParamsIsInternalError` | server/server_serve_http.go:14-29 | `"params": null` makes the decoded value's type assertion panic, which the recovery answers with an internal error |
| `ServerDispatch.MoreHandlersSameAnswer` | server/server_serve_http.go:61-77 | registering further methods never changes the answer for a method already registered |
| `EndToEnd.ClientSees` | client.go:86-98 | the client's decode of a response fails exactly when it carries a result the caller's sink cannot take, and then yields the decoder's error; otherwise it yields the response itself; a response without a result always decodes |
| `EndToEnd.FinalIffHandlerReturned` | client.go:63-71 | against this package's server, the client stops retrying iff the request reached its handler, the body returned, reflection lets `Call` return and, for a nil error, the result decodes into the caller's sink; protocol errors, panics and client decode errors send it to the next upstream |
| `EndToEnd.ResultDelivered` | client.go:95-103 | a handler's result reaches the caller unchanged when reflection lets `Call` return and the sink can take it; a result the sink cannot take gives the decoder's plain error; without reflection returning the caller gets the internal error |
| `EndToEnd.HandlerErrorDelivered` | client.go:105-108 | a handler's error reaches the caller as a `LogicError` with the same text when reflection lets `Call` return, and otherwise the caller gets the internal error; the sink plays no part |
| `EndToEnd.ProtocolErrorDelivered` | client.go:110 | every other server answer reaches the caller as a plain `"<code>:<message>"` error carrying the standard message of its code |
| `EndToEnd.CorrectedFinalIffHandlerReturned` | client.go:63-71 | against the corrected dispatcher, the client stops retrying iff the request reached its handler, the body returned and, for a nil error, the result decodes into the caller's sink |

## Left out

- HTTP transport: posting, response bodies, the `Content-Type` header and `Body.Close` are left out. The client sees one oracle outcome per address; the server's written response is the returned `Response`.
- JSON: `encoding/json` marshalling and unmarshalling is not modelled. Decoded params are an oracle result. A result value is opaque (`Value`). The client's response-decoding step is the `DecodeFailed` outcome; against this package's server it is an oracle on the result value (`EndToEnd.ClientSees`), which also stands for a result the server fails to encode (an empty body).
- Reflection: `reflect.Value.Call`, `Implements`, `NumIn`/`NumOut` and `PkgPath` are replaced by `TypeFacts` and `MethodInfo`.
- Discovery: the `watch` goroutine, its one-second timer and the mutex are left out. One sequential refresh step is modelled (`Balancer.Refresh`); concurrent interleavings are not.
- RpcClient.Client.Send: reads `len()` once rather than on every loop iteration. The two agree unless a concurrent refresh changes the list in the middle of a call.
- RpcClient.Client.Send: the `next()` error path inside the loop (client.go:56-59) cannot occur once `len()` is non-zero in a sequential run, so it is not modelled.
- Request ids: they are random (`rand.Seed`, `rand.Int`, client.go:12-15 and 40), so the id is an opaque string and its generation is left out.
- The client does not check that the response id matches the request id. The model does not check it either.
- RoundRobin.Balancer.Next: the cursor is an unbounded `nat`, so Go's `int` overflow after 2^63 calls is not modelled.
- RoundRobin.CursorWalk, RoundRobin.IndexAt, RoundRobin.ScheduleIsRotation: stated for at most two laps of the list, which is all one `Send` and the repeat-the-list property need.
- ServerRegistry.Register: the `fn.Type()` panic for a nil value and the unwrapping of a pointer-to-function type (server/server.go:44-49) are left out. A value is either a function or something else.
- ServerRegistry.Register: the panic propagates to whoever called `RegisterFunc` or `RegisterObject`; the model returns it as a value (`fault`) together with the table as it stood, which stays usable if the caller recovers.
- `Params.IsValid` is a recorded verdict (`Params.verdict`). A panic inside a user's `IsValid` method is not modelled.
- A panic with the value `nil` is not modelled: `recover()` returns nil, so no response would be written. Every panic carries a printed value here.
- Decoding an encoded params value preserves its `IsValid` verdict. This is a property of `encoding/json` and is not modelled.
- Benchmarks and tests are not part of this model. They served only as evidence for the properties above.

## Findings

| source | as written | input that shows it | evidently intended | confidence | as-written member | corrected member |
|---|---|---|---|---|---|---|
| server/handler.go:28 | `DecodeParams` always yields a pointer `*T`, and `Call` passes it to the handler unchanged | a handler `func(p jsonrpc2.EmptyParams) (interface{}, error)`: registration accepts it, since `EmptyParams` implements `Params`, but `reflect.Value.Call` panics with "reflect: Call using *jsonrpc2.EmptyParams as type jsonrpc2.EmptyParams" | every handler that registration accepts can be called | not executed | `ServerHandler.CallAsWritten` (`ServerHandler.ValueParamsHandlerPanics`, used by `ServerDispatch.ServeHttp`) | `ServerHandler.Call` (`ServerDispatch.ServeHttpCorrected`, `ServerDispatch.DispatchersAgree`) |
| server/handler.go:30-32 | `IsNil` is called on the handler's results whatever their kind | a handler `func(p *jsonrpc2.EmptyParams) (string, error)`: registration leaves the first result unconstrained, but a successful call panics with "reflect: call of reflect.Value.IsNil on string Value" | a nil error returns the first result unchanged, whatever its type | not executed | `ServerHandler.CallAsWritten` (`ServerHandler.StringResultHandlerPanics`, used by `ServerDispatch.ServeHttp`) | `ServerHandler.Call` (`ServerDispatch.ServeHttpCorrected`, `ServerDispatch.DispatchersAgree`) |
