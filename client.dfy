/**
 * The client's send/retry policy (client.go).
 *
 * The HTTP transport is an oracle: `transport(a)` is what posting this call's
 * request envelope to address `a` produced. The envelope is the same for
 * every attempt of one call, so the oracle needs only the address.
 */
module RpcClient {
  import opened Wrappers
  import opened Proto
  import opened RpcErrors
  import opened Decimal
  import opened RoundRobin

  /** What one POST produced: a transport error, an undecodable body, or a decoded response. */
  datatype Outcome =
    | PostFailed(err: string)
    | DecodeFailed(err: string)
    | Decoded(response: Response)

  type Transport = string -> Outcome

  /**
   * What `Send` (and one attempt, `send`) returns: nil, together with the
   * `result` member that was decoded into the caller's sink, or an error.
   */
  datatype Status = Sent(result: Option<Value>) | Failed(err: Failure)

  /**
   * `errorFmt`: the decimal code, a colon, then the message. The code holds
   * no colon, so the first colon of the text separates the two.
   */
  function ErrorFmt(code: Int16, message: string): (r: string)
    ensures ColonAt(r) == Some(|IntToString(code)|)
    ensures r[..|IntToString(code)|] == IntToString(code)
    ensures r[|IntToString(code)| + 1..] == message
  {
    var digits := IntToString(code);
    var text := digits + ":" + message;
    NoColon(code);
    assert text[..|digits|] == digits;
    assert text[|digits|] == ':';
    text
  }

  /** The index of the first colon of `s`, if any. */
  function ColonAt(s: string): (r: Option<nat>)
    ensures r.Some? ==> r.value < |s| && s[r.value] == ':' && ':' !in s[..r.value]
    ensures r.None? ==> ':' !in s
  {
    if |s| == 0 then None
    else if s[0] == ':' then Some(0)
    else match ColonAt(s[1..])
      case None => None
      case Some(k) => assert s[..k + 1] == [s[0]] + s[1..][..k]; Some(k + 1)
  }

  /** Splits an `errorFmt` text back into its code and message. */
  function ParseErrorFmt(text: string): Option<(Int16, string)>
  {
    match ColonAt(text)
    case None => None
    case Some(k) =>
      match ParseInt(text[..k])
      case Some(code) =>
        if -0x8000 <= code < 0x8000 then Some((code as Int16, text[k + 1..])) else None
      case None => None
  }

  /** `errorFmt` loses nothing: the code and the message can be read back. */
  lemma ErrorFmtRoundTrip(code: Int16, message: string)
    ensures ParseErrorFmt(ErrorFmt(code, message)) == Some((code, message))
  {
    ParseIntToString(code);
  }

  /**
   * `send`: one attempt, classified. Transport and decode errors come back
   * unchanged; a response without `error` is a success; the logic code becomes
   * a `LogicError` with the server's message, and any other code a plain error
   * whose text carries both the code and the message.
   */
  function SendOnce(o: Outcome): (s: Status)
    ensures s.Sent? <==> o.Decoded? && o.response.error.None?
    ensures s.Sent? ==> s.result == o.response.result
    ensures o.PostFailed? ==> s == Failed(Plain(o.err))
    ensures o.DecodeFailed? ==> s == Failed(Plain(o.err))
    ensures s.Failed? && s.err.Logic? <==>
      o.Decoded? && o.response.error.Some? && o.response.error.value.code == LogicErr
    ensures s.Failed? && s.err.Logic? ==> s.err.logic.Error() == o.response.error.value.message
    ensures o.Decoded? && s.Failed? && !s.err.Logic? ==>
      s.err == Plain(ErrorFmt(o.response.error.value.code, o.response.error.value.message))
    ensures o.Decoded? && s.Failed? && !s.err.Logic? ==>
      s.err.Plain? && ParseErrorFmt(s.err.text) == Some((o.response.error.value.code, o.response.error.value.message))
    ensures s != Failed(NoLiveUpstreams)
  {
    match o
    case PostFailed(err) => Failed(Plain(err))
    case DecodeFailed(err) => Failed(Plain(err))
    case Decoded(response) =>
      match response.error
      case None => Sent(response.result)
      case Some(e) =>
        if e.code == LogicErr then Failed(Logic(LogicError(e.message)))
        else ErrorFmtRoundTrip(e.code, e.message); Failed(Plain(ErrorFmt(e.code, e.message)))
  }

  /** An attempt that ends the call: a success or a business-logic error. */
  predicate Final(s: Status)
  {
    s.Sent? || s.err.Logic?
  }

  /** The status a call ends with and how many attempts it made. */
  datatype Attempts = Attempts(status: Status, count: nat)

  /**
   * The retry policy over the addresses the attempts go to, in order: stop at
   * the first success or business-logic error, otherwise try the next address,
   * and when none is left return the last attempt's error.
   */
  function Retry(tried: seq<string>, transport: Transport): (r: Attempts)
    requires |tried| > 0
    ensures 1 <= r.count <= |tried|
    ensures r.status == SendOnce(transport(tried[r.count - 1]))
    ensures forall j :: 0 <= j < r.count - 1 ==> !Final(SendOnce(transport(tried[j])))
    ensures Final(r.status) || r.count == |tried|
  {
    var first := SendOnce(transport(tried[0]));
    if Final(first) || |tried| == 1 then Attempts(first, 1)
    else
      var rest := Retry(tried[1..], transport);
      Attempts(rest.status, rest.count + 1)
  }

  /**
   * Conversely, the attempt at position `i` ends the call when every earlier
   * attempt was retryable and this one is final or the last available.
   */
  lemma {:induction false} RetryStopsAt(tried: seq<string>, transport: Transport, i: nat)
    requires i < |tried|
    requires forall j :: 0 <= j < i ==> !Final(SendOnce(transport(tried[j])))
    requires Final(SendOnce(transport(tried[i]))) || i == |tried| - 1
    ensures Retry(tried, transport) == Attempts(SendOnce(transport(tried[i])), i + 1)
  {
    if i > 0 {
      var rest := tried[1..];
      assert forall j :: 0 <= j < i - 1 ==> rest[j] == tried[j + 1];
      RetryStopsAt(rest, transport, i - 1);
    }
  }

  class Client {
    const balancer: Balancer

    /** `NewClient`: a client over a fresh pool seeded by one discovery. */
    constructor (discovered: Option<seq<string>>)
      ensures fresh(balancer)
      ensures balancer.addresses == (if discovered.Some? then discovered.value else [])
      ensures balancer.nextAddress == 0
    {
      balancer := new Balancer(discovered);
    }

    /**
     * `Send`: fails at once on an empty pool, without touching the cursor;
     * otherwise makes at most one attempt per address, each on the address
     * the next `next` call returns, as the retry policy prescribes.
     */
    method Send(transport: Transport) returns (r: Status)
      modifies balancer
      ensures balancer.addresses == old(balancer.addresses)
      ensures |balancer.addresses| == 0 ==>
        r == Failed(NoLiveUpstreams) && balancer.nextAddress == old(balancer.nextAddress)
      ensures |balancer.addresses| > 0 ==>
        var n := |balancer.addresses|;
        var a := Retry(Schedule(old(balancer.nextAddress), balancer.addresses, n), transport);
        r == a.status && balancer.nextAddress == CursorAfter(old(balancer.nextAddress), n, a.count)
    {
      var n := balancer.Len();
      if n == 0 {
        return Failed(NoLiveUpstreams);
      }
      ghost var addresses, start := balancer.addresses, balancer.nextAddress;
      ghost var plan := Schedule(start, addresses, n);
      var lastError := Sent(None);
      var i := 0;
      while i < n
        invariant i <= n
        invariant balancer.addresses == addresses
        invariant balancer.nextAddress == CursorAfter(start, n, i)
        invariant forall j :: 0 <= j < i ==> !Final(SendOnce(transport(plan[j])))
        invariant i > 0 ==> lastError == SendOnce(transport(plan[i - 1]))
      {
        // the pool is not empty, so `next` cannot fail here
        var next := balancer.Next();
        var url := next.value;
        ScheduleAt(start, addresses, i, n);
        lastError := SendOnce(transport(url));
        if lastError.Sent? {
          RetryStopsAt(plan, transport, i);
          return lastError;
        }
        if lastError.err.Logic? {
          RetryStopsAt(plan, transport, i);
          return lastError;
        }
        i := i + 1;
      }
      RetryStopsAt(plan, transport, n - 1);
      return lastError;
    }
  }

  /**
   * Two unreachable upstreams and one that answers: from a fresh pool the call
   * succeeds on the third attempt, after trying the addresses in list order.
   */
  lemma ThirdUpstreamAnswers(transport: Transport, response: Response)
    requires transport("bad1").PostFailed? && transport("bad2").PostFailed?
    requires transport("good") == Decoded(response) && response.error.None?
    ensures Retry(Schedule(0, ["bad1", "bad2", "good"], 3), transport) == Attempts(Sent(response.result), 3)
  {
    FreshPoolOrder(["bad1", "bad2", "good"]);
  }

  /**
   * One unreachable upstream, then one answering with a standard error: the
   * call fails with that error formatted as code and message.
   */
  lemma LastErrorIsReturned(transport: Transport, e: Error)
    requires transport("dead").PostFailed?
    requires transport("live") == Decoded(Response("2.0", "42", None, Some(e))) && e.code != LogicErr
    ensures Retry(Schedule(0, ["dead", "live"], 2), transport) == Attempts(Failed(Plain(ErrorFmt(e.code, e.message))), 2)
  {
    FreshPoolOrder(["dead", "live"]);
  }

  /** A business-logic error ends the call after one attempt, whatever the other upstreams would say. */
  lemma LogicErrorIsNotRetried(tried: seq<string>, transport: Transport)
    requires |tried| > 0
    requires transport(tried[0]).Decoded? && transport(tried[0]).response.error.Some?
    requires transport(tried[0]).response.error.value.code == LogicErr
    ensures Retry(tried, transport) ==
      Attempts(Failed(Logic(LogicError(transport(tried[0]).response.error.value.message))), 1)
  {
  }
}
