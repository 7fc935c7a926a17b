/** One backend node (lib/endpoint.js): its in-flight request table keyed by a
    monotonically assigned id, its request counters with the rebase at 2^31,
    its guarded health flag, the periodic sweep that aborts stale requests,
    and the routing of each request's completion to its callback.

    The transport is not modelled: sending a request and aborting one are
    appended to `transport`, emitted events to `events`, and every callback
    invocation to `deliveries`. The transport's events (response, data, end,
    error, aborted) are the methods GotResponse .. GotAborted, called with
    the handle of the request they concern. */
module Endpoints {

  import opened Base

  /** Counters are rebased when the request count reaches 2^31. */
  const MAX_COUNT: int := 0x8000_0000

  /** The `agent` option: `false` (no pooling agent), any other value, or,
      once prepared, the endpoint's own agent. */
  datatype Agent = AgentFalse | AgentOther | EndpointAgent

  /** The `encoding` option: null (keep the bytes), unset or a name. */
  datatype Encoding = NullEncoding | Unset | Named(name: string)

  /** The request options the endpoint reads and fills in. `hasFilter` says
      whether the caller gave a retry filter. */
  datatype RequestOptions = RequestOptions(
    host: string,
    port: int,
    path: string,
    verb: string,
    agent: Agent,
    encoding: Encoding,
    hasFilter: bool)

  /** The options as the endpoint prepares them before sending: its own host
      and port, its agent unless the caller said `false`, and utf8 when the
      caller gave no encoding (null stays null). */
  function Prepared(o: RequestOptions, ip: string, port: int): (r: RequestOptions)
    ensures r.host == ip && r.port == port
    ensures r.path == o.path && r.verb == o.verb && r.hasFilter == o.hasFilter
    ensures r.agent == AgentFalse <==> o.agent == AgentFalse
    ensures r.agent != AgentFalse ==> r.agent == EndpointAgent
    ensures r.encoding == NullEncoding <==> o.encoding == NullEncoding
    ensures r.encoding != NullEncoding ==> r.encoding.Named? && r.encoding.name != ""
    ensures o.encoding.Named? && o.encoding.name != "" ==> r.encoding == o.encoding
    ensures o.encoding == Unset || o.encoding == Named("") ==> r.encoding == Named("utf8")
  {
    o.(host := ip, port := port,
       agent := if o.agent == AgentFalse then AgentFalse else EndpointAgent,
       encoding :=
         if o.encoding == NullEncoding then NullEncoding
         else if o.encoding.Named? && o.encoding.name != "" then o.encoding
         else Named("utf8"))
  }

  /** Preparing prepared options changes nothing. */
  lemma PreparedIdempotent(o: RequestOptions, ip: string, port: int)
    ensures Prepared(Prepared(o, ip, port), ip, port) == Prepared(o, ip, port)
  {
  }

  /** The error object handed to a callback. */
  datatype Failure = Failure(reason: string, message: string, delay: Delay)

  /** A response body: decoded text in the given encoding, or the raw bytes.
      The decoding itself is not modelled; Text keeps the bytes. */
  datatype Body = Text(encoding: Encoding, bytes: seq<Byte>) | Raw(bytes: seq<Byte>)

  datatype Outcome = Success(body: Body) | Error(failure: Failure)

  /** A stored callback: the do-nothing default or the caller's function. */
  datatype Callback = Noop | Caller(token: nat)

  /** A request object: its id, prepared options, time of last activity, its
      callback (None once it has been called) and, once the response has
      started, the body chunks received so far. */
  datatype Req = Req(
    id: int,
    options: RequestOptions,
    lastTouched: int,
    callback: Option<Callback>,
    chunks: Option<seq<seq<Byte>>>)

  /** One callback invocation: a request refused before it was made, or the
      completion of request `handle`. */
  datatype Delivery =
    | Rejected(token: nat, failure: Failure)
    | Completed(handle: nat, to: Callback, outcome: Outcome)

  datatype Event = Health(healthy: bool) | TimedOut(handle: nat)

  datatype Action = Send(handle: nat, options: RequestOptions, payload: Payload) | Abort(handle: nat)

  /** The retry filter's answer: `false` accepts; anything else rejects with
      that value as the retry delay. */
  datatype FilterVerdict = Accept | Reject(delay: Delay)

  /** Constructor options; an absent or zero number takes the default. */
  datatype Config = Config(
    maxSockets: Option<int>,
    maxPending: Option<int>,
    timeout: Option<int>,
    resolution: Option<int>,
    checkInterval: Option<int>)

  function FullMessage(pending: int, maxPending: int): string {
    "too many pending requests " + IntToString(pending) + "/" + IntToString(maxPending)
  }

  // ---------------------------------------------------------------------------
  // Bookkeeping over the request objects and the callback log

  /** The requests whose callback has not been called yet. */
  ghost function OpenIn(objs: seq<Req>): set<nat> {
    set h: nat | h < |objs| && objs[h].callback.Some?
  }

  lemma OpenAppend(objs: seq<Req>, r: Req)
    requires r.callback.Some?
    ensures OpenIn(objs + [r]) == OpenIn(objs) + {|objs|}
  {
    var a, b := OpenIn(objs + [r]), OpenIn(objs) + {|objs|};
    forall h | h in a ensures h in b {
      if h < |objs| {
        assert (objs + [r])[h] == objs[h];
      }
    }
    forall h | h in b ensures h in a {
      if h < |objs| {
        assert (objs + [r])[h] == objs[h];
      }
    }
  }

  lemma OpenClose(objs: seq<Req>, h: nat, r: Req)
    requires h < |objs| && objs[h].callback.Some? && r.callback.None?
    ensures OpenIn(objs[h := r]) == OpenIn(objs) - {h}
  {
    var a, b := OpenIn(objs[h := r]), OpenIn(objs) - {h};
    forall k | k in a ensures k in b {
    }
    forall k | k in b ensures k in a {
    }
  }

  lemma OpenKeep(objs: seq<Req>, h: nat, r: Req)
    requires h < |objs| && objs[h].callback == r.callback
    ensures OpenIn(objs[h := r]) == OpenIn(objs)
  {
    var a, b := OpenIn(objs[h := r]), OpenIn(objs);
    forall k | k in a ensures k in b {
    }
    forall k | k in b ensures k in a {
    }
  }

  /** How many times the callback of request h has been called. */
  function Completions(ds: seq<Delivery>, h: nat): nat {
    if ds == [] then 0
    else Completions(ds[..|ds| - 1], h) + (if ds[|ds| - 1].Completed? && ds[|ds| - 1].handle == h then 1 else 0)
  }

  lemma CompletionsAppend(ds: seq<Delivery>, d: Delivery, h: nat)
    ensures Completions(ds + [d], h) == Completions(ds, h) + (if d.Completed? && d.handle == h then 1 else 0)
  {
    assert (ds + [d])[..|ds|] == ds;
  }

  // ---------------------------------------------------------------------------
  // The body buffer

  /** The body as gotEnd builds it: a zero-filled buffer with one byte per
      chunk, into which the chunks are copied one after another, each copy
      truncated at the end of the buffer. */
  function Assembled(chunks: seq<seq<Byte>>): (body: seq<Byte>)
    ensures |body| == |chunks|
  {
    var c := Concat(chunks);
    seq(|chunks|, k requires 0 <= k < |chunks| => if k < |c| then c[k] else 0)
  }

  lemma ConcatStep<T>(chunks: seq<seq<T>>, i: nat)
    requires i < |chunks|
    ensures Concat(chunks[..i + 1]) == Concat(chunks[..i]) + chunks[i]
  {
    assert chunks[..i + 1][..i] == chunks[..i];
  }

  /** Copy the chunks into a buffer sized by the number of chunks. */
  method AssembleBody(chunks: seq<seq<Byte>>) returns (body: seq<Byte>)
    ensures body == Assembled(chunks)
  {
    var n := |chunks|;
    var buffer := new Byte[n](_ => 0);
    var offset := 0;
    var i := 0;
    while i < n
      invariant 0 <= i <= n
      invariant offset == |Concat(chunks[..i])|
      invariant forall k :: 0 <= k < n ==>
        buffer[k] == if k < offset then Concat(chunks[..i])[k] else 0
    {
      var chunk := chunks[i];
      ghost var c := Concat(chunks[..i]) + chunk;
      var j := 0;
      while j < |chunk| && offset + j < n
        invariant 0 <= j <= |chunk|
        invariant forall k :: 0 <= k < n ==>
          buffer[k] == if k < offset + j then c[k] else 0
      {
        buffer[offset + j] := chunk[j];
        j := j + 1;
      }
      ConcatStep(chunks, i);
      offset := offset + |chunk|;
      i := i + 1;
    }
    assert chunks[..n] == chunks;
    body := buffer[..];
  }

  /** The body is exactly the received bytes when their total length equals
      the number of chunks, and only then. */
  lemma AssembledWhole(chunks: seq<seq<Byte>>)
    ensures Assembled(chunks) == Concat(chunks) <==> |Concat(chunks)| == |chunks|
  {
  }

  /** When the chunks hold at least one byte each on average, the body is
      the received bytes cut to the number of chunks. */
  lemma AssembledTruncates(chunks: seq<seq<Byte>>)
    requires |Concat(chunks)| >= |chunks|
    ensures Assembled(chunks) == Concat(chunks)[..|chunks|]
  {
  }

  /** Two chunks "foo" and "bar" yield the two-byte body "fo". */
  lemma TwoChunksExample()
    ensures Assembled([[102, 111, 111], [98, 97, 114]]) == [102, 111]
  {
    var chunks: seq<seq<Byte>> := [[102, 111, 111], [98, 97, 114]];
    assert chunks[..1] == [[102, 111, 111]];
    assert chunks[..1][..0] == [];
    assert Concat(chunks) == [102, 111, 111, 98, 97, 114];
  }

  // ---------------------------------------------------------------------------
  // Completion routing at the end of a response

  /** The filter's verdict on a finished body (the filter is asked only when
      the caller gave one; the default filter accepts): a rejection fails with
      reason 'filter' and its delay, otherwise the body succeeds, as text
      unless the encoding is null. */
  function RouteBody(options: RequestOptions, verdict: FilterVerdict, name: string, bytes: seq<Byte>): (o: Outcome)
    ensures o.Error? <==> options.hasFilter && verdict.Reject?
    ensures o.Error? ==> o.failure == Failure("filter", name + " error: rejected by filter", verdict.delay)
    ensures o.Success? ==> o.body.bytes == bytes
    ensures o.Success? ==> (o.body.Raw? <==> options.encoding == NullEncoding)
  {
    if options.hasFilter && verdict.Reject? then
      Error(Failure("filter", name + " error: rejected by filter", verdict.delay))
    else if options.encoding != NullEncoding then
      Success(Text(options.encoding, bytes))
    else
      Success(Raw(bytes))
  }

  /** What gotEnd hands to the callback: the verdict on the body assembled
      from the request's chunks. */
  function EndOutcome(r: Req, verdict: FilterVerdict, name: string): (o: Outcome)
    requires r.chunks.Some?
    ensures o.Error? <==> r.options.hasFilter && verdict.Reject?
    ensures o.Error? ==> o.failure == Failure("filter", name + " error: rejected by filter", verdict.delay)
    ensures o.Success? ==> o.body.bytes == Assembled(r.chunks.value)
    ensures o.Success? ==> (o.body.Raw? <==> r.options.encoding == NullEncoding)
  {
    RouteBody(r.options, verdict, name, Assembled(r.chunks.value))
  }

  // ---------------------------------------------------------------------------
  // The timeout sweep

  /** The handles of the stale requests among the table entries `ids`, in
      that order: those last touched at or before `expire`. */
  function StaleHandles(ids: seq<int>, table: map<int, nat>, objs: seq<Req>, expire: int): (hs: seq<nat>)
    ensures |hs| <= |ids|
    ensures forall k :: 0 <= k < |hs| ==> hs[k] < |objs| && objs[hs[k]].lastTouched <= expire
  {
    if ids == [] then []
    else
      var id := ids[|ids| - 1];
      StaleHandles(ids[..|ids| - 1], table, objs, expire) +
        (if id in table && table[id] < |objs| && objs[table[id]].lastTouched <= expire then [table[id]] else [])
  }

  /** A handle is listed iff one of the ids maps to it and it is stale. */
  lemma {:induction false} StaleHandlesIff(ids: seq<int>, table: map<int, nat>, objs: seq<Req>, expire: int, h: nat)
    ensures h in StaleHandles(ids, table, objs, expire) <==>
      exists i :: 0 <= i < |ids| && ids[i] in table && table[ids[i]] == h && h < |objs| && objs[h].lastTouched <= expire
    decreases |ids|
  {
    if ids != [] {
      var init := ids[..|ids| - 1];
      StaleHandlesIff(init, table, objs, expire, h);
      assert forall i :: 0 <= i < |init| ==> init[i] == ids[i];
      if h in StaleHandles(init, table, objs, expire) {
        var i :| 0 <= i < |init| && init[i] in table && table[init[i]] == h && h < |objs| && objs[h].lastTouched <= expire;
        assert ids[i] == init[i];
      }
    }
  }

  lemma SweepStep(ids: seq<int>, i: nat, table: map<int, nat>, objs: seq<Req>, expire: int)
    requires i < |ids|
    ensures StaleHandles(ids[..i + 1], table, objs, expire) ==
      StaleHandles(ids[..i], table, objs, expire) +
        (if ids[i] in table && table[ids[i]] < |objs| && objs[table[ids[i]]].lastTouched <= expire
         then [table[ids[i]]] else [])
  {
    assert ids[..i + 1][..i] == ids[..i];
  }

  lemma TimeoutEventsAppend(hs: seq<nat>, h: nat)
    ensures TimeoutEvents(hs + [h]) == TimeoutEvents(hs) + [TimedOut(h)]
    ensures AbortActions(hs + [h]) == AbortActions(hs) + [Abort(h)]
  {
    assert (hs + [h])[..|hs|] == hs;
  }

  function TimeoutEvents(hs: seq<nat>): (es: seq<Event>)
    ensures |es| == |hs| && forall k :: 0 <= k < |hs| ==> es[k] == TimedOut(hs[k])
  {
    if hs == [] then [] else TimeoutEvents(hs[..|hs| - 1]) + [TimedOut(hs[|hs| - 1])]
  }

  function AbortActions(hs: seq<nat>): (acts: seq<Action>)
    ensures |acts| == |hs| && forall k :: 0 <= k < |hs| ==> acts[k] == Abort(hs[k])
  {
    if hs == [] then [] else AbortActions(hs[..|hs| - 1]) + [Abort(hs[|hs| - 1])]
  }

  // ---------------------------------------------------------------------------

  class Endpoint {
    const ip: string
    const port: int
    const name: string
    const maxSockets: int
    const maxPending: int
    const timeout: int
    const resolution: int
    const checkHealth: bool

    var healthy: bool
    var requestCount: int
    var requestsLastCheck: int
    var requestRate: int
    var pending: int
    var successes: int
    var failures: int

    /** Every request object made so far; a request's handle is its index. */
    var objects: seq<Req>
    /** The in-flight table: request id to handle. */
    var requests: map<int, nat>

    var events: seq<Event>
    var transport: seq<Action>
    var deliveries: seq<Delivery>

    /** The counters: pending is what was requested and not yet completed;
        a request count of 2^31 only survives a rebase when that many are
        pending; pending stays within the cap; and with a cap no larger
        than 2^31 the request count never exceeds 2^31. */
    ghost predicate CountersOk()
      reads this`successes, this`failures, this`pending, this`requestCount
    {
      successes >= 0 && failures >= 0 &&
      pending == requestCount - (successes + failures) &&
      (requestCount == MAX_COUNT ==> pending == MAX_COUNT) &&
      (pending <= maxPending || pending == 0) &&
      (maxPending <= MAX_COUNT ==> requestCount <= MAX_COUNT)
    }

    /** Every table entry names an uncompleted request carrying that id. */
    ghost predicate TableOk()
      reads this`requests, this`objects
    {
      forall id :: id in requests ==>
        requests[id] < |objects| && objects[requests[id]].callback.Some? && objects[requests[id]].id == id
    }

    /** pending counts the requests whose callback is still due, and every
        callback has been called once if it was cleared and never otherwise. */
    ghost predicate CallbacksOk()
      reads this`pending, this`objects, this`deliveries
    {
      pending == |OpenIn(objects)| &&
      forall h: nat :: Completions(deliveries, h) == if h < |objects| && objects[h].callback.None? then 1 else 0
    }

    ghost predicate Valid()
      reads this`successes, this`failures, this`pending, this`requestCount,
        this`requests, this`objects, this`deliveries
    {
      CountersOk() && TableOk() && CallbacksOk()
    }

    /** The counters after setPending, given their values before it. */
    ghost predicate AfterSetPending(rc: int, s: int, f: int, rlc: int)
      reads this
    {
      pending == rc - (s + f) &&
      if rc == MAX_COUNT then
        requestCount == pending && successes == 0 && failures == 0 && requestsLastCheck == requestRate - pending
      else
        requestCount == rc && successes == s && failures == f && requestsLastCheck == rlc
    }

    constructor (ip: string, port: int, config: Config)
      ensures Valid()
      ensures this.ip == ip && this.port == port && name == ip + ":" + IntToString(port)
      ensures maxSockets == NumberOr(config.maxSockets, 20)
      ensures maxPending == NumberOr(config.maxPending, 500)
      ensures timeout == NumberOr(config.timeout, 60000)
      ensures resolution == NumberOr(config.resolution, 1000)
      ensures checkHealth <==> config.checkInterval.Some? && config.checkInterval.value > 0
      ensures healthy && requestCount == 0 && requestsLastCheck == 0 && requestRate == 0
      ensures pending == 0 && successes == 0 && failures == 0
      ensures objects == [] && requests == map[] && events == [] && transport == [] && deliveries == []
    {
      this.ip := ip;
      this.port := port;
      name := ip + ":" + IntToString(port);
      maxSockets := NumberOr(config.maxSockets, 20);
      maxPending := NumberOr(config.maxPending, 500);
      timeout := NumberOr(config.timeout, 60000);
      resolution := NumberOr(config.resolution, 1000);
      checkHealth := config.checkInterval.Some? && config.checkInterval.value > 0;
      healthy := true;
      requestCount, requestsLastCheck, requestRate := 0, 0, 0;
      pending, successes, failures := 0, 0, 0;
      objects, requests := [], map[];
      events, transport, deliveries := [], [], [];
      new;
      assert OpenIn([]) == {};
    }

    /** The rebase: the request count restarts at the pending count, the
        completion counters at zero, and the last-check mark moves so that
        requestCount - requestsLastCheck == 2 * pending - requestRate. */
    method ResetCounters()
      modifies this`requestsLastCheck, this`requestCount, this`successes, this`failures
      ensures requestCount == pending && successes == 0 && failures == 0
      ensures requestsLastCheck == requestRate - pending
      ensures requestCount - requestsLastCheck == 2 * pending - requestRate
      ensures requestCount - (successes + failures) == pending
    {
      requestsLastCheck := requestRate - pending;
      requestCount := pending;
      successes := 0;
      failures := 0;
    }

    /** Recompute pending, then rebase if the request count has reached 2^31;
        either way pending == requestCount - (successes + failures) after. */
    method SetPending()
      modifies this`pending, this`requestsLastCheck, this`requestCount, this`successes, this`failures
      ensures AfterSetPending(old(requestCount), old(successes), old(failures), old(requestsLastCheck))
      ensures pending == requestCount - (successes + failures)
      ensures pending == old(requestCount) - (old(successes) + old(failures))
    {
      pending := requestCount - (successes + failures);
      if requestCount == MAX_COUNT {
        ResetCounters();
      }
    }

    method DeleteRequest(id: int)
      modifies this`requests
      ensures requests == old(requests) - {id}
    {
      requests := requests - {id};
    }

    /** Remove the request from the table, recompute pending, then call the
        callback and clear it. Calling a cleared (null) callback throws: ok is
        false, and the table and counters have already changed. */
    method Complete(h: nat, outcome: Outcome) returns (ok: bool)
      requires h < |objects|
      modifies this`requests, this`pending, this`requestsLastCheck, this`requestCount,
        this`successes, this`failures, this`objects, this`deliveries
      ensures requests == old(requests) - {old(objects[h].id)}
      ensures AfterSetPending(old(requestCount), old(successes), old(failures), old(requestsLastCheck))
      ensures ok == old(objects[h].callback).Some?
      ensures ok ==> objects == old(objects)[h := old(objects[h]).(callback := None)]
      ensures ok ==> deliveries == old(deliveries) + [Completed(h, old(objects[h].callback.value), outcome)]
      ensures !ok ==> objects == old(objects) && deliveries == old(deliveries)
    {
      DeleteRequest(objects[h].id);
      SetPending();
      var r := objects[h];
      if r.callback.None? {
        return false;
      }
      deliveries := deliveries + [Completed(h, r.callback.value, outcome)];
      objects := objects[h := r.(callback := None)];
      ok := true;
    }

    /** After a completion that called the callback of an open request h,
        the invariant holds again. */
    lemma CompletedValid(h: nat, d: Delivery, objs0: seq<Req>, table0: map<int, nat>, ds0: seq<Delivery>, pending0: int)
      requires h < |objs0| && objs0[h].callback.Some?
      requires pending0 == |OpenIn(objs0)|
      requires forall k: nat :: Completions(ds0, k) == if k < |objs0| && objs0[k].callback.None? then 1 else 0
      requires forall id :: id in table0 ==>
        table0[id] < |objs0| && objs0[table0[id]].callback.Some? && objs0[table0[id]].id == id
      requires objects == objs0[h := objs0[h].(callback := None)]
      requires requests == table0 - {objs0[h].id}
      requires d.Completed? && d.handle == h && deliveries == ds0 + [d]
      requires pending == pending0 - 1
      ensures TableOk() && CallbacksOk()
    {
      OpenClose(objs0, h, objs0[h].(callback := None));
      forall k: nat
        ensures Completions(deliveries, k) == if k < |objects| && objects[k].callback.None? then 1 else 0
      {
        CompletionsAppend(ds0, d, k);
      }
    }

    /** The request succeeded: count it and complete it with the body. */
    method Succeeded(h: nat, body: Body)
      requires Valid() && h < |objects| && objects[h].callback.Some?
      modifies this`requests, this`pending, this`requestsLastCheck, this`requestCount,
        this`successes, this`failures, this`objects, this`deliveries
      ensures Valid()
      ensures pending == old(pending) - 1
      ensures AfterSetPending(old(requestCount), old(successes) + 1, old(failures), old(requestsLastCheck))
      ensures requests == old(requests) - {old(objects[h].id)}
      ensures objects == old(objects)[h := old(objects[h]).(callback := None)]
      ensures deliveries == old(deliveries) + [Completed(h, old(objects[h].callback.value), Success(body))]
    {
      ghost var objs0, table0, ds0, pending0 := objects, requests, deliveries, pending;
      assert h in OpenIn(objects);
      successes := successes + 1;
      var ok := Complete(h, Success(body));
      CompletedValid(h, deliveries[|deliveries| - 1], objs0, table0, ds0, pending0);
    }

    /** The request failed: count it and complete it with the error. When its
        callback had already been called this throws (ok is false) after the
        counters and the table have changed. */
    method Failed(h: nat, failure: Failure) returns (ok: bool)
      requires Valid() && h < |objects|
      modifies this`requests, this`pending, this`requestsLastCheck, this`requestCount,
        this`successes, this`failures, this`objects, this`deliveries
      ensures ok == old(objects[h].callback).Some?
      ensures ok ==> Valid() && pending == old(pending) - 1
      ensures AfterSetPending(old(requestCount), old(successes), old(failures) + 1, old(requestsLastCheck))
      ensures requests == old(requests) - {old(objects[h].id)}
      ensures ok ==> objects == old(objects)[h := old(objects[h]).(callback := None)]
      ensures ok ==> deliveries == old(deliveries) + [Completed(h, old(objects[h].callback.value), Error(failure))]
      ensures !ok ==> objects == old(objects) && deliveries == old(deliveries)
    {
      ghost var objs0, table0, ds0, pending0 := objects, requests, deliveries, pending;
      failures := failures + 1;
      ok := Complete(h, Error(failure));
      if ok {
        assert h in OpenIn(objs0);
        CompletedValid(h, deliveries[|deliveries| - 1], objs0, table0, ds0, pending0);
      }
    }

    /** Start a request. With `maxPending` or more pending the callback gets
        a 'full' error and nothing else changes (with no callback the call
        throws: ok is false). Otherwise the request gets id = the old request
        count, is sent with prepared options, and enters the table under its
        id; the request count grows by one before setPending. */
    method Request(options: RequestOptions, payload: Payload, callback: Option<nat>, clock: int) returns (ok: bool)
      requires Valid()
      modifies this`requests, this`pending, this`requestsLastCheck, this`requestCount,
        this`successes, this`failures, this`objects, this`deliveries, this`transport
      ensures Valid()
      ensures old(pending) >= maxPending ==>
        ok == callback.Some? &&
        requests == old(requests) && objects == old(objects) && transport == old(transport) &&
        pending == old(pending) && requestCount == old(requestCount) &&
        successes == old(successes) && failures == old(failures) && requestsLastCheck == old(requestsLastCheck) &&
        deliveries == old(deliveries) +
          (if ok then [Rejected(callback.value, Failure("full", FullMessage(old(pending), maxPending), NoDelay))] else [])
      ensures old(pending) < maxPending ==>
        var h := |old(objects)|;
        var sent := Prepared(options, ip, port);
        ok && deliveries == old(deliveries) &&
        objects == old(objects) + [Req(old(requestCount), sent, clock,
          Some(if callback.Some? then Caller(callback.value) else Noop), None)] &&
        transport == old(transport) + [Send(h, sent, payload)] &&
        requests == old(requests)[old(requestCount) := h] &&
        pending == old(pending) + 1 &&
        AfterSetPending(old(requestCount) + 1, old(successes), old(failures), old(requestsLastCheck))
    {
      if pending >= maxPending {
        if callback.None? {
          return false;
        }
        Reject(callback.value);
        return true;
      }
      Admit(options, payload, callback, clock);
      ok := true;
    }

    /** The 'full' rejection: the callback hears of it and nothing else
        changes. */
    method Reject(token: nat)
      requires Valid()
      modifies this`deliveries
      ensures Valid()
      ensures deliveries == old(deliveries) + [Rejected(token, Failure("full", FullMessage(pending, maxPending), NoDelay))]
    {
      deliveries := deliveries + [Rejected(token, Failure("full", FullMessage(pending, maxPending), NoDelay))];
      forall k: nat
        ensures Completions(deliveries, k) == Completions(old(deliveries), k)
      {
        CompletionsAppend(old(deliveries), deliveries[|deliveries| - 1], k);
      }
    }

    /** Below the cap: a new request object with the next id, sent at once and
        entered in the table. */
    method Admit(options: RequestOptions, payload: Payload, callback: Option<nat>, clock: int)
      requires Valid() && pending < maxPending
      modifies this`requests, this`pending, this`requestsLastCheck, this`requestCount,
        this`successes, this`failures, this`objects, this`transport
      ensures Valid()
      ensures objects == old(objects) + [Req(old(requestCount), Prepared(options, ip, port), clock,
        Some(if callback.Some? then Caller(callback.value) else Noop), None)]
      ensures transport == old(transport) + [Send(|old(objects)|, Prepared(options, ip, port), payload)]
      ensures requests == old(requests)[old(requestCount) := |old(objects)|]
      ensures pending == old(pending) + 1
      ensures AfterSetPending(old(requestCount) + 1, old(successes), old(failures), old(requestsLastCheck))
    {
      var sent := Prepared(options, ip, port);
      var h := |objects|;
      transport := transport + [Send(h, sent, payload)];
      var id := requestCount;
      requestCount := requestCount + 1;
      var r := Req(id, sent, clock, Some(if callback.Some? then Caller(callback.value) else Noop), None);
      ghost var objs0, table0, pending0 := objects, requests, pending;
      objects := objects + [r];
      SetPending();
      requests := requests[id := h];
      AdmittedValid(objs0, table0, pending0, r);
    }

    /** After a new open request is appended and entered in the table, with
        one more pending, the table and callback invariants hold again. */
    lemma AdmittedValid(objs0: seq<Req>, table0: map<int, nat>, pending0: int, r: Req)
      requires r.callback.Some?
      requires pending0 == |OpenIn(objs0)|
      requires forall k: nat :: Completions(deliveries, k) == if k < |objs0| && objs0[k].callback.None? then 1 else 0
      requires forall id :: id in table0 ==>
        table0[id] < |objs0| && objs0[table0[id]].callback.Some? && objs0[table0[id]].id == id
      requires objects == objs0 + [r] && requests == table0[r.id := |objs0|]
      requires pending == pending0 + 1
      ensures TableOk() && CallbacksOk()
    {
      OpenAppend(objs0, r);
      forall k: nat
        ensures Completions(deliveries, k) == if k < |objects| && objects[k].callback.None? then 1 else 0
      {
        if k < |objs0| {
          assert objects[k] == objs0[k];
        }
      }
      forall id | id in requests
        ensures requests[id] < |objects| && objects[requests[id]].callback.Some? && objects[requests[id]].id == id
      {
        if id != r.id {
          assert objects[table0[id]] == objs0[table0[id]];
        }
      }
    }

    /** Change the health flag, and announce it, only when health checks are
        on and the state really changes. */
    method SetHealthy(newState: bool)
      modifies this`healthy, this`events
      ensures checkHealth && newState != old(healthy) ==>
        healthy == newState && events == old(events) + [Health(newState)]
      ensures !(checkHealth && newState != old(healthy)) ==>
        healthy == old(healthy) && events == old(events)
    {
      if checkHealth && healthy != newState {
        healthy := newState;
        events := events + [Health(newState)];
      }
    }

    /** The response to request h has started: it has received no chunk yet. */
    method GotResponse(h: nat)
      requires Valid() && h < |objects|
      modifies this`objects
      ensures Valid()
      ensures objects == old(objects)[h := old(objects[h]).(chunks := Some([]))]
    {
      OpenKeep(objects, h, objects[h].(chunks := Some([])));
      objects := objects[h := objects[h].(chunks := Some([]))];
    }

    /** A chunk of the response arrived: keep it and mark the request as
        recently active. */
    method GotData(h: nat, chunk: seq<Byte>, clock: int)
      requires Valid() && h < |objects| && objects[h].chunks.Some?
      modifies this`objects
      ensures Valid()
      ensures objects == old(objects)[h := old(objects[h]).(
        lastTouched := clock, chunks := Some(old(objects[h].chunks.value) + [chunk]))]
    {
      var r := objects[h].(lastTouched := clock, chunks := Some(objects[h].chunks.value + [chunk]));
      OpenKeep(objects, h, r);
      objects := objects[h := r];
    }

    /** The response ended. A request whose callback was already called is
        left alone; otherwise the node is marked healthy and the request
        completes as EndOutcome routes it, counted as a success or a failure. */
    method GotEnd(h: nat, verdict: FilterVerdict)
      requires Valid() && h < |objects| && objects[h].chunks.Some?
      modifies this`requests, this`pending, this`requestsLastCheck, this`requestCount,
        this`successes, this`failures, this`objects, this`deliveries, this`healthy, this`events
      ensures Valid()
      ensures old(objects[h].callback).None? ==>
        requests == old(requests) && objects == old(objects) && deliveries == old(deliveries) &&
        events == old(events) && healthy == old(healthy) && pending == old(pending) &&
        requestCount == old(requestCount) && successes == old(successes) && failures == old(failures)
      ensures old(objects[h].callback).Some? && checkHealth && !old(healthy) ==>
        healthy && events == old(events) + [Health(true)]
      ensures old(objects[h].callback).Some? && !(checkHealth && !old(healthy)) ==>
        healthy == old(healthy) && events == old(events)
      ensures old(objects[h].callback).Some? ==>
        pending == old(pending) - 1 &&
        requests == old(requests) - {old(objects[h].id)} &&
        objects == old(objects)[h := old(objects[h]).(callback := None)]
      ensures old(objects[h].callback).Some? ==>
        deliveries == old(deliveries) + [Completed(h, old(objects[h].callback.value), EndOutcome(old(objects[h]), verdict, name))]
      ensures old(objects[h].callback).Some? && EndOutcome(old(objects[h]), verdict, name).Success? ==>
        AfterSetPending(old(requestCount), old(successes) + 1, old(failures), old(requestsLastCheck))
      ensures old(objects[h].callback).Some? && EndOutcome(old(objects[h]), verdict, name).Error? ==>
        AfterSetPending(old(requestCount), old(successes), old(failures) + 1, old(requestsLastCheck))
    {
      var r := objects[h];
      if r.callback.None? {
        return;
      }
      SetHealthy(true);
      assert objects[h] == old(objects[h]);
      var outcome := Route(r, verdict);
      Settle(h, outcome);
    }

    /** Build the body from the chunks with the copy loop, then route it. */
    method Route(r: Req, verdict: FilterVerdict) returns (outcome: Outcome)
      requires r.chunks.Some?
      ensures outcome == EndOutcome(r, verdict, name)
    {
      var bytes := AssembleBody(r.chunks.value);
      outcome := RouteBody(r.options, verdict, name, bytes);
    }

    /** Count a completed response as a success or a failure and complete it. */
    method Settle(h: nat, outcome: Outcome)
      requires Valid() && h < |objects| && objects[h].callback.Some?
      modifies this`requests, this`pending, this`requestsLastCheck, this`requestCount,
        this`successes, this`failures, this`objects, this`deliveries
      ensures Valid() && pending == old(pending) - 1
      ensures requests == old(requests) - {old(objects[h].id)}
      ensures objects == old(objects)[h := old(objects[h]).(callback := None)]
      ensures deliveries == old(deliveries) + [Completed(h, old(objects[h].callback.value), outcome)]
      ensures outcome.Success? ==>
        AfterSetPending(old(requestCount), old(successes) + 1, old(failures), old(requestsLastCheck))
      ensures outcome.Error? ==>
        AfterSetPending(old(requestCount), old(successes), old(failures) + 1, old(requestsLastCheck))
    {
      match outcome
      case Success(body) =>
        Succeeded(h, body);
      case Error(failure) =>
        var ok := Failed(h, failure);
    }

    /** The request failed on the transport: it fails with the error's message
        as its reason, and the node is marked unhealthy. When its callback was
        already called, failing throws (ok is false) and the node's health is
        left as it was. */
    method GotError(h: nat, message: string) returns (ok: bool)
      requires Valid() && h < |objects|
      modifies this`requests, this`pending, this`requestsLastCheck, this`requestCount,
        this`successes, this`failures, this`objects, this`deliveries, this`healthy, this`events
      ensures ok == old(objects[h].callback).Some?
      ensures ok ==> Valid() && pending == old(pending) - 1
      ensures AfterSetPending(old(requestCount), old(successes), old(failures) + 1, old(requestsLastCheck))
      ensures requests == old(requests) - {old(objects[h].id)}
      ensures ok ==>
        objects == old(objects)[h := old(objects[h]).(callback := None)] &&
        deliveries == old(deliveries) +
          [Completed(h, old(objects[h].callback.value), Error(Failure(message, name + " error: " + message, NoDelay)))]
      ensures ok && checkHealth && old(healthy) ==> !healthy && events == old(events) + [Health(false)]
      ensures !(ok && checkHealth && old(healthy)) ==> healthy == old(healthy) && events == old(events)
      ensures !ok ==> objects == old(objects) && deliveries == old(deliveries)
    {
      ok := Failed(h, Failure(message, name + " error: " + message, NoDelay));
      if ok {
        SetHealthy(false);
      }
    }

    /** The response was aborted: the request fails with reason 'aborted'.
        When its callback was already called this throws (ok is false). */
    method GotAborted(h: nat) returns (ok: bool)
      requires Valid() && h < |objects| && objects[h].chunks.Some?
      modifies this`requests, this`pending, this`requestsLastCheck, this`requestCount,
        this`successes, this`failures, this`objects, this`deliveries
      ensures ok == old(objects[h].callback).Some?
      ensures ok ==> Valid() && pending == old(pending) - 1
      ensures AfterSetPending(old(requestCount), old(successes), old(failures) + 1, old(requestsLastCheck))
      ensures requests == old(requests) - {old(objects[h].id)}
      ensures ok ==>
        objects == old(objects)[h := old(objects[h]).(callback := None)] &&
        deliveries == old(deliveries) +
          [Completed(h, old(objects[h].callback.value), Error(Failure("aborted", name + " error: connection aborted", NoDelay)))]
      ensures !ok ==> objects == old(objects) && deliveries == old(deliveries)
    {
      ok := Failed(h, Failure("aborted", name + " error: connection aborted", NoDelay));
    }

    /** The handles of the in-flight requests the sweep at `clock` finds
        stale, in ascending id order. */
    ghost function StaleAt(clock: int): seq<nat>
      reads this`requests, this`objects
    {
      StaleHandles(SortedKeys(requests.Keys), requests, objects, clock - timeout)
    }

    /** The periodic sweep: in ascending id order, every in-flight request last
        touched at or before clock - timeout is announced as timed out and
        aborted; then the rate becomes the requests made since the last check.
        It writes nothing Valid() reads, so a valid endpoint stays valid. */
    method TimeoutCheck(clock: int)
      modifies this`events, this`transport, this`requestRate, this`requestsLastCheck
      ensures events == old(events + TimeoutEvents(StaleAt(clock)))
      ensures transport == old(transport + AbortActions(StaleAt(clock)))
      ensures requestRate == requestCount - old(requestsLastCheck) && requestsLastCheck == requestCount
    {
      var stale := StaleHandles(SortedKeys(requests.Keys), requests, objects, clock - timeout);
      events := events + TimeoutEvents(stale);
      transport := transport + AbortActions(stale);
      requestRate := requestCount - requestsLastCheck;
      requestsLastCheck := requestCount;
    }
  }

  /** Walk the ids in order and collect the handles of the requests last
      touched at or before `expire`. */
  method StaleRequests(ids: seq<int>, table: map<int, nat>, objs: seq<Req>, expire: int) returns (stale: seq<nat>)
    requires forall i :: 0 <= i < |ids| ==> ids[i] in table && table[ids[i]] < |objs|
    ensures stale == StaleHandles(ids, table, objs, expire)
  {
    stale := [];
    var i := 0;
    while i < |ids|
      invariant 0 <= i <= |ids|
      invariant stale == StaleHandles(ids[..i], table, objs, expire)
    {
      var h := table[ids[i]];
      SweepStep(ids, i, table, objs, expire);
      if objs[h].lastTouched <= expire {
        stale := stale + [h];
      }
      i := i + 1;
    }
    assert ids[..|ids|] == ids;
  }

  /** The stale requests of a table, found in ascending id order. */
  method Sweep(table: map<int, nat>, objs: seq<Req>, expire: int) returns (stale: seq<nat>)
    requires forall id :: id in table ==> table[id] < |objs|
    ensures stale == StaleHandles(SortedKeys(table.Keys), table, objs, expire)
  {
    var keys := SortedKeys(table.Keys);
    stale := StaleRequests(keys, table, objs, expire);
  }

  /** The sweep's list holds exactly the in-flight requests that are stale. */
  lemma SweepListsStale(table: map<int, nat>, objs: seq<Req>, expire: int, h: nat)
    ensures h in StaleHandles(SortedKeys(table.Keys), table, objs, expire) <==>
      exists id :: id in table && table[id] == h && h < |objs| && objs[h].lastTouched <= expire
  {
    var keys := SortedKeys(table.Keys);
    StaleHandlesIff(keys, table, objs, expire, h);
    if exists id :: id in table && table[id] == h && h < |objs| && objs[h].lastTouched <= expire {
      var id :| id in table && table[id] == h && h < |objs| && objs[h].lastTouched <= expire;
      assert id in keys;
      var i :| 0 <= i < |keys| && keys[i] == id;
    }
  }
}
