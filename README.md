# poolee, modelled in Dafny

poolee is a client-side HTTP load-balancing pool for Node.js. A `Pool` holds
one `Endpoint` per backend node, parsed from `"ip:port"` strings. For each
request it picks a node with `get_node`. The pick prefers the first node
that is ready in a rotating scan. Failing that, it refuses when the pool is
over its pending cap. Otherwise it takes a healthy node whose pending count
is at or below the healthy nodes' average. A `RequestSet` retries a failed
request on further nodes. It stops when the attempts run out, or at the
second hang-up or the second abort. It answers its callback at most once.
Each `Endpoint` keeps:

- an in-flight table keyed by a rising request id;
- counters that are rebased when the request count reaches 2^31;
- a guarded health flag;
- a periodic sweep that aborts stale requests.

It routes each request's completion to success, filter rejection or
failure. A `Pinger` probes a node until it answers 200, with a capped
randomised backoff. `EndpointError` builds an error record from typed
fields. `PhiDetector` keeps a window of the last 100 inter-arrival spans
and their average.

The project has one module per source file:

| module | file | source |
|---|---|---|
| `Base` | `base.dfy` | shared helpers |
| `Errors` | `errors.dfy` | `lib/error.js` |
| `Ping` | `pinger.dfy` | `lib/pinger.js` |
| `Phi` | `phi_detector.dfy` | `lib/phi_detector.js` |
| `Endpoints` | `endpoint.dfy` | `lib/endpoint.js` |
| `Pools` | `pool.dfy` | `lib/pool.js` |
| `RequestSets` | `request_set.dfy` | `lib/request_set.js` |

`Base` holds the options, JavaScript truthiness, decimal text, sums,
chunk concatenation and sorted keys.

The objects the source mutates are classes: `Endpoint`, `Pool`,
`RequestSet`, `Pinger` and `PhiDetector`. Their methods carry `modifies`
clauses. The parts that only compute are functions. These include option
defaults, address parsing, the selection rule, error construction and
backoffs.

The outside world is never called. Instead, every effect is appended to a
log the object owns:

- an `Endpoint` logs sends and aborts (`transport`), emitted events
  (`events`) and callback invocations (`deliveries`);
- a `RequestSet` logs dispatches, scheduled retries and answers;
- a `Pinger` logs immediate probes, delayed probes and 'pong';
- a `Pool` logs its emitted events.

Clocks, `Math.random` draws and the node `get_node` returns are parameters.

Where the code and its comments or documentation disagree, the model follows
the code:

- **Pool `retryDelay: 0`.** The pool's constructor and `request` both read
  `retryDelay || retry_delay` (lib/pool.js:28, 122). So an explicit
  `retryDelay: 0` is dropped, and only `retry_delay: 0` keeps a zero delay.
  `Pools.ZeroRetryDelay` and `Pools.NormalizeDefaults` state this.
  `RequestSet` has no `||` and keeps a 0 (lib/request_set.js:25-28).
- **Hang-up and abort caps.** `RequestSet` stores `maxHangups` and
  `maxAborts` but tests the literal 2 (lib/request_set.js:50). The model
  does the same.
- **Body size.** The body buffer is sized by the number of chunks, not by
  their total length, so the body is truncated or zero-padded
  (lib/endpoint.js:214-220). `Endpoints.Assembled` is that buffer.
- **Null callbacks throw.** `gotError` and `gotAborted` call `failed`
  without checking for a cleared callback. A 'full' rejection calls an
  undefined callback, and so does a 'no nodes' answer. Each of these
  throws in the source. The model returns `ok == false` and keeps the state
  changes made before the throw.
- **Endpoint methods the pool needs.** `pool.js` calls `node.ready()`,
  `Endpoint.overloaded()`, `Endpoint.unhealthy()` and `node.stats()`.
  `endpoint.js` defines none of them. Readiness is an input of the
  selection. The two sentinels are the constructors `Overloaded` and
  `Unhealthy`.
- **Send limit.** A `RequestSet` whose budget is below 1 still sends once,
  so it sends at most `max(attempts, 1)` requests. `RequestSet.Valid`
  states this bound.

## Model

| member | source | states |
|---|---|---|
| Base.NumberOr | lib/endpoint.js:44-46 | `x \|\| d` for a numeric option (maxPending, timeout and resolution here, maxSockets at lib/endpoint.js:32): the given number when truthy, the default when undefined or 0 |
| Base.NatToString | lib/endpoint.js:28 | the decimal text of a number is non-empty and all digits (used for `ip + ':' + port`) |
| Base.DigitsRoundTrip | lib/pool.js:44 | reading back the printed decimal text of a number gives the number |
| Base.SomeAtOrBelowAverage | lib/pool.js:194-200 | a non-empty list has an element `x` with `x * n <= sum` |
| Base.MinExists | lib/endpoint.js:50-51 | a finite non-empty set of ids has a least element |
| Base.SortedKeys | lib/endpoint.js:50-51 | the ids of the request table, in ascending order, each exactly once (the order `Object.keys` lists integer keys) |
| Errors.NewEndpointError | lib/error.js:2-20 | name 'EndpointError'; message kept when defined; reason only when a string, delay only when exactly true/false, attempt only when truthy; otherwise the defaults '', false and null |
| Errors.RebuildIsIdentity | lib/error.js:2-20 | rebuilding a constructed error from its own fields gives the same error |
| Errors.NewIsConstructible | lib/error.js:2-20 | every constructed error has a defined message and a truthy or null attempt |
| Errors.DefaultsWithoutStruct | lib/error.js:7 | with no structure the reason, delay and attempt keep the defaults in lib/error.js:24-26 |
| Errors.NumericDelayReadsFalse | lib/error.js:13-15 | a numeric delay is not copied and reads as false; a non-string reason reads as '' |
| Ping.Backoff | lib/pinger.js:23-27 | the probe delay lies in [10, 10000] and below 10 + 2^attempt |
| Ping.Pinger.constructor | lib/pinger.js:3-9 | a new prober is stopped, with no attempts and no probes |
| Ping.Pinger.Ping | lib/pinger.js:29-36 | with no failed attempt it probes at once; otherwise it schedules a probe after `Backoff(attempts)` |
| Ping.Pinger.Start | lib/pinger.js:38-44 | a running prober is untouched; otherwise it runs, its attempts reset to 0, and it probes at once; the one-probe-out invariant holds |
| Ping.Pinger.PingResponse | lib/pinger.js:12-21 | no error and status 200 emits 'pong' and stops; anything else counts an attempt and probes after the backoff for the new count |
| Ping.FailuresFromStart | lib/pinger.js:12-44 | after k failures from a start, the prober runs with k attempts; its log is one immediate probe and k delayed probes with delays `Backoff(1) .. Backoff(k)` |
| Phi.Recent | lib/phi_detector.js:17-20 | the window's length is min(\|s\|, 100); its contents, the newest spans in arrival order, are `Phi.RecentShape` |
| Phi.RecentAppend | lib/phi_detector.js:18-20 | push then shift beyond 100 gives the last 100 spans of the longer history |
| Phi.RecentShape | lib/phi_detector.js:18-20 | the window holds the most recent min(k, 100) spans in arrival order |
| Phi.Mean | lib/phi_detector.js:22-24 | avg * count == total |
| Phi.PhiDetector.constructor | lib/phi_detector.js:1-7 | an empty window with average 0 and `then` = now |
| Phi.PhiDetector.Touch | lib/phi_detector.js:9-28 | appends `now - then`, sets `then` to now, keeps the window the last ≤ 100 spans, and sets avg * length == sum |
| Phi.PhiDetector.Val | lib/phi_detector.js:30-36 | the short-window branch (0) is taken exactly while fewer than 10 spans are known; otherwise a level from the current span and the average |
| Endpoints.Prepared | lib/endpoint.js:128-136 | host and port are the endpoint's; the agent is the endpoint's unless `false`; the encoding defaults to utf8 but null stays null |
| Endpoints.PreparedIdempotent | lib/endpoint.js:128-136 | preparing prepared options changes nothing |
| Endpoints.AssembleBody | lib/endpoint.js:214-220 | the copy loop yields `Assembled(chunks)` |
| Endpoints.AssembledWhole | lib/endpoint.js:214-220 | the body equals the received bytes iff their total length equals the chunk count |
| Endpoints.AssembledTruncates | lib/endpoint.js:214-220 | with at least as many bytes as chunks, the body is the bytes cut to the chunk count |
| Endpoints.TwoChunksExample | lib/endpoint.js:214-220 | the chunks "foo" and "bar" give the body "fo" |
| Endpoints.RouteBody | lib/endpoint.js:222-233 | an error with reason 'filter', the node's message and the filter's delay exactly when a caller's filter rejects; otherwise success with the given bytes, raw iff the encoding is null |
| Endpoints.EndOutcome | lib/endpoint.js:214-233 | an error with reason 'filter' and the filter's delay exactly when a caller's filter rejects; otherwise success with the body, raw iff the encoding is null |
| Endpoints.Assembled | lib/endpoint.js:214-220 | the body has one byte per chunk |
| Endpoints.StaleHandles | lib/endpoint.js:50-57 | at most one handle per id, each a known request last touched at or before the expiry |
| Endpoints.TimeoutEvents | lib/endpoint.js:54 | one 'timeout' event per stale request, in the same order |
| Endpoints.AbortActions | lib/endpoint.js:55 | one abort per stale request, in the same order |
| Endpoints.StaleHandlesIff | lib/endpoint.js:49-57 | a request is listed iff some listed id maps to it and it was last touched at or before the expiry |
| Endpoints.StaleRequests | lib/endpoint.js:50-57 | the loop over the ids collects `StaleHandles` |
| Endpoints.Sweep | lib/endpoint.js:48-57 | the sweep over the table in ascending id order collects `StaleHandles` of the sorted keys |
| Endpoints.SweepListsStale | lib/endpoint.js:48-57 | the sweep lists exactly the in-flight requests touched at or before `clock - timeout` |
| Endpoints.Endpoint.constructor | lib/endpoint.js:20-74 | name `ip:port`; defaults maxSockets 20, maxPending 500, timeout 60000, resolution 1000; health checks iff checkInterval > 0; healthy; all counters zero; the invariant holds |
| Endpoints.Endpoint.ResetCounters | lib/endpoint.js:77-82 | requestCount := pending, successes := failures := 0, requestsLastCheck := requestRate - pending; requestCount - requestsLastCheck is then 2*pending - requestRate |
| Endpoints.Endpoint.SetPending | lib/endpoint.js:84-89 | pending == requestCount - (successes + failures) afterwards, and the rebase happens exactly at 2^31 |
| Endpoints.Endpoint.DeleteRequest | lib/endpoint.js:158-160 | the id leaves the table and nothing else changes |
| Endpoints.Endpoint.Complete | lib/endpoint.js:91-96 | deletes the id, recomputes pending, then calls the callback once and clears it; a cleared callback throws |
| Endpoints.Endpoint.CompletedValid | lib/endpoint.js:91-96 | completing an open request keeps the table and callback invariants |
| Endpoints.Endpoint.Succeeded | lib/endpoint.js:98-101 | counts a success, pending drops by one, and the callback gets the body; the invariant holds |
| Endpoints.Endpoint.Failed | lib/endpoint.js:103-106 | counts a failure, and the callback gets the error (it throws when already called) |
| Endpoints.Endpoint.Request | lib/endpoint.js:121-149 | at or over maxPending: one 'full' rejection and nothing else changes; otherwise id = old requestCount, requestCount + 1, sent with prepared options, entered under its id, pending + 1; when maxPending <= 2^31, requestCount never exceeds 2^31 |
| Endpoints.Endpoint.Reject | lib/endpoint.js:122-127 | the 'full' rejection reaches the callback with the pending count and the cap; the invariant holds |
| Endpoints.Endpoint.Admit | lib/endpoint.js:128-148 | the new request gets the old request count as its id, is sent and entered in the table, and pending grows by one; the invariant holds |
| Endpoints.Endpoint.AdmittedValid | lib/endpoint.js:140-148 | adding an open request to the objects and the table, with one more pending, keeps the table and callback invariants |
| Endpoints.Endpoint.SetHealthy | lib/endpoint.js:151-156 | health changes, with one 'health' event, iff checks are on and the state differs |
| Endpoints.Endpoint.GotResponse | lib/endpoint.js:181-187 | the response starts with no body chunks |
| Endpoints.Endpoint.GotData | lib/endpoint.js:200-203 | the chunk is kept and lastTouched becomes the clock |
| Endpoints.Endpoint.GotEnd | lib/endpoint.js:206-234 | nothing when already completed; otherwise healthy again and completed as `EndOutcome` routes it, counted as success or failure |
| Endpoints.Endpoint.Route | lib/endpoint.js:214-233 | the copy loop's body, handed to `RouteBody`, gives exactly `EndOutcome` |
| Endpoints.Endpoint.Settle | lib/endpoint.js:224-233 | a filter rejection goes to `failed`, anything else to `succeeded`; pending drops by one and the callback is called once |
| Endpoints.Endpoint.GotError | lib/endpoint.js:190-197 | fails with the error's message as reason, then marks the node unhealthy |
| Endpoints.Endpoint.GotAborted | lib/endpoint.js:237-243 | fails with reason 'aborted' |
| Endpoints.Endpoint.TimeoutCheck | lib/endpoint.js:47-61 | every stale in-flight request, in ascending id order, is announced and aborted; rate := requestCount - requestsLastCheck; requestsLastCheck := requestCount |
| Pools.HostPart | lib/pool.js:42-43 | the ip is a prefix of the entry with no ':' in it |
| Pools.PortPart | lib/pool.js:42-44 | undefined exactly when the entry has no ':'; otherwise a field with no ':' in it |
| Pools.ToNumber | lib/pool.js:44 | undefined reads as not-a-number; a number read is a non-negative value of a digit string |
| Pools.FirstColon | lib/pool.js:42 | the position of the first ':' (or the length) |
| Pools.ParseEntry | lib/pool.js:42-45 | an entry survives only with a port strictly between 0 and 65536, and its ip has no ':' |
| Pools.EntryRoundTrip | lib/pool.js:42-45 | `ip + ':' + port` parses back to the address |
| Pools.ValidNodes | lib/pool.js:40-52 | at most one node per entry, each with a port strictly between 0 and 65536 and an ip with no ':' |
| Pools.ValidNodesIff | lib/pool.js:40-52 | an address is kept iff some entry parses to it |
| Pools.ValidNodesConcat | lib/pool.js:40-52 | the kept nodes keep list order |
| Pools.ParseNodes | lib/pool.js:40-52 | the constructor's loop yields `ValidNodes(entries)` |
| Pools.NumOr | lib/pool.js:28 | `x \|\| y` for numbers: truthy iff either is, and one of the two |
| Pools.TextOr | lib/pool.js:29 | `x \|\| y` for strings: non-empty iff either is, and one of the two |
| Pools.FilterOr | lib/pool.js:27 | `x \|\| y` for functions: present iff either is, and one of the two |
| Pools.HttpUsable | lib/pool.js:23 | the http module is present with `request` and `Agent` |
| Pools.RetryDelay | lib/pool.js:28-34 | `retryDelay` when truthy, else `retry_delay` when given (0 included), else 20 |
| Pools.Configure | lib/pool.js:22-38 | maxRetries given (0 kept) or 5; the retry delay is `RetryDelay` of the given options (20 without any); retryFilter is `retryFilter \|\| retry_filter`; ping is `ping \|\| path`; name and maxPending kept |
| Pools.ConfigureIdempotent | lib/pool.js:27-34 | normalising twice changes nothing |
| Pools.ZeroRetryDelay | lib/pool.js:28-34 | `retryDelay: 0` alone becomes 20; `retry_delay: 0` stays 0 |
| Pools.ScanOrderMod | lib/pool.js:178-181 | the k-th node visited is (r + 1 + k) mod len |
| Pools.ScanCovers | lib/pool.js:179-181 | the scan visits every node |
| Pools.ScanSum | lib/pool.js:189 | the total pending summed in scan order equals `pending()` |
| Pools.FirstReady | lib/pool.js:179-184 | the first node along the scan that is ready, and none iff none is |
| Pools.LastAtOrBelow | lib/pool.js:194-201 | popping h from its end yields a node with pending * \|h\| <= sum and every later one above; none iff all are above |
| Pools.SelectReady | lib/pool.js:179-184 | if any node is ready, a ready node is chosen |
| Pools.SelectOverloaded | lib/pool.js:191-193 | with none ready: overloaded iff total pending >= maxPending |
| Pools.SelectBalanced | lib/pool.js:185-201 | under the cap: unhealthy iff no node is healthy; a chosen node is healthy with pending * \|h\| <= sum of h |
| Pools.Select | lib/pool.js:173-202 | a chosen node exists and is ready or healthy; its other properties are `SelectReady`, `SelectOverloaded` and `SelectBalanced` |
| Pools.GetNode | lib/pool.js:173-202 | `get_node` computes `Select` |
| Pools.Scan | lib/pool.js:174-190 | the scan stops at the first ready node, else collects the healthy nodes in order, their pending sum and the total |
| Pools.PopAtOrBelow | lib/pool.js:194-201 | the pop loop yields `LastAtOrBelow`, or the unhealthy sentinel |
| Pools.NonNegativeSumZero | lib/pool.js:206-208 | a sum of non-negative counts is zero iff each is |
| Pools.TotalIdle | lib/pool.js:206-216 | `pending()`, `rate()` or `requestCount()` of non-negative counters is 0 iff every node's is |
| Pools.TotalAppend | lib/pool.js:206-216 | a node added to the pool adds its counter to the total |
| Pools.OptionsFu | lib/pool.js:88-90 | a string becomes `{path}`, a falsy value `{}`, an object itself |
| Pools.Normalize | lib/pool.js:109-131 | a string or Buffer `data` fills a falsy `options.data`, otherwise data is kept and a function-valued data argument is the callback; a non-empty method is kept, else GET; a truthy `retryDelay` is kept, else `retry_delay` when given (0 included), else the pool's; `retryFilter \|\| retry_filter`, else the pool's; a given stream flag is kept, else it is `callback.length === 2`; throws iff there is neither a stream flag nor a callback; the path is kept |
| Pools.WithData | lib/pool.js:113-115 | a string or Buffer data argument fills a falsy `options.data`; otherwise the options are unchanged |
| Pools.Defaulted | lib/pool.js:120-130 | a non-empty method kept, else GET; a truthy `retryDelay` kept, else `retry_delay` when given, else the pool's; `retryFilter \|\| retry_filter`, else the pool's; path, data and stream untouched |
| Pools.NormalizeIdempotent | lib/pool.js:111-131 | normalising normalised options changes nothing |
| Pools.NormalizeDefaults | lib/pool.js:120-125 | GET when no method is named; `retryDelay: 0` alone takes the pool's delay |
| Pools.Put | lib/pool.js:144-148 | the method is PUT |
| Pools.Post | lib/pool.js:150-154 | the method is POST |
| Pools.Del | lib/pool.js:156-161 | the method is DELETE with no agent, and the callback is still found |
| Pools.Pool.constructor | lib/pool.js:36-38 | name and options kept; maxPending given or 1000 |
| Pools.Pool.HealthyNodes | lib/pool.js:72-81 | exactly the healthy nodes, in ascending order |
| Pools.Pool.NodeHealthChanged | lib/pool.js:63-65 | emits 'health' with `ip:port health: <state>` |
| Pools.Pool.NodeTimedOut | lib/pool.js:67-69 | emits 'timeout' with `ip:port` and the request's path |
| Pools.Pool.OnRetry | lib/pool.js:84-86 | re-emits the error as 'retrying' |
| Pools.Pool.Finish | lib/pool.js:133-139 | one 'timing' event with the elapsed time and success = !err, then the caller's callback |
| Pools.NewPool | lib/pool.js:21-58 | throws 'invalid http module' for an http module without `request` or `Agent`, and 'no valid nodes' when no entry parses; exactly when neither holds it returns a pool with the parsed nodes (at least one) and the normalised options |
| RequestSets.InitialAttempts | lib/request_set.js:16-17 | `attempts` when truthy, otherwise the node count clamped to [2, 5] |
| RequestSets.BaseDelay | lib/request_set.js:25-28 | 20 when undefined; any number, 0 included, is kept |
| RequestSets.ExpBackoff | lib/request_set.js:31-33 | the backoff is positive iff the draw and the delay are |
| RequestSets.RetryAfter | lib/request_set.js:39-41 | no delay gives 0; a number is used as given; `true` gives `ExpBackoff` for the attempts used, which is positive iff the draw and the base delay are |
| RequestSets.RequestSet.constructor | lib/request_set.js:11-29 | the attempt budget, caps and delay defaults; nothing sent |
| RequestSets.RequestSet.DoRequest | lib/request_set.js:83-91 | a dispatch to the node picked, or 'no nodes' to the callback when none |
| RequestSets.RequestSet.SendTo | lib/request_set.js:89 | the request goes to the picked node, within the budget of max(attempts, 1) sends |
| RequestSets.RequestSet.AnswerNoNodes | lib/request_set.js:85-86 | 'no nodes' is the callback's only answer |
| RequestSets.RequestSet.HandleResponse | lib/request_set.js:36-66 | one attempt used; hang-ups and aborts counted by reason; an error retried iff attempts remain and fewer than 2 hang-ups and 2 aborts, after the delay when positive, else at once; otherwise delivered, at most once; at most max(attempts, 1) sends |
| RequestSets.RequestSet.Count | lib/request_set.js:37-48 | attemptsLeft - 1, and hang-up/abort counted by reason only |
| RequestSets.RequestSet.Retry | lib/request_set.js:51-55 | a positive delay schedules the retry; otherwise `doRequest` runs at once |
| RequestSets.RequestSet.Conclude | lib/request_set.js:57-65 | the callback is called once and cleared |
| RequestSets.Request | lib/request_set.js:78-81 | a new request sent at once to the picked node |
| RequestSets.TwoHangups | lib/request_set.js:43-60 | a hang-up is retried once; the second hang-up goes to the callback even with attempts left |

## Left out

- HTTP I/O: `http.request`, the agent, sockets and `req.end`. Sending and aborting are log entries. Response, data, end, error and aborted events are method calls with the request's handle.
- Timers and the sampled clock (lib/endpoint.js:3-4, the `setInterval`/`setTimeout` calls): times are parameters, and a scheduled call is a log entry. The timer firing is a later method call.
- `Math.random`: the start index of `get_node` and the backoff draws are parameters in [0, 1).
- Floating point: request-set backoffs are real numbers (no rounding), and `val`'s logarithm is not computed (`Phi.PhiDetector.Val` returns its inputs). In `get_node` the division by the average is the equivalent integer comparison `pending * |h| <= sum`.
- Ping.Backoff: computed over real numbers, not doubles. In the source, `Math.random() * Math.pow(2, attempt) + 10` rounds, so a draw within about 2^-50 of 1 can give exactly `10 + 2^attempt` (at attempt 0, a draw of 1 - 2^-52 gives 11). An attempt of 1024 or more with a draw of 0 gives NaN (0 times Infinity). The bound `ms < 10 + Pow2(attempt)` holds over the reals only.
- Phi.Mean: the average is the exact quotient, so `avg * count == total` holds over the reals only; in doubles `total / count` rounds (a total of 1 over 49 spans gives back 0.9999999999999999). Phi.PhiDetector.Touch states its average through `Phi.Mean` and inherits this.
- RequestSets.RequestSet.HandleResponse: each dispatch is taken to be answered exactly once, as `Endpoint` guarantees by clearing its own callback (lib/endpoint.js:94-95); the precondition `phase == InFlight` says so. The single delivery therefore follows from the phase. The source's `if (this.callback)` guard and the clearing of the callback (lib/request_set.js:57-65) are modelled but carry no proof weight. An answer arriving after the request is done is not modelled.
- Endpoints.Assembled: the buffer follows current Node releases, where `new Buffer(n)` is zero-filled and a copy starting at or past the buffer's end copies nothing. Older releases left the buffer uninitialised and threw on such a copy.
- Byte-to-text decoding of the body (lib/endpoint.js:222): a text body keeps its bytes and its encoding name.
- `callback.length === 2` (lib/pool.js:131) is reflection: a callback's declared arity is an input.
- The health-check loop `ping`/`startHealthChecks`/`stopHealthChecks`/`gotPingResponse` (lib/endpoint.js:162-178): it is timer-driven. `busyness` (lib/endpoint.js:108-110) only returns `pending`.
- Pool `stats` (lib/pool.js:163-171): it calls `node.stats()`, which `endpoint.js` does not define.
- Pools.Pool.Finish: `options.reused` (lib/pool.js:136) reads socket internals and is not modelled.
- The EventEmitter wiring and the binding of handlers: emitted events are log entries.
- Composition across modules: each module is modelled against its inputs. `RequestSet` calls `node.request` with two arguments against `Endpoint.request`'s three, and tests call `RequestSet.request` with four. Neither mismatch is modelled.
- Pools.ToNumber: unary `+` is modelled for decimal digit strings only. Hexadecimal, exponent and whitespace forms read as not-a-number.
- Pools.Normalize: the source mutates the caller's options object in place. The model returns the normalised options as a new value.
- RequestSets.RequestSet.constructor: the model takes the options object as present. The source's `options || {}` guards only `this.options`, and the reads that follow would throw on a missing object.
- Endpoints.Endpoint.TimeoutCheck: the `forEach` loop is modelled by `Endpoints.StaleRequests` and `Endpoints.Sweep`. `TimeoutCheck` itself states its effect through the same `StaleHandles` function.
- Endpoints.Endpoint.Request: the `agent.maxSockets` setting and the agent's socket tables are transport state and are not modelled.
