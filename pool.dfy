/** The pool (lib/pool.js): a list of nodes parsed from "ip:port" strings, the
    pool-wide option defaults, per-request option normalisation, the choice of
    a node for the next request, and the sums over the nodes' counters. */
module Pools {

  import opened Base

  // ---------------------------------------------------------------------------
  // Node list parsing

  /** A node address that survived parsing. */
  datatype Address = Address(ip: string, port: int)

  /** The index of the first ':' in s, or |s| when there is none. */
  function FirstColon(s: string): (k: nat)
    ensures k <= |s|
    ensures forall j :: 0 <= j < k ==> s[j] != ':'
    ensures k < |s| ==> s[k] == ':'
  {
    if s == [] then 0
    else if s[0] == ':' then 0
    else 1 + FirstColon(s[1..])
  }

  /** `s.split(':')[0]`: the text before the first colon. */
  function HostPart(s: string): (h: string)
    ensures ':' !in h
    ensures |h| <= |s| && h == s[..|h|]
  {
    s[..FirstColon(s)]
  }

  /** `s.split(':')[1]`: the text between the first colon and the next one (or
      the end); None (undefined) when s has no colon. */
  function PortPart(s: string): (p: Option<string>)
    ensures p.None? <==> ':' !in s
    ensures p.Some? ==> ':' !in p.value
  {
    var k := FirstColon(s);
    if k == |s| then None
    else
      var rest := s[k + 1..];
      Some(rest[..FirstColon(rest)])
  }

  /** Unary `+` on a port field: a string of decimal digits reads as its value
      (the empty string as 0); anything else, and undefined, reads as NaN. */
  function ToNumber(s: Option<string>): (n: Option<int>)
    ensures s.None? ==> n.None?
    ensures n.Some? ==> s.Some? && AllDigits(s.value) && n.value >= 0
  {
    if s.Some? && AllDigits(s.value) then Some(DigitsValue(s.value)) else None
  }

  /** One entry of the node list: kept when its port field is a number
      strictly between 0 and 65536. */
  function ParseEntry(s: string): (a: Option<Address>)
    ensures a.Some? ==> 0 < a.value.port < 65536 && ':' !in a.value.ip
  {
    var port := ToNumber(PortPart(s));
    if port.Some? && 0 < port.value < 65536 then Some(Address(HostPart(s), port.value)) else None
  }

  /** The entries that parse, in list order. */
  function ValidNodes(entries: seq<string>): (v: seq<Address>)
    ensures |v| <= |entries|
    ensures forall k :: 0 <= k < |v| ==> 0 < v[k].port < 65536 && ':' !in v[k].ip
  {
    if entries == [] then []
    else
      var last := ParseEntry(entries[|entries| - 1]);
      ValidNodes(entries[..|entries| - 1]) + (if last.Some? then [last.value] else [])
  }

  lemma FirstColonAt(ip: string, rest: string)
    requires ':' !in ip
    ensures FirstColon(ip + ":" + rest) == |ip|
    decreases |ip|
  {
    if ip != [] {
      assert (ip + ":" + rest)[1..] == ip[1..] + ":" + rest;
      FirstColonAt(ip[1..], rest);
    }
  }

  lemma NoColonInDigits(s: string)
    requires AllDigits(s)
    ensures FirstColon(s) == |s|
    decreases |s|
  {
    if s != [] {
      NoColonInDigits(s[1..]);
    }
  }

  /** Printing an address as "ip:port" and parsing it back gives the address. */
  lemma {:induction false} EntryRoundTrip(a: Address)
    requires ':' !in a.ip && 0 < a.port < 65536
    ensures ParseEntry(a.ip + ":" + NatToString(a.port)) == Some(a)
  {
    var digits := NatToString(a.port);
    var s := a.ip + ":" + digits;
    FirstColonAt(a.ip, digits);
    assert s[..|a.ip|] == a.ip;
    assert s[|a.ip| + 1..] == digits;
    NoColonInDigits(digits);
    assert digits[..|digits|] == digits;
    DigitsRoundTrip(a.port);
  }

  /** An address is kept iff some entry parses to it. */
  lemma {:induction false} ValidNodesIff(entries: seq<string>, a: Address)
    ensures a in ValidNodes(entries) <==> exists i :: 0 <= i < |entries| && ParseEntry(entries[i]) == Some(a)
    decreases |entries|
  {
    if entries != [] {
      var init := entries[..|entries| - 1];
      ValidNodesIff(init, a);
      assert forall i :: 0 <= i < |init| ==> init[i] == entries[i];
      if a in ValidNodes(init) {
        var i :| 0 <= i < |init| && ParseEntry(init[i]) == Some(a);
        assert ParseEntry(entries[i]) == Some(a);
      }
    }
  }

  /** Parsing a list in two parts keeps both parts' nodes in order. */
  lemma {:induction false} ValidNodesConcat(xs: seq<string>, ys: seq<string>)
    ensures ValidNodes(xs + ys) == ValidNodes(xs) + ValidNodes(ys)
    decreases |ys|
  {
    if ys == [] {
      assert xs + ys == xs;
    } else {
      assert (xs + ys)[..|xs + ys| - 1] == xs + ys[..|ys| - 1];
      ValidNodesConcat(xs, ys[..|ys| - 1]);
    }
  }

  /** The constructor's loop over the node list. */
  method ParseNodes(entries: seq<string>) returns (nodes: seq<Address>)
    ensures nodes == ValidNodes(entries)
  {
    nodes := [];
    for i := 0 to |entries|
      invariant nodes == ValidNodes(entries[..i])
    {
      assert entries[..i + 1][..i] == entries[..i];
      var node := ParseEntry(entries[i]);
      if node.Some? {
        nodes := nodes + [node.value];
      }
    }
    assert entries[..|entries|] == entries;
  }

  // ---------------------------------------------------------------------------
  // Pool options

  /** The pool's options object; a missing property is None. Filters are
      function values, represented by a token. */
  datatype PoolOptions = PoolOptions(
    name: Option<string>,
    maxPending: Option<int>,
    maxRetries: Option<int>,
    retryDelay: Option<int>,
    retry_delay: Option<int>,
    retryFilter: Option<nat>,
    retry_filter: Option<nat>,
    ping: Option<string>,
    path: Option<string>)

  const NoPoolOptions := PoolOptions(None, None, None, None, None, None, None, None, None)

  /** JavaScript `x || y` for optional numbers. */
  function NumOr(x: Option<int>, y: Option<int>): (r: Option<int>)
    ensures Truthy(r) <==> Truthy(x) || Truthy(y)
    ensures r == x || r == y
  {
    if Truthy(x) then x else y
  }

  /** JavaScript `x || y` for optional strings (the empty string is falsy). */
  function TextOr(x: Option<string>, y: Option<string>): (r: Option<string>)
    ensures (r.Some? && r.value != "") <==> (x.Some? && x.value != "") || (y.Some? && y.value != "")
    ensures r == x || r == y
  {
    if x.Some? && x.value != "" then x else y
  }

  /** JavaScript `x || y` for optional functions. */
  function FilterOr(x: Option<nat>, y: Option<nat>): (r: Option<nat>)
    ensures r.Some? <==> x.Some? || y.Some?
    ensures r == x || r == y
  {
    if x.Some? then x else y
  }

  /** The retry delay: `retryDelay || retry_delay`, then 20 unless that is a
      number (0 included). */
  function RetryDelay(o: PoolOptions): (d: int)
    ensures Truthy(o.retryDelay) ==> d == o.retryDelay.value
    ensures !Truthy(o.retryDelay) && o.retry_delay.Some? ==> d == o.retry_delay.value
    ensures !Truthy(o.retryDelay) && o.retry_delay.None? ==> d == 20
  {
    var d := NumOr(o.retryDelay, o.retry_delay);
    if d.Some? then d.value else 20
  }

  /** The options after the constructor's normalisation. */
  function Configure(options: Option<PoolOptions>): (o: PoolOptions)
    ensures o.retryDelay.Some? && o.maxRetries.Some?
    ensures options.None? ==> o.retryDelay == Some(20) && o.maxRetries == Some(5) && o.retryFilter.None?
    ensures options.Some? && options.value.maxRetries.Some? ==> o.maxRetries == options.value.maxRetries
    ensures options.Some? && options.value.maxRetries.None? ==> o.maxRetries == Some(5)
    ensures o.retryDelay == Some(RetryDelay(if options.Some? then options.value else NoPoolOptions))
    ensures options.Some? ==> o.retryFilter == FilterOr(options.value.retryFilter, options.value.retry_filter)
    ensures options.Some? ==> o.ping == TextOr(options.value.ping, options.value.path)
    ensures options.None? ==> o.ping.None?
    ensures options.Some? ==> o.name == options.value.name && o.maxPending == options.value.maxPending
  {
    var given := if options.Some? then options.value else NoPoolOptions;
    given.(
      retryFilter := FilterOr(given.retryFilter, given.retry_filter),
      retryDelay := Some(RetryDelay(given)),
      ping := TextOr(given.ping, given.path),
      maxRetries := if given.maxRetries == Some(0) then Some(0) else NumOr(given.maxRetries, Some(5)))
  }

  /** Normalising the options a second time changes nothing. */
  lemma ConfigureIdempotent(options: Option<PoolOptions>)
    ensures Configure(Some(Configure(options))) == Configure(options)
  {
  }

  /** An explicit `retryDelay: 0` is falsy, so without `retry_delay` it falls
      back to 20; only `retry_delay: 0` keeps a zero delay. */
  lemma ZeroRetryDelay(o: PoolOptions)
    requires o.retryDelay == Some(0)
    ensures o.retry_delay.None? ==> Configure(Some(o)).retryDelay == Some(20)
    ensures o.retry_delay == Some(0) ==> Configure(Some(o)).retryDelay == Some(0)
  {
  }

  /** The http module, when truthy: whether it has `request` and `Agent`. */
  datatype HttpModule = HttpModule(hasRequest: bool, hasAgent: bool)

  predicate HttpUsable(http: Option<HttpModule>) {
    http.Some? && http.value.hasRequest && http.value.hasAgent
  }

  // ---------------------------------------------------------------------------
  // Node selection

  /** What the pool reads of one node when choosing: whether it is ready (a
      method the endpoint is asked), healthy, and its counters. */
  datatype NodeState = NodeState(ready: bool, healthy: bool, pending: int, requestRate: int, requestCount: int)

  /** `get_node`'s answer: a node, or one of the two sentinel endpoints. */
  datatype Choice = Chosen(index: nat) | Overloaded | Unhealthy

  /** The order in which `get_node` visits the nodes from random start r:
      (r + 1) % len, (r + 2) % len, ..., once each. */
  function ScanOrder(start: nat, len: nat): (order: seq<nat>)
    requires start < len
    ensures |order| == len
    ensures forall k :: 0 <= k < len ==> order[k] < len
  {
    var s := if start + 1 < len then start + 1 else 0;
    seq(len, k requires 0 <= k < len => if k < len - s then s + k else k - (len - s))
  }

  /** Node j exists and is ready / healthy; its pending count (0 for an index
      beyond the list, which the scan never produces). */
  predicate ReadyAt(states: seq<NodeState>, j: nat) {
    j < |states| && states[j].ready
  }

  predicate HealthyAt(states: seq<NodeState>, j: nat) {
    j < |states| && states[j].healthy
  }

  function PendingAt(states: seq<NodeState>, j: nat): int {
    if j < |states| then states[j].pending else 0
  }

  /** The pending counts of the nodes at the given indices. */
  function PendingsAlong(states: seq<NodeState>, idx: seq<nat>): (ps: seq<int>)
    ensures |ps| == |idx|
  {
    seq(|idx|, k requires 0 <= k < |idx| => PendingAt(states, idx[k]))
  }

  /** The healthy indices among idx, in the same order. */
  function HealthyAlong(states: seq<NodeState>, idx: seq<nat>): (h: seq<nat>)
    ensures forall k :: 0 <= k < |h| ==> HealthyAt(states, h[k])
    ensures forall k :: 0 <= k < |idx| && HealthyAt(states, idx[k]) ==> idx[k] in h
  {
    if idx == [] then []
    else
      var last := idx[|idx| - 1];
      HealthyAlong(states, idx[..|idx| - 1]) + (if HealthyAt(states, last) then [last] else [])
  }

  predicate NoneReadyBefore(states: seq<NodeState>, order: seq<nat>, k: nat) {
    forall m :: 0 <= m < k && m < |order| ==> !ReadyAt(states, order[m])
  }

  /** Every node after position k of h is above the average. */
  predicate AllAboveAfter(states: seq<NodeState>, h: seq<nat>, k: nat, sum: int, count: int) {
    forall m :: k < m < |h| ==> PendingAt(states, h[m]) * count > sum
  }

  /** The first index along `order` whose node is ready. */
  function FirstReady(states: seq<NodeState>, order: seq<nat>): (r: Option<nat>)
    ensures r.None? <==> forall k :: 0 <= k < |order| ==> !ReadyAt(states, order[k])
    ensures r.Some? ==> ReadyAt(states, r.value)
    ensures r.Some? ==>
      exists k :: 0 <= k < |order| && order[k] == r.value && NoneReadyBefore(states, order, k)
  {
    if order == [] then None
    else if ReadyAt(states, order[0]) then Some(order[0])
    else
      var r := FirstReady(states, order[1..]);
      assert forall k :: 0 < k < |order| ==> order[k] == order[1..][k - 1];
      r
  }

  /** Popping h from its end: the first node met whose pending count is at or
      below the average sum / count, i.e. pending * count <= sum. */
  function LastAtOrBelow(states: seq<NodeState>, h: seq<nat>, sum: int, count: int): (r: Option<nat>)
    ensures r.Some? ==> PendingAt(states, r.value) * count <= sum
    ensures r.Some? ==>
      exists k :: 0 <= k < |h| && h[k] == r.value && AllAboveAfter(states, h, k, sum, count)
    ensures r.None? ==> forall k :: 0 <= k < |h| ==> PendingAt(states, h[k]) * count > sum
  {
    if h == [] then None
    else
      var n := h[|h| - 1];
      if PendingAt(states, n) * count <= sum then Some(n)
      else
        var r := LastAtOrBelow(states, h[..|h| - 1], sum, count);
        assert forall k :: 0 <= k < |h| - 1 ==> h[..|h| - 1][k] == h[k];
        r
  }

  /** What `get_node` returns for node states `states`, cap `maxPending` and
      random start `start`. */
  function Select(maxPending: int, states: seq<NodeState>, start: nat): (c: Choice)
    requires start < |states|
    ensures c.Chosen? ==> c.index < |states| && (states[c.index].ready || states[c.index].healthy)
  {
    var order := ScanOrder(start, |states|);
    var ready := FirstReady(states, order);
    if ready.Some? then Chosen(ready.value)
    else if Sum(PendingsAlong(states, order)) >= maxPending then Overloaded
    else
      var h := HealthyAlong(states, order);
      var pick := LastAtOrBelow(states, h, Sum(PendingsAlong(states, h)), |h|);
      if pick.Some? then Chosen(pick.value) else Unhealthy
  }

  /** The column of one counter over the nodes, in node order. */
  datatype Counter = PendingCounter | RateCounter | RequestCounter

  function Field(n: NodeState, c: Counter): int {
    match c
    case PendingCounter => n.pending
    case RateCounter => n.requestRate
    case RequestCounter => n.requestCount
  }

  function Column(states: seq<NodeState>, c: Counter): (col: seq<int>)
    ensures |col| == |states|
  {
    seq(|states|, i requires 0 <= i < |states| => Field(states[i], c))
  }

  /** `pending()`, `rate()` and `requestCount()`: the reduce of one counter
      over all nodes. */
  function Total(states: seq<NodeState>, c: Counter): int {
    Sum(Column(states, c))
  }

  lemma ModBelow(x: int, n: int)
    requires 0 <= x < n
    ensures x % n == x
  {
  }

  lemma ModWrap(x: int, n: int)
    requires 0 < n <= x < 2 * n
    ensures x % n == x - n
  {
    assert x == n * 1 + (x - n);
  }

  /** The k-th node visited is (r + 1 + k) % len. */
  lemma ScanOrderMod(start: nat, len: nat, k: nat)
    requires start < len && k < len
    ensures ScanOrder(start, len)[k] == (start + 1 + k) % len
  {
    if start + 1 < len {
      ModBelow(start + 1, len);
      if start + 1 + k < len {
        ModBelow(start + 1 + k, len);
      } else {
        ModWrap(start + 1 + k, len);
      }
    } else {
      ModWrap(start + 1, len);
      ModWrap(start + 1 + k, len);
    }
  }

  /** Every node is visited by the scan. */
  lemma ScanCovers(start: nat, len: nat, j: nat)
    requires start < len && j < len
    ensures j in ScanOrder(start, len)
  {
    var s := if start + 1 < len then start + 1 else 0;
    var k := if j >= s then j - s else j + (len - s);
    assert ScanOrder(start, len)[k] == j;
  }

  /** Summing the pending counts in scan order gives `pending()`. */
  lemma ScanSum(states: seq<NodeState>, start: nat)
    requires start < |states|
    ensures Sum(PendingsAlong(states, ScanOrder(start, |states|))) == Total(states, PendingCounter)
  {
    var len := |states|;
    var s := if start + 1 < len then start + 1 else 0;
    var col := Column(states, PendingCounter);
    var along := PendingsAlong(states, ScanOrder(start, len));
    assert along == col[s..] + col[..s];
    SumConcat(col[s..], col[..s]);
    SumConcat(col[..s], col[s..]);
    assert col[..s] + col[s..] == col;
  }

  /** If any node is ready, a ready node is chosen: the first one the scan
      meets. */
  lemma SelectReady(maxPending: int, states: seq<NodeState>, start: nat, j: nat)
    requires start < |states| && j < |states| && states[j].ready
    ensures Select(maxPending, states, start).Chosen?
    ensures states[Select(maxPending, states, start).index].ready
  {
    var order := ScanOrder(start, |states|);
    ScanCovers(start, |states|, j);
    var k :| 0 <= k < |order| && order[k] == j;
  }

  /** With no node ready, the pool is overloaded exactly when the total of
      pending requests reaches the cap. */
  lemma SelectOverloaded(maxPending: int, states: seq<NodeState>, start: nat)
    requires start < |states|
    requires forall i :: 0 <= i < |states| ==> !states[i].ready
    ensures Select(maxPending, states, start) == Overloaded <==>
      Total(states, PendingCounter) >= maxPending
  {
    ScanSum(states, start);
  }

  /** With no node ready and the pool under its cap, the answer is a healthy
      node at or below the healthy nodes' average pending count, and it is the
      unhealthy sentinel only when no node is healthy. */
  lemma {:induction false} SelectBalanced(maxPending: int, states: seq<NodeState>, start: nat)
    requires start < |states|
    requires forall i :: 0 <= i < |states| ==> !states[i].ready
    requires Total(states, PendingCounter) < maxPending
    ensures var c := Select(maxPending, states, start);
      var h := HealthyAlong(states, ScanOrder(start, |states|));
      (c == Unhealthy <==> forall i :: 0 <= i < |states| ==> !states[i].healthy) &&
      (c.Chosen? ==>
         c.index < |states| && states[c.index].healthy &&
         states[c.index].pending * |h| <= Sum(PendingsAlong(states, h)))
  {
    var order := ScanOrder(start, |states|);
    ScanSum(states, start);
    var h := HealthyAlong(states, order);
    var ps := PendingsAlong(states, h);
    if exists i :: 0 <= i < |states| && states[i].healthy {
      var i :| 0 <= i < |states| && states[i].healthy;
      ScanCovers(start, |states|, i);
      var k :| 0 <= k < |order| && order[k] == i;
      assert i in h;
      var m := SomeAtOrBelowAverage(ps);
      assert states[h[m]].pending * |h| <= Sum(ps);
    }
  }

  /** `get_node`: scan from (start + 1) % len for a ready node, adding up the
      pending counts of all nodes and of the healthy ones; then the cap, then
      pop the healthy list for a node at or below the average. */
  method GetNode(maxPending: int, states: seq<NodeState>, start: nat) returns (c: Choice)
    requires start < |states|
    ensures c == Select(maxPending, states, start)
  {
    var ready, h, sum, totalPending := Scan(states, start);
    if ready.Some? {
      return Chosen(ready.value);
    }
    SelectNoneReady(maxPending, states, start);
    if totalPending >= maxPending {
      return Overloaded;
    }
    c := PopAtOrBelow(states, h, sum);
  }

  /** The scan loop of `get_node`: it stops at the first ready node; when there
      is none it has collected the healthy nodes in scan order, the sum of their
      pending counts and the total pending count. */
  method Scan(states: seq<NodeState>, start: nat)
    returns (ready: Option<nat>, h: seq<nat>, sum: int, totalPending: int)
    requires start < |states|
    ensures ready == FirstReady(states, ScanOrder(start, |states|))
    ensures forall k :: 0 <= k < |h| ==> h[k] < |states|
    ensures ready.None? ==> h == HealthyAlong(states, ScanOrder(start, |states|)[..|states|])
    ensures ready.None? ==> sum == Sum(PendingsAlong(states, h))
    ensures ready.None? ==> totalPending == Sum(PendingsAlong(states, ScanOrder(start, |states|)[..|states|]))
  {
    var len := |states|;
    ghost var order := ScanOrder(start, len);
    h, sum, totalPending := [], 0, 0;
    var r := start;
    for i := 0 to len
      invariant r < len
      invariant r == if i == 0 then start else order[i - 1]
      invariant NoneReadyBefore(states, order, i)
      invariant h == HealthyAlong(states, order[..i])
      invariant sum == Sum(PendingsAlong(states, h))
      invariant totalPending == Sum(PendingsAlong(states, order[..i]))
    {
      NextInScan(start, len, i, r);
      r := (r + 1) % len;
      ScanStep(states, order, i);
      if states[r].ready {
        FirstReadyAfter(states, order, i);
        ready := Some(r);
        return;
      } else if states[r].healthy {
        AlongAppend(states, h, r);
        h := h + [r];
        sum := sum + states[r].pending;
      }
      totalPending := totalPending + states[r].pending;
    }
    assert order[..len] == order;
    ready := None;
  }

  /** With no ready node met along the whole scan, the answer is decided by the
      scan's totals. */
  lemma SelectNoneReady(maxPending: int, states: seq<NodeState>, start: nat)
    requires start < |states|
    requires NoneReadyBefore(states, ScanOrder(start, |states|), |states|)
    ensures var order := ScanOrder(start, |states|);
      var h := HealthyAlong(states, order[..|states|]);
      Select(maxPending, states, start) ==
        if Sum(PendingsAlong(states, order[..|states|])) >= maxPending then Overloaded
        else
          var pick := LastAtOrBelow(states, h, Sum(PendingsAlong(states, h)), |h|);
          if pick.Some? then Chosen(pick.value) else Unhealthy
  {
    var order := ScanOrder(start, |states|);
    assert order[..|states|] == order;
  }

  /** Pop the healthy list from its end until a node at or below the average
      sum / |h| turns up; the unhealthy sentinel when none does. */
  method PopAtOrBelow(states: seq<NodeState>, h: seq<nat>, sum: int) returns (c: Choice)
    requires forall k :: 0 <= k < |h| ==> h[k] < |states|
    ensures c == var pick := LastAtOrBelow(states, h, sum, |h|);
      if pick.Some? then Chosen(pick.value) else Unhealthy
  {
    var count := |h|;
    var rest: seq<nat> := h;
    while |rest| > 0
      invariant forall k :: 0 <= k < |rest| ==> rest[k] < |states|
      invariant LastAtOrBelow(states, rest, sum, count) == LastAtOrBelow(states, h, sum, count)
    {
      var node := rest[|rest| - 1];
      rest := rest[..|rest| - 1];
      if states[node].pending * count <= sum {
        return Chosen(node);
      }
    }
    return Unhealthy;
  }

  lemma AlongAppend(states: seq<NodeState>, idx: seq<nat>, r: nat)
    requires r < |states|
    ensures PendingsAlong(states, idx + [r]) == PendingsAlong(states, idx) + [states[r].pending]
  {
  }

  /** One more step of the scan extends the healthy list and both sums. */
  lemma ScanStep(states: seq<NodeState>, order: seq<nat>, i: nat)
    requires forall k :: 0 <= k < |order| ==> order[k] < |states|
    requires i < |order|
    ensures HealthyAlong(states, order[..i + 1]) ==
      HealthyAlong(states, order[..i]) + (if states[order[i]].healthy then [order[i]] else [])
    ensures Sum(PendingsAlong(states, order[..i + 1])) ==
      Sum(PendingsAlong(states, order[..i])) + states[order[i]].pending
  {
    assert order[..i + 1][..i] == order[..i];
    assert order[..i + 1] == order[..i] + [order[i]];
    AlongAppend(states, order[..i], order[i]);
  }

  lemma NextInScan(start: nat, len: nat, i: nat, r: nat)
    requires start < len && i < len && r < len
    requires r == if i == 0 then start else ScanOrder(start, len)[i - 1]
    ensures (r + 1) % len == ScanOrder(start, len)[i]
  {
    if r + 1 < len {
      ModBelow(r + 1, len);
    } else {
      ModWrap(r + 1, len);
    }
  }

  lemma FirstReadyAfter(states: seq<NodeState>, order: seq<nat>, i: nat)
    requires i < |order| && ReadyAt(states, order[i]) && NoneReadyBefore(states, order, i)
    ensures FirstReady(states, order) == Some(order[i])
  {
    var r := FirstReady(states, order);
    var k :| 0 <= k < |order| && order[k] == r.value && NoneReadyBefore(states, order, k);
  }

  // ---------------------------------------------------------------------------
  // Sums over the nodes

  /** A sum of non-negative numbers is zero iff every one of them is. */
  lemma {:induction false} NonNegativeSumZero(xs: seq<int>)
    requires forall i :: 0 <= i < |xs| ==> xs[i] >= 0
    ensures Sum(xs) >= 0
    ensures Sum(xs) == 0 <==> forall i :: 0 <= i < |xs| ==> xs[i] == 0
    decreases |xs|
  {
    if xs != [] {
      var init := xs[..|xs| - 1];
      assert forall i :: 0 <= i < |init| ==> init[i] == xs[i];
      NonNegativeSumZero(init);
    }
  }

  /** With no negative counter, a pool-wide total is zero exactly when every
      node's counter is zero (an idle pool is one whose nodes are all idle). */
  lemma TotalIdle(states: seq<NodeState>, c: Counter)
    requires forall i :: 0 <= i < |states| ==> Field(states[i], c) >= 0
    ensures Total(states, c) >= 0
    ensures Total(states, c) == 0 <==> forall i :: 0 <= i < |states| ==> Field(states[i], c) == 0
  {
    var col := Column(states, c);
    NonNegativeSumZero(col);
    assert forall i :: 0 <= i < |states| ==> col[i] == Field(states[i], c);
  }

  /** A node added to the pool adds its counter to the total. */
  lemma TotalAppend(states: seq<NodeState>, n: NodeState, c: Counter)
    ensures Total(states + [n], c) == Total(states, c) + Field(n, c)
  {
    assert Column(states + [n], c)[..|states|] == Column(states, c);
  }

  // ---------------------------------------------------------------------------
  // Per-request options

  /** A completion callback, with the number of parameters it declares. */
  datatype Callback = Callback(token: nat, arity: nat)

  /** The options of one request; a missing property is None. */
  datatype CallOptions = CallOptions(
    path: Option<string>,
    data: Payload,
    verb: Option<string>,
    agent: Option<bool>,
    retryDelay: Option<int>,
    retry_delay: Option<int>,
    retryFilter: Option<nat>,
    retry_filter: Option<nat>,
    stream: Option<bool>,
    success: Option<bool>)

  const NoCallOptions := CallOptions(None, NoPayload, None, None, None, None, None, None, None, None)

  /** The `options` argument: a path string, an object, or a falsy value. */
  datatype OptionsArg = PathText(text: string) | Given(opts: CallOptions) | NoOptions

  /** The `data` argument. */
  datatype DataArg = NoData | TextData(text: string) | BufferData(bytes: seq<Byte>) | FunctionData(cb: Callback) | OtherData

  /** What is handed on to the retrying request: its options and callback. */
  datatype Prepared = Prepared(options: CallOptions, callback: Option<Callback>)

  /** `optionsFu`: a string is a path, a falsy value is an empty object. */
  function OptionsFu(arg: OptionsArg): (o: CallOptions)
    ensures arg.PathText? ==> o == NoCallOptions.(path := Some(arg.text))
    ensures arg.Given? ==> o == arg.opts
    ensures arg.NoOptions? ==> o == NoCallOptions
  {
    match arg
    case PathText(p) => NoCallOptions.(path := Some(p))
    case Given(o) => o
    case NoOptions => NoCallOptions
  }

  predicate PayloadTruthy(d: Payload) {
    d.BytesPayload? || (d.TextPayload? && d.text != "")
  }

  /** `request`'s normalisation of its arguments, against the pool's
      normalised options `defaults`. It throws when neither the options nor a
      callback say whether to stream. */
  function Normalize(defaults: PoolOptions, arg: OptionsArg, data: DataArg, callback: Option<Callback>): (r: Result<Prepared>)
    ensures var cb := if data.FunctionData? then Some(data.cb) else callback;
      (r.Err? <==> OptionsFu(arg).stream.None? && cb.None?) && (r.Ok? ==> r.value.callback == cb)
    ensures r.Ok? ==> r.value.options.verb.Some? && r.value.options.verb.value != "" && r.value.options.stream.Some?
    ensures r.Ok? && defaults.retryDelay.Some? ==> r.value.options.retryDelay.Some?
    ensures r.Ok? ==> r.value.options.path == OptionsFu(arg).path
    ensures var g := OptionsFu(arg);
      r.Ok? && g.verb.Some? && g.verb.value != "" ==> r.value.options.verb == g.verb
    ensures var g := OptionsFu(arg);
      r.Ok? && !(g.verb.Some? && g.verb.value != "") ==> r.value.options.verb == Some("GET")
    ensures var g := OptionsFu(arg);
      r.Ok? && Truthy(g.retryDelay) ==> r.value.options.retryDelay == g.retryDelay
    ensures var g := OptionsFu(arg);
      r.Ok? && !Truthy(g.retryDelay) && g.retry_delay.Some? ==> r.value.options.retryDelay == g.retry_delay
    ensures var g := OptionsFu(arg);
      r.Ok? && !Truthy(g.retryDelay) && g.retry_delay.None? ==> r.value.options.retryDelay == defaults.retryDelay
    ensures var g := OptionsFu(arg);
      r.Ok? && (g.retryFilter.Some? || g.retry_filter.Some?) ==>
        r.value.options.retryFilter == FilterOr(g.retryFilter, g.retry_filter)
    ensures var g := OptionsFu(arg);
      r.Ok? && g.retryFilter.None? && g.retry_filter.None? ==> r.value.options.retryFilter == defaults.retryFilter
    ensures var g := OptionsFu(arg);
      r.Ok? && !PayloadTruthy(g.data) && data.TextData? ==> r.value.options.data == TextPayload(data.text)
    ensures var g := OptionsFu(arg);
      r.Ok? && !PayloadTruthy(g.data) && data.BufferData? ==> r.value.options.data == BytesPayload(data.bytes)
    ensures var g := OptionsFu(arg);
      r.Ok? && (PayloadTruthy(g.data) || !(data.TextData? || data.BufferData?)) ==> r.value.options.data == g.data
    ensures var g := OptionsFu(arg);
      r.Ok? && g.stream.Some? ==> r.value.options.stream == g.stream
    ensures var g := OptionsFu(arg);
      r.Ok? && g.stream.None? ==> r.value.callback.Some? && r.value.options.stream == Some(r.value.callback.value.arity == 2)
  {
    var given := OptionsFu(arg);
    var o := Defaulted(WithData(given, data), defaults);
    var cb := if data.FunctionData? then Some(data.cb) else callback;
    if o.stream.None? && cb.None? then Err("TypeError: callback is undefined")
    else
      var stream := if o.stream.Some? then o.stream.value else cb.value.arity == 2;
      Ok(Prepared(o.(stream := Some(stream)), cb))
  }

  /** A string or Buffer data argument fills a falsy `options.data`; any other
      data argument leaves the options as they are. */
  function WithData(given: CallOptions, data: DataArg): (o: CallOptions)
    ensures !PayloadTruthy(given.data) && data.TextData? ==> o == given.(data := TextPayload(data.text))
    ensures !PayloadTruthy(given.data) && data.BufferData? ==> o == given.(data := BytesPayload(data.bytes))
    ensures PayloadTruthy(given.data) || !(data.TextData? || data.BufferData?) ==> o == given
  {
    if PayloadTruthy(given.data) then given
    else if data.TextData? then given.(data := TextPayload(data.text))
    else if data.BufferData? then given.(data := BytesPayload(data.bytes))
    else given
  }

  /** The method, retry delay and retry filter defaults of `request`; every
      other option is left as it is. */
  function Defaulted(o: CallOptions, defaults: PoolOptions): (d: CallOptions)
    ensures d.path == o.path && d.data == o.data && d.stream == o.stream
    ensures o.verb.Some? && o.verb.value != "" ==> d.verb == o.verb
    ensures !(o.verb.Some? && o.verb.value != "") ==> d.verb == Some("GET")
    ensures Truthy(o.retryDelay) ==> d.retryDelay == o.retryDelay
    ensures !Truthy(o.retryDelay) && o.retry_delay.Some? ==> d.retryDelay == o.retry_delay
    ensures !Truthy(o.retryDelay) && o.retry_delay.None? ==> d.retryDelay == defaults.retryDelay
    ensures o.retryFilter.Some? || o.retry_filter.Some? ==> d.retryFilter == FilterOr(o.retryFilter, o.retry_filter)
    ensures o.retryFilter.None? && o.retry_filter.None? ==> d.retryFilter == defaults.retryFilter
  {
    var delay := NumOr(o.retryDelay, o.retry_delay);
    var filter := FilterOr(o.retryFilter, o.retry_filter);
    o.(verb := TextOr(o.verb, Some("GET")),
       retryDelay := if delay.Some? then delay else defaults.retryDelay,
       retryFilter := if filter.Some? then filter else defaults.retryFilter)
  }

  /** Normalising already normalised options again, with no new data, changes
      nothing. */
  lemma NormalizeIdempotent(defaults: PoolOptions, arg: OptionsArg, data: DataArg, callback: Option<Callback>)
    requires defaults.retryDelay.Some?
    requires Normalize(defaults, arg, data, callback).Ok?
    ensures var p := Normalize(defaults, arg, data, callback).value;
      Normalize(defaults, Given(p.options), NoData, p.callback) == Ok(p)
  {
  }

  /** A request names GET unless its options name a method; the retry delay
      falls back to the pool's when `retryDelay || retry_delay` is undefined,
      so an explicit `retryDelay: 0` alone is replaced by the pool's delay. */
  lemma NormalizeDefaults(defaults: PoolOptions, o: CallOptions, cb: Callback)
    requires o.verb.None? && o.retryDelay == Some(0) && o.retry_delay.None?
    ensures var r := Normalize(defaults, Given(o), NoData, Some(cb));
      r.Ok? && r.value.options.verb == Some("GET") && r.value.options.retryDelay == defaults.retryDelay
  {
  }

  /** `put`: the method is always PUT. */
  function Put(defaults: PoolOptions, arg: OptionsArg, data: DataArg, callback: Option<Callback>): (r: Result<Prepared>)
    ensures r.Ok? ==> r.value.options.verb == Some("PUT")
    ensures r.Ok? ==> r.value.options.path == OptionsFu(arg).path
  {
    Normalize(defaults, Given(OptionsFu(arg).(verb := Some("PUT"))), data, callback)
  }

  /** `post`: the method is always POST. */
  function Post(defaults: PoolOptions, arg: OptionsArg, data: DataArg, callback: Option<Callback>): (r: Result<Prepared>)
    ensures r.Ok? ==> r.value.options.verb == Some("POST")
    ensures r.Ok? ==> r.value.options.path == OptionsFu(arg).path
  {
    Normalize(defaults, Given(OptionsFu(arg).(verb := Some("POST"))), data, callback)
  }

  /** `del`: the method is always DELETE and no agent is used; its callback
      arrives in the data position and is picked up from there. */
  function Del(defaults: PoolOptions, arg: OptionsArg, callback: Option<Callback>): (r: Result<Prepared>)
    ensures r.Ok? ==> r.value.options.verb == Some("DELETE") && r.value.options.agent == Some(false)
    ensures callback.Some? ==> r.Ok? && r.value.callback == callback
  {
    var data := if callback.Some? then FunctionData(callback.value) else NoData;
    Normalize(defaults, Given(OptionsFu(arg).(verb := Some("DELETE"), agent := Some(false))), data, None)
  }

  // ---------------------------------------------------------------------------
  // The pool object

  /** What the pool emits. */
  datatype PoolEvent =
    | HealthEvent(text: string)
    | TimeoutEvent(text: string)
    | RetryingEvent(error: string)
    | TimingEvent(ms: int, options: CallOptions)

  /** A call of a request's callback: whether it carried an error. */
  datatype Answer = Answer(token: nat, failed: bool)

  class Pool {
    const name: Option<string>
    const options: PoolOptions
    const maxPending: int
    const nodes: seq<Address>
    const length: nat
    var events: seq<PoolEvent>
    var answers: seq<Answer>

    /** A pool over the parsed nodes with the normalised options. */
    constructor (options: PoolOptions, nodes: seq<Address>)
      ensures this.options == options && name == options.name
      ensures maxPending == NumberOr(options.maxPending, 1000)
      ensures this.nodes == nodes && length == |nodes|
      ensures events == [] && answers == []
    {
      this.options := options;
      name := options.name;
      maxPending := NumberOr(options.maxPending, 1000);
      this.nodes := nodes;
      length := |nodes|;
      events := [];
      answers := [];
    }

    /** `healthy_nodes`: the indices of the healthy nodes, ascending. */
    method HealthyNodes(states: seq<NodeState>) returns (healthy: seq<nat>)
      requires |states| == length
      ensures forall k :: 0 <= k < |healthy| ==> healthy[k] < |states| && states[healthy[k]].healthy
      ensures forall i :: 0 <= i < |states| && states[i].healthy ==> i in healthy
      ensures forall j, k :: 0 <= j < k < |healthy| ==> healthy[j] < healthy[k]
    {
      healthy := [];
      var len := |states|;
      for i := 0 to len
        invariant forall k :: 0 <= k < |healthy| ==> healthy[k] < i && states[healthy[k]].healthy
        invariant forall m :: 0 <= m < i && states[m].healthy ==> m in healthy
        invariant forall j, k :: 0 <= j < k < |healthy| ==> healthy[j] < healthy[k]
      {
        if states[i].healthy {
          healthy := healthy + [i];
        }
      }
    }

    /** The 'health' handler bound to every node. */
    method NodeHealthChanged(node: Address, healthy: bool)
      modifies this`events
      ensures events == old(events) +
        [HealthEvent(node.ip + ":" + IntToString(node.port) + " health: " + (if healthy then "true" else "false"))]
    {
      events := events + [HealthEvent(node.ip + ":" + IntToString(node.port) + " health: " + (if healthy then "true" else "false"))];
    }

    /** The 'timeout' handler bound to every node: the node's address followed
        by the request's path (printed "undefined" when there is none). */
    method NodeTimedOut(node: Address, path: Option<string>)
      modifies this`events
      ensures events == old(events) +
        [TimeoutEvent(node.ip + ":" + IntToString(node.port) + (if path.Some? then path.value else "undefined"))]
    {
      events := events + [TimeoutEvent(node.ip + ":" + IntToString(node.port) + (if path.Some? then path.value else "undefined"))];
    }

    /** `onRetry`: re-emit the error as 'retrying'. */
    method OnRetry(error: string)
      modifies this`events
      ensures events == old(events) + [RetryingEvent(error)]
    {
      events := events + [RetryingEvent(error)];
    }

    /** The wrapper `request` gives the retrying request: on completion it
        marks the options with success = !err, emits 'timing' with the elapsed
        time, and calls the caller's callback; a missing callback throws
        (ok is false). */
    method Finish(p: Prepared, started: int, now: int, failed: bool) returns (ok: bool)
      modifies this`events, this`answers
      ensures events == old(events) + [TimingEvent(now - started, p.options.(success := Some(!failed)))]
      ensures ok <==> p.callback.Some?
      ensures ok ==> answers == old(answers) + [Answer(p.callback.value.token, failed)]
      ensures !ok ==> answers == old(answers)
    {
      events := events + [TimingEvent(now - started, p.options.(success := Some(!failed)))];
      if p.callback.None? {
        return false;
      }
      answers := answers + [Answer(p.callback.value.token, failed)];
      ok := true;
    }
  }

  /** The node list argument when it is an array, else nothing. */
  function EntriesOf(entries: Option<seq<string>>): seq<string> {
    if entries.Some? then entries.value else []
  }

  /** `new Pool(http, nodes, options)`: it throws for an http module without
      `request` or `Agent`, and when no entry of the node list parses. */
  method NewPool(http: Option<HttpModule>, entries: Option<seq<string>>, options: Option<PoolOptions>)
    returns (r: Result<Pool>)
    ensures !HttpUsable(http) ==> r == Err("invalid http module")
    ensures HttpUsable(http) && ValidNodes(EntriesOf(entries)) == [] ==> r == Err("no valid nodes")
    ensures HttpUsable(http) && ValidNodes(EntriesOf(entries)) != [] ==> r.Ok?
    ensures r.Ok? ==> HttpUsable(http) && fresh(r.value)
    ensures r.Ok? ==> r.value.nodes == ValidNodes(EntriesOf(entries)) && r.value.length > 0
    ensures r.Ok? ==> r.value.options == Configure(options) && r.value.events == []
  {
    if !HttpUsable(http) {
      return Err("invalid http module");
    }
    var configured := Configure(options);
    var nodes := ParseNodes(EntriesOf(entries));
    if |nodes| == 0 {
      return Err("no valid nodes");
    }
    var pool := new Pool(configured, nodes);
    r := Ok(pool);
  }
}
