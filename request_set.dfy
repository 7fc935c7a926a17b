/** The retrying request (lib/request_set.js): one logical request tried on
    successive nodes until it succeeds, runs out of attempts, or meets a second
    hang-up or a second abort; its callback is answered at most once. */
module RequestSets {

  import opened Base
  import Ping

  /** The options a retrying request reads; a missing property is None. */
  datatype SetOptions = SetOptions(
    attempts: Option<int>,
    maxHangups: Option<int>,
    maxAborts: Option<int>,
    retryDelay: Option<int>)

  /** The error a node reports: its reason and its retry-delay directive. */
  datatype ErrorInfo = ErrorInfo(reason: string, delay: Delay)

  /** What the callback receives. */
  datatype Outcome = Response(response: nat) | Failure(error: ErrorInfo) | NoNodes

  /** What a retrying request does, in order: send the request to a node,
      schedule a retry after some milliseconds, or answer the callback. */
  datatype Step = Dispatch(node: nat) | Schedule(ms: real) | Deliver(token: nat, outcome: Outcome)

  /** Where the request stands: not yet sent, waiting for a node's answer,
      waiting for a retry timer, or finished. */
  datatype Phase = Idle | InFlight | Waiting | Done

  /** The attempt budget: `attempts` when truthy, otherwise the node count
      clamped to [2, 5]. */
  function InitialAttempts(nodeCount: nat, attempts: Option<int>): (n: int)
    ensures Truthy(attempts) ==> n == attempts.value
    ensures !Truthy(attempts) ==> 2 <= n <= 5
    ensures !Truthy(attempts) && 2 <= nodeCount <= 5 ==> n == nodeCount
    ensures !Truthy(attempts) && nodeCount < 2 ==> n == 2
    ensures !Truthy(attempts) && nodeCount > 5 ==> n == 5
  {
    if Truthy(attempts) then attempts.value
    else
      var atLeastTwo := if nodeCount > 2 then nodeCount else 2;
      if atLeastTwo < 5 then atLeastTwo else 5
  }

  /** The retry delay: 20 when undefined; any number, 0 included, is kept. */
  function BaseDelay(retryDelay: Option<int>): (d: int)
    ensures retryDelay.Some? ==> d == retryDelay.value
    ensures retryDelay.None? ==> d == 20
  {
    if retryDelay.Some? then retryDelay.value else 20
  }

  /** `exponentialBackoff(attempt, delay)` for a random draw in [0, 1):
      draw * 2^attempt * delay, positive exactly when draw and delay are. */
  function ExpBackoff(attempt: nat, delay: int, draw: real): (ms: real)
    requires 0.0 <= draw < 1.0
    ensures ms > 0.0 <==> draw > 0.0 && delay > 0
  {
    var scale := Scale(Ping.Pow2(attempt), delay);
    PositiveProduct(draw, scale);
    draw * scale
  }

  /** p * delay as a real number, for p >= 1: positive exactly when delay is. */
  function Scale(p: nat, delay: int): (s: real)
    requires p >= 1
    ensures s > 0.0 <==> delay > 0
  {
    PositiveProduct(delay as real, p as real);
    (delay as real) * (p as real)
  }

  lemma PositiveProduct(x: real, y: real)
    requires x >= 0.0 || y > 0.0
    ensures x * y > 0.0 <==> (x > 0.0 && y > 0.0) || (x < 0.0 && y < 0.0)
  {
    if x > 0.0 && y > 0.0 {
      assert x * y > 0.0;
    }
  }

  /** The delay the error asks for before the next attempt: the computed
      backoff when its delay is `true`, its own number otherwise, and none
      (not positive) when it has no delay. */
  function RetryAfter(e: ErrorInfo, attempt: nat, delay: int, draw: real): (ms: real)
    requires 0.0 <= draw < 1.0
    ensures e.delay.NoDelay? ==> ms == 0.0
    ensures e.delay.Millis? ==> ms == e.delay.ms as real
    ensures e.delay.Backoff? ==> ms == ExpBackoff(attempt, delay, draw)
    ensures e.delay.Backoff? ==> (ms > 0.0 <==> draw > 0.0 && delay > 0)
  {
    match e.delay
    case NoDelay => 0.0
    case Backoff => ExpBackoff(attempt, delay, draw)
    case Millis(n) => n as real
  }

  /** The number of answers in a log. */
  function Answers(log: seq<Step>): (n: nat)
    ensures n <= |log|
  {
    if log == [] then 0 else Answers(log[..|log| - 1]) + (if log[|log| - 1].Deliver? then 1 else 0)
  }

  /** The number of dispatches in a log. */
  function Dispatches(log: seq<Step>): (n: nat)
    ensures n <= |log|
  {
    if log == [] then 0 else Dispatches(log[..|log| - 1]) + (if log[|log| - 1].Dispatch? then 1 else 0)
  }

  lemma CountsAppend(log: seq<Step>, s: Step)
    ensures Answers(log + [s]) == Answers(log) + (if s.Deliver? then 1 else 0)
    ensures Dispatches(log + [s]) == Dispatches(log) + (if s.Dispatch? then 1 else 0)
  {
    assert (log + [s])[..|log|] == log;
  }

  class RequestSet {
    const options: SetOptions
    const attempts: int
    const maxHangups: int
    const maxAborts: int
    const delay: int
    var attemptsLeft: int
    var hangups: nat
    var aborts: nat
    var callback: Option<nat>
    var log: seq<Step>
    ghost var phase: Phase
    /** The answers received from nodes so far. */
    ghost var responses: nat
    /** The callback given at construction. */
    ghost const initial: Option<nat>

    /** Every answer consumed one attempt; a request is out only while in
        flight; a pending retry has attempts left and fewer than two hang-ups
        and two aborts; the callback is answered at most once, and only when
        the request is done. */
    ghost predicate Valid()
      reads this
    {
      responses == attempts - attemptsLeft &&
      Dispatches(log) == responses + (if phase == InFlight then 1 else 0) &&
      Dispatches(log) <= Budget() &&
      hangups + aborts <= responses &&
      (phase == Idle ==> responses == 0) &&
      (phase == Waiting ==> attemptsLeft > 0) &&
      (phase != Done ==> hangups < 2 && aborts < 2) &&
      Answers(log) <= 1 &&
      (phase != Done ==> Answers(log) == 0 && callback == initial)
    }

    /** `new RequestSet(pool, options, callback)` for a pool of nodeCount
        nodes. */
    constructor (nodeCount: nat, options: SetOptions, callback: Option<nat>)
      ensures Valid() && phase == Idle && log == []
      ensures attempts == InitialAttempts(nodeCount, options.attempts) && attemptsLeft == attempts
      ensures maxHangups == NumberOr(options.maxHangups, 2) && maxAborts == NumberOr(options.maxAborts, 2)
      ensures delay == BaseDelay(options.retryDelay) && this.options == options.(retryDelay := Some(delay))
      ensures hangups == 0 && aborts == 0 && this.callback == callback
    {
      var budget := InitialAttempts(nodeCount, options.attempts);
      attemptsLeft := budget;
      attempts := budget;
      maxHangups := NumberOr(options.maxHangups, 2);
      hangups := 0;
      maxAborts := NumberOr(options.maxAborts, 2);
      aborts := 0;
      var d := BaseDelay(options.retryDelay);
      this.options := options.(retryDelay := Some(d));
      delay := d;
      this.callback := callback;
      initial := callback;
      log := [];
      phase := Idle;
      responses := 0;
    }

    /** The most requests ever sent: max(attempts, 1). */
    function Budget(): int {
      if attempts > 1 then attempts else 1
    }

    /** `doRequest`: send the request to the node the pool picked, or answer
        'no nodes' when it picked none (calling a null callback throws: ok is
        false). */
    method DoRequest(node: Option<nat>) returns (ok: bool)
      requires Valid() && (phase == Idle || phase == Waiting)
      modifies this`log, this`phase
      ensures Valid()
      ensures node.Some? ==> ok && phase == InFlight && log == old(log) + [Dispatch(node.value)]
      ensures node.None? && callback.Some? ==>
        ok && phase == Done && log == old(log) + [Deliver(callback.value, NoNodes)]
      ensures node.None? && callback.None? ==> !ok && phase == Done && log == old(log)
    {
      if node.Some? {
        SendTo(node.value);
        return true;
      }
      phase := Done;
      if callback.None? {
        return false;
      }
      AnswerNoNodes();
      ok := true;
    }

    /** The request goes out to node n: one more dispatch, within the budget. */
    method SendTo(n: nat)
      requires Valid() && (phase == Idle || phase == Waiting)
      modifies this`log, this`phase
      ensures Valid() && phase == InFlight && log == old(log) + [Dispatch(n)]
    {
      CountsAppend(log, Dispatch(n));
      assert Dispatches(log + [Dispatch(n)]) == responses + 1 <= Budget();
      log := log + [Dispatch(n)];
      phase := InFlight;
    }

    /** The pool had no node: the callback hears 'no nodes', the only answer. */
    method AnswerNoNodes()
      requires Valid() && phase == Done && Answers(log) == 0 && callback.Some?
      modifies this`log
      ensures Valid() && log == old(log) + [Deliver(callback.value, NoNodes)]
    {
      CountsAppend(log, Deliver(callback.value, NoNodes));
      log := log + [Deliver(callback.value, NoNodes)];
    }

    /** `handleResponse`: one answer from a node. It uses up an attempt; an
        error is counted as a hang-up or an abort by its reason, and is retried
        while attempts remain and fewer than two hang-ups and two aborts were
        seen: after `RetryAfter` ms when that is positive, at once (to the node
        `next`) otherwise. Otherwise the outcome goes to the callback, once. */
    method HandleResponse(outcome: Outcome, draw: real, next: Option<nat>) returns (ok: bool)
      requires Valid() && phase == InFlight && !outcome.NoNodes?
      requires 0.0 <= draw < 1.0
      modifies this`attemptsLeft, this`hangups, this`aborts, this`callback, this`log, this`phase, this`responses
      ensures Valid()
      ensures attemptsLeft == old(attemptsLeft) - 1
      ensures Retried(outcome) ==> callback == old(callback)
      ensures outcome.Failure? && outcome.error.reason == "socket hang up" ==>
        hangups == old(hangups) + 1 && aborts == old(aborts)
      ensures outcome.Failure? && outcome.error.reason == "aborted" ==>
        hangups == old(hangups) && aborts == old(aborts) + 1
      ensures !(outcome.Failure? && outcome.error.reason in {"socket hang up", "aborted"}) ==>
        hangups == old(hangups) && aborts == old(aborts)
      ensures Retried(outcome) && RetryAfter(outcome.error, attempts - attemptsLeft, delay, draw) > 0.0 ==>
        ok && phase == Waiting && log == old(log) + [Schedule(RetryAfter(outcome.error, attempts - attemptsLeft, delay, draw))]
      ensures Retried(outcome) && RetryAfter(outcome.error, attempts - attemptsLeft, delay, draw) <= 0.0 ==>
        (next.Some? ==> ok && phase == InFlight && log == old(log) + [Dispatch(next.value)]) &&
        (next.None? && callback.Some? ==> ok && phase == Done && log == old(log) + [Deliver(callback.value, NoNodes)]) &&
        (next.None? && callback.None? ==> !ok && phase == Done && log == old(log))
      ensures !Retried(outcome) && old(callback).Some? ==>
        ok && phase == Done && callback.None? && log == old(log) + [Deliver(old(callback).value, outcome)]
      ensures !Retried(outcome) && old(callback).None? ==> ok && phase == Done && log == old(log)
    {
      Count(outcome);
      if Retried(outcome) {
        var ms := RetryAfter(outcome.error, attempts - attemptsLeft, delay, draw);
        ok := Retry(ms, next);
      } else {
        Conclude(outcome);
        ok := true;
      }
    }

    /** After an answer: an error is retried while attempts remain and fewer
        than two hang-ups and two aborts have been seen. */
    predicate Retried(outcome: Outcome)
      reads this`attemptsLeft, this`hangups, this`aborts
    {
      outcome.Failure? && attemptsLeft > 0 && hangups < 2 && aborts < 2
    }

    /** The bookkeeping of one answer: one attempt fewer, and the hang-up or
        abort it may be. The request is then between attempts. */
    method Count(outcome: Outcome)
      requires Valid() && phase == InFlight
      modifies this`attemptsLeft, this`hangups, this`aborts, this`responses, this`phase
      ensures Valid() && (if Retried(outcome) then phase == Waiting else phase == Done)
      ensures phase == Done ==> Answers(log) == 0 && callback == initial
      ensures attemptsLeft == old(attemptsLeft) - 1 && responses == old(responses) + 1
      ensures outcome.Failure? && outcome.error.reason == "socket hang up" ==>
        hangups == old(hangups) + 1 && aborts == old(aborts)
      ensures outcome.Failure? && outcome.error.reason == "aborted" ==>
        hangups == old(hangups) && aborts == old(aborts) + 1
      ensures !(outcome.Failure? && outcome.error.reason in {"socket hang up", "aborted"}) ==>
        hangups == old(hangups) && aborts == old(aborts)
    {
      attemptsLeft := attemptsLeft - 1;
      responses := responses + 1;
      if outcome.Failure? {
        if outcome.error.reason == "socket hang up" {
          hangups := hangups + 1;
        } else if outcome.error.reason == "aborted" {
          aborts := aborts + 1;
        }
      }
      phase := if Retried(outcome) then Waiting else Done;
    }

    /** A retry: after ms milliseconds when that is positive, else at once. */
    method Retry(ms: real, next: Option<nat>) returns (ok: bool)
      requires Valid() && phase == Waiting
      modifies this`log, this`phase
      ensures Valid()
      ensures ms > 0.0 ==> ok && phase == Waiting && log == old(log) + [Schedule(ms)]
      ensures ms <= 0.0 && next.Some? ==> ok && phase == InFlight && log == old(log) + [Dispatch(next.value)]
      ensures ms <= 0.0 && next.None? && callback.Some? ==>
        ok && phase == Done && log == old(log) + [Deliver(callback.value, NoNodes)]
      ensures ms <= 0.0 && next.None? && callback.None? ==> !ok && phase == Done && log == old(log)
    {
      if ms > 0.0 {
        CountsAppend(log, Schedule(ms));
        log := log + [Schedule(ms)];
        return true;
      }
      ok := DoRequest(next);
    }

    /** The final answer: delivered to the callback, which is then cleared. */
    method Conclude(outcome: Outcome)
      requires Valid() && phase == Done && Answers(log) == 0
      modifies this`log, this`callback
      ensures Valid() && callback.None?
      ensures old(callback).Some? ==> log == old(log) + [Deliver(old(callback).value, outcome)]
      ensures old(callback).None? ==> log == old(log)
    {
      if callback.Some? {
        CountsAppend(log, Deliver(callback.value, outcome));
        log := log + [Deliver(callback.value, outcome)];
        callback := None;
      }
    }
  }

  /** `RequestSet.request(pool, options, callback)`: a new retrying request,
      sent at once to the node the pool picks. */
  method Request(nodeCount: nat, options: SetOptions, callback: Option<nat>, node: Option<nat>)
    returns (rs: RequestSet, ok: bool)
    ensures fresh(rs) && rs.Valid()
    ensures rs.attempts == InitialAttempts(nodeCount, options.attempts) && rs.attemptsLeft == rs.attempts
    ensures rs.hangups == 0 && rs.aborts == 0 && rs.callback == callback
    ensures node.Some? ==> ok && rs.phase == InFlight && rs.log == [Dispatch(node.value)]
    ensures node.None? && callback.Some? ==> ok && rs.phase == Done && rs.log == [Deliver(callback.value, NoNodes)]
    ensures node.None? && callback.None? ==> !ok
  {
    rs := new RequestSet(nodeCount, options, callback);
    ok := rs.DoRequest(node);
  }

  /** Two hang-ups end the request even with attempts left: the first is
      retried at once on the next node, and the callback receives the second. */
  method TwoHangups(nodeCount: nat, options: SetOptions, token: nat, first: nat, second: nat,
                    third: Option<nat>, e1: ErrorInfo, e2: ErrorInfo, draw: real)
    returns (rs: RequestSet)
    requires InitialAttempts(nodeCount, options.attempts) >= 2
    requires e1.reason == "socket hang up" && e1.delay == NoDelay && e2.reason == "socket hang up"
    requires 0.0 <= draw < 1.0
    ensures rs.Valid() && rs.phase == Done && rs.hangups == 2
    ensures rs.log == [Dispatch(first), Dispatch(second), Deliver(token, Failure(e2))]
  {
    var ok;
    rs, ok := Request(nodeCount, options, Some(token), Some(first));
    ok := rs.HandleResponse(Failure(e1), draw, Some(second));
    ok := rs.HandleResponse(Failure(e2), draw, third);
  }
}
