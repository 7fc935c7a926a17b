/** The health prober (lib/pinger.js): once started it probes, and on every
    failed probe counts an attempt and probes again after a capped,
    randomised exponential backoff, until one probe answers 200. */
module Ping {

  /** 2 to the power n. */
  function Pow2(n: nat): (r: nat)
    ensures r >= 1
  {
    if n == 0 then 1 else 2 * Pow2(n - 1)
  }

  /** The delay before the next probe after `attempt` failures, for a random
      draw in [0, 1): the floor of draw * 2^attempt + 10, capped at 10000 ms. */
  function Backoff(attempt: nat, draw: real): (ms: int)
    requires 0.0 <= draw < 1.0
    ensures 10 <= ms <= 10000
    ensures ms < 10 + Pow2(attempt)
  {
    var x := Scaled(draw, Pow2(attempt)) + 10.0;
    FloorWithin(x, 10, Pow2(attempt) + 10);
    if x.Floor < 10000 then x.Floor else 10000
  }

  /** draw * p, for a draw in [0, 1): it lies in [0, p). */
  function Scaled(draw: real, p: nat): (y: real)
    requires 0.0 <= draw < 1.0 && p >= 1
    ensures 0.0 <= y < p as real
  {
    assert (1.0 - draw) * (p as real) > 0.0;
    draw * (p as real)
  }

  lemma FloorWithin(x: real, lo: int, hi: int)
    requires lo as real <= x < hi as real
    ensures lo <= x.Floor < hi
  {
  }

  /** What the prober does, in order: probe now, probe after a delay, or
      announce success. */
  datatype Step = ProbeNow | ProbeAfter(ms: int) | Pong

  class Pinger {
    var running: bool
    var attempts: nat
    var log: seq<Step>
    /** Probes sent or scheduled whose answer has not arrived. */
    ghost var outstanding: nat
    /** Probes issued since the last effective `start`. */
    ghost var sinceStart: nat

    /** A running prober has exactly one probe out, and has issued one probe
        per failure counted plus the first. */
    ghost predicate Valid()
      reads this
    {
      outstanding == (if running then 1 else 0) &&
      (running ==> sinceStart == attempts + 1)
    }

    constructor ()
      ensures Valid() && !running && attempts == 0 && log == []
    {
      running := false;
      attempts := 0;
      log := [];
      outstanding := 0;
      sinceStart := 0;
    }

    /** Probe at once when no attempt has failed, otherwise after the backoff. */
    method Ping(draw: real)
      requires 0.0 <= draw < 1.0
      modifies this`log, this`outstanding, this`sinceStart
      ensures attempts == 0 ==> log == old(log) + [ProbeNow]
      ensures attempts != 0 ==> log == old(log) + [ProbeAfter(Backoff(attempts, draw))]
      ensures outstanding == old(outstanding) + 1 && sinceStart == old(sinceStart) + 1
    {
      if attempts != 0 {
        log := log + [ProbeAfter(Backoff(attempts, draw))];
      } else {
        log := log + [ProbeNow];
      }
      outstanding := outstanding + 1;
      sinceStart := sinceStart + 1;
    }

    /** Starting a running prober does nothing; otherwise it resets the
        attempt count and probes at once. */
    method Start()
      requires Valid()
      modifies this
      ensures Valid()
      ensures old(running) ==> running && attempts == old(attempts) && log == old(log)
      ensures !old(running) ==> running && attempts == 0 && log == old(log) + [ProbeNow]
    {
      if !running {
        running := true;
        attempts := 0;
        sinceStart := 0;
        Ping(0.0);
      }
    }

    /** The answer to a probe: no error and status 200 announces success and
        stops; anything else counts a failed attempt and probes again. A
        running prober stays valid. */
    method PingResponse(error: bool, status: int, draw: real)
      requires 0.0 <= draw < 1.0
      modifies this
      ensures !error && status == 200 ==>
        !running && attempts == old(attempts) && log == old(log) + [Pong]
      ensures error || status != 200 ==>
        running == old(running) && attempts == old(attempts) + 1 &&
        log == old(log) + [ProbeAfter(Backoff(old(attempts) + 1, draw))]
      ensures old(Valid()) && old(running) ==> Valid()
    {
      outstanding := if outstanding > 0 then outstanding - 1 else 0;
      if !error && status == 200 {
        log := log + [Pong];
        running := false;
      } else {
        attempts := attempts + 1;
        Ping(draw);
      }
    }
  }

  /** After k failures in a row from a fresh start, the prober is still
      running, has counted k attempts, and each failure scheduled one delayed
      probe: the log is the first probe followed by k delayed probes. */
  method FailuresFromStart(p: Pinger, draws: seq<real>)
    requires p.Valid() && !p.running
    requires forall i :: 0 <= i < |draws| ==> 0.0 <= draws[i] < 1.0
    modifies p
    ensures p.Valid() && p.running && p.attempts == |draws|
    ensures |p.log| == |old(p.log)| + 1 + |draws|
    ensures p.log[|old(p.log)|] == ProbeNow
    ensures forall i :: 0 <= i < |draws| ==>
      p.log[|old(p.log)| + 1 + i] == ProbeAfter(Backoff(i + 1, draws[i]))
  {
    p.Start();
    var i := 0;
    while i < |draws|
      invariant 0 <= i <= |draws|
      invariant p.Valid() && p.running && p.attempts == i
      invariant |p.log| == |old(p.log)| + 1 + i
      invariant p.log[|old(p.log)|] == ProbeNow
      invariant forall j :: 0 <= j < i ==>
        p.log[|old(p.log)| + 1 + j] == ProbeAfter(Backoff(j + 1, draws[j]))
    {
      p.PingResponse(true, 0, draws[i]);
      i := i + 1;
    }
  }
}
