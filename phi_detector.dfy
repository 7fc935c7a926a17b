/** The accrual failure detector (lib/phi_detector.js): a sliding window of
    the most recent inter-arrival spans, at most 100 of them, and their
    average. */
module Phi {

  import opened Base

  /** The window length. */
  const Size: nat := 100

  /** The last n elements of s (all of s when it is shorter). */
  function Recent(s: seq<int>, n: nat): (w: seq<int>)
    ensures |w| == if |s| <= n then |s| else n
  {
    if |s| <= n then s else s[|s| - n..]
  }

  /** Pushing onto the recent window and dropping the oldest entry when it
      overflows keeps it equal to the recent window of the longer history. */
  lemma RecentAppend(s: seq<int>, x: int, n: nat)
    requires n >= 1
    ensures var w := Recent(s, n) + [x];
      Recent(s + [x], n) == if |w| > n then w[1..] else w
  {
    var w := Recent(s, n) + [x];
    if |s| >= n {
      assert |w| == n + 1;
      assert w[1..] == (s + [x])[|s| + 1 - n..];
    }
  }

  /** The recent window has the recent length, ends with the newest entry and
      keeps arrival order. */
  lemma RecentShape(s: seq<int>, n: nat)
    ensures |Recent(s, n)| == if |s| <= n then |s| else n
    ensures forall i :: 0 <= i < |Recent(s, n)| ==>
      Recent(s, n)[i] == s[|s| - |Recent(s, n)| + i]
  {
  }

  /** total / count as a real number. */
  function Mean(total: int, count: nat): (m: real)
    requires count > 0
    ensures m * (count as real) == total as real
  {
    (total as real) / (count as real)
  }

  /** What `val` yields: 0 on a short window, otherwise the suspicion level
      span / (avg * ln 10), given here by its two inputs. */
  datatype Suspicion = Zero | Level(span: int, avg: real)

  class PhiDetector {
    var window: seq<int>
    var last: int
    var avg: real
    /** Every span recorded since construction, oldest first. */
    ghost var spans: seq<int>

    ghost predicate Valid()
      reads this
    {
      window == Recent(spans, Size) &&
      (|window| > 0 ==> avg == Mean(Sum(window), |window|)) &&
      (|window| == 0 ==> avg == 0.0)
    }

    constructor (now: int)
      ensures Valid() && window == [] && last == now && avg == 0.0 && spans == []
    {
      window := [];
      last := now;
      avg := 0.0;
      spans := [];
    }

    /** Record an arrival at `now`: append the span since the previous one,
        drop the oldest span beyond 100, and recompute the average. */
    method Touch(now: int)
      requires Valid()
      modifies this
      ensures Valid()
      ensures spans == old(spans) + [now - old(last)] && last == now
      ensures 1 <= |window| <= Size && window[|window| - 1] == now - old(last)
      ensures avg * (|window| as real) == Sum(window) as real
    {
      var span := now - last;
      last := now;
      RecentAppend(spans, span, Size);
      spans := spans + [span];
      var win := window + [span];
      if |win| > Size {
        win := win[1..];
      }
      assert win == Recent(spans, Size);
      assert 1 <= |win| <= Size && win[|win| - 1] == span;
      window := win;
      avg := Mean(Sum(win), |win|);
    }

    /** The suspicion level at `now`: 0 while fewer than 10 spans are known. */
    method Val(now: int) returns (v: Suspicion)
      ensures v == Zero <==> |window| < 10
      ensures v.Level? ==> v.span == now - last && v.avg == avg
    {
      if |window| < 10 {
        return Zero;
      }
      v := Level(now - last, avg);
    }
  }
}
