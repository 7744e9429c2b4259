/** The largest number of events in any half-open window of a given length. */
module SlidingWindow {
  ghost predicate Sorted(ts: seq<real>) { forall i, j | 0 <= i <= j < |ts| :: ts[i] <= ts[j] }

  predicate Within(x: real, t: real, seconds: nat) { t <= x < t + seconds as real }

  /** How many of the events lie in [t, t + seconds). */
  function InWindow(ts: seq<real>, t: real, seconds: nat): nat {
    if ts == [] then 0 else (if Within(ts[0], t, seconds) then 1 else 0) + InWindow(ts[1..], t, seconds)
  }

  /** `best` is the maximum over every real start. */
  ghost predicate IsPeak(ts: seq<real>, seconds: nat, best: nat) {
    && (forall t: real :: InWindow(ts, t, seconds) <= best)
    && (exists t: real :: InWindow(ts, t, seconds) == best)
  }

  /** bisect_left: where x would go among the elements from lo on. */
  function BisectLeft(ts: seq<real>, x: real, lo: nat): (j: nat)
    requires lo <= |ts|
    ensures lo <= j <= |ts|
    ensures forall k | lo <= k < j :: ts[k] < x
    ensures j < |ts| ==> x <= ts[j]
    decreases |ts| - lo
  {
    if lo == |ts| || x <= ts[lo] then lo else BisectLeft(ts, x, lo + 1)
  }

  /** In a sorted list a window is a range of positions. */
  lemma {:induction false} WindowIsARange(ts: seq<real>, t: real, seconds: nat, i: nat, j: nat)
    requires Sorted(ts) && i <= j <= |ts|
    requires forall k | 0 <= k < |ts| ::
      (t <= ts[k] <==> i <= k) && (i <= k ==> (ts[k] < t + seconds as real <==> k < j))
    ensures InWindow(ts, t, seconds) == j - i
  {
    if ts != [] {
      var i', j' := if i == 0 then 0 else i - 1, if j == 0 then 0 else j - 1;
      var rest := ts[1..];
      forall k | 0 <= k < |rest|
        ensures (t <= rest[k] <==> i' <= k) && (i' <= k ==> (rest[k] < t + seconds as real <==> k < j'))
      {
        assert rest[k] == ts[k + 1];
      }
      WindowIsARange(rest, t, seconds, i', j');
    }
  }

  /** The window of any start holds no more than the one that starts at its first event. */
  lemma StartAtAnEvent(ts: seq<real>, t: real, seconds: nat, i: nat)
    requires Sorted(ts) && i == BisectLeft(ts, t, 0)
    ensures InWindow(ts, t, seconds) <= if i == |ts| then 0 else InWindow(ts, ts[i], seconds)
  {
    if i == |ts| {
      WindowIsARange(ts, t, seconds, i, i);
    } else {
      var j := BisectLeft(ts, t + seconds as real, i);
      WindowIsARange(ts, t, seconds, i, j);
      FromEvent(ts, seconds, i, BisectLeft(ts, ts[i] + seconds as real, i));
    }
  }

  lemma {:induction false} FirstOfEquals(ts: seq<real>, i: nat) returns (f: nat)
    requires Sorted(ts) && i < |ts|
    ensures f <= i && ts[f] == ts[i] && forall k | 0 <= k < f :: ts[k] < ts[i]
  {
    if i == 0 || ts[i - 1] < ts[i] { f := i; } else { f := FirstOfEquals(ts, i - 1); }
  }

  /** Counting on from an event never exceeds its window, which counts its equals as well. */
  lemma FromEvent(ts: seq<real>, seconds: nat, i: nat, j: nat)
    requires Sorted(ts) && i < |ts| && j == BisectLeft(ts, ts[i] + seconds as real, i)
    ensures j - i <= InWindow(ts, ts[i], seconds)
    ensures (forall k | 0 <= k < i :: ts[k] < ts[i]) ==> j - i == InWindow(ts, ts[i], seconds)
  {
    var f := FirstOfEquals(ts, i);
    if seconds > 0 {
      WindowIsARange(ts, ts[i], seconds, f, j);
    } else {
      WindowIsARange(ts, ts[i], seconds, f, f);
    }
  }

  lemma {:induction false} BisectFromFurther(ts: seq<real>, x: real, lo: nat, further: nat)
    requires lo <= further <= |ts| && forall k | lo <= k < further :: ts[k] < x
    ensures BisectLeft(ts, x, further) == BisectLeft(ts, x, lo)
    decreases further - lo
  {
    if lo < further { BisectFromFurther(ts, x, lo + 1, further); }
  }

  /** window_max. */
  method WindowMax(ts: seq<real>, seconds: nat) returns (best: nat)
    requires Sorted(ts)
    ensures IsPeak(ts, seconds, best)
  {
    best := 0;
    var j := 0;
    ghost var start: real := if ts == [] then 0.0 else ts[0] - seconds as real - 1.0;
    assert InWindow(ts, start, seconds) == 0 by {
      if ts != [] { WindowIsARange(ts, start, seconds, 0, 0); }
    }
    for i := 0 to |ts|
      invariant j <= |ts| && (i == 0 ==> j == 0)
      invariant forall k | i <= k < j :: i > 0 && ts[k] < ts[i - 1] + seconds as real
      invariant forall k | 0 <= k < i :: InWindow(ts, ts[k], seconds) <= best
      invariant InWindow(ts, start, seconds) == best
    {
      if j < i { j := i; }
      BisectFromFurther(ts, ts[i] + seconds as real, i, j);
      j := BisectLeft(ts, ts[i] + seconds as real, j);
      FromEvent(ts, seconds, i, j);
      ghost var f := FirstOfEquals(ts, i);
      assert f < i ==> InWindow(ts, ts[f], seconds) <= best;
      if best < j - i {
        best := j - i;
        start := ts[i];
      }
    }
    forall t: real ensures InWindow(ts, t, seconds) <= best { StartAtAnEvent(ts, t, seconds, BisectLeft(ts, t, 0)); }
  }
}
