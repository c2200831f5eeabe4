/**
 * BeaconRangingSmoother: keeps every beacon it is given, restamped with the
 * time it was added, and on each read reports those stamped less than
 * `smoothingWindowMillis` ago. Nothing is ever removed; staleness is decided
 * when the list is read. Beacons are the caller's objects: `add` overwrites
 * their `lastCycleDetectionTimestamp`, so a beacon added twice has both of its
 * list slots refreshed. The wall clock is passed in as `now`.
 */
module RangingSmoother {
  import opened KotlinNumbers
  import opened Beacons

  const DEFAULT_SMOOTHING_WINDOW_MILLIS: Long := 10000

  /** The tracked beacons stamped less than `window` before `now`, in tracked order. */
  function VisibleAt(tracked: seq<Beacon>, window: int, now: int): (visible: seq<Beacon>)
    reads tracked
    ensures |visible| <= |tracked|
  {
    if tracked == [] then []
    else
      var b := tracked[|tracked| - 1];
      VisibleAt(tracked[..|tracked| - 1], window, now)
        + (if now - b.lastCycleDetectionTimestamp < window then [b] else [])
  }

  /** `xs` is `ys` with some elements left out and the rest in their order. */
  ghost predicate SubsequenceOf<T>(xs: seq<T>, ys: seq<T>)
    decreases |ys|
  {
    if ys == [] then xs == []
    else
      || (xs != [] && xs[|xs| - 1] == ys[|ys| - 1] && SubsequenceOf(xs[..|xs| - 1], ys[..|ys| - 1]))
      || SubsequenceOf(xs, ys[..|ys| - 1])
  }

  lemma {:induction false} SubsequenceNoLonger<T>(xs: seq<T>, ys: seq<T>)
    requires SubsequenceOf(xs, ys)
    ensures |xs| <= |ys|
    ensures forall x :: x in xs ==> x in ys
    decreases |ys|
  {
    if ys != [] {
      var ys' := ys[..|ys| - 1];
      if xs != [] && xs[|xs| - 1] == ys[|ys| - 1] && SubsequenceOf(xs[..|xs| - 1], ys') {
        SubsequenceNoLonger(xs[..|xs| - 1], ys');
        assert xs == xs[..|xs| - 1] + [xs[|xs| - 1]];
        assert ys == ys' + [ys[|ys| - 1]];
      } else {
        SubsequenceNoLonger(xs, ys');
        assert ys == ys' + [ys[|ys| - 1]];
      }
    }
  }

  /** A beacon is visible exactly when it is tracked and was stamped less than `window` ago. */
  lemma {:induction false} VisibleMembership(tracked: seq<Beacon>, window: int, now: int, b: Beacon)
    ensures b in VisibleAt(tracked, window, now) <==> b in tracked && now - b.lastCycleDetectionTimestamp < window
  {
    if tracked != [] {
      var prefix := tracked[..|tracked| - 1];
      VisibleMembership(prefix, window, now, b);
      assert tracked == prefix + [tracked[|tracked| - 1]];
    }
  }

  /** The visible list is the tracked list with the stale beacons left out, so it is never longer. */
  lemma {:induction false} VisibleIsSubsequence(tracked: seq<Beacon>, window: int, now: int)
    ensures SubsequenceOf(VisibleAt(tracked, window, now), tracked)
    ensures |VisibleAt(tracked, window, now)| <= |tracked|
  {
    if tracked != [] {
      var prefix := tracked[..|tracked| - 1];
      var b := tracked[|tracked| - 1];
      VisibleIsSubsequence(prefix, window, now);
      var visible := VisibleAt(tracked, window, now);
      if now - b.lastCycleDetectionTimestamp < window {
        assert visible[..|visible| - 1] == VisibleAt(prefix, window, now);
        assert visible[|visible| - 1] == b;
      } else {
        assert visible == VisibleAt(prefix, window, now);
      }
    }
    SubsequenceNoLonger(VisibleAt(tracked, window, now), tracked);
  }

  /**
   * With the default window, a beacon stamped at `t` is still visible at
   * `t + 9999` and no longer at `t + 10000`: the bound is strict.
   */
  lemma DefaultWindowBoundary(tracked: seq<Beacon>, b: Beacon, t: int)
    requires b in tracked && b.lastCycleDetectionTimestamp == t
    ensures b in VisibleAt(tracked, DEFAULT_SMOOTHING_WINDOW_MILLIS, t + 9999)
    ensures b !in VisibleAt(tracked, DEFAULT_SMOOTHING_WINDOW_MILLIS, t + 10000)
  {
    VisibleMembership(tracked, DEFAULT_SMOOTHING_WINDOW_MILLIS, t + 9999, b);
    VisibleMembership(tracked, DEFAULT_SMOOTHING_WINDOW_MILLIS, t + 10000, b);
  }

  /** A tracked beacon stamped at `now` is visible at `now` whenever the window is positive. */
  lemma JustStampedIsVisible(tracked: seq<Beacon>, window: int, now: int, b: Beacon)
    requires window > 0 && b in tracked && b.lastCycleDetectionTimestamp == now
    ensures b in VisibleAt(tracked, window, now)
  {
    VisibleMembership(tracked, window, now, b);
  }

  class BeaconRangingSmoother {
    /** Every beacon ever added, in the order added, duplicates included. */
    var beacons: seq<Beacon>
    var smoothingWindowMillis: Long

    constructor ()
      ensures beacons == [] && smoothingWindowMillis == DEFAULT_SMOOTHING_WINDOW_MILLIS
    {
      beacons := [];
      smoothingWindowMillis := DEFAULT_SMOOTHING_WINDOW_MILLIS;
    }

    /** The `visibleBeacons` getter: a fresh list, built by one pass over the tracked beacons. */
    method VisibleBeacons(now: Long) returns (visible: seq<Beacon>)
      ensures visible == VisibleAt(beacons, smoothingWindowMillis, now)
    {
      visible := [];
      for i := 0 to |beacons|
        invariant visible == VisibleAt(beacons[..i], smoothingWindowMillis, now)
      {
        assert beacons[..i + 1][..i] == beacons[..i];
        if now - beacons[i].lastCycleDetectionTimestamp < smoothingWindowMillis {
          visible := visible + [beacons[i]];
        }
      }
      assert beacons[..|beacons|] == beacons;
    }

    /**
     * `add(detectedBeacons)`: stamp each beacon with `now` and append it;
     * returns this smoother so that calls chain.
     */
    method Add(detectedBeacons: seq<Beacon>, now: Long) returns (self: BeaconRangingSmoother)
      modifies this, detectedBeacons
      ensures self == this
      ensures beacons == old(beacons) + detectedBeacons
      ensures smoothingWindowMillis == old(smoothingWindowMillis)
      ensures forall b :: b in detectedBeacons ==> b.lastCycleDetectionTimestamp == now
      ensures smoothingWindowMillis > 0 ==>
        forall b :: b in detectedBeacons ==> b in VisibleAt(beacons, smoothingWindowMillis, now)
    {
      for i := 0 to |detectedBeacons|
        invariant beacons == old(beacons) + detectedBeacons[..i]
        invariant smoothingWindowMillis == old(smoothingWindowMillis)
        invariant forall k :: 0 <= k < i ==> detectedBeacons[k].lastCycleDetectionTimestamp == now
      {
        var beacon := detectedBeacons[i];
        beacon.lastCycleDetectionTimestamp := now;
        beacons := beacons + [beacon];
      }
      assert detectedBeacons[..|detectedBeacons|] == detectedBeacons;
      forall b | b in detectedBeacons && smoothingWindowMillis > 0
        ensures b in VisibleAt(beacons, smoothingWindowMillis, now)
      {
        JustStampedIsVisible(beacons, smoothingWindowMillis, now, b);
      }
      self := this;
    }
  }
}
