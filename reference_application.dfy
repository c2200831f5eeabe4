/**
 * The application's wiring of the beacon log: the ranging observer, which
 * appends a ranged batch to the repository only when the batch is fresh, and
 * one pass of the logging thread's loop, which drains the repository. The
 * clock is passed in as `now`.
 */
module ReferenceApplication {
  import opened KotlinNumbers
  import opened Beacons
  import opened LogRepository

  /** A ranged batch older than this is ignored. */
  const STALE_AFTER_MILLIS: int := 10000

  /** How old a batch is: measured from its first beacon's latest detection, or from 0 for an empty batch. */
  function RangeAgeMillis(beacons: seq<Beacon>, now: int): (age: int)
    reads beacons
    ensures beacons != [] ==> age == now - beacons[0].lastCycleDetectionTimestamp
    ensures beacons == [] ==> age == now
  {
    now - (if beacons == [] then 0 else beacons[0].lastCycleDetectionTimestamp)
  }

  predicate IsFresh(beacons: seq<Beacon>, now: int)
    reads beacons
  {
    RangeAgeMillis(beacons, now) < STALE_AFTER_MILLIS
  }

  /** Only the first beacon decides: whatever follows it, the batch is accepted or refused as a whole. */
  lemma FirstBeaconDecides(first: Beacon, rest: seq<Beacon>, now: int)
    ensures IsFresh([first] + rest, now) <==> now - first.lastCycleDetectionTimestamp < STALE_AFTER_MILLIS
  {
    assert ([first] + rest)[0] == first;
  }

  /** Something the application reacts to: a ranged batch arriving at `now`, or a pass of the logging loop. */
  datatype AppEvent = Ranged(beacons: seq<Beacon>, now: int) | LoggingPass

  /** The beacons the events carry. */
  function EventBeacons(events: seq<AppEvent>): set<Beacon>
  {
    if events == [] then {}
    else (if events[0].Ranged? then set b | b in events[0].beacons else {}) + EventBeacons(events[1..])
  }

  /** The repository calls the events cause: an append for a fresh batch, none for a stale one, a consume per pass. */
  function LogCalls(events: seq<AppEvent>): seq<LogCall>
    reads EventBeacons(events)
  {
    if events == [] then []
    else
      var first := match events[0]
        case Ranged(beacons, now) => if IsFresh(beacons, now) then [Append(BeaconToEntry(beacons))] else []
        case LoggingPass => [Consume];
      first + LogCalls(events[1..])
  }

  /** The entries of the fresh batches, in arrival order. */
  function FreshEntries(events: seq<AppEvent>): seq<Entry>
    reads EventBeacons(events)
  {
    if events == [] then []
    else
      var first := match events[0]
        case Ranged(beacons, now) => if IsFresh(beacons, now) then BeaconToEntry(beacons) else []
        case LoggingPass => [];
      first + FreshEntries(events[1..])
  }

  lemma {:induction false} AppendedOfConcat(xs: seq<LogCall>, ys: seq<LogCall>)
    ensures Appended(xs + ys) == Appended(xs) + Appended(ys)
    decreases |xs|
  {
    if xs == [] {
      assert xs + ys == ys;
    } else {
      assert (xs + ys)[1..] == xs[1..] + ys;
      AppendedOfConcat(xs[1..], ys);
    }
  }

  /** What the calls append is what the fresh batches carry. */
  lemma {:induction false} AppendedAreFresh(events: seq<AppEvent>)
    ensures Appended(LogCalls(events)) == FreshEntries(events)
    decreases |events|
  {
    if events != [] {
      var rest := LogCalls(events[1..]);
      AppendedAreFresh(events[1..]);
      match events[0]
      case Ranged(beacons, now) =>
        if IsFresh(beacons, now) {
          AppendedOfConcat([Append(BeaconToEntry(beacons))], rest);
        } else {
          assert LogCalls(events) == [] + rest == rest;
          assert FreshEntries(events) == [] + FreshEntries(events[1..]) == FreshEntries(events[1..]);
        }
      case LoggingPass =>
        AppendedOfConcat([Consume], rest);
    }
  }

  /**
   * End to end: whatever the order of ranged batches and logging passes, the
   * drained batches followed by what is still buffered are exactly the
   * entries of the fresh batches, in arrival order. A stale batch never
   * reaches the log; a fresh one is logged once.
   */
  lemma FreshBatchesLoggedExactlyOnce(events: seq<AppEvent>)
    ensures var run := Replay([], LogCalls(events));
      Concat(run.drained) + run.log == FreshEntries(events)
  {
    ExactlyOnce([], LogCalls(events));
    AppendedAreFresh(events);
  }

  class BeaconReferenceApplication {
    const bleLogRepository: BLELogRepository

    constructor ()
      ensures fresh(bleLogRepository) && bleLogRepository.recentTagLog == []
    {
      bleLogRepository := new BLELogRepository();
    }

    /** `centralRangingObserver`: log the batch if it is fresh, otherwise ignore it. */
    method CentralRangingObserver(beacons: seq<Beacon>, now: Long) returns (accepted: bool)
      modifies bleLogRepository
      ensures accepted <==> IsFresh(beacons, now)
      ensures bleLogRepository.recentTagLog
        == old(bleLogRepository.recentTagLog) + (if accepted then BeaconToEntry(beacons) else [])
    {
      var rangeAgeMillis := RangeAgeMillis(beacons, now);
      if rangeAgeMillis < STALE_AFTER_MILLIS {
        bleLogRepository.AppendBeacons(beacons);
        accepted := true;
      } else {
        accepted := false;
      }
    }

    /** One pass of the logging thread's loop: drain the log; the drained batch is not exported. */
    method LoggingPass()
      modifies bleLogRepository
      ensures bleLogRepository.recentTagLog == []
    {
      var drained := bleLogRepository.ConsumeLog();
    }
  }
}
