/**
 * BLELogRepository: the buffer between the ranging callback (producer) and
 * the periodic logging task (consumer). `appendLog` extends the buffered log
 * and `consumeLog` hands out a deep copy of it and clears it, both inside one
 * critical section of `logMutex`; each is modelled as one atomic method.
 * Also here: the `Entry` record with its defaults, the mapping of ranged
 * beacons to entries, and the JSON round trip `deepCopy` is built on.
 */
module LogRepository {
  import opened Wrappers
  import opened KotlinNumbers
  import opened Uuids
  import opened Json
  import opened Beacons

  datatype Position = Position(longitude: real, latitude: real)

  datatype Tag = Tag(major: UShort, minor: UShort, uuid: Uuid)

  /** The default of `Entry.tag`: `Tag(0U, 0U, UUID(0, 0))`. */
  const DEFAULT_TAG: Tag := Tag(0, 0, NIL)

  /** `time` is kept as the epoch-millisecond timestamp it is computed from. */
  datatype Entry = Entry(time: Long, tag: Tag, tagID: Int32, distance: Distance, position: Position)

  datatype Entries = Entries(entries: seq<Entry>)

  // ---------------------------------------------------------------------------
  // beaconToEntry

  /**
   * One entry per ranged beacon, in order. The entry is stamped with the
   * first detection of the cycle; its tag is built as `Tag(id3, id2, id1)`,
   * so `major` receives identifier 3 and `minor` identifier 2, each cut to
   * 16 bits; the distance is passed through and the position is the origin.
   */
  function BeaconToEntry(beacons: seq<Beacon>): (entries: seq<Entry>)
    ensures |entries| == |beacons|
    ensures forall i :: 0 <= i < |beacons| ==>
      && entries[i].time == beacons[i].firstCycleDetectionTimestamp
      && entries[i].tag.major == ToUShort(beacons[i].id3)
      && entries[i].tag.minor == ToUShort(beacons[i].id2)
      && entries[i].tag.uuid == beacons[i].id1
      && entries[i].tagID == 0
      && entries[i].distance == beacons[i].distance
      && entries[i].position == Position(0.0, 0.0)
  {
    if beacons == [] then []
    else
      var b := beacons[|beacons| - 1];
      BeaconToEntry(beacons[..|beacons| - 1])
        + [Entry(b.firstCycleDetectionTimestamp, Tag(ToUShort(b.id3), ToUShort(b.id2), b.id1), 0, b.distance, Position(0.0, 0.0))]
  }

  /**
   * The entry's time is the first detection of the cycle, not the latest,
   * and the identifiers, which fit 16 bits, are stored unchanged: identifier
   * 3 as `major`, identifier 2 as `minor`.
   */
  lemma FirstDetectionAndIdentifiers(b: Beacon)
    requires b.firstCycleDetectionTimestamp == 1000 && b.lastCycleDetectionTimestamp == 5000
    requires 0 <= b.id2 < TWO_16 && 0 <= b.id3 < TWO_16
    ensures BeaconToEntry([b])[0].time == 1000
    ensures BeaconToEntry([b])[0].tag == Tag(b.id3, b.id2, b.id1)
  {
  }

  // ---------------------------------------------------------------------------
  // The serializers behind deepCopy: Entry, Tag, Position and UUIDSerializer.
  // The `Json` format leaves out a property equal to its default
  // (encodeDefaults = false) and refuses a property it does not know.

  datatype DecodeError = NotAnObject | UnknownKey | MissingField(name: string) | WrongType(name: string) | BadUuid

  const ENTRY_KEYS: set<string> := {"time", "tag", "tag_id", "distance", "device_position"}
  const TAG_KEYS: set<string> := {"major", "minor", "uuid"}
  const POSITION_KEYS: set<string> := {"longitude", "latitude"}

  function Member(m: map<string, Json>, key: string): (r: Result<Json, DecodeError>)
    ensures r.Ok? <==> key in m
    ensures r.Ok? ==> r.value == m[key]
  {
    if key in m then Ok(m[key]) else Err(MissingField(key))
  }

  /** A JSON number with no fractional part, inside [lo, hi). */
  function DecodeInteger(j: Json, name: string, lo: int, hi: int): (r: Result<int, DecodeError>)
    ensures r.Ok? ==> lo <= r.value < hi && j == JNumber(r.value as real)
    ensures forall x: int :: lo <= x < hi && j == JNumber(x as real) ==> r == Ok(x)
  {
    if j.JNumber? && j.n.Floor as real == j.n && lo <= j.n.Floor < hi then Ok(j.n.Floor)
    else Err(WrongType(name))
  }

  function DecodeDouble(j: Json, name: string): (r: Result<real, DecodeError>)
    ensures r.Ok? <==> j.JNumber?
    ensures r.Ok? ==> j == JNumber(r.value)
  {
    if j.JNumber? then Ok(j.n) else Err(WrongType(name))
  }

  /** UUIDSerializer.serialize: the UUID's `toString()` as a JSON string. */
  function EncodeUuid(u: Uuid): (j: Json)
    ensures j.JString? && |j.s| == 36 && FromString(j.s) == Some(u)
  {
    FromToString(u);
    JString(ToString(u))
  }

  /** UUIDSerializer.deserialize: `UUID.fromString` of a JSON string. */
  function DecodeUuid(j: Json): (r: Result<Uuid, DecodeError>)
    ensures r.Ok? ==> j.JString? && FromString(j.s) == Some(r.value)
    ensures j.JString? && FromString(j.s).Some? ==> r == Ok(FromString(j.s).value)
  {
    if j.JString? then
      match FromString(j.s)
      case Some(u) => Ok(u)
      case None => Err(BadUuid)
    else Err(WrongType("uuid"))
  }

  /** All three properties are written: none of them has a default. */
  function EncodeTag(t: Tag): (j: Json)
    ensures j.JObject? && j.members.Keys == TAG_KEYS
    ensures DecodeInteger(j.members["major"], "major", 0, TWO_16) == Ok(t.major as int)
    ensures DecodeInteger(j.members["minor"], "minor", 0, TWO_16) == Ok(t.minor as int)
    ensures DecodeUuid(j.members["uuid"]) == Ok(t.uuid)
  {
    JObject(map["major" := JNumber(t.major as real), "minor" := JNumber(t.minor as real), "uuid" := EncodeUuid(t.uuid)])
  }

  /** Every property is required, and an unknown one is refused. */
  function DecodeTag(j: Json): (r: Result<Tag, DecodeError>)
    ensures !j.JObject? ==> r == Err(NotAnObject)
    ensures j.JObject? && !(j.members.Keys <= TAG_KEYS) ==> r == Err(UnknownKey)
    ensures r.Ok? ==> (j.JObject? && j.members.Keys == TAG_KEYS
      && j.members["major"] == JNumber(r.value.major as real)
      && j.members["minor"] == JNumber(r.value.minor as real)
      && DecodeUuid(j.members["uuid"]) == Ok(r.value.uuid))
  {
    if !j.JObject? then Err(NotAnObject)
    else if !(j.members.Keys <= TAG_KEYS) then Err(UnknownKey)
    else
      var majorJ :- Member(j.members, "major");
      var major :- DecodeInteger(majorJ, "major", 0, TWO_16);
      var minorJ :- Member(j.members, "minor");
      var minor :- DecodeInteger(minorJ, "minor", 0, TWO_16);
      var uuidJ :- Member(j.members, "uuid");
      var uuid :- DecodeUuid(uuidJ);
      Ok(Tag(major, minor, uuid))
  }

  function EncodePosition(p: Position): (j: Json)
    ensures j.JObject? && j.members.Keys == POSITION_KEYS
    ensures DecodeDouble(j.members["longitude"], "longitude") == Ok(p.longitude)
    ensures DecodeDouble(j.members["latitude"], "latitude") == Ok(p.latitude)
  {
    JObject(map["longitude" := JNumber(p.longitude), "latitude" := JNumber(p.latitude)])
  }

  /** Both properties are required, and an unknown one is refused; what decodes is what `EncodePosition` writes. */
  function DecodePosition(j: Json): (r: Result<Position, DecodeError>)
    ensures !j.JObject? ==> r == Err(NotAnObject)
    ensures j.JObject? && !(j.members.Keys <= POSITION_KEYS) ==> r == Err(UnknownKey)
    ensures r.Ok? ==> j == EncodePosition(r.value)
  {
    if !j.JObject? then Err(NotAnObject)
    else if !(j.members.Keys <= POSITION_KEYS) then Err(UnknownKey)
    else
      var longitudeJ :- Member(j.members, "longitude");
      var longitude :- DecodeDouble(longitudeJ, "longitude");
      var latitudeJ :- Member(j.members, "latitude");
      var latitude :- DecodeDouble(latitudeJ, "latitude");
      Ok(Position(longitude, latitude))
  }

  /** `Json.encodeToString(serializer(), entry)`, before it is written as text. */
  function EncodeEntry(e: Entry): (j: Json)
    ensures j.JObject? && j.members.Keys <= ENTRY_KEYS
    ensures "tag" in j.members <==> e.tag != DEFAULT_TAG
    ensures "tag_id" in j.members <==> e.tagID != 0
  {
    var required := map["time" := JNumber(e.time as real), "distance" := JNumber(e.distance),
                        "device_position" := EncodePosition(e.position)];
    var withTag := if e.tag == DEFAULT_TAG then required else required["tag" := EncodeTag(e.tag)];
    JObject(if e.tagID == 0 then withTag else withTag["tag_id" := JNumber(e.tagID as real)])
  }

  /** `Json.decodeFromString<Entry>`, after the text has been parsed: absent defaults are filled in. */
  function DecodeEntry(j: Json): (r: Result<Entry, DecodeError>)
    ensures !j.JObject? ==> r == Err(NotAnObject)
    ensures j.JObject? && !(j.members.Keys <= ENTRY_KEYS) ==> r == Err(UnknownKey)
    ensures r.Ok? ==> j.JObject? && {"time", "distance", "device_position"} <= j.members.Keys <= ENTRY_KEYS
    ensures r.Ok? ==> (j.members["time"] == JNumber(r.value.time as real)
      && j.members["distance"] == JNumber(r.value.distance)
      && j.members["device_position"] == EncodePosition(r.value.position))
    ensures r.Ok? && "tag" !in j.members ==> r.value.tag == DEFAULT_TAG
    ensures r.Ok? && "tag" in j.members ==> DecodeTag(j.members["tag"]) == Ok(r.value.tag)
    ensures r.Ok? && "tag_id" !in j.members ==> r.value.tagID == 0
    ensures r.Ok? && "tag_id" in j.members ==> j.members["tag_id"] == JNumber(r.value.tagID as real)
  {
    if !j.JObject? then Err(NotAnObject)
    else if !(j.members.Keys <= ENTRY_KEYS) then Err(UnknownKey)
    else
      var m := j.members;
      var timeJ :- Member(m, "time");
      var time :- DecodeInteger(timeJ, "time", -0x8000_0000_0000_0000, 0x8000_0000_0000_0000);
      var tag :- if "tag" in m then DecodeTag(m["tag"]) else Ok(DEFAULT_TAG);
      var tagID :- if "tag_id" in m then DecodeInteger(m["tag_id"], "tag_id", -0x8000_0000, 0x8000_0000) else Ok(0);
      var distanceJ :- Member(m, "distance");
      var distance :- DecodeDouble(distanceJ, "distance");
      var positionJ :- Member(m, "device_position");
      var position :- DecodePosition(positionJ);
      Ok(Entry(time, tag, tagID, distance, position))
  }

  lemma DecodeEncodeTag(t: Tag)
    ensures DecodeTag(EncodeTag(t)) == Ok(t)
  {
    FromToString(t.uuid);
  }

  lemma DecodeEncodePosition(p: Position)
    ensures DecodePosition(EncodePosition(p)) == Ok(p)
  {
  }

  /** What each member of an encoded entry holds. */
  lemma EncodedMembers(e: Entry)
    ensures var m := EncodeEntry(e).members;
      && m["time"] == JNumber(e.time as real)
      && m["distance"] == JNumber(e.distance)
      && m["device_position"] == EncodePosition(e.position)
      && (e.tag != DEFAULT_TAG ==> m["tag"] == EncodeTag(e.tag))
      && (e.tagID != 0 ==> m["tag_id"] == JNumber(e.tagID as real))
  {
  }

  /** Serializing an entry and reading it back gives the same entry. */
  lemma DecodeEncodeEntry(e: Entry)
    ensures DecodeEntry(EncodeEntry(e)) == Ok(e)
  {
    var m := EncodeEntry(e).members;
    EncodedMembers(e);
    assert DecodeInteger(m["time"], "time", -0x8000_0000_0000_0000, 0x8000_0000_0000_0000) == Ok(e.time as int);
    var tag := if "tag" in m then DecodeTag(m["tag"]) else Ok(DEFAULT_TAG);
    if e.tag != DEFAULT_TAG {
      DecodeEncodeTag(e.tag);
    }
    assert tag == Ok(e.tag);
    var tagID := if "tag_id" in m then DecodeInteger(m["tag_id"], "tag_id", -0x8000_0000, 0x8000_0000) else Ok(0);
    assert tagID == Ok(e.tagID as int);
    assert DecodeDouble(m["distance"], "distance") == Ok(e.distance);
    DecodeEncodePosition(e.position);
  }

  /** `Entry.deepCopy()`: a round trip through the serializer, so a copy equal to the original. */
  function DeepCopy(e: Entry): (copy: Entry)
    ensures copy == e
  {
    DecodeEncodeEntry(e);
    DecodeEntry(EncodeEntry(e)).value
  }

  /** `recentTagLog.map { it.deepCopy() }`. */
  function CopyAll(entries: seq<Entry>): (copy: seq<Entry>)
    ensures copy == entries
  {
    if entries == [] then [] else [DeepCopy(entries[0])] + CopyAll(entries[1..])
  }

  // ---------------------------------------------------------------------------
  // The repository

  class BLELogRepository {
    /** The entries appended since the last `consumeLog`, oldest first. */
    var recentTagLog: seq<Entry>

    constructor ()
      ensures recentTagLog == []
    {
      recentTagLog := [];
    }

    /** Under `logMutex`: copy every buffered entry, empty the buffer, return the copy. */
    method ConsumeLog() returns (log: Entries)
      modifies this
      ensures log.entries == old(recentTagLog)
      ensures recentTagLog == []
    {
      var copy := CopyAll(recentTagLog);
      recentTagLog := [];
      log := Entries(copy);
    }

    /** Under `logMutex`: add the entries after those already buffered, in their order. */
    method AppendLog(entries: seq<Entry>)
      modifies this
      ensures recentTagLog == old(recentTagLog) + entries
    {
      recentTagLog := recentTagLog + entries;
    }

    /** `appendLog(beacons)`: map the ranged beacons to entries, then append them. */
    method AppendBeacons(beacons: seq<Beacon>)
      modifies this
      ensures recentTagLog == old(recentTagLog) + BeaconToEntry(beacons)
    {
      AppendLog(BeaconToEntry(beacons));
    }

    /**
     * Carries out a sequence of calls, as the lock serializes them, and
     * returns what each `consumeLog` in it handed out.
     */
    method Perform(calls: seq<LogCall>) returns (drained: seq<seq<Entry>>)
      modifies this
      ensures Run(recentTagLog, drained) == Replay(old(recentTagLog), calls)
    {
      drained := [];
      var i := 0;
      while i < |calls|
        invariant 0 <= i <= |calls|
        decreases |calls| - i
        invariant Replay(old(recentTagLog), calls)
          == Run(Replay(recentTagLog, calls[i..]).log, drained + Replay(recentTagLog, calls[i..]).drained)
      {
        assert calls[i..][0] == calls[i] && calls[i..][1..] == calls[i + 1..];
        var before := recentTagLog;
        match calls[i] {
          case Append(entries) =>
            assert Replay(before, calls[i..]) == Replay(before + entries, calls[i + 1..]);
            AppendLog(entries);
          case Consume =>
            var rest := Replay([], calls[i + 1..]);
            assert Replay(before, calls[i..]) == Run(rest.log, [CopyAll(before)] + rest.drained);
            var log := ConsumeLog();
            assert drained + ([before] + rest.drained) == (drained + [before]) + rest.drained;
            drained := drained + [log.entries];
        }
        i := i + 1;
      }
      assert calls[i..] == [];
    }
  }

  // ---------------------------------------------------------------------------
  // Exactly-once delivery over any order of calls

  /** One critical section of `logMutex`. */
  datatype LogCall = Append(entries: seq<Entry>) | Consume

  /** The log left at the end, and the batch each `consumeLog` returned, in call order. */
  datatype Run = Run(log: seq<Entry>, drained: seq<seq<Entry>>)

  /** No `consumeLog` among the calls. */
  predicate OnlyAppends(calls: seq<LogCall>)
  {
    forall k :: 0 <= k < |calls| ==> calls[k].Append?
  }

  /** The calls, one after another, from a buffer holding `log`. */
  function Replay(log: seq<Entry>, calls: seq<LogCall>): (run: Run)
    ensures OnlyAppends(calls) ==> run == Run(log + Appended(calls), [])
    ensures calls != [] && calls[|calls| - 1] == Consume ==> run.log == []
    decreases |calls|
  {
    if calls == [] then Run(log, [])
    else
      match calls[0]
      case Append(entries) => Replay(log + entries, calls[1..])
      case Consume =>
        var rest := Replay([], calls[1..]);
        Run(rest.log, [CopyAll(log)] + rest.drained)
  }

  function Concat(batches: seq<seq<Entry>>): seq<Entry>
  {
    if batches == [] then [] else batches[0] + Concat(batches[1..])
  }

  /** Everything the calls append, in call order. */
  function Appended(calls: seq<LogCall>): seq<Entry>
  {
    if calls == [] then []
    else (if calls[0].Append? then calls[0].entries else []) + Appended(calls[1..])
  }

  /**
   * Exactly-once delivery: the consumed batches, one after another, followed
   * by what is still buffered, are the initial log followed by every appended
   * entry, in order. Nothing is lost, nothing is handed out twice.
   */
  lemma {:induction false} ExactlyOnce(log: seq<Entry>, calls: seq<LogCall>)
    ensures Concat(Replay(log, calls).drained) + Replay(log, calls).log == log + Appended(calls)
    decreases |calls|
  {
    if calls != [] {
      match calls[0]
      case Append(entries) =>
        ExactlyOnce(log + entries, calls[1..]);
      case Consume =>
        ExactlyOnce([], calls[1..]);
        var rest := Replay([], calls[1..]);
        calc {
          Concat(Replay(log, calls).drained) + Replay(log, calls).log;
          (log + Concat(rest.drained)) + rest.log;
          log + (Concat(rest.drained) + rest.log);
        }
    }
  }

  /** The same, counted: every appended entry is delivered or still buffered, as often as it was appended. */
  lemma NoLossNoDuplication(log: seq<Entry>, calls: seq<LogCall>)
    ensures multiset(Concat(Replay(log, calls).drained)) + multiset(Replay(log, calls).log)
         == multiset(log) + multiset(Appended(calls))
  {
    ExactlyOnce(log, calls);
    var run := Replay(log, calls);
    assert multiset(Concat(run.drained) + run.log) == multiset(log + Appended(calls));
  }

  /** Appends alone only extend the buffer, in call order. */
  lemma {:induction false} AppendsOnly(log: seq<Entry>, appends: seq<LogCall>, later: seq<LogCall>)
    requires OnlyAppends(appends)
    ensures Replay(log, appends + later) == Replay(log + Appended(appends), later)
    decreases |appends|
  {
    if appends == [] {
      assert appends + later == later;
      assert log + Appended(appends) == log + [] == log;
    } else {
      var entries := appends[0].entries;
      assert (appends + later)[0] == Append(entries);
      assert (appends + later)[1..] == appends[1..] + later;
      AppendsOnly(log + entries, appends[1..], later);
      assert (log + entries) + Appended(appends[1..]) == log + Appended(appends);
    }
  }

  /** Two consumes in a row: the first takes the whole buffer, the second gets nothing. */
  lemma ConsumeTwice(log: seq<Entry>, later: seq<LogCall>)
    ensures var rest := Replay([], later);
      Replay(log, [Consume, Consume] + later) == Run(rest.log, [log, []] + rest.drained)
  {
    var calls := [Consume, Consume] + later;
    var rest := Replay([], later);
    var second := [Consume] + later;
    assert Replay([], second) == Run(rest.log, [[]] + rest.drained) by {
      assert second[0] == Consume && second[1..] == later;
      assert CopyAll([]) == [];
    }
    assert Replay(log, calls) == Run(rest.log, [log] + Replay([], second).drained) by {
      assert calls[0] == Consume && calls[1..] == second;
      assert CopyAll(log) == log;
    }
    assert [log] + ([[]] + rest.drained) == [log, []] + rest.drained;
  }

  /**
   * A `consumeLog` returns what was buffered: the initial log plus the entries
   * appended before it; the next `consumeLog` with no append in between
   * returns nothing.
   */
  lemma ConsumeReturnsBuffered(log: seq<Entry>, appends: seq<LogCall>, later: seq<LogCall>)
    requires OnlyAppends(appends)
    ensures var rest := Replay([], later);
      Replay(log, appends + [Consume, Consume] + later) == Run(rest.log, [log + Appended(appends), []] + rest.drained)
  {
    assert appends + [Consume, Consume] + later == appends + ([Consume, Consume] + later);
    AppendsOnly(log, appends, [Consume, Consume] + later);
    ConsumeTwice(log + Appended(appends), later);
  }

  /** Append [e1, e2], append [e3], consume, consume: [e1, e2, e3] and then nothing. */
  lemma AppendAppendConsumeConsume(e1: Entry, e2: Entry, e3: Entry)
    ensures Replay([], [Append([e1, e2]), Append([e3]), Consume, Consume]).drained == [[e1, e2, e3], []]
  {
    var appends := [Append([e1, e2]), Append([e3])];
    ConsumeReturnsBuffered([], appends, []);
    assert appends + [Consume, Consume] + [] == [Append([e1, e2]), Append([e3]), Consume, Consume];
    assert Appended(appends) == [e1, e2, e3] by {
      assert appends[1..] == [Append([e3])];
      assert Appended(appends[1..]) == [e3] + Appended([]);
    }
    assert Replay([], []) == Run([], []);
    assert [e1, e2, e3] == [] + Appended(appends);
    assert Replay([], appends + [Consume, Consume] + []) == Run([], [[e1, e2, e3], []] + []);
  }
}
