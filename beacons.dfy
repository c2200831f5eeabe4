/**
 * The scanning library's `org.altbeacon.beacon.Beacon`, reduced to the fields
 * the beacon log reads. Only `lastCycleDetectionTimestamp` is ever written by
 * the application (the ranging smoother restamps it), so it is the one
 * mutable field.
 */
module Beacons {
  import opened KotlinNumbers
  import opened Uuids

  /** An estimated distance in metres; it is carried along, never computed on. */
  type Distance = real

  class Beacon {
    /** `id1.toUuid()`: the 16-byte proximity UUID. */
    const id1: Uuid
    /** `id2.toInt()` and `id3.toInt()`: the two 2-byte identifiers as Kotlin `Int`s. */
    const id2: Int32
    const id3: Int32
    const distance: Distance
    /** Epoch milliseconds of the first detection in the current scan cycle. */
    const firstCycleDetectionTimestamp: Long
    /** Epoch milliseconds of the latest detection in the current scan cycle. */
    var lastCycleDetectionTimestamp: Long

    constructor (id1: Uuid, id2: Int32, id3: Int32, distance: Distance, first: Long, last: Long)
      ensures this.id1 == id1 && this.id2 == id2 && this.id3 == id3 && this.distance == distance
      ensures firstCycleDetectionTimestamp == first && lastCycleDetectionTimestamp == last
    {
      this.id1, this.id2, this.id3, this.distance := id1, id2, id3, distance;
      firstCycleDetectionTimestamp, lastCycleDetectionTimestamp := first, last;
    }
  }
}
