# Beacon log pipeline of the Android beacon reference app, in Dafny

This project models the logic in the Kotlin reference application for the
Android Beacon Library that is more than UI glue:

- **The beacon log** (`BLELogRepository`). The ranging callback appends
  entries to a buffer. A logging thread drains it every ten seconds. Both
  operations run under one mutex, and each is modelled as one atomic method
  of a class whose `recentTagLog` field is a `seq<Entry>`. Ranged beacons
  become `Entry` records through `beaconToEntry`. `Entry.deepCopy` is a JSON
  serialize/parse round trip. The model proves that round trip, including the
  UUID text form, for entries whose distance is finite. The headline theorem is exactly-once
  delivery (`LogRepository.ExactlyOnce`): take any order of append and consume
  calls. The drained batches followed by what is left in the buffer equal
  everything appended, in order.
- **The ranging smoother** (`BeaconRangingSmoother`). A list that only grows,
  of caller-owned `Beacon` objects, each restamped on `add`. On each read it
  shows the beacons stamped less than `smoothingWindowMillis` (default 10000)
  ago. Beacons are heap objects, so the model captures `add` overwriting a
  beacon's timestamp, and with it every list slot that holds that beacon.
- **The permissions screen** (`PermissionsHelper`,
  `BeaconScanPermissionsActivity`). The permission groups a scan needs at a
  given Android SDK level. The "all granted" checks. What tapping a group's
  button does with the stored "first time asking" flags.
- **The application's freshness gate** (`centralRangingObserver`). A ranged
  batch is logged only if its first beacon was last seen less than 10000 ms
  ago. One pass of the logging loop drains the log.

Modules, one per file: `Wrappers` (Option/Result), `KotlinNumbers` (Kotlin
`Long`, `Int`, `UShort`, `toUShort`), `Uuids` (`java.util.UUID` and its text
form, section 3 of RFC 4122), `Json` (the JSON value tree), `Beacons` (the
library's `Beacon`, reduced to the fields read here), `LogRepository`,
`RangingSmoother`, `Permissions`, `ReferenceApplication`.

The clock (`System.currentTimeMillis()`) is a parameter `now`. The operating
system's answers are the state of an `AndroidContext` object: the SDK level,
the granted permissions, whether to show a rationale, and the shared
preferences.

The model follows the code, including where it departs from the usual conventions:

- `beaconToEntry` builds `Tag(id3, id2, id1)`, and the constructor order of
  `Tag` is `(major, minor, uuid)`. So `major` holds identifier 3 and `minor`
  holds identifier 2. In the iBeacon layout, identifier 2 is the major and
  identifier 3 is the minor.
- `Entry` also has a `tagID` field (default 0, serialized as `tag_id`).
- Appends are serialized by the one lock, so the log keeps them in call order.

## Model

| member | source | states |
|---|---|---|
| KotlinNumbers.ToUShort | app/src/main/java/org/altbeacon/beaconreference/BLELogRepository.kt:61 | `toInt().toUShort()` keeps the value modulo 2^16: it is unchanged when it already fits 16 bits, and a negative value in -65536..-1 gains 65536 |
| Uuids.ToString | app/src/main/java/org/altbeacon/beaconreference/BLELogRepository.kt:130-132 | the UUID serializer writes 36 characters: hyphens at positions 8, 13, 18 and 23, and a lower-case hexadecimal digit everywhere else |
| Uuids.FromString | app/src/main/java/org/altbeacon/beaconreference/BLELogRepository.kt:126-128 | the UUID deserializer succeeds iff the text is 36 characters long, has hyphens at 8, 13, 18 and 23, and the five groups between them are hexadecimal digits |
| Uuids.FromToString | app/src/main/java/org/altbeacon/beaconreference/BLELogRepository.kt:123-133 | reading back what the UUID serializer wrote gives the same UUID, for every UUID |
| LogRepository.BeaconToEntry | app/src/main/java/org/altbeacon/beaconreference/BLELogRepository.kt:55-69 | one entry per beacon, in input order: time is the first-cycle detection time, major = id3 mod 2^16, minor = id2 mod 2^16, uuid = id1, distance unchanged, position (0, 0), tagID 0 |
| LogRepository.FirstDetectionAndIdentifiers | app/src/main/java/org/altbeacon/beaconreference/BLELogRepository.kt:58-61 | a beacon first seen at 1000 and last seen at 5000 is logged at 1000. Identifiers that fit 16 bits are stored as they are, id3 as major and id2 as minor |
| LogRepository.DecodeUuid | app/src/main/java/org/altbeacon/beaconreference/BLELogRepository.kt:126-128 | a decoded UUID comes from a JSON string that parses to it, and every JSON string that `UUID.fromString` accepts decodes to the UUID it parses to |
| LogRepository.EncodeEntry | app/src/main/java/org/altbeacon/beaconreference/BLELogRepository.kt:75-85 | the encoded entry uses only the five serial names. `tag` is present iff the tag differs from `Tag(0, 0, UUID(0, 0))`, and `tag_id` iff the id is not 0 |
| LogRepository.EncodeUuid | app/src/main/java/org/altbeacon/beaconreference/BLELogRepository.kt:130-132 | a UUID is written as a 36-character JSON string that `UUID.fromString` reads back to the same UUID |
| LogRepository.EncodeTag | app/src/main/java/org/altbeacon/beaconreference/BLELogRepository.kt:114-120 | `major`, `minor` and `uuid` are all written, since none has a default, and each property reads back to the tag's value |
| LogRepository.DecodeTag | app/src/main/java/org/altbeacon/beaconreference/BLELogRepository.kt:114-120 | a non-object and an object with an unknown property are refused. A decoded tag comes from an object with exactly the three properties, holding its major, minor and UUID |
| LogRepository.EncodePosition | app/src/main/java/org/altbeacon/beaconreference/BLELogRepository.kt:108-112 | `longitude` and `latitude` are both written, and each reads back to the position's value |
| LogRepository.DecodePosition | app/src/main/java/org/altbeacon/beaconreference/BLELogRepository.kt:108-112 | a non-object and an object with an unknown property are refused. A decoded position comes from exactly the object `EncodePosition` writes for it |
| LogRepository.DecodeEntry | app/src/main/java/org/altbeacon/beaconreference/BLELogRepository.kt:75-85 | a non-object and an object with an unknown property are refused. `time`, `distance` and `device_position` are required. A missing `tag` gives `Tag(0, 0, UUID(0, 0))` and a missing `tag_id` gives 0 |
| LogRepository.DecodeEncodeTag | app/src/main/java/org/altbeacon/beaconreference/BLELogRepository.kt:114-120 | a tag decodes back to itself |
| LogRepository.DecodeEncodeEntry | app/src/main/java/org/altbeacon/beaconreference/BLELogRepository.kt:75-90 | decoding an encoded entry gives the same entry, whether or not the defaults were left out |
| LogRepository.DeepCopy | app/src/main/java/org/altbeacon/beaconreference/BLELogRepository.kt:87-89 | for a finite distance, the serialization round trip cannot fail and the copy equals the original |
| LogRepository.CopyAll | app/src/main/java/org/altbeacon/beaconreference/BLELogRepository.kt:37 | copying every entry gives the same entries, in the same order and number |
| LogRepository.BLELogRepository.constructor | app/src/main/java/org/altbeacon/beaconreference/BLELogRepository.kt:32 | a new repository's log is empty |
| LogRepository.BLELogRepository.ConsumeLog | app/src/main/java/org/altbeacon/beaconreference/BLELogRepository.kt:35-41 | returns exactly the entries buffered just before the call, in order and count, and leaves the log empty |
| LogRepository.BLELogRepository.AppendLog | app/src/main/java/org/altbeacon/beaconreference/BLELogRepository.kt:50-54 | the log becomes the old log followed by the new entries in input order, so an empty batch leaves it unchanged |
| LogRepository.BLELogRepository.AppendBeacons | app/src/main/java/org/altbeacon/beaconreference/BLELogRepository.kt:45-49 | appends the mapped entries of the ranged beacons |
| LogRepository.BLELogRepository.Perform | app/src/main/java/org/altbeacon/beaconreference/BLELogRepository.kt:29-54 | a sequence of calls made on the object gives the final log and drained batches that `Replay` predicts |
| LogRepository.Replay | app/src/main/java/org/altbeacon/beaconreference/BLELogRepository.kt:29-54 | the lock serializes the calls: appends alone extend the log in call order and drain nothing, and a run that ends with a consume leaves the log empty |
| LogRepository.ExactlyOnce | app/src/main/java/org/altbeacon/beaconreference/BLELogRepository.kt:29-54 | for any order of append and consume calls, the drained batches concatenated, followed by the remaining log, equal the initial log followed by all appended entries in order |
| LogRepository.NoLossNoDuplication | app/src/main/java/org/altbeacon/beaconreference/BLELogRepository.kt:29-54 | the same, counted as multisets: no entry is lost or handed out twice |
| LogRepository.AppendsOnly | app/src/main/java/org/altbeacon/beaconreference/BLELogRepository.kt:50-54 | a run of appends only extends the buffer, in call order |
| LogRepository.ConsumeTwice | app/src/main/java/org/altbeacon/beaconreference/BLELogRepository.kt:35-41 | of two consumes in a row, the first returns the whole log and the second returns nothing |
| LogRepository.ConsumeReturnsBuffered | app/src/main/java/org/altbeacon/beaconreference/BLELogRepository.kt:35-54 | after appends, a consume returns the old log plus the appended entries, and an immediate second consume returns nothing |
| LogRepository.AppendAppendConsumeConsume | app/src/main/java/org/altbeacon/beaconreference/BLELogRepository.kt:35-54 | append [e1, e2], append [e3], consume, consume: the drains return [e1, e2, e3] and then [] |
| RangingSmoother.VisibleAt | app/src/main/java/org/altbeacon/beaconreference/BeaconRangingSmoother.kt:20-27 | the reference definition of the visible list, filtered in tracked order; it is never longer than the tracked list |
| RangingSmoother.VisibleMembership | app/src/main/java/org/altbeacon/beaconreference/BeaconRangingSmoother.kt:20-27 | a beacon is visible iff it is tracked and `now - timestamp < window` |
| RangingSmoother.VisibleIsSubsequence | app/src/main/java/org/altbeacon/beaconreference/BeaconRangingSmoother.kt:21-27 | the visible list is the tracked list with beacons left out and the rest in tracked order, so it is never longer |
| RangingSmoother.DefaultWindowBoundary | app/src/main/java/org/altbeacon/beaconreference/BeaconRangingSmoother.kt:18-23 | with the default window, a beacon stamped at T is visible at T+9999 and not at T+10000 |
| RangingSmoother.JustStampedIsVisible | app/src/main/java/org/altbeacon/beaconreference/BeaconRangingSmoother.kt:23-31 | a tracked beacon stamped at `now` is visible at `now` whenever the window is positive |
| RangingSmoother.BeaconRangingSmoother.constructor | app/src/main/java/org/altbeacon/beaconreference/BeaconRangingSmoother.kt:17-18 | a new smoother tracks nothing and has a window of 10000 ms |
| RangingSmoother.BeaconRangingSmoother.VisibleBeacons | app/src/main/java/org/altbeacon/beaconreference/BeaconRangingSmoother.kt:19-28 | the getter returns exactly the tracked beacons that are inside the window, in tracked order. It changes no state, not even a timestamp |
| RangingSmoother.BeaconRangingSmoother.Add | app/src/main/java/org/altbeacon/beaconreference/BeaconRangingSmoother.kt:29-35 | every detected beacon is appended in order, and nothing is removed or deduplicated. Each one, and every earlier slot holding the same object, is stamped `now`. The window is unchanged, each added beacon is visible at `now` if the window is positive, and the call returns the same smoother |
| Permissions.DefaultPermissionTitles | app/src/main/java/org/altbeacon/beacon/permissions/PermissionsActivity.kt:189-196 | titles exist for fine location, background location, Bluetooth scan and notifications, and for nothing else |
| Permissions.BeaconScanPermissionGroupsNeeded | app/src/main/java/org/altbeacon/beacon/permissions/PermissionsActivity.kt:78-102 | nothing below SDK 23. Each group is present iff its threshold is met: fine location at 23, background location at 29 and only when requested, scan+connect at 31, notifications at 33 |
| Permissions.GroupsOrderedAndTitled | app/src/main/java/org/altbeacon/beacon/permissions/PermissionsActivity.kt:78-102 | groups come in the fixed order fine, background, Bluetooth, notifications. Each group is non-empty, and its first permission has a default title |
| Permissions.Prompt | app/src/main/java/org/altbeacon/beacon/permissions/PermissionsActivity.kt:229-249 | nothing happens iff the group is fully granted. Otherwise the request launches iff a rationale is due (always below SDK 23) or the first permission is asked for the first time. Launching clears only that permission's flag |
| Permissions.SecondPromptShowsDialog | app/src/main/java/org/altbeacon/beacon/permissions/PermissionsActivity.kt:229-249 | from SDK 23 on, with no rationale due and the group still not granted, a second tap shows the "previously denied" dialog |
| Permissions.PermissionsHelper.IsPermissionGranted | app/src/main/java/org/altbeacon/beacon/permissions/PermissionsActivity.kt:57-59 | definition: a permission counts as granted iff the system reports it granted. The permission loops are proved against it |
| Permissions.PermissionsHelper.SetFirstTimeAskingPermission | app/src/main/java/org/altbeacon/beacon/permissions/PermissionsActivity.kt:60-66 | stores the flag for that permission only. Afterwards reading it gives the stored value, and every other permission reads as before |
| Permissions.PermissionsHelper.IsFirstTimeAskingPermission | app/src/main/java/org/altbeacon/beacon/permissions/PermissionsActivity.kt:68-77 | true for a permission never stored, otherwise the stored value |
| Permissions.BeaconScanPermissionsActivity.constructor | app/src/main/java/org/altbeacon/beacon/permissions/PermissionsActivity.kt:125-131 | the screen's groups are the groups needed at the device's SDK level for the requested background access |
| Permissions.BeaconScanPermissionsActivity.AllPermissionsGranted | app/src/main/java/org/altbeacon/beacon/permissions/PermissionsActivity.kt:250-258 | true iff every permission of the group is granted |
| Permissions.BeaconScanPermissionsActivity.AllPermissionGroupsGranted | app/src/main/java/org/altbeacon/beacon/permissions/PermissionsActivity.kt:199-206 | true iff every permission of every group on the screen is granted |
| Permissions.BeaconScanPermissionsActivity.PromptForPermissions | app/src/main/java/org/altbeacon/beacon/permissions/PermissionsActivity.kt:229-249 | the outcome and the new preferences are those `Prompt` gives for the state before the tap. Granted permissions and rationale answers are untouched |
| Permissions.AllPermissionsGrantedFor | app/src/main/java/org/altbeacon/beacon/permissions/PermissionsActivity.kt:262-273 | true iff every permission of every needed group is granted |
| ReferenceApplication.RangeAgeMillis | app/src/main/java/org/altbeacon/beaconreference/BeaconReferenceApplication.kt:126 | definition: a batch's age is `now` minus its first beacon's latest detection, or `now` for an empty batch. `FirstBeaconDecides` and `CentralRangingObserver` state what follows from it |
| ReferenceApplication.FirstBeaconDecides | app/src/main/java/org/altbeacon/beaconreference/BeaconReferenceApplication.kt:126-127 | only the first beacon's timestamp decides whether a batch is fresh, whatever follows it |
| ReferenceApplication.AppendedAreFresh | app/src/main/java/org/altbeacon/beaconreference/BeaconReferenceApplication.kt:125-137 | the repository receives exactly the entries of the fresh batches, in arrival order |
| ReferenceApplication.FreshBatchesLoggedExactlyOnce | app/src/main/java/org/altbeacon/beaconreference/BeaconReferenceApplication.kt:125-137 | for any order of ranged batches and logging passes, drained batches plus the remaining log are exactly the fresh batches' entries. A stale batch is never logged, and a fresh one is logged exactly once |
| ReferenceApplication.BeaconReferenceApplication.constructor | app/src/main/java/org/altbeacon/beaconreference/BeaconReferenceApplication.kt:23 | the application owns a new, empty repository |
| ReferenceApplication.BeaconReferenceApplication.CentralRangingObserver | app/src/main/java/org/altbeacon/beaconreference/BeaconReferenceApplication.kt:125-137 | the batch is appended whole iff its age is below 10000 ms, and a stale batch leaves the log unchanged |
| ReferenceApplication.BeaconReferenceApplication.LoggingPass | app/src/main/java/org/altbeacon/beaconreference/BeaconReferenceApplication.kt:30-39 | one pass of the logging loop drains the log once and discards the drained batch |

## Left out

- Concurrency. The Kotlin `Mutex`, `runBlocking`, coroutines and the executor thread are not modelled. Each `withLock` block is one atomic method call, and the interleavings are the call sequences `Replay` ranges over.
- The logging thread's endless `while (true)` loop, `Thread.sleep(LOGGING_PERIOD)` and `Log.d`. `LoggingPass` is one pass of the loop. The CSV export is commented out in the source and is not modelled.
- `LocalDateTime` and time-zone conversion. `Entry.time` stays the epoch-millisecond `Long`, and the JSON model writes it as a number rather than an ISO date string.
- JSON text. The model covers the value tree that the serializers produce and consume. It leaves out text syntax, string escaping and number formatting.
- Floating point. `distance`, `Position` and the JSON numbers are Dafny `real`. They are only passed through.
- LogRepository.DeepCopy: covers finite distances only. The default `Json` format refuses NaN and the infinities, so for such a distance the source's `deepCopy` throws. `consumeLog` then neither returns nor clears the log, and the exception ends the logging thread's loop. The model cannot express a non-finite distance.
- LogRepository.DeepCopy: entries are immutable values. The source's `Entry`, `Tag` and `Position` have `var` fields, `appendLog` keeps the caller's objects by reference, and `deepCopy` returns fresh ones. That aliasing, and the isolation the copy gives, are not modelled.
- The default arguments of the background flag are not modelled. `onCreate` reads `getBooleanExtra("backgroundAccessRequested", true)` (PermissionsActivity.kt:125), so a screen launched without the extra asks for background location. `beaconScanPermissionGroupsNeeded` defaults the flag to `false` (:78). In the model the flag is always an explicit parameter of `BeaconScanPermissionsActivity.constructor` and `BeaconScanPermissionGroupsNeeded`.
- Uuids.FromString: accepts only the canonical 36-character form. The non-canonical forms that `UUID.fromString` also accepts are not modelled. These include shorter groups, and groups of other lengths or with a sign that still add up to 36 characters.
- `Identifier.toUuid()` and `Identifier.toInt()` are library calls, and their failures on identifiers of the wrong length are not modelled. `Beacon` holds their results.
- `System.currentTimeMillis()` is one `now` per call. The source reads the clock once per element in the loops of `add` and of the `visibleBeacons` getter.
- RangingSmoother.VisibleAt: `now - timestamp` is unbounded integer arithmetic. Kotlin `Long` subtraction would wrap around for timestamps near the `Long` limits, which epoch milliseconds never reach.
- ReferenceApplication.RangeAgeMillis: as above, the `Long` subtraction is not wrapped.
- The `shared` singleton of `BeaconRangingSmoother` and the `TAG` constants.
- The permissions UI: layout, buttons and their colours (`setButtonColors`), enabling the continue button in `onResume`, the `AlertDialog`, `dp()` scaling, and the result callback of the request launcher. `PromptOutcome` names the dialog and the launch instead of performing them.
- `ContextCompat.checkSelfPermission`, `shouldShowRequestPermissionRationale` and `SharedPreferences` are the fields of `AndroidContext`. `Build.VERSION.SDK_INT` is its `sdkInt`.
- The `LogRepository` interface and the unused `RegisterStatus` and `LogStatus` records.
- MainActivity.kt (UI, dialogs, sorting by distance) and CSVWriter.kt (stream output) are not part of this model.
