# Position filter of the Z3Location tracker

This project models the position filter of `PositionProvider`, part of an Android
GPS tracking module, and proves properties of that model. The provider keeps one
sample, `lastLocation`. For each new `Location` it does the following:

- It drops a missing sample, or one whose accuracy is worse than 200 m.
- It accepts the first sample unconditionally (the bootstrap case).
- After that it accepts a sample when any of three gates fires against `lastLocation`:
  - 5000 ms have passed, in Java `long` arithmetic;
  - the ellipse distance is at least 0.1;
  - a configured angle above 0 is reached by the absolute bearing difference.
- On acceptance it replaces `lastLocation` before looking at the user id. So the
  sentinel id `"0"` still advances the filter, but it only raises a warning. Any
  other id gets a `Position`, which goes to the listener and is then handed to
  `GpsFileUtil.writeBinaryStream` for the user's track file
  `confPath + userId + ".t3.bin"`. That call is made only if the file exists.
- The appended record is `lon,lat,time,accuracy,speed%`.

Files:

- `wrappers.dfy`: `Option`, which stands for Java's nullable references.
- `text.dfy`: joining and splitting on a separator character, the decimal text of
  a Java `long`, and its parser.
- `provider.dfy`: the data model, the gates, the record builder, the file name and
  the transition function `Step`. It also holds the `PositionProvider` class. Its
  `ProcessLocation`, `Deliver` and `WriteToFile` methods update `lastLocation`, the
  listener's event trace and the file system in place, and each is proved equal to
  the corresponding spec function. The event trace records the listener call, the
  warning and each file append, in the order they happen.
- `tracking.dfy`: a session, meaning `Step` folded over a stream of samples. It is
  compared against `AcceptedFixes`, an independent description of which samples
  are accepted. From that follow what is signalled for them and what a reader of
  the track file gets back.

Things the model takes as parameters, because their code is not part of it:

- The geodesic distance, `GeomMathUtil.calculateEllipseDistance`, is the
  `ellipseDistance` field of `Config`. Its arguments are last latitude, last
  longitude, latitude and longitude, in the order of the call at line 113.
- The text `StringBuilder.append` gives a floating-point getter of `Position` is
  `numberText`, one function for all four such fields (see the `Position.java`
  assumptions below). Lemmas that read records back assume only that this text
  contains no `,` or `%` (`CleanNumberText`).
- The battery level is a number the caller supplies with each sample.
- The global `Constants` (user id, user name, true name), the configured angle of
  `PositionCollectionConfig` and the configuration directory of `FileUtil` are
  fields of `Config`. The source reads them afresh on every call, so
  `ProcessLocation` takes the `Config` of that call as a parameter.
- `Position.java` is not part of this model. `NewPosition` and `PositionFields`
  make these assumptions about it:
  - The constructor copies longitude, latitude, time, accuracy and speed from the
    `Location`, and the getters return them.
  - The constructor's first, second and third arguments (lines 100 and 118) are the
    user name, the true name and the user id, and `getUserId` (lines 134 and 139)
    returns the third. Which track file is written depends on this, so
    `StepDelivers`, `RunFiles` and `TrackFileRoundTrip` rely on it.
  - `getTime` returns a `long`, so the time field is written as `LongText`.
  - `getLon`, `getLat`, `getAccuracy` and `getSpeed` all have one floating-point
    type, so one `numberText` renders all four. Java writes a `float` and a
    `double` of the same value differently. No lemma depends on this beyond the
    texts being free of `,` and `%`.
- `GpsFileUtil.writeBinaryStream` is not part of this model. With `append` set to
  `true` (line 139), `AppendRecord` assumes it appends the characters of the
  record unchanged to the end of the file. `RunFiles`, `TrackFileRoundTrip` and
  `LogRoundTrip` rest on this assumption.

Because `Position` takes its accuracy from an accepted sample, `StepDelivers`
proves that the null branch of `buildPositionString` is never reached from
`processLocation`.

Two points about the source behaviour:

- The angle gate compares bearings by plain absolute difference. Bearings 359°
  and 1° therefore differ by 358°, not 2°. The model keeps this as written.
- Records are appended only to a file that already exists. `createNewFile` is
  commented out at line 138, so a user without a track file gets listener updates
  and no writes. `RunFiles` states this.

## Model

| member | source | states |
|---|---|---|
| `Provider.PositionProvider.constructor` | Z3Location/src/main/java/com/z3pipe/z3location/content/PositionProvider.java:62-70 | a new provider has no retained sample and has signalled nothing; the file system is the one given |
| `Provider.PositionProvider.ProcessLocation` | Z3Location/src/main/java/com/z3pipe/z3location/content/PositionProvider.java:92-128 | the new retained sample, event trace and files are exactly `Step` of the old ones; the retained sample always passed the accuracy gate |
| `Provider.PositionProvider.Deliver` | Z3Location/src/main/java/com/z3pipe/z3location/content/PositionProvider.java:99-108 | configured user: one `onPositionUpdate` with the new position, then (in the event trace, after it) the file append; sentinel user: one warning and no file change |
| `Provider.PositionProvider.WriteToFile` | Z3Location/src/main/java/com/z3pipe/z3location/content/PositionProvider.java:130-145 | the record is appended to the user's track file, and one `Written` event is recorded, exactly when the record is non-null and non-empty and the file exists; no other file changes |
| `Provider.BuildPositionString` | Z3Location/src/main/java/com/z3pipe/z3location/content/PositionProvider.java:196-213 | null exactly for a missing position or accuracy > 200; otherwise the record, which a reader (drop `%`, split on `,`) turns back into the five field texts in order |
| `Provider.RecordRoundTrip` | Z3Location/src/main/java/com/z3pipe/z3location/content/PositionProvider.java:201-212 | with separator-free field texts, a record ends in `%`, holds one `%` and four `,`, splits back into lon, lat, time, accuracy, speed, and its time field parses back to the same number |
| `Provider.FilePath` | Z3Location/src/main/java/com/z3pipe/z3location/content/PositionProvider.java:187-189 | the path is the configuration directory, then the user id, then `.t3.bin`, each recoverable at its position |
| `Provider.FilePathInjective` | Z3Location/src/main/java/com/z3pipe/z3location/content/PositionProvider.java:187-189 | under one directory, two users get the same track file only when they are the same user |
| `Provider.Wrap64` | Z3Location/src/main/java/com/z3pipe/z3location/content/PositionProvider.java:112 | the `long` result equals the exact difference modulo 2^64 and is the exact difference when that fits in a `long` |
| `Provider.TimeGateWithoutWrap` | Z3Location/src/main/java/com/z3pipe/z3location/content/PositionProvider.java:112 | for timestamps in the realistic range the time gate fires exactly when the plain difference is at least 5000 ms |
| `Provider.StepRejectsInadmissible` | Z3Location/src/main/java/com/z3pipe/z3location/content/PositionProvider.java:93-95 | a null sample or one with accuracy > 200 leaves the retained sample, the events and the files unchanged |
| `Provider.StepBootstrap` | Z3Location/src/main/java/com/z3pipe/z3location/content/PositionProvider.java:97-98 | with no retained sample, every admissible sample is accepted and becomes the retained sample |
| `Provider.AcceptsIffAnyGate` | Z3Location/src/main/java/com/z3pipe/z3location/content/PositionProvider.java:112-115 | with a retained sample, an admissible sample is accepted if and only if the time, the distance or the angle gate fires (OR, so any single gate suffices) |
| `Provider.AngleGateDisabled` | Z3Location/src/main/java/com/z3pipe/z3location/content/PositionProvider.java:114 | a configured angle of 0 or below never fires the angle gate, whatever the bearings |
| `Provider.StepNoGateUnchanged` | Z3Location/src/main/java/com/z3pipe/z3location/content/PositionProvider.java:115-127 | when no gate fires against the retained sample, the whole state is unchanged and nothing is signalled |
| `Provider.StepSentinel` | Z3Location/src/main/java/com/z3pipe/z3location/content/PositionProvider.java:116-126 | for user id `"0"` an accepted sample becomes the retained sample, one warning is raised, no position is delivered and no file changes |
| `Provider.StepDelivers` | Z3Location/src/main/java/com/z3pipe/z3location/content/PositionProvider.java:116-120 | for any other user an accepted sample becomes the retained sample; its position is delivered, and then, if the user's track file exists, its record (never null here) is appended to that file, both in this order in the event trace |
| `Provider.StepSettled` | Z3Location/src/main/java/com/z3pipe/z3location/content/PositionProvider.java:93-98 | the retained sample is never one the accuracy gate rejects |
| `Text.LongText` | Z3Location/src/main/java/com/z3pipe/z3location/content/PositionProvider.java:206 | the decimal text of the time holds no `,` or `%` and parses back to the same number |
| `Text.NatText` | Z3Location/src/main/java/com/z3pipe/z3location/content/PositionProvider.java:206 | the digits of a non-negative `long`, with no leading zero, that parse back to it |
| `Text.SplitJoin` | Z3Location/src/main/java/com/z3pipe/z3location/content/PositionProvider.java:201-211 | splitting on the separator recovers separator-free parts joined with it |
| `Text.JoinSeparatorCount` | Z3Location/src/main/java/com/z3pipe/z3location/content/PositionProvider.java:201-211 | n separator-free parts joined hold exactly n - 1 separators |
| `Tracking.AcceptedFixesAdmissible` | Z3Location/src/main/java/com/z3pipe/z3location/content/PositionProvider.java:93-95 | every sample a session accepts has accuracy at most 200 |
| `Tracking.RunLastLocation` | Z3Location/src/main/java/com/z3pipe/z3location/content/PositionProvider.java:97-116 | after a session the retained sample is the most recently accepted one, or the initial one if none was accepted |
| `Tracking.RunEvents` | Z3Location/src/main/java/com/z3pipe/z3location/content/PositionProvider.java:99-126 | after a session the events are the old ones followed, per accepted sample and in acceptance order, by the warning (sentinel user) or by the listener call and then, when the track file exists, the append of its record |
| `Tracking.RunFiles` | Z3Location/src/main/java/com/z3pipe/z3location/content/PositionProvider.java:130-145 | after a session only the configured user's existing track file has changed, by gaining the records of the accepted samples back to back; for the sentinel user no file changes |
| `Tracking.RunSettled` | Z3Location/src/main/java/com/z3pipe/z3location/content/PositionProvider.java:93-98 | the retained sample passes the accuracy gate throughout a session |
| `Tracking.SentinelSessionIsSilent` | Z3Location/src/main/java/com/z3pipe/z3location/content/PositionProvider.java:117-126 | for user id `"0"` a whole session writes nothing and delivers no position, only one warning per accepted sample, while the retained sample still advances |
| `Tracking.LogRoundTrip` | Z3Location/src/main/java/com/z3pipe/z3location/content/PositionProvider.java:211 | back-to-back records split on `%` into their bodies plus a final empty piece |
| `Tracking.RecordBodyParses` | Z3Location/src/main/java/com/z3pipe/z3location/content/PositionProvider.java:201-210 | a delivered position's record body holds no `%` and splits on `,` into its five field texts |
| `Tracking.TrackFileRoundTrip` | Z3Location/src/main/java/com/z3pipe/z3location/content/PositionProvider.java:130-145 | a configured user's well-formed track file, after a session, splits on `%` into its earlier records followed by one record per accepted sample, each splitting on `,` into that position's fields |
| `Tracking.StandingStillScenario` | Z3Location/src/main/java/com/z3pipe/z3location/content/PositionProvider.java:97-115 | angle 0 and a standing device: samples at 0, 2000 and 6000 ms are accepted, rejected and accepted, respectively |
| `Provider.Admissible` | Z3Location/src/main/java/com/z3pipe/z3location/content/PositionProvider.java:93-95 | the accuracy gate: a sample is kept only if it is present and its accuracy is not above 200; `StepRejectsInadmissible` states its effect |
| `Provider.ElapsedMillis` | Z3Location/src/main/java/com/z3pipe/z3location/content/PositionProvider.java:112 | `location.getTime() - lastLocation.getTime()` in `long` arithmetic, through `Wrap64` |
| `Provider.TimeGate` | Z3Location/src/main/java/com/z3pipe/z3location/content/PositionProvider.java:112 | the time gate: the wrapped elapsed time is at least 5000 ms; `TimeGateWithoutWrap` gives its plain reading |
| `Provider.DistanceGate` | Z3Location/src/main/java/com/z3pipe/z3location/content/PositionProvider.java:113 | the distance gate: the ellipse distance from the last to the new point, argument order as in the call, is at least 0.1 |
| `Provider.AngleGate` | Z3Location/src/main/java/com/z3pipe/z3location/content/PositionProvider.java:114 | the angle gate: a configured angle above 0 and an absolute bearing difference at least that angle; `AngleGateDisabled` states the switch-off |
| `Provider.Accepts` | Z3Location/src/main/java/com/z3pipe/z3location/content/PositionProvider.java:97-115 | the acceptance policy: admissible, and either no retained sample or one of the three gates; `AcceptsIffAnyGate` and `StepBootstrap` state it |
| `Provider.NewPosition` | Z3Location/src/main/java/com/z3pipe/z3location/content/PositionProvider.java:100 | the `Position` built from the identity constants, the sample and the battery level |
| `Provider.PositionRecord` | Z3Location/src/main/java/com/z3pipe/z3location/content/PositionProvider.java:196-213 | the record `buildPositionString` returns; `BuildPositionString` and `RecordRoundTrip` state what it holds |
| `Provider.FileWrite` | Z3Location/src/main/java/com/z3pipe/z3location/content/PositionProvider.java:130-140 | the append `writeToFile` makes: the non-empty record to the user's track file, only when that file exists; the path it names is always an existing file |
| `Provider.AppendRecord` | Z3Location/src/main/java/com/z3pipe/z3location/content/PositionProvider.java:130-145 | the files after `writeToFile`; `RunFiles` states their contents over a session |
| `Provider.WriteEvents` | Z3Location/src/main/java/com/z3pipe/z3location/content/PositionProvider.java:139 | the trace entry of the append, if one is made |
| `Provider.Report` | Z3Location/src/main/java/com/z3pipe/z3location/content/PositionProvider.java:99-108 | the block after acceptance: warning for the sentinel user, otherwise listener call, then append; `StepSentinel` and `StepDelivers` state it |
| `Provider.Step` | Z3Location/src/main/java/com/z3pipe/z3location/content/PositionProvider.java:92-128 | `processLocation` as a transition; `ProcessLocation` is proved equal to it and the `Step*` lemmas state its cases |
| `Provider.PositionFields` | Z3Location/src/main/java/com/z3pipe/z3location/content/PositionProvider.java:202-210 | the five field texts of a record in source order: longitude, latitude, time (as a `long`), accuracy, speed |
| `Provider.Abs` | Z3Location/src/main/java/com/z3pipe/z3location/content/PositionProvider.java:114 | `Math.abs` of the bearing difference |

## Left out

- Floating point: accuracy, bearing, speed, angle, distance and the battery level
  are reals. NaN and rounding are not modelled. For example, a NaN accuracy passes
  the Java accuracy test; in the model every accuracy is a number.
- `GeomMathUtil.calculateEllipseDistance` is a parameter, because its code is not
  part of this model. No symmetry or geodesic property is assumed or proved.
- The byte form Java gives a `double` or `float` in `StringBuilder.append` is a
  parameter, `numberText`. Only `long` values (the time) are rendered and parsed
  exactly.
- `getBatteryLevel` (Android `BatteryManager` intent, float division, 0 when no
  intent) is a value the caller supplies. Android can only be reached from a
  device.
- `Log.d` and `Toast` in the sentinel branch are one `InvalidUserId` event. Their
  texts and the `context != null` test are not modelled.
- `writeToFile`: the exception thrown by `GpsFileUtil.writeBinaryStream` and
  swallowed by the `catch` is not modelled. A write to an existing file always
  succeeds in the model.
- The abstract `startUpdates`, `stopUpdates` and `requestSingleLocation` have no
  body in this class.
- `onLocationError` and `onLocationQuality` only forward to the listener and have
  no logic.
- The listener's behaviour is not modelled; the model records only that it was
  called. A listener that throws, which in the source would stop the write that
  follows, is not modelled.
- Asynchronous, callback-driven delivery of samples is platform concurrency. The
  model processes samples one at a time, in order.
- `SPLITTER` and `NULLSTRING` are not modelled as constants. `NULLSTRING` is
  modelled only as the `None` result of the record builder.
- `Tracking.Run` and the session lemmas about it (`RunLastLocation`, `RunEvents`,
  `RunFiles`, `SentinelSessionIsSilent`, `TrackFileRoundTrip`) hold one `Config`
  for a whole session. The source reads the user id, the names, the angle and the
  configuration directory again on every call, so a user id that changes from
  `"0"` to a real id mid-session starts delivery. Only the single-call
  `ProcessLocation` and `Step` capture that, because they take the `Config` of
  the call.
- A null `Constants.USERID` is not modelled, because `userId` is always a string.
  In the source, `!"0".equals(null)` holds, so it delivers and writes to
  `confPath + "null.t3.bin"`.
- A null `context` is not modelled. In the source, `getBatteryLevel` then throws
  at line 171 after `lastLocation` has been replaced at line 98 or 116. The
  listener is not called and nothing is written. The model instead takes the
  battery level as a supplied value and always delivers.
- A null `positionCollectionConfig` is not modelled. In the source it throws at
  line 114 for every admissible sample after the first.
- Aliasing is not modelled: `lastLocation` holds a reference to the caller's
  mutable `Location` (lines 98 and 116), so later changes the caller makes to that
  object would change the retained sample. The model stores a copied value.
