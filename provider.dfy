/** The position filter of `PositionProvider`: the accuracy gate, the
    bootstrap case, the time/distance/angle acceptance policy over the one
    retained sample `lastLocation`, the sentinel user id that suppresses
    delivery, the track record written for each delivered position and the
    name of the per-user track file. */
module Provider {
  import opened Wrappers
  import opened Text

  /** Java's `long`. */
  newtype int64 = x: int | -0x8000_0000_0000_0000 <= x < 0x8000_0000_0000_0000

  /** Samples less accurate than this many metres are dropped. */
  const MaxAccuracy: real := 200.0
  /** The time gate fires after this many milliseconds. */
  const MinIntervalMillis: int := 5000
  /** The distance gate fires at this ellipse distance. */
  const MinDistance: real := 0.1
  /** The user id that means "not configured": nothing is delivered for it. */
  const UnconfiguredUserId: string := "0"
  /** `SPLITTERPOSLONLAT`, between the fields of a record. */
  const FieldSeparator: char := ','
  /** `SPLITTERPOS`, at the end of every record. */
  const RecordTerminator: char := '%'
  /** Suffix of the track file name. */
  const TrackFileSuffix: string := ".t3.bin"

  /** An Android `Location` sample, reduced to the fields the provider reads. */
  datatype Location = Location(latitude: real, longitude: real, time: int64,
                               accuracy: real, bearing: real, speed: real)

  /** The user held in the global `Constants`: `USER_NAME`, `TRUE_NAME`, `USERID`. */
  datatype Identity = Identity(userName: string, trueName: string, userId: string)

  /** The record handed to the listener and written to the track file. */
  datatype Position = Position(userName: string, trueName: string, userId: string,
                               longitude: real, latitude: real, time: int64,
                               accuracy: real, speed: real, battery: real)

  /** What the provider works with but does not own: the identity constants,
      the configured angle of `PositionCollectionConfig`, the configuration
      directory of `FileUtil`, the ellipse distance of `GeomMathUtil`
      (arguments: last latitude, last longitude, latitude, longitude) and the
      text `StringBuilder.append` gives a floating-point number. */
  datatype Config = Config(identity: Identity, angle: real, confPath: string,
                           ellipseDistance: (real, real, real, real) -> real,
                           numberText: real -> string)

  /** What the provider does outside itself, in order: the listener's
      `onPositionUpdate`, the "invalid user id" warning (log line and toast)
      of the sentinel case, or the append of `record` to the file at `path`. */
  datatype Event = PositionUpdate(position: Position) | InvalidUserId | Written(path: string, record: string)

  /** The provider's observable state: the retained sample, the signals sent
      so far, and the track files that exist, by path, with their contents. */
  datatype ProviderState = ProviderState(lastLocation: Option<Location>,
                                         events: seq<Event>,
                                         files: map<string, string>)

  ghost predicate CleanNumberText(numberText: real -> string) {
    forall x :: SeparatorFree(numberText(x))
  }

  function Abs(x: real): real {
    if x < 0.0 then -x else x
  }

  /** Two's-complement wrap-around of an integer into a `long`. */
  function Wrap64(x: int): (r: int64)
    ensures (r as int - x) % 0x1_0000_0000_0000_0000 == 0
    ensures -0x8000_0000_0000_0000 <= x < 0x8000_0000_0000_0000 ==> r as int == x
  {
    ((x + 0x8000_0000_0000_0000) % 0x1_0000_0000_0000_0000 - 0x8000_0000_0000_0000) as int64
  }

  /** `location.getTime() - lastLocation.getTime()` in `long` arithmetic. */
  function ElapsedMillis(last: Location, loc: Location): int64 {
    Wrap64(loc.time as int - last.time as int)
  }

  /** The sample passes the accuracy gate: it is present and not less
      accurate than `MaxAccuracy`. */
  predicate Admissible(location: Option<Location>) {
    location.Some? && !(location.value.accuracy > MaxAccuracy)
  }

  predicate TimeGate(last: Location, loc: Location) {
    ElapsedMillis(last, loc) as int >= MinIntervalMillis
  }

  predicate DistanceGate(distance: (real, real, real, real) -> real, last: Location, loc: Location) {
    distance(last.latitude, last.longitude, loc.latitude, loc.longitude) >= MinDistance
  }

  predicate AngleGate(angle: real, last: Location, loc: Location) {
    angle > 0.0 && Abs(loc.bearing - last.bearing) >= angle
  }

  /** The acceptance policy: an admissible sample is taken when there is no
      previous one, or when any gate fires against the previous one. */
  predicate Accepts(cfg: Config, last: Option<Location>, location: Option<Location>) {
    Admissible(location) &&
    (last.None? ||
     TimeGate(last.value, location.value) ||
     DistanceGate(cfg.ellipseDistance, last.value, location.value) ||
     AngleGate(cfg.angle, last.value, location.value))
  }

  /** `new Position(USER_NAME, TRUE_NAME, USERID, location, battery)`. */
  function NewPosition(id: Identity, loc: Location, battery: real): Position {
    Position(id.userName, id.trueName, id.userId, loc.longitude, loc.latitude,
             loc.time, loc.accuracy, loc.speed, battery)
  }

  /** The five field texts of a record: longitude, latitude, time, accuracy, speed. */
  function PositionFields(p: Position, numberText: real -> string): seq<string> {
    [numberText(p.longitude), numberText(p.latitude), LongText(p.time as int),
     numberText(p.accuracy), numberText(p.speed)]
  }

  /** The record `buildPositionString` returns; `None` is its `null`. */
  function PositionRecord(position: Option<Position>, numberText: real -> string): Option<string> {
    if position.None? || position.value.accuracy > MaxAccuracy then None
    else Some(Join(PositionFields(position.value, numberText), FieldSeparator) + [RecordTerminator])
  }

  /** How a reader of the track file takes a record apart: drop the final
      terminator, split the rest on the field separator. */
  function ParseRecord(record: string): Option<seq<string>> {
    if |record| > 0 && record[|record| - 1] == RecordTerminator
    then Some(Split(record[..|record| - 1], FieldSeparator))
    else None
  }

  /** A record of separator-free field texts holds four field separators and
      one terminator, at its end, and reading it back yields the five field
      texts in order, the time among them as the same number. */
  lemma RecordRoundTrip(p: Position, numberText: real -> string)
    requires !(p.accuracy > MaxAccuracy)
    requires CleanNumberText(numberText)
    ensures PositionRecord(Some(p), numberText).Some?
    ensures var r := PositionRecord(Some(p), numberText).value;
            r[|r| - 1] == RecordTerminator &&
            multiset(r)[RecordTerminator] == 1 &&
            multiset(r)[FieldSeparator] == 4 &&
            ParseRecord(r) == Some(PositionFields(p, numberText)) &&
            ParseLong(PositionFields(p, numberText)[2]) == Some(p.time as int)
  {
    var fields := PositionFields(p, numberText);
    assert forall i :: 0 <= i < |fields| ==> SeparatorFree(fields[i]);
    var body := Join(fields, FieldSeparator);
    var r := body + [RecordTerminator];
    assert r[..|r| - 1] == body;
    SplitJoin(fields, FieldSeparator);
    JoinAvoids(fields, FieldSeparator, RecordTerminator);
    assert multiset(r) == multiset(body) + multiset{RecordTerminator};
  }

  /** `buildPositionString`: `null` for a missing or inaccurate position,
      otherwise the fields appended one by one with their separators. */
  method BuildPositionString(position: Option<Position>, numberText: real -> string)
    returns (r: Option<string>)
    ensures r.None? <==> position.None? || position.value.accuracy > MaxAccuracy
    ensures r == PositionRecord(position, numberText)
    ensures r.Some? && CleanNumberText(numberText) ==>
              ParseRecord(r.value) == Some(PositionFields(position.value, numberText))
  {
    if position.None? || position.value.accuracy > MaxAccuracy {
      return None;
    }
    var p := position.value;
    var sb := "";
    sb := sb + numberText(p.longitude);
    sb := sb + [FieldSeparator];
    sb := sb + numberText(p.latitude);
    sb := sb + [FieldSeparator];
    sb := sb + LongText(p.time as int);
    sb := sb + [FieldSeparator];
    sb := sb + numberText(p.accuracy);
    sb := sb + [FieldSeparator];
    sb := sb + numberText(p.speed);
    sb := sb + [RecordTerminator];
    ghost var fields := PositionFields(p, numberText);
    assert Join(fields[3..], FieldSeparator) == fields[3] + [FieldSeparator] + fields[4] by {
      assert fields[3..][1..] == [fields[4]];
    }
    assert Join(fields[2..], FieldSeparator) == fields[2] + [FieldSeparator] + Join(fields[3..], FieldSeparator) by {
      assert fields[2..][1..] == fields[3..];
    }
    assert Join(fields[1..], FieldSeparator) == fields[1] + [FieldSeparator] + Join(fields[2..], FieldSeparator) by {
      assert fields[1..][1..] == fields[2..];
    }
    assert sb == Join(fields, FieldSeparator) + [RecordTerminator];
    r := Some(sb);
    if CleanNumberText(numberText) {
      RecordRoundTrip(p, numberText);
    }
  }

  /** `getFilePath`: the configuration directory, the user id, the suffix. */
  function FilePath(confPath: string, userId: string): (path: string)
    ensures |path| == |confPath| + |userId| + |TrackFileSuffix|
    ensures path[..|confPath|] == confPath
    ensures path[|confPath|..|confPath| + |userId|] == userId
    ensures path[|confPath| + |userId|..] == TrackFileSuffix
  {
    confPath + userId + TrackFileSuffix
  }

  /** One track file per user: under one directory, different users get
      different paths. */
  lemma FilePathInjective(confPath: string, u: string, v: string)
    requires FilePath(confPath, u) == FilePath(confPath, v)
    ensures u == v
  {
  }

  /** The append `writeToFile` makes for `p`: the record goes to the user's
      track file when it is not null or empty and the file exists; `None`
      when nothing is written. */
  function FileWrite(cfg: Config, files: map<string, string>, p: Position): (w: Option<Event>)
    ensures w.Some? ==> w.value.Written? && w.value.path in files
  {
    match PositionRecord(Some(p), cfg.numberText)
    case None => None
    case Some(result) =>
      var path := FilePath(cfg.confPath, p.userId);
      if result != "" && path in files then Some(Written(path, result)) else None
  }

  /** The files after `writeToFile`: the one append, if any, made. */
  function AppendRecord(cfg: Config, files: map<string, string>, p: Position): map<string, string> {
    match FileWrite(cfg, files, p)
    case None => files
    case Some(w) => files[w.path := files[w.path] + w.record]
  }

  /** The events of `writeToFile`: its append, if it makes one. */
  function WriteEvents(cfg: Config, files: map<string, string>, p: Position): seq<Event> {
    match FileWrite(cfg, files, p)
    case None => []
    case Some(w) => [w]
  }

  /** The block run on acceptance, after `lastLocation` has been replaced:
      for a configured user, the listener is called and then the record
      written; for the sentinel user, only the warning is raised. */
  function Report(cfg: Config, s: ProviderState, loc: Location, battery: real): ProviderState {
    if cfg.identity.userId == UnconfiguredUserId then
      s.(events := s.events + [InvalidUserId])
    else
      var p := NewPosition(cfg.identity, loc, battery);
      s.(events := s.events + [PositionUpdate(p)] + WriteEvents(cfg, s.files, p),
         files := AppendRecord(cfg, s.files, p))
  }

  /** `processLocation` as a state transition, `battery` being the value
      `getBatteryLevel` reads at that moment. */
  function Step(cfg: Config, s: ProviderState, location: Option<Location>, battery: real): ProviderState {
    if Accepts(cfg, s.lastLocation, location)
    then Report(cfg, s.(lastLocation := location), location.value, battery)
    else s
  }

  /** The retained sample is never one the accuracy gate rejects. */
  predicate Settled(last: Option<Location>) {
    last.None? || Admissible(last)
  }

  // ---------------------------------------------------------------------
  // Properties of one call of processLocation

  /** A missing or inaccurate sample changes nothing and signals nothing. */
  lemma StepRejectsInadmissible(cfg: Config, s: ProviderState, location: Option<Location>, battery: real)
    requires location.None? || location.value.accuracy > MaxAccuracy
    ensures Step(cfg, s, location, battery) == s
  {
  }

  /** The first admissible sample is always accepted and retained. */
  lemma StepBootstrap(cfg: Config, s: ProviderState, location: Option<Location>, battery: real)
    requires s.lastLocation.None? && Admissible(location)
    ensures Accepts(cfg, s.lastLocation, location)
    ensures Step(cfg, s, location, battery).lastLocation == location
  {
  }

  /** With a previous sample, acceptance is the OR of the three gates: any
      one of them alone suffices, and none of them means rejection. */
  lemma AcceptsIffAnyGate(cfg: Config, last: Location, location: Option<Location>)
    requires Admissible(location)
    ensures Accepts(cfg, Some(last), location) <==>
              TimeGate(last, location.value) ||
              DistanceGate(cfg.ellipseDistance, last, location.value) ||
              AngleGate(cfg.angle, last, location.value)
  {
  }

  /** A configured angle of zero or less switches the angle gate off,
      whatever the bearings. */
  lemma AngleGateDisabled(angle: real, last: Location, loc: Location)
    requires angle <= 0.0
    ensures !AngleGate(angle, last, loc)
  {
  }

  /** While both times are in the realistic range, the time gate compares
      the plain difference of the timestamps. */
  lemma TimeGateWithoutWrap(last: Location, loc: Location)
    requires 0 <= last.time as int < 0x4000_0000_0000_0000
    requires 0 <= loc.time as int < 0x4000_0000_0000_0000
    ensures TimeGate(last, loc) <==> loc.time as int - last.time as int >= MinIntervalMillis
  {
  }

  /** When no gate fires against the previous sample, nothing changes and
      nothing is signalled. */
  lemma StepNoGateUnchanged(cfg: Config, s: ProviderState, location: Option<Location>, battery: real)
    requires s.lastLocation.Some? && location.Some?
    requires !TimeGate(s.lastLocation.value, location.value)
    requires !DistanceGate(cfg.ellipseDistance, s.lastLocation.value, location.value)
    requires !AngleGate(cfg.angle, s.lastLocation.value, location.value)
    ensures Step(cfg, s, location, battery) == s
  {
  }

  /** For the sentinel user an accepted sample still becomes `lastLocation`,
      but no position is delivered or written: only the warning is raised. */
  lemma StepSentinel(cfg: Config, s: ProviderState, location: Option<Location>, battery: real)
    requires Accepts(cfg, s.lastLocation, location)
    requires cfg.identity.userId == UnconfiguredUserId
    ensures Step(cfg, s, location, battery) ==
              ProviderState(location, s.events + [InvalidUserId], s.files)
  {
  }

  /** For a configured user an accepted sample becomes `lastLocation`, its
      position goes to the listener, and then its record, never null here,
      is appended to the user's track file when that file exists. */
  lemma StepDelivers(cfg: Config, s: ProviderState, location: Option<Location>, battery: real)
    requires Accepts(cfg, s.lastLocation, location)
    requires cfg.identity.userId != UnconfiguredUserId
    ensures var p := NewPosition(cfg.identity, location.value, battery);
            var path := FilePath(cfg.confPath, cfg.identity.userId);
            var s' := Step(cfg, s, location, battery);
            PositionRecord(Some(p), cfg.numberText).Some? &&
            var record := PositionRecord(Some(p), cfg.numberText).value;
            s'.lastLocation == location &&
            s'.events == s.events + [PositionUpdate(p)] + (if path in s.files then [Written(path, record)] else []) &&
            s'.files == if path in s.files then s.files[path := s.files[path] + record] else s.files
  {
  }

  /** The retained sample always passed the accuracy gate. */
  lemma StepSettled(cfg: Config, s: ProviderState, location: Option<Location>, battery: real)
    requires Settled(s.lastLocation)
    ensures Settled(Step(cfg, s, location, battery).lastLocation)
  {
  }

  // ---------------------------------------------------------------------
  // The provider object

  /** `PositionProvider`: the filter state `lastLocation`, updated in place
      by `ProcessLocation`; `events` and `files` stand for the listener and
      the file system it writes to. The identity constants, the configured
      angle and the configuration directory are read afresh on every call,
      so each call is given the `Config` of that moment. */
  class PositionProvider {
    var lastLocation: Option<Location>
    var events: seq<Event>
    var files: map<string, string>

    ghost predicate Valid()
      reads this
    {
      Settled(lastLocation)
    }

    function Snapshot(): ProviderState
      reads this
    {
      ProviderState(lastLocation, events, files)
    }

    /** A provider starts with no retained sample and has signalled nothing. */
    constructor (files: map<string, string>)
      ensures Valid()
      ensures Snapshot() == ProviderState(None, [], files)
    {
      this.lastLocation := None;
      this.events := [];
      this.files := files;
    }

    /** `processLocation`. */
    method ProcessLocation(cfg: Config, location: Option<Location>, battery: real)
      requires Valid()
      modifies this
      ensures Valid()
      ensures Snapshot() == Step(cfg, old(Snapshot()), location, battery)
    {
      if location.None? || location.value.accuracy > MaxAccuracy {
        return;
      }
      var loc := location.value;
      if lastLocation.None? {
        lastLocation := location;
        Deliver(cfg, loc, battery);
        return;
      }
      var last := lastLocation.value;
      var conditionTime := ElapsedMillis(last, loc) as int >= MinIntervalMillis;
      var conditionDistance := cfg.ellipseDistance(last.latitude, last.longitude, loc.latitude, loc.longitude) >= MinDistance;
      var conditionAngle := cfg.angle > 0.0 && Abs(loc.bearing - last.bearing) >= cfg.angle;
      if conditionTime || conditionDistance || conditionAngle {
        lastLocation := location;
        Deliver(cfg, loc, battery);
      }
    }

    /** The identity check after acceptance: build the position, call the
        listener, then write the record; or warn for the sentinel user. */
    method Deliver(cfg: Config, loc: Location, battery: real)
      modifies this`events, this`files
      ensures Snapshot() == Report(cfg, old(Snapshot()), loc, battery)
    {
      if cfg.identity.userId != UnconfiguredUserId {
        var position := NewPosition(cfg.identity, loc, battery);
        events := events + [PositionUpdate(position)];
        WriteToFile(cfg, position);
      } else {
        events := events + [InvalidUserId];
      }
    }

    /** `writeToFile`. */
    method WriteToFile(cfg: Config, position: Position)
      modifies this`events, this`files
      ensures files == AppendRecord(cfg, old(files), position)
      ensures events == old(events) + WriteEvents(cfg, old(files), position)
    {
      var result := BuildPositionString(Some(position), cfg.numberText);
      if result.Some? && result.value != "" {
        var filePath := FilePath(cfg.confPath, position.userId);
        if filePath in files {
          files := files[filePath := files[filePath] + result.value];
          events := events + [Written(filePath, result.value)];
        }
      }
    }
  }
}
