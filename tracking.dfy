/** A tracking session: `processLocation` applied to each sample of a
    stream in turn, compared with an independent description of which
    samples are accepted, what is signalled for them and what the user's
    track file then holds. */
module Tracking {
  import opened Wrappers
  import opened Text
  import opened Provider

  /** One delivery from the location source, with the battery level read
      while it is processed. */
  datatype Sample = Sample(location: Option<Location>, battery: real)

  /** An accepted sample. */
  datatype Fix = Fix(location: Location, battery: real)

  /** The provider's state after processing `samples` from `s`, in order. */
  function Run(cfg: Config, s: ProviderState, samples: seq<Sample>): ProviderState
    decreases |samples|
  {
    if samples == [] then s
    else Run(cfg, Step(cfg, s, samples[0].location, samples[0].battery), samples[1..])
  }

  /** The samples the policy accepts, each judged against the one accepted
      last before it (`last` at the start). */
  function AcceptedFixes(cfg: Config, last: Option<Location>, samples: seq<Sample>): seq<Fix>
    decreases |samples|
  {
    if samples == [] then []
    else if Accepts(cfg, last, samples[0].location)
    then [Fix(samples[0].location.value, samples[0].battery)] + AcceptedFixes(cfg, samples[0].location, samples[1..])
    else AcceptedFixes(cfg, last, samples[1..])
  }

  /** The location of the last fix, or `initial` when there is none. */
  function LastFix(fixes: seq<Fix>, initial: Option<Location>): Option<Location> {
    if fixes == [] then initial else Some(fixes[|fixes| - 1].location)
  }

  /** What is signalled for one accepted fix: the sentinel warning, or the
      listener call followed, when the track file exists, by the append of
      the fix's record to it. */
  function Notice(cfg: Config, fileExists: bool, f: Fix): seq<Event> {
    if cfg.identity.userId == UnconfiguredUserId then [InvalidUserId]
    else
      [PositionUpdate(NewPosition(cfg.identity, f.location, f.battery))] +
      (if fileExists
       then [Written(FilePath(cfg.confPath, cfg.identity.userId), RecordBody(cfg, f) + [RecordTerminator])]
       else [])
  }

  function Notices(cfg: Config, fileExists: bool, fixes: seq<Fix>): seq<Event> {
    if fixes == [] then [] else Notice(cfg, fileExists, fixes[0]) + Notices(cfg, fileExists, fixes[1..])
  }

  /** The fields of the position delivered for a fix. */
  function FixFields(cfg: Config, f: Fix): seq<string> {
    PositionFields(NewPosition(cfg.identity, f.location, f.battery), cfg.numberText)
  }

  /** The record body (the record without its terminator) of a fix. */
  function RecordBody(cfg: Config, f: Fix): string {
    Join(FixFields(cfg, f), FieldSeparator)
  }

  function RecordBodies(cfg: Config, fixes: seq<Fix>): (bodies: seq<string>)
    ensures |bodies| == |fixes|
    ensures forall i :: 0 <= i < |fixes| ==> bodies[i] == RecordBody(cfg, fixes[i])
  {
    if fixes == [] then [] else [RecordBody(cfg, fixes[0])] + RecordBodies(cfg, fixes[1..])
  }

  /** Records appended back to back: every body followed by the terminator. */
  function LogOf(bodies: seq<string>): string {
    if bodies == [] then "" else bodies[0] + [RecordTerminator] + LogOf(bodies[1..])
  }

  // ---------------------------------------------------------------------
  // The session against its description

  /** Every accepted fix passed the accuracy gate. */
  lemma {:induction false} AcceptedFixesAdmissible(cfg: Config, last: Option<Location>, samples: seq<Sample>)
    ensures forall i :: 0 <= i < |AcceptedFixes(cfg, last, samples)| ==>
              !(AcceptedFixes(cfg, last, samples)[i].location.accuracy > MaxAccuracy)
    decreases |samples|
  {
    if samples != [] {
      if Accepts(cfg, last, samples[0].location) {
        AcceptedFixesAdmissible(cfg, samples[0].location, samples[1..]);
      } else {
        AcceptedFixesAdmissible(cfg, last, samples[1..]);
      }
    }
  }

  /** After a run, `lastLocation` is the most recently accepted sample, or
      what it was before when nothing was accepted. */
  lemma {:induction false} RunLastLocation(cfg: Config, s: ProviderState, samples: seq<Sample>)
    ensures Run(cfg, s, samples).lastLocation == LastFix(AcceptedFixes(cfg, s.lastLocation, samples), s.lastLocation)
    decreases |samples|
  {
    if samples != [] {
      var s1 := Step(cfg, s, samples[0].location, samples[0].battery);
      RunLastLocation(cfg, s1, samples[1..]);
    }
  }

  /** After a run, the events are the old ones followed by those of each
      accepted sample, in order: for a configured user, its listener call and
      then, when the track file exists, the append of its record. */
  lemma {:induction false} RunEvents(cfg: Config, s: ProviderState, samples: seq<Sample>)
    ensures var fileExists := FilePath(cfg.confPath, cfg.identity.userId) in s.files;
            Run(cfg, s, samples).events ==
              s.events + Notices(cfg, fileExists, AcceptedFixes(cfg, s.lastLocation, samples))
    decreases |samples|
  {
    if samples != [] {
      var path := FilePath(cfg.confPath, cfg.identity.userId);
      var s1 := Step(cfg, s, samples[0].location, samples[0].battery);
      assert path in s1.files <==> path in s.files;
      RunEvents(cfg, s1, samples[1..]);
      if Accepts(cfg, s.lastLocation, samples[0].location) {
        var f := Fix(samples[0].location.value, samples[0].battery);
        var rest := AcceptedFixes(cfg, samples[0].location, samples[1..]);
        assert ([f] + rest)[1..] == rest;
        assert s1.events == s.events + Notice(cfg, path in s.files, f);
      }
    }
  }

  /** After a run, the only file touched is the configured user's own
      track file, and only when it exists: it has gained the records of the
      accepted samples, back to back. The sentinel user's files never change. */
  lemma {:induction false} RunFiles(cfg: Config, s: ProviderState, samples: seq<Sample>)
    ensures var path := FilePath(cfg.confPath, cfg.identity.userId);
            var fixes := AcceptedFixes(cfg, s.lastLocation, samples);
            Run(cfg, s, samples).files ==
              if cfg.identity.userId != UnconfiguredUserId && path in s.files
              then s.files[path := s.files[path] + LogOf(RecordBodies(cfg, fixes))]
              else s.files
    decreases |samples|
  {
    var path := FilePath(cfg.confPath, cfg.identity.userId);
    if samples == [] {
      if cfg.identity.userId != UnconfiguredUserId && path in s.files {
        assert s.files[path] + LogOf([]) == s.files[path];
        assert s.files[path := s.files[path]] == s.files;
      }
    } else {
      var s1 := Step(cfg, s, samples[0].location, samples[0].battery);
      RunFiles(cfg, s1, samples[1..]);
      if Accepts(cfg, s.lastLocation, samples[0].location) {
        var f := Fix(samples[0].location.value, samples[0].battery);
        var rest := AcceptedFixes(cfg, s1.lastLocation, samples[1..]);
        assert ([f] + rest)[1..] == rest;
        if cfg.identity.userId != UnconfiguredUserId {
          var body := RecordBody(cfg, f);
          assert RecordBodies(cfg, [f] + rest) == [body] + RecordBodies(cfg, rest);
          var tail := LogOf(RecordBodies(cfg, rest));
          assert LogOf([body] + RecordBodies(cfg, rest)) == body + [RecordTerminator] + tail;
          if path in s.files {
            assert s1.files == s.files[path := s.files[path] + (body + [RecordTerminator])];
            assert s.files[path] + (body + [RecordTerminator]) + tail == s.files[path] + (body + [RecordTerminator] + tail);
          } else {
            assert s1.files == s.files;
          }
        }
      }
    }
  }

  /** The retained sample passes the accuracy gate throughout a run. */
  lemma {:induction false} RunSettled(cfg: Config, s: ProviderState, samples: seq<Sample>)
    requires Settled(s.lastLocation)
    ensures Settled(Run(cfg, s, samples).lastLocation)
    decreases |samples|
  {
    if samples != [] {
      StepSettled(cfg, s, samples[0].location, samples[0].battery);
      RunSettled(cfg, Step(cfg, s, samples[0].location, samples[0].battery), samples[1..]);
    }
  }

  lemma {:induction false} NoticesOfSentinel(cfg: Config, fileExists: bool, fixes: seq<Fix>)
    requires cfg.identity.userId == UnconfiguredUserId
    ensures |Notices(cfg, fileExists, fixes)| == |fixes|
    ensures forall i :: 0 <= i < |fixes| ==> Notices(cfg, fileExists, fixes)[i] == InvalidUserId
  {
    if fixes != [] {
      NoticesOfSentinel(cfg, fileExists, fixes[1..]);
    }
  }

  /** For the sentinel user a whole session delivers and writes nothing,
      whatever the samples and the gates: each accepted sample raises one
      warning and nothing else, yet `lastLocation` still advances. */
  lemma SentinelSessionIsSilent(cfg: Config, s: ProviderState, samples: seq<Sample>)
    requires cfg.identity.userId == UnconfiguredUserId
    ensures var s' := Run(cfg, s, samples);
            var fixes := AcceptedFixes(cfg, s.lastLocation, samples);
            s'.files == s.files &&
            s'.lastLocation == LastFix(fixes, s.lastLocation) &&
            |s'.events| == |s.events| + |fixes| &&
            s'.events[..|s.events|] == s.events &&
            forall i :: |s.events| <= i < |s'.events| ==> s'.events[i] == InvalidUserId
  {
    RunFiles(cfg, s, samples);
    RunEvents(cfg, s, samples);
    RunLastLocation(cfg, s, samples);
    NoticesOfSentinel(cfg, FilePath(cfg.confPath, cfg.identity.userId) in s.files,
                      AcceptedFixes(cfg, s.lastLocation, samples));
  }

  // ---------------------------------------------------------------------
  // Reading the track file back

  lemma {:induction false} LogOfAppend(a: seq<string>, b: seq<string>)
    ensures LogOf(a + b) == LogOf(a) + LogOf(b)
  {
    if a == [] {
      assert a + b == b;
    } else {
      assert (a + b)[1..] == a[1..] + b;
      LogOfAppend(a[1..], b);
    }
  }

  lemma {:induction false} LogOfIsJoin(bodies: seq<string>)
    ensures LogOf(bodies) == Join(bodies + [""], RecordTerminator)
  {
    if bodies != [] {
      LogOfIsJoin(bodies[1..]);
      assert (bodies + [""])[1..] == bodies[1..] + [""];
    }
  }

  /** Splitting a log on the terminator yields its bodies and a final empty
      piece, provided no body holds the terminator. */
  lemma LogRoundTrip(bodies: seq<string>)
    requires forall i :: 0 <= i < |bodies| ==> RecordTerminator !in bodies[i]
    ensures Split(LogOf(bodies), RecordTerminator) == bodies + [""]
  {
    LogOfIsJoin(bodies);
    SplitJoin(bodies + [""], RecordTerminator);
  }

  /** A record body holds the five field texts of the fix's position and
      no terminator. */
  lemma RecordBodyParses(cfg: Config, f: Fix)
    requires CleanNumberText(cfg.numberText)
    ensures RecordTerminator !in RecordBody(cfg, f)
    ensures Split(RecordBody(cfg, f), FieldSeparator) == FixFields(cfg, f)
  {
    var fields := FixFields(cfg, f);
    assert forall j :: 0 <= j < |fields| ==> SeparatorFree(fields[j]);
    SplitJoin(fields, FieldSeparator);
    JoinAvoids(fields, FieldSeparator, RecordTerminator);
  }

  /** For a configured user whose track file exists and holds well-formed
      records, a session leaves a file a reader splits on `%` into the old
      records and then one record per accepted sample, in order, each of
      which splits on `,` into that position's five field texts. */
  lemma TrackFileRoundTrip(cfg: Config, s: ProviderState, samples: seq<Sample>, earlier: seq<string>)
    requires cfg.identity.userId != UnconfiguredUserId
    requires CleanNumberText(cfg.numberText)
    requires FilePath(cfg.confPath, cfg.identity.userId) in s.files
    requires s.files[FilePath(cfg.confPath, cfg.identity.userId)] == LogOf(earlier)
    requires forall i :: 0 <= i < |earlier| ==> RecordTerminator !in earlier[i]
    ensures var fixes := AcceptedFixes(cfg, s.lastLocation, samples);
            var bodies := RecordBodies(cfg, fixes);
            var path := FilePath(cfg.confPath, cfg.identity.userId);
            path in Run(cfg, s, samples).files &&
            Split(Run(cfg, s, samples).files[path], RecordTerminator) == earlier + bodies + [""] &&
            forall i :: 0 <= i < |fixes| ==> Split(bodies[i], FieldSeparator) == FixFields(cfg, fixes[i])
  {
    var fixes := AcceptedFixes(cfg, s.lastLocation, samples);
    var bodies := RecordBodies(cfg, fixes);
    RunFiles(cfg, s, samples);
    forall i | 0 <= i < |fixes|
      ensures RecordTerminator !in bodies[i]
      ensures Split(bodies[i], FieldSeparator) == FixFields(cfg, fixes[i])
    {
      RecordBodyParses(cfg, fixes[i]);
    }
    LogOfAppend(earlier, bodies);
    LogRoundTrip(earlier + bodies);
  }

  // ---------------------------------------------------------------------
  // A scenario

  /** With the angle gate off and the device standing still, a fresh session
      accepts the sample at 0 ms (bootstrap), rejects the one at 2000 ms and
      accepts the one at 6000 ms (time gate). */
  lemma StandingStillScenario(cfg: Config, lat: real, lon: real, accuracy: real, bearing: real, speed: real,
                              b0: real, b1: real, b2: real)
    requires cfg.angle == 0.0
    requires !(accuracy > MaxAccuracy)
    requires cfg.ellipseDistance(lat, lon, lat, lon) < MinDistance
    ensures var l0 := Location(lat, lon, 0, accuracy, bearing, speed);
            var l1 := Location(lat, lon, 2000, accuracy, bearing, speed);
            var l2 := Location(lat, lon, 6000, accuracy, bearing, speed);
            AcceptedFixes(cfg, None, [Sample(Some(l0), b0), Sample(Some(l1), b1), Sample(Some(l2), b2)])
              == [Fix(l0, b0), Fix(l2, b2)]
  {
    var l0 := Location(lat, lon, 0, accuracy, bearing, speed);
    var l1 := Location(lat, lon, 2000, accuracy, bearing, speed);
    var l2 := Location(lat, lon, 6000, accuracy, bearing, speed);
    var samples := [Sample(Some(l0), b0), Sample(Some(l1), b1), Sample(Some(l2), b2)];
    assert !TimeGate(l0, l1) && TimeGate(l0, l2);
    assert !Accepts(cfg, Some(l0), Some(l1));
    assert samples[1..][1..] == [Sample(Some(l2), b2)];
    assert samples[1..][1..][1..] == [];
    calc {
      AcceptedFixes(cfg, None, samples);
      [Fix(l0, b0)] + AcceptedFixes(cfg, Some(l0), samples[1..]);
      [Fix(l0, b0)] + AcceptedFixes(cfg, Some(l0), samples[1..][1..]);
      [Fix(l0, b0)] + ([Fix(l2, b2)] + AcceptedFixes(cfg, Some(l2), []));
    }
  }
}
