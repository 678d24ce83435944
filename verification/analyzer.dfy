/**
 * The offline analysis of a recording (`OfficeVRAnalyzer` in analyze_office_vr.py): the
 * interaction and placement-zone marker streams are picked out by name, every sample string is
 * split on `|` and read into a record by field count and position, and the interaction records
 * are summarised and paired into grab-to-release hold times.
 *
 * Numeric fields stay the strings they were recorded as; the LSL time stamps of the samples
 * are integers, compared and subtracted. A pandas data frame is a sequence of records, its
 * boolean-mask selections are `Filter`, and `value_counts` is a multiset.
 */
module Analysis {
  import opened Wrappers
  import opened Strings
  import Interactions
  import PlacementZones

  /** One sample of a recorded stream: its LSL time stamp and its (first-channel) string. */
  datatype Sample = Sample(timestamp: int, text: string)

  /** A recorded stream: the name in its header and its samples in recording order. */
  datatype Stream = Stream(name: string, samples: seq<Sample>)

  /** A row of the interaction frame. */
  datatype Interaction = Interaction(timestamp: int, eventType: string, objectName: string, hand: string,
                                     posX: string, posY: string, posZ: string, placementZone: string, unityTime: string)

  /** A row of the placement frame; `dwellTime == None` is the 0.0 given to every event but Exit. */
  datatype Placement = Placement(timestamp: int, eventType: string, zoneName: string, zoneType: string, objectName: string,
                                 posX: string, posY: string, posZ: string, dwellTime: Option<string>, unityTime: string)

  // ------------------------------------------------------------ line parsing

  /** A line with at least seven fields is a Grab or Release row; the zone is read only from a line longer than seven. */
  function ParseInteraction(s: Sample): (r: Option<Interaction>)
    ensures r.Some? <==> |Split(s.text, '|')| >= 7
    ensures r.Some? ==> r.value.timestamp == s.timestamp
    ensures r.Some? && |Split(s.text, '|')| == 7 ==> r.value.placementZone == "N/A"
  {
    var parts := Split(s.text, '|');
    if |parts| >= 7 then
      Some(Interaction(s.timestamp, parts[0], parts[1], parts[2], parts[3], parts[4], parts[5],
                       if |parts| > 7 then parts[6] else "N/A", parts[|parts| - 1]))
    else None
  }

  /** A line with at least eight fields is a zone row; the dwell is read only for Exit. */
  function ParsePlacement(s: Sample): (r: Option<Placement>)
    ensures r.Some? <==> |Split(s.text, '|')| >= 8
    ensures r.Some? ==> r.value.timestamp == s.timestamp && (r.value.dwellTime.Some? <==> r.value.eventType == "Exit")
  {
    var parts := Split(s.text, '|');
    if |parts| >= 8 then
      Some(Placement(s.timestamp, parts[0], parts[1], parts[2], parts[3], parts[4], parts[5], parts[6],
                     if parts[0] == "Exit" then Some(parts[7]) else None, parts[|parts| - 1]))
    else None
  }

  /** The rows read from a stream's samples, in order; lines too short are dropped. */
  function ParseInteractions(samples: seq<Sample>): seq<Interaction>
    decreases |samples|
  {
    if samples == [] then []
    else
      var last := ParseInteraction(samples[|samples| - 1]);
      ParseInteractions(samples[..|samples| - 1]) + (if last.Some? then [last.value] else [])
  }

  function ParsePlacements(samples: seq<Sample>): seq<Placement>
    decreases |samples|
  {
    if samples == [] then []
    else
      var last := ParsePlacement(samples[|samples| - 1]);
      ParsePlacements(samples[..|samples| - 1]) + (if last.Some? then [last.value] else [])
  }

  /** Reading a stream recorded in two parts gives the rows of the first part, then those of the second. */
  lemma {:induction false} ParseInteractionsAppend(a: seq<Sample>, b: seq<Sample>)
    ensures ParseInteractions(a + b) == ParseInteractions(a) + ParseInteractions(b)
    decreases |b|
  {
    if b == [] {
      assert a + b == a;
    } else {
      var init := b[..|b| - 1];
      assert (a + b)[..|a + b| - 1] == a + init;
      assert (a + b)[|a + b| - 1] == b[|b| - 1];
      ParseInteractionsAppend(a, init);
    }
  }

  /** A sample long enough to be read as an interaction row. */
  predicate HasInteractionFields(s: Sample) {
    |Split(s.text, '|')| >= 7
  }

  /** Exactly the samples with at least seven fields give a row, one each. */
  lemma {:induction false} InteractionRowsCounted(samples: seq<Sample>)
    ensures |ParseInteractions(samples)| == |Filter(samples, HasInteractionFields)|
    decreases |samples|
  {
    if samples != [] {
      InteractionRowsCounted(samples[..|samples| - 1]);
    }
  }

  // --------------------------------------------- round trips with the loggers

  /**
   * A Grab sample from the interaction logger reads back as a Grab row with every field in
   * place and zone 'N/A', when no field contains `|` (the logger's hands never do:
   * `Interactions.HandIsPipeFree`).
   */
  lemma GrabRoundTrip(timestamp: int, objectName: string, hand: string, x: string, y: string, z: string, time: string)
    requires Interactions.PipeFree([objectName, hand, x, y, z, time])
    ensures ParseInteraction(Sample(timestamp, Interactions.GrabPayload(objectName, hand, x, y, z, time)))
         == Some(Interaction(timestamp, "Grab", objectName, hand, x, y, z, "N/A", time))
  {
    Interactions.GrabFields(objectName, hand, x, y, z, time);
  }

  /**
   * A Release sample reads back as a Release row whose zone is the zone the logger detected,
   * when no field contains `|`.
   */
  lemma ReleaseRoundTrip(timestamp: int, objectName: string, hand: string, x: string, y: string, z: string, zone: string, time: string)
    requires Interactions.PipeFree([objectName, hand, x, y, z, zone, time])
    ensures ParseInteraction(Sample(timestamp, Interactions.ReleasePayload(objectName, hand, x, y, z, zone, time)))
         == Some(Interaction(timestamp, "Release", objectName, hand, x, y, z, zone, time))
  {
    Interactions.ReleaseFields(objectName, hand, x, y, z, zone, time);
  }

  /**
   * A `|` in an object name shifts every later field one place right: a Grab of an object named
   * "a|b" reads back as a Grab of "a" by a hand called "b", the hand name lands in the x field,
   * which therefore starts with a letter and is no number, and the z position is taken for a
   * placement zone.
   */
  lemma PipeInNameShiftsFields(timestamp: int, a: string, b: string, interactorName: Option<string>,
                               x: string, y: string, z: string, time: string)
    requires Interactions.PipeFree([a, b, x, y, z, time])
    ensures var hand := Interactions.GetHandedness(interactorName);
      ParseInteraction(Sample(timestamp, Interactions.GrabPayload(a + "|" + b, hand, x, y, z, time)))
      == Some(Interaction(timestamp, "Grab", a, b, hand, x, y, z, time))
    ensures var hand := Interactions.GetHandedness(interactorName);
      var row := ParseInteraction(Sample(timestamp, Interactions.GrabPayload(a + "|" + b, hand, x, y, z, time)));
      row.Some? && row.value.hand == b && |row.value.posX| > 0 && row.value.posX[0] in "LRU"
  {
    var hand := Interactions.GetHandedness(interactorName);
    Interactions.HandIsPipeFree(interactorName);
    assert Interactions.PipeFree([a, b, hand, x, y, z, time]) by {
      var given := [a, b, x, y, z, time];
      assert given[0] == a && given[1] == b && given[2] == x && given[3] == y && given[4] == z && given[5] == time;
    }
    ShiftedGrab(timestamp, a, b, hand, x, y, z, time);
  }

  /** The Grab of an object named "a|b" reads back with every field after the name one place right. */
  lemma ShiftedGrab(timestamp: int, a: string, b: string, hand: string, x: string, y: string, z: string, time: string)
    requires Interactions.PipeFree([a, b, hand, x, y, z, time])
    ensures ParseInteraction(Sample(timestamp, Interactions.GrabPayload(a + "|" + b, hand, x, y, z, time)))
         == Some(Interaction(timestamp, "Grab", a, b, hand, x, y, z, time))
  {
    var rest := [hand, x, y, z, time];
    var shifted := ["Grab", a, b] + rest;
    assert Join(["Grab", a + "|" + b] + rest, '|') == "Grab" + "|" + (a + "|" + b) + "|" + Join(rest, '|') by {
      assert (["Grab", a + "|" + b] + rest)[1..] == [a + "|" + b] + rest;
      assert ([a + "|" + b] + rest)[1..] == rest;
    }
    assert Join(shifted, '|') == "Grab" + "|" + a + "|" + b + "|" + Join(rest, '|') by {
      assert shifted[1..] == [a, b] + rest;
      assert ([a, b] + rest)[1..] == [b] + rest;
      assert ([b] + rest)[1..] == rest;
      assert Join([b] + rest, '|') == b + "|" + Join(rest, '|');
      assert Join([a, b] + rest, '|') == a + "|" + (b + "|" + Join(rest, '|'));
      assert Join(shifted, '|') == "Grab" + "|" + (a + "|" + (b + "|" + Join(rest, '|')));
    }
    assert ["Grab", a + "|" + b] + rest == ["Grab", a + "|" + b, hand, x, y, z, time];
    assert Interactions.GrabPayload(a + "|" + b, hand, x, y, z, time) == Join(shifted, '|');
    assert FreeOf(shifted, '|') by {
      assert '|' !in "Grab";
      forall i | 0 <= i < |shifted| ensures '|' !in shifted[i] {
        if i > 0 {
          assert shifted[i] == [a, b, hand, x, y, z, time][i - 1];
        }
      }
    }
    SplitJoin(shifted, '|');
  }

  /**
   * An Enter or Placed sample from a zone reads back with every field in place and no dwell: only
   * the Exit tag makes the analyzer read a dwell.
   */
  lemma ZoneSampleRoundTrip(timestamp: int, tag: string, zoneName: string, zoneType: string, objectName: string,
                            x: string, y: string, z: string, time: int)
    requires '|' !in tag && tag != "Exit" && Interactions.PipeFree([zoneName, zoneType, objectName, x, y, z])
    ensures ParsePlacement(Sample(timestamp, PlacementZones.ZoneSample(tag, zoneName, zoneType, objectName, x, y, z, time)))
         == Some(Placement(timestamp, tag, zoneName, zoneType, objectName, x, y, z, None, IntToString(time)))
  {
    PlacementZones.ZoneSampleFields(tag, zoneName, zoneType, objectName, x, y, z, time);
  }

  /** An Exit sample reads back with its dwell at index 7, and the dwell field reads as the dwell computed in the zone. */
  lemma ExitRoundTrip(timestamp: int, zoneName: string, zoneType: string, objectName: string, x: string, y: string, z: string, dwell: int, time: int)
    requires Interactions.PipeFree([zoneName, zoneType, objectName, x, y, z])
    ensures ParsePlacement(Sample(timestamp, PlacementZones.ExitPayload(zoneName, zoneType, objectName, x, y, z, dwell, time)))
         == Some(Placement(timestamp, "Exit", zoneName, zoneType, objectName, x, y, z, Some(IntToString(dwell)), IntToString(time)))
    ensures ParseInt(IntToString(dwell)) == dwell
  {
    PlacementZones.ExitFields(zoneName, zoneType, objectName, x, y, z, dwell, time);
    ParseIntToString(dwell);
  }

  // ------------------------------------------------------ reading a stream

  /** `_parse_interaction_stream`: one row per sample with enough fields. */
  method ParseInteractionStream(stream: Stream) returns (events: seq<Interaction>)
    ensures events == ParseInteractions(stream.samples)
  {
    events := [];
    for i := 0 to |stream.samples|
      invariant events == ParseInteractions(stream.samples[..i])
    {
      assert stream.samples[..i + 1][..i] == stream.samples[..i];
      var parts := Split(stream.samples[i].text, '|');
      if |parts| >= 7 {
        events := events + [Interaction(stream.samples[i].timestamp, parts[0], parts[1], parts[2], parts[3], parts[4], parts[5],
                                        if |parts| > 7 then parts[6] else "N/A", parts[|parts| - 1])];
      }
    }
    assert stream.samples[..|stream.samples|] == stream.samples;
  }

  /** `_parse_placement_stream`: one row per sample with enough fields. */
  method ParsePlacementStream(stream: Stream) returns (events: seq<Placement>)
    ensures events == ParsePlacements(stream.samples)
  {
    events := [];
    for i := 0 to |stream.samples|
      invariant events == ParsePlacements(stream.samples[..i])
    {
      assert stream.samples[..i + 1][..i] == stream.samples[..i];
      var parts := Split(stream.samples[i].text, '|');
      if |parts| >= 8 {
        events := events + [Placement(stream.samples[i].timestamp, parts[0], parts[1], parts[2], parts[3], parts[4], parts[5], parts[6],
                                      if parts[0] == "Exit" then Some(parts[7]) else None, parts[|parts| - 1])];
      }
    }
    assert stream.samples[..|stream.samples|] == stream.samples;
  }

  // -------------------------------------------------------- picking streams

  /** A stream whose name mentions "Interactions" is the interaction stream. */
  predicate IsInteractionStream(s: Stream) {
    Contains(s.name, "Interactions")
  }

  /** A stream is the placement stream when its name mentions "PlacementZones" and not "Interactions". */
  predicate IsPlacementStream(s: Stream) {
    !Contains(s.name, "Interactions") && Contains(s.name, "PlacementZones")
  }

  /** The interaction frame after reading the streams in order: the last interaction stream's rows. */
  function InteractionOf(streams: seq<Stream>): Option<seq<Interaction>>
    decreases |streams|
  {
    if streams == [] then None
    else if IsInteractionStream(streams[|streams| - 1]) then Some(ParseInteractions(streams[|streams| - 1].samples))
    else InteractionOf(streams[..|streams| - 1])
  }

  /** The placement frame after reading the streams in order: the last placement stream's rows. */
  function PlacementOf(streams: seq<Stream>): Option<seq<Placement>>
    decreases |streams|
  {
    if streams == [] then None
    else if IsPlacementStream(streams[|streams| - 1]) then Some(ParsePlacements(streams[|streams| - 1].samples))
    else PlacementOf(streams[..|streams| - 1])
  }

  /**
   * There is an interaction frame iff some stream mentions "Interactions", and then it is read
   * from the last such stream; a stream mentioning both names never becomes the placement frame.
   */
  lemma {:induction false} InteractionStreamFound(streams: seq<Stream>)
    ensures InteractionOf(streams).Some? <==> exists i :: 0 <= i < |streams| && IsInteractionStream(streams[i])
    ensures InteractionOf(streams).Some? ==>
      exists i :: (0 <= i < |streams| && IsInteractionStream(streams[i])
                   && InteractionOf(streams) == Some(ParseInteractions(streams[i].samples))
                   && forall j :: i < j < |streams| ==> !IsInteractionStream(streams[j]))
    decreases |streams|
  {
    if streams != [] {
      var n := |streams| - 1;
      var init := streams[..n];
      InteractionStreamFound(init);
      assert forall i :: 0 <= i < n ==> init[i] == streams[i];
    }
  }

  /** There is a placement frame iff some stream is a placement stream, and then it is read from the last one. */
  lemma {:induction false} PlacementStreamFound(streams: seq<Stream>)
    ensures PlacementOf(streams).Some? <==> exists i :: 0 <= i < |streams| && IsPlacementStream(streams[i])
    ensures PlacementOf(streams).Some? ==>
      exists i :: (0 <= i < |streams| && IsPlacementStream(streams[i])
                   && PlacementOf(streams) == Some(ParsePlacements(streams[i].samples))
                   && forall j :: i < j < |streams| ==> !IsPlacementStream(streams[j]))
    decreases |streams|
  {
    if streams != [] {
      var n := |streams| - 1;
      var init := streams[..n];
      PlacementStreamFound(init);
      assert forall i :: 0 <= i < n ==> init[i] == streams[i];
    }
  }

  /** What the analyzer holds after loading: the two frames, each absent when no stream matched. */
  datatype Recording = Recording(interactionStream: Option<seq<Interaction>>, placementStream: Option<seq<Placement>>)

  /** `_parse_streams`: each stream is read into the frame its name selects; other streams are ignored. */
  method ParseStreams(streams: seq<Stream>) returns (r: Recording)
    ensures r == Recording(InteractionOf(streams), PlacementOf(streams))
  {
    var interaction: Option<seq<Interaction>> := None;
    var placement: Option<seq<Placement>> := None;
    for i := 0 to |streams|
      invariant interaction == InteractionOf(streams[..i])
      invariant placement == PlacementOf(streams[..i])
    {
      assert streams[..i + 1][..i] == streams[..i];
      var stream := streams[i];
      if Contains(stream.name, "Interactions") {
        var events := ParseInteractionStream(stream);
        interaction := Some(events);
      } else if Contains(stream.name, "PlacementZones") {
        var events := ParsePlacementStream(stream);
        placement := Some(events);
      }
    }
    assert streams[..|streams|] == streams;
    r := Recording(interaction, placement);
  }

  // ---------------------------------------------------------------- summary

  /** The rows a boolean mask keeps, in order. */
  function Filter<T>(s: seq<T>, keep: T -> bool): (r: seq<T>)
    ensures |r| <= |s|
    ensures forall x :: x in r ==> x in s && keep(x)
    decreases |s|
  {
    if s == [] then []
    else Filter(s[..|s| - 1], keep) + (if keep(s[|s| - 1]) then [s[|s| - 1]] else [])
  }

  /** Two masks that never both hold select at most all the rows between them. */
  lemma {:induction false} FilterDisjoint<T>(s: seq<T>, p: T -> bool, q: T -> bool)
    requires forall x :: x in s ==> !(p(x) && q(x))
    ensures |Filter(s, p)| + |Filter(s, q)| <= |s|
    decreases |s|
  {
    if s != [] {
      var init := s[..|s| - 1];
      assert forall x :: x in init ==> x in s;
      FilterDisjoint(init, p, q);
    }
  }

  /** A mask and its complement split the rows between them. */
  lemma {:induction false} FilterComplement<T>(s: seq<T>, p: T -> bool, q: T -> bool)
    requires forall x :: x in s ==> (q(x) <==> !p(x))
    ensures |Filter(s, p)| + |Filter(s, q)| == |s|
    decreases |s|
  {
    if s != [] {
      var init := s[..|s| - 1];
      assert forall x :: x in init ==> x in s;
      FilterComplement(init, p, q);
    }
  }

  predicate IsGrab(e: Interaction) { e.eventType == "Grab" }
  predicate IsRelease(e: Interaction) { e.eventType == "Release" }
  predicate ByLeftHand(e: Interaction) { e.hand == "LeftHand" }
  predicate ByRightHand(e: Interaction) { e.hand == "RightHand" }
  predicate InSomeZone(e: Interaction) { e.placementZone != "None" }
  predicate InNoZone(e: Interaction) { e.placementZone == "None" }

  function ObjectNames(events: seq<Interaction>): (names: seq<string>)
    ensures |names| == |events|
  {
    seq(|events|, i requires 0 <= i < |events| => events[i].objectName)
  }

  function Zones(events: seq<Interaction>): (zones: seq<string>)
    ensures |zones| == |events|
  {
    seq(|events|, i requires 0 <= i < |events| => events[i].placementZone)
  }

  /** The distinct elements of a sequence. */
  function Distinct(s: seq<string>): set<string> {
    set x | x in s
  }

  /** A sequence has no more distinct elements than elements. */
  lemma {:induction false} DistinctAtMostLength(s: seq<string>)
    ensures |Distinct(s)| <= |s|
    decreases |s|
  {
    if s != [] {
      var init := s[..|s| - 1];
      DistinctAtMostLength(init);
      assert s == init + [s[|s| - 1]];
      assert Distinct(s) == Distinct(init) + {s[|s| - 1]};
    }
  }

  /** The summary dictionary; `value_counts` dictionaries are multisets. */
  datatype Summary = Summary(totalGrabs: nat, totalReleases: nat, leftHandGrabs: nat, rightHandGrabs: nat,
                             uniqueObjects: nat, objectsGrabbed: multiset<string>,
                             successfulPlacements: nat, placementZonesUsed: multiset<string>)

  /**
   * What a query on the interaction frame gives: None when there is no interaction stream; a
   * KeyError when the stream had no rows, since a frame built from no rows has no columns to
   * select; otherwise a value.
   */
  datatype Answer<T> = NoStream | KeyError | Answer(value: T)

  /** `get_task_summary`. */
  function TaskSummary(stream: Option<seq<Interaction>>): (r: Answer<Summary>)
    ensures r.NoStream? <==> stream.None?
    ensures r.KeyError? <==> stream == Some([])
  {
    match stream
    case None => NoStream
    case Some(events) =>
      if events == [] then KeyError
      else
        var grabs := Filter(events, IsGrab);
        var releases := Filter(events, IsRelease);
        var placed := Filter(releases, InSomeZone);
        Answer(Summary(|grabs|, |releases|, |Filter(grabs, ByLeftHand)|, |Filter(grabs, ByRightHand)|,
                       |Distinct(ObjectNames(grabs))|, multiset(ObjectNames(grabs)),
                       |placed|, multiset(Zones(placed))))
  }

  /**
   * The counts of a summary fit together: hands never account for more grabs than there are,
   * the per-object counts add up to the grabs, no more objects are unique than grabbed, and the
   * releases split into those in a zone (the successful placements, whose per-zone counts add
   * up to them) and those whose zone is "None".
   */
  lemma SummaryCounts(events: seq<Interaction>)
    requires events != []
    ensures var r := TaskSummary(Some(events)).value;
      && r.leftHandGrabs + r.rightHandGrabs <= r.totalGrabs
      && |r.objectsGrabbed| == r.totalGrabs
      && r.uniqueObjects <= r.totalGrabs
      && |r.placementZonesUsed| == r.successfulPlacements
      && r.successfulPlacements + |Filter(Filter(events, IsRelease), InNoZone)| == r.totalReleases
      && r.totalGrabs + r.totalReleases <= |events|
  {
    var grabs := Filter(events, IsGrab);
    var releases := Filter(events, IsRelease);
    FilterDisjoint(grabs, ByLeftHand, ByRightHand);
    DistinctAtMostLength(ObjectNames(grabs));
    FilterComplement(releases, InSomeZone, InNoZone);
    FilterDisjoint(events, IsGrab, IsRelease);
  }

  /** A release counts as a successful placement exactly when its zone is not "None". */
  lemma {:induction false} PlacementsAreZonedReleases(events: seq<Interaction>, e: Interaction)
    ensures e in Filter(Filter(events, IsRelease), InSomeZone) <==> e in events && IsRelease(e) && e.placementZone != "None"
    decreases |events|
  {
    if events != [] {
      var init := events[..|events| - 1];
      PlacementsAreZonedReleases(init, e);
      FilterLast(events, IsRelease);
      FilterLast(Filter(events, IsRelease), InSomeZone);
      assert events == init + [events[|events| - 1]];
    }
  }

  /** An element is kept iff it is in the sequence and the mask holds for it. */
  lemma {:induction false} FilterLast<T>(s: seq<T>, keep: T -> bool)
    ensures forall x :: x in Filter(s, keep) <==> x in s && keep(x)
    decreases |s|
  {
    if s != [] {
      var init := s[..|s| - 1];
      FilterLast(init, keep);
      assert s == init + [s[|s| - 1]];
    }
  }

  /** Without an interaction stream there is no summary and there are no hold times. */
  lemma NoInteractionStream(streams: seq<Stream>)
    requires forall i :: 0 <= i < |streams| ==> !IsInteractionStream(streams[i])
    ensures TaskSummary(InteractionOf(streams)) == NoStream
    ensures InteractionTimes(InteractionOf(streams)) == NoStream
  {
    InteractionStreamFound(streams);
  }

  // ------------------------------------------------------------ hold times

  /** A row of the hold-time frame. */
  datatype HoldTime = HoldTime(objectName: string, grabTime: int, releaseTime: int, holdDuration: int, placedIn: string)

  /** A release of the grabbed object stamped strictly after the grab. */
  predicate Matches(grab: Interaction, release: Interaction) {
    release.objectName == grab.objectName && release.timestamp > grab.timestamp
  }

  /** The first matching release in stream order. */
  function FirstRelease(releases: seq<Interaction>, grab: Interaction): (r: Option<Interaction>)
    ensures r.Some? ==> r.value in releases && Matches(grab, r.value)
    decreases |releases|
  {
    if releases == [] then None
    else if Matches(grab, releases[0]) then Some(releases[0])
    else FirstRelease(releases[1..], grab)
  }

  /** The hold-time rows for the grabs in order; a grab with no matching release gives none. */
  function HoldTimes(grabs: seq<Interaction>, releases: seq<Interaction>): (r: seq<HoldTime>)
    ensures |r| <= |grabs|
    ensures forall h :: h in r ==> h.releaseTime > h.grabTime
    decreases |grabs|
  {
    if grabs == [] then []
    else
      var grab := grabs[|grabs| - 1];
      var found := FirstRelease(releases, grab);
      HoldTimes(grabs[..|grabs| - 1], releases)
        + (if found.Some? then [HoldTime(grab.objectName, grab.timestamp, found.value.timestamp,
                                         found.value.timestamp - grab.timestamp, found.value.placementZone)] else [])
  }

  /** The first matching release is a matching release with no matching release before it; None means there is none. */
  lemma {:induction false} FirstReleaseIsFirst(releases: seq<Interaction>, grab: Interaction)
    ensures FirstRelease(releases, grab).None? <==> forall i :: 0 <= i < |releases| ==> !Matches(grab, releases[i])
    ensures FirstRelease(releases, grab).Some? ==>
      exists i :: (0 <= i < |releases| && releases[i] == FirstRelease(releases, grab).value
                   && Matches(grab, releases[i]) && forall j :: 0 <= j < i ==> !Matches(grab, releases[j]))
    decreases |releases|
  {
    if releases != [] {
      var rest := releases[1..];
      FirstReleaseIsFirst(rest, grab);
      assert forall i :: 0 <= i < |rest| ==> rest[i] == releases[i + 1];
      if !Matches(grab, releases[0]) && FirstRelease(rest, grab).Some? {
        var i :| 0 <= i < |rest| && rest[i] == FirstRelease(rest, grab).value
          && Matches(grab, rest[i]) && forall j :: 0 <= j < i ==> !Matches(grab, rest[j]);
        assert releases[i + 1] == FirstRelease(releases, grab).value;
        assert forall j :: 0 <= j < i + 1 ==> !Matches(grab, releases[j]) by {
          forall j | 0 <= j < i + 1 ensures !Matches(grab, releases[j]) {
            if j > 0 {
              assert releases[j] == rest[j - 1];
            }
          }
        }
      }
    }
  }

  /** Every hold is positive: the release is stamped strictly after the grab, and the duration is their difference. */
  lemma {:induction false} HoldsArePositive(grabs: seq<Interaction>, releases: seq<Interaction>)
    ensures forall h :: h in HoldTimes(grabs, releases) ==>
      h.releaseTime > h.grabTime && h.holdDuration == h.releaseTime - h.grabTime && h.holdDuration > 0
    decreases |grabs|
  {
    if grabs != [] {
      var grab := grabs[|grabs| - 1];
      HoldsArePositive(grabs[..|grabs| - 1], releases);
      FirstReleaseIsFirst(releases, grab);
    }
  }

  /** The mask selecting the grabs that have a matching release. */
  function Paired(releases: seq<Interaction>): Interaction -> bool {
    grab => FirstRelease(releases, grab).Some?
  }

  /** One hold row per grab that has a matching release, in grab order. */
  lemma {:induction false} HoldRowsCounted(grabs: seq<Interaction>, releases: seq<Interaction>)
    ensures |HoldTimes(grabs, releases)| == |Filter(grabs, Paired(releases))|
    decreases |grabs|
  {
    if grabs != [] {
      HoldRowsCounted(grabs[..|grabs| - 1], releases);
    }
  }

  /** The search the mask-and-`iloc[0]` performs: the first matching release, if any. */
  method MatchingRelease(releases: seq<Interaction>, grab: Interaction) returns (found: Option<Interaction>)
    ensures found == FirstRelease(releases, grab)
  {
    var i := 0;
    while i < |releases|
      invariant 0 <= i <= |releases|
      invariant FirstRelease(releases[i..], grab) == FirstRelease(releases, grab)
    {
      assert releases[i..][1..] == releases[i + 1..];
      if Matches(grab, releases[i]) {
        return Some(releases[i]);
      }
      i := i + 1;
    }
    found := None;
  }

  /**
   * What `calculate_interaction_times` returns: None without an interaction stream, a KeyError
   * for a stream with no rows, and otherwise the hold-time rows, at most one per grab and each
   * a positive duration.
   */
  function InteractionTimes(stream: Option<seq<Interaction>>): (r: Answer<seq<HoldTime>>)
    ensures r.NoStream? <==> stream.None?
    ensures r.KeyError? <==> stream == Some([])
    ensures r.Answer? ==> |r.value| <= |Filter(stream.value, IsGrab)|
    ensures r.Answer? ==> forall h :: h in r.value ==> h.holdDuration > 0
  {
    match stream
    case None => NoStream
    case Some(events) =>
      if events == [] then KeyError
      else
        HoldsArePositive(Filter(events, IsGrab), Filter(events, IsRelease));
        Answer(HoldTimes(Filter(events, IsGrab), Filter(events, IsRelease)))
  }

  /** `calculate_interaction_times`. */
  method CalculateInteractionTimes(stream: Option<seq<Interaction>>) returns (r: Answer<seq<HoldTime>>)
    ensures r == InteractionTimes(stream)
    ensures stream.None? ==> r == NoStream
    ensures stream == Some([]) ==> r == KeyError
    ensures stream.Some? && stream.value != [] ==>
      r == Answer(HoldTimes(Filter(stream.value, IsGrab), Filter(stream.value, IsRelease)))
  {
    if stream.None? {
      return NoStream;
    }
    if stream.value == [] {
      return KeyError;
    }
    var grabs := Filter(stream.value, IsGrab);
    var releases := Filter(stream.value, IsRelease);
    var holdTimes := [];
    for i := 0 to |grabs|
      invariant holdTimes == HoldTimes(grabs[..i], releases)
    {
      assert grabs[..i + 1][..i] == grabs[..i];
      var grab := grabs[i];
      var release := MatchingRelease(releases, grab);
      if release.Some? {
        holdTimes := holdTimes + [HoldTime(grab.objectName, grab.timestamp, release.value.timestamp,
                                           release.value.timestamp - grab.timestamp, release.value.placementZone)];
      }
    }
    assert grabs[..|grabs|] == grabs;
    r := Answer(holdTimes);
  }
}
