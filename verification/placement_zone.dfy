/**
 * The placement-zone marker outlet (`LSLPlacementZone`): a trigger volume that reports tracked
 * objects entering and leaving it (`Enter|…`, `Exit|…` with the dwell time) and manual
 * placements (`Placed|…`), as pipe-delimited string samples.
 *
 * By default every zone pushes to one outlet shared through two static fields, the outlet
 * reference and an instance count; `ZoneStatics` holds them and every zone refers to the same
 * `ZoneStatics` object. Times are integer ticks, formatted as decimal integers; positions
 * arrive already formatted.
 */
module PlacementZones {
  import opened Wrappers
  import opened Strings
  import opened Interactions

  /** A string-marker outlet: its stream name and the samples pushed to it so far. */
  class Outlet {
    const name: string
    var pushed: seq<string>

    constructor(name: string)
      ensures this.name == name && pushed == []
    {
      this.name := name;
      pushed := [];
    }
  }

  /** The two static fields every zone shares: `sharedOutlet` (null is `null`) and `instanceCount`. */
  class ZoneStatics {
    var sharedOutlet: Outlet?
    var instanceCount: int

    constructor()
      ensures sharedOutlet == null && instanceCount == 0
    {
      sharedOutlet := null;
      instanceCount := 0;
    }

    function State(): SharedState
      reads this
    {
      SharedState(sharedOutlet != null, instanceCount)
    }
  }

  // ------------------------------------------------- shared-outlet counting

  /** The static pair seen as values: whether the shared outlet exists, and the instance count. */
  datatype SharedState = SharedState(open: bool, count: int)

  /** A shared zone starting: the outlet is created when missing, and the count goes up. */
  function SharedInit(s: SharedState): (t: SharedState)
    ensures t.open && t.count == s.count + 1
  {
    SharedState(true, s.count + 1)
  }

  /** A shared zone being destroyed: the count goes down; at zero or below an existing outlet is dropped and the count reset. */
  function SharedDestroy(s: SharedState): (t: SharedState)
    ensures t.count == (if s.count - 1 <= 0 && s.open then 0 else s.count - 1)
    ensures t.open == (s.open && s.count - 1 > 0)
  {
    var count := s.count - 1;
    if count <= 0 && s.open then SharedState(false, 0) else SharedState(s.open, count)
  }

  /** What happens to the statics over time: a shared zone starts, or one is destroyed. */
  datatype Lifecycle = Started | Destroyed

  function Starts(events: seq<Lifecycle>): nat
    decreases |events|
  {
    if events == [] then 0 else Starts(events[..|events| - 1]) + (if events[|events| - 1] == Started then 1 else 0)
  }

  function Destroys(events: seq<Lifecycle>): nat
    decreases |events|
  {
    if events == [] then 0 else Destroys(events[..|events| - 1]) + (if events[|events| - 1] == Destroyed then 1 else 0)
  }

  function Live(s: SharedState, events: seq<Lifecycle>): SharedState
    decreases |events|
  {
    if events == [] then s
    else
      var before := Live(s, events[..|events| - 1]);
      if events[|events| - 1] == Started then SharedInit(before) else SharedDestroy(before)
  }

  /** Every zone destroyed was started before: no prefix has more destroys than starts. */
  ghost predicate Balanced(events: seq<Lifecycle>) {
    forall k :: 0 <= k <= |events| ==> Destroys(events[..k]) <= Starts(events[..k])
  }

  /**
   * From the initial statics, as long as every destroyed zone was started first, the count is
   * the number of live shared zones and the shared outlet exists exactly while one is live.
   */
  lemma {:induction false} CountsLiveZones(events: seq<Lifecycle>)
    requires Balanced(events)
    ensures Live(SharedState(false, 0), events).count == Starts(events) - Destroys(events)
    ensures Live(SharedState(false, 0), events).open <==> Starts(events) > Destroys(events)
    decreases |events|
  {
    if events != [] {
      var init := events[..|events| - 1];
      assert Balanced(init) by {
        forall k | 0 <= k <= |init| ensures Destroys(init[..k]) <= Starts(init[..k]) {
          assert init[..k] == events[..k];
        }
      }
      CountsLiveZones(init);
      assert events[..|events|] == events;
    }
  }

  /**
   * A destroy that was not matched by a start leaves a negative count behind while no outlet
   * exists; the next start then opens the outlet with a count of zero, so the following
   * destroy drops the outlet although that zone is still using it.
   */
  lemma UnmatchedDestroy()
    ensures Live(SharedState(false, 0), [Destroyed]) == SharedState(false, -1)
    ensures Live(SharedState(false, 0), [Destroyed, Started]) == SharedState(true, 0)
    ensures Live(SharedState(false, 0), [Destroyed, Started, Destroyed]) == SharedState(false, 0)
  {
    assert [Destroyed, Started][..1] == [Destroyed];
    assert [Destroyed, Started, Destroyed][..2] == [Destroyed, Started];
  }

  // ------------------------------------------------------- tracked objects

  /** An object touching the trigger: identity, name, and the two components that make it interactive. */
  datatype Visitor = Visitor(id: ObjectId, name: string, hasRigidbody: bool, hasGrabInteractable: bool)

  /** A lower-cased name that belongs to a hand, controller, player, interactor or ray. */
  predicate IsExcludedName(lowered: string) {
    Contains(lowered, "hand") || Contains(lowered, "controller") || Contains(lowered, "player")
    || Contains(lowered, "interactor") || Contains(lowered, "ray")
  }

  /** Excluded by name first; otherwise tracked iff it has a Rigidbody or a grab interactable. */
  function IsTrackedObject(v: Visitor): (tracked: bool)
    ensures tracked ==> !IsExcludedName(Lower(v.name))
    ensures !IsExcludedName(Lower(v.name)) ==> (tracked <==> v.hasRigidbody || v.hasGrabInteractable)
  {
    if IsExcludedName(Lower(v.name)) then false
    else v.hasRigidbody || v.hasGrabInteractable
  }

  /** `Contains(s, a + b)` implies `Contains(s, b)`. */
  lemma ContainsSuffixOfSub(s: string, a: string, b: string)
    requires Contains(s, a + b)
    ensures Contains(s, b)
  {
    var i := ContainsImpliesOccurs(s, a + b);
    assert s[i + |a|..i + |a| + |b|] == (a + b)[|a|..];
    OccursImpliesContains(s, b, i + |a|);
  }

  /**
   * The "ray" test also matches "tray" and "gray": an object whose lower-cased name contains
   * either is never tracked, whatever its components.
   */
  lemma TrayAndGrayNeverTracked(v: Visitor)
    requires Contains(Lower(v.name), "tray") || Contains(Lower(v.name), "gray")
    ensures !IsTrackedObject(v)
  {
    if Contains(Lower(v.name), "tray") {
      assert "t" + "ray" == "tray";
      ContainsSuffixOfSub(Lower(v.name), "t", "ray");
    } else {
      assert "g" + "ray" == "gray";
      ContainsSuffixOfSub(Lower(v.name), "g", "ray");
    }
  }

  // ------------------------------------------------------------- dwell time

  /** The dwell of an exiting object: time since its recorded entry, or 0 when none is recorded. */
  function DwellOf(enterTimes: map<ObjectId, int>, id: ObjectId, now: int): int {
    if id in enterTimes then now - enterTimes[id] else 0
  }

  /** No recorded entry lies after `now`. */
  ghost predicate NotAfter(enterTimes: map<ObjectId, int>, now: int) {
    forall id :: id in enterTimes ==> enterTimes[id] <= now
  }

  /**
   * With a clock that never goes back, recording entries and dropping them on exit keeps every
   * entry in the past, so every reported dwell is non-negative; an exit straight after the
   * entry reports the time between them.
   */
  lemma DwellIsElapsedTime(enterTimes: map<ObjectId, int>, id: ObjectId, then_: int, now: int)
    requires NotAfter(enterTimes, then_) && then_ <= now
    ensures NotAfter(enterTimes[id := then_], now)
    ensures NotAfter(enterTimes - {id}, now)
    ensures DwellOf(enterTimes, id, now) >= 0
    ensures DwellOf(enterTimes[id := then_], id, now) == now - then_
  {
    var entered := enterTimes[id := then_];
    forall k | k in entered ensures entered[k] <= now {
      if k != id {
        assert enterTimes[k] <= then_;
      }
    }
  }

  // --------------------------------------------------------------- payloads

  /**
   * `tag|zone|type|object|x|y|z|time`: the shape shared by the Enter and the Placed samples,
   * which differ only in their tag.
   */
  function ZoneSample(tag: string, zoneName: string, zoneType: string, objectName: string,
                      x: string, y: string, z: string, time: int): (data: string)
    ensures IsPrefix(tag + "|", data)
  {
    var fields := [tag, zoneName, zoneType, objectName, x, y, z, IntToString(time)];
    assert Join(fields, '|') == tag + "|" + Join(fields[1..], '|');
    Join(fields, '|')
  }

  /** `Exit|zone|type|object|x|y|z|dwell|time`. */
  function ExitPayload(zoneName: string, zoneType: string, objectName: string, x: string, y: string, z: string, dwell: int, time: int): (data: string)
    ensures IsPrefix("Exit|", data)
  {
    var fields := ["Exit", zoneName, zoneType, objectName, x, y, z, IntToString(dwell), IntToString(time)];
    assert Join(fields, '|') == "Exit" + "|" + Join(fields[1..], '|');
    Join(fields, '|')
  }

  /** Splitting the join of a `|`-free head and `|`-free fields gives them back. */
  lemma JoinedFields(head: string, fields: seq<string>)
    requires '|' !in head && PipeFree(fields)
    ensures Split(Join([head] + fields, '|'), '|') == [head] + fields
  {
    var all := [head] + fields;
    assert FreeOf(all, '|') by {
      forall i | 0 <= i < |all| ensures '|' !in all[i] {
        if i > 0 {
          assert all[i] == fields[i - 1];
        }
      }
    }
    SplitJoin(all, '|');
  }

  /** An Enter or Placed sample has eight fields, the time last, when its tag, names and positions contain no `|`. */
  lemma ZoneSampleFields(tag: string, zoneName: string, zoneType: string, objectName: string,
                         x: string, y: string, z: string, time: int)
    requires '|' !in tag && PipeFree([zoneName, zoneType, objectName, x, y, z])
    ensures Split(ZoneSample(tag, zoneName, zoneType, objectName, x, y, z, time), '|')
         == [tag, zoneName, zoneType, objectName, x, y, z, IntToString(time)]
  {
    var fields := [zoneName, zoneType, objectName, x, y, z, IntToString(time)];
    assert PipeFree(fields) by {
      assert forall i :: 0 <= i < 6 ==> fields[i] == [zoneName, zoneType, objectName, x, y, z][i];
    }
    JoinedFields(tag, fields);
    assert [tag] + fields == [tag, zoneName, zoneType, objectName, x, y, z, IntToString(time)];
  }

  /** An Exit payload has nine fields with the dwell at index 7, when names and positions contain no `|`. */
  lemma ExitFields(zoneName: string, zoneType: string, objectName: string, x: string, y: string, z: string, dwell: int, time: int)
    requires PipeFree([zoneName, zoneType, objectName, x, y, z])
    ensures Split(ExitPayload(zoneName, zoneType, objectName, x, y, z, dwell, time), '|')
         == ["Exit", zoneName, zoneType, objectName, x, y, z, IntToString(dwell), IntToString(time)]
  {
    var fields := [zoneName, zoneType, objectName, x, y, z, IntToString(dwell), IntToString(time)];
    assert PipeFree(fields) by {
      assert forall i :: 0 <= i < 6 ==> fields[i] == [zoneName, zoneType, objectName, x, y, z][i];
    }
    assert '|' !in "Exit";
    JoinedFields("Exit", fields);
    assert ["Exit"] + fields == ["Exit", zoneName, zoneType, objectName, x, y, z, IntToString(dwell), IntToString(time)];
  }

  // ---------------------------------------------------------------- the zone

  class PlacementZone {
    const zoneName: string
    const zoneType: string
    const streamName: string
    const useSharedOutlet: bool
    const trackEnterExit: bool
    const trackDwellTime: bool
    /** The static fields, shared with every other zone. */
    const statics: ZoneStatics
    /** Whether the zone's collider is a trigger. */
    var isTrigger: bool
    /** The outlet this zone pushes to (the shared one, or its own); null until started. */
    var outlet: Outlet?
    /** `objectEnterTimes`: when each object inside the zone entered it. */
    var objectEnterTimes: map<ObjectId, int>

    constructor(zoneName: string, zoneType: string, streamName: string, useSharedOutlet: bool,
                trackEnterExit: bool, trackDwellTime: bool, isTrigger: bool, statics: ZoneStatics)
      ensures this.zoneName == zoneName && this.zoneType == zoneType && this.streamName == streamName
      ensures this.useSharedOutlet == useSharedOutlet && this.trackEnterExit == trackEnterExit
      ensures this.trackDwellTime == trackDwellTime && this.isTrigger == isTrigger && this.statics == statics
      ensures outlet == null && objectEnterTimes == map[]
    {
      this.zoneName := zoneName;
      this.zoneType := zoneType;
      this.streamName := streamName;
      this.useSharedOutlet := useSharedOutlet;
      this.trackEnterExit := trackEnterExit;
      this.trackDwellTime := trackDwellTime;
      this.isTrigger := isTrigger;
      this.statics := statics;
      outlet := null;
      objectEnterTimes := map[];
    }

    /**
     * Shared: the shared outlet is created only when there is none, this zone uses it, and the
     * count goes up. Otherwise the zone gets an outlet of its own named after it, and the
     * statics are untouched.
     */
    method InitializeLSL()
      modifies this`outlet, statics
      ensures useSharedOutlet ==> statics.State() == SharedInit(old(statics.State())) && outlet == statics.sharedOutlet
      ensures useSharedOutlet && old(statics.sharedOutlet) != null ==> statics.sharedOutlet == old(statics.sharedOutlet)
      ensures useSharedOutlet && old(statics.sharedOutlet) == null ==>
        fresh(statics.sharedOutlet) && statics.sharedOutlet.name == streamName && statics.sharedOutlet.pushed == []
      ensures !useSharedOutlet ==>
        unchanged(statics) && fresh(outlet) && outlet.name == streamName + "_" + zoneName && outlet.pushed == []
    {
      if useSharedOutlet {
        if statics.sharedOutlet == null {
          statics.sharedOutlet := new Outlet(streamName);
        }
        outlet := statics.sharedOutlet;
        statics.instanceCount := statics.instanceCount + 1;
      } else {
        outlet := new Outlet(streamName + "_" + zoneName);
      }
    }

    /** Makes the collider a trigger if it is not one, then sets up the outlet. */
    method Start()
      modifies this`isTrigger, this`outlet, statics
      ensures isTrigger
      ensures useSharedOutlet ==> statics.State() == SharedInit(old(statics.State())) && outlet == statics.sharedOutlet
      ensures !useSharedOutlet ==> unchanged(statics) && fresh(outlet) && outlet.pushed == []
    {
      if !isTrigger {
        isTrigger := true;
      }
      InitializeLSL();
    }

    /** Shared: the count goes down, and at zero or below an existing shared outlet is dropped and the count reset. */
    method OnDestroy()
      modifies statics
      ensures useSharedOutlet ==> statics.State() == SharedDestroy(old(statics.State()))
      ensures useSharedOutlet ==> statics.sharedOutlet == null || statics.sharedOutlet == old(statics.sharedOutlet)
      ensures !useSharedOutlet ==> unchanged(statics)
    {
      if useSharedOutlet {
        statics.instanceCount := statics.instanceCount - 1;
        if statics.instanceCount <= 0 && statics.sharedOutlet != null {
          statics.sharedOutlet := null;
          statics.instanceCount := 0;
        }
      }
    }

    /** Pushes one sample when the zone has an outlet; console logging is not modelled. */
    method SendLSLMarker(eventData: string)
      modifies outlet
      ensures outlet != null ==> outlet.pushed == old(outlet.pushed) + [eventData]
    {
      if outlet != null {
        outlet.pushed := outlet.pushed + [eventData];
      }
    }

    /**
     * An object entering the trigger. With enter/exit tracking on and a tracked object, the
     * entry time is recorded (or overwritten) when dwell tracking is on, and an Enter sample is
     * pushed; otherwise nothing happens.
     */
    method OnTriggerEnter(other: Visitor, x: string, y: string, z: string, now: int)
      modifies this`objectEnterTimes, outlet
      ensures !(trackEnterExit && IsTrackedObject(other)) ==>
        objectEnterTimes == old(objectEnterTimes) && (outlet != null ==> outlet.pushed == old(outlet.pushed))
      ensures trackEnterExit && IsTrackedObject(other) ==>
        && objectEnterTimes == (if trackDwellTime then old(objectEnterTimes)[other.id := now] else old(objectEnterTimes))
        && (outlet != null ==> outlet.pushed == old(outlet.pushed) + [ZoneSample("Enter", zoneName, zoneType, other.name, x, y, z, now)])
    {
      if !trackEnterExit {
        return;
      }
      if IsTrackedObject(other) {
        if trackDwellTime {
          objectEnterTimes := objectEnterTimes[other.id := now];
        }
        SendLSLMarker(ZoneSample("Enter", zoneName, zoneType, other.name, x, y, z, now));
      }
    }

    /**
     * An object leaving the trigger. With enter/exit tracking on and a tracked object, the dwell
     * is the time since its recorded entry, which is then forgotten; with no recorded entry (or
     * dwell tracking off) the dwell is 0 and the record is untouched. An Exit sample is pushed.
     */
    method OnTriggerExit(other: Visitor, x: string, y: string, z: string, now: int)
      modifies this`objectEnterTimes, outlet
      ensures !(trackEnterExit && IsTrackedObject(other)) ==>
        objectEnterTimes == old(objectEnterTimes) && (outlet != null ==> outlet.pushed == old(outlet.pushed))
      ensures trackEnterExit && IsTrackedObject(other) ==>
        var counted := trackDwellTime && other.id in old(objectEnterTimes);
        && objectEnterTimes == (if counted then old(objectEnterTimes) - {other.id} else old(objectEnterTimes))
        && (outlet != null ==>
              outlet.pushed == old(outlet.pushed) + [ExitPayload(zoneName, zoneType, other.name, x, y, z,
                                                                 if counted then DwellOf(old(objectEnterTimes), other.id, now) else 0, now)])
    {
      if !trackEnterExit {
        return;
      }
      if IsTrackedObject(other) {
        var dwellTime := 0;
        if trackDwellTime && other.id in objectEnterTimes {
          dwellTime := now - objectEnterTimes[other.id];
          objectEnterTimes := objectEnterTimes - {other.id};
        }
        SendLSLMarker(ExitPayload(zoneName, zoneType, other.name, x, y, z, dwellTime, now));
      }
    }

    /** A manual placement report: always pushed (when there is an outlet), with no filtering. */
    method LogPlacement(objectName: string, x: string, y: string, z: string, now: int)
      modifies outlet
      ensures outlet != null ==> outlet.pushed == old(outlet.pushed) + [ZoneSample("Placed", zoneName, zoneType, objectName, x, y, z, now)]
    {
      SendLSLMarker(ZoneSample("Placed", zoneName, zoneType, objectName, x, y, z, now));
    }
  }
}
