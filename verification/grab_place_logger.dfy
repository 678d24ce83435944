/**
 * The interaction marker outlet (`LSLGrabPlaceLogger`): it keeps a list of tracked grab
 * interactables with a cache of their names, and on every select-enter / select-exit pushes
 * one pipe-delimited string sample, `Grab|name|hand|x|y|z|time` or
 * `Release|name|hand|x|y|z|zone|time`.
 *
 * Scene objects are identities (`ObjectId`); their current names are inputs. Positions and
 * times arrive already formatted as numerals. The physics query behind
 * `DetectPlacementZone` is replaced by the list of colliders it returned.
 */
module Interactions {
  import opened Wrappers
  import opened Strings

  /** A scene object, by identity: two objects may carry the same name. */
  type ObjectId = nat

  /** A collider near the released object: its game object, that object's name, and whether it carries an `LSLPlacementZone`. */
  datatype Collider = Collider(owner: ObjectId, name: string, hasPlacementZone: bool)

  // ------------------------------------------------------------ handedness

  /** The hand that made a selection, read off the interactor's name; a null interactor reads as "Unknown". */
  function GetHandedness(interactorName: Option<string>): (hand: string)
    ensures hand == "LeftHand" || hand == "RightHand" || hand == "UnknownHand"
  {
    var n := interactorName.GetOr("Unknown");
    if Contains(n, "Left") || Contains(n, "left") then "LeftHand"
    else if Contains(n, "Right") || Contains(n, "right") then "RightHand"
    else "UnknownHand"
  }

  /** The name mentions `word` somewhere. */
  ghost predicate Mentions(n: string, word: string) {
    exists i :: OccursAt(n, word, i)
  }

  /**
   * Left is decided first: an interactor whose name mentions "Left" or "left" is the left hand
   * even when it also mentions "Right"; the right hand needs "Right" or "right" and no left
   * mention; any other name is the unknown hand.
   */
  lemma HandednessByName(n: string)
    ensures GetHandedness(Some(n)) == "LeftHand" <==> Mentions(n, "Left") || Mentions(n, "left")
    ensures GetHandedness(Some(n)) == "RightHand" <==>
      !(Mentions(n, "Left") || Mentions(n, "left")) && (Mentions(n, "Right") || Mentions(n, "right"))
    ensures GetHandedness(Some(n)) == "UnknownHand" <==>
      !(Mentions(n, "Left") || Mentions(n, "left") || Mentions(n, "Right") || Mentions(n, "right"))
  {
    ContainsIffOccurs(n, "Left");
    ContainsIffOccurs(n, "left");
    ContainsIffOccurs(n, "Right");
    ContainsIffOccurs(n, "right");
  }

  /** A null interactor (or one that is not a component) is reported as the unknown hand. */
  lemma NullInteractorIsUnknown()
    ensures GetHandedness(None) == "UnknownHand"
  {
    var n := "Unknown";
    assert 'L' !in n && 'l' !in n && 'R' !in n && 'r' !in n;
    FirstLetterAbsent(n, "Left");
    FirstLetterAbsent(n, "left");
    FirstLetterAbsent(n, "Right");
    FirstLetterAbsent(n, "right");
  }

  /** A word whose first letter never occurs in `n` is not contained in `n`. */
  lemma {:induction false} FirstLetterAbsent(n: string, word: string)
    requires word != [] && word[0] !in n
    ensures !Contains(n, word)
    decreases |n|
  {
    if n != [] {
      assert n[0] != word[0];
      FirstLetterAbsent(n[1..], word);
    }
  }

  /** No hand name contains the payload separator. */
  lemma HandIsPipeFree(interactorName: Option<string>)
    ensures '|' !in GetHandedness(interactorName)
  {
    assert '|' !in "LeftHand" && '|' !in "RightHand" && '|' !in "UnknownHand";
  }

  // -------------------------------------------------------------- payloads

  /** `Grab|name|hand|x|y|z|time`. */
  function GrabPayload(objectName: string, hand: string, x: string, y: string, z: string, time: string): (data: string)
    ensures IsPrefix("Grab|", data)
  {
    var fields := ["Grab", objectName, hand, x, y, z, time];
    assert Join(fields, '|') == "Grab" + "|" + Join(fields[1..], '|');
    Join(fields, '|')
  }

  /** `Release|name|hand|x|y|z|zone|time`. */
  function ReleasePayload(objectName: string, hand: string, x: string, y: string, z: string, zone: string, time: string): (data: string)
    ensures IsPrefix("Release|", data)
  {
    var fields := ["Release", objectName, hand, x, y, z, zone, time];
    assert Join(fields, '|') == "Release" + "|" + Join(fields[1..], '|');
    Join(fields, '|')
  }

  /** None of the strings contains the field separator. */
  predicate PipeFree(fields: seq<string>) {
    forall i :: 0 <= i < |fields| ==> '|' !in fields[i]
  }

  /** A Grab payload splits back into its seven fields when no field contains `|`. */
  lemma GrabFields(objectName: string, hand: string, x: string, y: string, z: string, time: string)
    requires PipeFree([objectName, hand, x, y, z, time])
    ensures Split(GrabPayload(objectName, hand, x, y, z, time), '|') == ["Grab", objectName, hand, x, y, z, time]
  {
    var fields := ["Grab", objectName, hand, x, y, z, time];
    assert '|' !in "Grab";
    assert FreeOf(fields, '|') by {
      forall i | 0 <= i < |fields| ensures '|' !in fields[i] {
        if i > 0 {
          assert fields[i] == [objectName, hand, x, y, z, time][i - 1];
        }
      }
    }
    SplitJoin(fields, '|');
  }

  /** A Release payload splits back into its eight fields, the zone at index 6, when no field contains `|`. */
  lemma ReleaseFields(objectName: string, hand: string, x: string, y: string, z: string, zone: string, time: string)
    requires PipeFree([objectName, hand, x, y, z, zone, time])
    ensures Split(ReleasePayload(objectName, hand, x, y, z, zone, time), '|') == ["Release", objectName, hand, x, y, z, zone, time]
  {
    var fields := ["Release", objectName, hand, x, y, z, zone, time];
    assert '|' !in "Release";
    assert FreeOf(fields, '|') by {
      forall i | 0 <= i < |fields| ensures '|' !in fields[i] {
        if i > 0 {
          assert fields[i] == [objectName, hand, x, y, z, zone, time][i - 1];
        }
      }
    }
    SplitJoin(fields, '|');
  }

  // ----------------------------------------------------------------- zones

  /** A lower-cased collider name that names a placement surface. */
  predicate IsZoneName(lowered: string) {
    Contains(lowered, "shelf") || Contains(lowered, "tray") || Contains(lowered, "desk") || Contains(lowered, "placement")
  }

  /** A collider that reports a placement: not the object itself, and zone-like by name or by component. */
  predicate MarksZone(obj: ObjectId, c: Collider) {
    c.owner != obj && (IsZoneName(Lower(c.name)) || c.hasPlacementZone)
  }

  /** The zone reported for a release: the first marking collider's own (not lower-cased) name, or "None". */
  function ZoneOf(obj: ObjectId, nearby: seq<Collider>): (zone: string)
    ensures zone == "None" || exists c :: c in nearby && MarksZone(obj, c) && c.name == zone
    decreases |nearby|
  {
    if nearby == [] then "None"
    else if MarksZone(obj, nearby[0]) then nearby[0].name
    else ZoneOf(obj, nearby[1..])
  }

  /** With no marking collider among the nearby ones, the zone is "None". */
  lemma {:induction false} NoMarkingIsNone(obj: ObjectId, nearby: seq<Collider>)
    requires forall i :: 0 <= i < |nearby| ==> !MarksZone(obj, nearby[i])
    ensures ZoneOf(obj, nearby) == "None"
    decreases |nearby|
  {
    if nearby != [] {
      assert !MarksZone(obj, nearby[0]);
      assert forall i :: 0 <= i < |nearby| - 1 ==> nearby[1..][i] == nearby[i + 1];
      NoMarkingIsNone(obj, nearby[1..]);
    }
  }

  /** The zone is the name of the first marking collider in query order. */
  lemma {:induction false} FirstMarkingNamesZone(obj: ObjectId, nearby: seq<Collider>, i: nat)
    requires i < |nearby| && MarksZone(obj, nearby[i])
    requires forall j :: 0 <= j < i ==> !MarksZone(obj, nearby[j])
    ensures ZoneOf(obj, nearby) == nearby[i].name
    decreases i
  {
    if i > 0 {
      assert !MarksZone(obj, nearby[0]);
      assert nearby[1..][i - 1] == nearby[i];
      assert forall j :: 0 <= j < i - 1 ==> nearby[1..][j] == nearby[j + 1];
      FirstMarkingNamesZone(obj, nearby[1..], i - 1);
    }
  }

  /** The object's own collider never reports a zone, whatever its name. */
  lemma {:induction false} SelfIsSkipped(obj: ObjectId, name: string, hasPlacementZone: bool, nearby: seq<Collider>)
    ensures ZoneOf(obj, [Collider(obj, name, hasPlacementZone)] + nearby) == ZoneOf(obj, nearby)
  {
    assert ([Collider(obj, name, hasPlacementZone)] + nearby)[1..] == nearby;
  }

  /** The early-return search over the colliders found near the released object. */
  method DetectPlacementZone(obj: ObjectId, nearby: seq<Collider>) returns (zone: string)
    ensures zone == ZoneOf(obj, nearby)
  {
    var i := 0;
    while i < |nearby|
      invariant 0 <= i <= |nearby|
      invariant ZoneOf(obj, nearby[i..]) == ZoneOf(obj, nearby)
    {
      var collider := nearby[i];
      assert nearby[i..][1..] == nearby[i + 1..];
      if collider.owner == obj {
        i := i + 1;
        continue;
      }
      if IsZoneName(Lower(collider.name)) {
        return collider.name;
      }
      if collider.hasPlacementZone {
        return collider.name;
      }
      i := i + 1;
    }
    zone := "None";
  }

  // -------------------------------------------------------- tracked objects

  /** The list `FindAllInteractables` builds: every interactable found, none null. */
  function Present(all: seq<ObjectId>): (tracked: seq<Option<ObjectId>>)
    ensures |tracked| == |all| && forall i :: 0 <= i < |all| ==> tracked[i] == Some(all[i])
  {
    seq(|all|, i requires 0 <= i < |all| => Some(all[i]))
  }

  /** The name cache after registering the tracked list in order: null entries are skipped, every other object gets its current name. */
  function Registered(cache: map<ObjectId, string>, tracked: seq<Option<ObjectId>>, names: ObjectId -> string): map<ObjectId, string>
    decreases |tracked|
  {
    if tracked == [] then cache
    else
      var before := Registered(cache, tracked[..|tracked| - 1], names);
      match tracked[|tracked| - 1]
      case None => before
      case Some(o) => before[o := names(o)]
  }

  /**
   * Registration caches exactly the non-null tracked objects, each under the name it had at
   * registration, and keeps every other cached name.
   */
  lemma {:induction false} RegisteredNames(cache: map<ObjectId, string>, tracked: seq<Option<ObjectId>>, names: ObjectId -> string, o: ObjectId)
    ensures o in Registered(cache, tracked, names) <==> o in cache || Some(o) in tracked
    ensures Some(o) in tracked ==> Registered(cache, tracked, names)[o] == names(o)
    ensures Some(o) !in tracked && o in cache ==> Registered(cache, tracked, names)[o] == cache[o]
    decreases |tracked|
  {
    if tracked != [] {
      var init := tracked[..|tracked| - 1];
      RegisteredNames(cache, init, names, o);
      assert tracked == init + [tracked[|tracked| - 1]];
      assert Some(o) in tracked <==> Some(o) in init || tracked[|tracked| - 1] == Some(o);
    }
  }

  /** A tracked list with `o` added unless it is already there. */
  function Added(tracked: seq<Option<ObjectId>>, o: ObjectId): seq<Option<ObjectId>> {
    if Some(o) in tracked then tracked else tracked + [Some(o)]
  }

  /** No entry of the list occurs twice. */
  ghost predicate Distinct(tracked: seq<Option<ObjectId>>) {
    forall i, j :: 0 <= i < j < |tracked| ==> tracked[i] != tracked[j]
  }

  /** Adding never creates a duplicate, and adding the same object again changes nothing. */
  lemma AddedIsIdempotent(tracked: seq<Option<ObjectId>>, o: ObjectId)
    ensures Some(o) in Added(tracked, o)
    ensures Added(Added(tracked, o), o) == Added(tracked, o)
    ensures Distinct(tracked) ==> Distinct(Added(tracked, o))
  {
    var t := Added(tracked, o);
    if Some(o) !in tracked {
      assert t[|tracked|] == Some(o);
    }
  }

  /** The cached name of an object when it has one, its current name otherwise. */
  function CachedName(cache: map<ObjectId, string>, o: ObjectId, currentName: string): string {
    if o in cache then cache[o] else currentName
  }

  /**
   * Once registered, an object is reported under the name it had at registration, however it
   * has been renamed since; an object never registered is reported under its current name.
   */
  lemma ReportedName(cache: map<ObjectId, string>, tracked: seq<Option<ObjectId>>, names: ObjectId -> string, o: ObjectId, currentName: string)
    ensures Some(o) in tracked ==> CachedName(Registered(cache, tracked, names), o, currentName) == names(o)
    ensures Some(o) !in tracked && o !in cache ==> CachedName(Registered(cache, tracked, names), o, currentName) == currentName
  {
    RegisteredNames(cache, tracked, names, o);
  }

  // ------------------------------------------------------------ the logger

  class GrabPlaceLogger {
    const autoFindInteractables: bool
    /** `outlet != null`: set by `InitializeLSL`, whose stream description is not modelled. */
    var outletOpen: bool
    /** The tracked interactables; a manually assigned entry may be null (`None`). */
    var trackedObjects: seq<Option<ObjectId>>
    /** `objectNames`: the name each registered interactable had when it was registered. */
    var objectNames: map<ObjectId, string>
    /** The samples pushed to the outlet, in push order. */
    var pushed: seq<string>

    constructor(autoFind: bool, manual: seq<Option<ObjectId>>)
      ensures autoFindInteractables == autoFind && trackedObjects == manual
      ensures !outletOpen && objectNames == map[] && pushed == []
    {
      autoFindInteractables := autoFind;
      trackedObjects := manual;
      outletOpen := false;
      objectNames := map[];
      pushed := [];
    }

    method InitializeLSL()
      modifies this`outletOpen
      ensures outletOpen
    {
      outletOpen := true;
    }

    /** Replaces the tracked list by every grab interactable in the scene, in the order found. */
    method FindAllInteractables(all: seq<ObjectId>)
      modifies this`trackedObjects
      ensures trackedObjects == Present(all)
    {
      trackedObjects := [];
      for i := 0 to |all|
        invariant |trackedObjects| == i
        invariant forall k :: 0 <= k < i ==> trackedObjects[k] == Some(all[k])
      {
        trackedObjects := trackedObjects + [Some(all[i])];
      }
    }

    /** Caches the current name of every non-null tracked interactable (listener wiring is not modelled). */
    method RegisterInteractables(names: ObjectId -> string)
      modifies this`objectNames
      ensures objectNames == Registered(old(objectNames), trackedObjects, names)
    {
      for i := 0 to |trackedObjects|
        invariant objectNames == Registered(old(objectNames), trackedObjects[..i], names)
      {
        assert trackedObjects[..i + 1][..i] == trackedObjects[..i];
        var entry := trackedObjects[i];
        if entry.None? {
          continue;
        }
        objectNames := objectNames[entry.value := names(entry.value)];
      }
      assert trackedObjects[..|trackedObjects|] == trackedObjects;
    }

    /** Opens the outlet, collects the interactables when auto-detection is on, and registers them. */
    method Start(all: seq<ObjectId>, names: ObjectId -> string)
      modifies this
      ensures outletOpen && pushed == old(pushed)
      ensures trackedObjects == if autoFindInteractables then Present(all) else old(trackedObjects)
      ensures objectNames == Registered(old(objectNames), trackedObjects, names)
    {
      InitializeLSL();
      if autoFindInteractables {
        FindAllInteractables(all);
      }
      RegisterInteractables(names);
    }

    /** Pushes one sample when the outlet exists; console logging is not modelled. */
    method SendLSLMarker(eventData: string)
      modifies this`pushed
      ensures pushed == if outletOpen then old(pushed) + [eventData] else old(pushed)
    {
      if outletOpen {
        pushed := pushed + [eventData];
      }
    }

    /**
     * A select-enter. `interactable` is None when the selected object is not a grab
     * interactable; then nothing is sent.
     */
    method OnObjectGrabbed(interactable: Option<ObjectId>, interactorName: Option<string>, currentName: string,
                           x: string, y: string, z: string, time: string)
      modifies this`pushed
      ensures interactable.None? || !outletOpen ==> pushed == old(pushed)
      ensures interactable.Some? && outletOpen ==>
        pushed == old(pushed) + [GrabPayload(CachedName(objectNames, interactable.value, currentName),
                                             GetHandedness(interactorName), x, y, z, time)]
    {
      if interactable.None? {
        return;
      }
      var objectName := CachedName(objectNames, interactable.value, currentName);
      var handedness := GetHandedness(interactorName);
      SendLSLMarker(GrabPayload(objectName, handedness, x, y, z, time));
    }

    /** A select-exit: as a grab, with the placement zone found among the nearby colliders. */
    method OnObjectReleased(interactable: Option<ObjectId>, interactorName: Option<string>, currentName: string,
                            nearby: seq<Collider>, x: string, y: string, z: string, time: string)
      modifies this`pushed
      ensures interactable.None? || !outletOpen ==> pushed == old(pushed)
      ensures interactable.Some? && outletOpen ==>
        pushed == old(pushed) + [ReleasePayload(CachedName(objectNames, interactable.value, currentName),
                                                GetHandedness(interactorName), x, y, z, ZoneOf(interactable.value, nearby), time)]
    {
      if interactable.None? {
        return;
      }
      var objectName := CachedName(objectNames, interactable.value, currentName);
      var handedness := GetHandedness(interactorName);
      var placementZone := DetectPlacementZone(interactable.value, nearby);
      SendLSLMarker(ReleasePayload(objectName, handedness, x, y, z, placementZone, time));
    }

    /** Adds an interactable at run time unless it is already tracked, caching its current name. */
    method AddTrackedObject(interactable: ObjectId, currentName: string)
      modifies this`trackedObjects, this`objectNames
      ensures trackedObjects == Added(old(trackedObjects), interactable)
      ensures objectNames == if Some(interactable) in old(trackedObjects) then old(objectNames)
                             else old(objectNames)[interactable := currentName]
    {
      if Some(interactable) !in trackedObjects {
        trackedObjects := trackedObjects + [Some(interactable)];
        objectNames := objectNames[interactable := currentName];
      }
    }
  }
}
