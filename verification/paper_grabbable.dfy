/**
 * The paper's interaction flags (`PaperGrabbable`): a select-enter (grab) sets `IsGrabbed`;
 * a select-exit (release) under a socket sets `IsPlaced` and `PlacedTrayName` to the socket's
 * name. Nothing resets either flag, and release handling never looks at `IsGrabbed`.
 *
 * The trial waits on these flags; `Await` is the value-level account of such a wait over a
 * stream of interaction events.
 */
module Grabbable {
  import opened Wrappers

  /**
   * What the interaction toolkit reports for a paper: a select-enter, or a select-exit together
   * with the name of the socket found in the paper's parents (None when there is none).
   */
  datatype PaperEvent = SelectEntered | SelectExited(socket: Option<string>)

  /** The three flags; `placedTrayName == None` stands for a null name. */
  datatype PaperState = PaperState(isGrabbed: bool, isPlaced: bool, placedTrayName: Option<string>)

  /** A freshly spawned paper. */
  const Spawned := PaperState(false, false, None)

  function Apply(s: PaperState, e: PaperEvent): PaperState {
    match e
    case SelectEntered => s.(isGrabbed := true)
    case SelectExited(socket) =>
      if socket.Some? then s.(isPlaced := true, placedTrayName := socket) else s
  }

  /** The state after a sequence of events. */
  function Replay(s: PaperState, events: seq<PaperEvent>): PaperState
    decreases |events|
  {
    if events == [] then s else Replay(Apply(s, events[0]), events[1..])
  }

  /** `IsPlaced` is set only together with a tray name. */
  ghost predicate Consistent(s: PaperState) {
    s.isPlaced <==> s.placedTrayName.Some?
  }

  /** A grab is never undone. */
  lemma {:induction false} GrabIsPermanent(s: PaperState, events: seq<PaperEvent>)
    requires s.isGrabbed
    ensures Replay(s, events).isGrabbed
    decreases |events|
  {
    if events != [] {
      GrabIsPermanent(Apply(s, events[0]), events[1..]);
    }
  }

  /** A placement is never undone, though a later placement may rename the tray. */
  lemma {:induction false} PlacementIsPermanent(s: PaperState, events: seq<PaperEvent>)
    requires s.isPlaced
    ensures Replay(s, events).isPlaced
    decreases |events|
  {
    if events != [] {
      PlacementIsPermanent(Apply(s, events[0]), events[1..]);
    }
  }

  /** Every event sequence keeps the flag and the name in step. */
  lemma {:induction false} ReplayConsistent(s: PaperState, events: seq<PaperEvent>)
    requires Consistent(s)
    ensures Consistent(Replay(s, events))
    decreases |events|
  {
    if events != [] {
      ReplayConsistent(Apply(s, events[0]), events[1..]);
    }
  }

  lemma {:induction false} ReplayAppend(s: PaperState, a: seq<PaperEvent>, b: seq<PaperEvent>)
    ensures Replay(s, a + b) == Replay(Replay(s, a), b)
    decreases |a|
  {
    if a == [] {
      assert a + b == b;
    } else {
      assert (a + b)[1..] == a[1..] + b;
      ReplayAppend(Apply(s, a[0]), a[1..], b);
    }
  }

  /** A paper that was not grabbed is grabbed after some events only if one of them is a select-enter. */
  lemma {:induction false} GrabNeedsSelectEnter(s: PaperState, events: seq<PaperEvent>)
    requires !s.isGrabbed && Replay(s, events).isGrabbed
    ensures SelectEntered in events
    decreases |events|
  {
    if events[0] != SelectEntered {
      GrabNeedsSelectEnter(Apply(s, events[0]), events[1..]);
    }
  }

  /**
   * If some events change the tray name, the new name is some socket's, and a select-exit under
   * that socket is among the events.
   */
  lemma {:induction false} TrayNameNeedsSelectExit(s: PaperState, events: seq<PaperEvent>)
    requires Replay(s, events).placedTrayName != s.placedTrayName
    ensures Replay(s, events).placedTrayName.Some?
    ensures SelectExited(Replay(s, events).placedTrayName) in events
    decreases |events|
  {
    var s' := Apply(s, events[0]);
    if Replay(s', events[1..]).placedTrayName != s'.placedTrayName {
      TrayNameNeedsSelectExit(s', events[1..]);
    } else {
      assert events[0] == SelectExited(s'.placedTrayName);
    }
  }

  /**
   * Release handling does not consult `IsGrabbed`: a release into a socket before any grab
   * still places the paper.
   */
  lemma PlacedWithoutGrab()
    ensures var s := Apply(Spawned, SelectExited(Some("BlueTray")));
      s.isPlaced && !s.isGrabbed && s.placedTrayName == Some("BlueTray")
  {
  }

  class PaperGrabbable {
    var IsGrabbed: bool
    var IsPlaced: bool
    var PlacedTrayName: Option<string>

    function State(): PaperState
      reads this
    {
      PaperState(IsGrabbed, IsPlaced, PlacedTrayName)
    }

    constructor ()
      ensures State() == Spawned
    {
      IsGrabbed, IsPlaced, PlacedTrayName := false, false, None;
    }

    /** Select-enter: the paper is grabbed; nothing else changes. */
    method OnGrabbed()
      modifies this
      ensures IsGrabbed
      ensures IsPlaced == old(IsPlaced) && PlacedTrayName == old(PlacedTrayName)
      ensures State() == Apply(old(State()), SelectEntered)
    {
      IsGrabbed := true;
    }

    /** Select-exit: placed in the socket's tray if there is a socket, else nothing changes. */
    method OnReleased(socket: Option<string>)
      modifies this
      ensures IsGrabbed == old(IsGrabbed)
      ensures socket.Some? ==> IsPlaced && PlacedTrayName == socket
      ensures socket.None? ==> IsPlaced == old(IsPlaced) && PlacedTrayName == old(PlacedTrayName)
      ensures State() == Apply(old(State()), SelectExited(socket))
    {
      CheckSocketPlacement(socket);
    }

    method CheckSocketPlacement(socket: Option<string>)
      modifies this
      ensures State() == Apply(old(State()), SelectExited(socket))
    {
      if socket.Some? {
        IsPlaced := true;
        PlacedTrayName := socket;
      }
    }

    /** Dispatches one interaction event to its listener. */
    method Handle(e: PaperEvent)
      modifies this
      ensures State() == Apply(old(State()), e)
    {
      match e
      case SelectEntered => OnGrabbed();
      case SelectExited(socket) => OnReleased(socket);
    }
  }

  /** What a wait polls for: `IsGrabbed`, or `IsPlaced`. */
  datatype Until = UntilGrabbed | UntilPlaced

  predicate Holds(until: Until, s: PaperState) {
    match until
    case UntilGrabbed => s.isGrabbed
    case UntilPlaced => s.isPlaced
  }

  /** The end of a wait: the paper's state, the next unread event, and whether the flag came up. */
  datatype Waited = Waited(state: PaperState, pos: nat, reached: bool)

  /**
   * `WaitUntil` over the event stream from `pos` on: the flag is checked, and while it is down
   * the next event is applied. If the events run out first, the wait never ends (`!reached`).
   */
  function Await(s: PaperState, events: seq<PaperEvent>, pos: nat, until: Until): (r: Waited)
    ensures r.reached ==> Holds(until, r.state)
    ensures !r.reached ==> r.pos >= |events| && !Holds(until, r.state)
    ensures pos <= r.pos && (pos <= |events| ==> r.pos <= |events|)
    ensures r.state == Replay(s, if pos <= |events| then events[pos..r.pos] else [])
    decreases |events| - pos
  {
    if Holds(until, s) then Waited(s, pos, true)
    else if pos >= |events| then Waited(s, pos, false)
    else
      var r := Await(Apply(s, events[pos]), events, pos + 1, until);
      assert events[pos..r.pos] == [events[pos]] + events[pos + 1..r.pos];
      r
  }

  /** A wait that ends on a consistent state's successor leaves a consistent state. */
  lemma AwaitConsistent(s: PaperState, events: seq<PaperEvent>, pos: nat, until: Until)
    requires Consistent(s)
    ensures Consistent(Await(s, events, pos, until).state)
  {
    var r := Await(s, events, pos, until);
    ReplayConsistent(s, if pos <= |events| then events[pos..r.pos] else []);
  }
}
