/**
 * `TrialController`: the block colour-mapping set-up, one trial (`RunTrial`) and its single paper
 * (`RunSinglePaper`).
 *
 * `PaperRun` and `TrialRun` say what a paper and a trial make observable for given random draws
 * and interaction events; the class's methods are proved to do exactly that, step by step as the
 * coroutines do. A run that reaches a wait whose event never comes ends `Waiting`; an exception
 * ends it `Crashed`.
 */
module TrialControl {
  import opened Wrappers
  import opened Strings
  import opened ExperimentConfig
  import opened Grabbable
  import opened Markers
  import opened Runs
  import opened ColorMaps
  import K = StepKinds

  /**
   * One paper: spawn it, wait for the grab, wait for the placement, judge the tray by substring
   * containment, show the feedback. The paper is a fresh `PaperGrabbable`; the events from
   * `c.event` on are the ones it receives.
   */
  function PaperRun(session: int, trial: int, paper: int, color: string, tray: string,
                    stillness: real, events: seq<PaperEvent>, c: Cursor): (r: Run)
    ensures r.next.draw == c.draw && c.event <= r.next.event
  {
    var spawned := [Mark(PaperSpawned(session, trial, paper, color))];
    var g := Await(Spawned, events, c.event, UntilGrabbed);
    if !g.reached then Run(spawned, Waiting, c.(event := g.pos))
    else
      var grabbed := spawned + [Mark(PaperGrabbed(session, trial, paper))];
      var p := Await(g.state, events, g.pos, UntilPlaced);
      if !p.reached then Run(grabbed, Waiting, c.(event := p.pos))
      else
        match p.state.placedTrayName
        case None => Run(grabbed, Crashed(NoTrayName), c.(event := p.pos))
        case Some(placed) =>
          var isCorrect := Contains(placed, tray);
          Run(grabbed + [Mark(PaperPlaced(session, trial, paper, placed, tray, isCorrect)),
                         Feedback(isCorrect, stillness)],
              Finished, c.(event := p.pos))
  }

  /** `PaperRun`'s four ways to end, each with its steps written out. */
  lemma PaperRunCases(session: int, trial: int, paper: int, color: string, tray: string,
                      stillness: real, events: seq<PaperEvent>, c: Cursor)
    ensures var r := PaperRun(session, trial, paper, color, tray, stillness, events, c);
      var spawned := Mark(PaperSpawned(session, trial, paper, color));
      var grabbed := Mark(PaperGrabbed(session, trial, paper));
      var g := Await(Spawned, events, c.event, UntilGrabbed);
      var p := Await(g.state, events, g.pos, UntilPlaced);
      && (!g.reached ==> r == Run([spawned], Waiting, c.(event := g.pos)))
      && (g.reached && !p.reached ==> r == Run([spawned, grabbed], Waiting, c.(event := p.pos)))
      && (g.reached && p.reached && p.state.placedTrayName.None? ==>
            r == Run([spawned, grabbed], Crashed(NoTrayName), c.(event := p.pos)))
      && (g.reached && p.reached && p.state.placedTrayName.Some? ==>
            var placed := p.state.placedTrayName.value;
            var isCorrect := Contains(placed, tray);
            r == Run([spawned, grabbed, Mark(PaperPlaced(session, trial, paper, placed, tray, isCorrect)),
                      Feedback(isCorrect, stillness)], Finished, c.(event := p.pos)))
  {
    var spawned := Mark(PaperSpawned(session, trial, paper, color));
    var grabbed := Mark(PaperGrabbed(session, trial, paper));
    assert [spawned] + [grabbed] == [spawned, grabbed];
    forall x, y ensures [spawned, grabbed] + [x, y] == [spawned, grabbed, x, y] {
    }
  }

  /** The events a run has read. */
  function Consumed(events: seq<PaperEvent>, c: Cursor, next: Cursor): seq<PaperEvent> {
    if c.event <= next.event <= |events| then events[c.event..next.event] else []
  }

  /** The kinds of step a finished paper makes, in order. */
  const PaperKinds: seq<K.Kind> := [K.PaperSpawned, K.PaperGrabbed, K.PaperPlaced, K.Feedback]

  /**
   * A paper's run never throws (a placed paper always has a tray name); its steps follow the
   * order PaperSpawned, PaperGrabbed, PaperPlaced, Feedback, and it finishes exactly when it
   * makes all four.
   */
  predicate PaperShaped(p: Run) {
    && (p.outcome == Finished || p.outcome == Waiting)
    && (p.outcome == Finished <==> |p.steps| == 4)
    && 1 <= |p.steps| <= 4
    && Kinds(p.steps) == PaperKinds[..|p.steps|]
  }

  lemma PaperRunOrder(session: int, trial: int, paper: int, color: string, tray: string,
                      stillness: real, events: seq<PaperEvent>, c: Cursor)
    ensures PaperShaped(PaperRun(session, trial, paper, color, tray, stillness, events, c))
  {
    var g := Await(Spawned, events, c.event, UntilGrabbed);
    if g.reached {
      assert c.event <= |events|;
      var a := events[c.event..g.pos];
      var p := Await(g.state, events, g.pos, UntilPlaced);
      if p.reached {
        var b := events[g.pos..p.pos];
        assert events[c.event..p.pos] == a + b;
        ReplayAppend(Spawned, a, b);
        ReplayConsistent(Spawned, a + b);
      }
    }
  }

  /** A paper that finishes logs its spawn, its grab, its placement in some tray and the feedback. */
  lemma PaperFinished(session: int, trial: int, paper: int, color: string, tray: string,
                      stillness: real, events: seq<PaperEvent>, c: Cursor)
    returns (placed: string)
    requires PaperRun(session, trial, paper, color, tray, stillness, events, c).outcome == Finished
    ensures var ok := Contains(placed, tray);
      PaperRun(session, trial, paper, color, tray, stillness, events, c).steps == [
        Mark(PaperSpawned(session, trial, paper, color)),
        Mark(PaperGrabbed(session, trial, paper)),
        Mark(PaperPlaced(session, trial, paper, placed, tray, ok)),
        Feedback(ok, stillness)]
  {
    var g := Await(Spawned, events, c.event, UntilGrabbed);
    var p := Await(g.state, events, g.pos, UntilPlaced);
    placed := p.state.placedTrayName.value;
  }

  /**
   * PaperGrabbed is logged only after a select-enter has been read, and a PaperPlaced naming
   * tray t only after a select-exit under socket t has been read.
   */
  lemma PaperRunCausality(session: int, trial: int, paper: int, color: string, tray: string,
                          stillness: real, events: seq<PaperEvent>, c: Cursor)
    ensures var r := PaperRun(session, trial, paper, color, tray, stillness, events, c);
      && (|r.steps| >= 2 ==> SelectEntered in Consumed(events, c, r.next))
      && (|r.steps| == 4 ==>
            && r.steps[2].Mark? && r.steps[2].marker.PaperPlaced?
            && SelectExited(Some(r.steps[2].marker.placedIn)) in Consumed(events, c, r.next))
  {
    var g := Await(Spawned, events, c.event, UntilGrabbed);
    if g.reached {
      assert c.event <= |events|;
      var a := events[c.event..g.pos];
      GrabNeedsSelectEnter(Spawned, a);
      var p := Await(g.state, events, g.pos, UntilPlaced);
      var b := events[g.pos..p.pos];
      assert events[c.event..p.pos] == a + b;
      ReplayAppend(Spawned, a, b);
      ReplayConsistent(Spawned, a + b);
      if p.reached {
        TrayNameNeedsSelectExit(Spawned, a + b);
      } else if p.pos <= |events| {
        assert SelectEntered in a + b;
      }
    }
  }

  /**
   * One trial: TrialStart, the paper colour drawn from the configured colours, its tray looked up
   * in the block mapping, ColorMapping, the paper, TrialEnd. The condition is only logged.
   */
  function TrialRun(session: int, block: int, trial: int, condition: TrialCondition, config: Config,
                    mapping: Option<ColorMap>, w: World, c: Cursor): (r: Run)
    ensures r.next.draw == c.draw + 1 && c.event <= r.next.event
  {
    var start := [Mark(TrialStart(session, block, trial, condition))];
    var colors := config.taskSettings.colors;
    var c1 := c.(draw := c.draw + 1);
    if |colors| == 0 then Run(start, Crashed(EmptyColorList), c1)
    else
      var paperColor := colors[RandomRange(w.rng, c.draw, |colors|)];
      match mapping
      case None => Run(start, Crashed(MappingNotInstalled), c1)
      case Some(m) =>
        if paperColor !in m.table then Run(start, Crashed(ColorNotMapped(paperColor)), c1)
        else
          var correctTray := m.table[paperColor];
          var p := PaperRun(session, trial, 1, paperColor, correctTray,
                            config.timing.headStillnessDuration, w.events, c1);
          var steps := start + [Mark(ColorMapping(paperColor, correctTray))] + p.steps;
          if p.outcome.Finished? then Run(steps + [Mark(TrialEnd(session, trial))], Finished, p.next)
          else Run(steps, p.outcome, p.next)
  }

  /** The kinds of step a finished trial makes, in order. */
  const TrialKinds: seq<K.Kind> :=
    [K.TrialStart, K.ColorMapping, K.PaperSpawned, K.PaperGrabbed, K.PaperPlaced, K.Feedback, K.TrialEnd]

  /**
   * A trial's steps follow the order TrialStart, ColorMapping, PaperSpawned, PaperGrabbed,
   * PaperPlaced, Feedback, TrialEnd, stopping early when the trial does not finish; it finishes
   * exactly when it makes all seven. It opens with `start` and, if complete, closes with `end`.
   */
  predicate TrialShaped(r: Run, start: Marker, end: Marker) {
    && 1 <= |r.steps| <= 7
    && Kinds(r.steps) == TrialKinds[..|r.steps|]
    && (r.outcome.Finished? <==> |r.steps| == 7)
    && r.steps[0] == Mark(start)
    && (|r.steps| == 7 ==> r.steps[6] == Mark(end))
  }

  /** Every trial, however it ends, is shaped as `TrialShaped` says, opening with its own TrialStart. */
  lemma TrialOrder(session: int, block: int, trial: int, condition: TrialCondition, config: Config,
                   mapping: Option<ColorMap>, w: World, c: Cursor)
    ensures TrialShaped(TrialRun(session, block, trial, condition, config, mapping, w, c),
                        TrialStart(session, block, trial, condition), TrialEnd(session, trial))
  {
    var colors := config.taskSettings.colors;
    if |colors| > 0 && mapping.Some? {
      var paperColor := colors[RandomRange(w.rng, c.draw, |colors|)];
      if paperColor in mapping.value.table {
        var m := mapping.value;
        var tray := m.table[paperColor];
        var p := PaperRun(session, trial, 1, paperColor, tray, config.timing.headStillnessDuration, w.events,
                          c.(draw := c.draw + 1));
        PaperRunOrder(session, trial, 1, paperColor, tray, config.timing.headStillnessDuration, w.events,
                      c.(draw := c.draw + 1));
        TrialRunMapped(session, block, trial, condition, config, m, w, c, paperColor, tray, p);
        KindsAround(TrialRun(session, block, trial, condition, config, mapping, w, c),
                    TrialStart(session, block, trial, condition), ColorMapping(paperColor, tray), p,
                    TrialEnd(session, trial));
      }
    }
  }

  /** A trial whose colour has a tray: TrialStart, ColorMapping, the paper, and TrialEnd if it finished. */
  lemma TrialRunMapped(session: int, block: int, trial: int, condition: TrialCondition, config: Config,
                       m: ColorMap, w: World, c: Cursor, paperColor: string, tray: string, p: Run)
    requires |config.taskSettings.colors| > 0
    requires paperColor == config.taskSettings.colors[RandomRange(w.rng, c.draw, |config.taskSettings.colors|)]
    requires paperColor in m.table && tray == m.table[paperColor]
    requires p == PaperRun(session, trial, 1, paperColor, tray, config.timing.headStillnessDuration, w.events,
                           c.(draw := c.draw + 1))
    ensures var r := TrialRun(session, block, trial, condition, config, Some(m), w, c);
      && r.steps == [Mark(TrialStart(session, block, trial, condition))] + [Mark(ColorMapping(paperColor, tray))]
                    + p.steps + (if p.outcome.Finished? then [Mark(TrialEnd(session, trial))] else [])
      && (r.outcome.Finished? <==> p.outcome.Finished?)
  {
  }

  /** A paper's run between a TrialStart and a ColorMapping, closed by TrialEnd if it finished, is shaped as a trial. */
  lemma KindsAround(r: Run, start: Marker, mapped: Marker, p: Run, end: Marker)
    requires start.TrialStart? && mapped.ColorMapping? && end.TrialEnd?
    requires PaperShaped(p)
    requires r.steps == [Mark(start)] + [Mark(mapped)] + p.steps + (if p.outcome.Finished? then [Mark(end)] else [])
    requires r.outcome.Finished? <==> p.outcome.Finished?
    ensures TrialShaped(r, start, end)
  {
    var head := [Mark(start)] + [Mark(mapped)];
    var tail := if p.outcome.Finished? then [Mark(end)] else [];
    assert head == [Mark(start), Mark(mapped)];
    KindsPair(Mark(start), Mark(mapped));
    KindsAppend(head, p.steps);
    TrialKindsSplit(|p.steps|);
    KindsAppend(head + p.steps, tail);
    if p.outcome.Finished? {
      assert Kinds(tail) == [K.TrialEnd];
    } else {
      assert Kinds(tail) == [];
    }
  }

  /** A trial's kinds are the TrialStart and ColorMapping kinds, then the paper's, then TrialEnd. */
  lemma TrialKindsSplit(k: nat)
    requires k <= 4
    ensures TrialKinds[..2 + k] == [K.TrialStart, K.ColorMapping] + PaperKinds[..k]
    ensures TrialKinds == [K.TrialStart, K.ColorMapping] + PaperKinds + [K.TrialEnd]
  {
  }

  /**
   * A finished trial: the paper colour is one of the configured colours, the correct tray is
   * the block mapping's entry for it, and the placement is correct exactly when the tray the
   * paper was placed in contains that entry as a substring.
   */
  lemma TrialFinished(session: int, block: int, trial: int, condition: TrialCondition, config: Config,
                      mapping: Option<ColorMap>, w: World, c: Cursor)
    returns (color: string, placed: string)
    requires TrialRun(session, block, trial, condition, config, mapping, w, c).outcome.Finished?
    ensures color in config.taskSettings.colors
    ensures mapping.Some? && color in mapping.value.table
    ensures var tray := mapping.value.table[color];
      var ok := Contains(placed, tray);
      TrialRun(session, block, trial, condition, config, mapping, w, c).steps == [
        Mark(TrialStart(session, block, trial, condition)),
        Mark(ColorMapping(color, tray)),
        Mark(PaperSpawned(session, trial, 1, color)),
        Mark(PaperGrabbed(session, trial, 1)),
        Mark(PaperPlaced(session, trial, 1, placed, tray, ok)),
        Feedback(ok, config.timing.headStillnessDuration),
        Mark(TrialEnd(session, trial))]
  {
    var colors := config.taskSettings.colors;
    color := colors[RandomRange(w.rng, c.draw, |colors|)];
    var c1 := c.(draw := c.draw + 1);
    var tray := mapping.value.table[color];
    var stillness := config.timing.headStillnessDuration;
    var p := PaperRun(session, trial, 1, color, tray, stillness, w.events, c1);
    placed := PaperFinished(session, trial, 1, color, tray, stillness, w.events, c1);
    var ok := Contains(placed, tray);
    var start := Mark(TrialStart(session, block, trial, condition));
    var mapped := Mark(ColorMapping(color, tray));
    var spawned := Mark(PaperSpawned(session, trial, 1, color));
    var grabbed := Mark(PaperGrabbed(session, trial, 1));
    var put := Mark(PaperPlaced(session, trial, 1, placed, tray, ok));
    var shown := Feedback(ok, stillness);
    var end := Mark(TrialEnd(session, trial));
    assert [start] + [mapped] + [spawned, grabbed, put, shown] + [end]
        == [start, mapped, spawned, grabbed, put, shown, end];
  }

  /**
   * The condition reaches nothing but the TrialStart marker: a Control and a Confusion trial with
   * the same inputs draw the same colour, expect the same tray and end the same way.
   */
  lemma ConditionOnlyLogged(session: int, block: int, trial: int, config: Config,
                            mapping: Option<ColorMap>, w: World, c: Cursor)
    ensures var a := TrialRun(session, block, trial, Control, config, mapping, w, c);
      var b := TrialRun(session, block, trial, Confusion, config, mapping, w, c);
      && a.outcome == b.outcome && a.next == b.next && |a.steps| == |b.steps|
      && a.steps[0] == Mark(TrialStart(session, block, trial, Control))
      && b.steps[0] == Mark(TrialStart(session, block, trial, Confusion))
      && a.steps[1..] == b.steps[1..]
  {
  }

  /** Without an installed mapping a trial throws right after its TrialStart marker. */
  lemma TrialWithoutMapping(session: int, block: int, trial: int, condition: TrialCondition,
                            config: Config, w: World, c: Cursor)
    ensures var r := TrialRun(session, block, trial, condition, config, None, w, c);
      r.steps == [Mark(TrialStart(session, block, trial, condition))] && r.outcome.Crashed?
  {
  }

  /**
   * With the mapping `SetupBlockColorMapping` installs for the configured colours in place, a
   * trial never throws: the drawn colour always has a tray, and the paper never throws.
   */
  lemma InstalledMappingNeverCrashes(session: int, block: int, trial: int, condition: TrialCondition,
                                     config: Config, blockCondition: TrialCondition, rng: nat -> nat,
                                     draw: nat, w: World, c: Cursor)
    requires |config.taskSettings.colors| > 0
    ensures var m := Mapping(blockCondition, config.taskSettings.colors, rng, draw);
      !TrialRun(session, block, trial, condition, config, Some(m), w, c).outcome.Crashed?
  {
    var colors := config.taskSettings.colors;
    var m := Mapping(blockCondition, colors, rng, draw);
    var color := colors[RandomRange(w.rng, c.draw, |colors|)];
    assert color in m.table;
    PaperRunOrder(session, trial, 1, color, m.table[color], config.timing.headStillnessDuration, w.events,
                  c.(draw := c.draw + 1));
  }

  /** Steps in trial order are all of the trial's kinds: its markers and the feedback. */
  lemma TrialLevelSteps(steps: seq<Step>)
    requires |steps| <= 7 && Kinds(steps) == TrialKinds[..|steps|]
    ensures KindsIn(steps, TrialKinds)
  {
    forall i | 0 <= i < |steps| ensures KindOf(steps[i]) in TrialKinds {
      assert KindOf(steps[i]) == Kinds(steps)[i] == TrialKinds[i];
    }
  }

  /**
   * Steps in trial order, opening with a TrialStart for `trial` and, when complete, closing with
   * its TrialEnd, carry that one opening and closing.
   */
  lemma {:induction false} MarksOfTrialKinds(steps: seq<Step>, session: int, block: int, trial: int,
                                             condition: TrialCondition)
    requires 1 <= |steps| <= 7 && Kinds(steps) == TrialKinds[..|steps|]
    requires steps[0] == Mark(TrialStart(session, block, trial, condition))
    requires |steps| == 7 ==> steps[6] == Mark(TrialEnd(session, trial))
    ensures TrialMarks(steps) == if |steps| == 7 then [Opened(trial, condition), Closed(trial)]
                                 else [Opened(trial, condition)]
  {
    var rest := steps[1..];
    assert TrialMarks(steps) == [Opened(trial, condition)] + Project(rest, TrialMarkOf);
    var n := if |steps| == 7 then 5 else |rest|;
    var mid := rest[..n];
    forall i | 0 <= i < |mid| ensures TrialMarkOf(mid[i]).None? {
      assert mid[i] == steps[i + 1];
      assert KindOf(steps[i + 1]) == Kinds(steps)[i + 1] == TrialKinds[i + 1];
      TrialMarkOfKind(mid[i]);
    }
    ProjectNone(mid, TrialMarkOf);
    if |steps| == 7 {
      assert rest == mid + [steps[6]];
      ProjectAppend(mid, [steps[6]], TrialMarkOf);
      ProjectSingle(steps[6], TrialMarkOf);
    } else {
      assert rest == mid;
    }
  }

  /**
   * A trial opens with its number and condition and, if it finishes, closes with its number;
   * every step it makes is of one of the trial's kinds.
   */
  lemma TrialMarksOfTrial(session: int, block: int, trial: int, condition: TrialCondition,
                          config: Config, mapping: Option<ColorMap>, w: World, c: Cursor)
    ensures var r := TrialRun(session, block, trial, condition, config, mapping, w, c);
      && TrialMarks(r.steps) == (if r.outcome.Finished? then [Opened(trial, condition), Closed(trial)]
                                 else [Opened(trial, condition)])
      && KindsIn(r.steps, TrialKinds)
  {
    var r := TrialRun(session, block, trial, condition, config, mapping, w, c);
    TrialOrder(session, block, trial, condition, config, mapping, w, c);
    MarksOfTrialKinds(r.steps, session, block, trial, condition);
    TrialLevelSteps(r.steps);
  }

  /** `WaitUntil(() => flag)` on a paper, fed the events from `pos` on while the flag is down. */
  method WaitUntil(paper: PaperGrabbable, events: seq<PaperEvent>, pos: nat, until: Until)
    returns (next: nat, reached: bool)
    modifies paper
    ensures var r := Await(old(paper.State()), events, pos, until);
      paper.State() == r.state && next == r.pos && reached == r.reached
  {
    next := pos;
    while !Holds(until, paper.State()) && next < |events|
      invariant Await(paper.State(), events, next, until) == Await(old(paper.State()), events, pos, until)
      decreases |events| - next
    {
      paper.Handle(events[next]);
      next := next + 1;
    }
    reached := Holds(until, paper.State());
  }

  /** The Control loop of `SetupBlockColorMapping`: each colour is put to itself, in order. */
  method FillIdentity(colors: seq<string>) returns (m: ColorMap)
    ensures m == PutAll(Empty, colors, colors)
  {
    m := Empty;
    var i := 0;
    assert colors[0..] == colors;
    while i < |colors|
      invariant 0 <= i <= |colors|
      invariant PutAll(m, colors[i..], colors[i..]) == PutAll(Empty, colors, colors)
    {
      assert colors[i..][1..] == colors[i + 1..];
      m := Put(m, colors[i], colors[i]);
      i := i + 1;
    }
  }

  /**
   * The Confusion loop of `SetupBlockColorMapping`: the k-th colour is put to the pool entry at
   * the k-th draw, which then leaves the pool.
   */
  method FillDrawn(colors: seq<string>, rng: nat -> nat, draw: nat) returns (m: ColorMap)
    ensures m == PutAll(Empty, colors, DrawAll(colors, rng, draw))
  {
    ghost var goal := PutAll(Empty, colors, DrawAll(colors, rng, draw));
    m := Empty;
    var i := 0;
    var pool := colors;
    var k := draw;
    assert colors[0..] == colors;
    while i < |colors|
      invariant 0 <= i <= |colors| && k == draw + i
      invariant Remaining(m, colors[i..], pool, rng, k, goal)
    {
      m, pool := DrawNext(m, colors, i, pool, rng, k, goal);
      i := i + 1;
      k := k + 1;
    }
    assert colors[i..] == [];
  }

  /** Putting the remaining colours to the remaining draws completes the mapping `goal`. */
  ghost predicate Remaining(m: ColorMap, keys: seq<string>, pool: seq<string>, rng: nat -> nat, k: nat, goal: ColorMap) {
    |keys| == |pool| && PutAll(m, keys, DrawAll(pool, rng, k)) == goal
  }

  /** One pass of the Confusion loop: the i-th colour goes to the drawn pool entry, which leaves the pool. */
  method DrawNext(m: ColorMap, colors: seq<string>, i: nat, pool: seq<string>, rng: nat -> nat, k: nat, ghost goal: ColorMap)
    returns (m': ColorMap, pool': seq<string>)
    requires i < |colors| && Remaining(m, colors[i..], pool, rng, k, goal)
    ensures Remaining(m', colors[i + 1..], pool', rng, k + 1, goal)
  {
    var randomIndex := RandomRange(rng, k, |pool|);
    DrawStep(m, colors, i, pool, rng, k);
    m' := Put(m, colors[i], pool[randomIndex]);
    pool' := RemoveAt(pool, randomIndex);
  }

  /** The mapping for `condition`, filled by the loop the condition selects. */
  method FillMapping(condition: TrialCondition, colors: seq<string>, rng: nat -> nat, draw: nat)
    returns (m: ColorMap, next: nat)
    ensures m == Mapping(condition, colors, rng, draw)
    ensures next == draw + DrawsUsed(condition, colors)
  {
    if condition == Control {
      m := FillIdentity(colors);
      next := draw;
    } else {
      m := FillDrawn(colors, rng, draw);
      next := draw + |colors|;
    }
  }

  /** One step of the Confusion loop: put the first colour to the drawn pool entry, which leaves the pool. */
  lemma DrawStep(m: ColorMap, colors: seq<string>, i: nat, pool: seq<string>, rng: nat -> nat, k: nat)
    requires i < |colors| && |pool| == |colors| - i
    ensures var r := RandomRange(rng, k, |pool|);
      PutAll(m, colors[i..], DrawAll(pool, rng, k))
        == PutAll(Put(m, colors[i], pool[r]), colors[i + 1..], DrawAll(RemoveAt(pool, r), rng, k + 1))
  {
    var r := RandomRange(rng, k, |pool|);
    var targets := DrawAll(pool, rng, k);
    assert targets[0] == pool[r] && targets[1..] == DrawAll(RemoveAt(pool, r), rng, k + 1);
    assert colors[i..][0] == colors[i] && colors[i..][1..] == colors[i + 1..];
  }

  /** The logging loop of `SetupBlockColorMapping`: "key->value " per entry, then trimmed. */
  method MappingString(m: ColorMap) returns (text: string)
    requires forall k :: k in m.keys ==> k in m.table
    ensures text == MappingText(m)
  {
    var mapping := "";
    var j := 0;
    while j < |m.keys|
      invariant 0 <= j <= |m.keys|
      invariant mapping == PairsText(m.keys[..j], m.table)
    {
      assert m.keys[..j + 1][..j] == m.keys[..j];
      mapping := mapping + PairText(m.keys[j], m.table[m.keys[j]]) + " ";
      j := j + 1;
    }
    assert m.keys[..|m.keys|] == m.keys;
    text := Trim(mapping);
  }

  class TrialController {
    /** Null until `SetupBlockColorMapping` installs a mapping; nothing else assigns it. */
    var currentColorMapping: Option<ColorMap>
    /** The marker logger and the presentation screens, shared with the other runners. */
    const log: Timeline

    constructor (log: Timeline)
      ensures this.log == log && currentColorMapping == None
    {
      this.log := log;
      currentColorMapping := None;
    }

    /**
     * Installs the block mapping for `condition` and logs it. Under Confusion the k-th colour
     * gets the target at a drawn index of the remaining pool, which then loses it. Returns the
     * next unread draw.
     */
    method SetupBlockColorMapping(condition: TrialCondition, colors: seq<string>, rng: nat -> nat, draw: nat)
      returns (next: nat)
      modifies this, log
      ensures currentColorMapping == Some(Mapping(condition, colors, rng, draw))
      ensures next == draw + DrawsUsed(condition, colors)
      ensures log.steps == old(log.steps) + [Mark(BlockColorMapping(MappingText(Mapping(condition, colors, rng, draw))))]
    {
      var m;
      m, next := FillMapping(condition, colors, rng, draw);
      currentColorMapping := Some(m);
      var text := MappingString(m);
      log.Log(BlockColorMapping(text));
    }

    /** One trial; the coroutine chain stops at a wait that never ends or at an exception. */
    method RunTrial(sessionNumber: int, blockNumber: int, globalTrialNumber: int, condition: TrialCondition,
                    config: Config, w: World, c: Cursor)
      returns (outcome: Outcome, next: Cursor)
      modifies log
      ensures var r := TrialRun(sessionNumber, blockNumber, globalTrialNumber, condition, config,
                                currentColorMapping, w, c);
        log.steps == old(log.steps) + r.steps && outcome == r.outcome && next == r.next
    {
      ghost var r := TrialRun(sessionNumber, blockNumber, globalTrialNumber, condition, config,
                              currentColorMapping, w, c);
      ghost var start := [Mark(TrialStart(sessionNumber, blockNumber, globalTrialNumber, condition))];
      log.Log(TrialStart(sessionNumber, blockNumber, globalTrialNumber, condition));
      var colors := config.taskSettings.colors;
      var index := RandomRange(w.rng, c.draw, |colors|);
      next := c.(draw := c.draw + 1);
      if index >= |colors| {
        assert r == Run(start, Crashed(EmptyColorList), next);
        return Crashed(EmptyColorList), next;
      }
      var paperColor := colors[index];
      if currentColorMapping.None? {
        assert r == Run(start, Crashed(MappingNotInstalled), next);
        return Crashed(MappingNotInstalled), next;
      }
      if paperColor !in currentColorMapping.value.table {
        assert r == Run(start, Crashed(ColorNotMapped(paperColor)), next);
        return Crashed(ColorNotMapped(paperColor)), next;
      }
      var correctTray := currentColorMapping.value.table[paperColor];
      ghost var p := PaperRun(sessionNumber, globalTrialNumber, 1, paperColor, correctTray,
                              config.timing.headStillnessDuration, w.events, next);
      ghost var steps := start + [Mark(ColorMapping(paperColor, correctTray))] + p.steps;
      assert r == if p.outcome.Finished? then Run(steps + [Mark(TrialEnd(sessionNumber, globalTrialNumber))], Finished, p.next)
                  else Run(steps, p.outcome, p.next);
      ghost var mapped := start + [Mark(ColorMapping(paperColor, correctTray))];
      AppendTwo(old(log.steps), start, [Mark(ColorMapping(paperColor, correctTray))]);
      log.Log(ColorMapping(paperColor, correctTray));
      outcome, next := RunSinglePaper(sessionNumber, globalTrialNumber, 1, paperColor, correctTray, config, w, next);
      AppendTwo(old(log.steps), mapped, p.steps);
      if outcome != Finished {
        return;
      }
      AppendTwo(old(log.steps), mapped + p.steps, [Mark(TrialEnd(sessionNumber, globalTrialNumber))]);
      log.Log(TrialEnd(sessionNumber, globalTrialNumber));
    }

    /** One paper, with a fresh grabbable that receives the events. */
    method RunSinglePaper(sessionNumber: int, trialNumber: int, paperNumber: int, paperColor: string,
                          correctTray: string, config: Config, w: World, c: Cursor)
      returns (outcome: Outcome, next: Cursor)
      modifies log
      ensures var r := PaperRun(sessionNumber, trialNumber, paperNumber, paperColor, correctTray,
                                config.timing.headStillnessDuration, w.events, c);
        log.steps == old(log.steps) + r.steps && outcome == r.outcome && next == r.next
    {
      ghost var before := log.steps;
      ghost var spawned := Mark(PaperSpawned(sessionNumber, trialNumber, paperNumber, paperColor));
      ghost var grabbed := Mark(PaperGrabbed(sessionNumber, trialNumber, paperNumber));
      PaperRunCases(sessionNumber, trialNumber, paperNumber, paperColor, correctTray,
                    config.timing.headStillnessDuration, w.events, c);
      var grabbable := new PaperGrabbable();
      log.Log(PaperSpawned(sessionNumber, trialNumber, paperNumber, paperColor));
      var pos, reached := WaitUntil(grabbable, w.events, c.event, UntilGrabbed);
      if !reached {
        return Waiting, c.(event := pos);
      }
      log.Log(PaperGrabbed(sessionNumber, trialNumber, paperNumber));
      pos, reached := WaitUntil(grabbable, w.events, pos, UntilPlaced);
      if !reached {
        return Waiting, c.(event := pos);
      }
      var placedTray := grabbable.PlacedTrayName;
      if placedTray.None? {
        return Crashed(NoTrayName), c.(event := pos);
      }
      var isCorrect := Contains(placedTray.value, correctTray);
      log.Log(PaperPlaced(sessionNumber, trialNumber, paperNumber, placedTray.value, correctTray, isCorrect));
      log.ShowFeedback(isCorrect, config.timing.headStillnessDuration);
      AppendFour(before, spawned, grabbed, Mark(PaperPlaced(sessionNumber, trialNumber, paperNumber, placedTray.value,
                                                           correctTray, isCorrect)),
                 Feedback(isCorrect, config.timing.headStillnessDuration));
      return Finished, c.(event := pos);
    }
  }
}
