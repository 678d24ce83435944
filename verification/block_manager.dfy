/**
 * `BlockManager.RunBlock`: the BlockStart marker, the block's trials one after another, the
 * BlockEnd marker.
 *
 * The block never installs a colour mapping: its trials look up whatever mapping the trial
 * controller holds, which is a parameter (`mapping`) of the functions here.
 */
module Blocks {
  import opened Wrappers
  import opened ExperimentConfig
  import opened Markers
  import opened Runs
  import opened ColorMaps
  import opened TrialControl
  import K = StepKinds

  /**
   * What running one trial yields, given the session number, the block number, the trial's
   * global number, its condition and where the inputs stand.
   */
  type TrialRunner = (int, int, int, TrialCondition, Cursor) -> Run

  /** `TrialController.RunTrial`, with the controller's mapping. */
  function Runner(config: Config, mapping: Option<ColorMap>, w: World): TrialRunner {
    (session: int, block: int, trial: int, condition: TrialCondition, c: Cursor) =>
      TrialRun(session, block, trial, condition, config, mapping, w, c)
  }

  /**
   * `trial` gives what `TrialRun` gives, trial by trial. Every proof about a method that runs
   * trials is stated for any such runner: it then sees one trial at a time, at the call that
   * runs it. `Runner` is one (`RunnerDrives`), and all of them run the same blocks
   * (`DrivesBlockRun`).
   */
  ghost predicate Drives(trial: TrialRunner, config: Config, mapping: Option<ColorMap>, w: World) {
    forall session: int, block: int, t: int, condition: TrialCondition, c: Cursor
      {:trigger TrialRun(session, block, t, condition, config, mapping, w, c)} ::
      trial(session, block, t, condition, c) == TrialRun(session, block, t, condition, config, mapping, w, c)
  }

  lemma DrivesTrial(trial: TrialRunner, config: Config, mapping: Option<ColorMap>, w: World,
                    session: int, block: int, t: int, condition: TrialCondition, c: Cursor)
    requires Drives(trial, config, mapping, w)
    ensures trial(session, block, t, condition, c) == TrialRun(session, block, t, condition, config, mapping, w, c)
  {
  }

  lemma RunnerDrives(config: Config, mapping: Option<ColorMap>, w: World)
    ensures Drives(Runner(config, mapping, w), config, mapping, w)
  {
  }

  /**
   * Trials `start`, `start + 1`, ... of the block with the given conditions, each run to its end
   * before the next begins; the run stops at the first trial that does not finish.
   */
  function Trials(session: int, block: int, start: int, conds: seq<TrialCondition>, trial: TrialRunner,
                  c: Cursor): Run
    decreases |conds|
  {
    if |conds| == 0 then Run([], Finished, c)
    else
      var prev := Trials(session, block, start, conds[..|conds| - 1], trial, c);
      if !prev.outcome.Finished? then prev
      else
        var t := trial(session, block, start + |conds| - 1, conds[|conds| - 1], prev.next);
        Run(prev.steps + t.steps, t.outcome, t.next)
  }

  /** The next trial runs only when the ones before it finished, and its steps follow theirs. */
  lemma TrialsStep(session: int, block: int, start: int, conds: seq<TrialCondition>, trial: TrialRunner,
                   c: Cursor, i: nat)
    requires i < |conds| && Trials(session, block, start, conds[..i], trial, c).outcome.Finished?
    ensures var prev := Trials(session, block, start, conds[..i], trial, c);
      var t := trial(session, block, start + i, conds[i], prev.next);
      Trials(session, block, start, conds[..i + 1], trial, c) == Run(prev.steps + t.steps, t.outcome, t.next)
  {
    assert conds[..i + 1][..i] == conds[..i];
  }

  /** Once a prefix of the trials stops short, the later trials are never run. */
  lemma {:induction false} TrialsStop(session: int, block: int, start: int, conds: seq<TrialCondition>,
                                      trial: TrialRunner, c: Cursor, j: nat)
    requires j <= |conds| && !Trials(session, block, start, conds[..j], trial, c).outcome.Finished?
    ensures Trials(session, block, start, conds, trial, c) == Trials(session, block, start, conds[..j], trial, c)
    decreases |conds| - j
  {
    if j < |conds| {
      var init := conds[..|conds| - 1];
      assert init[..j] == conds[..j];
      TrialsStop(session, block, start, init, trial, c, j);
    } else {
      assert conds[..j] == conds;
    }
  }

  /** Trials whose every run avoids throwing never throw either. */
  lemma {:induction false} TrialsNeverCrash(session: int, block: int, start: int, conds: seq<TrialCondition>,
                                            trial: TrialRunner, c: Cursor)
    requires forall s: int, b: int, t: int, condition: TrialCondition, c: Cursor ::
      !trial(s, b, t, condition, c).outcome.Crashed?
    ensures !Trials(session, block, start, conds, trial, c).outcome.Crashed?
    decreases |conds|
  {
    if |conds| > 0 {
      TrialsNeverCrash(session, block, start, conds[..|conds| - 1], trial, c);
    }
  }

  /** Runners that agree on every trial run the same trials. */
  lemma {:induction false} TrialsAgree(session: int, block: int, start: int, conds: seq<TrialCondition>,
                                       trial: TrialRunner, other: TrialRunner, c: Cursor)
    requires forall s: int, b: int, t: int, condition: TrialCondition, c: Cursor ::
      trial(s, b, t, condition, c) == other(s, b, t, condition, c)
    ensures Trials(session, block, start, conds, trial, c) == Trials(session, block, start, conds, other, c)
    decreases |conds|
  {
    if |conds| > 0 {
      TrialsAgree(session, block, start, conds[..|conds| - 1], trial, other, c);
    }
  }

  /** Trial `t` opens with its number and condition and closes with its number exactly when it finishes. */
  ghost predicate MarksTrial(trial: TrialRunner, session: int, block: int, t: int, condition: TrialCondition,
                             c: Cursor) {
    TrialMarks(trial(session, block, t, condition, c).steps)
    == (if trial(session, block, t, condition, c).outcome.Finished? then [Opened(t, condition), Closed(t)]
        else [Opened(t, condition)])
  }

  ghost predicate MarksTrials(trial: TrialRunner) {
    forall session: int, block: int, t: int, condition: TrialCondition, c: Cursor ::
      MarksTrial(trial, session, block, t, condition, c)
  }

  /** Trial `t` makes only trial-level steps. */
  ghost predicate KeepsTrialKind(trial: TrialRunner, session: int, block: int, t: int, condition: TrialCondition,
                                 c: Cursor) {
    KindsIn(trial(session, block, t, condition, c).steps, TrialKinds)
  }

  ghost predicate KeepsTrialKinds(trial: TrialRunner) {
    forall session: int, block: int, t: int, condition: TrialCondition, c: Cursor ::
      KeepsTrialKind(trial, session, block, t, condition, c)
  }

  /** A runner that drives `TrialRun` marks its trials and keeps to the trial's kinds of step. */
  lemma DrivesRunsTrials(trial: TrialRunner, config: Config, mapping: Option<ColorMap>, w: World)
    requires Drives(trial, config, mapping, w)
    ensures MarksTrials(trial) && KeepsTrialKinds(trial)
  {
    forall session: int, block: int, t: int, condition: TrialCondition, c: Cursor
      ensures MarksTrial(trial, session, block, t, condition, c) && KeepsTrialKind(trial, session, block, t, condition, c)
    {
      TrialMarksOfTrial(session, block, t, condition, config, mapping, w, c);
    }
  }

  /**
   * The trial markers of trials `start`, `start + 1`, ... when `done` of them finished: each
   * opened with its condition and closed before the next opened; then, if not all finished,
   * the opening of the one that stopped.
   */
  function MarksUpTo(start: int, conds: seq<TrialCondition>, done: nat): seq<TrialMark>
    requires done <= |conds|
  {
    Alternating(start, conds[..done]) + (if done < |conds| then [Opened(start + done, conds[done])] else [])
  }

  /**
   * `r`'s trial markers number the trials with conditions `conds` from `first` on, each opened
   * with its condition and closed before the next opens. `done` of them finish, which is all of
   * them exactly when `r` finishes; otherwise the next one has opened and `r` stops there.
   */
  ghost predicate Numbered(r: Run, first: int, conds: seq<TrialCondition>, done: nat) {
    && done <= |conds|
    && (r.outcome.Finished? <==> done == |conds|)
    && TrialMarks(r.steps) == MarksUpTo(first, conds, done)
  }

  /** The trial markers of a block's trials: trial `start + i` opens with the i-th condition. */
  lemma {:induction false} TrialsMarks(session: int, block: int, start: int, conds: seq<TrialCondition>, trial: TrialRunner, c: Cursor)
    returns (done: nat)
    requires MarksTrials(trial)
    ensures Numbered(Trials(session, block, start, conds, trial, c), start, conds, done)
    decreases |conds|
  {
    if |conds| == 0 {
      return 0;
    }
    var n := |conds|;
    var init := conds[..n - 1];
    var prev := Trials(session, block, start, init, trial, c);
    var d := TrialsMarks(session, block, start, init, trial, c);
    if !prev.outcome.Finished? {
      TrialsStop(session, block, start, conds, trial, c, n - 1);
      MarksUpToPrefix(start, conds, d);
      assert Trials(session, block, start, conds, trial, c) == prev;
      return d;
    }
    var t := trial(session, block, start + n - 1, conds[n - 1], prev.next);
    assert MarksTrial(trial, session, block, start + n - 1, conds[n - 1], prev.next);
    TrialsStep(session, block, start, conds, trial, c, n - 1);
    assert conds[..n] == conds;
    var r := Trials(session, block, start, conds, trial, c);
    assert r == Run(prev.steps + t.steps, t.outcome, t.next);
    ProjectAppend(prev.steps, t.steps, TrialMarkOf);
    MarksUpToStep(start, conds, t.outcome.Finished?);
    done := if t.outcome.Finished? then n else n - 1;
    assert TrialMarks(r.steps) == MarksUpTo(start, conds, done);
  }

  /** When a trial before the last one stops, the last one changes nothing. */
  lemma MarksUpToPrefix(start: int, conds: seq<TrialCondition>, done: nat)
    requires done < |conds| - 1
    ensures MarksUpTo(start, conds[..|conds| - 1], done) == MarksUpTo(start, conds, done)
  {
    var init := conds[..|conds| - 1];
    assert init[..done] == conds[..done];
  }

  /** The last trial adds its opening, and its closing if it finished. */
  lemma MarksUpToStep(start: int, conds: seq<TrialCondition>, finished: bool)
    requires |conds| > 0
    ensures var n := |conds|;
      MarksUpTo(start, conds[..n - 1], n - 1)
        + (if finished then [Opened(start + n - 1, conds[n - 1]), Closed(start + n - 1)]
           else [Opened(start + n - 1, conds[n - 1])])
      == MarksUpTo(start, conds, if finished then n else n - 1)
  {
    var n := |conds|;
    var init := conds[..n - 1];
    assert init[..n - 1] == init;
    if finished {
      AlternatingSnoc(start, init, conds[n - 1]);
      assert init + [conds[n - 1]] == conds[..n] == conds;
    }
  }

  /** One more trial, closed, extends a run of alternating marks. */
  lemma {:induction false} AlternatingSnoc(start: int, conds: seq<TrialCondition>, x: TrialCondition)
    ensures Alternating(start, conds + [x]) == Alternating(start, conds) + [Opened(start + |conds|, x), Closed(start + |conds|)]
  {
    AlternatingAppend(start, conds, [x]);
    assert [x][1..] == [];
  }

  /** A block's trials make only trial-level steps. */
  lemma {:induction false} TrialsKinds(session: int, block: int, start: int, conds: seq<TrialCondition>, trial: TrialRunner, c: Cursor)
    requires KeepsTrialKinds(trial)
    ensures KindsIn(Trials(session, block, start, conds, trial, c).steps, TrialKinds)
    decreases |conds|
  {
    if |conds| > 0 {
      var n := |conds|;
      var init := conds[..n - 1];
      var prev := Trials(session, block, start, init, trial, c);
      TrialsKinds(session, block, start, init, trial, c);
      if prev.outcome.Finished? {
        var t := trial(session, block, start + n - 1, conds[n - 1], prev.next);
        assert KeepsTrialKind(trial, session, block, start + n - 1, conds[n - 1], prev.next);
        KindsInAppend(prev.steps, t.steps, TrialKinds);
      }
    }
  }

  /** A block: BlockStart announcing the trial count, the trials, and BlockEnd once they all finish. */
  function BlockRun(session: int, block: int, start: int, conds: seq<TrialCondition>, trial: TrialRunner,
                    c: Cursor): (r: Run)
    ensures r.outcome == Trials(session, block, start, conds, trial, c).outcome
    ensures |r.steps| >= 1 && r.steps[0] == Mark(BlockStart(session, block, |conds|))
    ensures r.outcome.Finished? ==> r.steps[|r.steps| - 1] == Mark(BlockEnd(session, block))
  {
    var body := Trials(session, block, start, conds, trial, c);
    var steps := [Mark(BlockStart(session, block, |conds|))] + body.steps;
    if body.outcome.Finished? then Run(steps + [Mark(BlockEnd(session, block))], Finished, body.next)
    else Run(steps, body.outcome, body.next)
  }

  /** All runners that drive `TrialRun` run the same block as `Runner`. */
  lemma DrivesBlockRun(session: int, block: int, start: int, conds: seq<TrialCondition>, trial: TrialRunner,
                       config: Config, mapping: Option<ColorMap>, w: World, c: Cursor)
    requires Drives(trial, config, mapping, w)
    ensures BlockRun(session, block, start, conds, trial, c)
            == BlockRun(session, block, start, conds, Runner(config, mapping, w), c)
  {
    var runner := Runner(config, mapping, w);
    forall s: int, b: int, t: int, condition: TrialCondition, c: Cursor
      ensures trial(s, b, t, condition, c) == runner(s, b, t, condition, c)
    {
      assert runner(s, b, t, condition, c) == TrialRun(s, b, t, condition, config, mapping, w, c);
    }
    TrialsAgree(session, block, start, conds, trial, runner, c);
  }

  /**
   * A block run after `SetupBlockColorMapping` has installed the mapping for the configured
   * colours (under either condition) never throws: every trial reaches its paper.
   */
  lemma MappedBlockNeverCrashes(session: int, block: int, start: int, conds: seq<TrialCondition>,
                                config: Config, blockCondition: TrialCondition, rng: nat -> nat, draw: nat,
                                w: World, c: Cursor)
    requires |config.taskSettings.colors| > 0
    ensures var m := Mapping(blockCondition, config.taskSettings.colors, rng, draw);
      !BlockRun(session, block, start, conds, Runner(config, Some(m), w), c).outcome.Crashed?
  {
    var m := Mapping(blockCondition, config.taskSettings.colors, rng, draw);
    var runner := Runner(config, Some(m), w);
    forall s: int, b: int, t: int, condition: TrialCondition, c': Cursor
      ensures !runner(s, b, t, condition, c').outcome.Crashed?
    {
      InstalledMappingNeverCrashes(s, b, t, condition, config, blockCondition, rng, draw, w, c');
    }
    TrialsNeverCrash(session, block, start, conds, runner, c);
  }

  /** The kinds of step a block makes: its trials' and its two brackets. */
  const BlockKinds: seq<K.Kind> := TrialKinds + [K.BlockStart, K.BlockEnd]

  /** A block's steps: its opening, its trials', and its closing if they all finished. */
  lemma BlockSteps(session: int, block: int, start: int, conds: seq<TrialCondition>, trial: TrialRunner, c: Cursor)
    ensures var body := Trials(session, block, start, conds, trial, c);
      BlockRun(session, block, start, conds, trial, c).steps
      == [Mark(BlockStart(session, block, |conds|))] + body.steps
         + (if body.outcome.Finished? then [Mark(BlockEnd(session, block))] else [])
  {
  }

  /** A block announces itself once, with its number and trial count, at its BlockStart. */
  lemma BlockStartsOfBlock(session: int, block: int, start: int, conds: seq<TrialCondition>, trial: TrialRunner,
                           c: Cursor)
    requires KeepsTrialKinds(trial)
    ensures BlockStarts(BlockRun(session, block, start, conds, trial, c).steps) == [(block, |conds|)]
  {
    var body := Trials(session, block, start, conds, trial, c);
    var opening := Mark(BlockStart(session, block, |conds|));
    var tail := if body.outcome.Finished? then [Mark(BlockEnd(session, block))] else [];
    BlockSteps(session, block, start, conds, trial, c);
    TrialsKinds(session, block, start, conds, trial, c);
    NoBlockStarts(body.steps, TrialKinds);
    ProjectAround(opening, body.steps, tail, BlockStartOf);
    ProjectSingle(opening, BlockStartOf);
    if body.outcome.Finished? {
      ProjectSingle(tail[0], BlockStartOf);
    }
  }

  /** A block shows no rest screen. */
  lemma RestsOfBlock(session: int, block: int, start: int, conds: seq<TrialCondition>, trial: TrialRunner, c: Cursor)
    requires KeepsTrialKinds(trial)
    ensures Rests(BlockRun(session, block, start, conds, trial, c).steps) == []
  {
    var body := Trials(session, block, start, conds, trial, c);
    var opening := Mark(BlockStart(session, block, |conds|));
    var tail := if body.outcome.Finished? then [Mark(BlockEnd(session, block))] else [];
    BlockSteps(session, block, start, conds, trial, c);
    TrialsKinds(session, block, start, conds, trial, c);
    NoRests(body.steps, TrialKinds);
    ProjectAround(opening, body.steps, tail, RestOf);
    ProjectSingle(opening, RestOf);
    if body.outcome.Finished? {
      ProjectSingle(tail[0], RestOf);
    }
  }

  /** A block's trial markers are its trials'. */
  lemma TrialMarksOfBlock(session: int, block: int, start: int, conds: seq<TrialCondition>, trial: TrialRunner,
                          c: Cursor)
    ensures TrialMarks(BlockRun(session, block, start, conds, trial, c).steps)
            == TrialMarks(Trials(session, block, start, conds, trial, c).steps)
  {
    var body := Trials(session, block, start, conds, trial, c);
    var opening := Mark(BlockStart(session, block, |conds|));
    var tail := if body.outcome.Finished? then [Mark(BlockEnd(session, block))] else [];
    BlockSteps(session, block, start, conds, trial, c);
    ProjectAround(opening, body.steps, tail, TrialMarkOf);
    ProjectSingle(opening, TrialMarkOf);
    if body.outcome.Finished? {
      ProjectSingle(tail[0], TrialMarkOf);
    }
  }

  /** A block numbers its trials as its trial loop does. */
  lemma BlockMarks(session: int, block: int, start: int, conds: seq<TrialCondition>, trial: TrialRunner, c: Cursor)
    returns (done: nat)
    requires MarksTrials(trial)
    ensures Numbered(BlockRun(session, block, start, conds, trial, c), start, conds, done)
  {
    done := TrialsMarks(session, block, start, conds, trial, c);
    TrialMarksOfBlock(session, block, start, conds, trial, c);
  }

  /** Every step of a block is a trial step or one of its two brackets. */
  lemma KindsOfBlock(session: int, block: int, start: int, conds: seq<TrialCondition>, trial: TrialRunner, c: Cursor)
    requires KeepsTrialKinds(trial)
    ensures KindsIn(BlockRun(session, block, start, conds, trial, c).steps, BlockKinds)
  {
    var body := Trials(session, block, start, conds, trial, c);
    var opening := Mark(BlockStart(session, block, |conds|));
    var tail := if body.outcome.Finished? then [Mark(BlockEnd(session, block))] else [];
    BlockSteps(session, block, start, conds, trial, c);
    TrialsKinds(session, block, start, conds, trial, c);
    KindsInWiden(body.steps, TrialKinds, BlockKinds);
    assert KindsIn([opening], BlockKinds) && KindsIn(tail, BlockKinds);
    KindsInAppend([opening], body.steps, BlockKinds);
    KindsInAppend([opening] + body.steps, tail, BlockKinds);
  }

  /** `RunTrial` on `controller`, as a runner that drives it describes it. */
  method RunTrialOf(controller: TrialController, session: int, block: int, trialNumber: int,
                    condition: TrialCondition, config: Config, w: World, c: Cursor, ghost trial: TrialRunner)
    returns (outcome: Outcome, next: Cursor)
    requires Drives(trial, config, controller.currentColorMapping, w)
    modifies controller.log
    ensures var r := trial(session, block, trialNumber, condition, c);
      controller.log.steps == old(controller.log.steps) + r.steps && outcome == r.outcome && next == r.next
  {
    outcome, next := controller.RunTrial(session, block, trialNumber, condition, config, w, c);
    DrivesTrial(trial, config, controller.currentColorMapping, w, session, block, trialNumber, condition, c);
  }

  /**
   * The block's loop: trial `startingTrialNumber + i` with `conditions[i]` for each i in turn,
   * stopping at a trial that does not finish.
   */
  method RunTrials(controller: TrialController, sessionNumber: int, blockNumber: int, startingTrialNumber: int,
                   conditions: array<TrialCondition>, config: Config, w: World, c: Cursor, ghost trial: TrialRunner)
    returns (outcome: Outcome, next: Cursor)
    requires Drives(trial, config, controller.currentColorMapping, w)
    modifies controller.log
    ensures var r := Trials(sessionNumber, blockNumber, startingTrialNumber, conditions[..], trial, c);
      controller.log.steps == old(controller.log.steps) + r.steps && outcome == r.outcome && next == r.next
  {
    ghost var mapping := controller.currentColorMapping;
    ghost var conds := conditions[..];
    ghost var done := Trials(sessionNumber, blockNumber, startingTrialNumber, [], trial, c);
    next := c;
    var i := 0;
    while i < conditions.Length
      invariant 0 <= i <= conditions.Length == |conds|
      invariant controller.currentColorMapping == mapping && conditions[..] == conds
      invariant done == Trials(sessionNumber, blockNumber, startingTrialNumber, conds[..i], trial, c)
      invariant done.outcome.Finished? && controller.log.steps == old(controller.log.steps) + done.steps
      invariant next == done.next
    {
      var globalTrialNumber := startingTrialNumber + i;
      var condition := conditions[i];
      outcome, next := RunTrialOf(controller, sessionNumber, blockNumber, globalTrialNumber, condition,
                                  config, w, next, trial);
      ghost var t := trial(sessionNumber, blockNumber, startingTrialNumber + i, conds[i], done.next);
      TrialsStep(sessionNumber, blockNumber, startingTrialNumber, conds, trial, c, i);
      AppendTwo(old(controller.log.steps), done.steps, t.steps);
      done := Run(done.steps + t.steps, t.outcome, t.next);
      if outcome != Finished {
        TrialsStop(sessionNumber, blockNumber, startingTrialNumber, conds, trial, c, i + 1);
        return;
      }
      i := i + 1;
    }
    assert conds[..i] == conds;
    outcome := Finished;
  }

  class BlockManager {
    const trialController: TrialController
    /** The marker logger, shared with the trial controller. */
    const log: Timeline

    constructor (trialController: TrialController)
      ensures this.trialController == trialController && log == trialController.log
    {
      this.trialController := trialController;
      log := trialController.log;
    }

    /** The block's markers and its trials' go to the same logger. */
    predicate Valid() {
      trialController.log == log
    }

    /**
     * Runs the block: BlockStart, its trials, and BlockEnd once they all finish. The mapping the
     * trials use is the controller's, which the block leaves alone. `trial` is any runner that
     * drives `TrialRun` with that mapping.
     */
    method RunBlock(sessionNumber: int, blockNumber: int, startingTrialNumber: int,
                    conditions: array<TrialCondition>, config: Config, w: World, c: Cursor, ghost trial: TrialRunner)
      returns (outcome: Outcome, next: Cursor)
      requires Valid() && Drives(trial, config, trialController.currentColorMapping, w)
      modifies log
      ensures var r := BlockRun(sessionNumber, blockNumber, startingTrialNumber, conditions[..], trial, c);
        log.steps == old(log.steps) + r.steps && outcome == r.outcome && next == r.next
    {
      log.Log(BlockStart(sessionNumber, blockNumber, conditions.Length));
      outcome, next := RunTrials(trialController, sessionNumber, blockNumber, startingTrialNumber, conditions, config, w, c, trial);
      if outcome == Finished {
        log.Log(BlockEnd(sessionNumber, blockNumber));
      }
      BlockSteps(sessionNumber, blockNumber, startingTrialNumber, conditions[..], trial, c);
    }

  }
}
