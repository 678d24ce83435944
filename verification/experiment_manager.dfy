/**
 * `ExperimentManager`: the experiment's state progression, its two sessions, each session's
 * blocks with the rest screens between them, and the guard in `Start`.
 *
 * As in the block layer, the functions here are stated for any trial runner; the methods take
 * one that drives `TrialRun` with the controller's mapping (`Blocks.Drives`).
 */
module Experiment {
  import opened Wrappers
  import opened ExperimentConfig
  import opened Markers
  import opened Runs
  import opened ColorMaps
  import opened TrialControl
  import opened Blocks
  import K = StepKinds

  // ------------------------------------------------------------------ conditions

  /** A block's per-trial string: exactly "C" is Control, anything else is Confusion. */
  function ConditionOf(trial: string): (c: TrialCondition)
    ensures c == Control <==> trial == "C"
  {
    if trial == "C" then Control else Confusion
  }

  /** A block's conditions, one per trial string. */
  function Conditions(trials: seq<string>): seq<TrialCondition> {
    seq(|trials|, i requires 0 <= i < |trials| => ConditionOf(trials[i]))
  }

  /** The trials a session's first `k` blocks hold, in running order. */
  function AllConds(blocks: seq<BlockConfig>, k: nat): seq<TrialCondition>
    requires k <= |blocks|
    decreases k
  {
    if k == 0 then [] else AllConds(blocks, k - 1) + Conditions(blocks[k - 1].trials)
  }

  lemma {:induction false} BlockTrialCountAppend(a: seq<BlockConfig>, b: seq<BlockConfig>)
    ensures BlockTrialCount(a + b) == BlockTrialCount(a) + BlockTrialCount(b)
    decreases |a|
  {
    if a != [] {
      assert (a + b)[1..] == a[1..] + b;
      BlockTrialCountAppend(a[1..], b);
    } else {
      assert a + b == b;
    }
  }

  /** One more block adds its trial strings to the count. */
  lemma BlockTrialCountStep(blocks: seq<BlockConfig>, k: nat)
    requires k < |blocks|
    ensures BlockTrialCount(blocks[..k + 1]) == BlockTrialCount(blocks[..k]) + |blocks[k].trials|
  {
    assert blocks[..k + 1] == blocks[..k] + [blocks[k]];
    BlockTrialCountAppend(blocks[..k], [blocks[k]]);
    assert [blocks[k]][1..] == [];
  }

  /** A session's first `k` blocks hold as many trials as their trial strings count. */
  lemma {:induction false} AllCondsCount(blocks: seq<BlockConfig>, k: nat)
    requires k <= |blocks|
    ensures |AllConds(blocks, k)| == BlockTrialCount(blocks[..k])
    decreases k
  {
    if k > 0 {
      AllCondsCount(blocks, k - 1);
      BlockTrialCountStep(blocks, k - 1);
    }
  }

  // -------------------------------------------------------------------- sessions

  /** The global number of the first trial of block `k` (0-based): numbering starts at 1 in every session. */
  function FirstTrial(blocks: seq<BlockConfig>, k: nat): int
    requires k <= |blocks|
  {
    1 + BlockTrialCount(blocks[..k])
  }

  /**
   * Block `k` (numbered from 1) after the run `prev` of the blocks before it: once those all
   * finished, block k is announced with number k, its trials are numbered on from the blocks
   * before it, and a rest screen follows it when it finishes unless it is the session's last.
   */
  function NextBlock(session: int, blocks: seq<BlockConfig>, k: nat, restDuration: real, trial: TrialRunner,
                     prev: Run): Run
    requires 0 < k <= |blocks|
  {
    if !prev.outcome.Finished? then prev
    else
      var b := BlockRun(session, k, FirstTrial(blocks, k - 1), Conditions(blocks[k - 1].trials), trial, prev.next);
      var rest := if b.outcome.Finished? && k < |blocks| then [Rest(restDuration)] else [];
      Run(prev.steps + b.steps + rest, b.outcome, b.next)
  }

  /** The first `k` blocks of a session; the run stops at the first block that does not finish. */
  function SessionBlocks(session: int, blocks: seq<BlockConfig>, k: nat, restDuration: real, trial: TrialRunner,
                         c: Cursor): Run
    requires k <= |blocks|
    decreases k
  {
    if k == 0 then Run([], Finished, c)
    else NextBlock(session, blocks, k, restDuration, trial, SessionBlocks(session, blocks, k - 1, restDuration, trial, c))
  }

  /** Once a session's run stops at a block, the later blocks are never run. */
  lemma {:induction false} SessionBlocksStop(session: int, blocks: seq<BlockConfig>, k: nat, j: nat,
                                             restDuration: real, trial: TrialRunner, c: Cursor)
    requires j <= k <= |blocks|
    requires !SessionBlocks(session, blocks, j, restDuration, trial, c).outcome.Finished?
    ensures SessionBlocks(session, blocks, k, restDuration, trial, c)
            == SessionBlocks(session, blocks, j, restDuration, trial, c)
    decreases k
  {
    if j < k {
      SessionBlocksStop(session, blocks, k - 1, j, restDuration, trial, c);
    }
  }

  /** When the run stops inside `xs`, trials after `xs` change nothing in its marks. */
  lemma MarksUpToExtend(start: int, xs: seq<TrialCondition>, ys: seq<TrialCondition>, d: nat)
    requires d < |xs|
    ensures MarksUpTo(start, xs, d) == MarksUpTo(start, xs + ys, d)
  {
    assert (xs + ys)[..d] == xs[..d];
  }

  /** All of `xs` finished, then `d` trials of `ys`: the marks continue the numbering. */
  lemma MarksUpToJoin(start: int, xs: seq<TrialCondition>, ys: seq<TrialCondition>, d: nat)
    requires d <= |ys|
    ensures Alternating(start, xs) + MarksUpTo(start + |xs|, ys, d) == MarksUpTo(start, xs + ys, |xs| + d)
  {
    AlternatingAppend(start, xs, ys[..d]);
    assert (xs + ys)[..|xs| + d] == xs + ys[..d];
  }

  /** Trial numbering in a session: its trials are numbered 1, 2, ... across its blocks. */
  lemma {:induction false} SessionBlocksMarks(session: int, blocks: seq<BlockConfig>, k: nat, restDuration: real,
                                              trial: TrialRunner, c: Cursor)
    returns (done: nat)
    requires k <= |blocks| && MarksTrials(trial)
    ensures Numbered(SessionBlocks(session, blocks, k, restDuration, trial, c), 1, AllConds(blocks, k), done)
    decreases k
  {
    if k == 0 {
      return 0;
    }
    var prev := SessionBlocks(session, blocks, k - 1, restDuration, trial, c);
    var d := SessionBlocksMarks(session, blocks, k - 1, restDuration, trial, c);
    if !prev.outcome.Finished? {
      MarksUpToExtend(1, AllConds(blocks, k - 1), Conditions(blocks[k - 1].trials), d);
      return d;
    }
    done := NextMarks(session, blocks, k, restDuration, trial, prev);
  }

  /** Block k continues the numbering of the finished trials before it. */
  lemma NextMarks(session: int, blocks: seq<BlockConfig>, k: nat, restDuration: real, trial: TrialRunner, prev: Run)
    returns (done: nat)
    requires 0 < k <= |blocks| && MarksTrials(trial)
    requires Numbered(prev, 1, AllConds(blocks, k - 1), |AllConds(blocks, k - 1)|)
    ensures Numbered(NextBlock(session, blocks, k, restDuration, trial, prev), 1, AllConds(blocks, k), done)
  {
    var before := AllConds(blocks, k - 1);
    var conds := Conditions(blocks[k - 1].trials);
    var start := FirstTrial(blocks, k - 1);
    AllCondsCount(blocks, k - 1);
    var b := BlockRun(session, k, start, conds, trial, prev.next);
    var rest := NextBlockShape(session, blocks, k, restDuration, trial, prev);
    var bd := BlockMarks(session, k, start, conds, trial, prev.next);
    NumberedJoin(prev, b, rest, restDuration, before, conds, bd);
    done := |before| + bd;
  }

  /** A block's trial marks after a run of finished trials continue its numbering. */
  lemma NumberedJoin(prev: Run, b: Run, rest: seq<Step>, restDuration: real, before: seq<TrialCondition>,
                     conds: seq<TrialCondition>, d: nat)
    requires Numbered(prev, 1, before, |before|) && Numbered(b, 1 + |before|, conds, d)
    requires rest == [] || rest == [Rest(restDuration)]
    ensures Numbered(Run(prev.steps + b.steps + rest, b.outcome, b.next), 1, before + conds, |before| + d)
  {
    assert before[..|before|] == before;
    assert TrialMarks(prev.steps) == Alternating(1, before);
    if rest != [] {
      ProjectSingle(rest[0], TrialMarkOf);
    }
    assert TrialMarks(rest) == [];
    ProjectThree(prev.steps, b.steps, rest, TrialMarkOf);
    MarksUpToJoin(1, before, conds, d);
    assert TrialMarks(prev.steps + b.steps + rest) == Alternating(1, before) + MarksUpTo(1 + |before|, conds, d) + [];
  }

  /** The blocks a session announces when `m` of them have started: block i + 1 with its trial count. */
  function Announced(blocks: seq<BlockConfig>, m: nat): seq<(int, int)>
    requires m <= |blocks|
  {
    seq(m, i requires 0 <= i < m => (i + 1, |blocks[i].trials|))
  }

  /**
   * `r` announces a session's blocks 1, 2, ... in order, each with its number of trial strings;
   * `started` of its first `k` blocks begin, all of them when `r` finishes.
   */
  ghost predicate Announces(r: Run, blocks: seq<BlockConfig>, k: nat, started: nat) {
    && started <= k <= |blocks|
    && (r.outcome.Finished? ==> started == k)
    && BlockStarts(r.steps) == Announced(blocks, started)
  }

  /** Block numbering: a session's blocks are announced in order, all of them when it finishes. */
  lemma {:induction false} SessionBlocksStarts(session: int, blocks: seq<BlockConfig>, k: nat, restDuration: real,
                                               trial: TrialRunner, c: Cursor)
    returns (started: nat)
    requires k <= |blocks| && KeepsTrialKinds(trial)
    ensures Announces(SessionBlocks(session, blocks, k, restDuration, trial, c), blocks, k, started)
    decreases k
  {
    if k == 0 {
      return 0;
    }
    var prev := SessionBlocks(session, blocks, k - 1, restDuration, trial, c);
    started := SessionBlocksStarts(session, blocks, k - 1, restDuration, trial, c);
    if prev.outcome.Finished? {
      NextStarts(session, blocks, k, restDuration, trial, prev);
      started := k;
    }
  }

  /** Block k is announced after the k - 1 blocks before it. */
  lemma NextStarts(session: int, blocks: seq<BlockConfig>, k: nat, restDuration: real, trial: TrialRunner, prev: Run)
    requires 0 < k <= |blocks| && KeepsTrialKinds(trial)
    requires prev.outcome.Finished? && BlockStarts(prev.steps) == Announced(blocks, k - 1)
    ensures BlockStarts(NextBlock(session, blocks, k, restDuration, trial, prev).steps) == Announced(blocks, k)
  {
    var conds := Conditions(blocks[k - 1].trials);
    var start := FirstTrial(blocks, k - 1);
    var b := BlockRun(session, k, start, conds, trial, prev.next);
    var rest := NextBlockShape(session, blocks, k, restDuration, trial, prev);
    BlockStartsOfBlock(session, k, start, conds, trial, prev.next);
    ProjectThree(prev.steps, b.steps, rest, BlockStartOf);
    if rest != [] {
      ProjectSingle(rest[0], BlockStartOf);
    }
    AnnouncedStep(blocks, k);
  }

  /** Announcing one block more appends that block with its trial count. */
  lemma AnnouncedStep(blocks: seq<BlockConfig>, k: nat)
    requires 0 < k <= |blocks|
    ensures Announced(blocks, k) == Announced(blocks, k - 1) + [(k, |blocks[k - 1].trials|)]
  {
    assert Announced(blocks, k - 1) + [(k, |blocks[k - 1].trials|)] == Announced(blocks, k);
  }

  /** After a finished run, block k's steps follow, then the rest screen when block k finished and is not last. */
  lemma NextBlockShape(session: int, blocks: seq<BlockConfig>, k: nat, restDuration: real, trial: TrialRunner, prev: Run)
    returns (rest: seq<Step>)
    requires 0 < k <= |blocks| && prev.outcome.Finished?
    ensures var b := BlockRun(session, k, FirstTrial(blocks, k - 1), Conditions(blocks[k - 1].trials), trial, prev.next);
      && rest == (if b.outcome.Finished? && k < |blocks| then [Rest(restDuration)] else [])
      && NextBlock(session, blocks, k, restDuration, trial, prev) == Run(prev.steps + b.steps + rest, b.outcome, b.next)
  {
    var b := BlockRun(session, k, FirstTrial(blocks, k - 1), Conditions(blocks[k - 1].trials), trial, prev.next);
    rest := if b.outcome.Finished? && k < |blocks| then [Rest(restDuration)] else [];
  }

  /** Rests in a finished run of a session's first `k` blocks: one after each, except after the last block. */
  function RestsAfter(blocks: seq<BlockConfig>, k: nat): nat
    requires k <= |blocks|
  {
    if k == |blocks| && k > 0 then k - 1 else k
  }

  /** A rest screen of the block-rest duration follows every block but the session's last. */
  lemma {:induction false} SessionBlocksRests(session: int, blocks: seq<BlockConfig>, k: nat, restDuration: real,
                                              trial: TrialRunner, c: Cursor)
    requires k <= |blocks| && KeepsTrialKinds(trial)
    requires SessionBlocks(session, blocks, k, restDuration, trial, c).outcome.Finished?
    ensures Rests(SessionBlocks(session, blocks, k, restDuration, trial, c).steps)
            == seq(RestsAfter(blocks, k), _ => restDuration)
    decreases k
  {
    if k > 0 {
      var prev := SessionBlocks(session, blocks, k - 1, restDuration, trial, c);
      SessionBlocksRests(session, blocks, k - 1, restDuration, trial, c);
      NextRests(session, blocks, k, restDuration, trial, prev);
    }
  }

  /** Block k adds a rest screen after itself unless it is the last. */
  lemma NextRests(session: int, blocks: seq<BlockConfig>, k: nat, restDuration: real, trial: TrialRunner, prev: Run)
    requires 0 < k <= |blocks| && KeepsTrialKinds(trial)
    requires prev.outcome.Finished? && Rests(prev.steps) == seq(k - 1, _ => restDuration)
    requires NextBlock(session, blocks, k, restDuration, trial, prev).outcome.Finished?
    ensures Rests(NextBlock(session, blocks, k, restDuration, trial, prev).steps)
            == seq(RestsAfter(blocks, k), _ => restDuration)
  {
    var conds := Conditions(blocks[k - 1].trials);
    var start := FirstTrial(blocks, k - 1);
    var b := BlockRun(session, k, start, conds, trial, prev.next);
    var rest := NextBlockShape(session, blocks, k, restDuration, trial, prev);
    RestsOfBlock(session, k, start, conds, trial, prev.next);
    ProjectThree(prev.steps, b.steps, rest, RestOf);
    if rest != [] {
      ProjectSingle(rest[0], RestOf);
    }
  }

  /** The kinds of step inside a session: its blocks' and the rest screen. */
  const SessionKinds: seq<K.Kind> := BlockKinds + [K.Rest]

  /** Every step inside a session is a block's step or a rest screen. */
  lemma {:induction false} SessionBlocksKinds(session: int, blocks: seq<BlockConfig>, k: nat, restDuration: real,
                                              trial: TrialRunner, c: Cursor)
    requires k <= |blocks| && KeepsTrialKinds(trial)
    ensures KindsIn(SessionBlocks(session, blocks, k, restDuration, trial, c).steps, SessionKinds)
    decreases k
  {
    if k > 0 {
      var prev := SessionBlocks(session, blocks, k - 1, restDuration, trial, c);
      SessionBlocksKinds(session, blocks, k - 1, restDuration, trial, c);
      if prev.outcome.Finished? {
        NextKinds(session, blocks, k, restDuration, trial, prev);
      }
    }
  }

  /** Block k and its rest screen add only block steps and rests. */
  lemma NextKinds(session: int, blocks: seq<BlockConfig>, k: nat, restDuration: real, trial: TrialRunner, prev: Run)
    requires 0 < k <= |blocks| && KeepsTrialKinds(trial)
    requires prev.outcome.Finished? && KindsIn(prev.steps, SessionKinds)
    ensures KindsIn(NextBlock(session, blocks, k, restDuration, trial, prev).steps, SessionKinds)
  {
    var conds := Conditions(blocks[k - 1].trials);
    var start := FirstTrial(blocks, k - 1);
    var b := BlockRun(session, k, start, conds, trial, prev.next);
    var rest := if b.outcome.Finished? && k < |blocks| then [Rest(restDuration)] else [];
    KindsOfBlock(session, k, start, conds, trial, prev.next);
    KindsInWiden(b.steps, BlockKinds, SessionKinds);
    assert KindsIn(rest, SessionKinds);
    KindsInAppend(prev.steps, b.steps, SessionKinds);
    KindsInAppend(prev.steps + b.steps, rest, SessionKinds);
  }

  /** A session: SessionStart with its number and name, its blocks, and SessionEnd once they all finish. */
  function SessionRun(s: SessionConfig, restDuration: real, trial: TrialRunner, c: Cursor): (r: Run)
    ensures r.outcome == SessionBlocks(s.sessionNumber, s.blocks, |s.blocks|, restDuration, trial, c).outcome
    ensures |r.steps| >= 1 && r.steps[0] == Mark(SessionStart(s.sessionNumber, s.name))
    ensures r.outcome.Finished? ==> r.steps[|r.steps| - 1] == Mark(SessionEnd(s.sessionNumber, s.name))
  {
    var body := SessionBlocks(s.sessionNumber, s.blocks, |s.blocks|, restDuration, trial, c);
    var steps := [Mark(SessionStart(s.sessionNumber, s.name))] + body.steps;
    if body.outcome.Finished? then Run(steps + [Mark(SessionEnd(s.sessionNumber, s.name))], Finished, body.next)
    else Run(steps, body.outcome, body.next)
  }

  /** A session's steps: its opening, its blocks', and its closing if they all finished. */
  lemma SessionSteps(s: SessionConfig, restDuration: real, trial: TrialRunner, c: Cursor)
    ensures var body := SessionBlocks(s.sessionNumber, s.blocks, |s.blocks|, restDuration, trial, c);
      SessionRun(s, restDuration, trial, c).steps
      == [Mark(SessionStart(s.sessionNumber, s.name))] + body.steps
         + (if body.outcome.Finished? then [Mark(SessionEnd(s.sessionNumber, s.name))] else [])
  {
  }

  /**
   * Every session numbers its trials 1, 2, ... over all its blocks, whatever the sessions before
   * it did; the numbers a block gets continue from the lengths of the blocks before it.
   */
  lemma SessionNumbering(s: SessionConfig, restDuration: real, trial: TrialRunner, c: Cursor)
    returns (done: nat)
    requires MarksTrials(trial)
    ensures Numbered(SessionRun(s, restDuration, trial, c), 1, AllConds(s.blocks, |s.blocks|), done)
  {
    var body := SessionBlocks(s.sessionNumber, s.blocks, |s.blocks|, restDuration, trial, c);
    var opening := Mark(SessionStart(s.sessionNumber, s.name));
    var tail := if body.outcome.Finished? then [Mark(SessionEnd(s.sessionNumber, s.name))] else [];
    done := SessionBlocksMarks(s.sessionNumber, s.blocks, |s.blocks|, restDuration, trial, c);
    SessionSteps(s, restDuration, trial, c);
    ProjectAround(opening, body.steps, tail, TrialMarkOf);
    ProjectSingle(opening, TrialMarkOf);
    if tail != [] {
      ProjectSingle(tail[0], TrialMarkOf);
    }
  }

  /** A session announces its blocks 1, 2, ... in order with their sizes; all of them once it finishes. */
  lemma SessionBlockNumbering(s: SessionConfig, restDuration: real, trial: TrialRunner, c: Cursor)
    returns (started: nat)
    requires KeepsTrialKinds(trial)
    ensures Announces(SessionRun(s, restDuration, trial, c), s.blocks, |s.blocks|, started)
  {
    var body := SessionBlocks(s.sessionNumber, s.blocks, |s.blocks|, restDuration, trial, c);
    var opening := Mark(SessionStart(s.sessionNumber, s.name));
    var tail := if body.outcome.Finished? then [Mark(SessionEnd(s.sessionNumber, s.name))] else [];
    started := SessionBlocksStarts(s.sessionNumber, s.blocks, |s.blocks|, restDuration, trial, c);
    SessionSteps(s, restDuration, trial, c);
    ProjectAround(opening, body.steps, tail, BlockStartOf);
    ProjectSingle(opening, BlockStartOf);
    if tail != [] {
      ProjectSingle(tail[0], BlockStartOf);
    }
  }

  /** A finished session with b blocks shows b - 1 rest screens (none when it has no block). */
  lemma SessionRests(s: SessionConfig, restDuration: real, trial: TrialRunner, c: Cursor)
    requires KeepsTrialKinds(trial) && SessionRun(s, restDuration, trial, c).outcome.Finished?
    ensures |s.blocks| > 0 ==> Rests(SessionRun(s, restDuration, trial, c).steps) == seq(|s.blocks| - 1, _ => restDuration)
    ensures |s.blocks| == 0 ==> Rests(SessionRun(s, restDuration, trial, c).steps) == []
  {
    var body := SessionBlocks(s.sessionNumber, s.blocks, |s.blocks|, restDuration, trial, c);
    var opening := Mark(SessionStart(s.sessionNumber, s.name));
    var tail := [Mark(SessionEnd(s.sessionNumber, s.name))];
    SessionBlocksRests(s.sessionNumber, s.blocks, |s.blocks|, restDuration, trial, c);
    SessionSteps(s, restDuration, trial, c);
    ProjectAround(opening, body.steps, tail, RestOf);
    ProjectSingle(opening, RestOf);
    ProjectSingle(tail[0], RestOf);
  }

  /** The experiment and session brackets and the completion screen: the outline of a run. */
  function OutlineOf(x: Step): Option<Step> {
    match x
    case Mark(ExperimentStart) => Some(x)
    case Mark(ExperimentEnd) => Some(x)
    case Mark(SessionStart(_, _)) => Some(x)
    case Mark(SessionEnd(_, _)) => Some(x)
    case CompletionMessage => Some(x)
    case _ => None
  }

  function Outline(steps: seq<Step>): seq<Step> {
    Project(steps, OutlineOf)
  }

  /** Steps inside a session carry no bracket of a session or of the experiment. */
  lemma NoOutline(steps: seq<Step>)
    requires KindsIn(steps, SessionKinds)
    ensures Outline(steps) == []
  {
    forall i | 0 <= i < |steps| ensures OutlineOf(steps[i]).None? {
      assert KindOf(steps[i]) in SessionKinds;
    }
    ProjectNone(steps, OutlineOf);
  }

  /** SessionStart and SessionEnd bracket all of a session's blocks, with its number and name. */
  lemma SessionBracket(s: SessionConfig, restDuration: real, trial: TrialRunner, c: Cursor)
    requires KeepsTrialKinds(trial)
    ensures var r := SessionRun(s, restDuration, trial, c);
      Outline(r.steps) == [Mark(SessionStart(s.sessionNumber, s.name))]
        + (if r.outcome.Finished? then [Mark(SessionEnd(s.sessionNumber, s.name))] else [])
  {
    var body := SessionBlocks(s.sessionNumber, s.blocks, |s.blocks|, restDuration, trial, c);
    SessionBlocksKinds(s.sessionNumber, s.blocks, |s.blocks|, restDuration, trial, c);
    NoOutline(body.steps);
    SessionSteps(s, restDuration, trial, c);
    OutlineAround(s.sessionNumber, s.name, body.steps, body.outcome.Finished?);
  }

  /** Session brackets around steps without an outline are the whole outline. */
  lemma OutlineAround(n: int, name: string, body: seq<Step>, finished: bool)
    requires Outline(body) == []
    ensures var tail := if finished then [Mark(SessionEnd(n, name))] else [];
      Outline([Mark(SessionStart(n, name))] + body + tail) == [Mark(SessionStart(n, name))] + tail
  {
    var opening := Mark(SessionStart(n, name));
    var tail := if finished then [Mark(SessionEnd(n, name))] else [];
    ProjectAround(opening, body, tail, OutlineOf);
    ProjectSingle(opening, OutlineOf);
    if finished {
      ProjectSingle(tail[0], OutlineOf);
    }
  }

  /** A trial's string array converted to conditions, into a fresh array (ExperimentManager.cs:81-85). */
  method FillConditions(trials: seq<string>) returns (conditions: array<TrialCondition>)
    ensures fresh(conditions) && conditions[..] == Conditions(trials)
  {
    conditions := new TrialCondition[|trials|];
    for i := 0 to |trials|
      invariant conditions[..i] == Conditions(trials)[..i]
    {
      conditions[i] := if trials[i] == "C" then Control else Confusion;
    }
    assert conditions[..] == conditions[..|trials|];
  }

  // ------------------------------------------------------------------ experiment

  datatype ExperimentState =
    | NotStarted | InitialRest | RunningSession1 | InterSessionRest | RunningSession2 | Completed

  /** The states `RunExperiment` passes through, in order. */
  const StateOrder: seq<ExperimentState> :=
    [InitialRest, RunningSession1, InterSessionRest, RunningSession2, Completed]

  /**
   * The experiment: ExperimentStart, the initial rest, session 1, the inter-session rest,
   * session 2, ExperimentEnd and the completion message; it stops where a session stops.
   * Both sessions rest between blocks for the block-rest duration.
   */
  function ExperimentRun(config: Config, trial: TrialRunner, c: Cursor): (r: Run)
    ensures |r.steps| >= 2 && r.steps[0] == Mark(ExperimentStart) && r.steps[1] == Rest(config.timing.initialRestDuration)
    ensures r.outcome.Finished? ==> r.steps[|r.steps| - 2..] == [Mark(ExperimentEnd), CompletionMessage]
  {
    var opening := [Mark(ExperimentStart), Rest(config.timing.initialRestDuration)];
    var s1 := SessionRun(config.session1, config.timing.blockRestDuration, trial, c);
    if !s1.outcome.Finished? then Run(opening + s1.steps, s1.outcome, s1.next)
    else
      var s2 := SessionRun(config.session2, config.timing.blockRestDuration, trial, s1.next);
      var steps := opening + s1.steps + [Rest(config.timing.interSessionRestDuration)] + s2.steps;
      if !s2.outcome.Finished? then Run(steps, s2.outcome, s2.next)
      else Run(steps + [Mark(ExperimentEnd), CompletionMessage], Finished, s2.next)
  }

  /** The states the experiment enters: up to the session it stops in, or all of them. */
  function StatesEntered(config: Config, trial: TrialRunner, c: Cursor): seq<ExperimentState> {
    var s1 := SessionRun(config.session1, config.timing.blockRestDuration, trial, c);
    if !s1.outcome.Finished? then StateOrder[..2]
    else if !SessionRun(config.session2, config.timing.blockRestDuration, trial, s1.next).outcome.Finished?
    then StateOrder[..4]
    else StateOrder
  }

  /**
   * The state only moves forward through InitialRest, RunningSession1, InterSessionRest,
   * RunningSession2, Completed: each state entered once, in that order, and Completed is
   * reached exactly when the experiment finishes; the second session runs only after the first finished.
   */
  lemma StatesInOrder(config: Config, trial: TrialRunner, c: Cursor)
    ensures var e := StatesEntered(config, trial, c);
      && 2 <= |e| <= |StateOrder| && e == StateOrder[..|e|]
      && (forall i, j :: 0 <= i < j < |e| ==> e[i] != e[j])
      && (Completed in e <==> ExperimentRun(config, trial, c).outcome.Finished?)
      && (RunningSession2 in e <==> SessionRun(config.session1, config.timing.blockRestDuration, trial, c).outcome.Finished?)
  {
    var e := StatesEntered(config, trial, c);
    var s1 := SessionRun(config.session1, config.timing.blockRestDuration, trial, c);
    if s1.outcome.Finished? {
      assert e[3] == RunningSession2;
    } else {
      assert e == [InitialRest, RunningSession1];
    }
    forall i, j | 0 <= i < j < |e| ensures e[i] != e[j] {
      assert e[i] == StateOrder[i] && e[j] == StateOrder[j];
    }
  }

  /**
   * A finished experiment's outline: ExperimentStart, session 1's brackets, session 2's
   * brackets, ExperimentEnd, and the completion message last.
   */
  lemma ExperimentOutline(config: Config, trial: TrialRunner, c: Cursor)
    requires KeepsTrialKinds(trial) && ExperimentRun(config, trial, c).outcome.Finished?
    ensures var s1 := config.session1;
      var s2 := config.session2;
      Outline(ExperimentRun(config, trial, c).steps)
      == [Mark(ExperimentStart), Mark(SessionStart(s1.sessionNumber, s1.name)), Mark(SessionEnd(s1.sessionNumber, s1.name)),
          Mark(SessionStart(s2.sessionNumber, s2.name)), Mark(SessionEnd(s2.sessionNumber, s2.name)),
          Mark(ExperimentEnd), CompletionMessage]
  {
    var rest := config.timing.blockRestDuration;
    var r1 := SessionRun(config.session1, rest, trial, c);
    var r2 := SessionRun(config.session2, rest, trial, r1.next);
    SessionBracket(config.session1, rest, trial, c);
    SessionBracket(config.session2, rest, trial, r1.next);
    BothSessionsFinish(config, trial, c);
    RunsToCompletion(config, trial, c);
    OutlineJoin(config, r1.steps, r2.steps);
  }

  /** The outline of the experiment's finished steps around two sessions' steps. */
  lemma OutlineJoin(config: Config, s1: seq<Step>, s2: seq<Step>)
    ensures var steps := [Mark(ExperimentStart), Rest(config.timing.initialRestDuration)] + s1
        + [Rest(config.timing.interSessionRestDuration)] + s2 + [Mark(ExperimentEnd), CompletionMessage];
      Outline(steps) == [Mark(ExperimentStart)] + Outline(s1) + Outline(s2) + [Mark(ExperimentEnd), CompletionMessage]
  {
    var opening := [Mark(ExperimentStart), Rest(config.timing.initialRestDuration)];
    var between := [Rest(config.timing.interSessionRestDuration)];
    var closing := [Mark(ExperimentEnd), CompletionMessage];
    ProjectFive(opening, s1, between, s2, closing, OutlineOf);
    ProjectPair(Mark(ExperimentStart), Rest(config.timing.initialRestDuration), OutlineOf);
    ProjectSingle(Rest(config.timing.interSessionRestDuration), OutlineOf);
    ProjectPair(Mark(ExperimentEnd), CompletionMessage, OutlineOf);
  }

  /**
   * Numbering restarts in the second session: a finished experiment's trial markers are session 1's
   * trials numbered from 1, then session 2's trials numbered from 1 again.
   */
  lemma ExperimentNumbering(config: Config, trial: TrialRunner, c: Cursor)
    requires MarksTrials(trial) && ExperimentRun(config, trial, c).outcome.Finished?
    ensures TrialMarks(ExperimentRun(config, trial, c).steps)
            == Alternating(1, AllConds(config.session1.blocks, |config.session1.blocks|))
               + Alternating(1, AllConds(config.session2.blocks, |config.session2.blocks|))
  {
    var rest := config.timing.blockRestDuration;
    var r1 := SessionRun(config.session1, rest, trial, c);
    var r2 := SessionRun(config.session2, rest, trial, r1.next);
    var c1 := AllConds(config.session1.blocks, |config.session1.blocks|);
    var c2 := AllConds(config.session2.blocks, |config.session2.blocks|);
    var d1 := SessionNumbering(config.session1, rest, trial, c);
    var d2 := SessionNumbering(config.session2, rest, trial, r1.next);
    AllNumbered(r1, c1, d1);
    AllNumbered(r2, c2, d2);
    BothSessionsFinish(config, trial, c);
    RunsToCompletion(config, trial, c);
    MarksJoin(config, r1.steps, r2.steps);
  }

  /** A finished run numbered from 1 carries every one of its conditions' trials, opened and closed. */
  lemma AllNumbered(r: Run, conds: seq<TrialCondition>, done: nat)
    requires Numbered(r, 1, conds, done) && r.outcome.Finished?
    ensures TrialMarks(r.steps) == Alternating(1, conds)
  {
    assert conds[..done] == conds;
  }

  /** An experiment finishes only when both of its sessions finish. */
  lemma BothSessionsFinish(config: Config, trial: TrialRunner, c: Cursor)
    requires ExperimentRun(config, trial, c).outcome.Finished?
    ensures var r1 := SessionRun(config.session1, config.timing.blockRestDuration, trial, c);
      r1.outcome.Finished? && SessionRun(config.session2, config.timing.blockRestDuration, trial, r1.next).outcome.Finished?
  {
  }

  /** The trial markers of the experiment's finished steps are its two sessions'. */
  lemma MarksJoin(config: Config, s1: seq<Step>, s2: seq<Step>)
    ensures var steps := [Mark(ExperimentStart), Rest(config.timing.initialRestDuration)] + s1
        + [Rest(config.timing.interSessionRestDuration)] + s2 + [Mark(ExperimentEnd), CompletionMessage];
      TrialMarks(steps) == TrialMarks(s1) + TrialMarks(s2)
  {
    var opening := [Mark(ExperimentStart), Rest(config.timing.initialRestDuration)];
    var between := [Rest(config.timing.interSessionRestDuration)];
    var closing := [Mark(ExperimentEnd), CompletionMessage];
    ProjectFive(opening, s1, between, s2, closing, TrialMarkOf);
    ProjectNone(opening, TrialMarkOf);
    ProjectNone(between, TrialMarkOf);
    ProjectNone(closing, TrialMarkOf);
  }

  /**
   * `totalTrials` is never read: the experiment runs the same whatever the sessions declare,
   * whatever the blocks actually hold.
   */
  lemma TotalTrialsUnused(config: Config, t1: int, t2: int, trial: TrialRunner, c: Cursor)
    ensures var declared := config.(session1 := config.session1.(totalTrials := t1),
                                    session2 := config.session2.(totalTrials := t2));
      ExperimentRun(declared, trial, c) == ExperimentRun(config, trial, c)
      && StatesEntered(declared, trial, c) == StatesEntered(config, trial, c)
  {
    var s1 := config.session1.(totalTrials := t1);
    var s2 := config.session2.(totalTrials := t2);
    var rest := config.timing.blockRestDuration;
    assert SessionRun(s1, rest, trial, c) == SessionRun(config.session1, rest, trial, c);
    var n := SessionRun(s1, rest, trial, c).next;
    assert SessionRun(s2, rest, trial, n) == SessionRun(config.session2, rest, trial, n);
  }

  /**
   * With no colour mapping installed, as the sequencer leaves it, the experiment never gets past
   * its first trial: given a first block with a trial, it throws right after that trial's
   * TrialStart, having entered only InitialRest and RunningSession1.
   */
  lemma NeverPastFirstTrial(config: Config, trial: TrialRunner, w: World, c: Cursor)
    requires Drives(trial, config, None, w)
    requires |config.session1.blocks| > 0 && |config.session1.blocks[0].trials| > 0
    ensures var s1 := config.session1;
      var r := ExperimentRun(config, trial, c);
      && r.steps == [Mark(ExperimentStart), Rest(config.timing.initialRestDuration),
                     Mark(SessionStart(s1.sessionNumber, s1.name)),
                     Mark(BlockStart(s1.sessionNumber, 1, |s1.blocks[0].trials|)),
                     Mark(TrialStart(s1.sessionNumber, 1, 1, ConditionOf(s1.blocks[0].trials[0])))]
      && r.outcome.Crashed?
      && StatesEntered(config, trial, c) == [InitialRest, RunningSession1]
  {
    var s1 := config.session1;
    var conds := Conditions(s1.blocks[0].trials);
    var rest := config.timing.blockRestDuration;
    var first := FirstBlockCrashes(s1, conds, rest, trial, config, w, c);
    SessionBlocksStop(s1.sessionNumber, s1.blocks, |s1.blocks|, 1, rest, trial, c);
  }

  /** Block 1 of a session throws right after its first TrialStart when no mapping is installed. */
  lemma FirstBlockCrashes(s: SessionConfig, conds: seq<TrialCondition>, restDuration: real, trial: TrialRunner,
                          config: Config, w: World, c: Cursor)
    returns (first: Run)
    requires Drives(trial, config, None, w)
    requires |s.blocks| > 0 && conds == Conditions(s.blocks[0].trials) && |conds| > 0
    ensures first == SessionBlocks(s.sessionNumber, s.blocks, 1, restDuration, trial, c)
    ensures first.outcome.Crashed?
    ensures first.steps == [Mark(BlockStart(s.sessionNumber, 1, |conds|)), Mark(TrialStart(s.sessionNumber, 1, 1, conds[0]))]
  {
    first := SessionBlocks(s.sessionNumber, s.blocks, 1, restDuration, trial, c);
    var t := trial(s.sessionNumber, 1, 1, conds[0], c);
    DrivesTrial(trial, config, None, w, s.sessionNumber, 1, 1, conds[0], c);
    TrialWithoutMapping(s.sessionNumber, 1, 1, conds[0], config, w, c);
    var one := Trials(s.sessionNumber, 1, 1, conds[..1], trial, c);
    TrialsStep(s.sessionNumber, 1, 1, conds, trial, c, 0);
    assert conds[..0] == [];
    assert one == Run(t.steps, t.outcome, t.next);
    TrialsStop(s.sessionNumber, 1, 1, conds, trial, c, 1);
    assert FirstTrial(s.blocks, 0) == 1 by {
      assert s.blocks[..0] == [];
    }
  }

  // -------------------------------------------------------------------- Start

  /**
   * Where `Start` goes: it throws in the loader, disables the component, throws in the logger's
   * set-up, or launches the run.
   */
  datatype StartPath = LoaderThrows | Disabled | InitializeThrows | Launched

  /**
   * `Start` as written: the loader runs first and throws on a null file name (it combines the
   * name with the streaming-assets folder); its result is stored, but the guard after it tests the
   * file name, so a missing or unreadable file (the loader returns null) reaches `Initialize`,
   * which reads the experiment name from the null configuration and throws.
   */
  function StartAsWritten(configFilename: Option<string>, loaded: Option<Config>): (p: StartPath)
    ensures p == Launched <==> configFilename.Some? && loaded.Some?
    ensures p == LoaderThrows <==> configFilename.None?
  {
    if configFilename.None? then LoaderThrows
    else if loaded.None? then InitializeThrows
    else Launched
  }

  /**
   * The guard never fires: a null name has already thrown in the loader, and a name with no
   * configuration behind it (the default one included) throws in `Initialize` instead of
   * disabling the component.
   */
  lemma StartMissesMissingConfig(configFilename: Option<string>, loaded: Option<Config>)
    ensures StartAsWritten(configFilename, loaded) != Disabled
    ensures loaded.None? ==> StartAsWritten(configFilename, loaded) in {LoaderThrows, InitializeThrows}
    ensures StartAsWritten(Some("ExperimentConfig.json"), None) == InitializeThrows
  {
  }

  /**
   * `Start` as its error message describes it: without a file name, or without a configuration
   * loaded from it, the component is disabled; nothing throws.
   */
  function GuardedStart(configFilename: Option<string>, loaded: Option<Config>): (p: StartPath)
    ensures p == Disabled || p == Launched
    ensures p == Launched <==> configFilename.Some? && loaded.Some?
  {
    if configFilename.None? || loaded.None? then Disabled else Launched
  }

  /** The corrected start and the written one agree exactly when a file name is given and the file loads. */
  lemma GuardedStartAgrees(configFilename: Option<string>, loaded: Option<Config>)
    ensures GuardedStart(configFilename, loaded) == StartAsWritten(configFilename, loaded)
            <==> configFilename.Some? && loaded.Some?
  {
  }

  // -------------------------------------------------------------------- runners

  /**
   * A session's block loop (ExperimentManager.cs:74-102): block k + 1 starts at trial number
   * 1 + the sizes of blocks 1..k, and a rest screen follows every block but the last. It stops at
   * a block that does not finish.
   */
  method RunBlocks(blockManager: BlockManager, sessionNumber: int, blocks: seq<BlockConfig>, config: Config,
                   w: World, c: Cursor, ghost trial: TrialRunner)
    returns (outcome: Outcome, next: Cursor)
    requires blockManager.Valid() && Drives(trial, config, blockManager.trialController.currentColorMapping, w)
    modifies blockManager.log
    ensures var r := SessionBlocks(sessionNumber, blocks, |blocks|, config.timing.blockRestDuration, trial, c);
      blockManager.log.steps == old(blockManager.log.steps) + r.steps && outcome == r.outcome && next == r.next
  {
    var log := blockManager.log;
    var restDuration := config.timing.blockRestDuration;
    ghost var mapping := blockManager.trialController.currentColorMapping;
    ghost var done := SessionBlocks(sessionNumber, blocks, 0, restDuration, trial, c);
    var globalTrialNumber := 1;
    assert blocks[..0] == [];
    next := c;
    var blockNum := 0;
    while blockNum < |blocks|
      invariant 0 <= blockNum <= |blocks|
      invariant blockManager.trialController.currentColorMapping == mapping
      invariant globalTrialNumber == FirstTrial(blocks, blockNum)
      invariant done == SessionBlocks(sessionNumber, blocks, blockNum, restDuration, trial, c)
      invariant done.outcome.Finished? && log.steps == old(log.steps) + done.steps && next == done.next
    {
      var block := blocks[blockNum];
      outcome, next := RunNextBlock(blockManager, sessionNumber, blocks, blockNum, globalTrialNumber, config, w,
                                    next, trial, done, old(log.steps));
      FirstTrialStep(blocks, blockNum);
      globalTrialNumber := globalTrialNumber + |block.trials|;
      done := SessionBlocks(sessionNumber, blocks, blockNum + 1, restDuration, trial, c);
      if outcome != Finished {
        SessionBlocksStop(sessionNumber, blocks, |blocks|, blockNum + 1, restDuration, trial, c);
        return;
      }
      blockNum := blockNum + 1;
    }
    outcome := Finished;
  }

  /**
   * One iteration of `RunBlocks` after a finished run `prev` of blocks 1..k: block k + 1, then the
   * block-rest screen when that block finished and is not the session's last.
   */
  method RunNextBlock(blockManager: BlockManager, sessionNumber: int, blocks: seq<BlockConfig>, k: nat,
                      globalTrialNumber: int, config: Config, w: World, c: Cursor, ghost trial: TrialRunner,
                      ghost prev: Run, ghost start: seq<Step>)
    returns (outcome: Outcome, next: Cursor)
    requires k < |blocks| && globalTrialNumber == FirstTrial(blocks, k)
    requires blockManager.Valid() && Drives(trial, config, blockManager.trialController.currentColorMapping, w)
    requires prev.outcome.Finished? && c == prev.next && blockManager.log.steps == start + prev.steps
    modifies blockManager.log
    ensures var r := NextBlock(sessionNumber, blocks, k + 1, config.timing.blockRestDuration, trial, prev);
      blockManager.log.steps == start + r.steps && outcome == r.outcome && next == r.next
  {
    var restDuration := config.timing.blockRestDuration;
    outcome, next := RunBlockOf(blockManager, sessionNumber, blocks, k, globalTrialNumber, config, w, c, trial);
    ghost var b := BlockRun(sessionNumber, k + 1, FirstTrial(blocks, k), Conditions(blocks[k].trials), trial, c);
    ghost var rest: seq<Step> := [];
    if outcome == Finished && k < |blocks| - 1 {
      blockManager.log.ShowRest(restDuration);
      rest := [Rest(restDuration)];
    }
    AppendThree(start, prev.steps, b.steps, rest);
  }

  /** One iteration's block: its trial strings converted to conditions, then run from `globalTrialNumber`. */
  method RunBlockOf(blockManager: BlockManager, sessionNumber: int, blocks: seq<BlockConfig>, blockNum: nat,
                    globalTrialNumber: int, config: Config, w: World, c: Cursor, ghost trial: TrialRunner)
    returns (outcome: Outcome, next: Cursor)
    requires blockNum < |blocks| && globalTrialNumber == FirstTrial(blocks, blockNum)
    requires blockManager.Valid() && Drives(trial, config, blockManager.trialController.currentColorMapping, w)
    modifies blockManager.log
    ensures var r := BlockRun(sessionNumber, blockNum + 1, globalTrialNumber, Conditions(blocks[blockNum].trials), trial, c);
      blockManager.log.steps == old(blockManager.log.steps) + r.steps && outcome == r.outcome && next == r.next
  {
    var conditions := FillConditions(blocks[blockNum].trials);
    outcome, next := blockManager.RunBlock(sessionNumber, blockNum + 1, globalTrialNumber, conditions, config, w, c,
                                           trial);
  }

  /** A first session that does not finish ends the experiment: InitialRest and RunningSession1 only. */
  lemma StopsInSession1(config: Config, trial: TrialRunner, c: Cursor)
    requires var r1 := SessionRun(config.session1, config.timing.blockRestDuration, trial, c);
      !r1.outcome.Finished?
    ensures var r1 := SessionRun(config.session1, config.timing.blockRestDuration, trial, c);
      && ExperimentRun(config, trial, c)
         == Run([Mark(ExperimentStart), Rest(config.timing.initialRestDuration)] + r1.steps, r1.outcome, r1.next)
      && StatesEntered(config, trial, c) == [InitialRest, RunningSession1]
  {
    assert StateOrder[..2] == [InitialRest, RunningSession1];
  }

  /** A second session that does not finish ends the experiment before Completed. */
  lemma StopsInSession2(config: Config, trial: TrialRunner, c: Cursor)
    requires var r1 := SessionRun(config.session1, config.timing.blockRestDuration, trial, c);
      var r2 := SessionRun(config.session2, config.timing.blockRestDuration, trial, r1.next);
      r1.outcome.Finished? && !r2.outcome.Finished?
    ensures var r1 := SessionRun(config.session1, config.timing.blockRestDuration, trial, c);
      var r2 := SessionRun(config.session2, config.timing.blockRestDuration, trial, r1.next);
      && ExperimentRun(config, trial, c)
         == Run([Mark(ExperimentStart), Rest(config.timing.initialRestDuration)] + r1.steps
                + [Rest(config.timing.interSessionRestDuration)] + r2.steps, r2.outcome, r2.next)
      && StatesEntered(config, trial, c) == [InitialRest, RunningSession1, InterSessionRest, RunningSession2]
  {
    assert StateOrder[..4] == [InitialRest, RunningSession1, InterSessionRest, RunningSession2];
  }

  /** Both sessions finishing completes the experiment: every state entered, the closing marker and message logged. */
  lemma RunsToCompletion(config: Config, trial: TrialRunner, c: Cursor)
    requires var r1 := SessionRun(config.session1, config.timing.blockRestDuration, trial, c);
      var r2 := SessionRun(config.session2, config.timing.blockRestDuration, trial, r1.next);
      r1.outcome.Finished? && r2.outcome.Finished?
    ensures var r1 := SessionRun(config.session1, config.timing.blockRestDuration, trial, c);
      var r2 := SessionRun(config.session2, config.timing.blockRestDuration, trial, r1.next);
      && ExperimentRun(config, trial, c)
         == Run([Mark(ExperimentStart), Rest(config.timing.initialRestDuration)] + r1.steps
                + [Rest(config.timing.interSessionRestDuration)] + r2.steps + [Mark(ExperimentEnd), CompletionMessage],
                Finished, r2.next)
      && StatesEntered(config, trial, c) == [InitialRest, RunningSession1, InterSessionRest, RunningSession2] + [Completed]
  {
  }

  /** Block k + 1 starts right after the trials of blocks 1..k. */
  lemma FirstTrialStep(blocks: seq<BlockConfig>, k: nat)
    requires k < |blocks|
    ensures FirstTrial(blocks, k + 1) == FirstTrial(blocks, k) + |blocks[k].trials|
  {
    BlockTrialCountStep(blocks, k);
  }

  class ExperimentManager {
    const blockManager: BlockManager
    /** The marker logger and the rest screen, shared with the block and trial runners. */
    const log: Timeline
    /** The loaded configuration; null (None) when the loader found no file or could not parse it. */
    var config: Option<Config>
    var currentState: ExperimentState
    /** Every state assigned to `currentState`, in order. */
    ghost var entered: seq<ExperimentState>
    /** The component's `enabled` flag. */
    var enabled: bool

    constructor (blockManager: BlockManager)
      ensures this.blockManager == blockManager && log == blockManager.log
      ensures config == None && currentState == NotStarted && entered == [] && enabled
    {
      this.blockManager := blockManager;
      log := blockManager.log;
      config := None;
      currentState := NotStarted;
      entered := [];
      enabled := true;
    }

    predicate Valid() {
      blockManager.Valid() && log == blockManager.log
    }

    /**
     * Stores the loader's result (`loaded`), then tests the file name; with a name, sets up the
     * logger, which throws on a null configuration, and runs the experiment.
     */
    method Start(configFilename: Option<string>, loaded: Option<Config>, w: World, c: Cursor,
                 ghost trial: TrialRunner)
      returns (path: StartPath)
      requires Valid()
      requires loaded.Some? ==> Drives(trial, loaded.value, blockManager.trialController.currentColorMapping, w)
      modifies this, log
      ensures path == StartAsWritten(configFilename, loaded)
      ensures config == if configFilename.None? then old(config) else loaded
      ensures enabled == old(enabled)
      ensures path == Launched ==>
        && log.steps == old(log.steps) + ExperimentRun(loaded.value, trial, c).steps
        && entered == old(entered) + StatesEntered(loaded.value, trial, c)
      ensures path != Launched ==> log.steps == old(log.steps) && entered == old(entered)
    {
      if configFilename.None? {
        return LoaderThrows;
      }
      config := loaded;
      if config.None? {
        return InitializeThrows;
      }
      var outcome, next := RunExperiment(loaded.value, w, c, trial);
      return Launched;
    }

    /**
     * `Start` with the guard on the file name before the loader and on the loaded configuration
     * after it: either one missing disables the component before anything is logged, and
     * otherwise the run launches.
     */
    method GuardedStartup(configFilename: Option<string>, loaded: Option<Config>, w: World, c: Cursor,
                          ghost trial: TrialRunner)
      returns (path: StartPath)
      requires Valid()
      requires loaded.Some? ==> Drives(trial, loaded.value, blockManager.trialController.currentColorMapping, w)
      modifies this, log
      ensures path == GuardedStart(configFilename, loaded)
      ensures config == if configFilename.None? then old(config) else loaded
      ensures enabled == (old(enabled) && path == Launched)
      ensures path == Launched ==>
        && log.steps == old(log.steps) + ExperimentRun(loaded.value, trial, c).steps
        && entered == old(entered) + StatesEntered(loaded.value, trial, c)
      ensures path == Disabled ==> log.steps == old(log.steps) && entered == old(entered)
    {
      if configFilename.None? {
        enabled := false;
        return Disabled;
      }
      config := loaded;
      if config.None? {
        enabled := false;
        return Disabled;
      }
      var outcome, next := RunExperiment(loaded.value, w, c, trial);
      return Launched;
    }

    /**
     * The experiment: ExperimentStart, each state in turn with its rest or session, ExperimentEnd and
     * the completion message. It stops inside a session that does not finish.
     */
    method RunExperiment(cfg: Config, w: World, c: Cursor, ghost trial: TrialRunner)
      returns (outcome: Outcome, next: Cursor)
      requires Valid() && config == Some(cfg)
      requires Drives(trial, cfg, blockManager.trialController.currentColorMapping, w)
      modifies log, this`currentState, this`entered
      ensures var r := ExperimentRun(cfg, trial, c);
        log.steps == old(log.steps) + r.steps && outcome == r.outcome && next == r.next
      ensures entered == old(entered) + StatesEntered(cfg, trial, c)
      ensures currentState == entered[|entered| - 1]
    {
      ghost var start := log.steps;
      ghost var e0 := entered;
      ghost var rd := cfg.timing.blockRestDuration;
      ghost var opening := [Mark(ExperimentStart), Rest(cfg.timing.initialRestDuration)];
      log.Log(ExperimentStart);
      ghost var l1 := log.steps;
      outcome, next := RestThenSession(InitialRest, cfg.timing.initialRestDuration, RunningSession1, cfg,
                                       cfg.session1, w, c, trial);
      ghost var r1 := SessionRun(cfg.session1, rd, trial, c);
      assert l1 == start + [Mark(ExperimentStart)] && log.steps == l1 + [Rest(cfg.timing.initialRestDuration)] + r1.steps;
      AppendThree(start, [Mark(ExperimentStart)], [Rest(cfg.timing.initialRestDuration)], r1.steps);
      assert [Mark(ExperimentStart)] + [Rest(cfg.timing.initialRestDuration)] + r1.steps == opening + r1.steps;
      assert log.steps == start + (opening + r1.steps);
      if outcome != Finished {
        StopsInSession1(cfg, trial, c);
        return;
      }
      ghost var l2 := log.steps;
      ghost var between := [Rest(cfg.timing.interSessionRestDuration)];
      outcome, next := RestThenSession(InterSessionRest, cfg.timing.interSessionRestDuration, RunningSession2, cfg,
                                       cfg.session2, w, next, trial);
      ghost var r2 := SessionRun(cfg.session2, rd, trial, r1.next);
      ghost var body := opening + r1.steps + between + r2.steps;
      assert log.steps == l2 + between + r2.steps;
      AppendThree(start, opening + r1.steps, between, r2.steps);
      assert entered == e0 + [InitialRest, RunningSession1] + [InterSessionRest, RunningSession2];
      assert entered == e0 + [InitialRest, RunningSession1, InterSessionRest, RunningSession2];
      if outcome != Finished {
        StopsInSession2(cfg, trial, c);
        return;
      }
      Conclude();
      AppendTwo(start, body, [Mark(ExperimentEnd), CompletionMessage]);
      RunsToCompletion(cfg, trial, c);
      AppendTwo(e0, [InitialRest, RunningSession1, InterSessionRest, RunningSession2], [Completed]);
    }

    /** Enters Completed, then logs ExperimentEnd and shows the completion message (ExperimentManager.cs:64-66). */
    method Conclude()
      requires Valid()
      modifies log, this`currentState, this`entered
      ensures Valid()
      ensures log.steps == old(log.steps) + [Mark(ExperimentEnd), CompletionMessage]
      ensures currentState == Completed && entered == old(entered) + [Completed]
    {
      currentState := Completed;
      entered := entered + [currentState];
      log.Log(ExperimentEnd);
      log.ShowCompletionMessage();
    }

    /**
     * Enters `restState` and shows the rest screen for `restDuration`, then enters `sessionState`
     * and runs session `s` (ExperimentManager.cs:48-53 and 56-61).
     */
    method RestThenSession(restState: ExperimentState, restDuration: real, sessionState: ExperimentState,
                           cfg: Config, s: SessionConfig, w: World, c: Cursor, ghost trial: TrialRunner)
      returns (outcome: Outcome, next: Cursor)
      requires Valid() && config == Some(cfg)
      requires Drives(trial, cfg, blockManager.trialController.currentColorMapping, w)
      modifies log, this`currentState, this`entered
      ensures var r := SessionRun(s, cfg.timing.blockRestDuration, trial, c);
        log.steps == old(log.steps) + [Rest(restDuration)] + r.steps && outcome == r.outcome && next == r.next
      ensures entered == old(entered) + [restState, sessionState] && currentState == sessionState
    {
      currentState := restState;
      entered := entered + [currentState];
      log.ShowRest(restDuration);
      currentState := sessionState;
      entered := entered + [currentState];
      outcome, next := RunSession(cfg, s, w, c, trial);
    }

    /** A session: SessionStart, its blocks, and SessionEnd once they all finish. `cfg` is the loaded configuration. */
    method RunSession(cfg: Config, s: SessionConfig, w: World, c: Cursor, ghost trial: TrialRunner)
      returns (outcome: Outcome, next: Cursor)
      requires Valid() && config == Some(cfg)
      requires Drives(trial, cfg, blockManager.trialController.currentColorMapping, w)
      modifies log
      ensures var r := SessionRun(s, cfg.timing.blockRestDuration, trial, c);
        log.steps == old(log.steps) + r.steps && outcome == r.outcome && next == r.next
    {
      log.Log(SessionStart(s.sessionNumber, s.name));
      outcome, next := RunBlocks(blockManager, s.sessionNumber, s.blocks, cfg, w, c, trial);
      if outcome == Finished {
        log.Log(SessionEnd(s.sessionNumber, s.name));
      }
      SessionSteps(s, cfg.timing.blockRestDuration, trial, c);
    }
  }
}
