/** The kinds of step a run makes: one per marker call site, and the three screens. */
module StepKinds {
  datatype Kind =
    | ExperimentStart | ExperimentEnd | SessionStart | SessionEnd
    | BlockStart | BlockEnd | BlockColorMapping
    | TrialStart | ColorMapping | PaperSpawned | PaperGrabbed | PaperPlaced | TrialEnd
    | Rest | Feedback | CompletionMessage
}

/**
 * The markers the sequencer logs, one variant per call site, with `Text` giving the exact
 * string each call site formats; and the timeline a run produces: the markers in call order,
 * interleaved with the rest, feedback and completion screens (opaque steps).
 */
module Markers {
  import K = StepKinds
  import opened Wrappers
  import opened Strings
  import opened ExperimentConfig

  datatype Marker =
    | ExperimentStart
    | ExperimentEnd
    | SessionStart(session: int, name: string)
    | SessionEnd(session: int, name: string)
    | BlockStart(session: int, block: int, trials: int)
    | BlockEnd(session: int, block: int)
    | BlockColorMapping(mapping: string)
    | TrialStart(session: int, block: int, trial: int, condition: TrialCondition)
    | ColorMapping(paperColor: string, correctTray: string)
    | PaperSpawned(session: int, trial: int, paper: int, color: string)
    | PaperGrabbed(session: int, trial: int, paper: int)
    | PaperPlaced(session: int, trial: int, paper: int, placedIn: string, correct: string, result: bool)
    | TrialEnd(session: int, trial: int)

  /** C#'s `bool.ToString()`. */
  function BoolText(b: bool): string {
    if b then "True" else "False"
  }

  /** The first '|'-field of each marker's text. */
  function Tag(m: Marker): (t: string)
    ensures t != [] && '|' !in t
  {
    match m
    case ExperimentStart => "ExperimentStart"
    case ExperimentEnd => "ExperimentEnd"
    case SessionStart(_, _) => "SessionStart"
    case SessionEnd(_, _) => "SessionEnd"
    case BlockStart(_, _, _) => "BlockStart"
    case BlockEnd(_, _) => "BlockEnd"
    case BlockColorMapping(_) => "BlockColorMapping"
    case TrialStart(_, _, _, _) => "TrialStart"
    case ColorMapping(_, _) => "ColorMapping"
    case PaperSpawned(_, _, _, _) => "PaperSpawned"
    case PaperGrabbed(_, _, _) => "PaperGrabbed"
    case PaperPlaced(_, _, _, _, _, _) => "PaperPlaced"
    case TrialEnd(_, _) => "TrialEnd"
  }

  /** The fields after the tag, each already formatted as its call site interpolates it. */
  function Fields(m: Marker): seq<string> {
    match m
    case ExperimentStart => []
    case ExperimentEnd => []
    case SessionStart(s, name) => ["S" + IntToString(s), name]
    case SessionEnd(s, name) => ["S" + IntToString(s), name]
    case BlockStart(s, b, n) => ["S" + IntToString(s), "B" + IntToString(b), "Trials:" + IntToString(n)]
    case BlockEnd(s, b) => ["S" + IntToString(s), "B" + IntToString(b)]
    case BlockColorMapping(mapping) => [mapping]
    case TrialStart(s, b, t, c) =>
      ["S" + IntToString(s), "B" + IntToString(b), "T" + IntToString(t), ConditionName(c)]
    case ColorMapping(paperColor, tray) => ["Paper:" + paperColor + "->Tray:" + tray]
    case PaperSpawned(s, t, p, color) =>
      ["S" + IntToString(s), "T" + IntToString(t), "P" + IntToString(p), "Color:" + color]
    case PaperGrabbed(s, t, p) => ["S" + IntToString(s), "T" + IntToString(t), "P" + IntToString(p)]
    case PaperPlaced(s, t, p, placedIn, correct, result) =>
      ["S" + IntToString(s), "T" + IntToString(t), "P" + IntToString(p),
       "PlacedIn:" + placedIn, "Correct:" + correct, "Result:" + BoolText(result)]
    case TrialEnd(s, t) => ["S" + IntToString(s), "T" + IntToString(t)]
  }

  /** The string each call site passes to the logger: the tag and the fields joined with '|'. */
  function Text(m: Marker): string {
    Join([Tag(m)] + Fields(m), '|')
  }

  /** The tag can always be read back off the text, whatever the names in the fields contain. */
  lemma TagIsFirstField(m: Marker)
    ensures Split(Text(m), '|')[0] == Tag(m)
  {
    var parts := [Tag(m)] + Fields(m);
    if |parts| == 1 {
      SplitWithoutSeparator(Tag(m), '|');
    } else {
      assert parts[1..] == Fields(m);
      SplitAtFirstSeparator(Tag(m), Join(Fields(m), '|'), '|');
    }
  }

  /** Different kinds of marker have different tags, so the text identifies the kind. */
  lemma TagsIdentifyKind(a: Marker, b: Marker)
    requires Tag(a) == Tag(b)
    ensures a.ExperimentStart? == b.ExperimentStart? && a.ExperimentEnd? == b.ExperimentEnd?
    ensures a.SessionStart? == b.SessionStart? && a.SessionEnd? == b.SessionEnd?
    ensures a.BlockStart? == b.BlockStart? && a.BlockEnd? == b.BlockEnd?
    ensures a.BlockColorMapping? == b.BlockColorMapping?
    ensures a.TrialStart? == b.TrialStart? && a.TrialEnd? == b.TrialEnd?
    ensures a.ColorMapping? == b.ColorMapping? && a.PaperSpawned? == b.PaperSpawned?
    ensures a.PaperGrabbed? == b.PaperGrabbed? && a.PaperPlaced? == b.PaperPlaced?
  {
  }

  /**
   * A TrialStart text splits into exactly five fields, and the session, block and trial
   * numbers and the condition can be read back from them.
   */
  lemma TrialStartReadBack(s: int, b: int, t: int, c: TrialCondition)
    ensures var parts := Split(Text(TrialStart(s, b, t, c)), '|');
      && |parts| == 5
      && parts[0] == "TrialStart"
      && parts[1] == "S" + IntToString(s) && parts[2] == "B" + IntToString(b)
      && parts[3] == "T" + IntToString(t)
      && ConditionFromName(parts[4]) == c
  {
    var parts := [Tag(TrialStart(s, b, t, c))] + Fields(TrialStart(s, b, t, c));
    assert '|' !in "S" + IntToString(s) && '|' !in "B" + IntToString(b) && '|' !in "T" + IntToString(t);
    assert FreeOf(parts, '|');
    SplitJoin(parts, '|');
  }

  // ------------------------------------------------------------------- timeline

  /** One observable step of a run: a logged marker, or one of the presentation screens. */
  datatype Step =
    | Mark(marker: Marker)
    | Rest(duration: real)
    | Feedback(isCorrect: bool, stillness: real)
    | CompletionMessage

  /** Everything the run makes observable, in order. */
  class Timeline {
    var steps: seq<Step>

    constructor ()
      ensures steps == []
    {
      steps := [];
    }

    /** A call to the marker logger. */
    method Log(m: Marker)
      modifies this
      ensures steps == old(steps) + [Mark(m)]
    {
      steps := steps + [Mark(m)];
    }

    /** The rest screen's countdown for `duration` seconds. */
    method ShowRest(duration: real)
      modifies this
      ensures steps == old(steps) + [Rest(duration)]
    {
      steps := steps + [Rest(duration)];
    }

    /** The feedback icon and sound, then the stillness wait. */
    method ShowFeedback(isCorrect: bool, stillness: real)
      modifies this
      ensures steps == old(steps) + [Feedback(isCorrect, stillness)]
    {
      steps := steps + [Feedback(isCorrect, stillness)];
    }

    method ShowCompletionMessage()
      modifies this
      ensures steps == old(steps) + [CompletionMessage]
    {
      steps := steps + [CompletionMessage];
    }
  }

  /** The kind of a step: which marker it logs, or which screen it shows. */
  function KindOf(x: Step): K.Kind {
    match x
    case Mark(ExperimentStart) => K.ExperimentStart
    case Mark(ExperimentEnd) => K.ExperimentEnd
    case Mark(SessionStart(_, _)) => K.SessionStart
    case Mark(SessionEnd(_, _)) => K.SessionEnd
    case Mark(BlockStart(_, _, _)) => K.BlockStart
    case Mark(BlockEnd(_, _)) => K.BlockEnd
    case Mark(BlockColorMapping(_)) => K.BlockColorMapping
    case Mark(TrialStart(_, _, _, _)) => K.TrialStart
    case Mark(ColorMapping(_, _)) => K.ColorMapping
    case Mark(PaperSpawned(_, _, _, _)) => K.PaperSpawned
    case Mark(PaperGrabbed(_, _, _)) => K.PaperGrabbed
    case Mark(PaperPlaced(_, _, _, _, _, _)) => K.PaperPlaced
    case Mark(TrialEnd(_, _)) => K.TrialEnd
    case Rest(_) => K.Rest
    case Feedback(_, _) => K.Feedback
    case CompletionMessage => K.CompletionMessage
  }

  function Kinds(steps: seq<Step>): (r: seq<K.Kind>)
    ensures |r| == |steps|
  {
    seq(|steps|, i requires 0 <= i < |steps| => KindOf(steps[i]))
  }

  lemma KindsAppend(a: seq<Step>, b: seq<Step>)
    ensures Kinds(a + b) == Kinds(a) + Kinds(b)
  {
  }

  lemma KindsPair(x: Step, y: Step)
    ensures Kinds([x, y]) == [KindOf(x), KindOf(y)]
  {
  }

  /** Every step of `steps` is of one of the kinds `ks`. */
  predicate KindsIn(steps: seq<Step>, ks: seq<K.Kind>) {
    forall i :: 0 <= i < |steps| ==> KindOf(steps[i]) in ks
  }

  lemma KindsInAppend(a: seq<Step>, b: seq<Step>, ks: seq<K.Kind>)
    requires KindsIn(a, ks) && KindsIn(b, ks)
    ensures KindsIn(a + b, ks)
  {
  }

  lemma KindsInWiden(steps: seq<Step>, ks: seq<K.Kind>, wider: seq<K.Kind>)
    requires KindsIn(steps, ks) && forall k :: k in ks ==> k in wider
    ensures KindsIn(steps, wider)
  {
  }

  // ---------------------------------------------------------------- projections

  /** The elements `f` selects from a timeline, in order. */
  function Project<T>(steps: seq<Step>, f: Step -> Option<T>): seq<T>
    decreases |steps|
  {
    if steps == [] then []
    else (if f(steps[0]).Some? then [f(steps[0]).value] else []) + Project(steps[1..], f)
  }

  lemma {:induction false} ProjectAppend<T>(a: seq<Step>, b: seq<Step>, f: Step -> Option<T>)
    ensures Project(a + b, f) == Project(a, f) + Project(b, f)
    decreases |a|
  {
    if |a| == 0 {
      assert a + b == b;
    } else {
      var ab := a + b;
      assert ab[0] == a[0] && ab[1..] == a[1..] + b;
      ProjectAppend(a[1..], b, f);
      assert Project(ab, f) == (if f(a[0]).Some? then [f(a[0]).value] else []) + Project(a[1..] + b, f);
    }
  }

  lemma ProjectSingle<T>(x: Step, f: Step -> Option<T>)
    ensures Project([x], f) == if f(x).Some? then [f(x).value] else []
  {
    assert [x][1..] == [];
  }

  lemma ProjectPair<T>(x: Step, y: Step, f: Step -> Option<T>)
    ensures Project([x, y], f) == (if f(x).Some? then [f(x).value] else []) + (if f(y).Some? then [f(y).value] else [])
  {
    assert [x, y] == [x] + [y];
    ProjectAppend([x], [y], f);
    ProjectSingle(x, f);
    ProjectSingle(y, f);
  }

  /** Projection distributes over three consecutive segments. */
  lemma ProjectThree<T>(a: seq<Step>, b: seq<Step>, c: seq<Step>, f: Step -> Option<T>)
    ensures Project(a + b + c, f) == Project(a, f) + Project(b, f) + Project(c, f)
  {
    ProjectAppend(a, b, f);
    ProjectAppend(a + b, c, f);
  }

  /** Projection distributes over five consecutive segments. */
  lemma ProjectFive<T>(a: seq<Step>, b: seq<Step>, c: seq<Step>, d: seq<Step>, e: seq<Step>, f: Step -> Option<T>)
    ensures Project(a + b + c + d + e, f) == Project(a, f) + Project(b, f) + Project(c, f) + Project(d, f) + Project(e, f)
  {
    ProjectAppend(a, b, f);
    ProjectAppend(a + b, c, f);
    ProjectAppend(a + b + c, d, f);
    ProjectAppend(a + b + c + d, e, f);
  }

  /** A step, then a middle part, then a tail project part by part. */
  lemma ProjectAround<T>(x: Step, mid: seq<Step>, tail: seq<Step>, f: Step -> Option<T>)
    ensures Project([x] + mid + tail, f) == Project([x], f) + Project(mid, f) + Project(tail, f)
  {
    ProjectAppend([x], mid, f);
    ProjectAppend([x] + mid, tail, f);
  }

  /** A timeline none of whose steps `f` selects projects to nothing. */
  lemma {:induction false} ProjectNone<T>(steps: seq<Step>, f: Step -> Option<T>)
    requires forall i :: 0 <= i < |steps| ==> f(steps[i]).None?
    ensures Project(steps, f) == []
    decreases |steps|
  {
    if steps != [] {
      assert f(steps[0]).None?;
      ProjectNone(steps[1..], f);
    }
  }

  /** A trial opening (number and condition) or closing (number). */
  datatype TrialMark = Opened(trial: int, condition: TrialCondition) | Closed(trial: int)

  function TrialMarkOf(x: Step): Option<TrialMark> {
    match x
    case Mark(TrialStart(_, _, t, c)) => Some(Opened(t, c))
    case Mark(TrialEnd(_, t)) => Some(Closed(t))
    case _ => None
  }

  /** Only the TrialStart and TrialEnd kinds carry a trial mark. */
  lemma TrialMarkOfKind(x: Step)
    requires KindOf(x) != K.TrialStart && KindOf(x) != K.TrialEnd
    ensures TrialMarkOf(x).None?
  {
  }

  /** The TrialStart and TrialEnd markers of a timeline, in order. */
  function TrialMarks(steps: seq<Step>): seq<TrialMark> {
    Project(steps, TrialMarkOf)
  }

  /** Trials `first`, `first + 1`, ... with the given conditions, each closed before the next opens. */
  function Alternating(first: int, conds: seq<TrialCondition>): (r: seq<TrialMark>)
    ensures |r| == 2 * |conds|
    decreases |conds|
  {
    if conds == [] then [] else [Opened(first, conds[0]), Closed(first)] + Alternating(first + 1, conds[1..])
  }

  /** Trial i is numbered `first + i`, gets the i-th condition, and closes right after it opens. */
  lemma {:induction false} AlternatingAt(first: int, conds: seq<TrialCondition>, i: nat)
    requires i < |conds|
    ensures Alternating(first, conds)[2 * i] == Opened(first + i, conds[i])
    ensures Alternating(first, conds)[2 * i + 1] == Closed(first + i)
    decreases i
  {
    if i > 0 {
      AlternatingAt(first + 1, conds[1..], i - 1);
    }
  }

  /** Two runs of consecutively numbered trials make one. */
  lemma {:induction false} AlternatingAppend(first: int, c1: seq<TrialCondition>, c2: seq<TrialCondition>)
    ensures Alternating(first, c1) + Alternating(first + |c1|, c2) == Alternating(first, c1 + c2)
    decreases |c1|
  {
    if c1 == [] {
      assert c1 + c2 == c2;
    } else {
      assert (c1 + c2)[1..] == c1[1..] + c2;
      AlternatingAppend(first + 1, c1[1..], c2);
    }
  }

  /** The BlockStart markers of a timeline: block number and announced trial count. */
  function BlockStartOf(x: Step): Option<(int, int)> {
    match x
    case Mark(BlockStart(_, b, n)) => Some((b, n))
    case _ => None
  }

  function BlockStarts(steps: seq<Step>): seq<(int, int)> {
    Project(steps, BlockStartOf)
  }

  function RestOf(x: Step): Option<real> {
    match x
    case Rest(d) => Some(d)
    case _ => None
  }

  /** The rest screens of a timeline, by duration. */
  function Rests(steps: seq<Step>): seq<real> {
    Project(steps, RestOf)
  }

  /** Steps with no BlockStart among their kinds carry no block opening. */
  lemma NoBlockStarts(steps: seq<Step>, ks: seq<K.Kind>)
    requires KindsIn(steps, ks) && K.BlockStart !in ks
    ensures BlockStarts(steps) == []
  {
    forall i | 0 <= i < |steps| ensures BlockStartOf(steps[i]).None? {
      assert KindOf(steps[i]) in ks;
    }
    ProjectNone(steps, BlockStartOf);
  }

  /** Steps with no rest screen among their kinds carry no rest. */
  lemma NoRests(steps: seq<Step>, ks: seq<K.Kind>)
    requires KindsIn(steps, ks) && K.Rest !in ks
    ensures Rests(steps) == []
  {
    forall i | 0 <= i < |steps| ensures RestOf(steps[i]).None? {
      assert KindOf(steps[i]) in ks;
    }
    ProjectNone(steps, RestOf);
  }
}
