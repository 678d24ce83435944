/**
 * The numeric marker taxonomy of the experiment stream (`LSLEventCode`).
 * Codes are grouped by decade; each group's comment in the enum names its range.
 */
module EventCodes {
  import opened Wrappers

  datatype LSLEventCode =
    | ExperimentStart | ExperimentEnd
    | SessionStart | SessionEnd
    | BlockStart | BlockEnd | BlockMapping
    | TrialStart | TrialEnd | TrialMapping
    | PaperSpawn | PaperGrab | PaperPlaceCorrect | PaperPlaceIncorrect
    | FeedbackScanStart | FeedbackShowCorrect | FeedbackShowIncorrect | FeedbackEnd
    | LatencyCubeAppear | LatencyCubeDisappear
    | ConditionControl | ConditionConfusion
    | ColorRed | ColorGreen | ColorBlue | ColorYellow | ColorUnknown

  /** The integer value of each enum member, `(int)eventCode`. */
  function Code(e: LSLEventCode): int {
    match e
    case ExperimentStart => 10
    case ExperimentEnd => 11
    case SessionStart => 20
    case SessionEnd => 21
    case BlockStart => 30
    case BlockEnd => 31
    case BlockMapping => 32
    case TrialStart => 40
    case TrialEnd => 41
    case TrialMapping => 42
    case PaperSpawn => 50
    case PaperGrab => 51
    case PaperPlaceCorrect => 52
    case PaperPlaceIncorrect => 53
    case FeedbackScanStart => 60
    case FeedbackShowCorrect => 61
    case FeedbackShowIncorrect => 62
    case FeedbackEnd => 63
    case LatencyCubeAppear => 64
    case LatencyCubeDisappear => 65
    case ConditionControl => 70
    case ConditionConfusion => 71
    case ColorRed => 80
    case ColorGreen => 81
    case ColorBlue => 82
    case ColorYellow => 83
    case ColorUnknown => 84
  }

  /** Reads a code back; `None` for an integer outside the taxonomy. */
  function FromCode(n: int): Option<LSLEventCode> {
    match n
    case 10 => Some(ExperimentStart)
    case 11 => Some(ExperimentEnd)
    case 20 => Some(SessionStart)
    case 21 => Some(SessionEnd)
    case 30 => Some(BlockStart)
    case 31 => Some(BlockEnd)
    case 32 => Some(BlockMapping)
    case 40 => Some(TrialStart)
    case 41 => Some(TrialEnd)
    case 42 => Some(TrialMapping)
    case 50 => Some(PaperSpawn)
    case 51 => Some(PaperGrab)
    case 52 => Some(PaperPlaceCorrect)
    case 53 => Some(PaperPlaceIncorrect)
    case 60 => Some(FeedbackScanStart)
    case 61 => Some(FeedbackShowCorrect)
    case 62 => Some(FeedbackShowIncorrect)
    case 63 => Some(FeedbackEnd)
    case 64 => Some(LatencyCubeAppear)
    case 65 => Some(LatencyCubeDisappear)
    case 70 => Some(ConditionControl)
    case 71 => Some(ConditionConfusion)
    case 80 => Some(ColorRed)
    case 81 => Some(ColorGreen)
    case 82 => Some(ColorBlue)
    case 83 => Some(ColorYellow)
    case 84 => Some(ColorUnknown)
    case _ => None
  }

  /** Every code can be read back, and reading back only ever yields the code read. */
  lemma CodeRoundTrip(e: LSLEventCode, n: int)
    ensures FromCode(Code(e)) == Some(e)
    ensures FromCode(n).Some? ==> Code(FromCode(n).value) == n
  {
  }

  /** All codes are pairwise distinct. */
  lemma CodesDistinct(a: LSLEventCode, b: LSLEventCode)
    ensures Code(a) == Code(b) ==> a == b
  {
    CodeRoundTrip(a, 0);
    CodeRoundTrip(b, 0);
  }

  /** Each boundary's end code is its start code plus one. */
  lemma EndFollowsStart()
    ensures Code(ExperimentEnd) == Code(ExperimentStart) + 1
    ensures Code(SessionEnd) == Code(SessionStart) + 1
    ensures Code(BlockEnd) == Code(BlockStart) + 1
    ensures Code(TrialEnd) == Code(TrialStart) + 1
  {
  }

  /** The groups of the enum, in the order its comments list them. */
  datatype Group =
    | ExperimentBoundaries | SessionBoundaries | BlockBoundaries | TrialBoundaries
    | StimulusEvents | FeedbackEvents | ConditionMarkers | ColorMarkers

  function GroupOf(e: LSLEventCode): Group {
    match e
    case ExperimentStart | ExperimentEnd => ExperimentBoundaries
    case SessionStart | SessionEnd => SessionBoundaries
    case BlockStart | BlockEnd | BlockMapping => BlockBoundaries
    case TrialStart | TrialEnd | TrialMapping => TrialBoundaries
    case PaperSpawn | PaperGrab | PaperPlaceCorrect | PaperPlaceIncorrect => StimulusEvents
    case FeedbackScanStart | FeedbackShowCorrect | FeedbackShowIncorrect | FeedbackEnd
      | LatencyCubeAppear | LatencyCubeDisappear => FeedbackEvents
    case ConditionControl | ConditionConfusion => ConditionMarkers
    case ColorRed | ColorGreen | ColorBlue | ColorYellow | ColorUnknown => ColorMarkers
  }

  /** The first code of the decade a group's comment states (10-19, 20-29, ..., 80-89). */
  function Decade(g: Group): int {
    match g
    case ExperimentBoundaries => 10
    case SessionBoundaries => 20
    case BlockBoundaries => 30
    case TrialBoundaries => 40
    case StimulusEvents => 50
    case FeedbackEvents => 60
    case ConditionMarkers => 70
    case ColorMarkers => 80
  }

  /** Every code lies in its group's decade, so the group can be read off the tens digit. */
  lemma CodeInDecade(e: LSLEventCode)
    ensures Decade(GroupOf(e)) <= Code(e) < Decade(GroupOf(e)) + 10
    ensures Code(e) / 10 * 10 == Decade(GroupOf(e))
  {
  }

  /** The colour codes are exactly 80 to 84, ColorUnknown being the last. */
  lemma ColorCodeRange(e: LSLEventCode)
    ensures GroupOf(e) == ColorMarkers <==> 80 <= Code(e) <= 84
    ensures Code(ColorUnknown) == 84
  {
  }

  /** The two placement outcomes have different codes. */
  lemma PlacementOutcomesDiffer()
    ensures Code(PaperPlaceCorrect) == 52 && Code(PaperPlaceIncorrect) == 53
  {
  }
}
