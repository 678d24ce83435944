/**
 * The configuration records the experiment reads (deserialised from JSON by the loader,
 * which is not part of this model) and the two trial conditions.
 * Durations are C# floats; they only pass through to the rest and feedback screens, so
 * they are kept as reals.
 */
module ExperimentConfig {

  datatype ExperimentInfo = ExperimentInfo(name: string, version: string, description: string)

  datatype TimingSettings = TimingSettings(
    initialRestDuration: real,
    blockRestDuration: real,
    headStillnessDuration: real,
    interSessionRestDuration: real)

  /** The colours: an ordered list, with no uniqueness or minimum-size constraint. */
  datatype TaskSettings = TaskSettings(colors: seq<string>)

  /**
   * A block is its per-trial string array (plus a free-text note); it is the only block form.
   * Its size is the length of that array.
   */
  datatype BlockConfig = BlockConfig(trials: seq<string>, note: string)

  /** `totalTrials` is a standalone number: nothing ties it to the blocks. */
  datatype SessionConfig = SessionConfig(
    sessionNumber: int,
    name: string,
    totalTrials: int,
    blocks: seq<BlockConfig>)

  /** An experiment has exactly two sessions. */
  datatype Config = Config(
    experimentInfo: ExperimentInfo,
    timing: TimingSettings,
    taskSettings: TaskSettings,
    session1: SessionConfig,
    session2: SessionConfig)

  /** Exactly two conditions; the comments in the enum pair them with the letters "C" and "X". */
  datatype TrialCondition = Control | Confusion

  /** The enum's name, as string interpolation prints it. */
  function ConditionName(c: TrialCondition): (r: string)
    ensures r == "Control" || r == "Confusion"
    ensures ConditionFromName(r) == c
  {
    match c
    case Control => "Control"
    case Confusion => "Confusion"
  }

  /** Inverse of `ConditionName`, for reading a TrialStart payload back. */
  function ConditionFromName(s: string): TrialCondition {
    if s == "Control" then Control else Confusion
  }

  /** The number of trials the blocks of a session actually hold. */
  function BlockTrialCount(blocks: seq<BlockConfig>): nat {
    if blocks == [] then 0 else |blocks[0].trials| + BlockTrialCount(blocks[1..])
  }
}
