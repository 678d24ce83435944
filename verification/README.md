# Confusing Office: a verified model of the colour-matching experiment

The system is a Unity VR experiment plus an offline Python analysis. A participant sees one coloured paper per trial,
grabs it and puts it into one of several colour trays. Under the **Control** condition the right tray is the paper's own
colour. Under **Confusion** it is the colour a per-block random mapping assigns. The experiment runs two sessions of
blocks of trials, and it writes Lab Streaming Layer (LSL) marker streams:

- an experiment stream of coded events;
- an interaction stream with a `Grab|…` or `Release|…` line for every grab and release;
- a placement-zone stream of `Enter|…`, `Exit|…` and `Placed|…` lines.

`analyze_office_vr.py` reads the interaction and placement streams back, counts grabs and placements, and pairs every
grab with its release.

The model makes everything deterministic by passing the inputs the C# coroutines wait for as parameters
(`Runs.World`):

- the k-th `Random.Range` draw is `rng(k)`;
- the participant's select-enter and select-exit events are a sequence that the current paper consumes one at a time.

A run (`Runs.Run`) is the observable trace, a sequence of `Markers.Step`, plus how it ended. The trace holds:

- the markers the call sites log, as a tagged datatype whose `Text` is the call site's string;
- the rest screens, the feedback and the completion message, as opaque steps.

A run can end in three ways:

- **finished**;
- **waiting**: it waits forever because the events ran out before a grab or placement;
- **crashed**: it threw an exception. The exception is taken to end the coroutine that threw and every coroutine
  waiting on it, with nothing logged afterwards (see Left out).

Files and modules:

| file | module | models |
|---|---|---|
| `experiment_config.dfy` | `ExperimentConfig` | the configuration records and `TrialCondition` |
| `event_codes.dfy` | `EventCodes` | the `LSLEventCode` taxonomy |
| `experiment_logger.dfy` | `ExperimentLogger` | `LSLExperimentLogger.LogEvent`, `GetColorCode`, `GetConditionCode` |
| `markers.dfy` | `StepKinds`, `Markers` | the call-site marker strings and the trace |
| `color_maps.dfy` | `ColorMaps` | the insertion-ordered dictionary, the mapping generator and the mapping string |
| `paper_grabbable.dfy` | `Grabbable` | the `PaperGrabbable` flags |
| `runs.dfy` | `Runs` | the inputs and results of a run |
| `trial_controller.dfy` | `TrialControl` | `SetupBlockColorMapping`, `RunTrial`, `RunSinglePaper` |
| `block_manager.dfy` | `Blocks` | `RunBlock` |
| `experiment_manager.dfy` | `Experiment` | `Start`, `RunExperiment`, `RunSession` |
| `grab_place_logger.dfy` | `Interactions` | `LSLGrabPlaceLogger` |
| `placement_zone.dfy` | `PlacementZones` | `LSLPlacementZone` |
| `analyzer.dfy` | `Analysis` | the Python parsers, summary and hold-time pairing |
| `strings.dfy`, `wrappers.dfy` | `Strings`, `Wrappers` | `Contains`, `Split`/`Join`, `Trim`, integer formatting, `Option` |

The imperative parts are methods:

- the sequencer coroutines;
- the mapping loops;
- the grab logger's and the placement zone's handlers, as classes with their fields;
- the analyzer's loops.

Each method is proved against a function that specifies it. The lemmas about those functions state what the experiment
promises.

The code, as written, behaves as follows:

- No block ever installs a colour mapping. `BlockManager.RunBlock` does not call `SetupBlockColorMapping`, so every
  trial indexes a null mapping and throws right after its `TrialStart` marker. With an exception taken to end the
  whole run, this is `Experiment.NeverPastFirstTrial` (see Findings). The trial layer is also modelled with an installed mapping, which is what `TrialControl.TrialFinished`
  describes, and `Blocks.MappedBlockNeverCrashes` shows that a block run with that mapping never throws.
- The colour list is not validated. There is no error for fewer than two colours or for duplicates, so the bijection
  property needs distinct colours as a hypothesis.
- Trial numbers restart at 1 in every session; they do not keep increasing across the experiment.
- `totalTrials` is never read, and no warning is issued when it differs from the block lengths.
- `LogEvent` pushes the integer code alone: no timestamp and no metadata.
- `Start` tests the configuration file name, not the loaded configuration, and only after the loader has run; the
  loader already throws on a null name, so the guard never fires (see Findings). `ExperimentManager.Start` models it
  as written, and `ExperimentManager.GuardedStartup` is the corrected start.

## Model

| member | source | states |
|---|---|---|
| ExperimentConfig.ConditionName | Assets/Scripts/Config/ExperimentConfig.cs:53-57 | A condition prints as "Control" or "Confusion", and the name reads back as the same condition (exactly two variants). |
| EventCodes.CodeRoundTrip | Assets/Scripts/LSL/EventCodes.cs:1-45 | Every enum member's integer reads back as that member, and any integer that reads back is that member's code. |
| EventCodes.CodesDistinct | Assets/Scripts/LSL/EventCodes.cs:4-44 | No two event codes share an integer. |
| EventCodes.EndFollowsStart | Assets/Scripts/LSL/EventCodes.cs:4-18 | The experiment, session, block and trial end codes are their start codes plus one. |
| EventCodes.CodeInDecade | Assets/Scripts/LSL/EventCodes.cs:3-44 | Every code lies in the decade of the group its comment names, so the group is the tens digit. |
| EventCodes.ColorCodeRange | Assets/Scripts/LSL/EventCodes.cs:40-44 | A code is a colour code iff it is in 80..84, and ColorUnknown is 84. |
| EventCodes.PlacementOutcomesDiffer | Assets/Scripts/LSL/EventCodes.cs:24-25 | Correct and incorrect placement have the distinct codes 52 and 53. |
| ExperimentLogger.EventDataFields | Assets/Scripts/LSL/LSLExperimentLogger.cs:89-91 | The formatted data is the code alone for empty metadata; otherwise its first `\|` field is the code and the rest is the metadata verbatim. |
| ExperimentLogger.LSLExperimentLogger.LogEvent | Assets/Scripts/LSL/LSLExperimentLogger.cs:84-98 | Without an outlet nothing changes. With one, the buffer holds the integer code and exactly that integer is appended to the pushed samples; the metadata is never pushed. |
| ExperimentLogger.GetColorCode | Assets/Scripts/LSL/LSLExperimentLogger.cs:101-111 | The lookup is total and always yields a colour-group code. |
| ExperimentLogger.ColorCodeIffName | Assets/Scripts/LSL/LSLExperimentLogger.cs:103-109 | A name gets red/green/blue/yellow iff its lower-case form is that word; every other name, and only those, gets ColorUnknown (84). |
| ExperimentLogger.ColorCodeCaseInsensitive | Assets/Scripts/LSL/LSLExperimentLogger.cs:103-108 | Any capitalisation of a known colour name gives that colour's code. |
| ExperimentLogger.GetConditionCode | Assets/Scripts/LSL/LSLExperimentLogger.cs:114-119 | The code is 70 iff the condition is Control, and 71 iff it is not. |
| Markers.Tag | Assets/Scripts/Experiment/TrialController.cs:44-102 | Each marker's tag is non-empty and `\|`-free, so it is a whole field of the marker text. |
| Markers.TagIsFirstField | Assets/Scripts/Experiment/BlockManager.cs:18-33 | The first `\|` field of any marker's text is its tag, whatever the names in the other fields hold. |
| Markers.TagsIdentifyKind | Assets/Scripts/Experiment/ExperimentManager.cs:45-104 | Markers with equal tags are of the same kind, so the text identifies which call site logged it. |
| Markers.TrialStartReadBack | Assets/Scripts/Experiment/TrialController.cs:55 | A TrialStart text has five fields, and `S`, `B` and `T` followed by the session, block and trial numbers and the condition name are read back from them. |
| Markers.Timeline.Log | Assets/Scripts/LSL/LSLExperimentLogger.cs:84 | Logging a marker appends exactly that marker to the trace. |
| ColorMaps.Put | Assets/Scripts/Experiment/TrialController.cs:23 | Assigning a key updates the table at that key only. |
| ColorMaps.PutValid | Assets/Scripts/Experiment/TrialController.cs:23 | After an assignment, the key list still lists every key exactly once: an existing key keeps its place and a new key goes last. |
| ColorMaps.PutAllKeys | Assets/Scripts/Experiment/TrialController.cs:21-24 | A loop of assignments adds exactly the assigned keys to the key set and keeps the key list valid. |
| ColorMaps.PutAllKeeps | Assets/Scripts/Experiment/TrialController.cs:31-36 | A key that no later assignment touches keeps its value. |
| ColorMaps.PutAllAt | Assets/Scripts/Experiment/TrialController.cs:31-36 | With distinct keys, the i-th key ends up mapped to the i-th value. |
| ColorMaps.PutAllZip | Assets/Scripts/Experiment/TrialController.cs:31-36 | With distinct keys, every key ends up mapped to the value at its position. |
| ColorMaps.PutAllOrder | Assets/Scripts/Experiment/TrialController.cs:40-43 | Distinct new keys are enumerated in the order they were assigned, after the existing ones. |
| ColorMaps.PutAllIdentity | Assets/Scripts/Experiment/TrialController.cs:21-24 | Assigning each key to itself keeps every entry a self-mapping. |
| ColorMaps.RemoveAtCount | Assets/Scripts/Experiment/TrialController.cs:35 | `RemoveAt(i)` takes one occurrence of the i-th entry out of the pool and leaves everything else. |
| ColorMaps.DrawAll | Assets/Scripts/Experiment/TrialController.cs:29-36 | Each draw indexes the shrinking pool, so one target is drawn per pool entry. |
| ColorMaps.DrawAllPermutes | Assets/Scripts/Experiment/TrialController.cs:29-36 | The drawn targets are a rearrangement of the colour list: every colour is drawn exactly as often as it occurs. |
| ColorMaps.Mapping | Assets/Scripts/Experiment/TrialController.cs:14-37 | Under either condition, the mapping's key set is exactly the set of configured colours, each listed once. |
| ColorMaps.ControlIsIdentity | Assets/Scripts/Experiment/TrialController.cs:18-25 | Under Control every configured colour is a key and maps to itself. |
| ColorMaps.DistinctRearranged | Assets/Scripts/Experiment/TrialController.cs:29-36 | A rearrangement of a repeat-free colour list is repeat-free, so the drawn targets are distinct. |
| ColorMaps.ZipInto | Assets/Scripts/Experiment/TrialController.cs:31-36 | A mapping from the colours to a rearrangement of them sends every key to a colour. |
| ColorMaps.ZipInjective | Assets/Scripts/Experiment/TrialController.cs:31-36 | Such a mapping of distinct colours never sends two keys to the same target. |
| ColorMaps.ZipOnto | Assets/Scripts/Experiment/TrialController.cs:31-36 | Such a mapping makes every colour some key's target. |
| ColorMaps.ConfusionIsBijection | Assets/Scripts/Experiment/TrialController.cs:29-36 | Under Confusion with distinct colours, the mapping is a bijection of the colour set: every colour is a key once and a target once. |
| ColorMaps.ConfusionMayKeepAColour | Assets/Scripts/Experiment/TrialController.cs:33-34 | No derangement is enforced: whenever the first draw is 0, Red maps to itself under Confusion. |
| ColorMaps.Pairs | Assets/Scripts/Experiment/TrialController.cs:40-43 | There is one `k->v` entry per key, in key order. |
| ColorMaps.PairsTextIsJoin | Assets/Scripts/Experiment/TrialController.cs:39-43 | The accumulated string is the entries joined by single spaces, plus one trailing space. |
| ColorMaps.MappingTextIsPairs | Assets/Scripts/Experiment/TrialController.cs:39-44 | The logged mapping is "" for an empty map. Otherwise it is the entries in colour order, single-space separated, with the trailing space trimmed, provided the first colour does not begin and the last target does not end with white space. |
| ColorMaps.ControlKeysInOrder | Assets/Scripts/Experiment/TrialController.cs:18-25 | Under Control with distinct colours, the dictionary enumerates the colours in configured order. |
| ColorMaps.ControlText | Assets/Scripts/Experiment/TrialController.cs:18-44 | Under Control the logged mapping is `c->c` for every colour, in configured order, single-space separated. |
| Grabbable.GrabIsPermanent | Assets/Scripts/Interaction/PaperGrabbable.cs:10 | Once grabbed, a paper stays grabbed whatever events follow. |
| Grabbable.PlacementIsPermanent | Assets/Scripts/Interaction/PaperGrabbable.cs:11 | Once placed, a paper stays placed whatever events follow. |
| Grabbable.ReplayConsistent | Assets/Scripts/Interaction/PaperGrabbable.cs:39-40 | `IsPlaced` holds exactly when a tray name is set, after any sequence of events. |
| Grabbable.GrabNeedsSelectEnter | Assets/Scripts/Interaction/PaperGrabbable.cs:23-26 | An ungrabbed paper becomes grabbed only if a select-enter is among the events. |
| Grabbable.TrayNameNeedsSelectExit | Assets/Scripts/Interaction/PaperGrabbable.cs:34-42 | A tray name changes only to a socket's name, and only if a select-exit under that socket is among the events. |
| Grabbable.PlacedWithoutGrab | Assets/Scripts/Interaction/PaperGrabbable.cs:28-32 | Release handling ignores `IsGrabbed`: a release into a socket before any grab places the paper. |
| Grabbable.PaperGrabbable.OnGrabbed | Assets/Scripts/Interaction/PaperGrabbable.cs:23-26 | A select-enter sets `IsGrabbed` and changes nothing else. |
| Grabbable.PaperGrabbable.OnReleased | Assets/Scripts/Interaction/PaperGrabbable.cs:28-32 | A select-exit keeps `IsGrabbed`. Under a socket it places the paper in that tray; with no socket it leaves placement and tray name unchanged. |
| Grabbable.PaperGrabbable.CheckSocketPlacement | Assets/Scripts/Interaction/PaperGrabbable.cs:34-42 | The new state is the release transition of the state machine. |
| Grabbable.PaperGrabbable.Handle | Assets/Scripts/Interaction/PaperGrabbable.cs:19-20 | Each event is routed to its listener, so the state follows the event's transition. |
| Grabbable.Await | Assets/Scripts/Experiment/TrialController.cs:92-96 | A wait that ends leaves the awaited flag up. A wait that never ends has consumed every event with the flag still down. Either way the state is the replay of exactly the events read. |
| Grabbable.AwaitConsistent | Assets/Scripts/Experiment/TrialController.cs:92-96 | Waiting preserves the placed/tray-name consistency. |
| TrialControl.PaperRun | Assets/Scripts/Experiment/TrialController.cs:83-111 | A paper reads no random draw and consumes interaction events only forward from where it starts. |
| TrialControl.PaperRunCases | Assets/Scripts/Experiment/TrialController.cs:83-111 | A paper waits at the grab, waits at the placement, or finishes, and the steps logged in each case are listed. |
| TrialControl.PaperRunOrder | Assets/Scripts/Experiment/TrialController.cs:89-105 | A paper's steps are a prefix of PaperSpawned, PaperGrabbed, PaperPlaced, feedback, and the whole sequence iff it finished. |
| TrialControl.PaperFinished | Assets/Scripts/Experiment/TrialController.cs:99-105 | A finished paper logs its spawn, grab and placement. The placement names the tray the paper was placed in and the correct tray. The result, and the feedback shown, are true iff the placed name contains the correct tray as a substring. |
| TrialControl.PaperRunCausality | Assets/Scripts/Experiment/TrialController.cs:92-102 | PaperGrabbed is logged only after a select-enter was read. PaperPlaced naming tray t is logged only after a select-exit under socket t was read. |
| TrialControl.TrialRun | Assets/Scripts/Experiment/TrialController.cs:47-81 | A trial consumes exactly one random draw and only moves forward in the event stream. |
| TrialControl.TrialOrder | Assets/Scripts/Experiment/TrialController.cs:55-78 | A trial logs, in order, TrialStart, ColorMapping, the paper's steps and TrialEnd. It stops short only where it waits or throws, and it ends with TrialEnd iff it finished. |
| TrialControl.TrialRunMapped | Assets/Scripts/Experiment/TrialController.cs:57-78 | With the colour in the mapping, the trial is TrialStart, ColorMapping(colour, tray), the paper run for that colour and tray, and TrialEnd iff the paper finished. |
| TrialControl.TrialFinished | Assets/Scripts/Experiment/TrialController.cs:57-102 | In a finished trial, the paper colour is a configured colour and the correct tray is the block mapping's entry for it. The placement is correct iff the placed tray name contains that entry. |
| TrialControl.ConditionOnlyLogged | Assets/Scripts/Experiment/TrialController.cs:55-75 | A Control and a Confusion trial with the same inputs draw the same colour, expect the same tray, log the same steps after TrialStart and end the same way. |
| TrialControl.TrialWithoutMapping | Assets/Scripts/Experiment/TrialController.cs:71 | With no mapping installed, a trial throws right after TrialStart. |
| TrialControl.InstalledMappingNeverCrashes | Assets/Scripts/Experiment/TrialController.cs:14-71 | With the mapping `SetupBlockColorMapping` installs for the configured colours, under either condition, a trial with a non-empty colour list never throws. |
| TrialControl.MarksOfTrialKinds | Assets/Scripts/Experiment/TrialController.cs:55-78 | The trial-level markers of a trial's steps are its opening, plus its closing iff complete. |
| TrialControl.TrialMarksOfTrial | Assets/Scripts/Experiment/TrialController.cs:55-78 | A trial opens with its own number and condition, closes with its number iff it finished, and makes only trial-kind steps. |
| TrialControl.WaitUntil | Assets/Scripts/Experiment/TrialController.cs:92-96 | The paper's new state and the event position are those `Await` describes. |
| TrialControl.FillIdentity | Assets/Scripts/Experiment/TrialController.cs:18-25 | The Control loop builds the dictionary of each colour assigned to itself, in order. |
| TrialControl.FillDrawn | Assets/Scripts/Experiment/TrialController.cs:29-36 | The Confusion loop builds the dictionary of colour i assigned to the i-th drawn target, the pool losing each drawn entry. |
| TrialControl.DrawStep | Assets/Scripts/Experiment/TrialController.cs:33-35 | One pass of the Confusion loop: putting the current colour to the pool entry at the drawn index and dropping that entry leaves the rest of the mapping to the remaining colours and the next draws. |
| TrialControl.FillMapping | Assets/Scripts/Experiment/TrialController.cs:16-37 | The mapping built is the condition's mapping, and the draws consumed are none under Control and one per colour under Confusion. |
| TrialControl.MappingString | Assets/Scripts/Experiment/TrialController.cs:39-44 | The string-building loop yields the trimmed `k->v` payload. |
| TrialControl.TrialController.SetupBlockColorMapping | Assets/Scripts/Experiment/TrialController.cs:14-45 | Installs the condition's mapping, consumes its draws, and logs exactly one BlockColorMapping marker carrying its text. |
| TrialControl.TrialController.RunTrial | Assets/Scripts/Experiment/TrialController.cs:47-81 | Appends exactly the trial's steps to the log and reports its outcome and the next unread inputs. |
| TrialControl.TrialController.RunSinglePaper | Assets/Scripts/Experiment/TrialController.cs:83-111 | Appends exactly the paper's steps and reports its outcome and inputs. |
| Blocks.TrialsStep | Assets/Scripts/Experiment/BlockManager.cs:24-30 | Trial i runs only after trials 0..i-1 finished, with number `start + i` and condition i, and its steps follow theirs with no overlap. |
| Blocks.TrialsStop | Assets/Scripts/Experiment/BlockManager.cs:20-31 | Once a trial stops short, no later trial of the block is run. |
| Blocks.TrialsNeverCrash | Assets/Scripts/Experiment/BlockManager.cs:20-31 | When no single trial throws, the block's trial loop does not throw either. |
| Blocks.DrivesRunsTrials | Assets/Scripts/Experiment/BlockManager.cs:24-30 | Running the real trial marks each trial with its number and condition and keeps to trial-kind steps. |
| Blocks.TrialsMarks | Assets/Scripts/Experiment/BlockManager.cs:20-31 | The block's trial markers are trial `start + i` opened with `conditions[i]` and closed, one after another, for every trial run. Exactly `conditions.Length` trials appear when all finish. |
| Blocks.TrialsKinds | Assets/Scripts/Experiment/BlockManager.cs:20-31 | A block's trials make only trial-level steps. |
| Blocks.BlockRun | Assets/Scripts/Experiment/BlockManager.cs:10-34 | A block's first step is BlockStart with the trial count, it ends as its trials do, and its last step is BlockEnd iff they all finished. |
| Blocks.MappedBlockNeverCrashes | Assets/Scripts/Experiment/BlockManager.cs:10-34 | A block run with the mapping that `SetupBlockColorMapping` installs for a non-empty list of configured colours, under either condition, never throws. |
| Blocks.DrivesBlockRun | Assets/Scripts/Experiment/BlockManager.cs:24-30 | Every description of the trial runner gives the same block. |
| Blocks.BlockSteps | Assets/Scripts/Experiment/BlockManager.cs:18-33 | A block's steps are its BlockStart, its trials' steps, and BlockEnd iff they all finished. |
| Blocks.BlockStartsOfBlock | Assets/Scripts/Experiment/BlockManager.cs:18 | A block announces itself exactly once, with its number and trial count. |
| Blocks.RestsOfBlock | Assets/Scripts/Experiment/BlockManager.cs:10-34 | A block shows no rest screen. |
| Blocks.TrialMarksOfBlock | Assets/Scripts/Experiment/BlockManager.cs:18-33 | The block brackets add no trial markers. |
| Blocks.BlockMarks | Assets/Scripts/Experiment/BlockManager.cs:20-31 | A block numbers its trials `start`, `start + 1`, … with their conditions. |
| Blocks.KindsOfBlock | Assets/Scripts/Experiment/BlockManager.cs:18-33 | Every step of a block is a trial step or a block bracket. |
| Blocks.RunTrialOf | Assets/Scripts/Experiment/BlockManager.cs:24-30 | The controller's log grows by exactly the trial's steps. |
| Blocks.RunTrials | Assets/Scripts/Experiment/BlockManager.cs:20-31 | The loop runs trial `start + i` with `conditions[i]` in turn, stops at the first that does not finish, and appends exactly those trials' steps. |
| Blocks.BlockManager.RunBlock | Assets/Scripts/Experiment/BlockManager.cs:10-34 | Appends exactly the block's steps, leaves the mapping alone, and reports the block's outcome. |
| Experiment.ConditionOf | Assets/Scripts/Experiment/ExperimentManager.cs:84 | A trial string maps to Control iff it is exactly "C"; every other string maps to Confusion. |
| Experiment.FillConditions | Assets/Scripts/Experiment/ExperimentManager.cs:81-85 | The fresh conditions array holds the conversion of each trial string, in order. |
| Experiment.AllCondsCount | Assets/Scripts/Experiment/ExperimentManager.cs:96 | A session's first k blocks hold as many trials as their trial strings. |
| Experiment.FirstTrialStep | Assets/Scripts/Experiment/ExperimentManager.cs:96 | Block k + 1 starts right after the trials of blocks 1..k. |
| Experiment.SessionBlocksStop | Assets/Scripts/Experiment/ExperimentManager.cs:76-102 | Once a block stops short, no later block of the session is run. |
| Experiment.SessionBlocksMarks | Assets/Scripts/Experiment/ExperimentManager.cs:74-96 | Within a session, trials are numbered 1, 2, … across all blocks with their conditions; block k starts at 1 plus the earlier blocks' lengths. |
| Experiment.NextMarks | Assets/Scripts/Experiment/ExperimentManager.cs:88-96 | Block k continues the numbering of the trials before it. |
| Experiment.NumberedJoin | Assets/Scripts/Experiment/ExperimentManager.cs:88-101 | The numbering of finished trials followed by a block and its rest screen is one continuous numbering. |
| Experiment.SessionBlocksStarts | Assets/Scripts/Experiment/ExperimentManager.cs:76-94 | A session's blocks are announced in order as 1, 2, … (`blockNum + 1`) with their sizes, all of them when it finishes. |
| Experiment.NextStarts | Assets/Scripts/Experiment/ExperimentManager.cs:90 | Block k is announced, as number k, after the k - 1 blocks before it. |
| Experiment.NextBlockShape | Assets/Scripts/Experiment/ExperimentManager.cs:88-101 | After finished blocks, block k's steps follow, then a rest screen iff block k finished and is not the last. |
| Experiment.SessionBlocksRests | Assets/Scripts/Experiment/ExperimentManager.cs:98-101 | In a finished session, a block-rest screen follows every block but the last. |
| Experiment.NextRests | Assets/Scripts/Experiment/ExperimentManager.cs:98-101 | Block k adds a rest screen unless it is the last. |
| Experiment.SessionBlocksKinds | Assets/Scripts/Experiment/ExperimentManager.cs:76-102 | Every step inside a session is a block step or a rest screen. |
| Experiment.SessionRun | Assets/Scripts/Experiment/ExperimentManager.cs:69-105 | A session's first step is SessionStart with its number and name. It ends as its blocks do, and its last step is SessionEnd iff they all finished. |
| Experiment.SessionSteps | Assets/Scripts/Experiment/ExperimentManager.cs:72-104 | A session's steps are its opening, its blocks' steps, and its closing iff they all finished. |
| Experiment.SessionNumbering | Assets/Scripts/Experiment/ExperimentManager.cs:74-96 | Every session numbers its trials from 1, whatever ran before it. |
| Experiment.SessionBlockNumbering | Assets/Scripts/Experiment/ExperimentManager.cs:76-94 | A session announces its blocks 1, 2, … in order with their sizes. |
| Experiment.SessionRests | Assets/Scripts/Experiment/ExperimentManager.cs:98-101 | A finished session with b ≥ 1 blocks shows exactly b - 1 rest screens of the block-rest duration, and none with no blocks. |
| Experiment.SessionBracket | Assets/Scripts/Experiment/ExperimentManager.cs:72-104 | The session's only session or experiment brackets are its SessionStart, and its SessionEnd iff it finished, both carrying `S{n}` and the name. |
| Experiment.ExperimentRun | Assets/Scripts/Experiment/ExperimentManager.cs:43-67 | The experiment opens with ExperimentStart and the initial rest. When finished, it closes with ExperimentEnd followed by the completion message. |
| Experiment.StatesInOrder | Assets/Scripts/Experiment/ExperimentManager.cs:48-64 | The states entered are a prefix of InitialRest, RunningSession1, InterSessionRest, RunningSession2, Completed, each entered once. Completed is reached iff the experiment finishes, and session 2 runs only after session 1 finished. |
| Experiment.ExperimentOutline | Assets/Scripts/Experiment/ExperimentManager.cs:45-66 | A finished experiment's brackets are ExperimentStart, session 1's start and end, session 2's start and end, then ExperimentEnd; the completion message is the last step. |
| Experiment.ExperimentNumbering | Assets/Scripts/Experiment/ExperimentManager.cs:74 | A finished experiment's trial markers are session 1's trials numbered from 1, then session 2's trials numbered from 1 again. |
| Experiment.AllNumbered | Assets/Scripts/Experiment/ExperimentManager.cs:74-96 | A finished session carries every one of its trials, opened and closed in order. |
| Experiment.BothSessionsFinish | Assets/Scripts/Experiment/ExperimentManager.cs:53-61 | The experiment finishes only if both sessions finish. |
| Experiment.TotalTrialsUnused | Assets/Scripts/Config/ExperimentConfig.cs:42-43 | Changing either session's declared `totalTrials` changes nothing in the run. |
| Experiment.NeverPastFirstTrial | Assets/Scripts/Experiment/BlockManager.cs:18-30 | With no mapping installed, an experiment whose first block has a trial throws right after that trial's TrialStart. With the exception taken to end the run, nothing follows, and only InitialRest and RunningSession1 were entered. |
| Experiment.FirstBlockCrashes | Assets/Scripts/Experiment/TrialController.cs:71 | Without a mapping, block 1 logs BlockStart and its first TrialStart and then throws; with the exception taken to end the block, nothing more of it is logged. |
| Experiment.StartAsWritten | Assets/Scripts/Experiment/ExperimentManager.cs:28-41 | `Start` launches exactly when a file name is given and its configuration loads, and a null name throws in the loader. |
| Experiment.StartMissesMissingConfig | Assets/Scripts/Experiment/ExperimentManager.cs:30-39 | As written, no input ever disables the component. A null name throws in the loader (`Path.Combine`, Assets/Scripts/Config/ExperimentConfigLoader.cs:10) before the guard. A missing configuration throws in `Initialize`; the default file name with no file behind it is one such input. |
| Experiment.GuardedStart | Assets/Scripts/Experiment/ExperimentManager.cs:30-40 | With the name tested before loading and the configuration tested after it, start never throws: it launches iff a name is given and its configuration loaded, and is disabled otherwise. |
| Experiment.GuardedStartAgrees | Assets/Scripts/Experiment/ExperimentManager.cs:30-40 | The corrected start behaves as the written one exactly when a file name is given and its configuration loads. |
| Experiment.RunBlocks | Assets/Scripts/Experiment/ExperimentManager.cs:74-102 | The block loop appends exactly the session's block steps and rests, starting block k + 1 at 1 plus the sizes of blocks 1..k. |
| Experiment.RunNextBlock | Assets/Scripts/Experiment/ExperimentManager.cs:78-101 | One loop iteration appends block k + 1 and, when it finished and is not last, the rest screen. |
| Experiment.RunBlockOf | Assets/Scripts/Experiment/ExperimentManager.cs:78-94 | Converts the block's trial strings and runs it as block `blockNum + 1` from the running trial number. |
| Experiment.StopsInSession1 | Assets/Scripts/Experiment/ExperimentManager.cs:52-53 | If session 1 does not finish, the experiment ends there, having entered InitialRest and RunningSession1 only. |
| Experiment.StopsInSession2 | Assets/Scripts/Experiment/ExperimentManager.cs:60-61 | If session 2 does not finish, the experiment ends before Completed. |
| Experiment.RunsToCompletion | Assets/Scripts/Experiment/ExperimentManager.cs:43-67 | When both sessions finish, every state is entered and ExperimentEnd and the completion message are logged. |
| Experiment.ExperimentManager.Start | Assets/Scripts/Experiment/ExperimentManager.cs:28-41 | Follows the written code: a null name throws in the loader with nothing stored or logged; a name with no configuration stores null and throws before any marker; otherwise the experiment runs. `enabled` never changes. |
| Experiment.ExperimentManager.GuardedStartup | Assets/Scripts/Experiment/ExperimentManager.cs:28-41 | The corrected `Start`: no file name, or a configuration that did not load, disables the component with nothing logged. A loaded configuration launches the experiment. It never throws. |
| Experiment.ExperimentManager.RunExperiment | Assets/Scripts/Experiment/ExperimentManager.cs:43-67 | Appends exactly the experiment's steps and records the states entered, the current state being the last one entered. |
| Experiment.ExperimentManager.Conclude | Assets/Scripts/Experiment/ExperimentManager.cs:64-66 | Enters Completed, then logs ExperimentEnd and shows the completion message. |
| Experiment.ExperimentManager.RestThenSession | Assets/Scripts/Experiment/ExperimentManager.cs:48-61 | Enters the rest state, rests, enters the session state and appends the session's steps. |
| Experiment.ExperimentManager.RunSession | Assets/Scripts/Experiment/ExperimentManager.cs:69-105 | Appends exactly the session's steps and reports its outcome. |
| Interactions.GetHandedness | Assets/Scripts/LSLGrabPlaceLogger.cs:141-152 | The hand is always one of LeftHand, RightHand and UnknownHand. |
| Interactions.HandednessByName | Assets/Scripts/LSLGrabPlaceLogger.cs:146-151 | LeftHand iff the name mentions "Left" or "left". RightHand iff it mentions "Right" or "right" and not left. UnknownHand iff it mentions neither. |
| Interactions.NullInteractorIsUnknown | Assets/Scripts/LSLGrabPlaceLogger.cs:144 | A null interactor is reported as the unknown hand. |
| Interactions.HandIsPipeFree | Assets/Scripts/LSLGrabPlaceLogger.cs:141-152 | No hand name contains the payload separator. |
| Interactions.GrabPayload | Assets/Scripts/LSLGrabPlaceLogger.cs:117 | A Grab payload opens with the `Grab\|` tag the analyzer reads as the event type. |
| Interactions.ReleasePayload | Assets/Scripts/LSLGrabPlaceLogger.cs:136 | A Release payload opens with the `Release\|` tag. |
| Interactions.GrabFields | Assets/Scripts/LSLGrabPlaceLogger.cs:117 | A Grab payload splits into its 7 fields Grab, name, hand, x, y, z, time, when no field contains `\|`. |
| Interactions.ReleaseFields | Assets/Scripts/LSLGrabPlaceLogger.cs:136 | A Release payload splits into its 8 fields with the zone at index 6, when no field contains `\|`. |
| Interactions.NoMarkingIsNone | Assets/Scripts/LSLGrabPlaceLogger.cs:159-182 | With no zone-marking collider nearby, the zone is "None". |
| Interactions.FirstMarkingNamesZone | Assets/Scripts/LSLGrabPlaceLogger.cs:159-179 | The zone is the original-case name of the first collider whose lower-cased name mentions shelf, tray, desk or placement, or which has a placement-zone component. |
| Interactions.SelfIsSkipped | Assets/Scripts/LSLGrabPlaceLogger.cs:162 | The released object's own collider never names the zone, whatever its name. |
| Interactions.ZoneOf | Assets/Scripts/LSLGrabPlaceLogger.cs:154-183 | The zone is "None" or the original-case name of a nearby collider that marks a zone and is not the object's own. |
| Interactions.DetectPlacementZone | Assets/Scripts/LSLGrabPlaceLogger.cs:154-183 | The early-return loop finds the zone the two lemmas above characterise. |
| Interactions.Present | Assets/Scripts/LSLGrabPlaceLogger.cs:78-84 | The tracked list is every interactable found, in order, none null. |
| Interactions.RegisteredNames | Assets/Scripts/LSLGrabPlaceLogger.cs:89-104 | Registration caches exactly the non-null tracked objects under their current names and keeps every other cached name. |
| Interactions.AddedIsIdempotent | Assets/Scripts/LSLGrabPlaceLogger.cs:220-226 | Adding makes the object tracked and never creates a duplicate, and adding it again changes nothing. |
| Interactions.ReportedName | Assets/Scripts/LSLGrabPlaceLogger.cs:111 | A registered object is reported under its cached name however it was renamed since; an unregistered one under its current name. |
| Interactions.GrabPlaceLogger.FindAllInteractables | Assets/Scripts/LSLGrabPlaceLogger.cs:75-87 | Replaces the tracked list with every interactable found. |
| Interactions.GrabPlaceLogger.RegisterInteractables | Assets/Scripts/LSLGrabPlaceLogger.cs:89-104 | The name cache becomes the registration of the tracked list. |
| Interactions.GrabPlaceLogger.Start | Assets/Scripts/LSLGrabPlaceLogger.cs:32-42 | Opens the outlet, replaces the tracked list only when auto-find is on, then registers. |
| Interactions.GrabPlaceLogger.SendLSLMarker | Assets/Scripts/LSLGrabPlaceLogger.cs:185-194 | Pushes exactly the payload when the outlet exists, and nothing otherwise. |
| Interactions.GrabPlaceLogger.OnObjectGrabbed | Assets/Scripts/LSLGrabPlaceLogger.cs:106-120 | A non-grab interactable, or a missing outlet, sends nothing. Otherwise it pushes the Grab payload with the cached or current name and the hand. |
| Interactions.GrabPlaceLogger.OnObjectReleased | Assets/Scripts/LSLGrabPlaceLogger.cs:122-139 | As for a grab, but it pushes the Release payload carrying the detected zone. |
| Interactions.GrabPlaceLogger.AddTrackedObject | Assets/Scripts/LSLGrabPlaceLogger.cs:218-227 | Adds the object and caches its name only if it is not already tracked. |
| PlacementZones.SharedInit | Assets/Scripts/LSLPlacementZone.cs:52-85 | A shared zone starting leaves a shared outlet existing and raises the count by one. |
| PlacementZones.SharedDestroy | Assets/Scripts/LSLPlacementZone.cs:194-203 | Destroying lowers the count. At zero or below, an existing outlet is dropped and the count reset to 0; the outlet survives iff the count stays positive. |
| PlacementZones.CountsLiveZones | Assets/Scripts/LSLPlacementZone.cs:52-85 | When every destroy follows its start, the count is the number of live shared zones, and the outlet exists iff one is live. |
| PlacementZones.UnmatchedDestroy | Assets/Scripts/LSLPlacementZone.cs:194-203 | An unmatched destroy leaves the count at -1. The next start then opens the outlet at count 0, so the following destroy drops it while that zone is still live. |
| PlacementZones.IsTrackedObject | Assets/Scripts/LSLPlacementZone.cs:155-171 | An object with an excluded name is never tracked; any other object is tracked iff it has a Rigidbody or a grab interactable. |
| PlacementZones.TrayAndGrayNeverTracked | Assets/Scripts/LSLPlacementZone.cs:158-166 | Because the "ray" test matches "tray" and "gray", objects so named are never tracked. |
| PlacementZones.DwellIsElapsedTime | Assets/Scripts/LSLPlacementZone.cs:119-146 | With a clock that never goes back, recorded entries stay in the past, so every dwell is non-negative, and an exit reports the time since its entry. |
| PlacementZones.ZoneSample | Assets/Scripts/LSLPlacementZone.cs:124-125 | An Enter sample (and a Placed sample, built the same way at line 212) opens with its tag and the `\|` separator. |
| PlacementZones.ExitPayload | Assets/Scripts/LSLPlacementZone.cs:149 | An Exit payload opens with the `Exit\|` tag, which is what makes the analyzer read its dwell. |
| PlacementZones.ZoneSampleFields | Assets/Scripts/LSLPlacementZone.cs:124-125 | An Enter or Placed sample has 8 fields, tag first and time last, when tag, names and positions contain no `\|` (same format at line 212). |
| PlacementZones.ExitFields | Assets/Scripts/LSLPlacementZone.cs:149 | An Exit payload has 9 fields with the dwell at index 7. |
| PlacementZones.PlacementZone.InitializeLSL | Assets/Scripts/LSLPlacementZone.cs:50-106 | A shared zone creates the shared outlet only when there is none, uses it, and raises the count. A non-shared zone gets a fresh outlet of its own and leaves the statics alone. |
| PlacementZones.PlacementZone.Start | Assets/Scripts/LSLPlacementZone.cs:37-48 | Makes the collider a trigger, then sets the outlet up. |
| PlacementZones.PlacementZone.OnDestroy | Assets/Scripts/LSLPlacementZone.cs:192-204 | A shared zone applies the destroy transition; a non-shared one changes nothing. |
| PlacementZones.PlacementZone.SendLSLMarker | Assets/Scripts/LSLPlacementZone.cs:173-182 | Pushes exactly the payload when the zone has an outlet. |
| PlacementZones.PlacementZone.OnTriggerEnter | Assets/Scripts/LSLPlacementZone.cs:108-129 | Without enter/exit tracking, or for an untracked object, nothing changes. Otherwise the entry time is recorded or overwritten when dwell tracking is on, and an Enter sample is pushed. |
| PlacementZones.PlacementZone.OnTriggerExit | Assets/Scripts/LSLPlacementZone.cs:131-153 | Without enter/exit tracking, or for an untracked object, nothing changes. Otherwise the dwell is the time since the recorded entry, which is forgotten; with no entry, or dwell tracking off, the dwell is 0 and the map is untouched. An Exit sample is pushed. |
| PlacementZones.PlacementZone.LogPlacement | Assets/Scripts/LSLPlacementZone.cs:207-214 | Always pushes the Placed payload when there is an outlet, with no filtering. |
| Analysis.ParseInteraction | analyze_office_vr.py:44-54 | A line gives a row iff it has at least 7 fields. The row keeps the sample's time stamp, and a line of exactly 7 fields has zone "N/A". |
| Analysis.ParsePlacement | analyze_office_vr.py:67-79 | A line gives a row iff it has at least 8 fields. The row keeps the sample's time stamp, and it has a dwell iff its event type is Exit. |
| Analysis.ParseInteractionsAppend | analyze_office_vr.py:40-55 | Parsing is per sample: a stream in two parts parses as the rows of each part in order. |
| Analysis.InteractionRowsCounted | analyze_office_vr.py:44 | Exactly the samples with at least 7 fields give a row, one each; shorter ones are dropped. |
| Analysis.GrabRoundTrip | analyze_office_vr.py:44-54 | A Grab line from the interaction logger parses with every field in place and zone 'N/A', when no field contains `\|`. |
| Analysis.ReleaseRoundTrip | analyze_office_vr.py:53-54 | A Release line parses with zone `parts[6]`, the detected zone, and the time from the last field. |
| Analysis.PipeInNameShiftsFields | analyze_office_vr.py:44-54 | A `\|` in an object name shifts every later field one place right. The name's tail becomes the hand, the z position becomes the zone, and the x field holds a hand name, which starts with a letter. |
| Analysis.ZoneSampleRoundTrip | analyze_office_vr.py:67-78 | An Enter or Placed line from a zone parses with every field in place and dwell 0; only the Exit tag is read with a dwell. |
| Analysis.ExitRoundTrip | analyze_office_vr.py:77 | An Exit line parses with dwell `parts[7]`, which reads back as the dwell the zone computed. |
| Analysis.ParseInteractionStream | analyze_office_vr.py:36-57 | The loop yields exactly the rows of the samples with enough fields. |
| Analysis.ParsePlacementStream | analyze_office_vr.py:59-81 | The loop yields exactly the rows of the samples with at least 8 fields. |
| Analysis.InteractionStreamFound | analyze_office_vr.py:28-29 | There is an interaction frame iff some stream name mentions "Interactions", read from the last such stream. A name mentioning both never becomes the placement frame. |
| Analysis.PlacementStreamFound | analyze_office_vr.py:32-33 | There is a placement frame iff some stream is a placement stream, read from the last one. |
| Analysis.ParseStreams | analyze_office_vr.py:23-34 | The loop fills each frame from the last stream its name selects and ignores the others. |
| Analysis.Filter | analyze_office_vr.py:88-89 | A mask keeps no more rows than the input, and every kept row is in the input and satisfies the mask. |
| Analysis.FilterLast | analyze_office_vr.py:88-89 | A row is kept by a mask iff it is in the input and satisfies the mask. |
| Analysis.FilterComplement | analyze_office_vr.py:88-89 | A mask and its complement split the rows between them. |
| Analysis.TaskSummary | analyze_office_vr.py:83-105 | No interaction stream gives None. A stream with no rows raises KeyError. Any other stream gives a summary. |
| Analysis.SummaryCounts | analyze_office_vr.py:88-103 | Left plus right grabs are at most the total. The per-object counts sum to the grabs, and unique objects are at most the grabs. Releases split into placements in a zone and releases in "None", and the per-zone counts sum to the placements. Grabs and releases together are at most the rows. |
| Analysis.PlacementsAreZonedReleases | analyze_office_vr.py:101-102 | A row is a successful placement iff it is a release whose zone is not "None". |
| Analysis.NoInteractionStream | analyze_office_vr.py:83-110 | Without an interaction stream, both the summary and the hold times are None. |
| Analysis.FirstRelease | analyze_office_vr.py:119-125 | A release that is found is one of the releases, of the grabbed object and stamped strictly after the grab. |
| Analysis.HoldTimes | analyze_office_vr.py:117-134 | There are at most as many hold rows as grabs, and every row's release is stamped strictly after its grab. |
| Analysis.FirstReleaseIsFirst | analyze_office_vr.py:119-125 | The chosen release is a matching release (same object, strictly later) with none before it; none is chosen iff there is no match. |
| Analysis.HoldsArePositive | analyze_office_vr.py:126-133 | Every hold row's release is stamped strictly after its grab, and its duration is their difference, so it is positive. |
| Analysis.HoldRowsCounted | analyze_office_vr.py:117-134 | There is one hold row per grab that has a matching release; unmatched grabs are dropped. |
| Analysis.MatchingRelease | analyze_office_vr.py:119-125 | The search finds the first matching release. |
| Analysis.InteractionTimes | analyze_office_vr.py:107-136 | No interaction stream gives None, and a stream with no rows raises KeyError. Otherwise there are at most as many rows as grabs, each with a positive duration. |
| Analysis.CalculateInteractionTimes | analyze_office_vr.py:107-136 | The loop returns what `InteractionTimes` specifies: None without a stream, KeyError for a frame with no rows, otherwise one row per grab with a matching release, in grab order. |
| Strings.ContainsIffOccurs | Assets/Scripts/Experiment/TrialController.cs:100 | Ordinal `Contains` holds iff the substring occurs at some position. |
| Strings.TrimStart | Assets/Scripts/Experiment/TrialController.cs:44 | The result is a suffix of the input that does not start with white space, and every character dropped before it is white space. |
| Strings.TrimEnd | Assets/Scripts/Experiment/TrialController.cs:44 | The result is a prefix of the input that does not end with white space, and every character dropped after it is white space. |
| Strings.TrimDropsTrailingSpace | Assets/Scripts/Experiment/TrialController.cs:42-44 | Trimming an unpadded string with a space appended gives it back. |
| Strings.Split | analyze_office_vr.py:42 | `split('\|')` yields at least one piece and no piece contains the separator. |
| Strings.SplitJoin | analyze_office_vr.py:42 | Splitting undoes joining when no piece contains the separator. |
| Strings.JoinSplit | analyze_office_vr.py:65 | Joining undoes splitting, for every string. |
| Strings.IntToString | Assets/Scripts/LSLPlacementZone.cs:149 | The formatted integer is non-empty and never contains `\|`. |
| Strings.ParseIntToString | analyze_office_vr.py:77 | Formatting an integer and reading it back gives the integer. |

## Left out

- The configuration loader (`ExperimentConfigLoader.cs`) is file I/O and JSON parsing. Its result is a parameter
  `loaded: Option<Config>`, read only when a file name is given: a null name makes `Path.Combine` throw
  (`Assets/Scripts/Config/ExperimentConfigLoader.cs:10`), which is the `LoaderThrows` path of `Start`.
- LSL outlet construction is reduced to an "outlet open" flag or a fresh `Outlet` object. This covers `Initialize`
  (`LSLExperimentLogger.cs:22-60`) and both `InitializeLSL`s: stream info, `Hash128` source ids and XML metadata.
  Only the pushed samples are kept.
- The head-tracking `Update` loop (`LSLExperimentLogger.cs:62-82`) is left out; it is float timers and transforms.
- The rest screen, the feedback display and the completion message are opaque trace steps. Their fades, audio and
  countdowns are not modelled, and neither are `WaitForSeconds` delays. The `Feedback` step records correctness and
  the stillness duration.
- `Time.time` and positions are parameters. C# `:F3` float formatting is not modelled. Positions, and the time stamps
  in Grab and Release payloads, are opaque strings. In Enter, Exit and Placed payloads the time stamp and the Exit
  dwell are integer tick counts formatted with `IntToString`.
- Python `float()` and its `ValueError` on a malformed numeric field are not modelled. Numeric fields stay strings,
  except the LSL sample time stamps, which are integers (so hold durations are integer differences).
- Unity event wiring is not modelled: `AddListener`/`RemoveListener`, `Awake`, and the `OnDestroy` unsubscription in
  `LSLGrabPlaceLogger` and `PaperGrabbable`. Events reach handlers by explicit calls (`PaperGrabbable.Handle`).
- `Physics.OverlapSphere` is replaced by the list of colliders it returns, in query order.
- `Destroy(paper)` and the paper prefab (`ColorPaperSpawner.cs`) are left out. Each paper is a fresh `PaperGrabbable`
  in its spawned state.
- C# `ToLower` is modelled on ASCII letters only; culture-specific case mappings are left out.
- Console logging (`LogMessage`, `Debug.Log`) is left out.
- `AddTrackedObject(null)` is not modelled: the argument is always an interactable.
- The pandas `value_counts().to_dict()` dictionaries are multisets of names; the dictionary form is not modelled.
- `pyxdf` loading, plotting and CSV export are left out. Streams are given as names plus samples.
- The `LogEvent` signature mismatch: call sites pass one formatted string where `LogEvent(LSLEventCode, string)` is
  declared. The trace records the call-site strings as `Markers.Marker` values, and `LogEvent`'s own formatting and
  push are modelled separately in `ExperimentLogger`. How the C# compiler would resolve the mismatch is not modelled.
- Runs.Outcome.Crashed, Experiment.NeverPastFirstTrial, Experiment.FirstBlockCrashes: an exception is modelled as
  ending the coroutine that threw and every coroutine waiting on it, with nothing logged afterwards. Unity's own
  handling of an exception inside a coroutine (it logs it, and whether a parent that yields on that coroutine
  resumes is engine behaviour) is not modelled. If the parent resumed, each later trial would log its `TrialStart`
  and throw in the same way, and the block, session and experiment brackets would follow.
- Interleaving of coroutines with other Unity callbacks is left out. The sequencer is one sequential run over the event
  stream.
- ColorMaps.MappingTextIsPairs: stated only when the first colour does not begin and the last target does not end with
  white space, because `Trim` would also remove that padding.
- Interactions.GrabFields, Interactions.ReleaseFields, Analysis.GrabRoundTrip and Analysis.ReleaseRoundTrip hold only
  for `|`-free names and numbers. With a `|` in an object name the analyzer raises ValueError, because the field that
  `float(parts[3])` reads (`analyze_office_vr.py:50`) then holds the hand name. The model, which has no `float()`,
  instead reads the shifted row that `Analysis.PipeInNameShiftsFields` describes.

## Findings

| source | as written | input that shows it | evidently intended | confidence | as-written member | corrected member |
|---|---|---|---|---|---|---|
| Assets/Scripts/Experiment/ExperimentManager.cs:30-37 | The guard tests `configFilename == null`, and only after `LoadConfig(configFilename)` has run. A null name has already thrown in `Path.Combine`, and a missing or unreadable file is not caught, so `Initialize` dereferences the null configuration. No input ever reaches `enabled = false`. | `configFilename = "ExperimentConfig.json"` with no file behind it: the loader returns null and `Start` throws instead of disabling the component. | Test the name before loading and the loaded configuration after it, as the error message "configuration file not found" says: disable when either is missing, launch otherwise. | not executed | Experiment.StartMissesMissingConfig | Experiment.ExperimentManager.GuardedStartup |
| Assets/Scripts/Experiment/BlockManager.cs:10-34 | `RunBlock` never calls `SetupBlockColorMapping`, and nothing else installs a mapping, so `currentColorMapping[paperColor]` (`Assets/Scripts/Experiment/TrialController.cs:71`) indexes a null dictionary and every trial throws right after its `TrialStart` marker. That the run then never gets past its first trial holds with an exception taken to end the waiting block, session and experiment coroutines; Unity's own coroutine exception handling is not modelled (see Left out). | Any configuration whose first block of session 1 has a trial. | Each block installs its colour mapping before its trials, so that every trial reaches its paper. The code does not say which condition a block's mapping would use; the corrected property holds for either. | not executed | Experiment.NeverPastFirstTrial | Blocks.MappedBlockNeverCrashes |
