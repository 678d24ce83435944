/**
 * The experiment marker outlet (`LSLExperimentLogger`): `LogEvent` with its one-integer sample
 * buffer, and the two code helpers `GetColorCode` and `GetConditionCode`.
 *
 * `LogEvent` is declared over an `LSLEventCode` and a metadata string, formats "code|metadata"
 * into a local that is never used, and pushes only the integer code. The sequencer's call sites
 * pass a single formatted string instead; those strings are modelled by `Markers.Text`.
 */
module ExperimentLogger {
  import opened EventCodes
  import opened ExperimentConfig
  import opened Strings

  /** The text `LogEvent` builds: the code alone when the metadata is empty, else code, '|', metadata. */
  function EventData(code: int, metadata: string): string {
    if metadata == "" then IntToString(code) else IntToString(code) + "|" + metadata
  }

  /** The code is the first '|'-field of the text, and the metadata is everything after the first '|'. */
  lemma EventDataFields(code: int, metadata: string)
    ensures var parts := Split(EventData(code, metadata), '|');
      && parts[0] == IntToString(code)
      && (|parts| == 1 <==> metadata == "")
      && (metadata != "" ==> Join(parts[1..], '|') == metadata)
  {
    var c := IntToString(code);
    if metadata == "" {
      SplitWithoutSeparator(c, '|');
    } else {
      assert EventData(code, metadata) == c + ['|'] + metadata;
      SplitAtFirstSeparator(c, metadata, '|');
      var parts := Split(EventData(code, metadata), '|');
      assert parts[1..] == Split(metadata, '|');
      JoinSplit(metadata, '|');
    }
  }

  class LSLExperimentLogger {
    /** `eventOutlet != null`: set by `Initialize`, whose stream set-up is not modelled. */
    var outletOpen: bool
    /** The one-element sample buffer `eventSample`. */
    const eventSample: array<int>
    /** The samples pushed to the outlet, in push order. */
    var pushed: seq<int>

    ghost predicate Valid()
      reads this
    {
      eventSample.Length == 1
    }

    constructor ()
      ensures Valid() && fresh(eventSample)
      ensures !outletOpen && pushed == [] && eventSample[0] == 0
    {
      outletOpen := false;
      pushed := [];
      eventSample := new int[1](_ => 0);
    }

    /** Opening the event outlet (the stream description itself is not modelled). */
    method Initialize()
      modifies this
      ensures outletOpen && pushed == old(pushed)
    {
      outletOpen := true;
    }

    /**
     * Without an outlet nothing happens. With one, the buffer holds the integer code and
     * exactly that integer is pushed: the metadata never leaves the method.
     */
    method LogEvent(eventCode: LSLEventCode, metadata: string)
      requires Valid()
      modifies this, eventSample
      ensures Valid() && outletOpen == old(outletOpen)
      ensures old(outletOpen) ==> pushed == old(pushed) + [Code(eventCode)] && eventSample[0] == Code(eventCode)
      ensures !old(outletOpen) ==> pushed == old(pushed) && eventSample[0] == old(eventSample[0])
    {
      if outletOpen {
        var code := Code(eventCode);
        var data := EventData(code, metadata);
        eventSample[0] := code;
        pushed := pushed + [eventSample[0]];
      }
    }
  }

  /** Case-insensitive colour lookup with an "unknown" fallback; it never fails. */
  function GetColorCode(colorName: string): (e: LSLEventCode)
    ensures GroupOf(e) == ColorMarkers
  {
    var n := Lower(colorName);
    if n == "red" then ColorRed
    else if n == "green" then ColorGreen
    else if n == "blue" then ColorBlue
    else if n == "yellow" then ColorYellow
    else ColorUnknown
  }

  /** The lower-case name each known colour code is looked up by. */
  function ColorNameOf(e: LSLEventCode): string {
    match e
    case ColorRed => "red"
    case ColorGreen => "green"
    case ColorBlue => "blue"
    case ColorYellow => "yellow"
    case _ => ""
  }

  lemma LowerOfLower(s: string)
    ensures Lower(Lower(s)) == Lower(s)
  {
  }

  /**
   * A name gets one of the four known codes exactly when its lower-case form is that code's name;
   * every other name (including "" and "Purple") gets ColorUnknown, 84.
   */
  lemma ColorCodeIffName(colorName: string, e: LSLEventCode)
    requires e in {ColorRed, ColorGreen, ColorBlue, ColorYellow}
    ensures GetColorCode(colorName) == e <==> Lower(colorName) == ColorNameOf(e)
    ensures GetColorCode(colorName) == ColorUnknown <==>
      Lower(colorName) !in {"red", "green", "blue", "yellow"}
    ensures Code(GetColorCode(colorName)) == 84 <==> GetColorCode(colorName) == ColorUnknown
  {
  }

  /** Looking a known code's name up again gives the code back, whatever the case of its letters. */
  lemma ColorCodeCaseInsensitive(colorName: string, e: LSLEventCode)
    requires e in {ColorRed, ColorGreen, ColorBlue, ColorYellow}
    requires Lower(colorName) == ColorNameOf(e)
    ensures GetColorCode(colorName) == e
    ensures GetColorCode(ColorNameOf(e)) == e
  {
    assert Lower(ColorNameOf(e)) == ColorNameOf(e);
  }

  /** Control gives ConditionControl (70); any other condition gives ConditionConfusion (71). */
  function GetConditionCode(condition: TrialCondition): (e: LSLEventCode)
    ensures GroupOf(e) == ConditionMarkers
    ensures Code(e) == 70 <==> condition == Control
    ensures Code(e) == 71 <==> condition != Control
  {
    if condition == Control then ConditionControl else ConditionConfusion
  }
}
