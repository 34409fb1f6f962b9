/**
 * The console callback of the control panel: a click on one of the fifteen buttons
 * yields the new text of the read-only console text area, computed from the id of the
 * button that triggered the callback and the text the area held before.
 *
 * Buttons 1 to 11 append a message to the old text; buttons 12 to 15 replace it with a
 * banner carrying the current time; any other trigger gives `None`. The clock is a
 * parameter: `now` is the text of `datetime.datetime.now()` at the click.
 */
module Console {
  import opened Wrappers

  /** The fifteen buttons, named by their labels, in the order of their ids. */
  datatype CommandId =
    | SmUpdatePosition        // button-1
    | SmUpdateVoltage         // button-2
    | SmHome                  // button-3
    | SmSetVoltageCh1         // button-4
    | SmSetVoltageCh2         // button-5
    | SmSetPositionCh1        // button-6
    | SmSetPositionCh2        // button-7
    | VoltageGridSweep        // button-8
    | PositionGridScan        // button-9
    | ManualTtl               // button-10
    | InitMeasurementSequence // button-11
    | StartApdTtlCount        // button-12
    | SmOff                   // button-13
    | LabJackOff              // button-14
    | ClearConsole            // button-15

  /** The number in the button's component id. */
  function ButtonNumber(c: CommandId): (n: int)
    ensures 1 <= n <= 15
  {
    match c
    case SmUpdatePosition => 1
    case SmUpdateVoltage => 2
    case SmHome => 3
    case SmSetVoltageCh1 => 4
    case SmSetVoltageCh2 => 5
    case SmSetPositionCh1 => 6
    case SmSetPositionCh2 => 7
    case VoltageGridSweep => 8
    case PositionGridScan => 9
    case ManualTtl => 10
    case InitMeasurementSequence => 11
    case StartApdTtlCount => 12
    case SmOff => 13
    case LabJackOff => 14
    case ClearConsole => 15
  }

  /** The component id of the button, as `ctx.triggered_id` reports it. */
  function ButtonId(c: CommandId): (id: string)
    ensures 7 < |id| && id[..7] == "button-"
  {
    match c
    case SmUpdatePosition => "button-1"
    case SmUpdateVoltage => "button-2"
    case SmHome => "button-3"
    case SmSetVoltageCh1 => "button-4"
    case SmSetVoltageCh2 => "button-5"
    case SmSetPositionCh1 => "button-6"
    case SmSetPositionCh2 => "button-7"
    case VoltageGridSweep => "button-8"
    case PositionGridScan => "button-9"
    case ManualTtl => "button-10"
    case InitMeasurementSequence => "button-11"
    case StartApdTtlCount => "button-12"
    case SmOff => "button-13"
    case LabJackOff => "button-14"
    case ClearConsole => "button-15"
  }

  /** Which branch of the callback's chain of id tests an id selects, the first match winning. */
  function Dispatch(triggeredId: string): (r: Option<CommandId>)
    ensures r.Some? ==> ButtonId(r.value) == triggeredId
  {
    if triggeredId == "button-1" then Some(SmUpdatePosition)
    else if triggeredId == "button-2" then Some(SmUpdateVoltage)
    else if triggeredId == "button-3" then Some(SmHome)
    else if triggeredId == "button-4" then Some(SmSetVoltageCh1)
    else if triggeredId == "button-5" then Some(SmSetVoltageCh2)
    else if triggeredId == "button-6" then Some(SmSetPositionCh1)
    else if triggeredId == "button-7" then Some(SmSetPositionCh2)
    else if triggeredId == "button-8" then Some(VoltageGridSweep)
    else if triggeredId == "button-9" then Some(PositionGridScan)
    else if triggeredId == "button-10" then Some(ManualTtl)
    else if triggeredId == "button-11" then Some(InitMeasurementSequence)
    else if triggeredId == "button-12" then Some(StartApdTtlCount)
    else if triggeredId == "button-13" then Some(SmOff)
    else if triggeredId == "button-14" then Some(LabJackOff)
    else if triggeredId == "button-15" then Some(ClearConsole)
    else None
  }

  /** What a branch does to the console text. */
  datatype Transition =
    | Append(lines: seq<string>)  // the old text followed by these lines, in order
    | Reset                       // a fresh banner; the before text is dropped

  /** The two lines button-1 appends, with a pause between them. */
  const CHANNEL_1_LINE := "Channel 1 at 1 mrad\n"
  const CHANNEL_2_LINE := "Channel 2 at 1 mrad\n" + "\n"

  /** The transition of each branch, with the literal texts the branches append. */
  function TransitionOf(c: CommandId): (t: Transition)
    ensures t.Append? ==> |t.lines| == (if c == SmUpdatePosition then 2 else 1)
    ensures t.Append? ==> forall i :: 0 <= i < |t.lines| ==> EndsLine(t.lines[i])
  {
    match c
    case SmUpdatePosition => Append([CHANNEL_1_LINE, CHANNEL_2_LINE])
    case SmUpdateVoltage => Append(["Steering Mirror Voltage Channel 1 and 2  \n"])
    case SmHome => Append(["Steering Mirror Home Sequence Initiated \n"])
    case SmSetVoltageCh1 => Append(["Set Channel 2 Voltage to \n"])
    case SmSetVoltageCh2 => Append(["Set Channel 2 Voltage to \n"])
    case SmSetPositionCh1 => Append(["Voltage Grid Sweep\n"])
    case SmSetPositionCh2 => Append(["Position Grid Scan initialized \n"])
    case VoltageGridSweep => Append(["Initialize Measurement Sequence \n"])
    case PositionGridScan => Append([" Position Grid Scan (Closed Loop) \n"])
    case ManualTtl => Append(["you just pressed button 2 \n"])
    case InitMeasurementSequence => Append(["you just pressed button 2 \n"])
    case StartApdTtlCount => Reset
    case SmOff => Reset
    case LabJackOff => Reset
    case ClearConsole => Reset
  }

  /** A non-empty text whose last character is a newline. */
  predicate EndsLine(line: string) {
    0 < |line| && line[|line| - 1] == '\n'
  }

  /** The lines, one after another. */
  function Concat(lines: seq<string>): (r: string)
    ensures |lines| == 1 ==> r == lines[0]
    ensures |lines| == 2 ==> r == lines[0] + lines[1]
  {
    if lines == [] then "" else lines[0] + Concat(lines[1..])
  }

  /** The whole text an append-class button adds (empty for a reset-class one). */
  function Message(c: CommandId): (r: string) {
    match TransitionOf(c)
    case Append(lines) => Concat(lines)
    case Reset => ""
  }

  /** The banner of a reset; also the placeholder the console shows at start-up. */
  function Banner(now: string): (r: string)
    ensures |r| == |BANNER_HEAD| + |now|
    ensures r[..|BANNER_HEAD|] == BANNER_HEAD && r[|BANNER_HEAD|..] == now
  {
    BANNER_HEAD + now
  }

  /** The fixed head of the banner, before the time. */
  const BANNER_HEAD := "- Experiment Control Program \n Time : "

  /** The old text a branch starts from: a missing or empty console value reads as "". */
  function OldText(consoleValue: Option<string>): (r: string)
    ensures r == (if consoleValue.Some? && consoleValue.value != "" then consoleValue.value else "")
  {
    consoleValue.GetOr("")
  }

  /** The console callback: the new console value after a trigger, or `None` when no branch matches. */
  function UpdateConsole(triggeredId: Option<string>, consoleValue: Option<string>, now: string): (r: Option<string>)
    ensures r.Some? <==> triggeredId.Some? && Dispatch(triggeredId.value).Some?
  {
    match triggeredId
    case None => None
    case Some(id) =>
      match Dispatch(id)
      case None => None
      case Some(c) =>
        match TransitionOf(c)
        case Append(lines) => Some(OldText(consoleValue) + Concat(lines))
        case Reset => Some(Banner(now))
  }

  /** Every button's id selects that button's branch, and only that id does. */
  lemma DispatchButtonId(c: CommandId, id: string)
    ensures Dispatch(ButtonId(c)) == Some(c)
    ensures Dispatch(id) == Some(c) <==> id == ButtonId(c)
  {
  }

  /** Buttons 1 to 11 append and buttons 12 to 15 reset. */
  lemma TransitionClasses(c: CommandId)
    ensures TransitionOf(c).Append? <==> ButtonNumber(c) <= 11
    ensures TransitionOf(c).Reset? <==> 12 <= ButtonNumber(c)
  {
  }

  /**
   * An append-class click keeps the before text (a missing or empty one as "") as a prefix
   * and adds exactly the button's message after it.
   */
  lemma AppendClick(c: CommandId, consoleValue: Option<string>, now: string)
    requires ButtonNumber(c) <= 11
    ensures UpdateConsole(Some(ButtonId(c)), consoleValue, now).Some?
    ensures var t := UpdateConsole(Some(ButtonId(c)), consoleValue, now).value;
      var before := OldText(consoleValue);
      && |t| == |before| + |Message(c)|
      && t[..|before|] == before
      && t[|before|..] == Message(c)
  {
    DispatchButtonId(c, ButtonId(c));
    TransitionClasses(c);
  }

  /** Button-1 appends its first line and then its second, after the before text. */
  lemma UpdatePositionClick(consoleValue: Option<string>, now: string)
    ensures UpdateConsole(Some("button-1"), consoleValue, now)
      == Some(OldText(consoleValue) + CHANNEL_1_LINE + CHANNEL_2_LINE)
    ensures var t := UpdateConsole(Some("button-1"), consoleValue, now).value;
      var before := OldText(consoleValue);
      && t[|before|..|before| + |CHANNEL_1_LINE|] == CHANNEL_1_LINE
      && t[|before| + |CHANNEL_1_LINE|..] == CHANNEL_2_LINE
  {
    var before := OldText(consoleValue);
    assert before + Concat([CHANNEL_1_LINE, CHANNEL_2_LINE]) == before + CHANNEL_1_LINE + CHANNEL_2_LINE;
    assert (before + CHANNEL_1_LINE + CHANNEL_2_LINE)[|before|..|before| + |CHANNEL_1_LINE|] == CHANNEL_1_LINE;
    assert (before + CHANNEL_1_LINE + CHANNEL_2_LINE)[|before| + |CHANNEL_1_LINE|..] == CHANNEL_2_LINE;
  }

  /** A reset-class click gives the banner of the click's time, whatever the before text was. */
  lemma ResetClick(c: CommandId, consoleValue: Option<string>, now: string)
    requires 12 <= ButtonNumber(c)
    ensures UpdateConsole(Some(ButtonId(c)), consoleValue, now) == Some(Banner(now))
  {
    DispatchButtonId(c, ButtonId(c));
    TransitionClasses(c);
  }

  /** An id that no branch tests, and a callback with no trigger, give `None`. */
  lemma UnmatchedTrigger(triggeredId: Option<string>, consoleValue: Option<string>, now: string)
    requires triggeredId.Some? ==> forall c: CommandId :: triggeredId.value != ButtonId(c)
    ensures UpdateConsole(triggeredId, consoleValue, now) == None
  {
  }

  /** The result never depends on whether an empty console is `None` or "". */
  lemma EmptyReadsAsNothing(triggeredId: Option<string>, now: string)
    ensures UpdateConsole(triggeredId, None, now) == UpdateConsole(triggeredId, Some(""), now)
  {
  }

  /** Behaviour that differs from the button labels. */
  lemma LabelMismatches(consoleValue: Option<string>, now: string)
    // "SM Home" appends instead of resetting
    ensures UpdateConsole(Some("button-3"), consoleValue, now)
      == Some(OldText(consoleValue) + "Steering Mirror Home Sequence Initiated \n")
    // "Start APD TTL Count" resets the console
    ensures UpdateConsole(Some("button-12"), consoleValue, now) == Some(Banner(now))
  {
  }

  /** Messages that differ from their button labels. */
  lemma MessageMismatches()
    // "SM Set Voltage CH1" reports channel 2, like "SM Set Voltage CH2"
    ensures Message(SmSetVoltageCh1) == Message(SmSetVoltageCh2)
    // "Manual TTL to Spectrometer" and "Initialize Measurement Sequence" say "button 2"
    ensures Message(ManualTtl) == Message(InitMeasurementSequence) == "you just pressed button 2 \n"
    // "SM Set Position CH1" reports a voltage grid sweep
    ensures Message(SmSetPositionCh1) == "Voltage Grid Sweep\n"
    // "SM Set Position CH2" reports a position grid scan
    ensures Message(SmSetPositionCh2) == "Position Grid Scan initialized \n"
    // "Voltage Grid Sweep (Open Loop)" reports the measurement sequence
    ensures Message(VoltageGridSweep) == "Initialize Measurement Sequence \n"
  {
  }

  /** One click of the console: the button's id (or none) and the time it happened. */
  datatype Click = Click(triggeredId: Option<string>, now: string)

  /**
   * The console value after a series of clicks: Dash feeds each result back as the
   * console state of the next callback.
   */
  function Run(consoleValue: Option<string>, clicks: seq<Click>): (r: Option<string>)
    ensures clicks == [] ==> r == consoleValue
    ensures clicks != [] ==> (r.Some? <==> Matched(clicks[|clicks| - 1]))
    decreases |clicks|
  {
    if clicks == [] then consoleValue
    else Run(UpdateConsole(clicks[0].triggeredId, consoleValue, clicks[0].now), clicks[1..])
  }

  /** The click's id is some button's id. */
  predicate Matched(click: Click) {
    click.triggeredId.Some? && Dispatch(click.triggeredId.value).Some?
  }

  /** Run is a left fold: one more click applies the callback once more to the result. */
  lemma {:induction false} RunSnoc(consoleValue: Option<string>, clicks: seq<Click>, click: Click)
    ensures Run(consoleValue, clicks + [click])
      == UpdateConsole(click.triggeredId, Run(consoleValue, clicks), click.now)
    decreases |clicks|
  {
    if clicks == [] {
      assert [] + [click] == [click];
    } else {
      var next := UpdateConsole(clicks[0].triggeredId, consoleValue, clicks[0].now);
      assert (clicks + [click])[1..] == clicks[1..] + [click];
      RunSnoc(next, clicks[1..], click);
    }
  }

  /** The messages of a series of append-class clicks, one after another. */
  function Messages(cs: seq<CommandId>): (r: string)
    decreases |cs|
  {
    if cs == [] then "" else Message(cs[0]) + Messages(cs[1..])
  }

  /** The clicks of the buttons `cs`, at the times `times`. */
  function ClicksOf(cs: seq<CommandId>, times: seq<string>): (r: seq<Click>)
    requires |times| == |cs|
    ensures |r| == |cs|
    ensures forall i :: 0 <= i < |cs| ==> r[i] == Click(Some(ButtonId(cs[i])), times[i])
  {
    seq(|cs|, i requires 0 <= i < |cs| => Click(Some(ButtonId(cs[i])), times[i]))
  }

  /**
   * Between resets the console is append-only: its text grows by each message in turn,
   * and after at least one click it is no longer `None`.
   */
  lemma {:induction false} AppendOnlyRun(consoleValue: Option<string>, cs: seq<CommandId>, times: seq<string>)
    requires |times| == |cs|
    requires forall i :: 0 <= i < |cs| ==> ButtonNumber(cs[i]) <= 11
    ensures OldText(Run(consoleValue, ClicksOf(cs, times))) == OldText(consoleValue) + Messages(cs)
    ensures cs != [] ==> Run(consoleValue, ClicksOf(cs, times)).Some?
    decreases |cs|
  {
    var before := OldText(consoleValue);
    if cs == [] {
      assert ClicksOf(cs, times) == [];
      assert before + Messages(cs) == before;
    } else {
      var next := Some(before + Message(cs[0]));
      RunAppendStep(consoleValue, cs, times);
      AppendOnlyRun(next, cs[1..], times[1..]);
      ConcatAssoc(before, Message(cs[0]), Messages(cs[1..]));
      if cs[1..] == [] {
        assert ClicksOf(cs[1..], times[1..]) == [];
      }
    }
  }

  /** The first of a series of clicks, when it is an append-class one. */
  lemma RunAppendStep(consoleValue: Option<string>, cs: seq<CommandId>, times: seq<string>)
    requires |times| == |cs| && 0 < |cs| && ButtonNumber(cs[0]) <= 11
    ensures Run(consoleValue, ClicksOf(cs, times))
      == Run(Some(OldText(consoleValue) + Message(cs[0])), ClicksOf(cs[1..], times[1..]))
  {
    var clicks := ClicksOf(cs, times);
    AppendStep(cs[0], consoleValue, times[0]);
    assert clicks[1..] == ClicksOf(cs[1..], times[1..]);
  }

  /** String concatenation is associative (stated on abstract strings, so that proofs
      using it need not unfold the literal messages). */
  lemma ConcatAssoc(a: string, b: string, c: string)
    ensures a + b + c == a + (b + c)
  {
  }

  /** An append-class click, as one equation. */
  lemma AppendStep(c: CommandId, consoleValue: Option<string>, now: string)
    requires ButtonNumber(c) <= 11
    ensures UpdateConsole(Some(ButtonId(c)), consoleValue, now) == Some(OldText(consoleValue) + Message(c))
  {
    AppendClick(c, consoleValue, now);
    var t := UpdateConsole(Some(ButtonId(c)), consoleValue, now).value;
    var before := OldText(consoleValue);
    assert t == t[..|before|] + t[|before|..];
  }

  /** After a reset-class click and any append-class clicks, the console starts with that banner. */
  lemma BannerThenAppends(c: CommandId, now: string, consoleValue: Option<string>,
                          cs: seq<CommandId>, times: seq<string>)
    requires 12 <= ButtonNumber(c)
    requires |times| == |cs|
    requires forall i :: 0 <= i < |cs| ==> ButtonNumber(cs[i]) <= 11
    ensures Run(consoleValue, [Click(Some(ButtonId(c)), now)] + ClicksOf(cs, times))
      == Some(Banner(now) + Messages(cs))
  {
    var clicks := [Click(Some(ButtonId(c)), now)] + ClicksOf(cs, times);
    ResetClick(c, consoleValue, now);
    assert clicks[1..] == ClicksOf(cs, times);
    AppendOnlyRun(Some(Banner(now)), cs, times);
    var r := Run(Some(Banner(now)), ClicksOf(cs, times));
    if cs == [] {
      assert ClicksOf(cs, times) == [];
    } else {
      assert r == Some(OldText(r));
    }
  }
}
