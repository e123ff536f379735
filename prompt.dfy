/**
 * The prompt builder: the task text sent to the automation agent, a header
 * with the state and score, the list of signal types, one body chosen by
 * the state, and an emergency clause when a power-off attempt was seen.
 */
module Prompt {
  import opened Signals
  import opened Classification
  import opened Text

  datatype Option<T> = None | Some(value: T)

  /**
   * What the request says about the device and its owner. The battery level
   * is kept as the text JavaScript renders the number as.
   */
  datatype Context = Context(ownerName: string, lastKnownLocation: string, batteryLevel: string)

  const STATE_PREFIX: string := "Current State: "
  const SCORE_PREFIX: string := ". Confidence Score: "
  const SIGNALS_PREFIX: string := "Signals: "
  const LINE_END: string := ".\n"

  /** The first line: state and score. */
  function Header(state: AgentState, score: nat): string
  {
    STATE_PREFIX + StateName(state) + SCORE_PREFIX + NatToString(score) + LINE_END
  }

  /** The signal types in input order. */
  function SignalTypes(signals: seq<Signal>): seq<string>
  {
    seq(|signals|, i requires 0 <= i < |signals| => TypeName(signals[i]))
  }

  /** The second line: the signal types joined by ", ". */
  function SignalsLine(signals: seq<Signal>): string
  {
    SIGNALS_PREFIX + Join(SignalTypes(signals)) + LINE_END
  }

  /** `lastKnownLocation || 'Unknown'`: the empty string is falsy. */
  function LocationText(ctx: Context): (location: string)
    ensures location != ""
    ensures ctx.lastKnownLocation != "" ==> location == ctx.lastKnownLocation
  {
    if ctx.lastKnownLocation == "" then UNKNOWN_LOCATION else ctx.lastKnownLocation
  }

  const UNKNOWN_LOCATION: string := "Unknown"
  const THEFT_MARKER: string := "CRITICAL: THEFT DETECTED. ACT IMMEDIATELY.\n"
  const SMS_PREFIX: string := "- Send SMS to Gautam Govind with Location: "
  const NEWLINE: string := "\n"
  const CALL_LINE: string := "- Initiate Gautam Govind call.\n"
  const LOCK_LINE: string := "- Lock device screen.\n"
  const OWNER_PREFIX: string := "Context: Owner "
  const BATTERY_PREFIX: string := ", Battery "
  const BATTERY_SUFFIX: string := "%.\n"
  const SUSPICIOUS_MARKER: string := "WARNING: Suspicious activity detected.\n"
  const PREPARE_LINE: string := "- Prepare SMS text but do not send yet.\n"
  const NORMAL_MARKER: string := "Status Normal. Log events and continue monitoring.\n"
  const EMERGENCY_CLAUSE: string := "\nEMERGENCY: POWER OFF ATTEMPT DETECTED! EXECUTE EMERGENCY PACKET NOW.\n"

  /** The first line of the body for a state. */
  function Marker(state: AgentState): string
  {
    match state
    case TheftMode => THEFT_MARKER
    case Suspicious => SUSPICIOUS_MARKER
    case Normal => NORMAL_MARKER
  }

  /** The SMS directive of the THEFT_MODE body. */
  function SmsLine(ctx: Context): string
  {
    SMS_PREFIX + LocationText(ctx) + NEWLINE
  }

  /** The owner and battery line of the THEFT_MODE body. */
  function ContextLine(ctx: Context): string
  {
    OWNER_PREFIX + ctx.ownerName + BATTERY_PREFIX + ctx.batteryLevel + BATTERY_SUFFIX
  }

  /** The directive lines that follow the marker line of a state's body. */
  function Directives(state: AgentState, ctx: Context): string
  {
    match state
    case TheftMode => SmsLine(ctx) + CALL_LINE + LOCK_LINE + ContextLine(ctx)
    case Suspicious => PREPARE_LINE
    case Normal => ""
  }

  /** The body the state calls for: its marker line, then its directives. */
  function StateBody(state: AgentState, ctx: Context): string
  {
    Marker(state) + Directives(state, ctx)
  }

  predicate HasPowerOff(signals: seq<Signal>)
  {
    PowerOffAttempt in signals
  }

  /** The two leading lines: state and score, then the signal types. */
  function Opening(state: AgentState, score: nat, signals: seq<Signal>): string
  {
    Header(state, score) + SignalsLine(signals)
  }

  /**
   * The whole task prompt, as a value of its inputs: the two leading lines,
   * the state body, and the emergency clause when a power-off attempt was seen.
   */
  function TaskPrompt(state: AgentState, score: nat, signals: seq<Signal>, ctx: Context): (p: string)
    ensures |Opening(state, score, signals)| + |Marker(state)| <= |p|
  {
    var main := Opening(state, score, signals) + StateBody(state, ctx);
    if HasPowerOff(signals) then main + EMERGENCY_CLAUSE else main
  }

  /** The types of one more signal are the types so far followed by its own. */
  lemma SignalTypesSnoc(signals: seq<Signal>, i: nat)
    requires i < |signals|
    ensures SignalTypes(signals[..i + 1]) == SignalTypes(signals[..i]) + [TypeName(signals[i])]
  {
  }

  /** `signals.map(s => s.type).join(', ')`, one signal at a time. */
  method JoinSignalTypes(signals: seq<Signal>) returns (line: string)
    ensures line == Join(SignalTypes(signals))
  {
    line := "";
    for i := 0 to |signals|
      invariant line == Join(SignalTypes(signals[..i]))
    {
      SignalTypesSnoc(signals, i);
      if i > 0 {
        JoinSnoc(SignalTypes(signals[..i]), TypeName(signals[i]));
        line := line + SEPARATOR;
      }
      line := line + TypeName(signals[i]);
    }
    assert signals[..|signals|] == signals;
  }

  /**
   * `signals.find(s => s.type === 'power_off_attempt')`: a signal of that type, if any.
   * A power-off signal carries no fields, so every one of them is the same value.
   */
  method FindPowerOffSignal(signals: seq<Signal>) returns (found: Option<Signal>)
    ensures found.Some? <==> HasPowerOff(signals)
    ensures found.Some? ==> found.value in signals && TypeName(found.value) == POWER_OFF_TYPE
  {
    var i := 0;
    while i < |signals|
      invariant 0 <= i <= |signals|
      invariant forall j :: 0 <= j < i ==> signals[j] != PowerOffAttempt
    {
      PowerOffTypeName(signals[i]);
      if TypeName(signals[i]) == POWER_OFF_TYPE {
        return Some(signals[i]);
      }
      i := i + 1;
    }
    return None;
  }

  /** The state-dependent part of the prompt builder: appends the lines the state calls for. */
  method AppendStateBody(taskPrompt: string, state: AgentState, ctx: Context) returns (extended: string)
    ensures extended == taskPrompt + StateBody(state, ctx)
  {
    extended := taskPrompt;
    if state == TheftMode {
      extended := extended + THEFT_MARKER;
      ghost var marked := extended;
      var location := if ctx.lastKnownLocation != "" then ctx.lastKnownLocation else UNKNOWN_LOCATION;
      extended := extended + (SMS_PREFIX + location + NEWLINE);
      extended := extended + CALL_LINE;
      ConcatAssoc(marked, SmsLine(ctx), CALL_LINE);
      extended := extended + LOCK_LINE;
      ConcatAssoc(marked, SmsLine(ctx) + CALL_LINE, LOCK_LINE);
      extended := extended + (OWNER_PREFIX + ctx.ownerName + BATTERY_PREFIX + ctx.batteryLevel + BATTERY_SUFFIX);
      ConcatAssoc(marked, SmsLine(ctx) + CALL_LINE + LOCK_LINE, ContextLine(ctx));
      ConcatAssoc(taskPrompt, THEFT_MARKER, Directives(TheftMode, ctx));
    } else if state == Suspicious {
      extended := extended + SUSPICIOUS_MARKER;
      extended := extended + PREPARE_LINE;
      ConcatAssoc(taskPrompt, SUSPICIOUS_MARKER, PREPARE_LINE);
    } else {
      extended := extended + NORMAL_MARKER;
      assert NORMAL_MARKER + "" == NORMAL_MARKER;
    }
  }

  /**
   * The prompt builder: the task text grown line by line, the two leading
   * lines, the state body, then the emergency clause when a power-off
   * attempt is among the signals.
   */
  method BuildTaskPrompt(state: AgentState, score: nat, signals: seq<Signal>, ctx: Context)
    returns (taskPrompt: string)
    ensures taskPrompt == TaskPrompt(state, score, signals, ctx)
  {
    taskPrompt := STATE_PREFIX + StateName(state) + SCORE_PREFIX + NatToString(score) + LINE_END;
    var types := JoinSignalTypes(signals);
    taskPrompt := taskPrompt + (SIGNALS_PREFIX + types + LINE_END);

    taskPrompt := AppendStateBody(taskPrompt, state, ctx);

    var powerOffSignal := FindPowerOffSignal(signals);
    if powerOffSignal.Some? {
      taskPrompt := taskPrompt + EMERGENCY_CLAUSE;
    }
  }

  // Properties of the prompt

  /**
   * The prompt is its two leading lines followed by everything after them.
   * This is the definition of TaskPrompt regrouped, stated only as a proof
   * helper for the lemmas below.
   */
  lemma PromptSplit(state: AgentState, score: nat, signals: seq<Signal>, ctx: Context)
    ensures TaskPrompt(state, score, signals, ctx)
         == Opening(state, score, signals) + Marker(state) + (Directives(state, ctx) + EmergencyTail(signals))
  {
    var front := Opening(state, score, signals);
    var m := Marker(state);
    var d := Directives(state, ctx);
    ConcatAssoc(front, m, d);
    if HasPowerOff(signals) {
      ConcatAssoc(front + m, d, EMERGENCY_CLAUSE);
    } else {
      assert d + "" == d;
    }
  }

  /** What follows the state body: the emergency clause, or nothing. */
  function EmergencyTail(signals: seq<Signal>): string
  {
    if HasPowerOff(signals) then EMERGENCY_CLAUSE else ""
  }

  /**
   * The prompt opens with the state and score line followed by the line of
   * signal types in input order.
   */
  lemma PromptOpening(state: AgentState, score: nat, signals: seq<Signal>, ctx: Context)
    ensures var p := TaskPrompt(state, score, signals, ctx);
      var h := Header(state, score);
      |h| + |SignalsLine(signals)| <= |p|
      && p[..|h|] == h
      && p[|h|..|h| + |SignalsLine(signals)|] == SignalsLine(signals)
  {
    var after := Directives(state, ctx) + EmergencyTail(signals);
    PromptSplit(state, score, signals, ctx);
    ConcatAssoc(Opening(state, score, signals), Marker(state), after);
    LeadingParts(Header(state, score), SignalsLine(signals), Marker(state) + after);
  }

  /** Distinct states have body markers that differ in their eighth character. */
  lemma MarkersDistinct(s: AgentState, t: AgentState)
    ensures |Marker(s)| >= 8
    ensures Marker(s)[7] == Marker(t)[7] <==> s == t
  {
    assert Marker(TheftMode)[7] == 'L';
    assert Marker(Suspicious)[7] == ':';
    assert Marker(Normal)[7] == 'N';
  }

  /** After a state's marker line, no other state's marker line can be read at the same place. */
  lemma OnlyMarkerAt(front: string, state: AgentState, rest: string, other: AgentState)
    ensures var p := front + Marker(state) + rest;
      var k := |front|;
      k + |Marker(other)| <= |p| && p[k..k + |Marker(other)|] == Marker(other) <==> other == state
  {
    var p := front + Marker(state) + rest;
    MiddleOfConcat(front, Marker(state), rest);
    MarkersDistinct(state, other);
    assert p[|front| + 7] == Marker(state)[7];
  }

  /**
   * Exactly one state body follows the two leading lines: the text there
   * starts with the marker of a state iff that state is the computed one.
   */
  lemma ExactlyOneBody(state: AgentState, score: nat, signals: seq<Signal>, ctx: Context, other: AgentState)
    ensures var p := TaskPrompt(state, score, signals, ctx);
      var k := |Opening(state, score, signals)|;
      k + |Marker(state)| <= |p| && p[k..k + |Marker(state)|] == Marker(state)
      && (k + |Marker(other)| <= |p| && p[k..k + |Marker(other)|] == Marker(other) <==> other == state)
  {
    var front := Opening(state, score, signals);
    var rest := Directives(state, ctx) + EmergencyTail(signals);
    PromptSplit(state, score, signals, ctx);
    MiddleOfConcat(front, Marker(state), rest);
    OnlyMarkerAt(front, state, rest, other);
  }

  /**
   * In THEFT_MODE the SMS directive follows the marker line and carries the
   * last known location, or "Unknown" exactly when that location is empty.
   */
  lemma TheftModeLocation(score: nat, signals: seq<Signal>, ctx: Context)
    ensures var p := TaskPrompt(TheftMode, score, signals, ctx);
      var k := |Opening(TheftMode, score, signals)| + |THEFT_MARKER|;
      k + |SmsLine(ctx)| <= |p| && p[k..k + |SmsLine(ctx)|] == SmsLine(ctx)
    ensures ctx.lastKnownLocation != "" ==> SmsLine(ctx) == "- Send SMS to Gautam Govind with Location: " + ctx.lastKnownLocation + "\n"
    ensures ctx.lastKnownLocation == "" ==> SmsLine(ctx) == "- Send SMS to Gautam Govind with Location: Unknown\n"
  {
    var front := Opening(TheftMode, score, signals) + THEFT_MARKER;
    var sms := SmsLine(ctx);
    var rest := CALL_LINE + LOCK_LINE + ContextLine(ctx);
    var tail := EmergencyTail(signals);
    PromptSplit(TheftMode, score, signals, ctx);
    ConcatAssoc(sms + CALL_LINE, LOCK_LINE, ContextLine(ctx));
    ConcatAssoc(sms, CALL_LINE, LOCK_LINE + ContextLine(ctx));
    ConcatAssoc(CALL_LINE, LOCK_LINE, ContextLine(ctx));
    assert Directives(TheftMode, ctx) == sms + rest;
    ConcatAssoc(sms, rest, tail);
    ConcatAssoc(front, sms, rest + tail);
    MiddleOfConcat(front, sms, rest + tail);
    if ctx.lastKnownLocation == "" {
      assert SMS_PREFIX + UNKNOWN_LOCATION == "- Send SMS to Gautam Govind with Location: Unknown";
    }
  }

  predicate EndsWith(s: string, suffix: string)
  {
    |suffix| <= |s| && s[|s| - |suffix|..] == suffix
  }

  /** Every state body ends in a line whose third last character differs from the emergency clause's. */
  lemma BodyEnding(state: AgentState, ctx: Context)
    ensures |StateBody(state, ctx)| >= 3
    ensures StateBody(state, ctx)[|StateBody(state, ctx)| - 3] != EMERGENCY_CLAUSE[|EMERGENCY_CLAUSE| - 3]
  {
    assert EMERGENCY_CLAUSE[|EMERGENCY_CLAUSE| - 3] == 'W';
    var d := Directives(state, ctx);
    if state == TheftMode {
      ThirdLast(Marker(state), d);
      var x := ContextLine(ctx);
      ThirdLast(SmsLine(ctx) + CALL_LINE + LOCK_LINE, x);
      ThirdLast(OWNER_PREFIX + ctx.ownerName + BATTERY_PREFIX + ctx.batteryLevel, BATTERY_SUFFIX);
      assert x[|x| - 3] == '%';
    } else if state == Suspicious {
      ThirdLast(Marker(state), d);
      assert d[|d| - 3] == 't';
    } else {
      assert StateBody(state, ctx) == NORMAL_MARKER + "";
      assert NORMAL_MARKER + "" == NORMAL_MARKER;
      assert NORMAL_MARKER[|NORMAL_MARKER| - 3] == 'g';
    }
  }

  /** The end of a concatenation is the end of its second part; a built-in sequence fact, stated only as a hint for the solver. */
  lemma ThirdLast(a: string, b: string)
    requires |b| >= 3
    ensures (a + b)[|a + b| - 3] == b[|b| - 3]
  {
  }

  /**
   * The prompt ends with the emergency clause iff some signal is a power-off
   * attempt, whatever the state.
   */
  lemma EmergencyClauseIffPowerOff(state: AgentState, score: nat, signals: seq<Signal>, ctx: Context)
    ensures EndsWith(TaskPrompt(state, score, signals, ctx), EMERGENCY_CLAUSE) <==> HasPowerOff(signals)
  {
    var p := TaskPrompt(state, score, signals, ctx);
    var main := Opening(state, score, signals) + StateBody(state, ctx);
    if HasPowerOff(signals) {
      assert p == main + EMERGENCY_CLAUSE;
    } else {
      BodyEnding(state, ctx);
      assert p[|p| - 3] != EMERGENCY_CLAUSE[|EMERGENCY_CLAUSE| - 3];
    }
  }

  /** The header determines the state and the score: no two (state, score) pairs share one. */
  lemma HeaderInjective(s1: AgentState, n1: nat, s2: AgentState, n2: nat)
    requires Header(s1, n1) == Header(s2, n2)
    ensures s1 == s2 && n1 == n2
  {
    var h := Header(s1, n1);
    var lead := "Current State: ";
    assert h[|lead|] == StateName(s1)[0];
    assert Header(s2, n2)[|lead|] == StateName(s2)[0];
    StateNameInjective(s1, s2);
    var mid := lead + StateName(s1) + ". Confidence Score: ";
    assert h == mid + NatToString(n1) + ".\n";
    assert h == mid + NatToString(n2) + ".\n";
    assert NatToString(n1) == h[|mid|..|h| - 2];
    assert NatToString(n2) == h[|mid|..|h| - 2];
    NatToStringInjective(n1, n2);
  }

  /** The signals line can be read back: splitting its list gives the signal types in input order. */
  lemma SignalsLineReadBack(signals: seq<Signal>)
    ensures |SignalsLine(signals)| >= 11
    ensures Split(SignalsLine(signals)[9..|SignalsLine(signals)| - 2]) == SignalTypes(signals)
  {
    var line := SignalsLine(signals);
    var joined := Join(SignalTypes(signals));
    assert line == "Signals: " + joined + ".\n";
    assert line[9..|line| - 2] == joined;
    SplitJoin(SignalTypes(signals));
  }
}
