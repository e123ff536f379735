/**
 * The logic of the agent endpoint once its request has been validated:
 * score the signals, classify the score, and build the task prompt for
 * the automation agent. Properties that tie the three stages together
 * live here.
 */
module Agent {
  import opened Signals
  import opened Scoring
  import opened Classification
  import opened Prompt

  /**
   * Steps 2 and 3 of the endpoint: the score, the state it falls into and
   * the task prompt. The prompt ends with the emergency clause exactly when
   * a power-off attempt is among the signals.
   */
  method Execute(signals: seq<Signal>, ctx: Context)
    returns (score: nat, state: AgentState, taskPrompt: string)
    ensures score == Score(signals)
    ensures state == DetermineAgentState(score)
    ensures taskPrompt == TaskPrompt(state, score, signals, ctx)
    ensures EndsWith(taskPrompt, EMERGENCY_CLAUSE) <==> PowerOffAttempt in signals
  {
    score := CalculateConfidenceScore(signals);
    state := DetermineAgentState(score);
    taskPrompt := BuildTaskPrompt(state, score, signals, ctx);
    EmergencyClauseIffPowerOff(state, score, signals, ctx);
  }

  /** The state the endpoint reaches for a batch of signals. */
  function StateOf(signals: seq<Signal>): AgentState
  {
    DetermineAgentState(Score(signals))
  }

  /** An empty batch scores 0 and leaves the agent NORMAL. */
  lemma EmptyBatchIsNormal()
    ensures Score([]) == 0
    ensures StateOf([]) == Normal
  {
  }

  /**
   * Adding signals to a batch, anywhere and in any order, never lowers the
   * score and never gives a less severe state.
   */
  lemma MoreSignalsNeverLowerState(a: seq<Signal>, b: seq<Signal>)
    requires multiset(a) <= multiset(b)
    ensures Score(a) <= Score(b)
    ensures Severity(StateOf(a)) <= Severity(StateOf(b))
  {
    ScoreMonotone(a, b);
    DetermineAgentStateMonotone(Score(a), Score(b));
  }

  /** Appending signals after a batch adds their score and never lowers the state. */
  lemma AppendSignals(a: seq<Signal>, extra: seq<Signal>)
    ensures Score(a + extra) == Score(a) + Score(extra)
    ensures Severity(StateOf(a)) <= Severity(StateOf(a + extra))
  {
    ScoreConcat(a, extra);
    DetermineAgentStateMonotone(Score(a), Score(a + extra));
  }

  /** Reordering the signals changes neither the score nor the state. */
  lemma ReorderedSignals(a: seq<Signal>, b: seq<Signal>)
    requires multiset(a) == multiset(b)
    ensures Score(a) == Score(b)
    ensures StateOf(a) == StateOf(b)
  {
    ScorePermutation(a, b);
  }

  /** A batch of at most one signal never reaches THEFT_MODE: the heaviest signal weighs 50. */
  lemma SingleSignalNeverTheft(signals: seq<Signal>)
    requires |signals| <= 1
    ensures StateOf(signals) != TheftMode
  {
    ScoreBounds(signals);
  }

  /** A batch of three or more signals is never NORMAL: the lightest signal weighs 15, and 45 reaches 40. */
  lemma ManySignalsNeverNormal(signals: seq<Signal>)
    requires |signals| >= 3
    ensures StateOf(signals) != Normal
  {
    ScoreBounds(signals);
  }

  /** A lone SIM change scores 50, which is SUSPICIOUS. */
  lemma LoneSimChange()
    ensures Score([SimChange]) == 50
    ensures StateOf([SimChange]) == Suspicious
  {
  }

  /**
   * A SIM change with a power-off attempt scores 100, which is THEFT_MODE,
   * and the prompt carries the emergency clause.
   */
  lemma SimChangeWithPowerOff(ctx: Context)
    ensures Score([SimChange, PowerOffAttempt]) == 100
    ensures StateOf([SimChange, PowerOffAttempt]) == TheftMode
    ensures EndsWith(TaskPrompt(TheftMode, 100, [SimChange, PowerOffAttempt], ctx), EMERGENCY_CLAUSE)
  {
    var signals := [SimChange, PowerOffAttempt];
    assert signals[1] == PowerOffAttempt;
    EmergencyClauseIffPowerOff(TheftMode, 100, signals, ctx);
  }

  /**
   * A lone power-off attempt scores 50, only SUSPICIOUS, and still gets the
   * emergency clause.
   */
  lemma LonePowerOff(ctx: Context)
    ensures Score([PowerOffAttempt]) == 50
    ensures StateOf([PowerOffAttempt]) == Suspicious
    ensures EndsWith(TaskPrompt(Suspicious, 50, [PowerOffAttempt], ctx), EMERGENCY_CLAUSE)
  {
    EmergencyClauseIffPowerOff(Suspicious, 50, [PowerOffAttempt], ctx);
  }

  /** Face-lock failures: attempt count 1 weighs 20, 2 weighs 40, no count weighs 20. */
  lemma FaceLockFailExamples()
    ensures Score([FaceLockFail(Numeric(1))]) == 20
    ensures Score([FaceLockFail(Numeric(2))]) == 40
    ensures Score([FaceLockFail(Absent)]) == 20
    ensures Score([FaceLockFail(NonNumeric)]) == 20
  {
  }
}
