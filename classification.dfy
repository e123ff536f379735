/**
 * The state classifier: a confidence score falls into one of three states
 * of increasing severity, cut at two inclusive thresholds.
 */
module Classification {

  datatype AgentState = Normal | Suspicious | TheftMode

  const SUSPICIOUS_THRESHOLD: int := 40
  const THEFT_MODE_THRESHOLD: int := 70

  /** The position of a state in the severity order NORMAL < SUSPICIOUS < THEFT_MODE. */
  function Severity(state: AgentState): nat
  {
    match state
    case Normal => 0
    case Suspicious => 1
    case TheftMode => 2
  }

  /** The state's name as it appears in the response and in the task prompt. */
  function StateName(state: AgentState): (name: string)
    ensures |name| >= 1
  {
    match state
    case Normal => "NORMAL"
    case Suspicious => "SUSPICIOUS"
    case TheftMode => "THEFT_MODE"
  }

  /**
   * The classifier: the most severe state whose threshold the score reaches,
   * NORMAL when it reaches none. Both thresholds are inclusive.
   */
  function DetermineAgentState(score: int): (state: AgentState)
    ensures state == TheftMode <==> score >= THEFT_MODE_THRESHOLD
    ensures state == Suspicious <==> SUSPICIOUS_THRESHOLD <= score < THEFT_MODE_THRESHOLD
    ensures state == Normal <==> score < SUSPICIOUS_THRESHOLD
  {
    if score >= THEFT_MODE_THRESHOLD then TheftMode
    else if score >= SUSPICIOUS_THRESHOLD then Suspicious
    else Normal
  }

  /** A higher score never gives a less severe state. */
  lemma DetermineAgentStateMonotone(lower: int, higher: int)
    requires lower <= higher
    ensures Severity(DetermineAgentState(lower)) <= Severity(DetermineAgentState(higher))
  {
  }

  /** The boundary values on either side of each threshold. */
  lemma ThresholdBoundaries()
    ensures DetermineAgentState(0) == Normal
    ensures DetermineAgentState(39) == Normal
    ensures DetermineAgentState(40) == Suspicious
    ensures DetermineAgentState(69) == Suspicious
    ensures DetermineAgentState(70) == TheftMode
  {
  }

  /** Distinct states have distinct names, told apart by their first letter. */
  lemma StateNameInjective(s: AgentState, t: AgentState)
    ensures StateName(s)[0] == StateName(t)[0] <==> s == t
  {
  }
}
