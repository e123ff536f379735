# Theft-signal pipeline of the guardian agent backend

The guardian agent backend accepts a batch of device-theft signals on its
`POST /agent/execute` endpoint. It scores the batch, classifies the score
into an agent state and writes a natural-language task for a mobile
automation agent. This project models those three steps of
`src/controllers/agentController.ts` and proves properties about them:

- **Confidence scorer** (`Scoring`): a loop that adds a fixed weight per
  signal. `Signals` holds the seven signal types, the face-lock attempt
  count and its JavaScript `Number(...)` coercion.
- **State classifier** (`Classification`): NORMAL, SUSPICIOUS or THEFT_MODE
  at the inclusive thresholds 40 and 70.
- **Prompt builder** (`Prompt`): the task text grown with `+=`. It has a
  header with state and score, the signal types joined by `", "`, one body
  chosen by the state, and an emergency clause when a power-off attempt was
  seen. `Text` holds the decimal rendering of the score and the `", "`-join,
  each with the reading that recovers what was written.
- **Endpoint logic** (`Agent`): the three steps run in order, plus the
  properties that link them.

The scorer and the prompt builder are methods with loops. Each is proved
equal to a pure specification function (`Score`, `TaskPrompt`), and the
properties are lemmas about those functions. The classifier is a function.

Modelling choices:

- A signal is a datatype with seven constructors. The zod enum at
  `agentController.ts:9-17` rejects any other type before scoring, so every
  signal that reaches the scorer has one of the seven types.
- `metadata.attemptCount` is `Absent`, `Numeric(n)` or `NonNumeric`.
  `Numeric(n)` stands for any value that `Number(...)` turns into a number
  whose integer part is `n`. Only its comparison with 2 is observed, and
  `x >= 2` agrees with `floor(x) >= 2`. `NonNumeric` is a value that
  coerces to `NaN`, and every comparison with `NaN` is false.
  +Infinity is represented by any `Numeric(n)` with n >= 2, -Infinity by
  any `Numeric(n)` with n < 2.
- `Number(attemptCount ?? 1) >= 2` is false for a count that coerces to
  `NaN`, so a non-numeric count weighs 20; only a count that is a number of
  at least 2 weighs 40.
- The score is rendered into the header as its decimal digits, which is
  what `${score}` gives for a non-negative integer below 10^21. A score is
  at most 50 times the batch length (`ScoreBounds`), so it stays far below
  2^53. The additions at lines 56-76 are therefore exact in double
  arithmetic, and the score is printed without an exponent.
- There is no early return for the NORMAL state: a NORMAL batch also gets a
  prompt (`agentController.ts:118-120`) and is dispatched (128-167).
- The battery level is kept as the text it renders as (see Left out).

## Model

| member | source | states |
|---|---|---|
| Signals.ToNumber | src/controllers/agentController.ts:55 | `Number(attemptCount ?? 1)` is NaN exactly for a non-numeric count, and 1 when the count is absent |
| Signals.AtLeast | src/controllers/agentController.ts:56 | `attempt >= 2` is false whenever the attempt is NaN |
| Signals.Weight | src/controllers/agentController.ts:48-78 | every signal adds between 15 and 50 to the score |
| Signals.FaceLockFailWeight | src/controllers/agentController.ts:55-56 | a face-lock failure weighs 40 iff its attempt count is a number of at least 2, and 20 iff the count is absent, below 2 or not a number |
| Signals.TypeName | src/controllers/agentController.ts:9-17 | each signal's type string is non-empty and free of commas |
| Signals.PowerOffTypeName | src/controllers/agentController.ts:123 | comparing the type string with "power_off_attempt" recognises exactly the power-off signals |
| Signals.TypeNameDistinguishesKinds | src/controllers/agentController.ts:9-17 | two signals have the same type string iff they are of the same kind |
| Scoring.Score | src/controllers/agentController.ts:46-81 | the sum of the per-signal weights is 0 exactly for the empty batch |
| Scoring.CalculateConfidenceScore | src/controllers/agentController.ts:45-82 | the loop's accumulator ends equal to the sum of the per-signal weights |
| Scoring.ScoreConcat | src/controllers/agentController.ts:45-82 | the score of two batches put together is the sum of their scores |
| Scoring.ScoreBounds | src/controllers/agentController.ts:48-81 | the score lies between 15 and 50 times the number of signals |
| Scoring.ScoreEmpty | src/controllers/agentController.ts:46 | the empty batch scores 0 |
| Scoring.ScoreRemoveAt | src/controllers/agentController.ts:48-81 | removing one signal lowers the score by exactly its weight |
| Scoring.ScoreMonotone | src/controllers/agentController.ts:48-81 | a batch contained (as a multiset) in another scores no more than it |
| Scoring.ScorePermutation | src/controllers/agentController.ts:48-81 | any reordering of the signals gives the same score |
| Classification.StateName | src/controllers/agentController.ts:84 | each state has a non-empty name |
| Classification.DetermineAgentState | src/controllers/agentController.ts:84-88 | THEFT_MODE iff score >= 70, SUSPICIOUS iff 40 <= score < 70, NORMAL iff score < 40 |
| Classification.DetermineAgentStateMonotone | src/controllers/agentController.ts:38-41 | a higher score never gives a less severe state |
| Classification.ThresholdBoundaries | src/controllers/agentController.ts:38-41 | 0 and 39 are NORMAL, 40 and 69 SUSPICIOUS, 70 THEFT_MODE |
| Classification.StateNameInjective | src/controllers/agentController.ts:84 | distinct states have distinct names |
| Text.NatToString | src/controllers/agentController.ts:105 | the rendering of a score is a non-empty string of digits, with a leading 0 only for 0 |
| Text.ParseNatToString | src/controllers/agentController.ts:105 | reading the rendered score back gives the score |
| Text.NatToStringInjective | src/controllers/agentController.ts:105 | distinct scores render differently |
| Text.Join | src/controllers/agentController.ts:106 | `.join(', ')` of a non-empty list starts with its first part |
| Text.JoinSnoc | src/controllers/agentController.ts:106 | joining one more name puts it after the joined names and a ", " |
| Text.SplitJoin | src/controllers/agentController.ts:106 | splitting the ", "-join of non-empty comma-free names gives the names back in order |
| Prompt.LocationText | src/controllers/agentController.ts:110 | the location put in the SMS line, with 'Unknown' for a falsy one, is never empty and is the location itself whenever that is non-empty |
| Prompt.TaskPrompt | src/controllers/agentController.ts:105-126 | the prompt holds at least the two leading lines and the marker line of the state's body |
| Prompt.JoinSignalTypes | src/controllers/agentController.ts:106 | the loop builds the ", "-join of the signal types in input order |
| Prompt.FindPowerOffSignal | src/controllers/agentController.ts:123 | a signal is found iff some signal is a power-off attempt, and what is found is one |
| Prompt.AppendStateBody | src/controllers/agentController.ts:108-120 | the text grows by exactly the body of the given state |
| Prompt.BuildTaskPrompt | src/controllers/agentController.ts:105-126 | the text built step by step equals the prompt specification: header, signals line, state body, and the emergency clause iff a power-off attempt is present |
| Prompt.PromptSplit | src/controllers/agentController.ts:105-126 | the prompt is the two leading lines, the marker line of the state, its directives, then the emergency tail |
| Prompt.PromptOpening | src/controllers/agentController.ts:105-106 | the prompt starts with "Current State: <state>. Confidence Score: <score>.\n" and then "Signals: <types joined by ", ">.\n" |
| Prompt.MarkersDistinct | src/controllers/agentController.ts:109-119 | the three state bodies start with marker lines that differ in their eighth character |
| Prompt.OnlyMarkerAt | src/controllers/agentController.ts:108-120 | after one state's marker line no other state's marker line can be read at the same place |
| Prompt.ExactlyOneBody | src/controllers/agentController.ts:108-120 | right after the two leading lines stands the marker line of a state iff it is the computed state |
| Prompt.TheftModeLocation | src/controllers/agentController.ts:109-110 | in THEFT_MODE the SMS line follows the marker line and names the last known location, or "Unknown" when that location is empty |
| Prompt.EmergencyClauseIffPowerOff | src/controllers/agentController.ts:123-126 | the prompt ends with the emergency clause iff some signal is a power-off attempt, whatever the state |
| Prompt.HeaderInjective | src/controllers/agentController.ts:105 | the header determines both the state and the score |
| Prompt.SignalsLineReadBack | src/controllers/agentController.ts:106 | splitting the list on the signals line gives the signal types in input order |
| Agent.Execute | src/controllers/agentController.ts:100-126 | the score is the weight sum, the state its classification, the prompt the specified text, and the prompt ends with the emergency clause iff a power-off attempt is present |
| Agent.EmptyBatchIsNormal | src/controllers/agentController.ts:46-87 | an empty batch scores 0 and is NORMAL |
| Agent.MoreSignalsNeverLowerState | src/controllers/agentController.ts:48-88 | adding signals anywhere never lowers the score or the state |
| Agent.AppendSignals | src/controllers/agentController.ts:48-88 | appending signals adds their score and never lowers the state |
| Agent.ReorderedSignals | src/controllers/agentController.ts:48-88 | reordering the signals changes neither score nor state |
| Agent.SingleSignalNeverTheft | src/controllers/agentController.ts:48-88 | a batch of at most one signal never reaches THEFT_MODE |
| Agent.ManySignalsNeverNormal | src/controllers/agentController.ts:48-88 | a batch of three or more signals is never NORMAL |
| Agent.LoneSimChange | src/controllers/agentController.ts:70-72 | a lone SIM change scores 50 and is SUSPICIOUS |
| Agent.SimChangeWithPowerOff | src/controllers/agentController.ts:70-126 | a SIM change with a power-off attempt scores 100, is THEFT_MODE, and the prompt carries the emergency clause |
| Agent.LonePowerOff | src/controllers/agentController.ts:73-126 | a lone power-off attempt scores 50, is only SUSPICIOUS, and the prompt still carries the emergency clause |
| Agent.FaceLockFailExamples | src/controllers/agentController.ts:50-57 | attempt count 1 weighs 20, 2 weighs 40, absent 20, non-numeric 20 |

## Left out

- Request validation with zod and `validateData` (`agentController.ts:19-32, 95-98`): the model starts from a well-typed list of signals and a context. src/utils/validation.ts is not part of this model.
- The `timestamp` of a signal and every metadata key other than `attemptCount`: the logic never reads them.
- Rendering `batteryLevel`, a JavaScript number, as text (`agentController.ts:113`): this is floating-point formatting. The model takes the rendered text as an opaque string in the context.
- The user lookup, the MobileRun SDK client, the `tasks.run` call and the mapping of its response (`agentController.ts:128-167`): database and foreign-service calls.
- Error mapping by `error.constructor.name` (`agentController.ts:168-183`): it depends on library exception classes.
- Authentication middleware, user and auth controllers, schemas, database setup, server and routes: JWT, bcrypt, database and routing glue with no scoring logic.
