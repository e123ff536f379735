/**
 * The theft signals an agent request carries, and the fixed weight each
 * kind of signal adds to the confidence score.
 */
module Signals {

  /**
   * What `metadata.attemptCount` of a face-lock failure amounts to once the
   * scorer has coerced it with `Number(...)`:
   * - Absent: no metadata, or no (or a null) attemptCount; the scorer then uses 1;
   * - Numeric(n): a value that coerces to a number whose integer part is n
   *   (only its comparison with 2 is ever observed, so the integer part is enough);
   * - NonNumeric: a value that coerces to NaN.
   * +Infinity is represented by any Numeric(n) with n >= 2, -Infinity by any
   * Numeric(n) with n < 2.
   */
  datatype AttemptCount = Absent | Numeric(n: int) | NonNumeric

  /** One theft signal; the seven constructors are the seven accepted signal types. */
  datatype Signal =
    | FaceLockFail(attemptCount: AttemptCount)
    | WrongPin
    | SuddenJerk
    | ScreenOnOffQuick
    | LocationJump
    | SimChange
    | PowerOffAttempt

  /** The result of a JavaScript `Number(...)` coercion, as far as the scorer can tell it apart. */
  datatype JsNumber = Finite(integerPart: int) | NaN

  /** `Number(attemptCount ?? 1)`. */
  function ToNumber(a: AttemptCount): (x: JsNumber)
    ensures x.NaN? <==> a.NonNumeric?
    ensures a.Absent? ==> x == Finite(1)
  {
    match a
    case Absent => Finite(1)
    case Numeric(n) => Finite(n)
    case NonNumeric => NaN
  }

  /** `x >= bound` on JavaScript numbers: every comparison with NaN is false. */
  predicate AtLeast(x: JsNumber, bound: int)
    ensures x.NaN? ==> !AtLeast(x, bound)
  {
    x.Finite? && x.integerPart >= bound
  }

  /** The weight a single signal adds to the confidence score. */
  function Weight(s: Signal): (w: nat)
    ensures 15 <= w <= 50
  {
    match s
    case FaceLockFail(a) => if AtLeast(ToNumber(a), 2) then 40 else 20
    case WrongPin => 15
    case SuddenJerk => 25
    case ScreenOnOffQuick => 20
    case LocationJump => 30
    case SimChange => 50
    case PowerOffAttempt => 50
  }

  /**
   * A face-lock failure weighs 40 exactly when its attempt count is a number
   * of at least 2, and 20 in every other case (absent, below 2, or NaN).
   */
  lemma FaceLockFailWeight(a: AttemptCount)
    ensures Weight(FaceLockFail(a)) == 40 <==> a.Numeric? && a.n >= 2
    ensures Weight(FaceLockFail(a)) == 20 <==> a.Absent? || a.NonNumeric? || (a.Numeric? && a.n < 2)
    ensures Weight(FaceLockFail(a)) in {20, 40}
  {
  }

  /** The signal's `type` string, as the request carries it. */
  function TypeName(s: Signal): (name: string)
    ensures name != []
    ensures ',' !in name
  {
    match s
    case FaceLockFail(_) => "face_lock_fail"
    case WrongPin => "wrong_pin"
    case SuddenJerk => "sudden_jerk"
    case ScreenOnOffQuick => "screen_on_off_quick"
    case LocationJump => "location_jump"
    case SimChange => "sim_change"
    case PowerOffAttempt => "power_off_attempt"
  }

  const POWER_OFF_TYPE: string := "power_off_attempt"

  /** Comparing the type string with "power_off_attempt" recognises exactly the power-off signals. */
  lemma PowerOffTypeName(s: Signal)
    ensures TypeName(s) == POWER_OFF_TYPE <==> s == PowerOffAttempt
  {
  }

  /** Two signals have the same type string exactly when they are of the same kind. */
  predicate SameKind(s: Signal, t: Signal)
  {
    (s.FaceLockFail? && t.FaceLockFail?) || (!s.FaceLockFail? && s == t)
  }

  lemma TypeNameDistinguishesKinds(s: Signal, t: Signal)
    ensures TypeName(s) == TypeName(t) <==> SameKind(s, t)
  {
  }
}
