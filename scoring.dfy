/**
 * The confidence scorer: the score of a batch of signals is the sum of
 * their weights.
 */
module Scoring {
  import opened Signals

  /** The sum of the weights of the signals, the value the scorer accumulates. */
  function Score(signals: seq<Signal>): (score: nat)
    ensures score == 0 <==> signals == []
  {
    if signals == [] then 0 else Weight(signals[0]) + Score(signals[1..])
  }

  /**
   * The scorer: one pass over the signals that adds each signal's weight to
   * an accumulator that starts at 0.
   */
  method CalculateConfidenceScore(signals: seq<Signal>) returns (score: nat)
    ensures score == Score(signals)
  {
    score := 0;
    for i := 0 to |signals|
      invariant score == Score(signals[..i])
    {
      assert signals[..i + 1] == signals[..i] + [signals[i]];
      ScoreConcat(signals[..i], [signals[i]]);
      match signals[i]
      case FaceLockFail(a) =>
        var attempt := ToNumber(a);
        score := score + if AtLeast(attempt, 2) then 40 else 20;
      case WrongPin =>
        score := score + 15;
      case SuddenJerk =>
        score := score + 25;
      case ScreenOnOffQuick =>
        score := score + 20;
      case LocationJump =>
        score := score + 30;
      case SimChange =>
        score := score + 50;
      case PowerOffAttempt =>
        score := score + 50;
    }
    assert signals[..|signals|] == signals;
  }

  /** The score of two batches put together is the sum of their scores. */
  lemma {:induction false} ScoreConcat(a: seq<Signal>, b: seq<Signal>)
    ensures Score(a + b) == Score(a) + Score(b)
  {
    if a == [] {
      assert a + b == b;
    } else {
      assert (a + b)[1..] == a[1..] + b;
      ScoreConcat(a[1..], b);
    }
  }

  /** Every signal weighs between 15 and 50, so the score lies between 15 and 50 times the number of signals. */
  lemma {:induction false} ScoreBounds(signals: seq<Signal>)
    ensures 15 * |signals| <= Score(signals) <= 50 * |signals|
  {
    if signals != [] {
      ScoreBounds(signals[1..]);
    }
  }

  /** The empty batch scores 0. */
  lemma ScoreEmpty()
    ensures Score([]) == 0
  {
  }

  /** Taking one signal out of a batch lowers its score by exactly that signal's weight. */
  lemma {:induction false} ScoreRemoveAt(s: seq<Signal>, i: nat)
    requires i < |s|
    ensures Score(s) == Weight(s[i]) + Score(s[..i] + s[i + 1..])
  {
    if i == 0 {
      assert s[..0] + s[1..] == s[1..];
    } else {
      var tail := s[1..];
      ScoreRemoveAt(tail, i - 1);
      var without := s[..i] + s[i + 1..];
      assert without[0] == s[0];
      assert without[1..] == tail[..i - 1] + tail[i..];
    }
  }

  /** Removing the signal at position i removes one occurrence of it from the batch's multiset. */
  lemma MultisetRemoveAt(s: seq<Signal>, i: nat)
    requires i < |s|
    ensures multiset(s[..i] + s[i + 1..]) == multiset(s) - multiset{s[i]}
  {
    assert s == s[..i] + [s[i]] + s[i + 1..];
  }

  /**
   * Adding signals never lowers the score: a batch whose signals all occur
   * in another batch (counted with multiplicity, in any order) scores no more.
   */
  lemma {:induction false} ScoreMonotone(a: seq<Signal>, b: seq<Signal>)
    requires multiset(a) <= multiset(b)
    ensures Score(a) <= Score(b)
  {
    if a != [] {
      var x := a[0];
      MultisetRemoveAt(a, 0);
      assert a[..0] + a[1..] == a[1..];
      assert x in multiset(b);
      var i :| 0 <= i < |b| && b[i] == x;
      var rest := b[..i] + b[i + 1..];
      MultisetRemoveAt(b, i);
      assert multiset(a[1..]) <= multiset(rest);
      ScoreMonotone(a[1..], rest);
      ScoreRemoveAt(b, i);
    }
  }

  /** The score does not depend on the order of the signals. */
  lemma ScorePermutation(a: seq<Signal>, b: seq<Signal>)
    requires multiset(a) == multiset(b)
    ensures Score(a) == Score(b)
  {
    ScoreMonotone(a, b);
    ScoreMonotone(b, a);
  }
}
