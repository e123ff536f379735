/**
 * The text the prompt builder relies on: the decimal rendering of a
 * non-negative integer in a template string, and the ", "-join of a list
 * of names, each with the reading that recovers what was rendered.
 */
module Text {

  predicate IsDigit(c: char)
  {
    '0' <= c <= '9'
  }

  predicate AllDigits(s: string)
  {
    forall i :: 0 <= i < |s| ==> IsDigit(s[i])
  }

  function DigitChar(d: nat): (c: char)
    requires d < 10
  {
    ('0' as int + d) as char
  }

  function DigitValue(c: char): nat
    requires IsDigit(c)
  {
    c as int - '0' as int
  }

  /** A non-negative integer written in decimal, as `${n}` renders it: digits only, no leading zero. */
  function NatToString(n: nat): (s: string)
    ensures |s| >= 1
    ensures AllDigits(s)
    ensures s[0] == '0' <==> n == 0
    decreases n
  {
    if n < 10 then [DigitChar(n)] else NatToString(n / 10) + [DigitChar(n % 10)]
  }

  /** Reading a string of decimal digits back as a number. */
  function ParseDecimal(s: string): nat
    requires AllDigits(s)
    decreases |s|
  {
    if s == [] then 0 else 10 * ParseDecimal(s[..|s| - 1]) + DigitValue(s[|s| - 1])
  }

  /** Reading the decimal rendering of n gives n back. */
  lemma {:induction false} ParseNatToString(n: nat)
    ensures ParseDecimal(NatToString(n)) == n
    decreases n
  {
    var s := NatToString(n);
    if n >= 10 {
      assert s[..|s| - 1] == NatToString(n / 10);
      ParseNatToString(n / 10);
    }
  }

  /** Distinct numbers have distinct renderings. */
  lemma NatToStringInjective(m: nat, n: nat)
    ensures NatToString(m) == NatToString(n) <==> m == n
  {
    ParseNatToString(m);
    ParseNatToString(n);
  }

  /** Regrouping a concatenation of three strings; a built-in sequence fact, stated only as a hint for the solver. */
  lemma ConcatAssoc(a: string, b: string, c: string)
    ensures (a + b) + c == a + (b + c)
  {
  }

  /** The middle part of a three-part concatenation sits right after the first part; a built-in sequence fact, stated only as a hint for the solver. */
  lemma MiddleOfConcat(a: string, m: string, c: string)
    ensures |a| + |m| <= |a + m + c|
    ensures (a + m + c)[|a|..|a| + |m|] == m
  {
  }

  /** The first two parts of a three-part concatenation are where they were put; a built-in sequence fact, stated only as a hint for the solver. */
  lemma LeadingParts(a: string, b: string, c: string)
    ensures |a| + |b| <= |a + b + c|
    ensures (a + b + c)[..|a|] == a
    ensures (a + b + c)[|a|..|a| + |b|] == b
  {
  }

  const SEPARATOR: string := ", "

  /** `parts.join(", ")`. */
  function Join(parts: seq<string>): (line: string)
    ensures |parts| >= 1 ==> |parts[0]| <= |line| && line[..|parts[0]|] == parts[0]
    decreases |parts|
  {
    if |parts| == 0 then ""
    else if |parts| == 1 then parts[0]
    else parts[0] + SEPARATOR + Join(parts[1..])
  }

  /** Joining one more part at the end puts it after the joined prefix and a separator. */
  lemma {:induction false} JoinSnoc(parts: seq<string>, last: string)
    requires |parts| >= 1
    ensures Join(parts + [last]) == Join(parts) + SEPARATOR + last
    decreases |parts|
  {
    if |parts| == 1 {
      assert (parts + [last])[1..] == [last];
    } else {
      assert (parts + [last])[1..] == parts[1..] + [last];
      JoinSnoc(parts[1..], last);
    }
  }

  /** The position of the first comma in s, or |s| when it has none. */
  function IndexOfComma(s: string): (k: nat)
    ensures k <= |s|
    ensures forall j :: 0 <= j < k ==> s[j] != ','
    ensures k < |s| ==> s[k] == ','
    decreases |s|
  {
    if s == [] || s[0] == ',' then 0 else 1 + IndexOfComma(s[1..])
  }

  /** Splitting a ", "-separated line into its parts. */
  function Split(s: string): seq<string>
    decreases |s|
  {
    if s == [] then []
    else
      var k := IndexOfComma(s);
      if k == |s| then [s]
      else if k + 2 <= |s| then [s[..k]] + Split(s[k + 2..])
      else [s[..k]]
  }

  predicate Separable(parts: seq<string>)
  {
    forall i :: 0 <= i < |parts| ==> parts[i] != [] && ',' !in parts[i]
  }

  /**
   * The join loses nothing when the parts are non-empty and free of commas:
   * splitting the joined line gives the parts back, in order.
   */
  lemma {:induction false} SplitJoin(parts: seq<string>)
    requires Separable(parts)
    ensures Split(Join(parts)) == parts
    decreases |parts|
  {
    if |parts| == 1 {
      var k := IndexOfComma(parts[0]);
      assert k == |parts[0]| by {
        if k < |parts[0]| {
          assert false;
        }
      }
    } else if |parts| > 1 {
      var first := parts[0];
      var rest := Join(parts[1..]);
      var s := first + SEPARATOR + rest;
      assert s == Join(parts);
      var k := IndexOfComma(s);
      assert s[|first|] == ',';
      assert k == |first| by {
        if k < |first| {
          assert false;
        }
      }
      assert s[..k] == first;
      assert s[k + 2..] == rest;
      SplitJoin(parts[1..]);
    }
  }
}
