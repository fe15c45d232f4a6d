/**
 * The pieces of Python's string handling that the game relies on:
 * `c * n` repetition, counting a character, and `str(n)` for integers
 * (used by f-strings such as `f"{v}/{vmax} HP"`).
 */
module Texto {

  /** Python's `c * n`: n copies of c, the empty string when n <= 0. */
  function Repeat(c: char, n: int): (r: string)
    ensures |r| == if n > 0 then n else 0
    ensures forall k :: 0 <= k < |r| ==> r[k] == c
    decreases if n > 0 then n else 0
  {
    if n <= 0 then "" else [c] + Repeat(c, n - 1)
  }

  /** Number of occurrences of c in s (Python's `s.count(c)`). */
  function Count(c: char, s: string): (n: nat)
    ensures n <= |s|
  {
    if s == [] then 0 else (if s[0] == c then 1 else 0) + Count(c, s[1..])
  }

  lemma {:induction false} CountConcat(c: char, s: string, t: string)
    ensures Count(c, s + t) == Count(c, s) + Count(c, t)
  {
    if s == [] {
      assert s + t == t;
    } else {
      assert (s + t)[0] == s[0];
      assert (s + t)[1..] == s[1..] + t;
      CountConcat(c, s[1..], t);
    }
  }

  /** In a string made only of d, c occurs |s| times if c == d and never otherwise. */
  lemma {:induction false} CountUniform(c: char, d: char, s: string)
    requires forall k :: 0 <= k < |s| ==> s[k] == d
    ensures Count(c, s) == if c == d then |s| else 0
  {
    if s != [] {
      CountUniform(c, d, s[1..]);
    }
  }

  predicate IsDigit(ch: char) {
    '0' <= ch <= '9'
  }

  predicate AllDigits(s: string) {
    forall k :: 0 <= k < |s| ==> IsDigit(s[k])
  }

  /** A character that is not a digit does not occur in a string of digits. */
  lemma {:induction false} CountInDigits(c: char, s: string)
    requires !IsDigit(c) && AllDigits(s)
    ensures Count(c, s) == 0
  {
    if s != [] {
      assert AllDigits(s[1..]) by {
        forall k | 0 <= k < |s[1..]| ensures IsDigit(s[1..][k]) {
          assert s[1..][k] == s[k + 1];
        }
      }
      CountInDigits(c, s[1..]);
    }
  }

  function DigitChar(d: nat): (ch: char)
    requires d < 10
    ensures IsDigit(ch) && DigitValue(ch) == d
  {
    "0123456789"[d]
  }

  function DigitValue(ch: char): (d: nat)
    requires IsDigit(ch)
    ensures d < 10
  {
    (ch as int - '0' as int) as nat
  }

  /** `str(n)` for a non-negative integer: decimal digits, no leading zero. */
  function NatToString(n: nat): (s: string)
    ensures |s| >= 1 && AllDigits(s)
    ensures |s| > 1 ==> s[0] != '0'
    ensures n < 10 <==> |s| == 1
  {
    if n < 10 then [DigitChar(n)] else NatToString(n / 10) + [DigitChar(n % 10)]
  }

  /** The number a string of decimal digits denotes (Python's `int(s)` on digits). */
  function DigitsValue(s: string): nat
    requires AllDigits(s)
  {
    if s == [] then 0 else 10 * DigitsValue(s[..|s| - 1]) + DigitValue(s[|s| - 1])
  }

  /** Reading back the decimal text of n gives n: the text is a faithful rendering. */
  lemma {:induction false} NatToStringRoundTrip(n: nat)
    ensures DigitsValue(NatToString(n)) == n
  {
    var s := NatToString(n);
    if n >= 10 {
      NatToStringRoundTrip(n / 10);
      assert s[..|s| - 1] == NatToString(n / 10);
    }
  }

  /** `str(i)` for any integer: a minus sign, then the digits of |i|. */
  function IntToString(i: int): (s: string)
    ensures |s| >= 1
    ensures s[0] == '-' <==> i < 0
    ensures AllDigits(if i < 0 then s[1..] else s)
  {
    if i < 0 then "-" + NatToString(-i) else NatToString(i)
  }

  /** Reads back the text produced by IntToString. */
  function ParseInt(s: string): int
    requires |s| >= 1 && AllDigits(if s[0] == '-' then s[1..] else s)
  {
    if s[0] == '-' then -(DigitsValue(s[1..]) as int) else DigitsValue(s)
  }

  /** A non-empty digit string has no sign, so `ParseInt` reads it as digits. */
  lemma ParseDigits(t: string)
    requires |t| >= 1 && AllDigits(t)
    ensures ParseInt(t) == DigitsValue(t)
  {
    assert IsDigit(t[0]);
  }

  /** A minus sign before a digit string negates its value. */
  lemma ParseNegative(t: string)
    requires AllDigits(t)
    ensures ParseInt("-" + t) == -(DigitsValue(t) as int)
  {
    assert ("-" + t)[1..] == t;
  }

  lemma {:induction false} IntToStringRoundTrip(i: int)
    ensures ParseInt(IntToString(i)) == i
  {
    if i < 0 {
      RoundTripNegative(i);
    } else {
      RoundTripNonNegative(i);
    }
  }

  lemma {:induction false} RoundTripNegative(i: int)
    requires i < 0
    ensures ParseInt(IntToString(i)) == i
  {
    var n: nat := -i;
    var t := NatToString(n);
    assert IntToString(i) == "-" + t;
    NatToStringRoundTrip(n);
    assert DigitsValue(t) == n;
    ParseNegative(t);
  }

  lemma {:induction false} RoundTripNonNegative(i: int)
    requires i >= 0
    ensures ParseInt(IntToString(i)) == i
  {
    var t := NatToString(i);
    assert IntToString(i) == t;
    ParseDigits(t);
    NatToStringRoundTrip(i);
  }
}
