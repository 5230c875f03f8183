/**
 * Decimal digits: what the regular expression class `\d` matches, the number a
 * run of digits denotes, and PHP's conversion of an integer to its decimal string.
 */
module Decimal {

  /** The characters matched by `\d`. */
  predicate IsDigit(c: char) {
    '0' <= c <= '9'
  }

  predicate AllDigits(s: string) {
    forall i :: 0 <= i < |s| ==> IsDigit(s[i])
  }

  function DigitValue(c: char): (d: nat)
    requires IsDigit(c)
    ensures d < 10
  {
    (c as int) - ('0' as int)
  }

  function DigitChar(d: nat): (c: char)
    requires d < 10
    ensures IsDigit(c) && DigitValue(c) == d
  {
    (('0' as int) + d) as char
  }

  /** The number denoted by a run of decimal digits; leading zeros are allowed, as in PHP's string to int conversion. */
  function Value(s: string): nat
    requires AllDigits(s)
    decreases |s|
  {
    if s == [] then 0 else 10 * Value(s[..|s| - 1]) + DigitValue(s[|s| - 1])
  }

  /** The longest prefix of `s` made of digits: what a greedy `\d+` (or `\d*`) captures at the start of `s`. */
  function DigitRun(s: string): (r: string)
    ensures |r| <= |s| && r == s[..|r|]
    ensures AllDigits(r)
    ensures |r| == |s| || !IsDigit(s[|r|])
  {
    if s != [] && IsDigit(s[0]) then [s[0]] + DigitRun(s[1..]) else []
  }

  /** The decimal notation of `n`, without leading zeros. */
  function NatToString(n: nat): (s: string)
    ensures |s| > 0 && AllDigits(s)
    ensures Value(s) == n
    ensures s == "0" || s[0] != '0'
    decreases n
  {
    if n < 10 then [DigitChar(n)]
    else
      var prefix := NatToString(n / 10);
      var s := prefix + [DigitChar(n % 10)];
      assert s[..|s| - 1] == prefix;
      s
  }

  /** A non-empty digit string that starts with a non-zero digit denotes a positive number. */
  lemma {:induction false} LeadingNonZeroIsPositive(s: string)
    requires |s| > 0 && AllDigits(s) && s[0] != '0'
    ensures Value(s) >= 1
    decreases |s|
  {
    if |s| > 1 {
      var prefix := s[..|s| - 1];
      assert prefix[0] == s[0];
      LeadingNonZeroIsPositive(prefix);
    }
  }

  /** The decimal notation is the only digit string without a leading zero that denotes its number. */
  lemma {:induction false} NatToStringCanonical(s: string)
    requires |s| > 0 && AllDigits(s)
    requires s == "0" || s[0] != '0'
    ensures NatToString(Value(s)) == s
    decreases |s|
  {
    var last := s[|s| - 1];
    if |s| == 1 {
      assert Value(s) == DigitValue(last) by {
        assert s[..0] == [];
      }
      assert DigitChar(DigitValue(last)) == last;
    } else {
      var prefix := s[..|s| - 1];
      assert prefix[0] == s[0];
      LeadingNonZeroIsPositive(prefix);
      NatToStringCanonical(prefix);
      assert Value(s) / 10 == Value(prefix) && Value(s) % 10 == DigitValue(last);
      assert DigitChar(DigitValue(last)) == last;
      assert prefix + [last] == s;
    }
  }

  /** PHP's string form of an integer, used when an int is concatenated to a string. */
  function IntToString(n: int): (s: string)
    ensures |s| > 0
    ensures n >= 0 ==> AllDigits(s) && Value(s) == n
    ensures n < 0 ==> s[0] == '-' && AllDigits(s[1..]) && Value(s[1..]) == -n
    ensures n >= 0 ==> s == NatToString(n)
    ensures n < 0 ==> s == "-" + NatToString(-n)
  {
    if n < 0 then "-" + NatToString(-n) else NatToString(n)
  }

  /** A string of digits is its own longest digit prefix. */
  lemma {:induction false} DigitRunOfDigits(s: string, rest: string)
    requires AllDigits(s)
    requires rest == [] || !IsDigit(rest[0])
    ensures DigitRun(s + rest) == s
    decreases |s|
  {
    if s != [] {
      assert (s + rest)[1..] == s[1..] + rest;
      DigitRunOfDigits(s[1..], rest);
    } else {
      assert s + rest == rest;
    }
  }
}
