/** Decimal rendering of integers, as std::to_string produces it for the
    counters, intervals and ids that appear in names and descriptions. */
module Decimal {

  predicate IsDigit(c: char) {
    '0' <= c <= '9'
  }

  predicate IsDigits(s: string) {
    forall i :: 0 <= i < |s| ==> IsDigit(s[i])
  }

  function DigitValue(c: char): nat
    requires IsDigit(c)
  {
    (c as int) - ('0' as int)
  }

  /** The number a string of decimal digits stands for, most significant first. */
  function DigitsValue(s: string): nat
    requires IsDigits(s)
  {
    if s == [] then 0 else 10 * DigitsValue(s[..|s| - 1]) + DigitValue(s[|s| - 1])
  }

  /** `s` is the unpadded decimal numeral of `i`: a leading minus exactly for
      negatives, digits standing for the magnitude, no leading zero except
      in "0" itself. */
  predicate Denotes(s: string, i: int) {
    if i >= 0 then |s| > 0 && IsDigits(s) && DigitsValue(s) == i && (s[0] == '0' ==> |s| == 1)
    else |s| > 1 && s[0] == '-' && IsDigits(s[1..]) && DigitsValue(s[1..]) == -i && s[1] != '0'
  }

  /** `d` is `prefix`, then a numeral standing for `i`, then `suffix`. */
  predicate Framed(d: string, prefix: string, i: int, suffix: string) {
    && |d| >= |prefix| + |suffix|
    && d[..|prefix|] == prefix
    && d[|d| - |suffix|..] == suffix
    && Denotes(d[|prefix|..|d| - |suffix|], i)
  }

  function DigitChar(d: nat): (c: char)
    requires d < 10
    ensures IsDigit(c) && DigitValue(c) == d
  {
    "0123456789"[d]
  }

  /** The shortest decimal numeral of n: digits only, standing for n, with no
      leading zero. */
  function NatToString(n: nat): (s: string)
    ensures |s| > 0 && IsDigits(s)
    ensures DigitsValue(s) == n
    ensures s[0] == '0' ==> n == 0 && |s| == 1
    decreases n
  {
    if n < 10 then [DigitChar(n)]
    else
      var s := NatToString(n / 10) + [DigitChar(n % 10)];
      assert s[..|s| - 1] == NatToString(n / 10);
      s
  }

  /** std::to_string of a signed value. */
  function IntToString(i: int): (s: string)
    ensures Denotes(s, i)
    ensures s[0] == '-' <==> i < 0
  {
    if i < 0 then
      var s := "-" + NatToString(-i);
      assert s[1..] == NatToString(-i);
      s
    else NatToString(i)
  }

  /** Putting a numeral between two fixed strings gives a framed string. */
  lemma FramedConcat(prefix: string, numeral: string, i: int, suffix: string)
    requires Denotes(numeral, i)
    ensures Framed(prefix + numeral + suffix, prefix, i, suffix)
  {
    var d := prefix + numeral + suffix;
    assert d[..|prefix|] == prefix;
    assert d[|d| - |suffix|..] == suffix;
    assert d[|prefix|..|d| - |suffix|] == numeral;
  }
}
