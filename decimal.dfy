/** Decimal text of non-negative integers, as JavaScript's `Number#toString`
    writes the integral values this program prints (seconds, minutes,
    millisecond timestamps), and the value such text denotes. */
module Decimal {

  predicate IsDigit(c: char) {
    '0' <= c <= '9'
  }

  predicate AllDigits(s: string) {
    forall i :: 0 <= i < |s| ==> IsDigit(s[i])
  }

  function DigitChar(d: nat): (c: char)
    requires d < 10
    ensures IsDigit(c) && c as int - '0' as int == d
  {
    ('0' as int + d) as char
  }

  /** The number a string of decimal digits denotes (most significant first). */
  function Value(s: string): nat
    requires AllDigits(s)
  {
    if s == [] then 0 else Value(s[..|s| - 1]) * 10 + (s[|s| - 1] as int - '0' as int)
  }

  /** `n.toString()`: base ten, no sign, no leading zeros; reading it back gives `n`. */
  function Render(n: nat): (s: string)
    ensures |s| >= 1 && AllDigits(s) && Value(s) == n
    ensures |s| > 1 ==> s[0] != '0'
  {
    if n < 10 then [DigitChar(n)]
    else
      var s := Render(n / 10) + [DigitChar(n % 10)];
      assert s[..|s| - 1] == Render(n / 10);
      s
  }

  /** Two digits `d1 d2` denote `10 * d1 + d2`. */
  lemma {:induction false} ValueOfTwo(c1: char, c2: char)
    requires IsDigit(c1) && IsDigit(c2)
    ensures Value([c1, c2]) == 10 * (c1 as int - '0' as int) + (c2 as int - '0' as int)
  {
    assert [c1, c2][..1] == [c1];
    assert [c1][..0] == [];
    assert Value([c1]) == c1 as int - '0' as int;
  }
}
