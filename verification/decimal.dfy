/**
 * Decimal numerals of non-negative integers, as JavaScript writes an
 * integer into a template literal (`${n}`) and as it reads a plain
 * decimal numeral back when a string is multiplied by a number.
 */
module Decimal {
  import opened Wrappers

  predicate IsDigit(c: char) {
    '0' <= c <= '9'
  }

  predicate AllDigits(s: string) {
    forall i :: 0 <= i < |s| ==> IsDigit(s[i])
  }

  function DigitValue(c: char): (d: nat)
    requires IsDigit(c)
    ensures d < 10
  {
    c as int - '0' as int
  }

  function DigitChar(d: nat): (c: char)
    requires d < 10
    ensures IsDigit(c) && DigitValue(c) == d
  {
    ('0' as int + d) as char
  }

  /** The shortest decimal numeral of `n` (no sign, no leading zero). */
  function Numeral(n: nat): (s: string)
    ensures |s| > 0 && AllDigits(s)
    ensures |s| > 1 ==> s[0] != '0'
    decreases n
  {
    if n < 10 then [DigitChar(n)] else Numeral(n / 10) + [DigitChar(n % 10)]
  }

  /** The value of a string of decimal digits, most significant first. */
  function ValueOf(s: string): nat
    requires AllDigits(s)
  {
    if s == [] then 0 else ValueOf(s[..|s| - 1]) * 10 + DigitValue(s[|s| - 1])
  }

  /** Reads a non-empty string of decimal digits; anything else is not a numeral. */
  function ParseNumeral(s: string): (r: Option<nat>)
    ensures r.Some? <==> |s| > 0 && AllDigits(s)
  {
    if |s| > 0 && AllDigits(s) then Some(ValueOf(s)) else None
  }

  lemma {:induction false} ValueOfNumeral(n: nat)
    ensures ValueOf(Numeral(n)) == n
    decreases n
  {
    if n >= 10 {
      var s := Numeral(n);
      assert s[..|s| - 1] == Numeral(n / 10);
      ValueOfNumeral(n / 10);
    }
  }

  /** Reading back the numeral written for `n` gives `n`. */
  lemma NumeralRoundTrip(n: nat)
    ensures ParseNumeral(Numeral(n)) == Some(n)
  {
    ValueOfNumeral(n);
  }
}
