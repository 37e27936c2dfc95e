/** Decimal rendering of non-negative integers, as Python's `%i` formats them
    in the status messages, and the parsing that recovers the number from a
    message again. */
module Decimal {

  predicate IsDigit(c: char) {
    '0' <= c <= '9'
  }

  predicate AllDigits(s: string) {
    forall i :: 0 <= i < |s| ==> IsDigit(s[i])
  }

  function DigitChar(d: nat): (c: char)
    requires d < 10
    ensures IsDigit(c)
  {
    ['0', '1', '2', '3', '4', '5', '6', '7', '8', '9'][d]
  }

  function DigitValue(c: char): nat
    requires IsDigit(c)
  {
    (c as int) - ('0' as int)
  }

  /** `"%i" % n` for n >= 0: the shortest decimal numeral of n. */
  function NatToString(n: nat): (s: string)
    ensures |s| > 0 && AllDigits(s)
    ensures |s| > 1 ==> s[0] != '0'
  {
    if n < 10 then [DigitChar(n)] else NatToString(n / 10) + [DigitChar(n % 10)]
  }

  /** The value of a string of decimal digits, most significant first. */
  function DigitsValue(s: string): nat
    requires AllDigits(s)
  {
    if s == [] then 0 else DigitsValue(s[..|s| - 1]) * 10 + DigitValue(s[|s| - 1])
  }

  lemma {:induction false} DigitCharValue(d: nat)
    requires d < 10
    ensures DigitValue(DigitChar(d)) == d
  {
  }

  /** Reading the numeral back gives the number: `%i` loses nothing. */
  lemma {:induction false} NatToStringRoundTrip(n: nat)
    ensures DigitsValue(NatToString(n)) == n
  {
    var s := NatToString(n);
    if n < 10 {
      DigitCharValue(n);
    } else {
      NatToStringRoundTrip(n / 10);
      DigitCharValue(n % 10);
      assert s[..|s| - 1] == NatToString(n / 10);
    }
  }

  lemma NatToStringInjective(a: nat, b: nat)
    ensures NatToString(a) == NatToString(b) ==> a == b
  {
    NatToStringRoundTrip(a);
    NatToStringRoundTrip(b);
  }

  /** The longest suffix of `s` made of digits only. */
  function TrailingDigits(s: string): (d: string)
    ensures AllDigits(d) && |d| <= |s|
  {
    if s == [] || !IsDigit(s[|s| - 1]) then [] else TrailingDigits(s[..|s| - 1]) + [s[|s| - 1]]
  }

  /** Appending a numeral to text that does not end in a digit: the numeral is
      exactly the trailing digits of the result. */
  lemma {:induction false} TrailingDigitsOfAppend(p: string, d: string)
    requires AllDigits(d)
    requires p == [] || !IsDigit(p[|p| - 1])
    ensures TrailingDigits(p + d) == d
  {
    if d == [] {
      assert p + d == p;
    } else {
      var init := d[..|d| - 1];
      var s := p + init + [d[|d| - 1]];
      assert p + d == s;
      assert s[..|s| - 1] == p + init;
      TrailingDigitsOfAppend(p, init);
    }
  }
}
