/** Base-10 text of arbitrary-precision integers, as Go's `big.Int` writes it
    with `String()` and reads it with `SetString(s, 10)`. */
module Decimal {
  import opened Wrappers

  predicate IsDigit(c: char) { '0' <= c <= '9' }

  predicate AllDigits(s: string) { forall i :: 0 <= i < |s| ==> IsDigit(s[i]) }

  function DigitChar(d: nat): (c: char)
    requires d < 10
    ensures IsDigit(c) && c as int - '0' as int == d
  {
    ('0' as int + d) as char
  }

  function DigitValue(c: char): (d: nat)
    requires IsDigit(c)
    ensures d < 10
  {
    c as int - '0' as int
  }

  /** Shortest decimal text of a natural number: no sign, no leading zero. */
  function NatText(n: nat): (s: string)
    ensures |s| >= 1 && AllDigits(s)
    ensures |s| > 1 ==> s[0] != '0'
  {
    if n < 10 then [DigitChar(n)] else NatText(n / 10) + [DigitChar(n % 10)]
  }

  /** `big.Int.String()`: a minus sign for negative values, then the digits. */
  function IntText(x: int): (s: string)
    ensures |s| >= 1
    ensures x >= 0 ==> AllDigits(s)
    ensures x < 0 ==> s[0] == '-' && AllDigits(s[1..]) && |s| >= 2
  {
    if x < 0 then "-" + NatText(-x) else NatText(x)
  }

  /** The value of a string of digits, most significant first. */
  function DigitsValue(s: string): nat
    requires AllDigits(s)
  {
    if s == [] then 0 else DigitsValue(s[..|s| - 1]) * 10 + DigitValue(s[|s| - 1])
  }

  /** `new(big.Int).SetString(s, 10)`: an optional `+` or `-` sign followed by
      one or more decimal digits; anything else is rejected. */
  function ParseInt(s: string): (r: Option<int>)
    ensures r.Some? ==> |s| >= 1
    ensures r.Some? && AllDigits(s) ==> r.value >= 0
  {
    if |s| >= 2 && s[0] == '-' && AllDigits(s[1..]) then Some(0 - DigitsValue(s[1..]) as int)
    else if |s| >= 2 && s[0] == '+' && AllDigits(s[1..]) then Some(DigitsValue(s[1..]))
    else if |s| >= 1 && AllDigits(s) then Some(DigitsValue(s))
    else None
  }

  lemma {:induction false} NatTextValue(n: nat)
    ensures DigitsValue(NatText(n)) == n
  {
    if n >= 10 {
      var s := NatText(n / 10) + [DigitChar(n % 10)];
      assert s[..|s| - 1] == NatText(n / 10);
      NatTextValue(n / 10);
    }
  }

  /** Reading back what `String()` wrote gives the same integer. */
  lemma IntTextRoundTrip(x: int)
    ensures ParseInt(IntText(x)) == Some(x)
  {
    var s := IntText(x);
    if x < 0 {
      assert s[0] == '-' && s[1..] == NatText(-x);
      NatTextValue(-x);
    } else {
      assert s == NatText(x) && IsDigit(s[0]);
      NatTextValue(x);
    }
  }

  /** Decimal text never contains a double quote, so trimming quotes keeps it. */
  lemma IntTextHasNoQuote(x: int)
    ensures '"' !in IntText(x)
  {
  }
}
