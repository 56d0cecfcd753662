/** How a JavaScript template literal renders a whole number of ordinary size
    (`${newPage}`, `${currentYear}`): optional minus sign, then decimal digits with no
    leading zero. Numbers are unbounded integers here; the exponent form JavaScript uses
    from 1e21 on is not modelled. */
module Decimal {

  predicate IsDigit(c: char) {
    '0' <= c <= '9'
  }

  function DigitChar(d: nat): (c: char)
    requires d < 10
    ensures IsDigit(c) && c as int - '0' as int == d
  {
    ('0' as int + d) as char
  }

  /** The decimal digits of `n`. */
  function NatString(n: nat): (s: string)
    ensures |s| >= 1 && forall i | 0 <= i < |s| :: IsDigit(s[i])
    ensures s[0] == '0' ==> n == 0 && |s| == 1
    decreases n
  {
    if n < 10 then [DigitChar(n)] else NatString(n / 10) + [DigitChar(n % 10)]
  }

  /** The text of `n` as `${n}` produces it; it starts with a minus sign exactly for
      negative numbers. */
  function IntString(n: int): (s: string)
    ensures |s| >= 1 && (s[0] == '-' <==> n < 0)
  {
    if n < 0 then "-" + NatString(-n)
    else
      assert IsDigit(NatString(n)[0]);
      NatString(n)
  }

  /** The value of a string of decimal digits, the reference against which rendering is checked. */
  function DigitsValue(s: string): nat
    requires forall i | 0 <= i < |s| :: IsDigit(s[i])
  {
    if s == [] then 0
    else
      assert IsDigit(s[|s| - 1]);
      10 * DigitsValue(s[..|s| - 1]) + (s[|s| - 1] as int - '0' as int)
  }

  /** Reading the rendered digits back gives the number. */
  lemma {:induction false} NatStringRoundTrip(n: nat)
    ensures DigitsValue(NatString(n)) == n
    decreases n
  {
    var s := NatString(n);
    if n >= 10 {
      NatStringRoundTrip(n / 10);
      assert s[..|s| - 1] == NatString(n / 10);
    }
  }

  /** Distinct integers render as distinct strings. */
  lemma IntStringInjective(a: int, b: int)
    requires IntString(a) == IntString(b)
    ensures a == b
  {
    if a < 0 {
      assert NatString(-a) == IntString(a)[1..];
      NatStringRoundTrip(-a);
      NatStringRoundTrip(-b);
    } else {
      NatStringRoundTrip(a);
      NatStringRoundTrip(b);
    }
  }
}
