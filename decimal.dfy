/**
 * Decimal digit strings: the fixed-width, zero-padded fields of a date
 * (`%Y`, `%m`, `%d`) and the plain decimal rendering of an integer (`str(n)`).
 */
module Decimal {

  predicate IsDigit(c: char) { '0' <= c <= '9' }

  predicate AllDigits(s: string) { forall i :: 0 <= i < |s| ==> IsDigit(s[i]) }

  function DigitChar(d: nat): (c: char)
    requires d < 10
    ensures IsDigit(c) && DigitValue(c) == d
  {
    ['0', '1', '2', '3', '4', '5', '6', '7', '8', '9'][d]
  }

  function DigitValue(c: char): (d: nat)
    requires IsDigit(c)
    ensures d < 10
  {
    c as int - '0' as int
  }

  lemma DigitCharOfValue(c: char)
    requires IsDigit(c)
    ensures DigitChar(DigitValue(c)) == c
  {
  }

  function Pow10(n: nat): (p: nat)
    ensures p >= 1
  {
    if n == 0 then 1 else 10 * Pow10(n - 1)
  }

  /** The number a string of digits denotes, most significant digit first. */
  function DigitsValue(s: string): (v: nat)
    requires AllDigits(s)
    ensures v < Pow10(|s|)
  {
    if s == [] then 0 else 10 * DigitsValue(s[..|s| - 1]) + DigitValue(s[|s| - 1])
  }

  /** `n` written with exactly `width` digits: zero-padded on the left, high digits cut off. */
  function FixedDigits(n: nat, width: nat): (s: string)
    ensures |s| == width && AllDigits(s)
  {
    if width == 0 then [] else FixedDigits(n / 10, width - 1) + [DigitChar(n % 10)]
  }

  /** Reading back a fixed-width field gives the number modulo 10^width. */
  lemma {:induction false} FixedDigitsValue(n: nat, width: nat)
    ensures DigitsValue(FixedDigits(n, width)) == n % Pow10(width)
  {
    if width > 0 {
      var s := FixedDigits(n, width);
      assert s[..width - 1] == FixedDigits(n / 10, width - 1);
      FixedDigitsValue(n / 10, width - 1);
      ModPow10Step(n, width - 1);
    }
  }

  lemma ModPow10Step(n: nat, k: nat)
    ensures n % Pow10(k + 1) == 10 * ((n / 10) % Pow10(k)) + n % 10
  {
    var p := Pow10(k);
    var q := n / 10;
    var a := q / p;
    var b := q % p;
    assert q == a * p + b;
    assert n == 10 * q + n % 10;
    assert n == a * (10 * p) + (10 * b + n % 10);
    assert 0 <= 10 * b + n % 10 < 10 * p;
    DivModUnique(n, 10 * p, a, 10 * b + n % 10);
  }

  lemma DivModUnique(n: int, d: int, q: int, r: int)
    requires d > 0 && n == q * d + r && 0 <= r < d
    ensures n % d == r && n / d == q
  {
    var q', r' := n / d, n % d;
    assert n == q' * d + r';
    if q' < q {
      var k := q - q';
      assert q * d == q' * d + k * d;
      MulAtLeast(k, d);
    } else if q' > q {
      var k := q' - q;
      assert q' * d == q * d + k * d;
      MulAtLeast(k, d);
    }
  }

  lemma MulAtLeast(k: int, d: int)
    requires k >= 1 && d >= 0
    ensures k * d >= d
  {
    assert k * d == (k - 1) * d + d;
  }

  /** A number below 10^width survives the round trip through its fixed-width field. */
  lemma FixedDigitsRoundTrip(n: nat, width: nat)
    requires n < Pow10(width)
    ensures DigitsValue(FixedDigits(n, width)) == n
  {
    FixedDigitsValue(n, width);
  }

  /** A digit string is the fixed-width rendering of the number it denotes. */
  lemma {:induction false} DigitsRoundTrip(s: string)
    requires AllDigits(s)
    ensures FixedDigits(DigitsValue(s), |s|) == s
  {
    if s != [] {
      var init, last := s[..|s| - 1], s[|s| - 1];
      var v := DigitsValue(s);
      assert v / 10 == DigitsValue(init) && v % 10 == DigitValue(last);
      DigitsRoundTrip(init);
      DigitCharOfValue(last);
      assert s == init + [last];
    }
  }

  /** `str(n)` for a non-negative integer: its digits, without leading zeros. */
  function NatString(n: nat): (s: string)
    ensures 1 <= |s| && AllDigits(s)
  {
    if n < 10 then [DigitChar(n)] else NatString(n / 10) + [DigitChar(n % 10)]
  }

  lemma {:induction false} NatStringValue(n: nat)
    ensures DigitsValue(NatString(n)) == n
    ensures |NatString(n)| > 1 ==> NatString(n)[0] != '0'
  {
    if n >= 10 {
      var s := NatString(n);
      assert s[..|s| - 1] == NatString(n / 10);
      NatStringValue(n / 10);
      assert s[0] == NatString(n / 10)[0];
    }
  }

  /** `str(n)` for any integer: a minus sign before the digits of a negative number. */
  function IntString(n: int): (s: string)
    ensures |s| >= 1
    ensures n >= 0 ==> AllDigits(s)
    ensures n < 0 ==> s[0] == '-' && AllDigits(s[1..])
  {
    if n < 0 then "-" + NatString(-n) else NatString(n)
  }

  /**
   * Reading `str(n)` back gives `n`: the sign from the leading minus, the
   * magnitude from the digits, which never start with a superfluous zero.
   */
  lemma IntStringRoundTrip(n: int)
    ensures n >= 0 ==> DigitsValue(IntString(n)) == n
    ensures n < 0 ==> -(DigitsValue(IntString(n)[1..]) as int) == n
    ensures n >= 0 ==> IntString(n) == NatString(n)
    ensures n < 0 ==> IntString(n)[1..] == NatString(-n)
    ensures n >= 0 && |IntString(n)| > 1 ==> IntString(n)[0] != '0'
    ensures n < 0 ==> IntString(n)[1] != '0'
  {
    if n >= 0 {
      NatStringValue(n);
    } else {
      assert IntString(n)[1..] == NatString(-n);
      NatStringValue(-n);
    }
  }
}
