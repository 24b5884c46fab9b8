/** How the Swift sources compute with `Double` and `Int`, written out over
  * Dafny's unbounded `real` and `int`. */
module Numeric {

  /** Swift's `min` on two `Double`s. */
  function Min(a: real, b: real): (r: real)
    ensures r <= a && r <= b
    ensures r == a || r == b
  {
    if a <= b then a else b
  }

  /** Swift's `max` on two `Double`s. */
  function Max(a: real, b: real): (r: real)
    ensures r >= a && r >= b
    ensures r == a || r == b
  {
    if a >= b then a else b
  }

  /** `max(lo, min(hi, x))`, the clamp the sources write out at every use. */
  function Clamp(x: real, lo: real, hi: real): (r: real)
    requires lo <= hi
    ensures lo <= r <= hi
    ensures lo <= x <= hi ==> r == x
    ensures x < lo ==> r == lo
    ensures hi < x ==> r == hi
  {
    Max(lo, Min(hi, x))
  }

  /** Swift's `Int(x)` conversion of a `Double`: it truncates toward zero. */
  function Trunc(x: real): (n: int)
    ensures 0.0 <= x ==> 0 <= n && n as real <= x < n as real + 1.0
    ensures x < 0.0 ==> n <= 0 && n as real - 1.0 < x <= n as real
  {
    if x >= 0.0 then x.Floor else -((-x).Floor)
  }

  /** Swift's integer `/` for a positive divisor: the quotient truncated toward zero. */
  function Quot(a: int, b: int): int
    requires b > 0
  {
    if a >= 0 then a / b else -((-a) / b)
  }

  /** Swift's integer `%` for a positive divisor: the remainder takes the sign of `a`. */
  function Rem(a: int, b: int): (r: int)
    requires b > 0
    ensures Quot(a, b) * b + r == a
    ensures 0 <= a ==> 0 <= r < b
    ensures a < 0 ==> -b < r <= 0
  {
    if a >= 0 then a % b else -((-a) % b)
  }

  /** `Int(Double(a) / Double(b))` of non-negative integers is the integer
    * quotient. */
  lemma TruncOfRatio(a: nat, b: nat)
    requires b > 0
    ensures Trunc(a as real / b as real) == a / b
  {
    var q, r := a / b, a % b;
    assert a as real == q as real * b as real + r as real;
    assert a as real / b as real == q as real + r as real / b as real;
    assert 0.0 <= r as real / b as real < 1.0;
    var n := Trunc(a as real / b as real);
    assert n as real <= a as real / b as real < n as real + 1.0;
  }

  /** Adding a whole number to a non-negative value adds it to the
    * truncation. */
  lemma TruncShift(n: nat, x: real)
    requires x >= 0.0
    ensures Trunc(n as real + x) == n + Trunc(x)
  {
    var t, u := Trunc(n as real + x), Trunc(x);
    assert (n + u) as real <= n as real + x < (n + u) as real + 1.0;
  }

  lemma ScaleBack(a: real, b: real)
    requires b > 0.0
    ensures (a * b) / b == a
  {
  }

  /** A fraction of a non-negative amount lies between 0 and the amount. */
  lemma FractionWithin(f: real, t: real)
    requires 0.0 <= f <= 1.0 && t >= 0.0
    ensures 0.0 <= f * t <= t
  {
    assert t - f * t == (1.0 - f) * t;
  }

  /** One more of `x` in a count of `n`. */
  lemma CountStep(n: nat, x: real)
    requires n > 0
    ensures n as real * x == (n - 1) as real * x + x
  {
  }

  lemma MulDiv(a: real, b: real, c: real)
    requires c > 0.0
    ensures a * (b / c) == (a * b) / c
  {
  }

  lemma QuotientAtLeastOne(a: real, b: real)
    requires b > 0.0 && a >= b
    ensures a / b >= 1.0
  {
  }

  // ---------------------------------------------------------------------------
  // Decimal rendering: string interpolation `"\(n)"`, `%d` and `%02d`
  // ---------------------------------------------------------------------------

  predicate IsDigit(c: char) {
    '0' <= c <= '9'
  }

  predicate AllDigits(s: string) {
    forall i :: 0 <= i < |s| ==> IsDigit(s[i])
  }

  function DigitChar(d: nat): (c: char)
    requires d < 10
    ensures IsDigit(c) && c as int - '0' as int == d
  {
    ('0' as int + d) as char
  }

  /** The decimal digits of `n`, most significant first, without leading zeros. */
  function NatText(n: nat): string
  {
    if n < 10 then [DigitChar(n)] else NatText(n / 10) + [DigitChar(n % 10)]
  }

  /** The number a string of decimal digits denotes; the inverse of `NatText`. */
  function DigitsValue(s: string): nat
    requires AllDigits(s)
  {
    if s == [] then 0
    else DigitsValue(s[..|s| - 1]) * 10 + (s[|s| - 1] as int - '0' as int)
  }

  /** `NatText` yields digits only, one digit exactly for the numbers below 10,
    * and reading the digits back gives the number. */
  lemma {:induction false} NatTextRoundTrip(n: nat)
    ensures AllDigits(NatText(n))
    ensures DigitsValue(NatText(n)) == n
    ensures |NatText(n)| >= 1
    ensures |NatText(n)| == 1 <==> n < 10
  {
    if n >= 10 {
      NatTextRoundTrip(n / 10);
      var s := NatText(n);
      assert s[..|s| - 1] == NatText(n / 10);
    }
  }

  /** Swift's `"\(i)"` and `%d` for an `Int`: a minus sign for negatives. */
  function IntText(i: int): string
  {
    if i < 0 then "-" + NatText(-i) else NatText(i)
  }

  /** `%02d`: at least two characters, zero-padded on the left. */
  function Pad2(i: int): string
  {
    if 0 <= i < 10 then "0" + NatText(i) else IntText(i)
  }

  /** For a value in [0, 99], `%02d` prints exactly two digits that denote it. */
  lemma Pad2TwoDigits(i: int)
    requires 0 <= i < 100
    ensures |Pad2(i)| == 2 && AllDigits(Pad2(i))
    ensures DigitsValue(Pad2(i)) == i
  {
    NatTextRoundTrip(i);
    if i < 10 {
      var s := Pad2(i);
      assert s[..1] == "0";
      assert DigitsValue("0") == 0;
    } else {
      NatTextRoundTrip(i / 10);
    }
  }
}
