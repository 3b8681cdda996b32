/**
 * The JavaScript number-to-text conversions the display code relies on
 * (`Math.round`, `Number.prototype.toFixed`, integer template
 * interpolation and the `%` operator), over exact reals.
 *
 * Text produced here is read back by `ScaledValue`, an independent
 * reference reading of a decimal numeral, so that every display contract
 * can say which number a string denotes.
 */
module JsNumber {

  function Abs(x: real): real {
    if x < 0.0 then -x else x
  }

  function Pow10(d: nat): (p: nat)
    ensures p >= 1
  {
    if d == 0 then 1 else 10 * Pow10(d - 1)
  }

  /** `Math.round`: the nearest integer, halves go toward +infinity. */
  function MathRound(x: real): (n: int)
    ensures n as real - 0.5 <= x < n as real + 0.5
    ensures x >= 0.0 ==> n >= 0
  {
    (x + 0.5).Floor
  }

  /** `Math.trunc`: drop the fraction, toward zero. */
  function Trunc(x: real): (n: int)
    ensures x >= 0.0 ==> 0 <= n && n as real <= x < n as real + 1.0
    ensures x < 0.0 ==> n <= 0 && n as real - 1.0 < x <= n as real
  {
    if x >= 0.0 then x.Floor else -((-x).Floor)
  }

  /** The `%` operator on numbers, a − n·trunc(a/n): the remainder takes the dividend's sign. */
  function Rem(a: real, n: real): (r: real)
    requires n > 0.0
    ensures a >= 0.0 ==> 0.0 <= r < n
    ensures a < 0.0 ==> -n < r <= 0.0
  {
    var q := a / n;
    QuotientSign(a, n);
    FracBounds(q);
    var f := q - Trunc(q) as real;
    ScaleFraction(n, f);
    n * f
  }

  lemma QuotientSign(a: real, n: real)
    requires n > 0.0
    ensures a >= 0.0 <==> a / n >= 0.0
  {
    assert n * (a / n) == a;
  }

  /** The remainder differs from the dividend by a whole number of divisors, the truncated quotient. */
  lemma RemQuotient(a: real, n: real)
    requires n > 0.0
    ensures a - Rem(a, n) == Trunc(a / n) as real * n
  {
    ScaleBack(a, n, Trunc(a / n) as real);
  }

  lemma ScaleBack(a: real, n: real, t: real)
    requires n > 0.0
    ensures n * (a / n - t) == a - t * n
  {
    assert n * (a / n) == a;
  }

  lemma FracBounds(q: real)
    ensures q >= 0.0 ==> 0.0 <= q - Trunc(q) as real < 1.0
    ensures q < 0.0 ==> -1.0 < q - Trunc(q) as real <= 0.0
  {
  }

  lemma ScaleFraction(n: real, f: real)
    requires n > 0.0 && -1.0 < f < 1.0
    ensures f >= 0.0 ==> 0.0 <= n * f < n
    ensures f <= 0.0 ==> -n < n * f <= 0.0
  {
  }

  /** The `%` operator on integral numbers (truncating, unlike Dafny's `%`). */
  function RemInt(a: int, n: int): (r: int)
    requires n > 0
    ensures a >= 0 ==> 0 <= r < n
    ensures a < 0 ==> -n < r <= 0
  {
    if a >= 0 then a % n else -((-a) % n)
  }

  predicate IsDigit(c: char) {
    '0' <= c <= '9'
  }

  predicate AllDigits(s: string) {
    forall i :: 0 <= i < |s| ==> IsDigit(s[i])
  }

  function DigitValue(c: char): int
    requires IsDigit(c)
  {
    c as int - '0' as int
  }

  function DigitChar(d: int): (c: char)
    requires 0 <= d <= 9
    ensures IsDigit(c) && DigitValue(c) == d
  {
    ('0' as int + d) as char
  }

  /** Reference reading of a string of decimal digits. */
  function ParseNat(s: string): nat
    requires AllDigits(s)
  {
    if |s| == 0 then 0 else ParseNat(s[..|s| - 1]) * 10 + DigitValue(s[|s| - 1])
  }

  /** Decimal digits of `n`, most significant first, as `String(n)` writes them. */
  function NatToString(n: nat): (s: string)
    ensures |s| >= 1 && AllDigits(s)
    ensures ParseNat(s) == n
  {
    if n < 10 then
      [DigitChar(n)]
    else
      var prefix := NatToString(n / 10);
      var s := prefix + [DigitChar(n % 10)];
      assert s[..|s| - 1] == prefix;
      s
  }

  /** Template interpolation of an integral number: `${i}`. */
  function IntToString(i: int): (s: string)
    ensures |s| >= 1 && (s[0] == '-' <==> i < 0)
    ensures forall k :: 1 <= k < |s| ==> IsDigit(s[k])
  {
    if i < 0 then "-" + NatToString(-i) else NatToString(i)
  }

  function Zeros(k: nat): (s: string)
    ensures |s| == k && AllDigits(s)
  {
    if k == 0 then "" else Zeros(k - 1) + "0"
  }

  /** Left-pads a digit string with zeros to at least d + 1 digits. */
  function PadDigits(m: string, d: nat): (padded: string)
    requires AllDigits(m)
    ensures AllDigits(padded) && |padded| >= d + 1 && |padded| >= |m|
    ensures ParseNat(padded) == ParseNat(m)
  {
    if |m| <= d then
      ParseNatLeadingZeros(d + 1 - |m|, m);
      Zeros(d + 1 - |m|) + m
    else m
  }

  /** Digits of `n` with a decimal point inserted `d` places from the right. */
  function FixedDigits(n: nat, d: nat): string {
    var m := NatToString(n);
    if d == 0 then m
    else
      var padded := PadDigits(m, d);
      var k := |padded|;
      padded[..k - d] + "." + padded[k - d..]
  }

  /** round(|x|·10^d), the integer `toFixed` writes out. */
  function RoundScaled(x: real, d: nat): (n: nat)
    ensures n as real - 0.5 <= Abs(x) * Pow10(d) as real < n as real + 0.5
  {
    var p := Pow10(d) as real;
    NonnegProduct(Abs(x), p);
    MathRound(Abs(x) * p)
  }

  lemma NonnegProduct(a: real, b: real)
    requires a >= 0.0 && b >= 0.0
    ensures a * b >= 0.0
  {
  }

  /**
   * `x.toFixed(d)`: the sign is taken off first, then the integer n closest
   * to |x|·10^d (the larger one on a tie) is written with d decimals.
   */
  function ToFixed(x: real, d: nat): string
    requires d <= 100
  {
    var body := FixedDigits(RoundScaled(x, d), d);
    if x < 0.0 then "-" + body else body
  }

  // ----- reading a numeral back -----

  function Unsigned(s: string): string {
    if |s| > 0 && s[0] == '-' then s[1..] else s
  }

  /** `s` is an optional minus sign, at least one digit and, when d > 0, a point and exactly d digits. */
  predicate FixedNotation(s: string, d: nat) {
    var u := Unsigned(s);
    if d == 0 then |u| >= 1 && AllDigits(u)
    else
      |u| >= d + 2 && u[|u| - d - 1] == '.'
      && AllDigits(u[..|u| - d - 1]) && AllDigits(u[|u| - d..])
  }

  /** The digits of a numeral in fixed notation, with sign and point removed. */
  function DigitsOf(s: string, d: nat): (digits: string)
    requires FixedNotation(s, d)
    ensures AllDigits(digits)
  {
    var u := Unsigned(s);
    if d == 0 then u else u[..|u| - d - 1] + u[|u| - d..]
  }

  /** A numeral in fixed notation with d decimals denotes ScaledValue(s, d) / 10^d. */
  function ScaledValue(s: string, d: nat): int
    requires FixedNotation(s, d)
  {
    var magnitude: int := ParseNat(DigitsOf(s, d));
    if |s| > 0 && s[0] == '-' then -magnitude else magnitude
  }

  /**
   * `s` writes `x` with exactly d decimals, off by at most half a unit in
   * the last place: s denotes ScaledValue(s, d) / 10^d.
   */
  predicate Renders(s: string, x: real, d: nat) {
    FixedNotation(s, d) && WithinHalf(ScaledValue(s, d), x, d)
  }

  /** v / 10^d is within half a unit in the d-th decimal place of x. */
  predicate WithinHalf(v: int, x: real, d: nat) {
    Abs(v as real - x * Pow10(d) as real) <= 0.5
  }

  // ----- lemmas -----

  lemma {:induction false} ParseNatZeros(k: nat)
    ensures ParseNat(Zeros(k)) == 0
  {
    if k > 0 {
      assert Zeros(k)[..k - 1] == Zeros(k - 1);
      ParseNatZeros(k - 1);
    }
  }

  /** Leading zeros do not change the value of a digit string. */
  lemma {:induction false} ParseNatLeadingZeros(k: nat, s: string)
    requires AllDigits(s)
    ensures ParseNat(Zeros(k) + s) == ParseNat(s)
  {
    if |s| == 0 {
      assert Zeros(k) + s == Zeros(k);
      ParseNatZeros(k);
    } else {
      var t := Zeros(k) + s;
      assert t[..|t| - 1] == Zeros(k) + s[..|s| - 1];
      ParseNatLeadingZeros(k, s[..|s| - 1]);
    }
  }

  /** A digit string with a point inserted d places from the right reads back as the same digits. */
  lemma PointedDigits(padded: string, d: nat)
    requires AllDigits(padded) && d > 0 && |padded| >= d + 1
    ensures var k := |padded|; var s := padded[..k - d] + "." + padded[k - d..];
      s[0] != '-' && FixedNotation(s, d) && DigitsOf(s, d) == padded
  {
    var k := |padded|;
    var s := padded[..k - d] + "." + padded[k - d..];
    assert IsDigit(padded[0]);
    assert s[0] == padded[0];
    assert Unsigned(s) == s;
    assert s[..k - d] == padded[..k - d];
    assert s[k - d + 1..] == padded[k - d..];
    assert padded[..k - d] + padded[k - d..] == padded;
  }

  lemma FixedDigitsShape(n: nat, d: nat)
    ensures var s := FixedDigits(n, d);
      |s| >= 1 && s[0] != '-' && FixedNotation(s, d) && ScaledValue(s, d) == n
  {
    if d == 0 {
      WholeDigitsShape(n);
    } else {
      PaddedDigitsShape(n, d);
    }
  }

  lemma WholeDigitsShape(n: nat)
    ensures var s := FixedDigits(n, 0);
      |s| >= 1 && s[0] != '-' && FixedNotation(s, 0) && ScaledValue(s, 0) == n
  {
    var m := NatToString(n);
    assert FixedDigits(n, 0) == m;
    assert IsDigit(m[0]);
    assert Unsigned(m) == m;
  }

  lemma PaddedDigitsShape(n: nat, d: nat)
    requires d > 0
    ensures var s := FixedDigits(n, d);
      |s| >= 1 && s[0] != '-' && FixedNotation(s, d) && ScaledValue(s, d) == n
  {
    var padded := PadDigits(NatToString(n), d);
    var k := |padded|;
    assert FixedDigits(n, d) == padded[..k - d] + "." + padded[k - d..];
    PointedDigits(padded, d);
  }

  /** round(|x|·10^d) with the sign of x put back: the scaled value `toFixed` writes. */
  function SignedRound(x: real, d: nat): int {
    var n: int := RoundScaled(x, d);
    if x < 0.0 then -n else n
  }

  /** `toFixed(d)` writes x with exactly d decimals, within half a unit in the last place. */
  lemma ToFixedRenders(x: real, d: nat)
    requires d <= 100
    ensures Renders(ToFixed(x, d), x, d)
  {
    ToFixedValue(x, d);
    SignedRoundClose(x, d);
  }

  /** The signed rounded value is within 1/2 of x·10^d. */
  lemma SignedRoundClose(x: real, d: nat)
    ensures WithinHalf(SignedRound(x, d), x, d)
  {
    var p := Pow10(d) as real;
    if x < 0.0 {
      assert Abs(x) == -x;
      assert x * p == -(Abs(x) * p);
    }
  }

  /** The numeral `toFixed` writes denotes round(|x|·10^d) with the sign of x, over 10^d. */
  lemma ToFixedValue(x: real, d: nat)
    requires d <= 100
    ensures FixedNotation(ToFixed(x, d), d) && ScaledValue(ToFixed(x, d), d) == SignedRound(x, d)
  {
    var n := RoundScaled(x, d);
    FixedDigitsShape(n, d);
    var body := FixedDigits(n, d);
    if x < 0.0 {
      assert ToFixed(x, d) == "-" + body;
      Negated(body, d);
    } else {
      assert ToFixed(x, d) == body;
    }
  }

  /** A minus sign in front of an unsigned numeral negates what it denotes. */
  lemma Negated(body: string, d: nat)
    requires |body| >= 1 && body[0] != '-' && FixedNotation(body, d)
    ensures FixedNotation("-" + body, d) && ScaledValue("-" + body, d) == -ScaledValue(body, d)
  {
    var s := "-" + body;
    assert Unsigned(s) == body == Unsigned(body);
    assert DigitsOf(s, d) == DigitsOf(body, d);
  }

  /** Integral interpolation writes the integer itself. */
  lemma IntToStringDenotes(i: int)
    ensures FixedNotation(IntToString(i), 0) && ScaledValue(IntToString(i), 0) == i
  {
    var s := IntToString(i);
    if i < 0 {
      assert Unsigned(s) == NatToString(-i);
    } else {
      assert Unsigned(s) == NatToString(i);
    }
  }

  /** `${Math.round(x)}`: the nearest integer to x, written without decimals. */
  lemma RoundedRenders(x: real)
    ensures Renders(IntToString(MathRound(x)), x, 0)
    ensures ScaledValue(IntToString(MathRound(x)), 0) == MathRound(x)
  {
    IntToStringDenotes(MathRound(x));
  }

  // ----- a numeral followed by a unit suffix -----

  /** `s` is a numeral rendering x with d decimals, followed by `suffix`. */
  predicate Shows(s: string, x: real, d: nat, suffix: string) {
    |s| >= |suffix| && s[|s| - |suffix|..] == suffix && Renders(s[..|s| - |suffix|], x, d)
  }

  lemma ShowsSuffixed(numeral: string, suffix: string, x: real, d: nat)
    requires Renders(numeral, x, d)
    ensures Shows(numeral + suffix, x, d, suffix)
  {
    var s := numeral + suffix;
    assert s[..|s| - |suffix|] == numeral;
    assert s[|s| - |suffix|..] == suffix;
  }

  /**
   * The display rule shared by the unit types: with decimals > 0,
   * `${x.toFixed(decimals)}`, otherwise `${Math.round(x)}`, then the suffix.
   */
  function Formatted(x: real, decimals: int, suffix: string): (s: string)
    requires decimals <= 100
    ensures Shows(s, x, if decimals > 0 then decimals else 0, suffix)
  {
    if decimals > 0 then
      ToFixedRenders(x, decimals);
      ShowsSuffixed(ToFixed(x, decimals), suffix, x, decimals);
      ToFixed(x, decimals) + suffix
    else
      RoundedRenders(x);
      ShowsSuffixed(IntToString(MathRound(x)), suffix, x, 0);
      IntToString(MathRound(x)) + suffix
  }
}
