/**
 * The part of shopspring/decimal the backend uses: coefficient times a power of ten,
 * compared exactly and printed with seven fixed places. Value gives the exact number a
 * Decimal denotes; every operation below is tied to it.
 */
module Decimals {
  import opened Wrappers
  import opened Text

  datatype Decimal = Decimal(coeff: int, exp: int)

  const PLACES := 7
  const STROOP: int := 10_000_000
  const ZERO := Decimal(0, 0)

  /** Ten to any integer power. */
  ghost function Scale(e: int): (r: real)
    ensures r > 0.0
    decreases if e < 0 then -e else e
  {
    if e == 0 then 1.0 else if e > 0 then 10.0 * Scale(e - 1) else Scale(e + 1) / 10.0
  }

  ghost function Value(d: Decimal): real { d.coeff as real * Scale(d.exp) }

  /** big.Int.Quo: truncation toward zero. */
  function Quo(a: int, b: int): int
    requires b > 0
  {
    if a >= 0 then a / b else -((-a) / b)
  }

  /** The coefficient of d at exponent e, truncated when e is coarser than d's own. */
  function Rescale(d: Decimal, e: int): int {
    if e <= d.exp then d.coeff * Pow10(d.exp - e) else Quo(d.coeff, Pow10(e - d.exp))
  }

  function Min(a: int, b: int): int { if a < b then a else b }

  /** Decimal.LessThan: rescale the pair to the finer exponent, then compare coefficients. */
  predicate LessThan(a: Decimal, b: Decimal) {
    var e := Min(a.exp, b.exp);
    Rescale(a, e) < Rescale(b, e)
  }

  predicate GreaterThan(a: Decimal, b: Decimal) { LessThan(b, a) }

  /** Decimal.Round(7), as the number of 10^-7 units: truncate to eight places, add half away from zero. */
  function RoundStroops(d: Decimal): int {
    var t := Rescale(d, -PLACES - 1);
    if t < 0 then -((-t + 5) / 10) else (t + 5) / 10
  }

  /** n units of 10^-7 written with a point before the last seven of at least eight digits. */
  function Fixed7(n: nat): (s: string)
  {
    var digits := PadStart(Digits(n), 8);
    digits[..|digits| - 7] + "." + digits[|digits| - 7..]
  }

  /** Decimal.StringFixed(7). */
  function StringFixed7(d: Decimal): string {
    var n := RoundStroops(d);
    if n < 0 then "-" + Fixed7(-n) else Fixed7(n)
  }

  /** decimal.NewFromString on positional notation: at most one point, an optional sign. */
  function NewFromString(s: string): Option<Decimal> {
    var parts := Split(s, '.');
    if |parts| == 1 then
      match ParseInt(s) { case Some(n) => Some(Decimal(n, 0)) case None => None }
    else if |parts| == 2 then
      match ParseInt(parts[0] + parts[1]) { case Some(n) => Some(Decimal(n, -|parts[1]|)) case None => None }
    else None
  }

  // --- Scale -----------------------------------------------------------------

  lemma {:induction false} ScaleTen(e: int)
    ensures Scale(e + 1) == 10.0 * Scale(e)
  {
    if e < 0 { assert Scale(e) == Scale(e + 1) / 10.0; }
  }

  lemma {:induction false} ScaleUp(e: int, k: nat)
    ensures Scale(e + k) == Pow10(k) as real * Scale(e)
  {
    if k > 0 {
      hide Scale;
      var p := Pow10(k - 1);
      assert Pow10(k) == 10 * p;
      hide Pow10;
      ScaleUp(e, k - 1);
      ScaleTen(e + (k - 1));
      MulAssoc(10.0, p as real, Scale(e));
      assert (10 * p) as real == 10.0 * p as real;
    }
  }

  lemma {:induction false} StroopScale()
    ensures Pow10(7) == STROOP && Pow10(8) == 10 * STROOP
    ensures Scale(-7) * STROOP as real == 1.0
    ensures Scale(-8) * (10 * STROOP) as real == 1.0
  {
    assert Pow10(1) == 10; assert Pow10(2) == 100; assert Pow10(3) == 1000;
    assert Pow10(4) == 10000; assert Pow10(5) == 100000; assert Pow10(6) == 1000000;
    ScaleUp(-7, 7);
    ScaleUp(-8, 8);
    assert Scale(0) == 1.0;
  }

  lemma {:induction false} MulAssoc(a: real, b: real, c: real)
    ensures (a * b) * c == a * (b * c)
  {}

  lemma {:induction false} MulOrder(a: real, b: real, s: real)
    requires s > 0.0
    ensures a < b <==> a * s < b * s
  {
    if a < b { assert (b - a) * s > 0.0; }
    if a > b { assert (a - b) * s > 0.0; }
  }

  /** Rescaling to a finer exponent is exact. */
  lemma {:induction false} RescaleExact(d: Decimal, e: int)
    requires e <= d.exp
    ensures Value(d) == Rescale(d, e) as real * Scale(e)
  {
    var k: nat := d.exp - e;
    ScaleUp(e, k);
    assert e + k == d.exp;
    ScaledCoefficient(d.coeff, Pow10(k), Scale(e));
  }

  lemma {:induction false} ScaledCoefficient(c: int, p: int, s: real)
    ensures c as real * (p as real * s) == (c * p) as real * s
  {
    MulAssoc(c as real, p as real, s);
    IntProduct(c, p);
  }

  lemma {:induction false} IntProduct(c: int, p: int)
    ensures (c * p) as real == c as real * p as real
  {}

  /** LessThan is the order of the numbers denoted, whatever the exponents. */
  lemma {:induction false} LessThanIsValueOrder(a: Decimal, b: Decimal)
    ensures LessThan(a, b) <==> Value(a) < Value(b)
  {
    hide Rescale, Scale, Value;
    var e := Min(a.exp, b.exp);
    var x, y := Rescale(a, e), Rescale(b, e);
    RescaleExact(a, e);
    RescaleExact(b, e);
    MulOrder(x as real, y as real, Scale(e));
    assert x < y <==> x as real < y as real;
  }

  /** Value in units of 10^-7. */
  ghost function Stroops(d: Decimal): real { Value(d) * STROOP as real }

  /** At most seven places: the amount is a whole number of stroops, and rounding is exact. */
  lemma {:induction false} RoundExact(d: Decimal)
    requires d.exp >= -PLACES
    ensures RoundStroops(d) as real == Stroops(d)
    ensures RoundStroops(d) == d.coeff * Pow10(d.exp + PLACES)
  {
    var e := -PLACES - 1;
    assert d.exp - e == (d.exp + PLACES) + 1;
    assert Pow10(d.exp - e) == 10 * Pow10(d.exp + PLACES);
    var n := d.coeff * Pow10(d.exp + PLACES);
    assert Rescale(d, e) == 10 * n;
    RescaleExact(d, -PLACES);
    StroopScale();
    assert Stroops(d) == n as real * (Scale(-7) * STROOP as real);
  }

  /** Truncation toward zero loses less than one unit, away from the sign. */
  lemma {:induction false} QuoBounds(a: int, b: int)
    requires b > 0
    ensures a >= 0 ==> Quo(a, b) * b <= a < (Quo(a, b) + 1) * b
    ensures a < 0 ==> (Quo(a, b) - 1) * b < a <= Quo(a, b) * b
  {
    if a >= 0 {
      assert a == (a / b) * b + a % b;
    } else {
      assert -a == (-a / b) * b + (-a) % b;
    }
  }

  /** The eight-place truncation brackets ten times the stroop value. */
  lemma {:induction false} TruncationBounds(d: Decimal)
    ensures var t := Rescale(d, -PLACES - 1) as real;
            var v := 10.0 * Stroops(d);
            (d.coeff >= 0 ==> 0.0 <= t <= v < t + 1.0) && (d.coeff < 0 ==> t - 1.0 < v <= t <= 0.0)
  {
    if -8 <= d.exp {
      FineTruncation(d);
    } else {
      CoarseTruncation(d);
    }
  }

  lemma {:induction false} FineTruncation(d: Decimal)
    requires -8 <= d.exp
    ensures Rescale(d, -8) as real == 10.0 * Stroops(d)
    ensures d.coeff >= 0 <==> Rescale(d, -8) >= 0
  {
    StroopScale();
    RescaleExact(d, -8);
    var r := Rescale(d, -8) as real;
    assert 10.0 * Stroops(d) == Value(d) * (10 * STROOP) as real;
    MulAssoc(r, Scale(-8), (10 * STROOP) as real);
    ValueSign(d);
    MulSign(d.coeff, Pow10(d.exp + 8));
  }

  lemma {:induction false} MulSign(a: int, p: nat)
    requires p > 0
    ensures a >= 0 <==> a * p >= 0
  {}

  lemma {:induction false} CoarseTruncation(d: Decimal)
    requires d.exp < -8
    ensures var t := Rescale(d, -8) as real;
            var v := 10.0 * Stroops(d);
            (d.coeff >= 0 ==> 0.0 <= t <= v < t + 1.0) && (d.coeff < 0 ==> t - 1.0 < v <= t <= 0.0)
  {
    hide Pow10, Scale, Quo;
    var p := Pow10(-8 - d.exp);
    var k := (10 * STROOP) as real;
    StroopScale();
    ScaleUp(d.exp, -8 - d.exp);
    QuoBounds(d.coeff, p);
    QuoSign(d.coeff, p);
    var v := 10.0 * Stroops(d);
    Cancel(d.coeff as real, Scale(d.exp), k, p as real);
    Bracket(v, p, d.coeff, Quo(d.coeff, p));
  }

  lemma {:induction false} QuoSign(a: int, b: int)
    requires b > 0
    ensures (a >= 0 ==> Quo(a, b) >= 0) && (a < 0 ==> Quo(a, b) <= 0)
  {}

  lemma {:induction false} Cancel(c: real, s: real, k: real, p: real)
    requires (p * s) * k == 1.0
    ensures ((c * s) * k) * p == c
  {
    MulAssoc(c, s, k);
    MulAssoc(c, s * k, p);
    MulAssoc(p, s, k);
  }

  lemma {:induction false} Bracket(v: real, p: int, c: int, q: int)
    requires p > 0 && v * p as real == c as real
    ensures q * p <= c <==> q as real <= v
    ensures c <= q * p <==> v <= q as real
    ensures c < (q + 1) * p <==> v < (q + 1) as real
    ensures (q - 1) * p < c <==> (q - 1) as real < v
  {
    OneBound(v, p, c, q);
    OneBound(v, p, c, q + 1);
    OneBound(v, p, c, q - 1);
  }

  lemma {:induction false} OneBound(v: real, p: int, c: int, n: int)
    requires p > 0 && v * p as real == c as real
    ensures c < n * p <==> v < n as real
    ensures n * p < c <==> n as real < v
  {
    var m := n * p;
    IntProduct(n, p);
    MulOrder(v, n as real, p as real);
    MulOrder(n as real, v, p as real);
    assert m as real == n as real * p as real;
    assert c < m <==> c as real < m as real;
    assert m < c <==> m as real < c as real;
  }

  /** Rounding is to the nearest stroop, halves away from zero, for every Decimal. */
  lemma {:induction false} RoundNearest(d: Decimal)
    ensures d.coeff >= 0 ==>
      RoundStroops(d) >= 0 && RoundStroops(d) as real - 0.5 <= Stroops(d) < RoundStroops(d) as real + 0.5
    ensures d.coeff < 0 ==>
      RoundStroops(d) <= 0 && RoundStroops(d) as real - 0.5 < Stroops(d) <= RoundStroops(d) as real + 0.5
  {
    TruncationBounds(d);
    var t := Rescale(d, -PLACES - 1);
    var n := RoundStroops(d);
    if t >= 0 {
      assert 10 * n <= t + 5 < 10 * n + 10;
    } else {
      assert 10 * -n <= -t + 5 < 10 * -n + 10;
    }
    assert d.coeff >= 0 ==> t >= 0;
    assert d.coeff < 0 ==> t <= 0;
  }

  lemma {:induction false} ValueSign(d: Decimal)
    ensures Value(d) > 0.0 <==> d.coeff > 0
    ensures Value(d) == 0.0 <==> d.coeff == 0
    ensures Stroops(d) > 0.0 <==> d.coeff > 0
  {
    var s := Scale(d.exp);
    if d.coeff > 0 { assert d.coeff as real * s > 0.0; }
    if d.coeff < 0 { assert (-d.coeff) as real * s > 0.0; }
  }

  // --- Printing and parsing -----------------------------------------------------

  lemma {:induction false} PadStartDigits(n: nat, width: nat)
    ensures var ds := PadStart(Digits(n), width); |ds| >= width && AllDigits(ds) && ToNat(ds) == n
  {
    var raw := Digits(n);
    ToNatDigits(n);
    if |raw| < width {
      ToNatConcat(Zeros(width - |raw|), raw);
      ToNatZeros(width - |raw|);
    }
  }

  /** The fixed form is a nonempty whole part, a point and exactly seven digits. */
  lemma {:induction false} Fixed7Parts(n: nat) returns (w: string, f: string)
    ensures w != [] && |f| == 7 && AllDigits(w) && AllDigits(f)
    ensures Fixed7(n) == w + ['.'] + f && ToNat(w + f) == n
    ensures w + f == PadStart(Digits(n), 8)
  {
    PadStartDigits(n, 8);
    var ds := PadStart(Digits(n), 8);
    w, f := ds[..|ds| - 7], ds[|ds| - 7..];
    assert w + f == ds;
  }

  lemma {:induction false} DigitsHaveNoPoint(s: string)
    requires AllDigits(s)
    ensures '.' !in s && '-' !in s && '+' !in s
  {}

  /** Parsing the fixed-7 string of n stroops gives n stroops back. */
  lemma {:induction false} ParseFixed7(n: nat)
    ensures NewFromString(Fixed7(n)) == Some(Decimal(n, -7))
  {
    var w, f := Fixed7Parts(n);
    DigitsHaveNoPoint(w);
    DigitsHaveNoPoint(f);
    SplitOnce(w, f, '.');
    assert AllDigits(w + f);
  }

  lemma {:induction false} Fixed7Injective(m: nat, n: nat)
    requires Fixed7(m) == Fixed7(n)
    ensures m == n
  {
    ParseFixed7(m);
    ParseFixed7(n);
  }
}
