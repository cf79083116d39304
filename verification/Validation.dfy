/** web/src/validation.ts: the browser's amount check and its stroop arithmetic. */
module Validation {
  import opened Wrappers
  import opened Text
  import opened Decimals
  import opened Instruction

  datatype AmountError = Required | NotADecimal | TooManyPlaces | NotAboveZero | TooLarge

  /** What String.prototype.trim removes. */
  predicate IsSpace(c: char) {
    var n := c as int;
    || 0x09 <= n <= 0x0D || n == 0x20 || n == 0xA0 || n == 0x1680 || 0x2000 <= n <= 0x200A
    || n == 0x2028 || n == 0x2029 || n == 0x202F || n == 0x205F || n == 0x3000 || n == 0xFEFF
  }

  function Trim(s: string): string
    decreases |s|
  {
    if s != "" && IsSpace(s[0]) then Trim(s[1..])
    else if s != "" && IsSpace(s[|s| - 1]) then Trim(s[..|s| - 1])
    else s
  }

  /** The pattern digits, optionally a point and more digits. */
  predicate IsPlain(v: string) {
    var parts := Split(v, '.');
    && 1 <= |parts| <= 2
    && forall i :: 0 <= i < |parts| ==> parts[i] != "" && AllDigits(parts[i])
  }

  /** v.split('.')[1] ?? '' */
  function Fraction(v: string): string {
    var parts := Split(v, '.');
    if |parts| > 1 then parts[1] else ""
  }

  /** a / b rounded to the nearest integer, ties to even. */
  function NearestEven(a: nat, b: nat): nat
    requires b > 0
  {
    var q, r := a / b, a % b;
    if 2 * r < b || (2 * r == b && q % 2 == 0) then q else q + 1
  }

  const TWO39: nat := 0x80_0000_0000
  const TWO40: nat := 0x100_0000_0000

  /**
   * Number(v) > MAX_AMOUNT, for v of n stroops. Doubles between 2^39 and 2^40 are the
   * multiples of 2^-13, and MAX_AMOUNT is one of them.
   */
  predicate NumberAboveCap(n: nat) {
    if n < TWO39 * STROOP then false
    else if n >= TWO40 * STROOP then true
    else NearestEven(n * 8192, STROOP) > NearestEven(MAX_STROOPS * 8192, STROOP)
  }

  /** The stroops of a plain amount with at most seven places. */
  function PlainStroops(v: string): nat
    requires IsPlain(v) && |Fraction(v)| <= 7
  {
    ToNat(Split(v, '.')[0]) * STROOP + ToNat(PadEnd(Fraction(v), 7))
  }

  function ValidateAmount(s: string): Option<AmountError> {
    var v := Trim(s);
    if v == "" then Some(Required)
    else if !IsPlain(v) then Some(NotADecimal)
    else if |Fraction(v)| > 7 then Some(TooManyPlaces)
    else if PlainStroops(v) == 0 then Some(NotAboveZero)
    else if NumberAboveCap(PlainStroops(v)) then Some(TooLarge)
    else None
  }

  /** stroops(s); None where BigInt throws. */
  function StroopsOf(s: string): Option<int> {
    var v := Trim(s);
    ParseInt(Split(v, '.')[0] + PadEnd(Fraction(v), 7)[..7])
  }

  /** BigInt.prototype.toString. */
  function BigIntText(v: int): string { if v < 0 then "-" + Digits(-v) else Digits(v) }

  function ToAmount(v: int): string {
    var s := PadStart(BigIntText(v), 8);
    s[..|s| - 7] + "." + s[|s| - 7..]
  }

  /** exceedsBalance, where both arguments parse. */
  predicate ExceedsBalance(amount: string, balance: string)
    requires StroopsOf(amount).Some? && StroopsOf(balance).Some?
  {
    StroopsOf(amount).value > StroopsOf(balance).value
  }

  // --- Properties ---------------------------------------------------------------

  lemma {:induction false} TrimFixpoint(s: string)
    requires s != "" ==> !IsSpace(s[0]) && !IsSpace(s[|s| - 1])
    ensures Trim(s) == s
  {}

  /** Trimming takes away the spaces at both ends, all of them, and nothing else. */
  lemma {:induction false} TrimIs(s: string) returns (i: nat, j: nat)
    ensures i <= j <= |s| && Trim(s) == s[i..j]
    ensures forall k :: 0 <= k < i || j <= k < |s| ==> IsSpace(s[k])
    ensures i < j ==> !IsSpace(s[i]) && !IsSpace(s[j - 1])
    decreases |s|
  {
    hide IsSpace;
    if s != "" && IsSpace(s[0]) {
      var a, b := TrimIs(s[1..]);
      i, j := a + 1, b + 1;
      assert s[1..][a..b] == s[i..j];
      forall k | 0 <= k < i || j <= k < |s| ensures IsSpace(s[k]) {
        if k > 0 { assert s[k] == s[1..][k - 1]; }
      }
    } else if s != "" && IsSpace(s[|s| - 1]) {
      i, j := TrimIs(s[..|s| - 1]);
      assert s[..|s| - 1][i..j] == s[i..j];
      forall k | 0 <= k < i || j <= k < |s| ensures IsSpace(s[k]) {
        if k < |s| - 1 { assert s[k] == s[..|s| - 1][k]; }
      }
    } else {
      i, j := 0, |s|;
    }
  }

  /** A plain amount is digits, or digits, a point and digits; its fraction is what follows the point. */
  lemma {:induction false} PlainIs(v: string)
    ensures IsPlain(v) <==>
      || (v != "" && AllDigits(v))
      || exists i :: 0 < i < |v| - 1 && v[i] == '.' && AllDigits(v[..i]) && AllDigits(v[i + 1..])
    ensures IsPlain(v) ==> forall i :: 0 <= i < |v| && v[i] == '.' ==> Fraction(v) == v[i + 1..]
    ensures IsPlain(v) && '.' !in v ==> Fraction(v) == ""
  {
    hide Split;
    if v != "" && AllDigits(v) {
      DigitsHaveNoPoint(v);
      SplitNone(v, '.');
    }
    if i :| 0 < i < |v| - 1 && v[i] == '.' && AllDigits(v[..i]) && AllDigits(v[i + 1..]) {
      PointAt(v, i);
    }
    if IsPlain(v) {
      PlainSplit(v);
    }
  }

  /** Digits on both sides of a point. */
  lemma {:induction false} PointAt(v: string, i: nat)
    requires i < |v| && v[i] == '.' && AllDigits(v[..i]) && AllDigits(v[i + 1..])
    ensures Split(v, '.') == [v[..i], v[i + 1..]]
  {
    DigitsHaveNoPoint(v[..i]);
    DigitsHaveNoPoint(v[i + 1..]);
    assert v == v[..i] + ['.'] + v[i + 1..];
    SplitOnce(v[..i], v[i + 1..], '.');
  }

  /** The parts of a plain amount put together again. */
  lemma {:induction false} PlainSplit(v: string)
    requires IsPlain(v)
    ensures var parts := Split(v, '.');
            if |parts| == 1 then v == parts[0] && v != "" && AllDigits(v) && '.' !in v && Fraction(v) == ""
            else
              var i := |parts[0]|;
              && 0 < i < |v| - 1 && v[i] == '.' && AllDigits(v[..i]) && AllDigits(v[i + 1..])
              && Fraction(v) == v[i + 1..] && forall k :: 0 <= k < |v| && v[k] == '.' ==> k == i
  {
    var parts := Split(v, '.');
    if |parts| == 1 {
      SplitWhole(v, '.');
    } else {
      SplitTwo(v, '.');
      var w, f := parts[0], parts[1];
      assert v == w + ['.'] + f;
      assert v[..|w|] == w && v[|w| + 1..] == f;
      DigitsHaveNoPoint(w);
      DigitsHaveNoPoint(f);
      assert forall k :: 0 <= k < |w| ==> v[k] == w[k] != '.';
      assert forall k :: |w| < k < |v| ==> v[k] == f[k - |w| - 1] != '.';
    }
  }

  lemma {:induction false} SplitTwo(s: string, c: char)
    requires |Split(s, c)| == 2
    ensures s == Split(s, c)[0] + [c] + Split(s, c)[1]
  {
    if s != "" {
      if s[0] == c {
        SplitWhole(s[1..], c);
      } else {
        SplitTwo(s[1..], c);
      }
      assert s == [s[0]] + s[1..];
    }
  }

  /** Which of the five refusals an entry meets, in the order they are tried. */
  lemma {:induction false} FormRefuses(s: string)
    ensures var e, v := ValidateAmount(s), Trim(s);
            && (e == Some(Required) <==> forall k :: 0 <= k < |s| ==> IsSpace(s[k]))
            && (e == Some(NotADecimal) <==> v != "" && !IsPlain(v))
            && (e == Some(TooManyPlaces) <==> IsPlain(v) && |Fraction(v)| > 7)
            && (IsPlain(v) && |Fraction(v)| <= 7 ==>
                  var n := NewFromString(v);
                  && n.Some?
                  && (e == Some(NotAboveZero) <==> Value(n.value) == 0.0)
                  && (e == Some(TooLarge) <==> Stroops(n.value) > (MAX_STROOPS + 193) as real))
            && (e == Some(NotAboveZero) || e == Some(TooLarge) ==> IsPlain(v) && |Fraction(v)| <= 7)
  {
    hide Trim, IsPlain, Fraction, NumberAboveCap, NewFromString, IsSpace;
    var i, j := TrimIs(s);
    assert s[i..j] == "" <==> i == j;
    var v := Trim(s);
    EmptyIsNotPlain();
    if IsPlain(v) && |Fraction(v)| <= 7 {
      StroopsExact(s);
      CapThreshold(PlainStroops(v));
    }
  }

  lemma {:induction false} EmptyIsNotPlain()
    ensures !IsPlain("")
  {
    assert Split("", '.')[0] == "";
  }

  lemma {:induction false} PadEndValue(f: string)
    requires |f| <= 7 && AllDigits(f)
    ensures |PadEnd(f, 7)| == 7 && AllDigits(PadEnd(f, 7))
    ensures ToNat(PadEnd(f, 7)) == ToNat(f) * Pow10(7 - |f|)
  {
    if |f| < 7 {
      ToNatConcat(f, Zeros(7 - |f|));
      ToNatZeros(7 - |f|);
    } else {
      assert Pow10(0) == 1;
    }
  }

  /** stroops() is exact: it is the decimal value times 10^7 on every plain amount with at most seven places. */
  lemma {:induction false} StroopsExact(s: string)
    requires IsPlain(Trim(s)) && |Fraction(Trim(s))| <= 7
    ensures StroopsOf(s) == Some(PlainStroops(Trim(s)))
    ensures var d := NewFromString(Trim(s));
            d.Some? && d.value.exp >= -7 && Stroops(d.value) == PlainStroops(Trim(s)) as real
            && RoundStroops(d.value) == PlainStroops(Trim(s))
  {
    hide IsSpace, Pow10;
    var v := Trim(s);
    var parts := Split(v, '.');
    var w, f := parts[0], Fraction(v);
    PadEndValue(f);
    assert PadEnd(f, 7)[..7] == PadEnd(f, 7);
    ToNatConcat(w, PadEnd(f, 7));
    ToNatConcat(w, f);
    assert w + PadEnd(f, 7) != "";
    if |parts| == 1 {
      SplitWhole(v, '.');
      assert w + "" == w && f == "";
    }
    var d := NewFromString(v).value;
    assert d == Decimal(ToNat(w + f), -|f|);
    hide Split, PadEnd, Trim, ToNat, NewFromString;
    StroopScale();
    RoundExact(d);
    WholeAndFraction(w, f);
  }

  /** The digits of an amount, point dropped, scaled to seven places. */
  lemma {:induction false} WholeAndFraction(w: string, f: string)
    requires AllDigits(w) && AllDigits(f) && |f| <= 7
    ensures AllDigits(w + f) && ToNat(w + f) * Pow10(7 - |f|) == ToNat(w) * STROOP + ToNat(f) * Pow10(7 - |f|)
  {
    hide ToNat;
    ToNatConcat(w, f);
    StroopScale();
    var p, q := Pow10(|f|), Pow10(7 - |f|);
    PowAdd(|f|, 7 - |f|);
    hide Pow10;
    assert p * q == STROOP;
    calc {
      ToNat(w + f) * q;
      (ToNat(w) * p + ToNat(f)) * q;
      { Distribute(ToNat(w), p, ToNat(f), q); }
      ToNat(w) * (p * q) + ToNat(f) * q;
    }
  }

  lemma {:induction false} Distribute(a: int, p: int, b: int, q: int)
    ensures (a * p + b) * q == a * (p * q) + b * q
  {}

  /** A single part is the whole string. */
  lemma {:induction false} SplitWhole(s: string, c: char)
    requires |Split(s, c)| == 1
    ensures Split(s, c) == [s]
  {
    if s != "" {
      SplitWhole(s[1..], c);
      assert [s[0]] + s[1..] == s;
    }
  }

  /** The double comparison lets exactly 193 stroop counts above the int64 ceiling through. */
  lemma {:induction false} CapThreshold(n: nat)
    ensures NumberAboveCap(n) <==> n > MAX_STROOPS + 193
  {
    var k := 7_555_786_372_591_432;
    assert NearestEven(MAX_STROOPS * 8192, STROOP) == k;
    var q := n * 8192 / STROOP;
    assert q * STROOP <= n * 8192 < (q + 1) * STROOP;
  }

  /**
   * The browser check mirrors the server's: of the plain amounts, the form accepts exactly those
   * NormalizeAmount accepts, and besides them the 193 counts just above the ceiling.
   */
  lemma {:induction false} FormMirrorsServer(s: string)
    requires IsPlain(Trim(s))
    ensures NewFromString(Trim(s)).Some?
    ensures ValidateAmount(s).None? <==>
            NormalizeAmount(NewFromString(Trim(s)).value).Ok?
            || (|Fraction(Trim(s))| <= 7 && MAX_STROOPS < PlainStroops(Trim(s)) <= MAX_STROOPS + 193)
  {
    PlainParses(Trim(s));
    if |Fraction(Trim(s))| <= 7 {
      FormMirrorsShort(s);
    } else {
      NormalizeAcceptsExactly(NewFromString(Trim(s)).value);
    }
  }

  /** A plain amount parses, with as many places as it has digits after the point. */
  lemma {:induction false} PlainParses(v: string)
    requires IsPlain(v)
    ensures NewFromString(v).Some? && NewFromString(v).value.exp == -|Fraction(v)|
  {
    hide ToNat;
    var parts := Split(v, '.');
    if |parts| == 1 {
      SplitWhole(v, '.');
    } else {
      assert AllDigits(parts[0] + parts[1]) && parts[0] + parts[1] != "";
    }
  }

  lemma {:induction false} FormMirrorsShort(s: string)
    requires IsPlain(Trim(s)) && |Fraction(Trim(s))| <= 7
    ensures NewFromString(Trim(s)).Some?
    ensures ValidateAmount(s).None? <==>
            NormalizeAmount(NewFromString(Trim(s)).value).Ok?
              || MAX_STROOPS < PlainStroops(Trim(s)) <= MAX_STROOPS + 193
  {
    StroopsExact(s);
    CapThreshold(PlainStroops(Trim(s)));
    NormalizeAcceptsExactly(NewFromString(Trim(s)).value);
  }

  /** 922337203685.4775808 is one stroop past the ceiling: the form lets it through, the server refuses it. */
  lemma {:induction false} FormAcceptsAboveCeiling()
    ensures var s := Fixed7(MAX_STROOPS + 1);
            ValidateAmount(s).None? && NewFromString(s).Some?
              && NormalizeAmount(NewFromString(s).value) == Err(AboveCeiling)
  {
    var n := MAX_STROOPS + 1;
    FixedIsPlain(n);
    FormMirrorsServer(Fixed7(n));
    ParseFixed7(n);
    StroopsExact(Fixed7(n));
    var d := Decimal(n, -7);
    RoundExact(d);
    LessThanIsValueOrder(ZERO, d);
    LessThanIsValueOrder(MAX_AMOUNT, d);
    RoundExact(MAX_AMOUNT);
    assert Pow10(0) == 1;
  }

  /** A canonical amount is plain, trimmed, and denotes its stroop count. */
  lemma {:induction false} FixedIsPlain(n: nat)
    ensures Trim(Fixed7(n)) == Fixed7(n) && IsPlain(Fixed7(n)) && |Fraction(Fixed7(n))| == 7
    ensures PlainStroops(Fixed7(n)) == n
  {
    var w, f := Fixed7Parts(n);
    var s := Fixed7(n);
    DigitsHaveNoPoint(w);
    DigitsHaveNoPoint(f);
    SplitOnce(w, f, '.');
    assert s[0] == w[0] && s[|s| - 1] == f[6];
    TrimFixpoint(s);
    ToNatConcat(w, f);
    StroopScale();
  }

  /** Comparing stroops is comparing decimals, past the precision of a double. */
  lemma {:induction false} BalanceComparisonExact(amount: string, balance: string)
    requires ValidateAmount(amount).None?
    requires IsPlain(Trim(balance)) && |Fraction(Trim(balance))| <= 7
    ensures StroopsOf(amount).Some? && StroopsOf(balance).Some?
    ensures var a, b := NewFromString(Trim(amount)), NewFromString(Trim(balance));
            a.Some? && b.Some? && (ExceedsBalance(amount, balance) <==> Value(a.value) > Value(b.value))
  {
    StroopsExact(amount);
    StroopsExact(balance);
  }

  /** Printing then parsing is the identity on exactly the integers that are not small negatives. */
  lemma {:induction false} PrintParse(v: int)
    ensures StroopsOf(ToAmount(v)) == Some(v) <==> v >= 0 || v <= -1_000_000
    ensures v >= 0 ==> ToAmount(v) == Fixed7(v)
  {
    if v >= 0 {
      FixedIsPlain(v);
      StroopsExact(Fixed7(v));
    } else {
      NegativePrint(-v);
    }
  }

  lemma {:induction false} NegativePrint(m: int)
    requires m > 0
    ensures StroopsOf(ToAmount(-m)) == Some(-m) <==> m >= 1_000_000
  {
    hide StroopsOf, ToAmount, ParseInt, Zeros, Digits;
    var ds := Digits(m);
    assert |ds| >= 7 <==> m >= 1_000_000 by {
      StroopScale();
      assert Pow10(7) == 10 * Pow10(6);
      DigitsLength(m, 6);
    }
    NegativeText(m);
    SignedText(m);
  }

  /** A sign in front is read, a sign behind zeros is not. */
  lemma {:induction false} SignedText(m: int)
    requires m > 0
    ensures |Digits(m)| >= 7 ==> ParseInt("-" + Digits(m)) == Some(-m)
    ensures |Digits(m)| < 7 ==> ParseInt(Zeros(7 - |Digits(m)|) + "-" + Digits(m)) == None
  {
    hide Digits, Zeros, ToNat;
    var ds := Digits(m);
    if |ds| >= 7 {
      var t := "-" + ds;
      assert t[0] == '-' && t[1..] == ds;
      ToNatDigits(m);
    } else {
      var t := Zeros(7 - |ds|) + "-" + ds;
      assert t[7 - |ds|] == '-' && t[0] == '0';
    }
  }

  /** The text of a negative amount, with its point dropped, keeps the sign in front only past six digits. */
  lemma {:induction false} NegativeText(m: int)
    requires m > 0
    ensures StroopsOf(ToAmount(-m)) ==
            ParseInt(if |Digits(m)| >= 7 then "-" + Digits(m) else Zeros(7 - |Digits(m)|) + "-" + Digits(m))
  {
    hide Digits, Zeros, ParseInt, StroopsOf, PadStart;
    SignedPad(Digits(m));
    PointDropped(PadStart("-" + Digits(m), 8));
  }

  lemma {:induction false} SignedPad(ds: string)
    requires AllDigits(ds) && ds != ""
    ensures PadStart("-" + ds, 8) == if |ds| >= 7 then "-" + ds else Zeros(7 - |ds|) + "-" + ds
    ensures var t := PadStart("-" + ds, 8); |t| >= 8 && forall i :: 0 <= i < |t| ==> t[i] == '-' || IsDigit(t[i])
  {
    hide Zeros;
    var t := PadStart("-" + ds, 8);
    if |ds| < 7 {
      var z := Zeros(7 - |ds|);
      assert t == z + "-" + ds;
      assert forall i :: 0 <= i < |z| ==> IsDigit(t[i]);
      assert forall i :: |z| + 1 <= i < |t| ==> IsDigit(t[i]);
    } else {
      assert t == "-" + ds;
      assert forall i :: 1 <= i < |t| ==> IsDigit(t[i]);
    }
  }

  /** stroops() of a text of signs and digits with a point before its last seven. */
  lemma {:induction false} PointDropped(t: string)
    requires |t| >= 8 && forall i :: 0 <= i < |t| ==> t[i] == '-' || IsDigit(t[i])
    ensures StroopsOf(t[..|t| - 7] + "." + t[|t| - 7..]) == ParseInt(t)
  {
    hide ParseInt;
    var w, f := t[..|t| - 7], t[|t| - 7..];
    var s := w + ['.'] + f;
    assert s == w + "." + f;
    SplitOnce(w, f, '.');
    TrimFixpoint(s);
    assert PadEnd(f, 7)[..7] == f && w + f == t;
  }

  /** Parsing then printing is the identity on canonical seven-place amounts, so printing is onto them. */
  lemma {:induction false} ParsePrint(w: string, f: string)
    requires AllDigits(w) && AllDigits(f) && |f| == 7
    requires w == "0" || (w != "" && w[0] != '0')
    ensures var n := StroopsOf(w + "." + f); n.Some? && ToAmount(n.value) == w + "." + f
  {
    var s := w + ['.'] + f;
    assert s == w + "." + f;
    DigitsHaveNoPoint(w);
    DigitsHaveNoPoint(f);
    SplitOnce(w, f, '.');
    assert s[0] == w[0] && s[|s| - 1] == f[6];
    TrimFixpoint(s);
    assert AllDigits(w + f) && PadEnd(f, 7)[..7] == f;
    var n := ToNat(w + f);
    assert StroopsOf(s) == Some(n);
    CanonicalDigits(w, f);
    assert PadStart(Digits(n), 8) == w + f;
    assert (w + f)[..|w + f| - 7] == w && (w + f)[|w + f| - 7..] == f;
  }

  lemma {:induction false} CanonicalDigits(w: string, f: string)
    requires AllDigits(w) && AllDigits(f) && |f| == 7
    requires w == "0" || (w != "" && w[0] != '0')
    ensures AllDigits(w + f) && PadStart(Digits(ToNat(w + f)), 8) == w + f
  {
    var t := w + f;
    var n := ToNat(t);
    ToNatBound(t);
    DigitsLength(n, |t|);
    PadStartDigits(n, 8);
    var p := PadStart(Digits(n), 8);
    if w != "0" {
      LeadingDigit(t);
      DigitsLength(n, |t| - 1);
    } else {
      assert |t| == 8;
    }
    assert |p| == |t|;
    ToNatInjective(p, t);
  }

  lemma {:induction false} LeadingDigit(t: string)
    requires AllDigits(t) && |t| >= 1 && t[0] != '0'
    ensures ToNat(t) >= Pow10(|t| - 1)
  {
    if |t| > 1 {
      LeadingDigit(t[..|t| - 1]);
    } else {
      assert t[..0] == [];
    }
  }
}
