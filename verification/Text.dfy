/** Decimal digit strings, shared by the Go and the TypeScript amount code. */
module Text {
  import opened Wrappers

  predicate IsDigit(c: char) { '0' <= c <= '9' }

  predicate AllDigits(s: string) { forall i :: 0 <= i < |s| ==> IsDigit(s[i]) }

  function Pow10(k: nat): (p: nat)
    ensures p > 0
  {
    if k == 0 then 1 else 10 * Pow10(k - 1)
  }

  function ToNat(s: string): nat
    requires AllDigits(s)
  {
    if s == [] then 0 else 10 * ToNat(s[..|s| - 1]) + (s[|s| - 1] as int - '0' as int)
  }

  /** The shortest digit string of n ("0" for 0). */
  function Digits(n: nat): (s: string)
    ensures AllDigits(s) && s != []
  {
    var last := ['0' + (n % 10) as char];
    if n < 10 then last else Digits(n / 10) + last
  }

  function Zeros(k: nat): (s: string)
    ensures |s| == k && AllDigits(s) && forall i :: 0 <= i < k ==> s[i] == '0'
  {
    if k == 0 then "" else "0" + Zeros(k - 1)
  }

  /** JavaScript's padStart(width, '0'). */
  function PadStart(s: string, width: nat): string {
    if |s| >= width then s else Zeros(width - |s|) + s
  }

  /** JavaScript's padEnd(width, '0'). */
  function PadEnd(s: string, width: nat): string {
    if |s| >= width then s else s + Zeros(width - |s|)
  }

  /** A signed integer literal; None where big.Int.SetString fails and BigInt throws. */
  function ParseInt(s: string): Option<int> {
    if s != "" && AllDigits(s) then Some(ToNat(s))
    else if |s| > 1 && s[0] == '-' && AllDigits(s[1..]) then Some(-(ToNat(s[1..]) as int))
    else if |s| > 1 && s[0] == '+' && AllDigits(s[1..]) then Some(ToNat(s[1..]))
    else None
  }

  /** strings.Split(s, c) on a single character. */
  function Split(s: string, c: char): (parts: seq<string>)
    ensures |parts| >= 1
    ensures forall i :: 0 <= i < |parts| ==> c !in parts[i]
  {
    if s == "" then [""]
    else
      var rest := Split(s[1..], c);
      if s[0] == c then [""] + rest else [[s[0]] + rest[0]] + rest[1..]
  }

  lemma {:induction false} PowAdd(a: nat, b: nat)
    ensures Pow10(a + b) == Pow10(a) * Pow10(b)
  {
    if a > 0 {
      PowAdd(a - 1, b);
      assert Pow10(a + b) == 10 * (Pow10(a - 1) * Pow10(b));
    }
  }

  lemma {:induction false} ToNatBound(s: string)
    requires AllDigits(s)
    ensures ToNat(s) < Pow10(|s|)
  {
    if s != [] { ToNatBound(s[..|s| - 1]); }
  }

  lemma {:induction false} ShiftTen(a: nat, p: nat)
    ensures a * (10 * p) == 10 * (a * p)
  {}

  lemma {:induction false} ToNatConcat(a: string, b: string)
    requires AllDigits(a) && AllDigits(b)
    ensures AllDigits(a + b)
    ensures ToNat(a + b) == ToNat(a) * Pow10(|b|) + ToNat(b)
  {
    if b == [] {
      assert a + b == a;
    } else {
      var front := b[..|b| - 1];
      ToNatConcat(a, front);
      assert (a + b)[..|a + b| - 1] == a + front;
      ShiftTen(ToNat(a), Pow10(|front|));
    }
  }

  lemma {:induction false} ToNatZeros(k: nat)
    ensures ToNat(Zeros(k)) == 0
  {
    if k > 0 {
      ToNatZeros(k - 1);
      ToNatConcat("0", Zeros(k - 1));
    }
  }

  lemma {:induction false} ToNatDigits(n: nat)
    ensures ToNat(Digits(n)) == n
  {
    var s := Digits(n);
    if n >= 10 {
      ToNatDigits(n / 10);
      assert s[..|s| - 1] == Digits(n / 10);
    } else {
      assert s[..|s| - 1] == [];
    }
  }

  /** Two digit strings of one length with one value are one string. */
  lemma {:induction false} ToNatInjective(a: string, b: string)
    requires AllDigits(a) && AllDigits(b) && |a| == |b| && ToNat(a) == ToNat(b)
    ensures a == b
  {
    if a != [] {
      var i := |a| - 1;
      assert ToNat(a) % 10 == a[i] as int - '0' as int;
      assert ToNat(b) % 10 == b[i] as int - '0' as int;
      ToNatInjective(a[..i], b[..i]);
      assert a == a[..i] + [a[i]] && b == b[..i] + [b[i]];
    }
  }

  lemma {:induction false} DigitsLength(n: nat, k: nat)
    requires k >= 1
    ensures n < Pow10(k) <==> |Digits(n)| <= k
  {
    if n >= 10 {
      if k > 1 {
        DigitsLength(n / 10, k - 1);
      } else {
        assert Pow10(1) == 10 * Pow10(0) == 10;
      }
    } else {
      assert Pow10(k) == 10 * Pow10(k - 1);
    }
  }

  /** Splitting on a character that occurs nowhere, or exactly once. */
  lemma {:induction false} SplitNone(s: string, c: char)
    requires c !in s
    ensures Split(s, c) == [s]
  {
    if s != "" {
      SplitNone(s[1..], c);
      assert [s[0]] + s[1..] == s;
    }
  }

  lemma {:induction false} SplitOnce(a: string, b: string, c: char)
    requires c !in a && c !in b
    ensures Split(a + [c] + b, c) == [a, b]
  {
    var s := a + [c] + b;
    if a == "" {
      assert s[1..] == b;
      SplitNone(b, c);
    } else {
      assert s[1..] == a[1..] + [c] + b;
      SplitOnce(a[1..], b, c);
      assert [a[0]] + a[1..] == a;
    }
  }
}
