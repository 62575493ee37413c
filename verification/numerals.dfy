/** Numbers written in base 10 or 16, as JavaScript prints and pads them. */
module Numerals {

  function Digit(d: nat): char
    requires d < 16
  {
    if d < 10 then '0' + d as char else 'a' + (d - 10) as char
  }

  predicate IsDecimal(c: char) {
    '0' <= c <= '9'
  }

  predicate IsHex(c: char) {
    '0' <= c <= '9' || 'a' <= c <= 'f' || 'A' <= c <= 'F'
  }

  function DigitValue(c: char): (d: nat)
    ensures d < 16
  {
    if '0' <= c <= '9' then (c - '0') as nat
    else if 'a' <= c <= 'f' then (c - 'a') as nat + 10
    else if 'A' <= c <= 'F' then (c - 'A') as nat + 10
    else 0
  }

  predicate AllDecimal(s: string) {
    forall i :: 0 <= i < |s| ==> IsDecimal(s[i])
  }

  predicate AllHex(s: string) {
    forall i :: 0 <= i < |s| ==> IsHex(s[i])
  }

  function Value(base: nat, s: string): nat {
    if s == "" then 0 else Value(base, s[..|s| - 1]) * base + DigitValue(s[|s| - 1])
  }

  /** n.toString(base) */
  function Numeral(base: nat, n: nat): (s: string)
    requires 2 <= base <= 16
    ensures s != ""
  {
    if n < base then [Digit(n)] else Numeral(base, n / base) + [Digit(n % base)]
  }

  function Pow(base: nat, k: nat): nat {
    if k == 0 then 1 else base * Pow(base, k - 1)
  }

  function Zeros(k: nat): (s: string)
    ensures |s| == k && AllDecimal(s) && AllHex(s)
  {
    seq(k, i => '0')
  }

  function PadStart(s: string, k: nat): (r: string)
    ensures |r| == if |s| < k then k else |s|
  {
    if |s| < k then Zeros(k - |s|) + s else s
  }

  function PadEnd(s: string, k: nat): (r: string)
    ensures |r| == if |s| < k then k else |s|
  {
    if |s| < k then s + Zeros(k - |s|) else s
  }

  lemma ValueSnoc(base: nat, s: string, c: char)
    ensures Value(base, s + [c]) == Value(base, s) * base + DigitValue(c)
  {
    assert (s + [c])[..|s|] == s;
  }

  lemma DigitRoundTrip(d: nat)
    requires d < 16
    ensures DigitValue(Digit(d)) == d
  {
  }

  lemma DivMod(n: nat, d: nat)
    requires d > 0
    ensures (n / d) * d + n % d == n
  {
  }

  lemma Monotone(d: nat, a: int, b: int)
    requires a <= b
    ensures d * a <= d * b
  {
    assert d * (b - a) >= 0;
  }

  lemma NumeralStep(base: nat, n: nat, q: nat, r: nat)
    requires 2 <= base <= 16 && base <= n && q == n / base && r == n % base && r < 16
    ensures Numeral(base, n) == Numeral(base, q) + [Digit(r)]
  {
  }

  lemma DigitIsDigit(d: nat)
    requires d < 16
    ensures IsHex(Digit(d)) && (d < 10 ==> IsDecimal(Digit(d)))
  {
  }

  lemma DigitsSnoc(s: string, d: nat)
    requires d < 16
    ensures AllHex(s) ==> AllHex(s + [Digit(d)])
    ensures AllDecimal(s) && d < 10 ==> AllDecimal(s + [Digit(d)])
  {
    DigitIsDigit(d);
  }

  lemma {:induction false} DecimalDigits(n: nat)
    ensures AllDecimal(Numeral(10, n))
  {
    DigitIsDigit(n % 10);
    if n >= 10 {
      DecimalDigits(n / 10);
      DigitsSnoc(Numeral(10, n / 10), n % 10);
    }
  }

  lemma {:induction false} HexDigits(n: nat)
    ensures AllHex(Numeral(16, n))
  {
    DigitIsDigit(n % 16);
    if n >= 16 {
      HexDigits(n / 16);
      DigitsSnoc(Numeral(16, n / 16), n % 16);
    }
  }

  lemma {:induction false} NumeralValue(base: nat, n: nat)
    requires 2 <= base <= 16
    ensures Value(base, Numeral(base, n)) == n
  {
    if n < base {
      DigitRoundTrip(n);
      OneDigit(base, Digit(n));
    } else {
      var q, r := n / base, n % base;
      NumeralValue(base, q);
      NumeralStep(base, n, q, r);
      DivMod(n, base);
      DigitRoundTrip(r);
      SnocValue(base, Numeral(base, q), q, r, n);
    }
  }

  lemma OneDigit(base: nat, c: char)
    ensures Value(base, [c]) == DigitValue(c)
  {
    ValueSnoc(base, "", c);
    assert "" + [c] == [c];
  }

  lemma SnocValue(base: nat, s: string, q: nat, r: nat, n: nat)
    requires r < 16 && Value(base, s) == q && q * base + r == n
    ensures Value(base, s + [Digit(r)]) == n
  {
    ValueSnoc(base, s, Digit(r));
    DigitRoundTrip(r);
  }

  lemma {:induction false} NumeralLength(base: nat, n: nat, k: nat)
    requires 2 <= base <= 16 && k >= 1
    ensures |Numeral(base, n)| <= k <==> n < Pow(base, k)
  {
    if k == 1 {
      assert Pow(base, 1) == base * Pow(base, 0) == base;
      if n >= base { assert |Numeral(base, n / base)| >= 1; }
    } else if n < base {
      PowGrows(base, k);
    } else {
      NumeralLength(base, n / base, k - 1);
      DivLess(n, base, Pow(base, k - 1));
    }
  }

  lemma {:induction false} PowGrows(base: nat, k: nat)
    requires base >= 2 && k >= 1
    ensures Pow(base, k) >= base
  {
    if k > 1 { PowGrows(base, k - 1); } else { assert Pow(base, 0) == 1; }
  }

  lemma DivLess(n: nat, d: nat, m: nat)
    requires d > 0
    ensures n / d < m <==> n < d * m
  {
    var q := n / d;
    DivMod(n, d);
    if q < m {
      Monotone(d, q, m - 1);
      assert d * (m - 1) == d * m - d;
    } else {
      Monotone(d, m, q);
    }
  }

  lemma {:induction false} LeadingZeros(base: nat, k: nat, s: string)
    ensures Value(base, Zeros(k) + s) == Value(base, s)
  {
    if s == "" {
      assert Zeros(k) + s == Zeros(k);
      if k > 0 {
        LeadingZeros(base, k - 1, "");
        assert Zeros(k)[..k - 1] == Zeros(k - 1) == Zeros(k - 1) + "";
      }
    } else {
      LeadingZeros(base, k, s[..|s| - 1]);
      assert (Zeros(k) + s)[..k + |s| - 1] == Zeros(k) + s[..|s| - 1];
    }
  }

  /** Leading zeros do not change a value. */
  lemma PaddedValue(base: nat, s: string, k: nat)
    ensures Value(base, PadStart(s, k)) == Value(base, s)
  {
    if |s| < k { LeadingZeros(base, k - |s|, s); }
  }

  /** v * base^k */
  function Scaled(base: nat, v: nat, k: nat): nat {
    if k == 0 then v else Scaled(base, v, k - 1) * base
  }

  lemma {:induction false} TrailingZeros(base: nat, s: string, k: nat)
    ensures Value(base, s + Zeros(k)) == Scaled(base, Value(base, s), k)
  {
    if k == 0 {
      assert s + Zeros(0) == s;
    } else {
      TrailingZeros(base, s, k - 1);
      assert s + Zeros(k) == (s + Zeros(k - 1)) + ['0'];
      ValueSnoc(base, s + Zeros(k - 1), '0');
    }
  }
}
