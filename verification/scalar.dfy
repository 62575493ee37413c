/** Scalar arithmetic modulo the order of the curve group, on big integers. */
module Scalar {

  function Reduce(n: nat, a: nat): (r: nat)
    requires n > 0
    ensures r < n
  {
    a % n
  }

  function Add(n: nat, a: nat, b: nat): (r: nat)
    requires n > 0
    ensures r < n
  {
    (a + b) % n
  }

  function Sub(n: nat, a: nat, b: nat): (r: nat)
    requires n > 0
    ensures r < n
  {
    (a % n + n - b % n) % n
  }

  function Mul(n: nat, a: nat, b: nat): (r: nat)
    requires n > 0
    ensures r < n
  {
    a * b % n
  }

  lemma AtLeastOnce(n: int, d: int)
    requires n > 0 && d >= 1
    ensures n * d >= n
  {
    assert n * (d - 1) >= 0;
  }

  lemma QuotientUnique(n: int, q: int, r: int, p: int, t: int)
    requires 0 <= r < n && 0 <= t < n && n * q + r == n * p + t
    ensures q == p && r == t
  {
    assert n * q == n * p + n * (q - p) && n * p == n * q + n * (p - q);
    if q > p { AtLeastOnce(n, q - p); }
    if p > q { AtLeastOnce(n, p - q); }
  }

  lemma Split(n: nat, k: nat) returns (q: nat, m: nat)
    requires n > 0
    ensures m == n * q && k == m + k % n
  {
    q := k / n;
    m := n * q;
  }

  lemma ModUnique(n: nat, a: nat, q: nat, r: nat)
    requires r < n && a == n * q + r
    ensures a % n == r
  {
    QuotientUnique(n, q, r, a / n, a % n);
  }

  lemma ModShift(n: nat, q: nat, r: nat)
    requires n > 0
    ensures n * q + r >= 0 && (n * q + r) % n == r % n
  {
    assert n * q >= 0;
    assert n * (q + r / n) == n * q + n * (r / n);
    ModUnique(n, n * q + r, q + r / n, r % n);
  }

  /** Equal remainders may be added. */
  lemma ModAdd(n: nat, a: nat, b: nat, c: nat)
    requires n > 0 && a % n == b % n
    ensures (a + c) % n == (b + c) % n
  {
    var p, q, r := a / n, b / n, a % n;
    assert a == n * p + r && b == n * q + r;
    ModShift(n, p, r + c);
    ModShift(n, q, r + c);
  }

  lemma Spread(n: nat, q: nat, r: nat, b: nat)
    ensures q * b >= 0 && r * b >= 0 && (n * q + r) * b == n * (q * b) + r * b
  {
    assert (n * q + r) * b == (n * q) * b + r * b;
    assert (n * q) * b == n * (q * b);
  }

  /** A factor may be reduced first. */
  lemma ModMul(n: nat, a: nat, b: nat)
    requires n > 0
    ensures (a % n) * b >= 0 && a * b >= 0 && (a % n) * b % n == a * b % n
  {
    var q, r := a / n, a % n;
    assert a == n * q + r;
    Spread(n, q, r, b);
    ModShift(n, q * b, r * b);
  }

  lemma ReducedFactor(n: nat, a: nat, b: nat, product: nat)
    requires n > 0 && a * b == product
    ensures Mul(n, Reduce(n, a), b) == Reduce(n, product)
  {
    ModMul(n, a, b);
  }

  lemma ModTwice(n: nat, a: nat)
    requires n > 0
    ensures (a % n) % n == a % n
  {
    ModUnique(n, a % n, 0, a % n);
  }

  lemma Borrowed(n: nat, q: nat, x: nat, y: nat)
    requires y < n
    ensures n * q >= 0 && n * (q + 1) >= 0 && (x + n - y) + (n * q + y) == n * (q + 1) + x
  {
    assert n * (q + 1) == n * q + n;
  }

  /** Subtraction undoes addition, and addition undoes subtraction. */
  lemma SubThenAdd(n: nat, a: nat, b: nat)
    requires n > 0
    ensures Add(n, b, Sub(n, a, b)) == a % n
  {
    var x, y, q := a % n, b % n, b / n;
    var d: nat := x + n - y;
    assert b == n * q + y && Sub(n, a, b) == d % n;
    ModTwice(n, d);
    ModAdd(n, d % n, d, b);
    Borrowed(n, q, x, y);
    ModShift(n, q + 1, x);
    ModTwice(n, a);
  }

  /** Adding b can be undone, so it is injective on reduced scalars. */
  lemma AddCancels(n: nat, b: nat, u: nat, v: nat)
    requires u < n && v < n && Add(n, b, u) == Add(n, b, v)
    ensures u == v
  {
    var p, q := (b + u) / n, (b + v) / n;
    assert n * p - u == n * q - v;
    if u >= v { QuotientUnique(n, p - q, 0, 0, u - v); } else { QuotientUnique(n, q - p, 0, 0, v - u); }
  }

  /** Three summands may be added in any order, reducing in between or at the end. */
  lemma SumTwice(n: nat, a: nat, b: nat, d: nat)
    requires n > 0
    ensures Add(n, Add(n, a, b), d) == (a + b + d) % n
  {
    ModTwice(n, a + b);
    ModAdd(n, (a + b) % n, a + b, d);
  }

  /** One summand is determined by the others and the sum. */
  lemma OnlyShare(n: nat, a: nat, d: nat, t: nat, x: nat)
    requires x < n && t < n
    ensures Add(n, Add(n, a, x), d) == t <==> x == Sub(n, t, Add(n, a, d))
  {
    var s := Add(n, a, d);
    SumTwice(n, a, x, d);
    SumTwice(n, a, d, x);
    SubThenAdd(n, t, s);
    ModUnique(n, t, 0, t);
    if Add(n, s, x) == t { AddCancels(n, s, x, Sub(n, t, s)); }
  }
}
