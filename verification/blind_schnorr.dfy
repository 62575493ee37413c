/** Blind Schnorr signatures over an abstract cyclic group, and the scalar arithmetic
    below them. Random draws are parameters; a panic is the value None. */
module BlindSchnorr {
  import opened WalletTypes
  import Scalar

  /** The curve as far as the protocol uses it: a group with a generator of the given
      order, the affine x-coordinate, and the challenge hash reduced modulo the order. */
  datatype Suite<!P(==)> = Suite(add: (P, P) -> P, neg: P -> P, zero: P, base: P, order: nat, bits: nat,
                                 x: P -> nat, hash: (nat, nat) -> nat)

  // --- The group ------------------------------------------------------------------------

  predicate AssocAt<P(==)>(s: Suite<P>, a: P, b: P, c: P) {
    s.add(s.add(a, b), c) == s.add(a, s.add(b, c))
  }

  predicate CommutesAt<P(==)>(s: Suite<P>, a: P, b: P) {
    s.add(a, b) == s.add(b, a)
  }

  predicate IdentityAt<P(==)>(s: Suite<P>, a: P) {
    s.add(a, s.zero) == a
  }

  predicate InverseAt<P(==)>(s: Suite<P>, a: P) {
    s.add(a, s.neg(a)) == s.zero
  }

  ghost predicate Abelian<P(!new)>(s: Suite<P>) {
    && (forall a, b, c :: AssocAt(s, a, b, c))
    && (forall a, b :: CommutesAt(s, a, b))
    && (forall a :: IdentityAt(s, a))
    && (forall a :: InverseAt(s, a))
  }

  /** The base generates a group of exactly `order` elements, and scalars fit in `bits`. */
  ghost predicate Generates<P>(s: Suite<P>) {
    && s.order > 1
    && s.order <= Pow2(s.bits)
    && Times(s, s.base, s.order) == s.zero
    && forall k: nat :: 0 < k < s.order ==> Times(s, s.base, k) != s.zero
  }

  ghost predicate Group<P(!new)>(s: Suite<P>) {
    Abelian(s) && Generates(s) && forall a, m :: s.hash(a, m) < s.order
  }

  function Pow2(k: nat): (r: nat)
    ensures r > 0
  {
    if k == 0 then 1 else 2 * Pow2(k - 1)
  }

  /** k times p, by repeated addition. */
  function Times<P>(s: Suite<P>, p: P, k: nat): P {
    if k == 0 then s.zero else s.add(Times(s, p, k - 1), p)
  }

  lemma {:induction false} TimesAdd<P(!new)>(s: Suite<P>, p: P, a: nat, b: nat)
    requires Abelian(s)
    ensures Times(s, p, a + b) == s.add(Times(s, p, a), Times(s, p, b))
  {
    if b > 0 {
      TimesAdd(s, p, a, b - 1);
      assert AssocAt(s, Times(s, p, a), Times(s, p, b - 1), p);
    } else {
      assert IdentityAt(s, Times(s, p, a));
    }
  }

  lemma TimesOne<P(!new)>(s: Suite<P>, p: P)
    requires Abelian(s)
    ensures Times(s, p, 1) == p
  {
    assert CommutesAt(s, s.zero, p) && IdentityAt(s, p);
    assert Times(s, p, 0) == s.zero;
  }

  lemma {:induction false} TimesZero<P(!new)>(s: Suite<P>, k: nat)
    requires Abelian(s)
    ensures Times(s, s.zero, k) == s.zero
  {
    if k > 0 {
      TimesZero(s, k - 1);
      assert IdentityAt(s, s.zero);
    }
  }

  lemma {:induction false} TimesTimes<P(!new)>(s: Suite<P>, p: P, a: nat, b: nat)
    requires Abelian(s)
    ensures Times(s, Times(s, p, a), b) == Times(s, p, a * b)
  {
    if b > 0 {
      TimesTimes(s, p, a, b - 1);
      TimesAdd(s, p, a * (b - 1), a);
      assert a * b == a * (b - 1) + a;
    } else {
      assert a * b == 0;
    }
  }

  lemma TimesReduced<P(!new)>(s: Suite<P>, k: nat)
    requires Group(s)
    ensures Times(s, s.base, k % s.order) == Times(s, s.base, k)
  {
    var q, m := Scalar.Split(s.order, k);
    TimesShift(s, m, q, k % s.order);
  }

  lemma TimesShift<P(!new)>(s: Suite<P>, m: nat, q: nat, r: nat)
    requires Group(s) && m == s.order * q
    ensures Times(s, s.base, m + r) == Times(s, s.base, r)
  {
    TimesAdd(s, s.base, m, r);
    TimesTimes(s, s.base, s.order, q);
    TimesZero(s, q);
    assert CommutesAt(s, s.zero, Times(s, s.base, r)) && IdentityAt(s, Times(s, s.base, r));
  }

  /** Two multiples of the base agree when their scalars agree modulo the order. */
  lemma TimesAgree<P(!new)>(s: Suite<P>, a: nat, b: nat)
    requires Group(s) && a % s.order == b % s.order
    ensures Times(s, s.base, a) == Times(s, s.base, b)
  {
    TimesReduced(s, a);
    TimesReduced(s, b);
  }

  /** The negative of a point is determined by the group laws. */
  lemma NegUnique<P(!new)>(s: Suite<P>, a: P, b: P)
    requires Abelian(s) && s.add(a, b) == s.zero
    ensures s.neg(a) == b
  {
    assert AssocAt(s, s.neg(a), a, b) && IdentityAt(s, s.neg(a));
    assert CommutesAt(s, s.neg(a), a) && InverseAt(s, a);
    assert CommutesAt(s, s.zero, b) && IdentityAt(s, b);
  }

  lemma NegTimes<P(!new)>(s: Suite<P>, k: nat)
    requires Group(s) && k <= s.order
    ensures s.neg(Times(s, s.base, k)) == Times(s, s.base, s.order - k)
  {
    TimesAdd(s, s.base, k, s.order - k);
    NegUnique(s, Times(s, s.base, k), Times(s, s.base, s.order - k));
  }

  // --- Double and add ----------------------------------------------------------------------

  /** The low bits of k, least significant first. */
  function Bits(k: nat, width: nat): (r: seq<bool>)
    ensures |r| == width
  {
    if width == 0 then [] else [k % 2 == 1] + Bits(k / 2, width - 1)
  }

  function Value(bits: seq<bool>): nat {
    if bits == [] then 0 else Value(bits[..|bits| - 1]) + if bits[|bits| - 1] then Pow2(|bits| - 1) else 0
  }

  lemma {:induction false} ValueCons(b: bool, bits: seq<bool>)
    ensures Value([b] + bits) == (if b then 1 else 0) + 2 * Value(bits)
  {
    if bits != [] {
      ValueCons(b, bits[..|bits| - 1]);
      assert ([b] + bits)[..|bits|] == [b] + bits[..|bits| - 1];
    } else {
      assert ([b] + bits)[..0] == [];
    }
  }

  lemma {:induction false} ValueOfBits(k: nat, width: nat)
    requires k < Pow2(width)
    ensures Value(Bits(k, width)) == k
  {
    if width > 0 {
      ValueOfBits(k / 2, width - 1);
      ValueCons(k % 2 == 1, Bits(k / 2, width - 1));
    }
  }

  function MulSpec<P>(s: Suite<P>, p: P, k: nat): P
    requires s.order > 0
  {
    Times(s, p, k % s.order)
  }

  lemma DoubleStep<P(!new)>(s: Suite<P>, p: P, bits: seq<bool>, i: nat)
    requires Abelian(s) && i < |bits|
    ensures Times(s, p, Value(bits[..i + 1])) ==
            if bits[i] then s.add(Times(s, p, Value(bits[..i])), Times(s, p, Pow2(i)))
                else Times(s, p, Value(bits[..i]))
    ensures Times(s, p, Pow2(i + 1)) == s.add(Times(s, p, Pow2(i)), Times(s, p, Pow2(i)))
  {
    assert bits[..i + 1][..i] == bits[..i];
    TimesAdd(s, p, Value(bits[..i]), Pow2(i));
    TimesAdd(s, p, Pow2(i), Pow2(i));
  }

  /** scalar_mul: the loop computes (k mod n) times the point, for every scalar. */
  method ScalarMul<P(!new)>(s: Suite<P>, p: P, k: nat) returns (result: P)
    requires Group(s)
    ensures result == MulSpec(s, p, k)
  {
    var bits := Bits(k % s.order, s.bits);
    result := s.zero;
    var temp := p;
    TimesOne(s, p);
    for i := 0 to |bits|
      invariant result == Times(s, p, Value(bits[..i])) && temp == Times(s, p, Pow2(i))
    {
      DoubleStep(s, p, bits, i);
      if bits[i] {
        result := s.add(result, temp);
      }
      temp := s.add(temp, temp);
    }
    assert bits[..|bits|] == bits;
    ValueOfBits(k % s.order, s.bits);
  }

  // --- The protocol --------------------------------------------------------------------------

  datatype Signature = Signature(cPrime: nat, sPrime: nat)

  datatype BlindState<P> = BlindState(alpha: nat, rPrime: P, message: nat)

  /** The challenge; a point without affine coordinates panics. */
  function Challenge<P>(s: Suite<P>, point: P, message: nat): Option<nat> {
    if point == s.zero then None else Some(s.hash(s.x(point), message))
  }

  function PublicKey<P>(s: Suite<P>, secret: nat): P
    requires s.order > 0
  {
    MulSpec(s, s.base, secret)
  }

  function Commitment<P>(s: Suite<P>, k: nat): P
    requires s.order > 0
  {
    MulSpec(s, s.base, k)
  }

  function ClientBlind<P>(s: Suite<P>, commitment: P, public: P, message: nat, alpha: nat,
                          beta: nat): (r: Option<(BlindState<P>, nat)>)
    requires s.order > 0
  {
    var rPrime := s.add(s.add(commitment, MulSpec(s, s.base, alpha)), MulSpec(s, public, beta));
    var cPrime := Challenge(s, rPrime, message);
    if cPrime.None? then None
    else Some((BlindState(alpha, rPrime, message), Scalar.Add(s.order, cPrime.value, beta)))
  }

  function ServerRespond<P>(s: Suite<P>, k: nat, secret: nat, c: nat): nat
    requires s.order > 0
  {
    Scalar.Add(s.order, k, Scalar.Mul(s.order, c, secret))
  }

  function ClientUnblind<P>(s: Suite<P>, state: BlindState<P>, response: nat): Option<Signature>
    requires s.order > 0
  {
    var cPrime := Challenge(s, state.rPrime, state.message);
    if cPrime.None? then None else Some(Signature(cPrime.value, Scalar.Add(s.order, response, state.alpha)))
  }

  predicate Verify<P>(s: Suite<P>, public: P, message: nat, sig: Signature)
    requires s.order > 0
  {
    var r := s.add(MulSpec(s, s.base, sig.sPrime), s.neg(MulSpec(s, public, sig.cPrime)));
    r != s.zero && s.hash(s.x(r), message) == sig.cPrime
  }

  // --- Every point of the protocol as a multiple of the base -------------------------------------

  /** b times the public key of secret x is (b * x) times the base. */
  lemma TimesKey<P(!new)>(s: Suite<P>, x: nat, b: nat)
    requires Group(s)
    ensures MulSpec(s, PublicKey(s, x), b) == Times(s, s.base, b * x)
  {
    var n := s.order;
    var y, d := x % n, b % n;
    TimesTimes(s, s.base, y, d);
    Scalar.ModMul(n, x, d);
    Scalar.ModMul(n, b, x);
    assert y * d % n == b * x % n;
    TimesAgree(s, y * d, b * x);
  }

  /** The blinded point: R' = (k + alpha + beta * x) G. */
  lemma BlindedPoint<P(!new)>(s: Suite<P>, k: nat, x: nat, alpha: nat, beta: nat)
    requires Group(s)
    ensures s.add(s.add(Commitment(s, k), MulSpec(s, s.base, alpha)), MulSpec(s, PublicKey(s, x), beta))
         == Times(s, s.base, k + alpha + beta * x)
  {
    TimesReduced(s, k);
    TimesReduced(s, alpha);
    TimesKey(s, x, beta);
    TimesAdd(s, s.base, k, alpha);
    TimesAdd(s, s.base, k + alpha, beta * x);
  }

  /** s' - e modulo n is r when r + e is s'. */
  lemma Difference(n: nat, sPrime: nat, e: nat, r: nat)
    requires n > 0 && (r + e) % n == sPrime % n
    ensures (sPrime + (n - e % n)) % n == r % n
  {
    Scalar.ModAdd(n, sPrime, r + e, n - e % n);
    var q := e / n;
    assert r + e + (n - e % n) == n * (q + 1) + r by { assert e == n * q + e % n && n * (q + 1) == n * q + n; }
    Scalar.ModShift(n, q + 1, r);
  }

  /** The recovered point: R'' = (s' - c' * x) G, whatever multiple r satisfies r + c' x = s'. */
  lemma RecoveredPoint<P(!new)>(s: Suite<P>, x: nat, sig: Signature, e: nat, r: nat)
    requires Group(s) && e == sig.cPrime * x && (r + e) % s.order == sig.sPrime % s.order
    ensures s.add(MulSpec(s, s.base, sig.sPrime), s.neg(MulSpec(s, PublicKey(s, x), sig.cPrime))) == Times(s, s.base, r)
  {
    var n := s.order;
    TimesKey(s, x, sig.cPrime);
    TimesReduced(s, e);
    NegTimes(s, e % n);
    TimesReduced(s, sig.sPrime);
    TimesAdd(s, s.base, sig.sPrime, n - e % n);
    Difference(n, sig.sPrime, e, r);
    TimesAgree(s, sig.sPrime + (n - e % n), r);
  }

  lemma BaseIsZeroIff<P(!new)>(s: Suite<P>, k: nat)
    requires Group(s)
    ensures Times(s, s.base, k) == s.zero <==> k % s.order == 0
  {
    TimesReduced(s, k);
  }

  // --- Completeness --------------------------------------------------------------------------------

  lemma Distribute(a: nat, b: nat, x: nat)
    ensures (a + b) * x == a * x + b * x
  {
  }

  lemma BlindedProduct(n: nat, x: nat, beta: nat, cPrime: nat, u: nat, v: nat)
    requires n > 0 && u == beta * x && v == cPrime * x
    ensures Scalar.Mul(n, Scalar.Add(n, cPrime, beta), x) == (u + v) % n
  {
    Distribute(cPrime, beta, x);
    Scalar.ReducedFactor(n, cPrime + beta, x, u + v);
  }

  lemma ReducedSum(n: nat, k: nat, alpha: nat, w: nat)
    requires n > 0
    ensures Scalar.Add(n, Scalar.Add(n, k, w % n), alpha) == (k + alpha + w) % n
  {
    Scalar.ModTwice(n, w);
    Scalar.ModAdd(n, w % n, w, k);
    Scalar.ModTwice(n, k + w % n);
    Scalar.ModAdd(n, (k + w % n) % n, k + w, alpha);
  }

  /** The response equation: s' = (k + alpha + beta x) + c' x when c = c' + beta. */
  lemma ResponseEquation(n: nat, k: nat, x: nat, alpha: nat, beta: nat, cPrime: nat, u: nat, v: nat)
    requires n > 0 && u == beta * x && v == cPrime * x
    ensures Scalar.Add(n, Scalar.Add(n, k, Scalar.Mul(n, Scalar.Add(n, cPrime, beta), x)),
                       alpha) == (k + alpha + u + v) % n
  {
    BlindedProduct(n, x, beta, cPrime, u, v);
    ReducedSum(n, k, alpha, u + v);
  }

  /** The signature of an honest run. */
  function HonestSignature<P>(s: Suite<P>, x: nat, k: nat, alpha: nat, beta: nat, message: nat): Option<Signature>
    requires s.order > 0
  {
    var blind := ClientBlind(s, Commitment(s, k), PublicKey(s, x), message, alpha, beta);
    if blind.None? then None else ClientUnblind(s, blind.value.0, ServerRespond(s, k, x, blind.value.1))
  }

  lemma HonestValue<P(!new)>(s: Suite<P>, x: nat, k: nat, alpha: nat, beta: nat, u: nat, message: nat, r: nat)
    requires Group(s) && u == beta * x && r == k + alpha + u && Times(s, s.base, r) != s.zero
    ensures var cPrime := s.hash(s.x(Times(s, s.base, r)), message);
            HonestSignature(s, x, k, alpha, beta, message) ==
            Some(Signature(cPrime,
                           Scalar.Add(s.order, ServerRespond(s, k, x, Scalar.Add(s.order, cPrime, beta)), alpha)))
  {
    BlindValue(s, k, x, alpha, beta, message, u, r);
  }

  lemma HonestNone<P(!new)>(s: Suite<P>, x: nat, k: nat, alpha: nat, beta: nat, u: nat, message: nat, r: nat)
    requires Group(s) && u == beta * x && r == k + alpha + u
    ensures HonestSignature(s, x, k, alpha, beta, message).None? <==> Times(s, s.base, r) == s.zero
  {
    BlindValue(s, k, x, alpha, beta, message, u, r);
    if Times(s, s.base, r) != s.zero { HonestValue(s, x, k, alpha, beta, u, message, r); }
  }

  /** The honest signature satisfies r + c' x = s'. */
  lemma HonestEquation<P(!new)>(s: Suite<P>, x: nat, k: nat, alpha: nat, beta: nat, u: nat, message: nat, r: nat)
    returns (sig: Signature, v: nat)
    requires Group(s) && u == beta * x && r == k + alpha + u && Times(s, s.base, r) != s.zero
    ensures HonestSignature(s, x, k, alpha, beta, message) == Some(sig)
    ensures sig.cPrime == s.hash(s.x(Times(s, s.base, r)), message)
    ensures v == sig.cPrime * x && (r + v) % s.order == sig.sPrime % s.order
  {
    HonestValue(s, x, k, alpha, beta, u, message, r);
    sig := HonestSignature(s, x, k, alpha, beta, message).value;
    v := sig.cPrime * x;
    ResponseEquation(s.order, k, x, alpha, beta, sig.cPrime, u, v);
    Scalar.ModTwice(s.order, r + v);
  }

  lemma HonestVerifies<P(!new)>(s: Suite<P>, x: nat, k: nat, alpha: nat, beta: nat, u: nat, message: nat, r: nat)
    requires Group(s) && u == beta * x && r == k + alpha + u && Times(s, s.base, r) != s.zero
    ensures var sig := HonestSignature(s, x, k, alpha, beta, message);
            sig.Some? && Verify(s, PublicKey(s, x), message, sig.value)
  {
    var sig, v := HonestEquation(s, x, k, alpha, beta, u, message, r);
    RecoveredPoint(s, x, sig, v, r);
  }

  /** Completeness: an honest run panics exactly when the blinded point is the identity, and
      otherwise ends in a signature that verifies. */
  lemma Completeness<P(!new)>(s: Suite<P>, x: nat, k: nat, alpha: nat, beta: nat, u: nat, message: nat)
    requires Group(s) && u == beta * x
    ensures HonestSignature(s, x, k, alpha, beta, message).None? <==> (k + alpha + u) % s.order == 0
    ensures HonestSignature(s, x, k, alpha, beta, message).Some? ==>
              Verify(s, PublicKey(s, x), message, HonestSignature(s, x, k, alpha, beta, message).value)
  {
    var r := k + alpha + u;
    BaseIsZeroIff(s, r);
    HonestNone(s, x, k, alpha, beta, u, message, r);
    if Times(s, s.base, r) != s.zero { HonestVerifies(s, x, k, alpha, beta, u, message, r); }
  }

  /** What the client computes, in terms of the multiple r. */
  lemma BlindValue<P(!new)>(s: Suite<P>, k: nat, x: nat, alpha: nat, beta: nat, message: nat,
                                u: nat, r: nat)
    requires Group(s) && u == beta * x && r == k + alpha + u
    ensures ClientBlind(s, Commitment(s, k), PublicKey(s, x), message, alpha, beta) ==
            (var point := Times(s, s.base, r);
             if point == s.zero then None
             else Some((BlindState(alpha, point, message), Scalar.Add(s.order, s.hash(s.x(point), message), beta))))
  {
    BlindedPoint(s, k, x, alpha, beta);
  }

  // --- Perfect blindness ------------------------------------------------------------------------------

  /** With these blinding factors the client turns the transcript (k G, c, response)
      into this signature on the message. */
  ghost predicate Explains<P>(s: Suite<P>, x: nat, k: nat, c: nat, message: nat, sig: Signature, alpha: nat, beta: nat)
    requires s.order > 0
  {
    var blind := ClientBlind(s, Commitment(s, k), PublicKey(s, x), message, alpha, beta);
    && alpha < s.order && beta < s.order
    && blind.Some? && blind.value.1 == c
    && ClientUnblind(s, blind.value.0, ServerRespond(s, k, x, c)) == Some(sig)
  }

  /** The factors that explain an accepted signature: beta = c - c', alpha = s' - s. */
  lemma FactorsExplain<P(!new)>(s: Suite<P>, x: nat, k: nat, c: nat, message: nat, sig: Signature)
    requires Group(s) && c < s.order && sig.cPrime < s.order && sig.sPrime < s.order
    requires Verify(s, PublicKey(s, x), message, sig)
    ensures Explains(s, x, k, c, message, sig, Scalar.Sub(s.order, sig.sPrime, ServerRespond(s, k, x, c)),
                     Scalar.Sub(s.order, c, sig.cPrime))
  {
    var n := s.order;
    var response := ServerRespond(s, k, x, c);
    var alpha, beta := Scalar.Sub(n, sig.sPrime, response), Scalar.Sub(n, c, sig.cPrime);
    Scalar.SubThenAdd(n, sig.sPrime, response);
    Scalar.SubThenAdd(n, c, sig.cPrime);
    Scalar.ModUnique(n, sig.sPrime, 0, sig.sPrime);
    Scalar.ModUnique(n, c, 0, c);
    var u, v := beta * x, sig.cPrime * x;
    ResponseEquation(n, k, x, alpha, beta, sig.cPrime, u, v);
    var r := k + alpha + u;
    RecoveredPoint(s, x, sig, v, r);
    BlindedPoint(s, k, x, alpha, beta);
  }

  lemma FactorsUnique<P(!new)>(s: Suite<P>, x: nat, k: nat, c: nat, message: nat, sig: Signature, alpha: nat, beta: nat)
    requires Group(s) && c < s.order && sig.cPrime < s.order && sig.sPrime < s.order
    requires Explains(s, x, k, c, message, sig, alpha, beta)
    ensures alpha == Scalar.Sub(s.order, sig.sPrime, ServerRespond(s, k, x, c))
    ensures beta == Scalar.Sub(s.order, c, sig.cPrime)
  {
    var n := s.order;
    var response := ServerRespond(s, k, x, c);
    Scalar.SubThenAdd(n, sig.sPrime, response);
    Scalar.SubThenAdd(n, c, sig.cPrime);
    Scalar.ModUnique(n, sig.sPrime, 0, sig.sPrime);
    Scalar.ModUnique(n, c, 0, c);
    Scalar.AddCancels(n, response, alpha, Scalar.Sub(n, sig.sPrime, response));
    Scalar.AddCancels(n, sig.cPrime, beta, Scalar.Sub(n, c, sig.cPrime));
  }

  /** Perfect blindness: for any key, any honest transcript and any accepted signature,
      exactly one pair of blinding factors maps that transcript to that signature. So the
      transcript says nothing about which signature came of it. */
  lemma PerfectBlindness<P(!new)>(s: Suite<P>, x: nat, k: nat, c: nat, message: nat, sig: Signature)
    requires Group(s) && c < s.order && sig.cPrime < s.order && sig.sPrime < s.order
    requires Verify(s, PublicKey(s, x), message, sig)
    ensures exists alpha, beta :: Explains(s, x, k, c, message, sig, alpha, beta)
    ensures forall a, b, alpha, beta ::
              Explains(s, x, k, c, message, sig, a, b) && Explains(s, x, k, c, message, sig, alpha, beta)
              ==> a == alpha && b == beta
  {
    FactorsExplain(s, x, k, c, message, sig);
    forall a, b, alpha, beta | Explains(s, x, k, c, message, sig, a, b)
        && Explains(s, x, k, c, message, sig, alpha, beta)
      ensures a == alpha && b == beta
    {
      FactorsUnique(s, x, k, c, message, sig, a, b);
      FactorsUnique(s, x, k, c, message, sig, alpha, beta);
    }
  }

  /** A signature serves a second message only if the challenge hash collides on it. */
  lemma OtherMessageNeedsCollision<P(!new)>(s: Suite<P>, public: P, message: nat, other: nat, sig: Signature)
    requires s.order > 0 && Verify(s, public, message, sig) && Verify(s, public, other, sig)
    ensures exists a :: s.hash(a, message) == s.hash(a, other) == sig.cPrime
  {
    var r := s.add(MulSpec(s, s.base, sig.sPrime), s.neg(MulSpec(s, public, sig.cPrime)));
    assert s.hash(s.x(r), message) == s.hash(s.x(r), other) == sig.cPrime;
  }

  /** Why the components must be reduced: s' + n verifies as well as s'. */
  lemma UnreducedVerifiesToo<P(!new)>(s: Suite<P>, public: P, message: nat, sig: Signature)
    requires s.order > 0
    ensures Verify(s, public, message, sig) <==> Verify(s, public, message, Signature(sig.cPrime, sig.sPrime + s.order))
  {
    Scalar.ModShift(s.order, 1, sig.sPrime);
  }

  /** The laws are consistent: exclusive or on truth values is such a group, of order two. */
  lemma GroupExists()
    ensures Group(Suite((a: bool, b: bool) => a != b, (a: bool) => a, false, true, 2, 1, (a: bool) => 0,
                        (a: nat, m: nat) => 0))
  {
    var s := Suite((a: bool, b: bool) => a != b, (a: bool) => a, false, true, 2, 1, (a: bool) => 0,
                   (a: nat, m: nat) => 0);
    assert Times(s, true, 1) == true && Times(s, true, 2) == false;
    assert Pow2(1) == 2;
  }
}
