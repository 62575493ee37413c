/** The blind-signature credential scheme. A credential is a blind signature on the pair
    of balance and serial; the serial is the spend token, and each charge re-issues the
    credential under the next serial of a hash chain. */
module BlindCredentials {
  import opened WalletTypes
  import opened BlindSchnorr
  import opened CredentialLedger

  datatype SerialInput = Genesis(secret: nat) | After(serial: nat)

  /** The two domain-separated hashes. */
  datatype Hashes = Hashes(serial: SerialInput -> nat, message: (nat, nat) -> nat)

  datatype Draws = Draws(k: nat, alpha: nat, beta: nat)

  datatype Credential = Credential(balance: nat, serial: nat, signature: Signature)

  /** The issuance protocol run in one process; None where blinding panics. */
  function Signed<P>(s: Suite<P>, h: Hashes, key: nat, balance: nat, serial: nat, d: Draws): Option<Credential>
    requires s.order > 0
  {
    var sig := HonestSignature(s, key, d.k, d.alpha, d.beta, h.message(balance, serial));
    if sig.None? then None else Some(Credential(balance, serial, sig.value))
  }

  predicate Accepts<P>(s: Suite<P>, h: Hashes, key: nat, c: Credential)
    requires s.order > 0
  {
    Verify(s, PublicKey(s, key), h.message(c.balance, c.serial), c.signature)
  }

  /** issue and apply_charge, as far as they concern the credential. */
  function Issued<P>(s: Suite<P>, h: Hashes, key: nat, secret: nat, deposit: nat, d: Draws): Option<Credential>
    requires s.order > 0
  {
    Signed(s, h, key, deposit, h.serial(Genesis(secret)), d)
  }

  function Reissued<P>(s: Suite<P>, h: Hashes, key: nat, c: Credential, amount: nat, d: Draws): Option<Credential>
    requires s.order > 0
  {
    if c.balance < amount then None else Signed(s, h, key, c.balance - amount, h.serial(After(c.serial)), d)
  }

  function WithUnit(c: Option<Credential>): Option<((), Credential)> {
    if c.None? then None else Some(((), c.value))
  }

  /** The scheme, as the ledger sees it. */
  function Blind<P>(s: Suite<P>, h: Hashes, key: nat): Scheme<(), Credential, Draws>
    requires s.order > 0
  {
    Scheme((_: (), secret: nat, deposit: nat, d: Draws) => WithUnit(Issued(s, h, key, secret, deposit, d)),
           (_: (), c: Credential, amount: nat, d: Draws) => WithUnit(Reissued(s, h, key, c, amount, d)),
           c => Accepts(s, h, key, c), (c: Credential) => c.serial, (c: Credential) => c.balance)
  }

  lemma SignedIsAccepted<P(!new)>(s: Suite<P>, h: Hashes, key: nat, balance: nat, serial: nat, d: Draws)
    requires Group(s) && Signed(s, h, key, balance, serial, d).Some?
    ensures Accepts(s, h, key, Signed(s, h, key, balance, serial, d).value)
  {
    Completeness(s, key, d.k, d.alpha, d.beta, d.beta * key, h.message(balance, serial));
  }

  /** Every credential the scheme makes carries the right balance and is accepted. */
  lemma BlindIsLawful<P(!new)>(s: Suite<P>, h: Hashes, key: nat)
    requires Group(s)
    ensures Lawful(Blind(s, h, key))
  {
    var m := Blind(s, h, key);
    forall u: (), secret: nat, deposit: nat, d: Draws | m.issue(u, secret, deposit, d).Some?
      ensures Good(m, m.issue(u, secret, deposit, d).value.1, deposit)
    {
      assert m.issue(u, secret, deposit, d) == WithUnit(Issued(s, h, key, secret, deposit, d));
      SignedIsAccepted(s, h, key, deposit, h.serial(Genesis(secret)), d);
    }
    forall u: (), c: Credential, amount: nat, d: Draws | amount <= m.balance(c) && m.charge(u, c, amount, d).Some?
      ensures Good(m, m.charge(u, c, amount, d).value.1, m.balance(c) - amount)
    {
      assert m.charge(u, c, amount, d) == WithUnit(Reissued(s, h, key, c, amount, d));
      assert m.balance(c) == c.balance;
      SignedIsAccepted(s, h, key, c.balance - amount, h.serial(After(c.serial)), d);
    }
  }

  // --- Fresh serials -------------------------------------------------------------------------

  /** The secrets of the issued users, in order. */
  function Secrets<P>(s: Suite<P>, h: Hashes, key: nat, ops: seq<Op<Draws>>): seq<nat>
    requires s.order > 0
  {
    if ops == [] then []
    else
      var op := ops[|ops| - 1];
      Secrets(s, h, key, ops[..|ops| - 1])
        + if op.Issue? && SystemReply(Blind(s, h, key), (), ops).Issued? then [op.secret] else []
  }

  /** The hash input that a token comes from. */
  function InputOf(secrets: seq<nat>, s: System<(), Credential>, t: Token): SerialInput
    requires Held(s, t) && |secrets| == |s.holdings|
  {
    if t.generation == 0 then Genesis(secrets[t.user]) else After(s.holdings[t.user].tokens[t.generation - 1])
  }

  ghost predicate Chained(h: Hashes, secrets: seq<nat>, s: System<(), Credential>) {
    && |secrets| == |s.holdings|
    && (forall t :: Held(s, t) ==> TokenOf(s, t) == h.serial(InputOf(secrets, s, t)))
    && (forall u :: 0 <= u < |s.holdings| ==> EndsIn(s.holdings[u].tokens, s.holdings[u].cred.serial))
  }

  predicate EndsIn(tokens: seq<nat>, last: nat) {
    |tokens| > 0 && tokens[|tokens| - 1] == last
  }

  /** The serial hash does not collide on the inputs evaluated in the run. */
  ghost predicate CollisionFree(h: Hashes, secrets: seq<nat>, s: System<(), Credential>)
    requires |secrets| == |s.holdings|
  {
    forall t, u :: Held(s, t) && Held(s, u) && h.serial(InputOf(secrets, s, t)) == h.serial(InputOf(secrets, s, u))
      ==> InputOf(secrets, s, t) == InputOf(secrets, s, u)
  }

  lemma ChargedToken<P>(s: Suite<P>, h: Hashes, key: nat, c: Credential, amount: nat, d: Draws)
    requires s.order > 0 && Blind(s, h, key).charge((), c, amount, d).Some?
    ensures Blind(s, h, key).charge((), c, amount, d).value.1.serial == h.serial(After(c.serial))
  {
    assert Blind(s, h, key).charge((), c, amount, d) == WithUnit(Reissued(s, h, key, c, amount, d));
    assert Reissued(s, h, key, c, amount, d) == Signed(s, h, key, c.balance - amount, h.serial(After(c.serial)), d);
  }

  lemma StepChained<P>(s: Suite<P>, h: Hashes, key: nat, secrets: seq<nat>, sys: System<(), Credential>, op: Op<Draws>)
    requires s.order > 0 && Chained(h, secrets, sys)
    ensures var r := SystemNext(Blind(s, h, key), sys, op);
            Chained(h, secrets + (if op.Issue? && r.1.Issued? then [op.secret] else []), r.0)
  {
    var m := Blind(s, h, key);
    var next := SystemNext(m, sys, op).0;
    var known := secrets + (if op.Issue? && SystemNext(m, sys, op).1.Issued? then [op.secret] else []);
    StepExtends(m, sys, op);
    forall t | Held(next, t) ensures TokenOf(next, t) == h.serial(InputOf(known, next, t)) {
      if Held(sys, t) {
        ExtendsKeepsTokens(sys, next, t);
        if t.generation > 0 { ExtendsKeepsTokens(sys, next, Token(t.user, t.generation - 1)); }
      } else if op.Issue? {
        assert t == Token(|sys.holdings|, 0);
        assert next.holdings[t.user].tokens == [h.serial(Genesis(op.secret))];
      } else {
        var before := sys.holdings[t.user];
        assert op.Charge? && t == Token(op.user, |before.tokens|);
        ChargedToken(s, h, key, before.cred, op.amount, op.draws);
        assert next.holdings[t.user].tokens == before.tokens + [h.serial(After(before.cred.serial))];
      }
    }
  }

  lemma {:induction false} RunChained<P>(s: Suite<P>, h: Hashes, key: nat, ops: seq<Op<Draws>>)
    requires s.order > 0
    ensures Chained(h, Secrets(s, h, key, ops), SystemRun(Blind(s, h, key), (), ops))
  {
    if ops != [] {
      RunChained(s, h, key, ops[..|ops| - 1]);
      StepChained(s, h, key, Secrets(s, h, key, ops[..|ops| - 1]), SystemRun(Blind(s, h, key), (), ops[..|ops| - 1]),
                  ops[|ops| - 1]);
    }
  }

  /** Equal serials come from equal inputs, so from equal earlier serials, down to the secrets. */
  lemma {:induction false} SerialsDiffer(h: Hashes, secrets: seq<nat>, s: System<(), Credential>, t: Token, u: Token)
    requires Chained(h, secrets, s) && CollisionFree(h, secrets, s)
    requires forall i, j :: 0 <= i < j < |secrets| ==> secrets[i] != secrets[j]
    requires Held(s, t) && Held(s, u) && TokenOf(s, t) == TokenOf(s, u)
    ensures t == u
    decreases t.generation
  {
    assert InputOf(secrets, s, t) == InputOf(secrets, s, u);
    if t.generation > 0 {
      SerialsDiffer(h, secrets, s, Token(t.user, t.generation - 1), Token(u.user, u.generation - 1));
    }
  }

  ghost predicate HonestRun<P>(s: Suite<P>, h: Hashes, key: nat, ops: seq<Op<Draws>>)
    requires s.order > 0
  {
    var secrets := Secrets(s, h, key, ops);
    var final := SystemRun(Blind(s, h, key), (), ops);
    && |secrets| == |final.holdings| && CollisionFree(h, secrets, final)
    && forall i, j :: 0 <= i < j < |secrets| ==> secrets[i] != secrets[j]
  }

  /** The blind-signature scheme implements the ledger over every honest run. */
  lemma BlindImplementsLedger<P(!new)>(s: Suite<P>, h: Hashes, key: nat, ops: seq<Op<Draws>>)
    requires Group(s) && HonestRun(s, h, key, ops) && ops != [] && Answered(SystemReply(Blind(s, h, key), (), ops))
    ensures Distinct(SystemRun(Blind(s, h, key), (), ops))
    ensures SystemReply(Blind(s, h, key), (), ops) == LedgerReply(AnsweredOps(Blind(s, h, key), (), ops))
  {
    var secrets, final := Secrets(s, h, key, ops), SystemRun(Blind(s, h, key), (), ops);
    RunChained(s, h, key, ops);
    forall t, u | Held(final, t) && Held(final, u) && TokenOf(final, t) == TokenOf(final, u) ensures t == u {
      SerialsDiffer(h, secrets, final, t, u);
    }
    BlindIsLawful(s, h, key);
    RunRefines(Blind(s, h, key), (), ops);
  }

  /** A credential presented with another balance is accepted only if a hash collides. */
  lemma ForgedBalanceNeedsCollision<P(!new)>(s: Suite<P>, h: Hashes, key: nat, c: Credential, forged: nat)
    requires Group(s) && Accepts(s, h, key, c) && Accepts(s, h, key, c.(balance := forged))
    ensures exists a :: s.hash(a, h.message(c.balance, c.serial)) == s.hash(a, h.message(forged, c.serial))
  {
    OtherMessageNeedsCollision(s, PublicKey(s, key), h.message(c.balance, c.serial), h.message(forged, c.serial),
                               c.signature);
  }

  /** The scheme object: signing key and spent serials. */
  class BlindSignatureScheme<P(!new, ==)> {
    const suite: Suite<P>
    const hashes: Hashes
    const key: nat
    var spent: set<nat>

    constructor (s: Suite<P>, h: Hashes, secret: nat)
      requires s.order > 0
      ensures suite == s && hashes == h && key == secret % s.order && spent == {}
    {
      suite, hashes, key, spent := s, h, secret % s.order, {};
    }

    /** Registration; it leaves the spent set alone. */
    method IssueCredential(secret: nat, deposit: nat, d: Draws) returns (c: Option<Credential>)
      requires Group(suite)
      ensures c.None? <==> (d.k + d.alpha + d.beta * key) % suite.order == 0
      ensures c.Some? ==> c.value.balance == deposit && c.value.serial == hashes.serial(Genesis(secret))
                          && Accepts(suite, hashes, key, c.value)
    {
      var serial := hashes.serial(Genesis(secret));
      Completeness(suite, key, d.k, d.alpha, d.beta, d.beta * key, hashes.message(deposit, serial));
      c := Signed(suite, hashes, key, deposit, serial, d);
    }

    /** The server's check: the signature is verified before the serial is reserved. */
    method VerifyPresentation(p: Credential) returns (r: Reply)
      requires Group(suite)
      modifies this
      ensures (spent, r) == VerifyNext(Blind(suite, hashes, key).accepts, Blind(suite, hashes, key).token, old(spent),
                                       p)
      ensures r.Accepted? <==> Accepts(suite, hashes, key, p) && p.serial !in old(spent)
      ensures spent == if r.Accepted? then old(spent) + {p.serial} else old(spent)
    {
      var sG := ScalarMul(suite, suite.base, p.signature.sPrime);
      var cP := ScalarMul(suite, PublicKey(suite, key), p.signature.cPrime);
      var point := suite.add(sG, suite.neg(cP));
      var valid := point != suite.zero
          && suite.hash(suite.x(point), hashes.message(p.balance, p.serial)) == p.signature.cPrime;
      if !valid { return Rejected; }
      if p.serial in spent { return Replayed; }
      spent := spent + {p.serial};
      return Accepted;
    }

    method ApplyCharge(c: Credential, amount: nat, d: Draws) returns (r: Reply, next: Option<Credential>)
      requires Group(suite)
      ensures r.Insufficient? <==> c.balance < amount
      ensures next.Some? <==> r.Charged?
      ensures next.Some? ==>
            next.value.balance + amount == c.balance && next.value.serial == hashes.serial(After(c.serial))
                             && Accepts(suite, hashes, key, next.value)
    {
      if c.balance < amount { return Insufficient(c.balance, amount), None; }
      var serial := hashes.serial(After(c.serial));
      next := Signed(suite, hashes, key, c.balance - amount, serial, d);
      if next.None? { return Failed, None; }
      SignedIsAccepted(suite, hashes, key, c.balance - amount, serial, d);
      return Charged, next;
    }

    method VerifyWithdrawal(w: Credential) returns (r: Reply)
      requires Group(suite)
      modifies this
      ensures r.Paid? <==> Accepts(suite, hashes, key, w) && w.serial !in old(spent)
      ensures r.Paid? ==> r.balance == w.balance && spent == old(spent) + {w.serial}
      ensures !r.Paid? ==> spent == old(spent)
    {
      r := VerifyPresentation(w);
      if r.Accepted? { r := Paid(w.balance); }
    }
  }
}
