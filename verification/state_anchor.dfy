/** The state-anchor credential scheme. A credential opens a balance commitment that is
    signed together with an anchor; the spend token is the nullifier of secret and anchor,
    and each charge moves to a fresh anchor, signed with the next one-time leaf. */
module StateAnchor {
  import opened WalletTypes
  import Scalar
  import opened CredentialLedger

  /** What the next anchor is hashed from. */
  datatype AnchorInput = AnchorInput(serverRng: nat, nullifier: nat, commitment: (nat, nat), leaf: nat)

  /** The primitives, uninterpreted. `sign` is the one-time signature of a leaf; `root`
      identifies the signer's key and `genesis` is the anchor of a new credential. */
  datatype Primitives = Primitives(order: nat, root: nat, capacity: nat, genesis: nat,
                                   commit: (nat, nat) -> (nat, nat), nullifier: (nat, nat) -> nat,
                                   anchor: AnchorInput -> nat, rng: (nat, nat) -> nat,
                                   delta: (nat, nat, nat) -> nat, message: ((nat, nat), nat) -> nat,
                                   sign: (nat, nat) -> nat, check: (nat, nat, nat) -> bool)

  /** Signatures by an existing leaf verify under the signer's root. */
  ghost predicate Sound(p: Primitives) {
    p.order > 0 && forall m: nat, leaf: nat :: leaf < p.capacity ==> p.check(p.root, m, p.sign(m, leaf))
  }

  datatype Credential = Credential(secret: nat, balance: nat, blinding: nat, anchor: nat, genesis: bool,
                                   signature: Option<nat>, root: nat)

  /** The signer with the anchor inputs it has signed for, one for each used leaf. */
  datatype Signer = Signer(log: seq<AnchorInput>)

  function Nullifier(p: Primitives, c: Credential): nat {
    p.nullifier(c.secret, c.anchor)
  }

  /** What is sent to the server: the opening of the state and a nullifier, which the server
      takes as it is shown. */
  datatype Presentation = Presentation(balance: nat, blinding: nat, rerand: nat, anchor: nat, nullifier: nat,
                                       genesis: bool, signature: Option<nat>, root: nat)

  /** authenticate and build_withdrawal: the honest presentation of a credential. */
  function Shown(p: Primitives, c: Credential, rerand: nat): Presentation {
    Presentation(c.balance, c.blinding, rerand, c.anchor, Nullifier(p, c), c.genesis, c.signature, c.root)
  }

  /** verify_state_sig */
  predicate AcceptsShown(p: Primitives, q: Presentation) {
    q.genesis || (q.signature.Some?
                  && p.check(q.root, p.message(p.commit(q.balance, q.blinding), q.anchor), q.signature.value))
  }

  predicate Accepts(p: Primitives, c: Credential) {
    AcceptsShown(p, Shown(p, c, 0))
  }

  function Genesis(p: Primitives, secret: nat, deposit: nat, blinding: nat): Credential {
    Credential(secret, deposit, blinding, p.genesis, true, None, 0)
  }

  /** The blinding after a charge: both sides contribute. */
  function NextBlinding(p: Primitives, c: Credential, q: Presentation, leaf: nat): nat
    requires p.order > 0
  {
    Scalar.Add(p.order, Scalar.Add(p.order, c.blinding, q.rerand), p.delta(p.rng(q.nullifier, 2), q.nullifier, leaf))
  }

  function NextInput(p: Primitives, c: Credential, q: Presentation, amount: nat, leaf: nat): AnchorInput
    requires p.order > 0 && amount <= c.balance
  {
    AnchorInput(p.rng(q.nullifier, 1), q.nullifier, p.commit(c.balance - amount, NextBlinding(p, c, q, leaf)), leaf)
  }

  /** apply_charge for any presentation; it fails when no leaf is left. */
  function ChargeShown(p: Primitives, s: Signer, c: Credential, q: Presentation, amount: nat)
    : Option<(Signer, Credential)>
    requires p.order > 0
  {
    var leaf := |s.log|;
    if c.balance < amount || leaf >= p.capacity then None
    else
      var input := NextInput(p, c, q, amount, leaf);
      var anchor := p.anchor(input);
      Some((Signer(s.log + [input]),
            Credential(c.secret, c.balance - amount, NextBlinding(p, c, q, leaf), anchor, false,
                       Some(p.sign(p.message(input.commitment, anchor), leaf)), p.root)))
  }

  /** apply_charge for the honest presentation. */
  function ChargeNext(p: Primitives, s: Signer, c: Credential, amount: nat, rerand: nat): Option<(Signer, Credential)>
    requires p.order > 0
  {
    ChargeShown(p, s, c, Shown(p, c, rerand), amount)
  }

  function Anchored(p: Primitives): Scheme<Signer, Credential, nat>
    requires p.order > 0
  {
    Scheme((s: Signer, secret: nat, deposit: nat, blinding: nat) => Some((s, Genesis(p, secret, deposit, blinding))),
           (s: Signer, c: Credential, amount: nat, rerand: nat) => ChargeNext(p, s, c, amount, rerand),
           c => Accepts(p, c), c => Nullifier(p, c), (c: Credential) => c.balance)
  }

  lemma AnchoredIsLawful(p: Primitives)
    requires Sound(p)
    ensures Lawful(Anchored(p))
  {
  }

  // --- Fresh nullifiers -----------------------------------------------------------------------

  function Secrets(p: Primitives, ops: seq<Op<nat>>): seq<nat> {
    if ops == [] then []
    else Secrets(p, ops[..|ops| - 1]) + if ops[|ops| - 1].Issue? then [ops[|ops| - 1].secret] else []
  }

  /** a is the anchor behind token t: the genesis anchor, or one signed after the token before. */
  ghost predicate AnchorOf(p: Primitives, s: System<Signer, Credential>, t: Token, a: nat)
    requires Held(s, t)
  {
    if t.generation == 0 then a == p.genesis
    else exists i :: 0 <= i < |s.signer.log| && a == p.anchor(s.signer.log[i])
                     && s.signer.log[i].nullifier == s.holdings[t.user].tokens[t.generation - 1]
  }

  ghost predicate Derived(p: Primitives, secrets: seq<nat>, s: System<Signer, Credential>, t: Token)
    requires Held(s, t) && |secrets| == |s.holdings|
  {
    exists a :: AnchorOf(p, s, t, a) && TokenOf(s, t) == p.nullifier(secrets[t.user], a)
  }

  ghost predicate HolderOk(p: Primitives, secret: nat, h: Holding<Credential>) {
    h.cred.secret == secret && |h.tokens| > 0 && h.tokens[|h.tokens| - 1] == Nullifier(p, h.cred)
  }

  ghost predicate Chained(p: Primitives, secrets: seq<nat>, s: System<Signer, Credential>) {
    && |secrets| == |s.holdings|
    && (forall u :: 0 <= u < |s.holdings| ==> HolderOk(p, secrets[u], s.holdings[u]))
    && (forall t :: Held(s, t) ==> Derived(p, secrets, s, t))
  }

  /** No collision among what the run evaluated: anchor inputs, the genesis anchor, and the
      pairs of secret and anchor. */
  ghost predicate CollisionFree(p: Primitives, secrets: seq<nat>, s: System<Signer, Credential>)
    requires |secrets| == |s.holdings|
  {
    && (forall i, j :: 0 <= i < |s.signer.log| && 0 <= j < |s.signer.log| ==>
          (p.anchor(s.signer.log[i]) == p.anchor(s.signer.log[j]) ==> s.signer.log[i] == s.signer.log[j]))
    && (forall i :: 0 <= i < |s.signer.log| ==> p.anchor(s.signer.log[i]) != p.genesis)
    && (forall t, u, a, b :: Held(s, t) && Held(s, u) && AnchorOf(p, s, t, a) && AnchorOf(p, s, u, b) ==>
          (p.nullifier(secrets[t.user], a) == p.nullifier(secrets[u.user], b) ==>
            secrets[t.user] == secrets[u.user] && a == b))
  }

  /** A longer history keeps the anchor of a token. */
  lemma AnchorKept(p: Primitives, secrets: seq<nat>, s: System<Signer, Credential>, later: System<Signer, Credential>,
                   known: seq<nat>, t: Token)
    requires Held(s, t) && Extends(s, later) && s.signer.log <= later.signer.log
    requires |secrets| == |s.holdings| && |known| == |later.holdings| && secrets <= known && Derived(p, secrets, s, t)
    ensures Held(later, t) && Derived(p, known, later, t)
  {
    ExtendsKeepsTokens(s, later, t);
    if t.generation > 0 { ExtendsKeepsTokens(s, later, Token(t.user, t.generation - 1)); }
    var a :| AnchorOf(p, s, t, a) && TokenOf(s, t) == p.nullifier(secrets[t.user], a);
    if t.generation > 0 {
      var i :| 0 <= i < |s.signer.log| && a == p.anchor(s.signer.log[i])
               && s.signer.log[i].nullifier == s.holdings[t.user].tokens[t.generation - 1];
      assert later.signer.log[i] == s.signer.log[i];
    }
    assert AnchorOf(p, later, t, a);
  }

  lemma LogGrows(p: Primitives, s: System<Signer, Credential>, op: Op<nat>)
    requires p.order > 0
    ensures s.signer.log <= SystemNext(Anchored(p), s, op).0.signer.log
  {
  }

  /** The token of a new credential comes from the genesis anchor or from the input that
      was just signed. */
  lemma NewToken(p: Primitives, secrets: seq<nat>, s: System<Signer, Credential>, op: Op<nat>, t: Token)
    requires p.order > 0 && Chained(p, secrets, s)
    requires var next := SystemNext(Anchored(p), s, op).0; Held(next, t) && !Held(s, t)
    ensures var next := SystemNext(Anchored(p), s, op).0;
            var known := secrets + if op.Issue? then [op.secret] else [];
            |known| == |next.holdings| && Derived(p, known, next, t)
  {
    var next := SystemNext(Anchored(p), s, op).0;
    if op.Issue? {
      assert t == Token(|s.holdings|, 0) && AnchorOf(p, next, t, p.genesis);
    } else {
      var before := s.holdings[t.user];
      assert HolderOk(p, secrets[t.user], before);
      assert op.Charge? && t == Token(op.user, |before.tokens|);
      var i := |s.signer.log|;
      assert next.signer.log[i].nullifier == before.tokens[t.generation - 1];
      assert AnchorOf(p, next, t, p.anchor(next.signer.log[i]));
    }
  }

  lemma StepChained(p: Primitives, secrets: seq<nat>, s: System<Signer, Credential>, op: Op<nat>)
    requires p.order > 0 && Chained(p, secrets, s)
    ensures Chained(p, secrets + (if op.Issue? then [op.secret] else []), SystemNext(Anchored(p), s, op).0)
  {
    var next := SystemNext(Anchored(p), s, op).0;
    var known := secrets + if op.Issue? then [op.secret] else [];
    StepExtends(Anchored(p), s, op);
    LogGrows(p, s, op);
    HoldersStay(p, secrets, s, op);
    forall t | Held(next, t) ensures Derived(p, known, next, t) {
      if Held(s, t) { AnchorKept(p, secrets, s, next, known, t); } else { NewToken(p, secrets, s, op, t); }
    }
  }

  lemma HoldersStay(p: Primitives, secrets: seq<nat>, s: System<Signer, Credential>, op: Op<nat>)
    requires p.order > 0 && |secrets| == |s.holdings|
    requires forall u :: 0 <= u < |s.holdings| ==> HolderOk(p, secrets[u], s.holdings[u])
    ensures var next := SystemNext(Anchored(p), s, op).0;
            var known := secrets + if op.Issue? then [op.secret] else [];
            |known| == |next.holdings| && forall u :: 0 <= u < |next.holdings| ==>
                  HolderOk(p, known[u], next.holdings[u])
  {
  }

  lemma {:induction false} RunChained(p: Primitives, ops: seq<Op<nat>>)
    requires p.order > 0
    ensures Chained(p, Secrets(p, ops), SystemRun(Anchored(p), Signer([]), ops))
  {
    if ops != [] {
      RunChained(p, ops[..|ops| - 1]);
      StepChained(p, Secrets(p, ops[..|ops| - 1]), SystemRun(Anchored(p), Signer([]), ops[..|ops| - 1]),
                  ops[|ops| - 1]);
    }
  }

  /** Equal nullifiers come from equal secrets and anchors, so from equal earlier nullifiers. */
  lemma {:induction false} NullifiersDiffer(p: Primitives, secrets: seq<nat>, s: System<Signer, Credential>, t: Token,
                                            u: Token)
    requires Chained(p, secrets, s) && CollisionFree(p, secrets, s)
    requires forall i, j :: 0 <= i < j < |secrets| ==> secrets[i] != secrets[j]
    requires Held(s, t) && Held(s, u) && TokenOf(s, t) == TokenOf(s, u)
    ensures t == u
    decreases t.generation
  {
    assert Derived(p, secrets, s, t) && Derived(p, secrets, s, u);
    var a :| AnchorOf(p, s, t, a) && TokenOf(s, t) == p.nullifier(secrets[t.user], a);
    var b :| AnchorOf(p, s, u, b) && TokenOf(s, u) == p.nullifier(secrets[u.user], b);
    assert a == b && t.user == u.user;
    if t.generation > 0 && u.generation > 0 {
      NullifiersDiffer(p, secrets, s, Token(t.user, t.generation - 1), Token(u.user, u.generation - 1));
    }
  }

  ghost predicate HonestRun(p: Primitives, ops: seq<Op<nat>>)
    requires p.order > 0
  {
    var secrets := Secrets(p, ops);
    var final := SystemRun(Anchored(p), Signer([]), ops);
    && |secrets| == |final.holdings| && CollisionFree(p, secrets, final)
    && forall i, j :: 0 <= i < j < |secrets| ==> secrets[i] != secrets[j]
  }

  /** The state-anchor scheme implements the ledger over every honest run. */
  lemma AnchorImplementsLedger(p: Primitives, ops: seq<Op<nat>>)
    requires Sound(p) && HonestRun(p, ops) && ops != [] && Answered(SystemReply(Anchored(p), Signer([]), ops))
    ensures Distinct(SystemRun(Anchored(p), Signer([]), ops))
    ensures SystemReply(Anchored(p), Signer([]), ops) == LedgerReply(AnsweredOps(Anchored(p), Signer([]), ops))
  {
    var secrets, final := Secrets(p, ops), SystemRun(Anchored(p), Signer([]), ops);
    RunChained(p, ops);
    forall t, u | Held(final, t) && Held(final, u) && TokenOf(final, t) == TokenOf(final, u) ensures t == u {
      NullifiersDiffer(p, secrets, final, t, u);
    }
    AnchoredIsLawful(p);
    RunRefines(Anchored(p), Signer([]), ops);
  }

  // --- What the server sees ----------------------------------------------------------------------

  function ShownToken(q: Presentation): nat {
    q.nullifier
  }

  /** An honest presentation is judged as the ledger's scheme judges its credential. */
  lemma HonestlyShown(p: Primitives, c: Credential, rerand: nat, spent: set<nat>)
    requires p.order > 0
    ensures VerifyNext(x => AcceptsShown(p, x), ShownToken, spent, Shown(p, c, rerand))
         == VerifyNext(Anchored(p).accepts, Anchored(p).token, spent, c)
  {
  }

  /** Presenting q and then the same state under another nullifier, both are accepted. */
  predicate BothAccepted(p: Primitives, q: Presentation, other: nat, spent: set<nat>) {
    var first := VerifyNext(x => AcceptsShown(p, x), ShownToken, spent, q);
    var second := VerifyNext(x => AcceptsShown(p, x), ShownToken, first.0, q.(nullifier := other));
    first.1.Accepted? && second.1.Accepted?
  }

  /** The server does not tie the nullifier to the state: one state, shown under two
      nullifiers, is accepted both times if and only if it is accepted at all and the
      nullifiers are different and unspent. */
  lemma ShownTwiceIff(p: Primitives, q: Presentation, other: nat, spent: set<nat>)
    ensures BothAccepted(p, q, other, spent)
       <==> AcceptsShown(p, q) && q.nullifier !in spent && other !in spent && other != q.nullifier
  {
  }

  // --- What a signature binds ----------------------------------------------------------------------

  /** The message that a signature of this state is about. */
  function StateMessage(p: Primitives, balance: nat, blinding: nat, anchor: nat): nat {
    p.message(p.commit(balance, blinding), anchor)
  }

  /** A presentation without the genesis mark is accepted exactly if its signature checks under
      its root on the commitment to the balance and blinding it shows, and on its anchor. */
  lemma AcceptedIff(p: Primitives, q: Presentation)
    ensures AcceptsShown(p, q) <==>
            q.genesis
            || exists signature ::
                 q.signature == Some(signature)
                 && p.check(q.root, StateMessage(p, q.balance, q.blinding, q.anchor), signature)
  {
  }

  /** One request to charge a credential: what the client holds and what it presented. */
  datatype Request = Request(cred: Credential, shown: Presentation, amount: nat)

  /** The signer and the credentials it handed out, after any requests by anyone. */
  function Served(p: Primitives, requests: seq<Request>): (Signer, seq<Credential>)
    requires p.order > 0
  {
    if requests == [] then (Signer([]), [])
    else
      var before, r := Served(p, requests[..|requests| - 1]), requests[|requests| - 1];
      var next := ChargeShown(p, before.0, r.cred, r.shown, r.amount);
      if next.None? then before else (next.value.0, before.1 + [next.value.1])
  }

  /** What a charge signs: the commitment to the balance that is left, under a blinding to which
      client and server contribute, with an anchor of the next leaf. */
  lemma ChargeSigns(p: Primitives, s: Signer, r: Request)
    requires p.order > 0
    ensures var next := ChargeShown(p, s, r.cred, r.shown, r.amount);
            var leaf := |s.log|;
            && (next.Some? <==> r.amount <= r.cred.balance && leaf < p.capacity)
            && (next.Some? ==>
                  var c := next.value.1;
                  && c.balance + r.amount == r.cred.balance && c.secret == r.cred.secret && !c.genesis
                  && c.blinding == (r.cred.blinding + r.shown.rerand
                                    + p.delta(p.rng(r.shown.nullifier, 2), r.shown.nullifier, leaf)) % p.order
                  && next.value.0.log == s.log + [AnchorInput(p.rng(r.shown.nullifier, 1), r.shown.nullifier,
                                                              p.commit(c.balance, c.blinding), leaf)]
                  && c.anchor == p.anchor(next.value.0.log[leaf])
                  && c.signature == Some(p.sign(StateMessage(p, c.balance, c.blinding, c.anchor), leaf))
                  && c.root == p.root)
  {
    if r.amount <= r.cred.balance {
      Scalar.SumTwice(p.order, r.cred.blinding, r.shown.rerand,
                      p.delta(p.rng(r.shown.nullifier, 2), r.shown.nullifier, |s.log|));
    }
  }

  /** Every handed-out credential opens what was logged for its leaf, and its balance is what
      some request left. */
  ghost predicate Opens(p: Primitives, s: Signer, creds: seq<Credential>) {
    |s.log| == |creds| && forall i :: 0 <= i < |creds| ==>
      && s.log[i].leaf == i && s.log[i].commitment == p.commit(creds[i].balance, creds[i].blinding)
      && creds[i].anchor == p.anchor(s.log[i])
  }

  ghost predicate LeftBy(requests: seq<Request>, balance: nat) {
    exists r :: r in requests && r.amount <= r.cred.balance && balance == r.cred.balance - r.amount
  }

  lemma LeftByMore(requests: seq<Request>, r: Request, balance: nat)
    requires LeftBy(requests, balance)
    ensures LeftBy(requests + [r], balance)
  {
    var x :| x in requests && x.amount <= x.cred.balance && balance == x.cred.balance - x.amount;
    assert x in requests + [r];
  }

  lemma {:induction false} ServedOpens(p: Primitives, requests: seq<Request>)
    requires p.order > 0
    ensures Opens(p, Served(p, requests).0, Served(p, requests).1)
    ensures forall i :: 0 <= i < |Served(p, requests).1| ==> LeftBy(requests, Served(p, requests).1[i].balance)
  {
    if requests != [] {
      var front, r := requests[..|requests| - 1], requests[|requests| - 1];
      ServedOpens(p, front);
      ChargeSigns(p, Served(p, front).0, r);
      assert requests == front + [r] && r in requests;
      forall i | 0 <= i < |Served(p, requests).1| ensures LeftBy(requests, Served(p, requests).1[i].balance) {
        if i < |Served(p, front).1| { LeftByMore(front, r, Served(p, front).1[i].balance); }
      }
    }
  }

  function Signed(p: Primitives, entry: AnchorInput): nat {
    p.message(entry.commitment, p.anchor(entry))
  }

  /** The one-time signatures are not forged: this presentation's checks only for a message
      that the signer's log says was signed. */
  ghost predicate NotForged(p: Primitives, s: Signer, q: Presentation) {
    q.signature.Some? && p.check(q.root, StateMessage(p, q.balance, q.blinding, q.anchor), q.signature.value) ==>
      exists i :: 0 <= i < |s.log| && StateMessage(p, q.balance, q.blinding, q.anchor) == Signed(p, s.log[i])
  }

  /** Neither the message nor the commitment collides on what is shown and what was signed. */
  ghost predicate NoCollision(p: Primitives, creds: seq<Credential>, q: Presentation) {
    forall i :: 0 <= i < |creds| ==>
      && (StateMessage(p, q.balance, q.blinding, q.anchor)
            == StateMessage(p, creds[i].balance, creds[i].blinding, creds[i].anchor)
          ==> p.commit(q.balance, q.blinding) == p.commit(creds[i].balance, creds[i].blinding)
              && q.anchor == creds[i].anchor)
      && (p.commit(q.balance, q.blinding) == p.commit(creds[i].balance, creds[i].blinding)
          ==> q.balance == creds[i].balance && q.blinding == creds[i].blinding)
  }

  /** Whoever presents whatever: an accepted state that is not genesis is one that was handed
      out, so its balance is what some charge left, and with another balance it is rejected. */
  lemma AcceptedWasSigned(p: Primitives, requests: seq<Request>, q: Presentation)
    requires p.order > 0 && !q.genesis && AcceptsShown(p, q)
    requires NotForged(p, Served(p, requests).0, q) && NoCollision(p, Served(p, requests).1, q)
    ensures exists i :: 0 <= i < |Served(p, requests).1| && Served(p, requests).1[i].balance == q.balance
                        && Served(p, requests).1[i].blinding == q.blinding
                        && Served(p, requests).1[i].anchor == q.anchor
    ensures LeftBy(requests, q.balance)
  {
    AcceptedIff(p, q);
    ServedOpens(p, requests);
    var s, creds := Served(p, requests).0, Served(p, requests).1;
    var i :| 0 <= i < |s.log| && StateMessage(p, q.balance, q.blinding, q.anchor) == Signed(p, s.log[i]);
    assert s.log[i].commitment == p.commit(creds[i].balance, creds[i].blinding);
    assert LeftBy(requests, creds[i].balance);
  }

  /** A credential whose balance was changed opens no commitment that was signed. */
  lemma ForgedBalanceIsRejected(p: Primitives, requests: seq<Request>, q: Presentation)
    requires p.order > 0 && !q.genesis
    requires NotForged(p, Served(p, requests).0, q) && NoCollision(p, Served(p, requests).1, q)
    requires forall i :: 0 <= i < |Served(p, requests).1| && Served(p, requests).1[i].anchor == q.anchor
               ==> Served(p, requests).1[i].balance != q.balance
    ensures !AcceptsShown(p, q)
  {
    if AcceptsShown(p, q) { AcceptedWasSigned(p, requests, q); }
  }

  /** The client's share alone makes the next blinding uniform: whatever the server adds, each
      blinding comes from exactly one rerandomiser, which this computes. */
  function RerandFor(p: Primitives, c: Credential, q: Presentation, leaf: nat, blinding: nat): nat
    requires p.order > 0
  {
    var delta := p.delta(p.rng(q.nullifier, 2), q.nullifier, leaf);
    Scalar.Sub(p.order, blinding, Scalar.Add(p.order, c.blinding, delta))
  }

  lemma RerandIsUniform(p: Primitives, c: Credential, q: Presentation, leaf: nat, blinding: nat)
    requires p.order > 0 && blinding < p.order && q.rerand < p.order
    ensures NextBlinding(p, c, q, leaf) == blinding <==> q.rerand == RerandFor(p, c, q, leaf, blinding)
  {
    Scalar.OnlyShare(p.order, c.blinding, p.delta(p.rng(q.nullifier, 2), q.nullifier, leaf), blinding, q.rerand);
  }

  /** The scheme object: the one-time signer and the spent nullifiers. */
  class StateAnchorScheme {
    const prims: Primitives
    var signer: Signer
    var spent: set<nat>

    constructor (p: Primitives)
      ensures prims == p && signer == Signer([]) && spent == {}
    {
      prims, signer, spent := p, Signer([]), {};
    }

    /** Anything may be presented; the nullifier is the one shown. */
    method VerifyPresentation(q: Presentation) returns (r: Reply)
      modifies this`spent
      ensures (spent, r) == VerifyNext(x => AcceptsShown(prims, x), ShownToken, old(spent), q)
      ensures r.Accepted? <==> AcceptsShown(prims, q) && q.nullifier !in old(spent)
      ensures spent == if r.Accepted? then old(spent) + {q.nullifier} else old(spent)
    {
      if !q.genesis {
        if q.signature.None? { return Rejected; }
        var message := prims.message(prims.commit(q.balance, q.blinding), q.anchor);
        if !prims.check(q.root, message, q.signature.value) { return Rejected; }
      }
      if q.nullifier in spent { return Replayed; }
      spent := spent + {q.nullifier};
      return Accepted;
    }

    /** A charge uses one leaf exactly when it succeeds; a refused one leaves the signer
        alone. The next credential is accepted whatever was presented. */
    method ApplyCharge(c: Credential, q: Presentation, amount: nat) returns (r: Reply, next: Option<Credential>)
      requires Sound(prims)
      modifies this`signer
      ensures r.Insufficient? <==> c.balance < amount
      ensures r.Failed? <==> c.balance >= amount && |old(signer).log| >= prims.capacity
      ensures next.Some? <==> r.Charged?
      ensures next.Some? ==>
                && next.value.balance + amount == c.balance && next.value.secret == c.secret
                && Accepts(prims, next.value)
                && ChargeShown(prims, old(signer), c, q, amount) == Some((signer, next.value))
      ensures |signer.log| == |old(signer).log| + if r.Charged? then 1 else 0
    {
      if c.balance < amount { return Insufficient(c.balance, amount), None; }
      var leaf := |signer.log|;
      if leaf >= prims.capacity { return Failed, None; }
      var blinding := NextBlinding(prims, c, q, leaf);
      var input := NextInput(prims, c, q, amount, leaf);
      var anchor := prims.anchor(input);
      var signature := prims.sign(prims.message(input.commitment, anchor), leaf);
      signer := Signer(signer.log + [input]);
      return Charged,
          Some(Credential(c.secret, c.balance - amount, blinding, anchor, false, Some(signature), prims.root));
    }

    method VerifyWithdrawal(q: Presentation) returns (r: Reply)
      modifies this`spent
      ensures r.Paid? <==> AcceptsShown(prims, q) && q.nullifier !in old(spent)
      ensures r.Paid? ==> r.balance == q.balance && spent == old(spent) + {q.nullifier}
      ensures !r.Paid? ==> spent == old(spent)
    {
      r := VerifyPresentation(q);
      if r.Accepted? { r := Paid(q.balance); }
    }
  }
}

/** The two schemes behind one interface. */
module CredentialSchemes {
  import opened CredentialLedger
  import BlindSchnorr
  import BlindCredentials
  import StateAnchor

  /** Whichever scheme the daemons are configured with, users see the same answers: whatever
      is drawn at random, two honest runs whose signers answered the same operations give
      the same answer to the last of them. */
  lemma SchemesAgree<P(!new)>(s: BlindSchnorr.Suite<P>, h: BlindCredentials.Hashes, key: nat,
                              ops: seq<Op<BlindCredentials.Draws>>,
                              p: StateAnchor.Primitives, others: seq<Op<nat>>)
    requires BlindSchnorr.Group(s) && BlindCredentials.HonestRun(s, h, key, ops) && ops != []
    requires StateAnchor.Sound(p) && StateAnchor.HonestRun(p, others) && others != []
    requires Answered(SystemReply(BlindCredentials.Blind(s, h, key), (), ops))
    requires Answered(SystemReply(StateAnchor.Anchored(p), StateAnchor.Signer([]), others))
    requires SameOps(AnsweredOps(BlindCredentials.Blind(s, h, key), (), ops),
                     AnsweredOps(StateAnchor.Anchored(p), StateAnchor.Signer([]), others))
    ensures SystemReply(BlindCredentials.Blind(s, h, key), (), ops)
         == SystemReply(StateAnchor.Anchored(p), StateAnchor.Signer([]), others)
  {
    BlindCredentials.BlindImplementsLedger(s, h, key, ops);
    StateAnchor.AnchorImplementsLedger(p, others);
    DrawsDoNotMatter(AnsweredOps(BlindCredentials.Blind(s, h, key), (), ops),
                     AnsweredOps(StateAnchor.Anchored(p), StateAnchor.Signer([]), others));
  }
}
