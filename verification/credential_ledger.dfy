/** The ledger that both credential schemes implement, and the proof that any lawful
    scheme implements it. */
module CredentialLedger {
  import opened WalletTypes

  datatype Reply =
    | Issued | Accepted | Replayed | Insufficient(have: nat, need: nat) | Charged | Paid(balance: nat)
    | Rejected | Failed | Idle

  /** One step of a user or of the server; D is what a scheme draws at random. A replay
      presents again what was presented before. */
  datatype Op<D> =
    | Issue(secret: nat, deposit: nat, draws: D)
    | Present(user: nat, cap: nat)
    | Charge(user: nat, amount: nat, draws: D)
    | Replay(index: nat)
    | Withdraw(user: nat)

  // --- The abstract ledger ---------------------------------------------------------------

  datatype Account = Account(balance: nat, generation: nat, open: bool)

  /** A token names a user's credential of one generation. */
  datatype Token = Token(user: nat, generation: nat)

  datatype Ledger = Ledger(accounts: seq<Account>, made: seq<Token>, spent: set<Token>)

  const EMPTY_LEDGER := Ledger([], [], {})

  function Current(l: Ledger, user: nat): Token
    requires user < |l.accounts|
  {
    Token(user, l.accounts[user].generation)
  }

  function LedgerNext<D>(l: Ledger, op: Op<D>): (Ledger, Reply) {
    match op
    case Issue(_, deposit, _) => (l.(accounts := l.accounts + [Account(deposit, 0, false)]), Issued)
    case Present(user, cap) =>
      if user >= |l.accounts| then (l, Idle)
      else
        var a := l.accounts[user];
        if a.balance < cap then (l, Insufficient(a.balance, cap))
        else
          var tried := l.(made := l.made + [Current(l, user)]);
          if Current(l, user) in l.spent then (tried, Replayed)
          else (tried.(spent := l.spent + {Current(l, user)}, accounts := l.accounts[user := a.(open := true)]),
                Accepted)
    case Charge(user, amount, _) =>
      if user >= |l.accounts| || !l.accounts[user].open then (l, Idle)
      else
        var a := l.accounts[user];
        if a.balance < amount then (l, Insufficient(a.balance, amount))
        else (l.(accounts := l.accounts[user := Account(a.balance - amount, a.generation + 1, false)]), Charged)
    case Replay(index) => (l, if index >= |l.made| then Idle else Replayed)
    case Withdraw(user) =>
      if user >= |l.accounts| then (l, Idle)
      else if Current(l, user) in l.spent then (l, Replayed)
      else (l.(spent := l.spent + {Current(l, user)}), Paid(l.accounts[user].balance))
  }

  // --- A concrete scheme -------------------------------------------------------------------

  /** A scheme: S is the signer's state, C a credential. `issue` and `charge` fail when the
      signer cannot sign; `charge` is called only with enough balance. */
  datatype Scheme<!S, !C, !D> = Scheme(issue: (S, nat, nat, D) -> Option<(S, C)>,
                                       charge: (S, C, nat, D) -> Option<(S, C)>,
                                       accepts: C -> bool, token: C -> nat, balance: C -> nat)

  /** A user's current credential, whether its presentation awaits a charge, and the tokens
      of all credentials the user ever had. */
  datatype Holding<C> = Holding(cred: C, open: bool, tokens: seq<nat>)

  datatype System<S, C> = System(signer: S, holdings: seq<Holding<C>>, made: seq<C>, spent: set<nat>)

  /** The server's verify: signature first, then the spent set. */
  function VerifyNext<C>(accepts: C -> bool, token: C -> nat, spent: set<nat>, c: C): (set<nat>, Reply) {
    if !accepts(c) then (spent, Rejected)
    else if token(c) in spent then (spent, Replayed)
    else (spent + {token(c)}, Accepted)
  }

  function SystemNext<S, C, D>(m: Scheme<S, C, D>, s: System<S, C>, op: Op<D>): (System<S, C>, Reply) {
    match op
    case Issue(secret, deposit, draws) =>
      var made := m.issue(s.signer, secret, deposit, draws);
      if made.None? then (s, Failed)
      else (s.(signer := made.value.0,
               holdings := s.holdings + [Holding(made.value.1, false, [m.token(made.value.1)])]), Issued)
    case Present(user, cap) =>
      if user >= |s.holdings| then (s, Idle)
      else
        var c := s.holdings[user].cred;
        if m.balance(c) < cap then (s, Insufficient(m.balance(c), cap))
        else
          var v := VerifyNext(m.accepts, m.token, s.spent, c);
          (s.(made := s.made + [c], spent := v.0,
              holdings := if v.1.Accepted? then s.holdings[user := s.holdings[user].(open := true)] else s.holdings),
           v.1)
    case Charge(user, amount, draws) =>
      if user >= |s.holdings| || !s.holdings[user].open then (s, Idle)
      else
        var h := s.holdings[user];
        if m.balance(h.cred) < amount then (s, Insufficient(m.balance(h.cred), amount))
        else
          var next := m.charge(s.signer, h.cred, amount, draws);
          if next.None? then (s, Failed)
          else (s.(signer := next.value.0,
                   holdings := s.holdings[user := Holding(next.value.1, false, h.tokens + [m.token(next.value.1)])]),
                Charged)
    case Replay(index) =>
      if index >= |s.made| then (s, Idle)
      else
        var v := VerifyNext(m.accepts, m.token, s.spent, s.made[index]);
        (s.(spent := v.0), v.1)
    case Withdraw(user) =>
      if user >= |s.holdings| then (s, Idle)
      else
        var c := s.holdings[user].cred;
        var v := VerifyNext(m.accepts, m.token, s.spent, c);
        (s.(spent := v.0), if v.1.Accepted? then Paid(m.balance(c)) else v.1)
  }

  // --- Any server run, honest or not ---------------------------------------------------------

  /** The tokens accepted along a sequence of presentations, in order. */
  function AcceptedTokens<C>(accepts: C -> bool, token: C -> nat, spent: set<nat>, shown: seq<C>): seq<nat>
    decreases |shown|
  {
    if shown == [] then []
    else
      var v := VerifyNext(accepts, token, spent, shown[0]);
      (if v.1.Accepted? then [token(shown[0])] else []) + AcceptedTokens(accepts, token, v.0, shown[1..])
  }

  ghost predicate NewAndDifferent(tokens: seq<nat>, spent: set<nat>) {
    && (forall i :: 0 <= i < |tokens| ==> tokens[i] !in spent)
    && (forall i, j :: 0 <= i < j < |tokens| ==> tokens[i] != tokens[j])
  }

  lemma PrependNew(token: nat, rest: seq<nat>, spent: set<nat>)
    requires token !in spent && NewAndDifferent(rest, spent + {token})
    ensures NewAndDifferent([token] + rest, spent)
  {
  }

  /** No spend token is accepted twice, nor one that was spent before, whatever anyone
      presents in whatever order. */
  lemma {:induction false} NoTokenTwice<C>(accepts: C -> bool, token: C -> nat, spent: set<nat>, shown: seq<C>)
    ensures NewAndDifferent(AcceptedTokens(accepts, token, spent, shown), spent)
    decreases |shown|
  {
    if shown != [] {
      var v := VerifyNext(accepts, token, spent, shown[0]);
      NoTokenTwice(accepts, token, v.0, shown[1..]);
      var rest := AcceptedTokens(accepts, token, v.0, shown[1..]);
      if v.1.Accepted? {
        PrependNew(token(shown[0]), rest, spent);
        assert AcceptedTokens(accepts, token, spent, shown) == [token(shown[0])] + rest;
      } else {
        assert v.0 == spent;
        assert AcceptedTokens(accepts, token, spent, shown) == [] + rest == rest;
      }
    }
  }

  // --- Refinement ------------------------------------------------------------------------------

  /** What a scheme promises of the credentials it makes: right balance, and accepted. */
  ghost predicate Lawful<S(!new), C(!new), D(!new)>(m: Scheme<S, C, D>) {
    && (forall s, secret: nat, deposit: nat, d :: m.issue(s, secret, deposit, d).Some? ==>
          Good(m, m.issue(s, secret, deposit, d).value.1, deposit))
    && (forall s, c, amount: nat, d :: amount <= m.balance(c) && m.charge(s, c, amount, d).Some? ==>
          Good(m, m.charge(s, c, amount, d).value.1, m.balance(c) - amount))
  }

  predicate Good<S, C, D>(m: Scheme<S, C, D>, c: C, balance: nat) {
    m.accepts(c) && m.balance(c) == balance
  }

  predicate Held<S, C>(s: System<S, C>, t: Token) {
    t.user < |s.holdings| && t.generation < |s.holdings[t.user].tokens|
  }

  function TokenOf<S, C>(s: System<S, C>, t: Token): nat
    requires Held(s, t)
  {
    s.holdings[t.user].tokens[t.generation]
  }

  /** All tokens ever made are different. */
  ghost predicate Distinct<S, C>(s: System<S, C>) {
    forall t, u :: Held(s, t) && Held(s, u) && TokenOf(s, t) == TokenOf(s, u) ==> t == u
  }

  ghost predicate HoldingOk<S, C, D>(m: Scheme<S, C, D>, a: Account, h: Holding<C>) {
    && Good(m, h.cred, a.balance) && h.open == a.open
    && |h.tokens| == a.generation + 1 && h.tokens[a.generation] == m.token(h.cred)
  }

  ghost predicate HoldingsAgree<S, C, D>(m: Scheme<S, C, D>, l: Ledger, s: System<S, C>) {
    |s.holdings| == |l.accounts| && forall u :: 0 <= u < |l.accounts| ==> HoldingOk(m, l.accounts[u], s.holdings[u])
  }

  /** A made token is spent; the spent set holds exactly the concrete forms of spent tokens. */
  ghost predicate SpentAgrees<S, C, D>(m: Scheme<S, C, D>, l: Ledger, s: System<S, C>) {
    && (forall t :: t in l.spent ==> Held(s, t) && TokenOf(s, t) in s.spent)
    && (forall n :: n in s.spent ==> Names(s, l.spent, n))
    && |s.made| == |l.made|
    && (forall i :: 0 <= i < |s.made| ==> m.accepts(s.made[i]) && m.token(s.made[i]) in s.spent)
  }

  /** n is the concrete form of one of these tokens. */
  ghost predicate Names<S, C>(s: System<S, C>, tokens: set<Token>, n: nat) {
    exists t :: t in tokens && Held(s, t) && TokenOf(s, t) == n
  }

  ghost predicate Refines<S, C, D>(m: Scheme<S, C, D>, l: Ledger, s: System<S, C>) {
    HoldingsAgree(m, l, s) && SpentAgrees(m, l, s)
  }

  /** Histories only grow. */
  ghost predicate Extends<S, C>(s: System<S, C>, later: System<S, C>) {
    |s.holdings| <= |later.holdings| && forall u :: 0 <= u < |s.holdings| ==>
          s.holdings[u].tokens <= later.holdings[u].tokens
  }

  lemma StepExtends<S, C, D>(m: Scheme<S, C, D>, s: System<S, C>, op: Op<D>)
    ensures Extends(s, SystemNext(m, s, op).0)
  {
  }

  lemma ExtendsKeepsTokens<S, C>(s: System<S, C>, later: System<S, C>, t: Token)
    requires Extends(s, later) && Held(s, t)
    ensures Held(later, t) && TokenOf(later, t) == TokenOf(s, t)
  {
    assert s.holdings[t.user].tokens <= later.holdings[t.user].tokens;
  }

  lemma EarlierDistinct<S, C>(s: System<S, C>, later: System<S, C>)
    requires Extends(s, later) && Distinct(later)
    ensures Distinct(s)
  {
    forall t, u | Held(s, t) && Held(s, u) && TokenOf(s, t) == TokenOf(s, u) ensures t == u {
      ExtendsKeepsTokens(s, later, t);
      ExtendsKeepsTokens(s, later, u);
    }
  }

  /** A user's current token is spent in the system exactly when it is in the ledger. */
  lemma SpentIff<S, C, D>(m: Scheme<S, C, D>, l: Ledger, s: System<S, C>, user: nat)
    requires Refines(m, l, s) && Distinct(s) && user < |l.accounts|
    ensures m.token(s.holdings[user].cred) in s.spent <==> Current(l, user) in l.spent
    ensures Held(s, Current(l, user)) && TokenOf(s, Current(l, user)) == m.token(s.holdings[user].cred)
    ensures Good(m, s.holdings[user].cred, l.accounts[user].balance)
  {
    assert HoldingOk(m, l.accounts[user], s.holdings[user]);
    assert Held(s, Current(l, user)) && TokenOf(s, Current(l, user)) == m.token(s.holdings[user].cred);
    var n := m.token(s.holdings[user].cred);
    if n in s.spent {
      assert Names(s, l.spent, n);
      var t :| t in l.spent && Held(s, t) && TokenOf(s, t) == n;
      assert t == Current(l, user);
    }
  }

  lemma NamesKept<S, C>(s: System<S, C>, t: System<S, C>, tokens: set<Token>, more: set<Token>, n: nat)
    requires Extends(s, t) && Names(s, tokens, n) && tokens <= more
    ensures Names(t, more, n)
  {
    var x :| x in tokens && Held(s, x) && TokenOf(s, x) == n;
    ExtendsKeepsTokens(s, t, x);
  }

  lemma TokensKept<S, C>(s: System<S, C>, t: System<S, C>, tokens: set<Token>, spent: set<nat>)
    requires Extends(s, t) && forall x :: x in tokens ==> Held(s, x) && TokenOf(s, x) in spent
    ensures forall x :: x in tokens ==> Held(t, x) && TokenOf(t, x) in spent
  {
    forall x | x in tokens ensures Held(t, x) && TokenOf(t, x) in spent { ExtendsKeepsTokens(s, t, x); }
  }

  /** Spending the current token on both sides, and recording a presentation of it. */
  lemma SpendAgrees<S, C, D>(m: Scheme<S, C, D>, l: Ledger, s: System<S, C>, user: nat, made: bool,
                             k: Ledger, t: System<S, C>)
    requires Refines(m, l, s) && Distinct(s) && user < |l.accounts|
    requires k.spent == l.spent + {Current(l, user)} && t.spent == s.spent + {m.token(s.holdings[user].cred)}
    requires k.made == l.made + (if made then [Current(l, user)] else [])
    requires t.made == s.made + (if made then [s.holdings[user].cred] else [])
    requires Extends(s, t)
    ensures SpentAgrees(m, k, t)
  {
    SpentIff(m, l, s, user);
    TokensKept(s, t, l.spent, s.spent);
    ExtendsKeepsTokens(s, t, Current(l, user));
    forall n | n in t.spent ensures Names(t, k.spent, n) {
      if n in s.spent { NamesKept(s, t, l.spent, k.spent, n); }
    }
  }

  /** Steps that spend nothing: presentations may be repeated, histories may grow. */
  lemma SpentStays<S, C, D>(m: Scheme<S, C, D>, l: Ledger, s: System<S, C>, k: Ledger, t: System<S, C>)
    requires SpentAgrees(m, l, s) && Extends(s, t) && k.spent == l.spent && t.spent == s.spent
    requires |t.made| == |k.made| && forall i :: 0 <= i < |t.made| ==>
          m.accepts(t.made[i]) && m.token(t.made[i]) in t.spent
    ensures SpentAgrees(m, k, t)
  {
    TokensKept(s, t, l.spent, s.spent);
    forall n | n in t.spent ensures Names(t, k.spent, n) { NamesKept(s, t, l.spent, k.spent, n); }
  }

  // --- One step -------------------------------------------------------------------------------

  /** The scheme's signer answered. */
  predicate Answered(r: Reply) {
    !r.Failed?
  }

  lemma IssueRefines<S(!new), C(!new), D(!new)>(m: Scheme<S, C, D>, l: Ledger, s: System<S, C>, op: Op<D>)
    requires Lawful(m) && Refines(m, l, s) && op.Issue? && Answered(SystemNext(m, s, op).1)
    ensures SystemNext(m, s, op).1 == LedgerNext(l, op).1
    ensures Refines(m, LedgerNext(l, op).0, SystemNext(m, s, op).0)
  {
    var c := m.issue(s.signer, op.secret, op.deposit, op.draws).value.1;
    assert Good(m, c, op.deposit);
    StepExtends(m, s, op);
    SpentStays(m, l, s, LedgerNext(l, op).0, SystemNext(m, s, op).0);
  }

  lemma ChargeRefines<S(!new), C(!new), D(!new)>(m: Scheme<S, C, D>, l: Ledger, s: System<S, C>, op: Op<D>)
    requires Lawful(m) && Refines(m, l, s) && op.Charge? && Answered(SystemNext(m, s, op).1)
    ensures SystemNext(m, s, op).1 == LedgerNext(l, op).1
    ensures Refines(m, LedgerNext(l, op).0, SystemNext(m, s, op).0)
  {
    if op.user < |l.accounts| {
      assert HoldingOk(m, l.accounts[op.user], s.holdings[op.user]);
    }
    StepExtends(m, s, op);
    SpentStays(m, l, s, LedgerNext(l, op).0, SystemNext(m, s, op).0);
  }

  lemma PresentRefines<S, C, D>(m: Scheme<S, C, D>, l: Ledger, s: System<S, C>, op: Op<D>)
    requires Refines(m, l, s) && Distinct(s) && op.Present?
    ensures SystemNext(m, s, op).1 == LedgerNext(l, op).1
    ensures Refines(m, LedgerNext(l, op).0, SystemNext(m, s, op).0)
  {
    var k, t := LedgerNext(l, op).0, SystemNext(m, s, op).0;
    if op.user < |l.accounts| {
      SpentIff(m, l, s, op.user);
      StepExtends(m, s, op);
      if LedgerNext(l, op).1.Accepted? {
        SpendAgrees(m, l, s, op.user, true, k, t);
      } else if LedgerNext(l, op).1.Replayed? {
        SpentStays(m, l, s, k, t);
      }
    }
  }

  lemma ReplayRefines<S, C, D>(m: Scheme<S, C, D>, l: Ledger, s: System<S, C>, op: Op<D>)
    requires Refines(m, l, s) && op.Replay?
    ensures SystemNext(m, s, op).1 == LedgerNext(l, op).1
    ensures Refines(m, LedgerNext(l, op).0, SystemNext(m, s, op).0)
  {
  }

  lemma WithdrawRefines<S, C, D>(m: Scheme<S, C, D>, l: Ledger, s: System<S, C>, op: Op<D>)
    requires Refines(m, l, s) && Distinct(s) && op.Withdraw?
    ensures SystemNext(m, s, op).1 == LedgerNext(l, op).1
    ensures Refines(m, LedgerNext(l, op).0, SystemNext(m, s, op).0)
  {
    if op.user < |l.accounts| {
      SpentIff(m, l, s, op.user);
      StepExtends(m, s, op);
      if Current(l, op.user) !in l.spent {
        SpendAgrees(m, l, s, op.user, false, LedgerNext(l, op).0, SystemNext(m, s, op).0);
      }
    }
  }

  lemma StepRefines<S(!new), C(!new), D(!new)>(m: Scheme<S, C, D>, l: Ledger, s: System<S, C>, op: Op<D>)
    requires Lawful(m) && Refines(m, l, s) && Distinct(s) && Answered(SystemNext(m, s, op).1)
    ensures SystemNext(m, s, op).1 == LedgerNext(l, op).1
    ensures Refines(m, LedgerNext(l, op).0, SystemNext(m, s, op).0)
  {
    match op
    case Issue(_, _, _) => IssueRefines(m, l, s, op);
    case Present(_, _) => PresentRefines(m, l, s, op);
    case Charge(_, _, _) => ChargeRefines(m, l, s, op);
    case Replay(_) => ReplayRefines(m, l, s, op);
    case Withdraw(_) => WithdrawRefines(m, l, s, op);
  }

  // --- Whole runs ------------------------------------------------------------------------------

  function LedgerRun<D>(ops: seq<Op<D>>): Ledger {
    if ops == [] then EMPTY_LEDGER else LedgerNext(LedgerRun(ops[..|ops| - 1]), ops[|ops| - 1]).0
  }

  /** What the ledger answers to the last of these operations. */
  function LedgerReply<D>(ops: seq<Op<D>>): Reply
    requires ops != []
  {
    LedgerNext(LedgerRun(ops[..|ops| - 1]), ops[|ops| - 1]).1
  }

  function SystemRun<S, C, D>(m: Scheme<S, C, D>, signer: S, ops: seq<Op<D>>): System<S, C> {
    if ops == [] then System(signer, [], [], {})
    else SystemNext(m, SystemRun(m, signer, ops[..|ops| - 1]), ops[|ops| - 1]).0
  }

  function SystemReply<S, C, D>(m: Scheme<S, C, D>, signer: S, ops: seq<Op<D>>): Reply
    requires ops != []
  {
    SystemNext(m, SystemRun(m, signer, ops[..|ops| - 1]), ops[|ops| - 1]).1
  }

  /** The operations that the signer answered. */
  function AnsweredOps<S, C, D>(m: Scheme<S, C, D>, signer: S, ops: seq<Op<D>>): seq<Op<D>> {
    if ops == [] then []
    else
      AnsweredOps(m, signer, ops[..|ops| - 1])
      + if Answered(SystemReply(m, signer, ops)) then [ops[|ops| - 1]] else []
  }

  lemma LedgerSnoc<D>(ops: seq<Op<D>>, op: Op<D>)
    ensures LedgerRun(ops + [op]) == LedgerNext(LedgerRun(ops), op).0
    ensures LedgerReply(ops + [op]) == LedgerNext(LedgerRun(ops), op).1
  {
    assert (ops + [op])[..|ops|] == ops;
  }

  lemma FailureChangesNothing<S, C, D>(m: Scheme<S, C, D>, s: System<S, C>, op: Op<D>)
    requires !Answered(SystemNext(m, s, op).1)
    ensures SystemNext(m, s, op).0 == s
  {
  }

  /** A lawful scheme whose tokens do not collide refines the ledger over every run: a step
      at which the signer fails is a stutter, and every other one is answered alike. */
  lemma {:induction false} RunRefines<S(!new), C(!new), D(!new)>(m: Scheme<S, C, D>, signer: S, ops: seq<Op<D>>)
    requires Lawful(m) && Distinct(SystemRun(m, signer, ops))
    ensures Refines(m, LedgerRun(AnsweredOps(m, signer, ops)), SystemRun(m, signer, ops))
    ensures ops != [] && Answered(SystemReply(m, signer, ops)) ==>
              SystemReply(m, signer, ops) == LedgerReply(AnsweredOps(m, signer, ops))
    ensures ops != [] && !Answered(SystemReply(m, signer, ops)) ==>
              SystemRun(m, signer, ops) == SystemRun(m, signer, ops[..|ops| - 1])
  {
    if ops != [] {
      var front, op := ops[..|ops| - 1], ops[|ops| - 1];
      StepExtends(m, SystemRun(m, signer, front), op);
      EarlierDistinct(SystemRun(m, signer, front), SystemRun(m, signer, ops));
      RunRefines(m, signer, front);
      var done := AnsweredOps(m, signer, front);
      if Answered(SystemReply(m, signer, ops)) {
        StepRefines(m, LedgerRun(done), SystemRun(m, signer, front), op);
        LedgerSnoc(done, op);
        assert AnsweredOps(m, signer, ops) == done + [op];
      } else {
        FailureChangesNothing(m, SystemRun(m, signer, front), op);
        assert AnsweredOps(m, signer, ops) == done + [] == done;
      }
    }
  }

  /** The operation without its random draws. */
  function Plain<D>(op: Op<D>): Op<()> {
    match op
    case Issue(secret, deposit, _) => Issue(secret, deposit, ())
    case Present(user, cap) => Present(user, cap)
    case Charge(user, amount, _) => Charge(user, amount, ())
    case Replay(index) => Replay(index)
    case Withdraw(user) => Withdraw(user)
  }

  ghost predicate SameOps<D, E>(ops: seq<Op<D>>, others: seq<Op<E>>) {
    |ops| == |others| && forall i :: 0 <= i < |ops| ==> Plain(ops[i]) == Plain(others[i])
  }

  lemma PlainNext<D>(l: Ledger, op: Op<D>)
    ensures LedgerNext(l, op) == LedgerNext(l, Plain(op))
  {
  }

  lemma {:induction false} DrawsDoNotMatter<D, E>(ops: seq<Op<D>>, others: seq<Op<E>>)
    requires SameOps(ops, others)
    ensures LedgerRun(ops) == LedgerRun(others)
    ensures ops != [] ==> LedgerReply(ops) == LedgerReply(others)
  {
    if ops != [] {
      DrawsDoNotMatter(ops[..|ops| - 1], others[..|others| - 1]);
      assert Plain(ops[|ops| - 1]) == Plain(others[|others| - 1]);
      PlainNext(LedgerRun(ops[..|ops| - 1]), ops[|ops| - 1]);
      PlainNext(LedgerRun(ops[..|ops| - 1]), others[|others| - 1]);
    }
  }

  // --- What the ledger guarantees ----------------------------------------------------------------

  /** The deposit of the user issued by these operations, and the sum of accepted charges. */
  function DepositOf<D>(ops: seq<Op<D>>, user: nat): nat {
    if ops == [] then 0
    else
      var front, op := ops[..|ops| - 1], ops[|ops| - 1];
      if op.Issue? && |LedgerRun(front).accounts| == user then op.deposit else DepositOf(front, user)
  }

  function ChargesOf<D>(ops: seq<Op<D>>, user: nat): nat {
    if ops == [] then 0
    else
      var op := ops[|ops| - 1];
      ChargesOf(ops[..|ops| - 1], user)
      + if op.Charge? && op.user == user && LedgerReply(ops).Charged? then op.amount else 0
  }

  lemma {:induction false} NoChargeBeforeIssue<D>(ops: seq<Op<D>>, user: nat)
    requires user >= |LedgerRun(ops).accounts|
    ensures ChargesOf(ops, user) == 0
  {
    if ops != [] {
      assert |LedgerRun(ops[..|ops| - 1]).accounts| <= |LedgerRun(ops).accounts|;
      NoChargeBeforeIssue(ops[..|ops| - 1], user);
    }
  }

  /** Conservation: a balance is the deposit minus the charges, an accepted presentation
      leaves its token spent, and a withdrawal pays exactly that balance. */
  lemma {:induction false} BalanceIsDepositMinusCharges<D>(ops: seq<Op<D>>, user: nat)
    requires user < |LedgerRun(ops).accounts|
    ensures LedgerRun(ops).accounts[user].balance + ChargesOf(ops, user) == DepositOf(ops, user)
    ensures LedgerRun(ops).accounts[user].open ==> Current(LedgerRun(ops), user) in LedgerRun(ops).spent
    ensures ops != [] && ops[|ops| - 1] == Withdraw(user) && LedgerReply(ops).Paid?
            ==> LedgerReply(ops).balance + ChargesOf(ops, user) == DepositOf(ops, user)
  {
    var front, op := ops[..|ops| - 1], ops[|ops| - 1];
    if user < |LedgerRun(front).accounts| {
      BalanceIsDepositMinusCharges(front, user);
    } else {
      NoChargeBeforeIssue(front, user);
    }
  }

  /** A user's credential is used up: its token is spent and no charge is pending. */
  ghost predicate UsedUp(l: Ledger, user: nat) {
    user < |l.accounts| && !l.accounts[user].open && Current(l, user) in l.spent
  }

  lemma UsedUpStays<D>(l: Ledger, op: Op<D>, user: nat)
    requires UsedUp(l, user)
    ensures UsedUp(LedgerNext(l, op).0, user) && LedgerNext(l, op).0.accounts[user].balance == l.accounts[user].balance
    ensures op == Withdraw(user) || (op.Present? && op.user == user) || (op.Charge? && op.user == user) ==>
              !LedgerNext(l, op).1.Accepted? && !LedgerNext(l, op).1.Charged? && !LedgerNext(l, op).1.Paid?
  {
  }

  /** A withdrawal is final: in every continuation the user is neither paid again nor
      served, and the balance that was paid never changes. */
  lemma {:induction false} PaidIsFinal<D>(ops: seq<Op<D>>, more: seq<Op<D>>, user: nat)
    requires ops != [] && ops[|ops| - 1] == Withdraw(user) && LedgerReply(ops).Paid?
    requires user < |LedgerRun(ops[..|ops| - 1]).accounts|
    ensures UsedUp(LedgerRun(ops + more), user)
    ensures LedgerRun(ops + more).accounts[user].balance == LedgerReply(ops).balance
  {
    var front := ops[..|ops| - 1];
    BalanceIsDepositMinusCharges(front, user);
    if more == [] {
      assert ops + more == ops;
    } else {
      assert (ops + more)[..|ops + more| - 1] == ops + more[..|more| - 1];
      PaidIsFinal(ops, more[..|more| - 1], user);
      UsedUpStays(LedgerRun(ops + more[..|more| - 1]), more[|more| - 1], user);
    }
  }
}
