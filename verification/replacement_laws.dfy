/** Replacing a dropped withdrawal reuses its nonce, over every interleaving of locked
    sections with the unlocked release of a prompt. */
module ReplacementLaws {
  import opened WalletTypes
  import opened PlanLog
  import opened NoteMoves

  /** The plan in the store, the copy that a locked section works on, and for every prompt
      that was opened the identity it was handed or has journaled. */
  datatype Desk = Desk(stored: Plan, held: Plan, prompts: map<SubId, Sender>)

  datatype Round =
    | Begin
    | Locked(o: PlanOp)
    | Unlocked(ref: Ref, unknown: bool)

  function DeskNext(d: Desk, r: Round): Desk {
    match r
    case Begin => d.(held := d.stored)
    case Locked(o) =>
      if PlanNext(d.held, o).None? then d
      else
        var next := PlanNext(d.held, o).value;
        Desk(next, next, if o.ClaimReplacement? then d.prompts[o.sub := o.sender] else d.prompts)
    case Unlocked(ref, unknown) =>
      if PromptMatches(d.stored, ref, unknown) then d.(stored := ReleasedPlan(d.stored, unknown)) else d
  }

  function DeskRun(d: Desk, rounds: seq<Round>): Desk {
    if rounds == [] then d else DeskNext(DeskRun(d, rounds[..|rounds| - 1]), rounds[|rounds| - 1])
  }

  /** What the drivers do: a prompt journals what it was handed, journals before it sends,
      and reports the identity that it journaled. */
  predicate Follows(d: Desk, r: Round) {
    r.Locked? ==>
      match r.o
      case Journal(ref, sender) => ref.sub in d.prompts ==> sender == d.prompts[ref.sub]
      case Remember(_, ref, meta) => ref.sub in d.prompts && (meta.None? || meta.value == d.prompts[ref.sub])
      case ClaimReplacement(sub, _) => sub !in d.prompts
      case _ => true
  }

  predicate FollowsAll(d: Desk, rounds: seq<Round>) {
    rounds == []
    || (FollowsAll(d, rounds[..|rounds| - 1]) && Follows(DeskRun(d, rounds[..|rounds| - 1]), rounds[|rounds| - 1]))
  }

  /** The round opens a first prompt, which is possible only when no hash is left. */
  predicate StartsOver(d: Desk, r: Round) {
    r.Locked? && r.o.ClaimPlan? && PlanNext(d.held, r.o).Some?
  }

  predicate NeverStartsOver(d: Desk, rounds: seq<Round>) {
    rounds == []
    || (NeverStartsOver(d, rounds[..|rounds| - 1])
        && !StartsOver(DeskRun(d, rounds[..|rounds| - 1]), rounds[|rounds| - 1]))
  }

  /** The round neither retires a hash nor rewrites an attempt without its identity. */
  predicate KeepsAttempts(r: Round) {
    r.Locked? ==> !r.o.ReleaseHash? && (r.o.Remember? ==> r.o.meta.Some?)
  }

  /** Every attempt that can still execute, and the open claim if there is one, uses s. */
  ghost predicate OneNonce(p: Plan, s: Sender, prompts: map<SubId, Sender>) {
    && Identities(p.wal) <= {s}
    && (p.wal.sender.Some? ==> p.wal.sender == Some(s))
    && (p.wal.sub.Some? ==> p.wal.sub.value in prompts && p.wal.sender == Some(s))
  }

  ghost predicate AllUse(d: Desk, s: Sender) {
    && OneNonce(d.stored, s, d.prompts) && OneNonce(d.held, s, d.prompts)
    && forall sub :: sub in d.prompts ==> d.prompts[sub] == s
  }

  ghost predicate BothSave(d: Desk, s: Sender) {
    Identities(d.stored.wal) == {s} && Identities(d.held.wal) == {s}
  }

  lemma SavedIdentity(w: Wal, a: Attempt, s: Sender)
    requires a in w.attempts && a.hash in w.hashes && a.sender == Some(s)
    ensures s in Identities(w)
  {
    var i :| 0 <= i < |w.attempts| && w.attempts[i] == a;
  }

  /** No attempt with another identity was added. */
  lemma IdentitiesStay(w: Wal, next: Wal, s: Sender)
    requires Identities(w) <= {s}
    requires forall h :: h in next.hashes ==>
               h in w.hashes || forall a :: a in next.attempts && a.hash == h ==> a.sender in {None, Some(s)}
    requires forall a :: a in next.attempts ==> a in w.attempts || a.sender in {None, Some(s)}
    ensures Identities(next) <= {s}
  {
    forall x | x in Identities(next) ensures x == s {
      var i :| 0 <= i < |next.attempts| && next.attempts[i].hash in next.hashes
               && next.attempts[i].sender == Some(x);
      var a := next.attempts[i];
      if a in w.attempts && a.hash in w.hashes { SavedIdentity(w, a, x); }
    }
  }

  lemma LockedKeepsOneNonce(d: Desk, o: PlanOp, s: Sender)
    requires AllUse(d, s) && Follows(d, Locked(o)) && !StartsOver(d, Locked(o)) && PlanNext(d.held, o).Some?
    ensures OneNonce(PlanNext(d.held, o).value, s, DeskNext(d, Locked(o)).prompts)
    ensures o.ClaimReplacement? ==> o.sender == s
  {
    IdentitiesStay(d.held.wal, PlanNext(d.held, o).value.wal, s);
    if o.ClaimReplacement? { assert o.sender in Identities(d.held.wal); }
  }

  lemma RoundKeepsOneNonce(d: Desk, r: Round, s: Sender)
    requires AllUse(d, s) && Follows(d, r) && !StartsOver(d, r)
    ensures AllUse(DeskNext(d, r), s)
  {
    if r.Locked? && PlanNext(d.held, r.o).Some? {
      LockedKeepsOneNonce(d, r.o, s);
    } else if r.Unlocked? && PromptMatches(d.stored, r.ref, r.unknown) {
      IdentitiesStay(d.stored.wal, ReleasedPlan(d.stored, r.unknown).wal, s);
    }
  }

  /** While every hash stays, no first prompt can start over. */
  lemma SavedHashBars(d: Desk, r: Round, s: Sender)
    requires BothSave(d, s)
    ensures !StartsOver(d, r)
  {
    assert s in Identities(d.held.wal);
  }

  lemma RoundKeepsIdentity(d: Desk, r: Round, s: Sender)
    requires AllUse(d, s) && BothSave(d, s) && Follows(d, r) && KeepsAttempts(r)
    ensures BothSave(DeskNext(d, r), s)
  {
    SavedHashBars(d, r, s);
    RoundKeepsOneNonce(d, r, s);
    var p, q := if r.Locked? then d.held else d.stored, DeskNext(d, r).stored;
    assert s in Identities(p.wal);
    var i :| 0 <= i < |p.wal.attempts| && p.wal.attempts[i].hash in p.wal.hashes
             && p.wal.attempts[i].sender == Some(s);
    var a := p.wal.attempts[i];
    if r.Locked? && r.o.Remember? && PlanNext(p, r.o).Some? {
      RememberKeepsIdentity(p.wal, r.o.hash, r.o.ref.sub, r.o.ref.op, r.o.meta, a, s);
    } else if DeskNext(d, r) != d && !r.Begin? {
      SavedIdentity(q.wal, a, s);
    }
  }

  lemma RememberKeepsIdentity(w: Wal, hash: Hash, sub: SubId, op: OpId, meta: Option<Sender>, a: Attempt, s: Sender)
    requires a in w.attempts && a.hash in w.hashes && a.sender == Some(s) && meta == Some(s)
    ensures s in Identities(WithHash(w, hash, sub, op, meta))
  {
    var b := if a.hash == hash then Attempt(hash, sub, op, Some(s)) else a;
    assert b.hash in w.hashes + [hash];
    SavedIdentity(WithHash(w, hash, sub, op, meta), b, s);
  }

  /** Over any rounds, with copies that may be stale, the saved attempts never have a second
      identity, and every replacement that is issued uses it. */
  lemma {:induction false} ReplacementKeepsOneNonce(d: Desk, rounds: seq<Round>, s: Sender)
    requires AllUse(d, s) && FollowsAll(d, rounds) && NeverStartsOver(d, rounds)
    ensures AllUse(DeskRun(d, rounds), s)
    ensures forall sub, t :: PlanNext(DeskRun(d, rounds).held, ClaimReplacement(sub, t)).Some? ==> t == s
  {
    if rounds != [] {
      ReplacementKeepsOneNonce(d, rounds[..|rounds| - 1], s);
      RoundKeepsOneNonce(DeskRun(d, rounds[..|rounds| - 1]), rounds[|rounds| - 1], s);
    }
    forall sub, t | PlanNext(DeskRun(d, rounds).held, ClaimReplacement(sub, t)).Some? ensures t == s {
      assert t in Identities(DeskRun(d, rounds).held.wal);
    }
  }

  /** As long as no hash is retired, the identity stays, and no first prompt can start over. */
  lemma {:induction false} IdentityStays(d: Desk, rounds: seq<Round>, s: Sender)
    requires AllUse(d, s) && BothSave(d, s) && FollowsAll(d, rounds)
    requires forall r :: r in rounds ==> KeepsAttempts(r)
    ensures NeverStartsOver(d, rounds) && BothSave(DeskRun(d, rounds), s) && AllUse(DeskRun(d, rounds), s)
  {
    if rounds != [] {
      var front, r := rounds[..|rounds| - 1], rounds[|rounds| - 1];
      assert r in rounds;
      IdentityStays(d, front, s);
      SavedHashBars(DeskRun(d, front), r, s);
      RoundKeepsIdentity(DeskRun(d, front), r, s);
      RoundKeepsOneNonce(DeskRun(d, front), r, s);
    }
  }
}

/** Replacing a dropped deposit reuses its nonce. Every deposit write is made under the wallet
    lock, so no copy is stale. */
module DepositNonce {
  import opened WalletTypes
  import opened PlanLog
  import opened ReplacementLaws

  /** The pending deposit, and for every prompt the identity it was handed or has journaled. */
  datatype Pending = Pending(deposit: Deposit, prompts: map<SubId, Sender>)

  function PendingNext(d: Pending, o: DepositOp): Pending {
    var next := DepositNext(d.deposit, o);
    if next.None? then d
    else Pending(next.value, if o.ClaimDepositReplacement? then d.prompts[o.sub := o.sender] else d.prompts)
  }

  function PendingRun(d: Pending, ops: seq<DepositOp>): Pending {
    if ops == [] then d else PendingNext(PendingRun(d, ops[..|ops| - 1]), ops[|ops| - 1])
  }

  /** A prompt journals what it was handed, journals before it sends, and reports the identity
      that it journaled; claim ids are new. */
  predicate Honours(d: Pending, o: DepositOp) {
    match o
    case JournalDeposit(ref, sender) => ref.sub in d.prompts ==> sender == d.prompts[ref.sub]
    case RememberDeposit(_, ref, meta) => ref.sub in d.prompts && (meta.None? || meta.value == d.prompts[ref.sub])
    case ClaimDepositReplacement(sub, _) => sub !in d.prompts
    case _ => true
  }

  predicate HonoursAll(d: Pending, ops: seq<DepositOp>) {
    ops == []
    || (HonoursAll(d, ops[..|ops| - 1]) && Honours(PendingRun(d, ops[..|ops| - 1]), ops[|ops| - 1]))
  }

  predicate OpensFirst(d: Pending, o: DepositOp) {
    o.ClaimDeposit? && DepositNext(d.deposit, o).Some?
  }

  /** No first prompt is opened, which is possible only when no hash is left. */
  predicate NoFirstPrompt(d: Pending, ops: seq<DepositOp>) {
    ops == []
    || (NoFirstPrompt(d, ops[..|ops| - 1]) && !OpensFirst(PendingRun(d, ops[..|ops| - 1]), ops[|ops| - 1]))
  }

  ghost predicate DepositUses(d: Pending, s: Sender) {
    && Identities(d.deposit.wal) <= {s}
    && (d.deposit.wal.sender.Some? ==> d.deposit.wal.sender == Some(s))
    && (d.deposit.wal.sub.Some? ==> d.deposit.wal.sub.value in d.prompts && d.deposit.wal.sender == Some(s))
    && forall sub :: sub in d.prompts ==> d.prompts[sub] == s
  }

  lemma DepositKeepsOneNonce(d: Pending, o: DepositOp, s: Sender)
    requires DepositUses(d, s) && Honours(d, o) && !OpensFirst(d, o)
    ensures DepositUses(PendingNext(d, o), s)
  {
    if DepositNext(d.deposit, o).Some? {
      if o.ClaimDepositReplacement? { assert o.sender in Identities(d.deposit.wal); }
      IdentitiesStay(d.deposit.wal, DepositNext(d.deposit, o).value.wal, s);
    }
  }

  /** Over any run of deposit writes in which no first prompt is opened, the saved attempts never
      have a second identity, and every replacement that is issued uses it. */
  lemma {:induction false} DepositRunKeepsOneNonce(d: Pending, ops: seq<DepositOp>, s: Sender)
    requires DepositUses(d, s) && HonoursAll(d, ops) && NoFirstPrompt(d, ops)
    ensures DepositUses(PendingRun(d, ops), s)
    ensures forall sub, t :: DepositNext(PendingRun(d, ops).deposit, ClaimDepositReplacement(sub, t)).Some? ==> t == s
  {
    if ops != [] {
      DepositRunKeepsOneNonce(d, ops[..|ops| - 1], s);
      DepositKeepsOneNonce(PendingRun(d, ops[..|ops| - 1]), ops[|ops| - 1], s);
    }
    var now := PendingRun(d, ops);
    forall sub, t | DepositNext(now.deposit, ClaimDepositReplacement(sub, t)).Some? ensures t == s {
      assert t in Identities(now.deposit.wal);
    }
  }
}
