/** The write-ahead logs of a prepared withdrawal and of a pending deposit:
    wallet claims, journaled nonces and transaction hashes. An operation that
    the source refuses, or that writes nothing, yields None. */
module PlanLog {
  import opened WalletTypes
  import opened AttemptLog

  /** The distinct (from, nonce) pairs of the saved attempts whose hash is still in the log. */
  function Identities(w: Wal): set<Sender> {
    set i | 0 <= i < |w.attempts| && w.attempts[i].hash in w.hashes && w.attempts[i].sender.Some?
      :: w.attempts[i].sender.value
  }

  function WithClaim(w: Wal, sub: SubId): Wal {
    w.(phase := AwaitingWallet, sub := Some(sub))
  }

  function WithoutClaim(w: Wal): Wal {
    w.(sub := None, sender := None)
  }

  function WithHash(w: Wal, hash: Hash, sub: SubId, op: OpId, meta: Option<Sender>): Wal {
    var logged := w.(
      phase := Submitted,
      hashes := Distinct(w.hashes + [hash]),
      attempts := WithoutAttempt(w.attempts, hash) + [Attempt(hash, sub, op, First(meta, w.sender))]);
    if w.sub == Some(sub) then WithoutClaim(logged) else logged
  }

  /** The phase once hashes have been released: a surviving claim keeps its own phase. */
  function SettledPhase(hashes: seq<Hash>, claimed: bool, unknown: bool): WalPhase {
    if hashes != [] then Submitted
    else if claimed then (if unknown then Ambiguous else AwaitingWallet)
    else Prepared
  }

  function WithoutHash(w: Wal, hash: Hash, unknown: bool): Wal {
    var remaining := Without(w.hashes, hash);
    w.(phase := SettledPhase(remaining, w.sub.Some?, unknown),
       hashes := remaining,
       attempts := WithoutAttempt(w.attempts, hash))
  }

  datatype PlanOp =
    | ClaimPlan(sub: SubId, freshOp: OpId)
    | ClaimReplacement(sub: SubId, sender: Sender)
    | Journal(ref: Ref, sender: Sender)
    | Remember(hash: Hash, ref: Ref, meta: Option<Sender>)
    | ReleaseHash(hash: Hash, owner: Option<OpId>)
    | ReleaseClaim(op: OpId, sub: SubId)
    | MissingReceipts(expected: multiset<Hash>)
    | MarkAmbiguous(op: OpId, sub: SubId)
    | MarkUnknown
    | ReleaseReplacement(ref: Ref)
    | AuthorizeRetry

  /** The identity a wallet prompt must still carry when it reports back. */
  predicate SameOperation(p: Plan, ref: Ref) {
    p.op == Some(ref.op) && p.note == ref.note && p.mode == ref.mode && p.destination == ref.destination
  }

  function ClaimRef(p: Plan, sub: SubId, op: OpId, replacement: Option<Sender>): Ref {
    Ref(sub, op, p.note, p.mode, p.destination, p.clearance || p.mode.Mutual?, p.nullifier, replacement)
  }

  function PlanNext(p: Plan, o: PlanOp): Option<Plan> {
    match o
    case ClaimPlan(sub, freshOp) =>
      if p.wal.hashes != [] || p.wal.sub.Some? then None
      else Some(p.(op := First(p.op, Some(freshOp)), outcome := AwaitingWalletOutcome,
                   wal := WithClaim(p.wal, sub)))
    case ClaimReplacement(sub, sender) =>
      if !p.wal.phase.Dropped? || p.wal.sub.Some? || p.op.None? || Identities(p.wal) != {sender} then None
      else Some(p.(outcome := ReplacementAwaiting, residue := p.residue || p.wal.hashes != [],
                   wal := WithClaim(p.wal, sub).(sender := Some(sender))))
    case Journal(ref, sender) =>
      if !SameOperation(p, ref) || p.wal.sub != Some(ref.sub) then None
      else Some(p.(wal := p.wal.(sender := Some(sender))))
    case Remember(hash, ref, meta) =>
      if !SameOperation(p, ref) then None
      else Some(p.(outcome := SubmittedOutcome, wal := WithHash(p.wal, hash, ref.sub, ref.op, meta)))
    case ReleaseHash(hash, owner) =>
      if hash !in p.wal.hashes || (owner.Some? && owner != p.op) then None
      else
        var wal := WithoutHash(p.wal, hash, p.outcome.AmbiguousOutcome? || p.wal.phase.Ambiguous?);
        Some(p.(outcome := if wal.hashes != [] then SubmittedOutcome
                           else if wal.sub.Some? then p.outcome else RevertedOutcome,
                wal := wal))
    case ReleaseClaim(op, sub) =>
      if p.op != Some(op) || p.wal.sub != Some(sub) then None
      else Some(p.(outcome := if p.wal.hashes != [] then SubmittedOutcome else ExplicitlyRejected,
                   wal := WithoutClaim(p.wal).(phase := SettledPhase(p.wal.hashes, false, false))))
    case MissingReceipts(expected) =>
      if multiset(p.wal.hashes) != expected || p.wal.sub.Some? then None
      else Some(p.(outcome := ReceiptMissing, wal := p.wal.(phase := Dropped)))
    case MarkAmbiguous(op, sub) =>
      if p.op != Some(op) || p.wal.sub != Some(sub) then None
      else Some(p.(outcome := AmbiguousOutcome, wal := p.wal.(phase := Ambiguous)))
    case MarkUnknown =>
      if p.wal.sub.None? || p.wal.phase.Ambiguous? then None
      else Some(p.(outcome := AmbiguousOutcome, wal := p.wal.(phase := Ambiguous)))
    case ReleaseReplacement(ref) =>
      if p.op != Some(ref.op) || p.wal.sub != Some(ref.sub) || ref.replacement.None? then None
      else Some(p.(outcome := ReplacementUnknown, residue := true,
                   wal := WithoutClaim(p.wal).(phase := Dropped)))
    case AuthorizeRetry =>
      if !p.wal.phase.Ambiguous? || p.wal.sub.None? || p.wal.hashes != [] then None
      else Some(p.(outcome := RetryAuthorized, residue := true,
                   wal := WithoutClaim(p.wal).(phase := Prepared)))
  }

  datatype DepositOp =
    | ClaimDeposit(sub: SubId)
    | ClaimDepositReplacement(sub: SubId, sender: Sender)
    | JournalDeposit(ref: DepositRef, sender: Sender)
    | RememberDeposit(hash: Hash, ref: DepositRef, meta: Option<Sender>)
    | ReleaseDepositHash(hash: Hash)
    | ReleaseDepositClaim(ref: DepositRef)
    | MissingDepositReceipts(expected: multiset<Hash>)
    | ReleaseDepositReplacement(op: OpId, sub: SubId)
    | DepositAmbiguous(ref: DepositRef)
    | DepositUnknown
    | AuthorizeDepositRetry
    | RefreshDeposit(amount: nat, note: NoteId)
    | ResolveSlotConflict(seen: Deposit)

  predicate SameDeposit(d: Deposit, ref: DepositRef) {
    d.op == ref.op && d.note == ref.note && d.amount == ref.amount && d.secret == ref.secret
  }

  /** The log shows no open claim and no hash, and the deposit is ready to be asked for. */
  predicate Untouched(d: Deposit) {
    d.wal.phase.Prepared? && d.wal.sub.None? && d.wal.hashes == []
  }

  function DepositNext(d: Deposit, o: DepositOp): Option<Deposit> {
    match o
    case ClaimDeposit(sub) =>
      if d.wal.hashes != [] || d.wal.sub.Some? || !(d.wal.phase.Prepared? || d.wal.phase.RetryExact?) then None
      else Some(d.(wal := WithClaim(d.wal, sub)))
    case ClaimDepositReplacement(sub, sender) =>
      if !d.wal.phase.Dropped? || d.wal.sub.Some? || Identities(d.wal) != {sender} then None
      else Some(d.(wal := WithClaim(d.wal, sub).(sender := Some(sender))))
    case JournalDeposit(ref, sender) =>
      if !SameDeposit(d, ref) || d.wal.sub != Some(ref.sub) then None
      else Some(d.(wal := d.wal.(sender := Some(sender))))
    case RememberDeposit(hash, ref, meta) =>
      if !SameDeposit(d, ref) then None
      else Some(d.(wal := WithHash(d.wal, hash, ref.sub, ref.op, meta)))
    case ReleaseDepositHash(hash) =>
      if hash !in d.wal.hashes then None
      else Some(d.(wal := WithoutHash(d.wal, hash, d.wal.phase.Ambiguous?)))
    case ReleaseDepositClaim(ref) =>
      if !SameDeposit(d, ref) then None
      else if d.wal.sub == Some(ref.sub) then
        Some(d.(wal := WithoutClaim(d.wal).(phase := SettledPhase(d.wal.hashes, false, false))))
      else
        Some(d.(wal := d.wal.(phase := SettledPhase(d.wal.hashes, d.wal.sub.Some?, d.wal.phase.Ambiguous?))))
    case MissingDepositReceipts(expected) =>
      if multiset(d.wal.hashes) != expected || d.wal.sub.Some? || d.wal.phase.Dropped? then None
      else Some(d.(wal := d.wal.(phase := Dropped)))
    case ReleaseDepositReplacement(op, sub) =>
      if d.op != op || d.wal.sub != Some(sub) then None
      else Some(d.(wal := WithoutClaim(d.wal).(phase := Dropped)))
    case DepositAmbiguous(ref) =>
      if !SameDeposit(d, ref) || d.wal.sub != Some(ref.sub) then None
      else Some(d.(wal := d.wal.(phase := Ambiguous)))
    case DepositUnknown =>
      if d.wal.sub.None? || d.wal.phase.Ambiguous? then None
      else Some(d.(wal := d.wal.(phase := Ambiguous)))
    case AuthorizeDepositRetry =>
      if !d.wal.phase.Ambiguous? || d.wal.sub.None? || d.wal.hashes != [] then None
      else Some(d.(wal := WithoutClaim(d.wal).(phase := RetryExact)))
    case RefreshDeposit(amount, note) =>
      if d.amount != amount || !Untouched(d) then None
      else Some(d.(note := note))
    case ResolveSlotConflict(seen) =>
      if d.op != seen.op || d.note != seen.note || d.amount != seen.amount || d.secret != seen.secret
         || d.wal.phase != seen.wal.phase || d.wal.sub != seen.wal.sub
         || (set h | h in d.wal.hashes) != (set h | h in seen.wal.hashes) then None
      else Some(d.(wal := d.wal.(phase := Prepared, sub := None, hashes := [], attempts := [])))
  }

  /** A saved attempt whose hash is still in the log names this identity. */
  ghost predicate Saves(w: Wal, s: Sender) {
    exists a :: a in w.attempts && a.hash in w.hashes && a.sender == Some(s)
  }

  lemma OnlyIdentityIff(w: Wal, t: Sender)
    ensures Identities(w) == {t} <==> Saves(w, t) && forall x :: Saves(w, x) ==> x == t
  {
    forall x ensures x in Identities(w) <==> Saves(w, x) {
      if a :| a in w.attempts && a.hash in w.hashes && a.sender == Some(x) {
        var i :| 0 <= i < |w.attempts| && w.attempts[i] == a;
      }
    }
  }

  /** A replacement is issued if and only if the dropped plan has no open claim and t is the one
      identity of its saved attempts. */
  lemma ReplacementIssuedIff(p: Plan, sub: SubId, t: Sender)
    ensures PlanNext(p, ClaimReplacement(sub, t)).Some? <==>
            && p.wal.phase.Dropped? && p.wal.sub.None? && p.op.Some?
            && Saves(p.wal, t) && forall x :: Saves(p.wal, x) ==> x == t
  {
    OnlyIdentityIff(p.wal, t);
  }

  /** The same for a dropped deposit. */
  lemma DepositReplacementIssuedIff(d: Deposit, sub: SubId, t: Sender)
    ensures DepositNext(d, ClaimDepositReplacement(sub, t)).Some? <==>
            && d.wal.phase.Dropped? && d.wal.sub.None?
            && Saves(d.wal, t) && forall x :: Saves(d.wal, x) ==> x == t
  {
    OnlyIdentityIff(d.wal, t);
  }

  /** A claim that is not the open one of the plan's operation can neither journal, release, mark
      nor retire anything. */
  lemma ForeignClaimIsPowerless(p: Plan, ref: Ref, sender: Sender)
    requires p.op != Some(ref.op) || p.wal.sub != Some(ref.sub)
    ensures PlanNext(p, Journal(ref, sender)).None? && PlanNext(p, ReleaseClaim(ref.op, ref.sub)).None?
    ensures PlanNext(p, MarkAmbiguous(ref.op, ref.sub)).None? && PlanNext(p, ReleaseReplacement(ref)).None?
  {
  }

  /** Nor can a prompt for another operation, note, mode or destination journal or report. */
  lemma ForeignPlanIsUntouched(p: Plan, ref: Ref, hash: Hash, meta: Option<Sender>, sender: Sender)
    requires p.op != Some(ref.op) || p.note != ref.note || p.mode != ref.mode || p.destination != ref.destination
    ensures PlanNext(p, Journal(ref, sender)).None? && PlanNext(p, Remember(hash, ref, meta)).None?
  {
  }

  /** Receipts are acted on only for exactly the hashes that were looked up, and never while a
      prompt is open; a released hash is one of the log and of the expected operation. */
  lemma ReceiptsMatchLog(p: Plan, seen: multiset<Hash>, hash: Hash, owner: Option<OpId>)
    ensures PlanNext(p, MissingReceipts(seen)).Some? ==> seen == multiset(p.wal.hashes) && p.wal.sub.None?
    ensures PlanNext(p, ReleaseHash(hash, owner)).Some? ==> hash in p.wal.hashes && (owner.Some? ==> owner == p.op)
  {
  }

  /** A prompt is given up for a fresh one only when its result is unknown and it left no hash. */
  lemma RetryLeftNoHash(p: Plan, d: Deposit)
    ensures PlanNext(p, AuthorizeRetry).Some? ==> p.wal.phase.Ambiguous? && p.wal.sub.Some? && p.wal.hashes == []
    ensures DepositNext(d, AuthorizeDepositRetry).Some? ==>
              d.wal.phase.Ambiguous? && d.wal.sub.Some? && d.wal.hashes == []
  {
  }

  /** A first prompt is opened only on a log without hash and claim. */
  lemma FirstPromptIsFirst(p: Plan, d: Deposit, sub: SubId, op: OpId)
    ensures PlanNext(p, ClaimPlan(sub, op)).Some? <==> p.wal.hashes == [] && p.wal.sub.None?
    ensures PlanNext(p, ClaimPlan(sub, op)).Some? && p.op.Some? ==> PlanNext(p, ClaimPlan(sub, op)).value.op == p.op
    ensures DepositNext(d, ClaimDeposit(sub)).Some? <==>
              d.wal.hashes == [] && d.wal.sub.None? && (d.wal.phase.Prepared? || d.wal.phase.RetryExact?)
  {
  }

  /** Prompt and pending deposit agree in operation, note, amount and secret. */
  ghost predicate IsFor(ref: DepositRef, d: Deposit) {
    d.op == ref.op && d.note == ref.note && d.amount == ref.amount && d.secret == ref.secret
  }

  /** A deposit prompt for another deposit touches nothing, and one whose claim is not open
      neither journals nor marks; receipts are acted on for exactly the hashes looked up. */
  lemma ForeignDepositIsUntouched(d: Deposit, ref: DepositRef, hash: Hash, meta: Option<Sender>, sender: Sender,
                                  seen: multiset<Hash>)
    ensures !IsFor(ref, d) ==>
              DepositNext(d, RememberDeposit(hash, ref, meta)).None? && DepositNext(d, ReleaseDepositClaim(ref)).None?
    ensures !IsFor(ref, d) || d.wal.sub != Some(ref.sub) ==>
              DepositNext(d, JournalDeposit(ref, sender)).None? && DepositNext(d, DepositAmbiguous(ref)).None?
    ensures d.op != ref.op || d.wal.sub != Some(ref.sub) ==>
              DepositNext(d, ReleaseDepositReplacement(ref.op, ref.sub)).None?
    ensures DepositNext(d, MissingDepositReceipts(seen)).Some? ==> seen == multiset(d.wal.hashes) && d.wal.sub.None?
    ensures DepositNext(d, ReleaseDepositHash(hash)).Some? ==> hash in d.wal.hashes
  {
  }

  /** A pending deposit gets another leaf only while nothing was asked, for the same amount; and it
      starts over after a conflict only if it is exactly the deposit that was looked at. */
  lemma RefreshedWasUntouched(d: Deposit, amount: nat, note: NoteId, seen: Deposit)
    ensures DepositNext(d, RefreshDeposit(amount, note)).Some? <==>
              d.amount == amount && d.wal.phase.Prepared? && d.wal.sub.None? && d.wal.hashes == []
    ensures DepositNext(d, RefreshDeposit(amount, note)).Some? ==>
              DepositNext(d, RefreshDeposit(amount, note)).value == d.(note := note)
    ensures DepositNext(d, ResolveSlotConflict(seen)).Some? <==>
              && d.op == seen.op && d.note == seen.note && d.amount == seen.amount && d.secret == seen.secret
              && d.wal.phase == seen.wal.phase && d.wal.sub == seen.wal.sub
              && forall h :: h in d.wal.hashes <==> h in seen.wal.hashes
  {
    var mine, theirs := set h | h in d.wal.hashes, set h | h in seen.wal.hashes;
    assert (forall h :: h in mine <==> h in d.wal.hashes) && forall h :: h in theirs <==> h in seen.wal.hashes;
    assert mine == theirs <==> forall h :: h in mine <==> h in theirs;
  }
}
