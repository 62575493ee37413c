/** When a background record may open a first start prompt, be prepared anew or be cancelled:
    only when nothing that a reconciliation pass would have to check is left. */
module StartLaws {
  import opened WalletTypes
  import opened AttemptLog
  import opened WithdrawalRecord
  import opened StartRecovery

  /** The record knows no start transaction and answers for no claim. */
  ghost predicate NothingStarted(rec: Record) {
    (forall h :: !Mentions(rec, h)) && forall c :: !Answers(rec, [], c)
  }

  ghost predicate NothingOpen(rec: Record) {
    NothingStarted(rec) && !rec.start.pending && rec.fin.hashes == [] && rec.fin.attempts == [] && rec.fin.sub.None?
  }

  /** The balance rests in this record alone, marked for a mutual close, and no transition of its
      note was ever seen. */
  ghost predicate AtRest(rec: Record, r: Runtime) {
    && rec.state.Some? && rec.state.value.id == rec.note && rec.mode.Mutual? && rec.clearance && !rec.moved
    && (rec.phase.ParkedPhase? || rec.phase.RestoredPhase?)
    && !rec.chain.ChainPending? && !rec.chain.ChainClosed?
    && (r.state.Some? ==> r.state.value.id != rec.note)
    && forall e :: e in r.late && e.note == rec.note ==> IsTerminal(e.status)
  }

  /** The wallet may have been asked. */
  predicate LeavesOpen(o: Outcome) {
    match o
    case NoOutcome | RejectedBeforeBroadcast | ExplicitlyRejected | RevertedOutcome | RetryAuthorized
      | ChallengedOutcome | ResolvedOutcome | PromptClosed => false
    case _ => true
  }

  /** The mutual plan of this note is idle, and neither record nor plan bears a trace of a request
      to the wallet. */
  ghost predicate NeverAsked(rec: Record) {
    && rec.plan.Some? && rec.plan.value.mode.Mutual? && rec.plan.value.note == rec.note
    && (rec.plan.value.wal.phase.Prepared? || rec.plan.value.wal.phase.Reserving?)
    && rec.start.sender.None? && rec.plan.value.wal.sender.None?
    && !LeavesOpen(rec.start.outcome) && !LeavesOpen(rec.plan.value.outcome)
    && !rec.plan.value.residue && !rec.fin.retried
  }

  lemma NoTransactions(rec: Record)
    requires !HasTransactions(rec)
    ensures NothingOpen(rec)
  {
  }

  /** A first prompt is opened only for the proved plan of its operation, on a balance at rest. */
  lemma FirstPromptIsAlone(rec: Record, r: Runtime, id: Identity, op: OpId, sub: SubId, next: Record)
    requires RecNext(rec, r, ClaimStart(id, op, sub)) == Some(next)
    ensures NothingOpen(rec) && AtRest(rec, r) && NeverAsked(rec)
    ensures rec.destination.Some? && rec.destination == id.destination && rec.mode == id.mode
    ensures rec.plan.Some? && rec.plan.value.op == Some(op) && rec.plan.value.proved && rec.plan.value.note == rec.note
    ensures next.start.sub == Some(sub) && next.start.op == Some(op) && next.start.pending && next.start.sender.None?
    ensures forall c :: Answers(next, [], c) ==> c.sub == Some(sub) && c.op == Some(op) && c.from.None? && c.nonce.None?
  {
    NoTransactions(rec);
  }

  /** A plan is saved only on a balance at rest that is still the one it was made from; the
      record then withdraws on its own, under the plan's nullifier. */
  lemma SavedPlanIsAlone(rec: Record, r: Runtime, id: Identity, seenState: Option<Note>, seenPlan: Option<Plan>,
                         newOp: OpId, nullifier: Felt, next: Record)
    requires RecNext(rec, r, SavePlan(id, seenState, seenPlan, newOp, nullifier)) == Some(next)
    ensures NothingOpen(rec) && AtRest(rec, r) && NeverAsked(rec) && rec.state == seenState && rec.plan == seenPlan
    ensures NothingOpen(next) && AtRest(next, r) && next.independent
    ensures next.plan.Some? && next.plan.value.op == Some(newOp) && next.plan.value.proved && next.plan.value.clearance
            && next.plan.value.note == rec.note && next.plan.value.destination == rec.destination
            && next.plan.value.mode.Mutual?
    ensures next.nullifier == next.plan.value.nullifier == Some(nullifier)
  {
    NoTransactions(rec);
    NoTransactions(next);
  }

  /** A resolved start is tried again only when the caller names exactly the hashes that the
      record knows and no claim or retry is open; all of them are filed as history, and nothing is
      open afterwards. */
  lemma RetryFilesEverything(rec: Record, r: Runtime, id: Identity, revision: nat, hashes: set<Hash>, newOp: OpId,
                             block: nat, next: Record)
    requires RecNext(rec, r, ResolveForRetry(id, revision, hashes, newOp, block)) == Some(next)
    ensures forall h :: h in hashes <==> Mentions(rec, h)
    ensures rec.start.sub.None? && rec.start.retry.None? && (rec.plan.Some? ==> rec.plan.value.wal.sub.None?)
    ensures !rec.start.pending && rec.chain.ChainActive? && rec.revision == revision
    ensures block >= rec.start.resolutionBlock
    ensures forall e :: e in r.late && e.note == rec.note ==> IsTerminal(e.status)
    ensures NothingOpen(next) && next.state == rec.state && next.history[..|next.history| - 1] == rec.history
    ensures forall h :: Mentions(rec, h) ==> h in next.history[|next.history| - 1].hashes
    ensures next.plan.Some? && next.plan.value.op == Some(newOp) && !next.plan.value.proved && next.plan.value.clearance
    ensures rec.nullifier.Some? ==> next.plan.value.nullifier == rec.nullifier
  {
    forall h ensures Mentions(rec, h) <==> h in KnownHashes(rec) { MentionsIff(rec, h); }
  }

  /** A start is cancelled without a nonce only when it is the only thing the record answers for
      and no nonce was ever saved for it; the balance is at rest again. */
  lemma CancelledHadNoNonce(rec: Record, r: Runtime, id: Identity, sub: SubId, op: OpId, next: Record)
    requires RecNext(rec, r, ReleaseStart(id, sub, op, true)) == Some(next)
    ensures rec.start.sub == Some(sub) && rec.start.op == Some(op) && rec.independent
    ensures forall c :: Answers(rec, [], c) ==> c.sub == Some(sub) && c.op == Some(op) && c.from.None? && c.nonce.None?
    ensures forall h :: !Mentions(rec, h)
    ensures rec.start.resolved == [] && rec.start.resolutionBlock == 0
    ensures NothingOpen(next) && AtRest(next, r) && next.plan.Some? && next.plan.value.proved == rec.plan.value.proved
  {
    NoTransactions(next);
  }

  /** Saved phases are repaired only on a balance that never left: no transaction, no claim, and
      no outcome that leaves open whether the wallet was asked. */
  lemma RepairedWasUnsubmitted(rec: Record, r: Runtime, id: Identity, revision: nat, next: Record)
    requires RecNext(rec, r, Repair(id, revision)) == Some(next)
    ensures NothingOpen(rec) && NeverAsked(rec) && rec.revision == revision
    ensures rec.state.Some? && rec.state.value.id == rec.note && rec.mode.Mutual?
    ensures rec.mode == id.mode && rec.destination == id.destination
    ensures !rec.moved && !rec.chain.ChainPending? && !rec.chain.ChainClosed?
    ensures rec.phase.ParkedPhase? || rec.phase.RestoredPhase? || rec.phase.ChallengedUnconfirmed?
            || rec.phase.RecoveryUnconfirmed?
    ensures forall e :: e in r.late && e.note == rec.note ==> IsTerminal(e.status)
    ensures next.phase.ParkedPhase? && next.chain.ChainActive? && next.start == rec.start && next.plan == rec.plan
            && next.state == rec.state
  {
    NoTransactions(rec);
  }

  /** An open finalization bars the patches that end or suspend one. */
  lemma OpenFinalizationBars(rec: Record, p: Patch, expected: Option<nat>)
    requires (p.MarkRestored? || p.MarkUnfinal?) && DoUpdate(rec, p, expected).Some?
    ensures rec.fin.hashes == [] && rec.fin.sub.None?
  {
  }

  // --- Reported hashes -----------------------------------------------------------------------------

  /** The record's own open claim. */
  ghost predicate IsOpenClaim(rec: Record, sub: SubId, op: OpId) {
    rec.start.sub == Some(sub) && rec.start.op == Some(op)
  }

  /** An earlier claim, or one behind a saved attempt, with what is known of its identity. */
  ghost predicate Retains(rec: Record, sub: SubId, op: OpId, from: Option<Address>, nonce: Option<nat>) {
    || (exists d :: (d in rec.start.dismissed || d in rec.start.superseded || d in rec.start.ambiguous)
                    && d == Claim(sub, op, from, nonce))
    || (exists a :: a in rec.start.attempts && a.sub == sub && a.op == op
                    && (a.sender.Some? ==> from == Some(a.sender.value.from) && nonce == Some(a.sender.value.nonce))
                    && (a.sender.None? ==> from.None? && nonce.None?))
  }

  /** s completes what is known of a claim and contradicts none of it, nor what was reported. */
  ghost predicate Completes(s: Sender, meta: Option<Sender>, from: Option<Address>, nonce: Option<nat>) {
    && (from.Some? ==> from == Some(s.from)) && (nonce.Some? ==> nonce == Some(s.nonce))
    && (if meta.Some? then meta == Some(s) else from.Some? && nonce.Some?)
  }

  lemma AgreedIff(meta: Option<Sender>, from: Option<Address>, nonce: Option<nat>, s: Sender)
    ensures AgreedSender(meta, from, nonce) == Some(s) <==> Completes(s, meta, from, nonce)
  {
  }

  lemma PriorIsRetained(rec: Record, sub: SubId, op: OpId, c: Claim)
    requires FindClaim(PriorClaims(rec), sub, op) == Some(c)
    ensures Retains(rec, sub, op, c.from, c.nonce)
  {
    if c in ClaimsOf(rec.start.attempts) {
      var i :| 0 <= i < |rec.start.attempts| && ClaimsOf(rec.start.attempts)[i] == c;
      assert rec.start.attempts[i] in rec.start.attempts;
    } else {
      assert c in rec.start.dismissed || c in rec.start.superseded || c in rec.start.ambiguous;
    }
  }

  /** What a report leaves: its attempt replaces any of that hash, the plan of its operation has
      the same log, and exactly the claim that it answers is closed. */
  ghost predicate Filed(rec: Record, hash: Hash, sub: SubId, op: OpId, s: Sender, next: Record) {
    && (forall h :: h in next.start.hashes <==> h in rec.start.hashes || h == hash)
    && (forall a :: a in next.start.attempts
               <==> a == Attempt(hash, sub, op, Some(s)) || (a in rec.start.attempts && a.hash != hash))
    && (rec.plan.Some? && rec.plan.value.op == Some(op) ==>
          next.plan.Some? && next.plan.value.wal.hashes == next.start.hashes
          && next.plan.value.wal.attempts == next.start.attempts)
    && next.start.pending == !rec.phase.ClosedPhase?
    && (if IsOpenClaim(rec, sub, op) then
          next.start.sub.None? && next.start.sender.None? && (next.plan.Some? ==> next.plan.value.wal.sub.None?)
        else
          next.start.sub == rec.start.sub && next.start.op == rec.start.op && next.start.sender == rec.start.sender
          && next.plan.Some? == rec.plan.Some?
          && (rec.plan.Some? ==> next.plan.value.wal.sub == rec.plan.value.wal.sub
                                 && next.plan.value.wal.sender == rec.plan.value.wal.sender))
  }

  lemma WriteFiles(rec: Record, hash: Hash, sub: SubId, op: OpId, s: Sender, next: Record)
    requires next == StartSaved(rec, WithStartHash(rec, Distinct(rec.start.hashes + [hash]),
                                                   WithoutAttempt(rec.start.attempts, hash)
                                                     + [Attempt(hash, sub, op, Some(s))], op,
                                                   rec.start.sub == Some(sub) && rec.start.op == Some(op)))
    ensures Filed(rec, hash, sub, op, s, next)
  {
    assert forall h :: h in rec.start.hashes + [hash] <==> h in rec.start.hashes || h == hash;
  }

  /** A hash reported for a live record is filed for the claim that reported it, open or retained,
      under an identity that agrees with all that claim and report say. */
  lemma ReportIsFiled(rec: Record, id: Identity, hash: Hash, sub: SubId, op: OpId, meta: Option<Sender>, next: Record)
    returns (s: Sender, from: Option<Address>, nonce: Option<nat>)
    requires FindArchived(rec.history, sub, op).None? && DoRememberStart(rec, id, hash, sub, op, meta) == Some(next)
    ensures if IsOpenClaim(rec, sub, op) then from == FromOf(rec.start.sender) && nonce == NonceOf(rec.start.sender)
            else Retains(rec, sub, op, from, nonce)
    ensures Completes(s, meta, from, nonce) && Filed(rec, hash, sub, op, s, next)
  {
    var prior := FindClaim(PriorClaims(rec), sub, op);
    if IsOpenClaim(rec, sub, op) {
      from, nonce := FromOf(rec.start.sender), NonceOf(rec.start.sender);
    } else {
      PriorIsRetained(rec, sub, op, prior.value);
      from, nonce := prior.value.from, prior.value.nonce;
    }
    s := AgreedSender(meta, from, nonce).value;
    AgreedIff(meta, from, nonce, s);
    WriteFiles(rec, hash, sub, op, s, next);
  }

  /** A claim that neither record nor history knows, or a report that contradicts it, is refused. */
  lemma ForeignReportIsRefused(rec: Record, id: Identity, hash: Hash, sub: SubId, op: OpId, meta: Sender)
    requires FindArchived(rec.history, sub, op).None?
    requires !IsOpenClaim(rec, sub, op) || (rec.start.sender.Some? && rec.start.sender != Some(meta))
    requires !IsOpenClaim(rec, sub, op) ==> forall from, nonce :: !Retains(rec, sub, op, from, nonce)
    ensures DoRememberStart(rec, id, hash, sub, op, Some(meta)).None?
  {
    var prior := FindClaim(PriorClaims(rec), sub, op);
    if !IsOpenClaim(rec, sub, op) && prior.Some? { PriorIsRetained(rec, sub, op, prior.value); }
  }

  /** A late hash of a filed claim is noted once: with the entry that knows the claim, if the
      claim's identity is complete and agrees with the report, and the entry has not got it yet. */
  lemma ArchivedReportIff(rec: Record, id: Identity, hash: Hash, sub: SubId, op: OpId, meta: Option<Sender>, k: nat)
    requires FindArchived(rec.history, sub, op) == Some(k)
    ensures var c := FindClaim(ArchivedClaims(rec.history[k]), sub, op).value;
            DoRememberStart(rec, id, hash, sub, op, meta).Some? <==>
              && rec.mode == id.mode && rec.destination == id.destination
              && c.from.Some? && c.nonce.Some? && Completes(Sender(c.from.value, c.nonce.value), meta, c.from, c.nonce)
              && hash !in rec.history[k].hashes && hash !in rec.history[k].lateObserved
    ensures DoRememberStart(rec, id, hash, sub, op, meta).Some? ==>
              DoRememberStart(rec, id, hash, sub, op, meta).value.history[k].lateObserved
              == rec.history[k].lateObserved + [hash]
  {
    var c := FindClaim(ArchivedClaims(rec.history[k]), sub, op).value;
    if c.from.Some? && c.nonce.Some? { AgreedIff(meta, c.from, c.nonce, Sender(c.from.value, c.nonce.value)); }
  }

  // --- The close ----------------------------------------------------------------------------------

  /** The sanitizing close files every claim that the record answers for, with its identity, and
      every resolved or dismissed one; the hashes and attempts of log and plan go with them. */
  lemma CloseFilesEverything(rec: Record, expected: Option<nat>, c: LiveClaim, next: Record)
    requires DoUpdate(rec, Close, expected) == Some(next)
    ensures next.history != [] && next.history[..|next.history| - 1] == rec.history
    ensures var entry := next.history[|next.history| - 1];
            && (Answers(rec, [], c) && c.sub.Some? && c.op.Some? ==> exists d :: d in entry.claims && Copies(c, d))
            && (forall d :: d in rec.start.resolved || d in rec.start.dismissed ==> d in entry.claims)
            && entry.attempts == rec.start.attempts
            && entry.planAttempts == (if rec.plan.Some? then rec.plan.value.wal.attempts else [])
            && (forall h :: h in entry.hashes <==> h in rec.start.hashes)
    ensures forall d :: !Answers(next, [], d)
  {
    var entry := next.history[|next.history| - 1];
    if Answers(rec, [], c) && c.sub.Some? && c.op.Some? {
      var d := Claim(c.sub.value, c.op.value, c.from, c.nonce);
      assert Copies(c, d) && d in entry.claims;
    }
  }

  // --- The open claim ------------------------------------------------------------------------------

  /** Only the open claim, shown by record and plan alike, is journaled, marked or released. */
  lemma CurrentClaimOnly(rec: Record, r: Runtime, o: RecOp, next: Record)
    requires (o.JournalStart? || o.StartAmbiguous? || o.ReleaseStart?) && RecNext(rec, r, o) == Some(next)
    ensures rec.mode == o.identity.mode && rec.destination == o.identity.destination
    ensures IsOpenClaim(rec, o.sub, o.op)
    ensures rec.plan.Some? && rec.plan.value.wal.sub == Some(o.sub) && rec.plan.value.op == Some(o.op)
    ensures next.start.hashes == rec.start.hashes && next.start.attempts == rec.start.attempts
    ensures next.plan.Some? && next.plan.value.wal.hashes == rec.plan.value.wal.hashes
            && next.plan.value.wal.attempts == rec.plan.value.wal.attempts
  {
  }

  /** A nonce is saved in both logs before the wallet is asked, and never overwritten by another. */
  lemma NonceIsSaved(rec: Record, r: Runtime, id: Identity, sub: SubId, op: OpId, s: Sender, next: Record)
    requires RecNext(rec, r, JournalStart(id, sub, op, s)) == Some(next)
    ensures rec.start.sender.None? || rec.start.sender == Some(s)
    ensures next.start == rec.start.(sender := Some(s)) && next.phase == rec.phase
    ensures next.plan.Some? && next.plan.value.wal.sender == Some(s) && next.plan.value.wal.sub == Some(sub)
  {
  }

  /** An unknown result leaves the claim open, and says so in both logs. */
  lemma UnknownStaysOpen(rec: Record, r: Runtime, id: Identity, sub: SubId, op: OpId, next: Record)
    requires RecNext(rec, r, StartAmbiguous(id, sub, op)) == Some(next)
    ensures next.start == rec.start.(outcome := AmbiguousOutcome) && next.phase == rec.phase
    ensures next.plan.Some? && next.plan.value.wal == rec.plan.value.wal.(phase := Ambiguous)
            && next.plan.value.outcome.AmbiguousOutcome?
  {
  }

  /** A released claim is remembered with its identity, so that its prompt can still report; the
      record parks the balance if and only if nothing else may have been sent. */
  lemma ReleasedIsRemembered(rec: Record, r: Runtime, id: Identity, sub: SubId, op: OpId, requireNoNonce: bool,
                             next: Record)
    requires RecNext(rec, r, ReleaseStart(id, sub, op, requireNoNonce)) == Some(next)
    ensures next.start.sub.None? && next.start.sender.None? && next.plan.Some? && next.plan.value.wal.sub.None?
            && next.plan.value.wal.sender.None?
    ensures Claim(sub, op, FromOf(rec.start.sender), NonceOf(rec.start.sender)) in next.start.dismissed
    ensures next.start.superseded == rec.start.superseded && next.start.ambiguous == rec.start.ambiguous
            && next.start.retry == rec.start.retry && next.fin == rec.fin
    ensures if next.start.pending then next.phase.SubmittedUnconfirmed?
            else next.phase.ParkedPhase? && NothingOpen(next)
  {
    var retired := Claim(sub, op, FromOf(rec.start.sender), NonceOf(rec.start.sender));
    assert next.start.dismissed[|next.start.dismissed| - 1] == retired;
    if !next.start.pending { NoTransactions(next); }
  }

  // --- Patches --------------------------------------------------------------------------------------

  /** A pass that leaves something open keeps an open claim as it is; otherwise it marks the start
      for replacement, or takes back an earlier mark. */
  lemma UnresolvedMarks(rec: Record, allMissing: bool, droppable: seq<Hash>, expected: Option<nat>, next: Record)
    requires DoUpdate(rec, StartUnresolved(allMissing, droppable), expected) == Some(next)
    ensures next.phase.SubmittedUnconfirmed? && next.chain.ChainActive?
    ensures next.start == rec.start.(outcome := next.start.outcome, replaceables := next.start.replaceables)
    ensures rec.start.sub.Some? ==> next.start == rec.start
    ensures rec.start.sub.None? && allMissing ==>
              next.start.outcome.ReceiptMissing? && next.start.replaceables == droppable
    ensures rec.start.sub.None? && !allMissing ==>
              !next.start.outcome.ReceiptMissing? && !next.start.outcome.ReplacementUnknown?
  {
  }

  /** What the other patches say of the chain: a close and a pending escape mark the note as moved
      for good, and an active note is parked if it is withdrawal-only. */
  lemma PatchTells(rec: Record, p: Patch, expected: Option<nat>, next: Record)
    requires DoUpdate(rec, p, expected) == Some(next)
    ensures expected.Some? ==> expected == Some(rec.revision)
    ensures rec.moved ==> next.moved
    ensures p.MarkClosing? ==> next.phase.ClosedUnconfirmed? && next.chain.ChainClosed? && next.moved
    ensures p.MarkPending? ==>
              && next.chain.ChainPending? && next.moved && next.mode.Escape?
              && (p.paidTo.Some? ==> next.destination == p.paidTo)
              && (rec.fin.hashes != [] && !rec.phase.AmbiguousPhase? ==> next.phase.FinalizingPhase?)
    ensures p.MarkActive? ==> next.chain.ChainActive? && next.phase == rec.phase
    ensures p.MarkRestored? ==>
              && next.chain.ChainActive?
              && (if rec.clearance || (rec.plan.Some? && rec.plan.value.clearance) then next.phase.ParkedPhase?
                  else next.phase.RestoredPhase?)
    ensures p.MarkUnfinal? ==>
              && next.chain.ChainActive?
              && (if rec.mode.Escape? then next.phase.ChallengedUnconfirmed? else next.phase.RecoveryUnconfirmed?)
    ensures p.NoteError? ==> next == rec.(revision := rec.revision + 1)
    ensures !p.MarkPending? && !p.Close? ==> next.mode == rec.mode && next.destination == rec.destination
    ensures rec.phase.ClosedPhase? ==> next.phase.ClosedPhase?
  {
  }
}
