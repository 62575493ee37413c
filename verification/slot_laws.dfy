/** Sequences of commits on the selected slot, and what moving a note away and back leaves of it. */
module SlotLaws {
  import opened WalletTypes
  import opened AttemptLog
  import opened SelectedSlot
  import opened NoteMoves

  // --- Spending -------------------------------------------------------------------------------------

  /** A spend that is journaled, leased and answered leaves the slot as it was, except that the
      note has the new balance. */
  lemma SpendRoundTrip(r: Runtime, nullifier: Felt, balance: nat, a: Runtime, b: Runtime, c: Runtime)
    requires SlotNext(r, CommitJournal(nullifier)) == Some(a)
    requires SlotNext(a, CommitLease) == Some(b) && SlotNext(b, InstallResponse(balance)) == Some(c)
    ensures a.journal == Some(nullifier) && a.state == b.state == r.state && b.journal == a.journal && b.lease
    ensures c.state == Some(Note(r.state.value.id, balance)) && c.journal.None? && !c.lease
    ensures c.deposit == r.deposit && c.plan.None? && r.plan.None? && c.late == r.late
  {
  }

  /** When the service turns out to have reserved the note for a close instead, the journaled
      nullifier becomes that of the withdrawal, and the note is marked. */
  lemma ReservationTakesNullifier(r: Runtime, nullifier: Felt, a: Runtime, b: Runtime)
    requires SlotNext(r, CommitJournal(nullifier)) == Some(a) && SlotNext(a, RecoverReserved) == Some(b)
    ensures b.journal.None? && !b.lease && b.state == r.state && b.late == r.late && Marked(b)
    ensures b.plan.value.nullifier == Some(nullifier) && b.plan.value.mode.Mutual? && !b.plan.value.proved
            && b.plan.value.note == r.state.value.id && b.plan.value.destination.None? && b.plan.value.op.None?
  {
  }

  // --- Withdrawing ----------------------------------------------------------------------------------

  /** A plan keeps the nullifier it was first given, whatever is committed. */
  lemma NullifierIsKept(r: Runtime, o: SlotOp, next: Runtime)
    requires SlotOk(r) && SlotNext(r, o) == Some(next)
    requires r.plan.Some? && r.plan.value.nullifier.Some? && next.plan.Some?
    ensures next.plan.value.nullifier == r.plan.value.nullifier
  {
    if o.PlanStep? { PlanKeepsMark(r.plan.value, o.planOp, next.plan.value); }
  }

  /** A mutual close is first reserved and then proved for the same note and destination, under
      the nullifier of the reservation; in between, the note is marked already. */
  lemma ReserveThenProve(r: Runtime, to: Address, nullifier: Felt, other: Felt, op: OpId, newOp: OpId, a: Runtime,
                         b: Runtime)
    requires SlotOk(r) && SlotNext(r, ReserveMutual(to, nullifier, op)) == Some(a)
    requires SlotNext(a, CommitPlan(Mutual, to, other, newOp)) == Some(b)
    ensures Marked(a) && a.plan.value.wal.phase.Reserving? && !a.plan.value.proved
    ensures Marked(b) && b.plan.value.proved && b.plan.value.mode.Mutual? && b.plan.value.note == r.state.value.id
            && b.plan.value.destination == Some(to) && b.plan.value.op == Some(newOp)
    ensures r.plan.None? ==> b.plan.value.nullifier == Some(nullifier) && a.plan.value.op == Some(op)
    ensures b.plan.value.wal.sub.None? && b.plan.value.wal.hashes == [] && b.plan.value.wal.attempts == []
            && b.plan.value.wal.phase.Prepared?
    ensures b.state == a.state == r.state && b.late == r.late
  {
  }

  /** A mutual plan is proved only after its reservation was committed. */
  lemma ProvedAfterReserving(r: Runtime, to: Address, nullifier: Felt, op: OpId)
    ensures SlotNext(r, CommitPlan(Mutual, to, nullifier, op)).Some? ==>
              r.plan.Some? && r.plan.value.mode.Mutual? && r.plan.value.wal.phase.Reserving?
  {
  }

  /** A plan is dropped only if it is an unmarked escape without an open claim or a hash. */
  lemma ClearedWasIdle(r: Runtime, note: Option<NoteId>, hashes: Option<multiset<Hash>>, next: Runtime)
    requires SlotNext(r, ClearPlan(note, hashes)) == Some(next)
    ensures r.plan.value.mode.Escape? && !Marked(r) && r.plan.value.wal.sub.None? && r.plan.value.wal.hashes == []
    ensures next == r.(plan := None)
  {
  }

  // --- Deposits -------------------------------------------------------------------------------------

  /** A confirmed deposit is installed if and only if the slot is empty and the confirmation names
      the secret, note and amount of the pending one, and its operation if it names any. */
  lemma DepositInstalledIff(r: Runtime, op: Option<OpId>, secret: Felt, note: NoteId, amount: nat)
    ensures SlotNext(r, ConfirmDeposit(op, secret, note, amount)).Some? <==>
            && r.state.None? && r.deposit.Some? && r.deposit.value.secret == secret && r.deposit.value.note == note
            && r.deposit.value.amount == amount && (op.Some? ==> op == Some(r.deposit.value.op))
    ensures SlotNext(r, ConfirmDeposit(op, secret, note, amount)).Some? ==>
              var next := SlotNext(r, ConfirmDeposit(op, secret, note, amount)).value;
              next.state == Some(Note(note, amount)) && next.deposit.None? && next.plan.None? && next.late == r.late
  {
  }

  // --- Callbacks and late attempts --------------------------------------------------------------------

  /** The late attempt that a callback of another operation leaves. */
  ghost predicate FiledAs(r: Runtime, hash: Hash, ref: Ref, meta: Option<Sender>, e: Late) {
    && e.hash == hash && e.op == ref.op && e.sub == ref.sub && e.note == ref.note && e.mode == ref.mode
    && e.destination == ref.destination && e.nullifier == ref.nullifier
    && e.clearance == (ref.clearance || ref.mode.Mutual?) && e.status == SubmittedLate
    && e.sender == (if meta.Some? then meta else if r.plan.Some? then r.plan.value.wal.sender else None)
  }

  /** The plan is still the one that this prompt was opened for. */
  ghost predicate StillPlanned(p: Option<Plan>, ref: Ref) {
    p.Some? && p.value.op == Some(ref.op) && p.value.note == ref.note && p.value.mode == ref.mode
    && p.value.destination == ref.destination
  }

  /** A callback for the selected plan joins its log as the attempt of the claim that reported it;
      any other is filed as an unresolved late attempt with everything the prompt carried. */
  lemma CallbackIsFiled(r: Runtime, hash: Hash, ref: Ref, meta: Option<Sender>, next: Runtime)
    requires SlotNext(r, RememberTx(hash, ref, meta)) == Some(next)
    ensures StillPlanned(r.plan, ref) ==>
              && next.late == r.late && next.plan.Some? && hash in next.plan.value.wal.hashes
              && Attempt(hash, ref.sub, ref.op, if meta.Some? then meta else r.plan.value.wal.sender)
                   in next.plan.value.wal.attempts
              && (r.plan.value.wal.sub == Some(ref.sub) ==> next.plan.value.wal.sub.None?)
              && (r.plan.value.wal.sub != Some(ref.sub) ==> next.plan.value.wal.sub == r.plan.value.wal.sub)
    ensures !StillPlanned(r.plan, ref) ==>
              next.plan == r.plan && exists e :: e in next.late && FiledAs(r, hash, ref, meta, e)
  {
    if StillPlanned(r.plan, ref) {
      assert hash in r.plan.value.wal.hashes + [hash];
    } else {
      LateIsFiled(r, hash, ref, meta);
    }
  }

  lemma LateIsFiled(r: Runtime, hash: Hash, ref: Ref, meta: Option<Sender>)
    ensures exists e :: e in Retain(WithoutLate(r.late, ref.op, hash) + [LateOf(ref, hash, ReportedSender(r, meta))])
                        && FiledAs(r, hash, ref, meta, e)
  {
    var e := LateOf(ref, hash, ReportedSender(r, meta));
    assert FiledAs(r, hash, ref, meta, e);
    LastIsRetained(WithoutLate(r.late, ref.op, hash), e);
  }

  lemma LastIsRetained(late: seq<Late>, e: Late)
    requires !IsTerminal(e.status)
    ensures e in Retain(late + [e])
  {
    UnresolvedSnoc(late, e);
    assert e in Unresolved(late) + [e];
  }

  /** Updating a late attempt gives it the new status and touches no other: the unresolved ones
      are those before and after it, in order, with itself in between unless it has ended. */
  lemma LateIsUpdated(r: Runtime, op: OpId, hash: Hash, status: LateStatus, expected: Option<LateStatus>, k: nat,
                      next: Runtime)
    requires SlotNext(r, UpdateLate(op, hash, status, expected)) == Some(next)
    requires FindLate(r.late, op, hash) == Some(k)
    ensures (expected.Some? ==> expected == Some(r.late[k].status))
            && (IsTerminal(r.late[k].status) ==> status == r.late[k].status)
    ensures Unresolved(next.late) == Unresolved(r.late[..k])
              + (if IsTerminal(status) then [] else [r.late[k].(status := status)]) + Unresolved(r.late[k + 1..])
    ensures next == r.(late := next.late)
  {
    UpdateWrites(r, op, hash, status, expected, k, next);
    UpdatedUnresolved(r.late, k, r.late[k].(status := status));
  }

  lemma UpdateWrites(r: Runtime, op: OpId, hash: Hash, status: LateStatus, expected: Option<LateStatus>, k: nat,
                     next: Runtime)
    requires SlotNext(r, UpdateLate(op, hash, status, expected)) == Some(next)
    requires FindLate(r.late, op, hash) == Some(k)
    ensures (expected.Some? ==> expected == Some(r.late[k].status))
            && (IsTerminal(r.late[k].status) ==> status == r.late[k].status)
    ensures next == r.(late := Retain(r.late[k := r.late[k].(status := status)]))
  {
  }

  lemma UpdatedUnresolved(late: seq<Late>, k: nat, e: Late)
    requires k < |late|
    ensures Unresolved(Retain(late[k := e]))
         == Unresolved(late[..k]) + (if IsTerminal(e.status) then [] else [e]) + Unresolved(late[k + 1..])
  {
    var before, after := late[..k], late[k + 1..];
    RetainKeepsUnresolved(late[k := e]);
    assert late[k := e] == before + [e] + after;
    UnresolvedConcat(before + [e], after);
    UnresolvedSnoc(before, e);
  }

  /** When the withdrawal behind a late attempt is challenged, every unresolved attempt of its
      note ends and those of others stay, in order. */
  lemma ChallengeEndsAttempts(r: Runtime, op: OpId, hash: Hash, note: NoteId, owns: bool, next: Runtime)
    requires SlotNext(r, ChallengeLate(op, hash, note, owns)) == Some(next)
    ensures Unresolved(next.late) == OfOthers(Unresolved(r.late), note)
    ensures next.state == r.state && next.journal == r.journal && (r.plan.Some? ==> next.plan == r.plan)
  {
    var k := FindLate(r.late, op, hash).value;
    RetainKeepsUnresolved(Settle(r.late, k, Challenged, Superseded));
    EndedHistory(Settle(r.late, k, Challenged, Superseded), r.late, note);
  }

  // --- Moving away and back ----------------------------------------------------------------------------

  /** A parked balance that is restored unchanged is selected again with its plan, which keeps
      note, mode, destination, operation and nullifier, but neither proof nor phase, and carries
      the mark; nothing else in the wallet has changed. */
  lemma ParkThenRestore(s: Store, n: NoteId, revision: nat, t: Store, u: Store)
    requires SlotOk(s.runtime) && n !in s.records && Park(s, n) == Some(t) && Restore(t, n, revision) == Some(u)
    ensures u.records == s.records && u.archive == s.archive && u.runtime.state == s.runtime.state
            && u.runtime.late == s.runtime.late && u.runtime.journal.None? && u.runtime.deposit.None?
            && !u.runtime.lease
    ensures u.runtime.plan.Some? && s.runtime.plan.Some?
    ensures var p, q := s.runtime.plan.value, u.runtime.plan.value;
            && q.note == p.note && q.mode == p.mode && q.destination == p.destination && q.op == p.op
            && q.nullifier == p.nullifier && q.wal.attempts == p.wal.attempts && q.wal.hashes == p.wal.hashes
            && q.clearance && !q.proved && q.wal.phase.Prepared? && q.wal.sub.None?
  {
  }

  /** A note that leaves the slot for an escape or a close takes its state and plan along, under
      the plan's nullifier, and its record begins with the hash that moved it, if one is known. */
  ghost predicate Detached(s: Store, n: NoteId, mode: Mode, destination: Option<Address>, hash: Option<Hash>,
                           t: Store) {
    && n in t.records && t.records == s.records[n := t.records[n]] && t.archive == s.archive
    && t.runtime.state.None? && t.runtime.plan.None? && t.runtime.late == s.runtime.late
    && t.records[n].state == s.runtime.state && t.records[n].plan == s.runtime.plan
    && t.records[n].mode == mode && t.records[n].destination == destination && t.records[n].revision == 1
    && t.records[n].nullifier == (if s.runtime.plan.Some? then s.runtime.plan.value.nullifier else None)
    && t.records[n].start.hashes == (if hash.Some? then [hash.value] else [])
    && t.records[n].start.sub.None? && t.records[n].start.attempts == [] && !t.records[n].start.pending
  }

  lemma EscapeDetaches(s: Store, n: NoteId, destination: Option<Address>, challenged: bool, chain: ChainStatus,
                       hash: Option<Hash>, moved: bool, t: Store)
    requires DetachEscape(s, n, destination, challenged, chain, hash, moved) == Some(t)
    ensures Detached(s, n, Escape, destination, hash, t) && s.runtime.journal.None? && !s.runtime.lease
    ensures t.records[n].phase == (if challenged then ChallengedUnconfirmed else PendingPhase)
            && t.records[n].chain == chain && t.records[n].moved == moved
            && (t.records[n].clearance <==> s.runtime.plan.Some? && s.runtime.plan.value.clearance)
  {
  }

  lemma CloseDetaches(s: Store, n: NoteId, mode: Mode, destination: Option<Address>, hash: Option<Hash>,
                      clearance: bool, t: Store)
    requires DetachClosed(s, n, mode, destination, hash, clearance) == Some(t)
    ensures Detached(s, n, mode, destination, hash, t) && s.runtime.journal.None? && !s.runtime.lease
    ensures t.records[n].phase.ClosedUnconfirmed? && t.records[n].moved
    ensures clearance || Marked(s.runtime) ==> t.records[n].clearance
  {
  }

  /** An expired note is archived with all unfinished work, any other with its state alone. */
  lemma ArchivedWhole(s: Store, n: NoteId, expiry: bool, verified: bool, t: Store)
    requires Archive(s, n, expiry, verified) == Some(t)
    ensures t.records == s.records && t.runtime.state.None? && t.runtime.late == s.runtime.late
    ensures |t.archive| == |s.archive| + 1 && t.archive[..|s.archive|] == s.archive
    ensures var kept := t.archive[|s.archive|];
            && Some(kept.note) == s.runtime.state && kept.note.id == n
            && (expiry ==> verified && kept.journal == s.runtime.journal && kept.plan == s.runtime.plan
                           && kept.deposit == s.runtime.deposit && kept.lease == s.runtime.lease)
            && (!expiry ==> kept.journal.None? && kept.plan.None? && kept.deposit.None? && !kept.lease)
  {
  }

  // --- What bars a commit ---------------------------------------------------------------------------

  ghost predicate HasLate(r: Runtime) {
    exists e :: e in r.late && Selects(r, e.note) && !IsTerminal(e.status)
  }

  /** While a late attempt of the selected note is unresolved, no spend is journaled and no
      withdrawal is reserved or proved. */
  lemma UnresolvedBars(r: Runtime, o: SlotOp, next: Runtime)
    requires SlotNext(r, o) == Some(next) && HasLate(r)
    ensures !o.CommitJournal? && !o.ReserveMutual? && !o.CommitPlan?
  {
    var e :| e in r.late && Selects(r, e.note) && !IsTerminal(e.status);
    assert HasUnresolved(r.late, r.state.value.id);
  }

  /** A plan is replaced only while it has no open claim and no hash, for the same note, and for
      another mode only towards the same destination; an escape keeps its operation. */
  lemma ReplacedPlanWasIdle(r: Runtime, o: SlotOp, next: Runtime)
    requires SlotNext(r, o) == Some(next) && (o.ReserveMutual? || o.CommitPlan?) && r.plan.Some?
    ensures r.plan.value.wal.sub.None? && r.plan.value.wal.hashes == [] && r.plan.value.note == r.state.value.id
    ensures r.plan.value.destination.Some? ==> next.plan.value.destination == r.plan.value.destination
    ensures o.CommitPlan? && o.mode.Escape? && r.plan.value.op.Some? ==> next.plan.value.op == r.plan.value.op
    ensures o.ReserveMutual? && r.plan.value.op.Some? ==> next.plan.value.op == r.plan.value.op
    ensures r.journal.None? && !r.lease
  {
  }

  /** A fresh deposit that is confirmed as it was prepared is installed as its note. */
  lemma DepositRoundTrip(r: Runtime, op: OpId, amount: nat, secret: Felt, note: NoteId, a: Runtime)
    requires SlotNext(r, NewDeposit(op, amount, secret, note)) == Some(a)
    ensures a.deposit.Some? && a.deposit.value.wal.hashes == [] && a.deposit.value.wal.sub.None?
            && a.deposit.value.wal.phase.Prepared?
    ensures SlotNext(a, ConfirmDeposit(Some(op), secret, note, amount)).Some?
    ensures SlotNext(a, ConfirmDeposit(Some(op), secret, note, amount)).value.state == Some(Note(note, amount))
  {
  }

  /** A challenged escape is reset only with no prompt open and for exactly the hashes that were
      looked up; what is left is the marked plan with an empty log. */
  lemma ChallengedEscapeIsReset(r: Runtime, note: NoteId, hashes: multiset<Hash>, next: Runtime)
    requires SlotNext(r, ChallengeEscape(note, hashes)) == Some(next)
    ensures r.plan.value.mode.Escape? && r.plan.value.clearance && r.plan.value.note == note
            && r.plan.value.wal.sub.None? && multiset(r.plan.value.wal.hashes) == hashes
    ensures next.plan.value == r.plan.value.(proved := false, outcome := ChallengedOutcome, residue := false,
                                             wal := next.plan.value.wal)
    ensures next.plan.value.wal.sub.None? && next.plan.value.wal.hashes == [] && next.plan.value.wal.attempts == []
            && next.plan.value.wal.phase.Prepared?
  {
  }

  /** A challenged late withdrawal of the selected note that is marked leaves a marked plan of the
      same kind, unless there is a plan already. */
  lemma ChallengedLateLeavesPlan(r: Runtime, op: OpId, hash: Hash, note: NoteId, owns: bool, k: nat, next: Runtime)
    requires SlotNext(r, ChallengeLate(op, hash, note, owns)) == Some(next) && FindLate(r.late, op, hash) == Some(k)
    ensures r.late[k].note == note && !IsTerminal(r.late[k].status) && (Selects(r, note) || owns)
    ensures r.plan.None? && Selects(r, note) && (r.late[k].clearance || r.late[k].mode.Mutual?) ==>
              && next.plan.Some? && next.plan.value.mode == r.late[k].mode && next.plan.value.note == note
              && next.plan.value.destination == r.late[k].destination && next.plan.value.op == Some(op)
              && next.plan.value.nullifier == r.late[k].nullifier && next.plan.value.clearance
              && !next.plan.value.proved && next.plan.value.wal.sub.None? && next.plan.value.wal.hashes == []
    ensures !(Selects(r, note) && (r.late[k].clearance || r.late[k].mode.Mutual?)) ==> next.plan == r.plan
  {
  }

  /** The unlocked release touches the slot only for the prompt whose claim, operation, note, mode
      and destination the plan shows. */
  lemma SlotReleaseIsExact(s: Store, ref: Ref, unknown: bool, t: Store)
    requires ReleaseSubmission(s, ref, unknown) == Some(t)
    ensures t.runtime != s.runtime ==>
              && s.runtime.plan.Some? && s.runtime.plan.value.wal.sub == Some(ref.sub)
              && s.runtime.plan.value.op == Some(ref.op) && s.runtime.plan.value.note == ref.note
              && s.runtime.plan.value.mode == ref.mode && s.runtime.plan.value.destination == ref.destination
    ensures t.runtime == s.runtime.(plan := t.runtime.plan) && t.archive == s.archive
    ensures forall n :: n in s.records && n != ref.note ==> n in t.records && t.records[n] == s.records[n]
  {
  }

  /** A balance is selected again only for the version of the record that was looked at, with no
      start, finalization or late attempt left open, into an empty slot. */
  lemma RestoredWasIdle(s: Store, n: NoteId, revision: nat, t: Store)
    requires Restore(s, n, revision) == Some(t)
    ensures n in s.records && s.records[n].revision == revision && s.records[n].state.Some?
    ensures s.records[n].note == s.records[n].state.value.id
    ensures !s.records[n].start.pending && s.records[n].start.sub.None?
    ensures s.records[n].fin.hashes == [] && s.records[n].fin.sub.None?
    ensures forall e :: e in s.runtime.late && e.note == s.records[n].note ==> IsTerminal(e.status)
    ensures s.runtime.state.None? && s.runtime.journal.None? && s.runtime.plan.None? && s.runtime.deposit.None?
    ensures s.records[n].phase.RestoredPhase? || s.records[n].phase.ParkedPhase?
  {
  }
}
