/** Operations on the selected slot. Each is one commit of a section that holds the
    wallet lock; None means that the section threw or wrote nothing. */
module SelectedSlot {
  import opened WalletTypes
  import opened AttemptLog
  import opened PlanLog

  datatype SlotOp =
    | DropDeposit(amount: nat)
    | NewDeposit(newOp: OpId, amount: nat, secret: Felt, note: NoteId)
    | DepositStep(depositOp: DepositOp)
    | ConfirmDeposit(expectedOp: Option<OpId>, secret: Felt, note: NoteId, amount: nat)
    | CommitJournal(nullifier: Felt)
    | DropStaleJournal
    | CommitLease
    | InstallResponse(balance: nat)
    | RecoverReserved
    | ReserveMutual(destination: Address, nullifier: Felt, newOp: OpId)
    | CommitPlan(mode: Mode, destination: Address, nullifier: Felt, newOp: OpId)
    | PlanStep(planOp: PlanOp)
    | RememberTx(hash: Hash, ref: Ref, meta: Option<Sender>)
    | ClearPlan(expectedNote: Option<NoteId>, expectedHashes: Option<multiset<Hash>>)
    | UpdateLate(op: OpId, hash: Hash, status: LateStatus, expectedStatus: Option<LateStatus>)
    | ChallengeLate(op: OpId, hash: Hash, note: NoteId, backgroundOwns: bool)
    | ChallengeEscape(note: NoteId, hashes: multiset<Hash>)

  /** prepareWithdrawal: an existing plan may be replaced only for the same note and
      destination, without a wallet attempt, and in a mode it can be switched to. */
  predicate Replaceable(p: Plan, note: NoteId, mode: Mode, destination: Address) {
    && p.note == note
    && p.wal.sub.None? && p.wal.hashes == []
    && (p.destination.Some? && (p.mode != mode || p.destination.value != destination) ==>
          && p.destination.value == destination
          && (p.mode.Mutual? || p.clearance))
  }

  predicate CanPrepare(r: Runtime, mode: Mode, destination: Address) {
    && r.state.Some?
    && !HasUnresolved(r.late, r.state.value.id)
    && r.journal.None? && !r.lease
    && (r.plan.Some? ==> Replaceable(r.plan.value, r.state.value.id, mode, destination))
  }

  function LateOf(ref: Ref, hash: Hash, sender: Option<Sender>): Late {
    Late(ref.op, ref.sub, ref.note, ref.mode, ref.destination, ref.clearance || ref.mode.Mutual?,
         ref.nullifier, hash, sender, SubmittedLate)
  }

  function ChallengedPlan(e: Late): Plan {
    Plan(e.mode, e.note, e.destination, Some(e.op), true, e.nullifier, false, ChallengedOutcome, false, EMPTY_WAL)
  }

  function SlotNext(r: Runtime, o: SlotOp): Option<Runtime> {
    match o
    case DropDeposit(amount) =>
      if r.state.Some? || r.deposit.None? || r.deposit.value.amount == amount || !Untouched(r.deposit.value) then None
      else Some(r.(deposit := None))
    case NewDeposit(newOp, amount, secret, note) =>
      if r.state.Some? || r.deposit.Some? then None
      else Some(r.(deposit := Some(Deposit(newOp, note, amount, secret, EMPTY_WAL))))
    case DepositStep(depositOp) =>
      if r.deposit.None? || (depositOp.RefreshDeposit? && r.state.Some?) then None
      else
        var d := DepositNext(r.deposit.value, depositOp);
        if d.None? then None else Some(r.(deposit := d))
    case ConfirmDeposit(expectedOp, secret, note, amount) =>
      if r.state.Some? || r.deposit.None? || r.deposit.value.secret != secret
         || (expectedOp.Some? && expectedOp.value != r.deposit.value.op)
         || r.deposit.value.note != note || r.deposit.value.amount != amount then None
      else Some(r.(state := Some(Note(note, amount)), journal := None, deposit := None, plan := None))
    case CommitJournal(nullifier) =>
      if r.state.None? || HasUnresolved(r.late, r.state.value.id) || r.journal.Some? || r.plan.Some? then None
      else Some(r.(journal := Some(nullifier)))
    case DropStaleJournal =>
      if r.journal.None? then None else Some(r.(journal := None))
    case CommitLease =>
      if r.state.None? || r.journal.None? then None else Some(r.(lease := true))
    case InstallResponse(balance) =>
      if r.state.None? || r.journal.None? then None
      else Some(r.(state := Some(r.state.value.(balance := balance)), journal := None, lease := false))
    case RecoverReserved =>
      if r.state.None? || r.journal.None? then None
      else Some(r.(journal := None, lease := false,
                   plan := First(r.plan, Some(Plan(Mutual, r.state.value.id, None, None, true, r.journal, false,
                                                   NoOutcome, false, EMPTY_WAL.(phase := Reserving))))))
    case ReserveMutual(destination, nullifier, newOp) =>
      if !CanPrepare(r, Mutual, destination) then None
      else Some(r.(plan := Some(Plan(Mutual, r.state.value.id, Some(destination),
                                     if r.plan.Some? then First(r.plan.value.op, Some(newOp)) else Some(newOp),
                                     true,
                                     if r.plan.Some? then First(r.plan.value.nullifier, Some(nullifier))
                                         else Some(nullifier),
                                     false, NoOutcome, false, EMPTY_WAL.(phase := Reserving)))))
    case CommitPlan(mode, destination, nullifier, newOp) =>
      if !CanPrepare(r, mode, destination)
         || (mode.Mutual? && !(r.plan.Some? && r.plan.value.mode.Mutual? && r.plan.value.wal.phase.Reserving?))
         || (mode.Escape? && r.plan.Some? && r.plan.value.op.Some? && r.plan.value.op.value != newOp) then None
      else Some(r.(plan := Some(Plan(mode, r.state.value.id, Some(destination), Some(newOp),
                                     mode.Mutual? || (r.plan.Some?
                                                      && (r.plan.value.clearance || r.plan.value.mode.Mutual?)),
                                     if r.plan.Some? then First(r.plan.value.nullifier, Some(nullifier))
                                         else Some(nullifier),
                                     true, NoOutcome, false, EMPTY_WAL))))
    case PlanStep(planOp) =>
      if r.plan.None? || planOp.Remember? then None
      else
        var p := PlanNext(r.plan.value, planOp);
        if p.None? then None else Some(r.(plan := p))
    case RememberTx(hash, ref, meta) =>
      if r.plan.Some? && SameOperation(r.plan.value, ref) then
        Some(r.(plan := PlanNext(r.plan.value, Remember(hash, ref, meta))))
      else
        Some(r.(late := Retain(WithoutLate(r.late, ref.op, hash) + [LateOf(ref, hash, ReportedSender(r, meta))])))
    case ClearPlan(expectedNote, expectedHashes) =>
      if r.plan.None? || (expectedNote.Some? && expectedNote.value != r.plan.value.note)
         || (expectedHashes.Some? && expectedHashes.value != multiset(r.plan.value.wal.hashes))
         || r.plan.value.mode.Mutual? || r.plan.value.clearance
         || r.plan.value.wal.sub.Some? || r.plan.value.wal.hashes != [] then None
      else Some(r.(plan := None))
    case UpdateLate(op, hash, status, expectedStatus) =>
      var k := FindLate(r.late, op, hash);
      if k.None? then None
      else
        var e := r.late[k.value];
        if (expectedStatus.Some? && expectedStatus.value != e.status)
            || (IsTerminal(e.status) && status != e.status) then None
        else Some(r.(late := Retain(r.late[k.value := e.(status := status)])))
    case ChallengeLate(op, hash, note, backgroundOwns) =>
      var k := FindLate(r.late, op, hash);
      if k.None? || r.late[k.value].note != note || IsTerminal(r.late[k.value].status)
         || !(Selects(r, note) || backgroundOwns) then None
      else
        var e := r.late[k.value];
        Some(r.(plan := if Selects(r, note) && (e.clearance || e.mode.Mutual?)
                        then First(r.plan, Some(ChallengedPlan(e))) else r.plan,
                late := Retain(Settle(r.late, k.value, Challenged, Superseded))))
    case ChallengeEscape(note, hashes) =>
      if r.plan.None? || !r.plan.value.mode.Escape? || !r.plan.value.clearance || r.plan.value.note != note
         || r.plan.value.wal.sub.Some? || multiset(r.plan.value.wal.hashes) != hashes then None
      else Some(r.(plan := Some(r.plan.value.(proved := false, outcome := ChallengedOutcome, residue := false,
                                              wal := EMPTY_WAL))))
  }

  /** The identity a late callback is saved with. */
  function ReportedSender(r: Runtime, meta: Option<Sender>): Option<Sender> {
    if meta.Some? || r.plan.None? then meta else r.plan.value.wal.sender
  }

  /** The late attempts after a commit. */
  function LateAfter(r: Runtime, o: SlotOp): seq<Late> {
    match o
    case RememberTx(hash, ref, meta) =>
      if r.plan.Some? && SameOperation(r.plan.value, ref) then r.late
      else Retain(WithoutLate(r.late, ref.op, hash) + [LateOf(ref, hash, ReportedSender(r, meta))])
    case UpdateLate(op, hash, status, _) =>
      var k := FindLate(r.late, op, hash);
      if k.None? then r.late else Retain(r.late[k.value := r.late[k.value].(status := status)])
    case ChallengeLate(op, hash, _, _) =>
      var k := FindLate(r.late, op, hash);
      if k.None? then r.late else Retain(Settle(r.late, k.value, Challenged, Superseded))
    case _ => r.late
  }

  lemma LateIsAfter(r: Runtime, o: SlotOp, next: Runtime)
    requires SlotNext(r, o) == Some(next)
    ensures next.late == LateAfter(r, o)
  {
  }

  // ---------------------------------------------------------------------------
  // What every commit keeps
  // ---------------------------------------------------------------------------

  /** The slot never holds a spend journal beside a prepared withdrawal, nor note state
      beside a pending deposit; journal, plan and lease need a note; a plan belongs to
      the selected note and a mutual one carries the withdrawal-only mark. */
  ghost predicate SlotOk(r: Runtime) {
    && !(r.journal.Some? && r.plan.Some?)
    && !(r.state.Some? && r.deposit.Some?)
    && (r.state.None? ==> r.journal.None? && r.plan.None? && !r.lease)
    && (r.plan.Some? ==> r.plan.value.note == r.state.value.id && MutualIsMarked(r.plan.value))
  }

  ghost predicate MutualIsMarked(p: Plan) {
    p.mode.Mutual? ==> p.clearance
  }

  /** The selected note carries the withdrawal-only mark. */
  ghost predicate Marked(r: Runtime) {
    r.state.Some? && r.plan.Some? && r.plan.value.clearance
  }

  /** Every marked late attempt of the selected note finds the note marked. */
  ghost predicate LateAgrees(r: Runtime) {
    forall e :: e in r.late && Selects(r, e.note) && (e.clearance || e.mode.Mutual?) ==> Marked(r)
  }

  lemma SlotKeepsOk(r: Runtime, o: SlotOp, next: Runtime)
    requires SlotOk(r) && LateAgrees(r)
    requires SlotNext(r, o) == Some(next)
    ensures SlotOk(next)
    ensures Marked(r) ==> Marked(next)
  {
    match o
    case ChallengeLate(op, hash, note, backgroundOwns) =>
      assert r.late[FindLate(r.late, op, hash).value] in r.late;
    case PlanStep(planOp) =>
      PlanKeepsMark(r.plan.value, planOp, PlanNext(r.plan.value, planOp).value);
    case RememberTx(hash, ref, meta) =>
    case _ =>
  }

  /** No log operation moves a plan to another note, mode or mark. */
  lemma PlanKeepsMark(p: Plan, o: PlanOp, q: Plan)
    requires PlanNext(p, o) == Some(q)
    ensures q.note == p.note && q.mode == p.mode && q.clearance == p.clearance
            && q.destination == p.destination && q.proved == p.proved && q.nullifier == p.nullifier
  {
  }

  /** A commit changes the selected note only by installing a confirmed deposit in an
      empty slot, or its balance by installing a response. */
  lemma SlotKeepsNote(r: Runtime, o: SlotOp, q: Runtime)
    requires SlotNext(r, o) == Some(q)
    ensures r.state.Some? ==> q.state.Some? && q.state.value.id == r.state.value.id
    ensures !o.InstallResponse? && !o.ConfirmDeposit? ==> q.state == r.state
    ensures o.ConfirmDeposit? ==> r.state.None? && q.state == Some(Note(o.note, o.amount))
  {
  }
}
