/** The saved phase of a deposit or withdrawal tells the truth about its log, in every
    reachable state. */
module PhaseLaws {
  import opened WalletTypes
  import opened AttemptLog
  import opened PlanLog
  import opened SelectedSlot
  import opened NoteMoves
  import opened WalletWorld

  /** Waiting phases have an open claim; idle ones have none; a phase from which the wallet
      may be asked afresh has no hash, and a submitted one has some. */
  ghost predicate Truthful(w: Wal) {
    && (w.phase.AwaitingWallet? || w.phase.Ambiguous? ==> w.sub.Some?)
    && (w.phase.Prepared? || w.phase.Reserving? || w.phase.RetryExact? ==> w.sub.None? && w.hashes == [])
    && (w.phase.Dropped? ==> w.sub.None?)
    && (w.phase.Submitted? ==> w.hashes != [])
  }

  ghost predicate TruthfulSlot(r: Runtime) {
    && (r.plan.Some? ==> Truthful(r.plan.value.wal))
    && (r.deposit.Some? ==> Truthful(r.deposit.value.wal))
  }

  ghost predicate TruthfulWorld(w: World) {
    TruthfulSlot(w.store.runtime) && (w.held.Some? ==> TruthfulSlot(w.held.value))
  }

  lemma RememberStaysTruthful(w: Wal, hash: Hash, sub: SubId, op: OpId, meta: Option<Sender>)
    ensures Truthful(WithHash(w, hash, sub, op, meta))
  {
    assert hash in w.hashes + [hash];
    assert hash in Distinct(w.hashes + [hash]);
  }

  lemma ReleaseStaysTruthful(w: Wal, hash: Hash, unknown: bool)
    requires Truthful(w)
    ensures Truthful(WithoutHash(w, hash, unknown))
  {
  }

  lemma PlanStaysTruthful(p: Plan, o: PlanOp, next: Plan)
    requires Truthful(p.wal) && PlanNext(p, o) == Some(next)
    ensures Truthful(next.wal)
  {
    match o
    case Remember(hash, ref, meta) => RememberStaysTruthful(p.wal, hash, ref.sub, ref.op, meta);
    case ReleaseHash(hash, owner) =>
      ReleaseStaysTruthful(p.wal, hash, p.outcome.AmbiguousOutcome? || p.wal.phase.Ambiguous?);
    case _ =>
  }

  lemma DepositStaysTruthful(d: Deposit, o: DepositOp, next: Deposit)
    requires Truthful(d.wal) && DepositNext(d, o) == Some(next)
    ensures Truthful(next.wal)
  {
    match o
    case RememberDeposit(hash, ref, meta) => RememberStaysTruthful(d.wal, hash, ref.sub, ref.op, meta);
    case ReleaseDepositHash(hash) => ReleaseStaysTruthful(d.wal, hash, d.wal.phase.Ambiguous?);
    case _ =>
  }

  lemma SlotStaysTruthful(r: Runtime, o: SlotOp, next: Runtime)
    requires TruthfulSlot(r) && SlotNext(r, o) == Some(next)
    ensures TruthfulSlot(next)
  {
    match o
    case PlanStep(planOp) => PlanStaysTruthful(r.plan.value, planOp, next.plan.value);
    case DepositStep(depositOp) => DepositStaysTruthful(r.deposit.value, depositOp, next.deposit.value);
    case RememberTx(hash, ref, meta) =>
      if r.plan.Some? && SameOperation(r.plan.value, ref) {
        PlanStaysTruthful(r.plan.value, Remember(hash, ref, meta), next.plan.value);
      }
    case _ =>
  }

  lemma MoveStaysTruthful(s: Store, m: Move, t: Store)
    requires TruthfulSlot(s.runtime) && MoveNext(s, m) == Some(t)
    ensures TruthfulSlot(t.runtime)
  {
  }

  lemma PromptStaysTruthful(s: Store, ref: Ref, unknown: bool, t: Store)
    requires TruthfulSlot(s.runtime) && ReleaseSubmission(s, ref, unknown) == Some(t)
    ensures TruthfulSlot(t.runtime)
  {
  }

  lemma StepStaysTruthful(w: World, st: Step)
    requires TruthfulWorld(w)
    ensures TruthfulWorld(Next(w, st))
  {
    match st
    case Commit(o) =>
      if w.held.Some? && SlotNext(w.held.value, o).Some? {
        SlotStaysTruthful(w.held.value, o, SlotNext(w.held.value, o).value);
      }
    case MoveNote(m) => if MoveNext(w.store, m).Some? { MoveStaysTruthful(w.store, m, MoveNext(w.store, m).value); }
    case ReleasePrompt(ref, unknown) =>
      var t := ReleaseSubmission(w.store, ref, unknown);
      if t.Some? { PromptStaysTruthful(w.store, ref, unknown, t.value); }
    case _ =>
  }

  /** The phase tells the truth in every run, even for a claim that was released under the
      hands of a locked section. */
  lemma {:induction false} PhaseTellsTheTruth(steps: seq<Step>)
    ensures TruthfulWorld(Run(INITIAL, steps))
  {
    if steps != [] {
      PhaseTellsTheTruth(steps[..|steps| - 1]);
      StepStaysTruthful(Run(INITIAL, steps[..|steps| - 1]), steps[|steps| - 1]);
    }
  }

  ghost predicate PreparedIsUntouched(r: Runtime) {
    r.deposit.Some? ==> (Untouched(r.deposit.value) <==> r.deposit.value.wal.phase.Prepared?)
  }

  /** So a deposit is untouched exactly when its phase is `prepared`. */
  lemma UntouchedIffPrepared(steps: seq<Step>)
    ensures PreparedIsUntouched(Run(INITIAL, steps).store.runtime)
  {
    PhaseTellsTheTruth(steps);
  }
}
