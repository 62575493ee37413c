/** What every run of the wallet guarantees, whatever the interleaving of its tabs. */
module WalletRuns {
  import opened WalletTypes
  import opened PlanLog
  import opened SelectedSlot
  import opened WithdrawalRecord
  import opened RecordLaws
  import opened NoteMoves
  import opened WalletWorld
  import opened WalletLaws

  lemma {:induction false} RunKeepsInv(w: World, steps: seq<Step>)
    requires Inv(w) && PossibleRun(w, steps)
    ensures Inv(Run(w, steps))
  {
    if steps != [] {
      RunKeepsInv(w, steps[..|steps| - 1]);
      StepKeepsInv(Run(w, steps[..|steps| - 1]), steps[|steps| - 1]);
    }
  }

  /** Every state reached from a new wallet satisfies the invariant. */
  lemma ReachableIsSafe(steps: seq<Step>)
    requires PossibleRun(INITIAL, steps)
    ensures Inv(Run(INITIAL, steps))
  {
    RunKeepsInv(INITIAL, steps);
  }

  // --- Single ownership --------------------------------------------------------------

  ghost predicate LiveRecord(s: Store, n: NoteId) {
    n in s.records && s.records[n].state.Some? && s.records[n].state.value.id == n
  }

  ghost predicate ClosedRecord(s: Store, n: NoteId) {
    n in s.records && s.records[n].phase.ClosedPhase? && Erased(s.records[n])
  }

  /** The places of note n exclude each other, and one of them holds exactly a note that the
      vault issued; nothing holds private state of any other note. */
  ghost predicate InOnePlace(s: Store, vault: set<NoteId>, n: NoteId) {
    && (n in vault <==> Selects(s.runtime, n) || LiveRecord(s, n) || ClosedRecord(s, n) || IsArchived(s, n))
    && !(Selects(s.runtime, n) && n in s.records)
    && !(Selects(s.runtime, n) && IsArchived(s, n))
    && !(n in s.records && IsArchived(s, n))
    && !(LiveRecord(s, n) && ClosedRecord(s, n))
    && (forall k :: k in s.records && s.records[k].state.Some? && s.records[k].state.value.id == n ==> k == n)
    && (forall i, j ::
          0 <= i < |s.archive| && 0 <= j < |s.archive| && s.archive[i].note.id == n && s.archive[j].note.id == n
          ==> i == j)
  }

  lemma SafeIsInOnePlace(w: World, n: NoteId)
    requires Inv(w)
    ensures InOnePlace(w.store, w.vault, n)
  {
  }

  /** Each note the vault issued is in exactly one place: selected, in its own record,
      closed, or in one archive entry. */
  lemma EveryNoteHasOnePlace(steps: seq<Step>, n: NoteId)
    requires PossibleRun(INITIAL, steps)
    ensures InOnePlace(Run(INITIAL, steps).store, Run(INITIAL, steps).vault, n)
  {
    ReachableIsSafe(steps);
    SafeIsInOnePlace(Run(INITIAL, steps), n);
  }

  // --- Conservation --------------------------------------------------------------------

  /** The private state of note n, wherever it is live. */
  ghost function StateOf(s: Store, n: NoteId): Option<Note> {
    if Selects(s.runtime, n) then s.runtime.state
    else if n in s.records then s.records[n].state
    else None
  }

  /** Steps that take the state of note n out of its live place. */
  ghost predicate Retires(st: Step, n: NoteId) {
    || (st.MoveNote? && st.move.ArchiveNote? && st.move.note == n)
    || (st.RecordCall? && st.note == n && st.recOp.Update? && st.recOp.patch.Close?)
  }

  ghost predicate InstallsBalance(st: Step) {
    st.Commit? && st.slotOp.InstallResponse?
  }

  /** What one step does to the state of a note: it stays, or it is retired in one of the two
      ways, or it gets a new balance; a state that is gone stays gone. */
  ghost predicate Conserved(s: Store, st: Step, t: Store, n: NoteId) {
    if StateOf(s, n).None? then StateOf(t, n).None?
    else
      || StateOf(t, n) == StateOf(s, n)
      || (InstallsBalance(st) && Selects(s.runtime, n) && Selects(t.runtime, n))
      || (Retires(st, n) && st.MoveNote? && StateOf(t, n).None? && |t.archive| == |s.archive| + 1
          && t.archive[|s.archive|].note == StateOf(s, n).value)
      || (Retires(st, n) && st.RecordCall? && StateOf(t, n).None? && n in t.records && t.records[n].phase.ClosedPhase?)
  }

  lemma CommitConserves(w: World, o: SlotOp, h: Runtime, r: Runtime, n: NoteId)
    requires Inv(w) && Possible(w, Commit(o)) && Commits(w, o, h, r) && n in w.vault
    ensures Conserved(w.store, Commit(o), Committed(w, o, h, r).store, n)
  {
    HeldIsSafe(w, h);
    SlotKeepsNote(h, o, r);
  }

  /** The note that moves from the slot to a record, or the other way, keeps its state. */
  lemma CarriedConserves(s: Store, st: Step, t: Store, k: NoteId, n: NoteId)
    requires !(Selects(s.runtime, k) && k in s.records) && StateOf(t, k) == StateOf(s, k)
    requires forall x :: x != k ==> (x in t.records <==> x in s.records)
    requires forall x :: x != k && x in s.records && x in t.records ==> t.records[x] == s.records[x]
    requires forall x :: x != k ==> (Selects(s.runtime, x) <==> Selects(t.runtime, x))
    requires s.runtime.state.Some? && t.runtime.state.Some? ==> t.runtime.state == s.runtime.state
    ensures Conserved(s, st, t, n)
  {
    assert n != k ==> StateOf(t, n) == StateOf(s, n);
  }

  lemma RetiredConserves(s: Store, m: Move, t: Store, n: NoteId)
    requires m.ArchiveNote? && MoveNext(s, m) == Some(t) && (Selects(s.runtime, n) ==> n !in s.records)
    ensures Conserved(s, MoveNote(m), t, n)
  {
  }

  lemma RestoredConserves(s: Store, vault: set<NoteId>, m: Move, t: Store, n: NoteId)
    requires Owned(s, vault) && m.RestoreNote? && MoveNext(s, m) == Some(t)
    ensures Conserved(s, MoveNote(m), t, n)
  {
    CarriedConserves(s, MoveNote(m), t, m.note, n);
  }

  lemma DetachedConserves(s: Store, vault: set<NoteId>, m: Move, t: Store, n: NoteId)
    requires Owned(s, vault) && (m.EscapeStarted? || m.ClosedOnChain? || m.ParkNote?) && MoveNext(s, m) == Some(t)
    ensures Conserved(s, MoveNote(m), t, n)
  {
    CarriedConserves(s, MoveNote(m), t, m.note, n);
  }

  lemma TransferredConserves(s: Store, vault: set<NoteId>, m: Move, t: Store, n: NoteId)
    requires Owned(s, vault) && m.TransferNote? && MoveNext(s, m) == Some(t)
    ensures Conserved(s, MoveNote(m), t, n)
  {
    CarriedConserves(s, MoveNote(m), t, m.note, n);
  }

  lemma MoveConserves(s: Store, vault: set<NoteId>, m: Move, t: Store, n: NoteId)
    requires Owned(s, vault) && MoveNext(s, m) == Some(t)
    ensures Conserved(s, MoveNote(m), t, n)
  {
    match m
    case ArchiveNote(_, _, _) => RetiredConserves(s, m, t, n);
    case RestoreNote(_, _) => RestoredConserves(s, vault, m, t, n);
    case TransferNote(_, _, _, _) => TransferredConserves(s, vault, m, t, n);
    case _ => DetachedConserves(s, vault, m, t, n);
  }

  lemma RecordConserves(w: World, k: NoteId, o: RecOp, rec: Record, next: Record, n: NoteId)
    requires Inv(w) && Calls(w, k, o, rec, next)
    ensures Conserved(w.store, RecordCall(k, o), Recorded(w, k, o, rec, next).store, n)
  {
    RecFrame(rec, w.store.runtime, o, next);
  }

  lemma ReleaseConserves(s: Store, ref: Ref, unknown: bool, n: NoteId, t: Store)
    requires ReleaseSubmission(s, ref, unknown) == Some(t)
    ensures StateOf(t, n) == StateOf(s, n)
  {
  }

  /** Conservation, step by step: a live note keeps its exact state, except that a
      response installs its new balance, archiving moves that state to the archive, and
      the sanitizing update that closes its record erases it. Nothing brings it back. */
  lemma StepConserves(w: World, st: Step, n: NoteId)
    requires Inv(w) && Possible(w, st) && n in w.vault
    ensures Conserved(w.store, st, Next(w, st).store, n)
  {
    match st
    case Commit(o) =>
      if w.held.Some? && SlotNext(w.held.value, o).Some? {
        CommitConserves(w, o, w.held.value, SlotNext(w.held.value, o).value, n);
      }
    case MoveNote(m) =>
      var t := MoveNext(w.store, m);
      if t.Some? { MoveConserves(w.store, w.vault, m, t.value, n); }
    case RecordCall(k, o) =>
      if k in w.store.records && RecNext(w.store.records[k], w.store.runtime, o).Some? {
        RecordConserves(w, k, o, w.store.records[k], RecNext(w.store.records[k], w.store.runtime, o).value, n);
      }
    case ReleasePrompt(ref, unknown) =>
      var t := ReleaseSubmission(w.store, ref, unknown);
      if t.Some? { ReleaseConserves(w.store, ref, unknown, n, t.value); }
    case _ =>
  }

  /** Issued notes, marks and cancellations are never taken back. */
  lemma HistoryGrows(w: World, st: Step)
    ensures w.vault <= Next(w, st).vault && w.marked <= Next(w, st).marked
    ensures w.claims.cancelled <= Next(w, st).claims.cancelled
  {
  }

  /** Conservation over every run: without a retiring step the note stays live, without a
      balance update its state stays the same, and once retired it never comes back. */
  lemma {:induction false} RunConserves(w: World, steps: seq<Step>, n: NoteId)
    requires Inv(w) && PossibleRun(w, steps) && n in w.vault
    ensures n in Run(w, steps).vault
    ensures (StateOf(w.store, n).Some? && forall st :: st in steps ==> !Retires(st, n))
            ==> StateOf(Run(w, steps).store, n).Some?
    ensures (forall st :: st in steps ==> !Retires(st, n) && !InstallsBalance(st))
            ==> StateOf(Run(w, steps).store, n) == StateOf(w.store, n)
    ensures StateOf(w.store, n).None? ==> StateOf(Run(w, steps).store, n).None?
  {
    if steps != [] {
      var front, st := steps[..|steps| - 1], steps[|steps| - 1];
      assert st in steps && forall x :: x in front ==> x in steps;
      RunConserves(w, front, n);
      RunKeepsInv(w, front);
      StepConserves(Run(w, front), st, n);
      HistoryGrows(Run(w, front), st);
    }
  }

  // --- Clearance is irreversible ---------------------------------------------------------

  /** The commits that bind a note to mutual close: the durable intent, the plan, and
      recovery that finds the clearance reserved at the server. */
  predicate Reserves(o: SlotOp) {
    o.ReserveMutual? || o.RecoverReserved? || (o.CommitPlan? && o.mode.Mutual?)
  }

  ghost predicate SelectedAmong(s: Store, notes: set<NoteId>) {
    s.runtime.state.Some? && s.runtime.state.value.id in notes
  }

  lemma ReserveMarks(w: World, o: SlotOp, h: Runtime, r: Runtime)
    requires Inv(w) && Commits(w, o, h, r) && Reserves(o)
    ensures SelectedAmong(w.store, Committed(w, o, h, r).marked)
  {
    HeldIsSafe(w, h);
    assert Marked(r);
  }

  ghost predicate NoJournal(r: Runtime) {
    r.journal.None? && forall f :: SlotNext(r, CommitJournal(f)).None?
  }

  /** Every live location of note n carries the withdrawal-only mark, and no spend
      journal exists for it or can be written for it. */
  ghost predicate WithdrawalOnlyEverywhere(w: World, n: NoteId) {
    && (n in w.store.records && w.store.records[n].state.Some? ==> w.store.records[n].clearance)
    && (Selects(w.store.runtime, n) ==> Marked(w.store.runtime) && w.store.runtime.journal.None?)
    && (w.held.Some? && Selects(w.held.value, n) ==> NoJournal(w.held.value))
  }

  lemma MarkedIsWithdrawalOnly(w: World, n: NoteId)
    requires Inv(w) && n in w.marked
    ensures WithdrawalOnlyEverywhere(w, n)
  {
    if w.held.Some? { HeldIsSafe(w, w.held.value); }
  }

  /** Clearance is irreversible: from the moment a note carries the mark, every
      continuation of the run leaves it marked wherever it lives. */
  lemma {:induction false} ClearanceIsIrreversible(w: World, steps: seq<Step>, n: NoteId)
    requires Inv(w) && PossibleRun(w, steps) && n in w.marked
    ensures n in Run(w, steps).marked && WithdrawalOnlyEverywhere(Run(w, steps), n)
  {
    RunKeepsInv(w, steps);
    if steps != [] {
      ClearanceIsIrreversible(w, steps[..|steps| - 1], n);
      HistoryGrows(Run(w, steps[..|steps| - 1]), steps[|steps| - 1]);
    }
    MarkedIsWithdrawalOnly(Run(w, steps), n);
  }

  // --- Slot exclusion ----------------------------------------------------------------------

  ghost predicate Exclusive(r: Runtime) {
    !(r.journal.Some? && r.plan.Some?) && !(r.state.Some? && r.deposit.Some?)
  }

  ghost predicate ExclusiveWorld(w: World) {
    Exclusive(w.store.runtime) && (w.held.Some? ==> Exclusive(w.held.value))
  }

  /** No reachable state has a spend journal beside a prepared withdrawal, nor note state
      beside a pending deposit, in the stored slot or in a locked section's copy. */
  lemma SlotExclusion(steps: seq<Step>)
    requires PossibleRun(INITIAL, steps)
    ensures ExclusiveWorld(Run(INITIAL, steps))
  {
    ReachableIsSafe(steps);
  }

  /** The deposit of the slot keeps its secret and its operation, or it is dropped untouched,
      or its own note is installed in its place. */
  ghost predicate SecretKept(r: Runtime, st: Step, q: Runtime) {
    r.deposit.Some? ==>
      var d := r.deposit.value;
      || (q.deposit.Some? && q.deposit.value.secret == d.secret && q.deposit.value.op == d.op)
      || (st.Commit? && st.slotOp.DropDeposit? && q.deposit.None? && Untouched(d))
      || (st.Commit? && st.slotOp.ConfirmDeposit? && q.deposit.None? && q.state == Some(Note(d.note, d.amount)))
  }

  lemma SlotKeepsSecret(r: Runtime, o: SlotOp, next: Runtime)
    requires SlotOk(r) && SlotNext(r, o) == Some(next)
    ensures SecretKept(r, Commit(o), next)
  {
  }

  lemma MoveKeepsSecret(s: Store, m: Move, t: Store)
    requires SlotOk(s.runtime) && s.runtime.deposit.Some? && MoveNext(s, m) == Some(t)
    ensures t.runtime.deposit == s.runtime.deposit
  {
  }

  /** A deposit secret leaves the slot only when its log shows no open claim and no hash and
      its phase is `prepared`, or when its own note is installed in its place. */
  lemma SecretIsKept(w: World, st: Step)
    requires Inv(w)
    ensures SecretKept(w.store.runtime, st, Next(w, st).store.runtime)
  {
    match st
    case Commit(o) =>
      if w.held.Some? && SlotNext(w.held.value, o).Some? {
        HeldIsSafe(w, w.held.value);
        SlotKeepsSecret(w.held.value, o, SlotNext(w.held.value, o).value);
      }
    case MoveNote(m) =>
      if w.store.runtime.deposit.Some? && MoveNext(w.store, m).Some? {
        MoveKeepsSecret(w.store, m, MoveNext(w.store, m).value);
      }
    case _ =>
  }

  // --- Closed is absorbing -------------------------------------------------------------------

  lemma MoveKeepsClosed(s: Store, vault: set<NoteId>, m: Move, n: NoteId, t: Store)
    requires Owned(s, vault) && ClosedRecord(s, n) && MoveNext(s, m) == Some(t)
    ensures ClosedRecord(t, n)
  {
  }

  lemma RecordKeepsClosed(w: World, k: NoteId, o: RecOp, rec: Record, next: Record, n: NoteId)
    requires Inv(w) && ClosedRecord(w.store, n) && Calls(w, k, o, rec, next)
    ensures ClosedRecord(Recorded(w, k, o, rec, next).store, n)
  {
    if k == n {
      ClosedStep(rec, Call(w.store.runtime, o), next);
      RecKeepsOk(rec, w.store.runtime, o, next);
    }
  }

  lemma ReleaseKeepsClosed(s: Store, ref: Ref, unknown: bool, n: NoteId, t: Store)
    requires ClosedRecord(s, n) && ReleaseSubmission(s, ref, unknown) == Some(t)
    ensures ClosedRecord(t, n)
  {
  }

  lemma StepKeepsClosed(w: World, st: Step, n: NoteId)
    requires Inv(w) && ClosedRecord(w.store, n)
    ensures ClosedRecord(Next(w, st).store, n)
  {
    match st
    case Commit(o) =>
    case MoveNote(m) =>
      var t := MoveNext(w.store, m);
      if t.Some? { MoveKeepsClosed(w.store, w.vault, m, n, t.value); }
    case RecordCall(k, o) =>
      if k in w.store.records && RecNext(w.store.records[k], w.store.runtime, o).Some? {
        RecordKeepsClosed(w, k, o, w.store.records[k], RecNext(w.store.records[k], w.store.runtime, o).value, n);
      }
    case ReleasePrompt(ref, unknown) =>
      var t := ReleaseSubmission(w.store, ref, unknown);
      if t.Some? { ReleaseKeepsClosed(w.store, ref, unknown, n, t.value); }
    case _ =>
  }

  /** A closed record stays closed and erased in every continuation: neither another tab,
      nor a move, nor a late prompt reopens it or puts private material back. */
  lemma {:induction false} ClosedForever(w: World, steps: seq<Step>, n: NoteId)
    requires Inv(w) && PossibleRun(w, steps) && ClosedRecord(w.store, n)
    ensures ClosedRecord(Run(w, steps).store, n) && !Selects(Run(w, steps).store.runtime, n)
  {
    RunKeepsInv(w, steps);
    if steps != [] {
      ClosedForever(w, steps[..|steps| - 1], n);
      RunKeepsInv(w, steps[..|steps| - 1]);
      StepKeepsClosed(Run(w, steps[..|steps| - 1]), steps[|steps| - 1], n);
    }
  }
}
