/** The durable stores as an object that its transactions update in place, and the tab
    object that reads, changes and commits the selected slot under the wallet lock. */
module WalletStore {
  import opened WalletTypes
  import opened AttemptLog
  import opened SelectedSlot
  import opened WithdrawalRecord
  import opened RecordLaws
  import opened NoteMoves

  /** Splits a history into terminal and unresolved attempts, and keeps the newest 32
      terminal ones. */
  method RetainAttemptHistory(attempts: seq<Late>) returns (kept: seq<Late>)
    ensures kept == Retain(attempts)
    ensures Unresolved(kept) == Unresolved(attempts)
  {
    var terminal, unresolved := [], [];
    for i := 0 to |attempts|
      invariant terminal == Terminal(attempts[..i]) && unresolved == Unresolved(attempts[..i])
    {
      assert attempts[..i + 1][..i] == attempts[..i];
      if IsTerminal(attempts[i].status) {
        terminal := terminal + [attempts[i]];
      } else {
        unresolved := unresolved + [attempts[i]];
      }
    }
    assert attempts[..|attempts|] == attempts;
    RetainKeepsUnresolved(attempts);
    if |terminal| > TERMINAL_LIMIT { terminal := terminal[|terminal| - TERMINAL_LIMIT..]; }
    kept := terminal + unresolved;
  }

  /** Settles attempt k and ends every other unresolved attempt of its note. */
  method SettleAttempts(attempts: seq<Late>, k: nat, status: LateStatus, others: LateStatus) returns (next: seq<Late>)
    requires k < |attempts|
    ensures next == Settle(attempts, k, status, others)
  {
    next := [];
    for i := 0 to |attempts|
      invariant |next| == i && next == Settle(attempts, k, status, others)[..i]
    {
      var entry := attempts[i];
      if i == k {
        entry := entry.(status := status);
      } else if entry.note == attempts[k].note && !IsTerminal(entry.status) {
        entry := entry.(status := others);
      }
      next := next + [entry];
    }
  }

  /** The late attempts after a transfer of note n: all of its attempts have ended. */
  method SettleHistory(s: Store, n: NoteId, k: nat, to: Destination) returns (late: seq<Late>)
    requires k < |s.runtime.late| && s.runtime.late[k].note == n
    ensures late == SettledLate(s, n, k, to)
    ensures Unresolved(late) == OfOthers(Unresolved(s.runtime.late), n)
  {
    var status := if to.phase.ClosedUnconfirmed? then ClosedLate else Detached;
    var others := if Aggregates(s, n, to) then Detached else Superseded;
    var settled := SettleAttempts(s.runtime.late, k, status, others);
    late := RetainAttemptHistory(settled);
    TransferEndsAttempts(s, n, k, to);
  }

  lemma TransferShape(s: Store, op: OpId, hash: Hash, n: NoteId, to: Destination, k: nat, rec: Record)
    requires Transferable(s, op, hash, n, to) == Some(k) && rec == TransferredRecord(s, n, s.runtime.late[k], to)
    ensures Transfer(s, op, hash, n, to) == Some(AfterTransfer(s, n, rec, SettledLate(s, n, k, to)))
  {
  }

  class BrowserWalletStore {
    var runtime: Runtime
    var withdrawals: map<NoteId, Record>
    var archives: seq<Archived>

    function View(): Store
      reads this
    {
      Store(runtime, withdrawals, archives)
    }

    constructor ()
      ensures View() == Store(EMPTY_RUNTIME, map[], [])
    {
      runtime, withdrawals, archives := EMPTY_RUNTIME, map[], [];
    }

    method EmptySlot()
      modifies this`runtime
      ensures runtime == Emptied(old(runtime))
    {
      runtime := runtime.(state := None, journal := None, deposit := None, plan := None, lease := false);
    }

    /** Puts the record and clears the slot in one transaction. */
    method MoveToRecord(n: NoteId, rec: Record)
      modifies this`runtime, this`withdrawals
      ensures View() == AfterDetach(old(View()), n, rec)
    {
      withdrawals := withdrawals[n := rec];
      EmptySlot();
    }

    method ArchiveWallet(n: NoteId, expiry: bool, verified: bool) returns (ok: bool)
      modifies this
      ensures Archive(old(View()), n, expiry, verified) == if ok then Some(View()) else None
      ensures !ok ==> View() == old(View())
    {
      if !Selects(runtime, n) { return false; }
      if expiry && !verified { return false; }
      var entry := Archived(runtime.state.value, None, None, None, false);
      if expiry {
        entry := entry.(journal := runtime.journal, plan := runtime.plan, deposit := runtime.deposit,
                        lease := runtime.lease);
      }
      archives := archives + [entry];
      EmptySlot();
      return true;
    }

    method DetachEscapeWithdrawal(n: NoteId, destination: Option<Address>, challenged: bool, chain: ChainStatus,
                                  hash: Option<Hash>, moved: bool) returns (ok: bool)
      modifies this
      ensures DetachEscape(old(View()), n, destination, challenged, chain, hash, moved) == if ok then Some(View())
          else None
      ensures !ok ==> View() == old(View())
    {
      if !Selects(runtime, n) || Busy(runtime) { return false; }
      MoveToRecord(n, EscapeRecord(runtime, destination, challenged, chain, hash, moved));
      return true;
    }

    method DetachClosedWithdrawal(n: NoteId, mode: Mode, destination: Option<Address>, hash: Option<Hash>,
                                  clearance: bool)
      returns (ok: bool)
      modifies this
      ensures DetachClosed(old(View()), n, mode, destination, hash, clearance) == if ok then Some(View()) else None
      ensures !ok ==> View() == old(View())
    {
      if !Selects(runtime, n) || Busy(runtime) { return false; }
      var marked := clearance;
      if runtime.plan.Some? && (runtime.plan.value.clearance || runtime.plan.value.mode.Mutual?) { marked := true; }
      MoveToRecord(n, RecordFromSlot(runtime, mode, destination, ClosedUnconfirmed, ChainUnknown, marked, hash, true));
      return true;
    }

    method ParkWithdrawal(n: NoteId) returns (ok: bool)
      modifies this
      ensures Park(old(View()), n) == if ok then Some(View()) else None
      ensures !ok ==> View() == old(View())
    {
      if !Selects(runtime, n) || runtime.plan.None? || Busy(runtime) { return false; }
      var p := runtime.plan.value;
      if !p.mode.Mutual? && !p.clearance { return false; }
      if !(p.wal.phase.Reserving? || p.wal.phase.Prepared?) || p.wal.sub.Some? || p.wal.hashes != [] { return false; }
      MoveToRecord(n, RecordFromSlot(runtime, p.mode, p.destination, ParkedPhase, ChainUnknown,
                                  p.clearance || p.mode.Mutual?, None, false));
      return true;
    }

    method RestoreWithdrawal(n: NoteId, expectedRevision: nat) returns (ok: bool)
      modifies this
      ensures Restore(old(View()), n, expectedRevision) == if ok then Some(View()) else None
      ensures !ok ==> View() == old(View())
    {
      if n !in withdrawals || !Restorable(View(), withdrawals[n], expectedRevision) { return false; }
      var rec := withdrawals[n];
      EmptySlot();
      runtime := runtime.(state := rec.state, plan := RestoredPlan(rec));
      withdrawals := withdrawals - {n};
      return true;
    }

    /** The record and the slot are written by one transaction, after every attempt of the
        note has been collected. */
    method TransferLateWithdrawalAttempt(op: OpId, hash: Hash, n: NoteId, to: Destination) returns (ok: bool)
      modifies this
      ensures Transfer(old(View()), op, hash, n, to) == if ok then Some(View()) else None
      ensures !ok ==> View() == old(View())
    {
      var before := View();
      var k := Transferable(before, op, hash, n, to);
      if k.None? { return false; }
      var selected := Selects(runtime, n);
      var rec := TransferredRecord(before, n, runtime.late[k.value], to);
      TransferShape(before, op, hash, n, to, k.value, rec);
      var late := SettleHistory(before, n, k.value, to);
      WriteTransfer(n, rec, selected, late);
      return true;
    }

    method WriteTransfer(n: NoteId, rec: Record, selected: bool, late: seq<Late>)
      modifies this`runtime, this`withdrawals
      ensures withdrawals == old(withdrawals)[n := rec]
      ensures runtime == if selected then EMPTY_RUNTIME.(deposit := old(runtime).deposit, late := late)
          else old(runtime).(late := late)
    {
      withdrawals := withdrawals[n := rec];
      if selected {
        runtime := runtime.(state := None, journal := None, plan := None, lease := false);
      }
      runtime := runtime.(late := late);
    }

    method ReleaseStartSubmission(ref: Ref, unknown: bool) returns (ok: bool)
      modifies this
      ensures ReleaseSubmission(old(View()), ref, unknown) == if ok then Some(View()) else None
      ensures !ok ==> View() == old(View())
    {
      ok := false;
      if runtime.plan.Some? && PromptMatches(runtime.plan.value, ref, unknown) {
        runtime := runtime.(plan := Some(ReleasedPlan(runtime.plan.value, unknown)));
        ok := true;
      }
      if ref.note in withdrawals && RecordPromptMatches(withdrawals[ref.note], ref, unknown) {
        withdrawals := withdrawals[ref.note := ReleasedRecord(withdrawals[ref.note], ref, unknown)];
        ok := true;
      }
    }

    /** One transaction on one background record; it reads the slot and writes the record.
        Other records stay; a well-formed record stays well formed, with its note and mark,
        and keeps its private state unless this is the sanitizing close. */
    method MutateWithdrawal(n: NoteId, o: RecOp) returns (ok: bool)
      modifies this`withdrawals
      ensures ok == (n in old(withdrawals) && RecNext(old(withdrawals)[n], runtime, o).Some?)
      ensures withdrawals.Keys == old(withdrawals).Keys
      ensures forall k :: k in withdrawals && (!ok || k != n) ==> withdrawals[k] == old(withdrawals)[k]
      ensures ok ==> RecNext(old(withdrawals)[n], runtime, o) == Some(withdrawals[n])
      ensures ok && RecOk(old(withdrawals)[n]) ==>
                && RecOk(withdrawals[n]) && withdrawals[n].note == old(withdrawals)[n].note
                && withdrawals[n].clearance == old(withdrawals)[n].clearance
                && (withdrawals[n].state == old(withdrawals)[n].state
                    || (o.Update? && o.patch.Close? && withdrawals[n].phase.ClosedPhase?))
    {
      if n !in withdrawals { return false; }
      var rec := withdrawals[n];
      var next := RecNext(rec, runtime, o);
      if next.None? { return false; }
      if RecOk(rec) {
        RecKeepsOk(rec, runtime, o, RecNext(rec, runtime, o).value);
        RecFrame(rec, runtime, o, RecNext(rec, runtime, o).value);
      }
      withdrawals := withdrawals[n := next.value];
      return true;
    }
  }

  /** One tab: `runtime` is its copy of the slot, current only inside a locked section. */
  class BrowserWalletRuntime {
    var store: BrowserWalletStore
    var runtime: Runtime

    constructor (s: BrowserWalletStore)
      ensures store == s && runtime == s.runtime
    {
      store, runtime := s, s.runtime;
    }

    method Reload()
      modifies this`runtime
      ensures runtime == store.runtime
    {
      runtime := store.runtime;
    }

    /** A locked section: reload, compute, commit. It either throws, and nothing is
        written, or copy and store both hold the result. Slot exclusion and the
        withdrawal-only mark survive it, and so does the selected note. */
    method LockedSection(o: SlotOp) returns (ok: bool)
      modifies this`runtime, store`runtime
      ensures ok == SlotNext(old(store.runtime), o).Some?
      ensures runtime == store.runtime
      ensures !ok ==> store.runtime == old(store.runtime)
      ensures ok ==> SlotNext(old(store.runtime), o) == Some(store.runtime)
      ensures ok && SlotOk(old(store.runtime)) && LateAgrees(old(store.runtime)) ==>
                SlotOk(store.runtime) && (Marked(old(store.runtime)) ==> Marked(store.runtime))
      ensures ok && old(store.runtime).state.Some? ==>
                store.runtime.state.Some? && store.runtime.state.value.id == old(store.runtime).state.value.id
    {
      Reload();
      var next := SlotNext(runtime, o);
      if next.None? { return false; }
      if SlotOk(runtime) && LateAgrees(runtime) { SlotKeepsOk(runtime, o, SlotNext(runtime, o).value); }
      SlotKeepsNote(runtime, o, SlotNext(runtime, o).value);
      store.runtime := next.value;
      runtime := next.value;
      return true;
    }
  }
}
