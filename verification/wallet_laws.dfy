/** Safety of whole wallet runs: single ownership and conservation of notes, slot
    exclusion, irreversible clearance, and the finality of a close. */
module WalletLaws {
  import opened WalletTypes
  import opened AttemptLog
  import opened SelectedSlot
  import opened WithdrawalRecord
  import opened RecordLaws
  import opened NoteMoves
  import opened WalletWorld

  /** A locked section's copy differs from the stored slot at most by a wallet claim
      that was released meanwhile. */
  ghost predicate Agree(h: Runtime, r: Runtime) {
    && h == r.(plan := h.plan)
    && (h.plan.Some? <==> r.plan.Some?)
    && (h.plan.Some? ==> h.plan.value.note == r.plan.value.note && h.plan.value.mode == r.plan.value.mode
                         && h.plan.value.clearance == r.plan.value.clearance
                         && h.plan.value.wal.hashes == r.plan.value.wal.hashes)
  }

  ghost predicate SlotSafe(w: World) {
    SlotOk(w.store.runtime) && (w.held.Some? ==> Agree(w.held.value, w.store.runtime))
  }

  ghost predicate IsArchived(s: Store, n: NoteId) {
    exists a :: a in s.archive && a.note.id == n
  }

  /** Every record is well formed and keyed by its note; the selected note has no record;
      an archived note is neither selected nor recorded, and is archived once. */
  ghost predicate Owned(s: Store, vault: set<NoteId>) {
    && (forall n :: n in s.records ==> n in vault && s.records[n].note == n && RecOk(s.records[n]))
    && (s.runtime.state.Some? ==> s.runtime.state.value.id in vault && s.runtime.state.value.id !in s.records)
    && (forall a :: a in s.archive ==> a.note.id in vault && a.note.id !in s.records && !Selects(s.runtime, a.note.id))
    && (forall i, j :: 0 <= i < j < |s.archive| ==> s.archive[i].note.id != s.archive[j].note.id)
  }

  /** Every note the vault ever issued to this wallet is selected, recorded or archived. */
  ghost predicate Accounted(s: Store, vault: set<NoteId>) {
    forall n :: n in vault ==> Selects(s.runtime, n) || n in s.records || IsArchived(s, n)
  }

  ghost predicate MarksKept(s: Store, marked: set<NoteId>) {
    && Carried(s) <= marked
    && (s.runtime.state.Some? && s.runtime.state.value.id in marked ==> Marked(s.runtime))
    && (forall n :: n in s.records && n in marked && s.records[n].state.Some? ==> s.records[n].clearance)
  }

  ghost predicate IsMarking(clearance: bool, mode: Mode) {
    clearance || mode.Mutual?
  }

  /** Every reference and late attempt that claims the mark belongs to a marked note. */
  ghost predicate PromptsMarked(w: World) {
    && (forall ref :: ref in w.refs && IsMarking(ref.clearance, ref.mode) ==> ref.note in w.marked)
    && (forall e :: e in w.store.runtime.late && IsMarking(e.clearance, e.mode) ==> e.note in w.marked)
  }

  ghost predicate Inv(w: World) {
    && SlotSafe(w)
    && Owned(w.store, w.vault)
    && Accounted(w.store, w.vault)
    && w.marked <= w.vault
    && MarksKept(w.store, w.marked)
    && PromptsMarked(w)
  }

  // --- Commits of a locked section --------------------------------------------------

  lemma HeldIsSafe(w: World, h: Runtime)
    requires Inv(w) && w.held == Some(h)
    ensures SlotOk(h) && LateAgrees(h) && (Marked(h) <==> Marked(w.store.runtime))
    ensures h.state == w.store.runtime.state && h.late == w.store.runtime.late && h.deposit == w.store.runtime.deposit
  {
    forall e | e in h.late && Selects(h, e.note) && IsMarking(e.clearance, e.mode) ensures Marked(h) {
      assert e in w.store.runtime.late;
    }
  }

  ghost predicate LateMarked(late: seq<Late>, marked: set<NoteId>) {
    forall e :: e in late && IsMarking(e.clearance, e.mode) ==> e.note in marked
  }

  lemma RetainKeepsMarked(late: seq<Late>, marked: set<NoteId>)
    requires LateMarked(late, marked)
    ensures LateMarked(Retain(late), marked)
  {
    RetainKeepsUnresolved(late);
  }

  lemma RememberKeepsMarked(late: seq<Late>, ref: Ref, hash: Hash, sender: Option<Sender>, marked: set<NoteId>)
    requires LateMarked(late, marked)
    requires IsMarking(ref.clearance, ref.mode) ==> ref.note in marked
    ensures LateMarked(Retain(WithoutLate(late, ref.op, hash) + [LateOf(ref, hash, sender)]), marked)
  {
    RetainKeepsMarked(WithoutLate(late, ref.op, hash) + [LateOf(ref, hash, sender)], marked);
  }

  lemma UpdateKeepsMarked(late: seq<Late>, k: nat, status: LateStatus, marked: set<NoteId>)
    requires LateMarked(late, marked) && k < |late|
    ensures LateMarked(Retain(late[k := late[k].(status := status)]), marked)
  {
    assert late[k] in late;
    RetainKeepsMarked(late[k := late[k].(status := status)], marked);
  }

  lemma SettleKeepsMarked(late: seq<Late>, k: nat, status: LateStatus, others: LateStatus, marked: set<NoteId>)
    requires LateMarked(late, marked) && k < |late|
    ensures LateMarked(Retain(Settle(late, k, status, others)), marked)
  {
    var settled := Settle(late, k, status, others);
    forall e | e in settled && IsMarking(e.clearance, e.mode) ensures e.note in marked {
      var i :| 0 <= i < |late| && settled[i] == e;
      assert late[i] in late;
    }
    RetainKeepsMarked(settled, marked);
  }

  ghost predicate ReportMarked(o: SlotOp, marked: set<NoteId>) {
    o.RememberTx? && IsMarking(o.ref.clearance, o.ref.mode) ==> o.ref.note in marked
  }

  /** A late attempt that claims the mark was there before or reports a marked reference. */
  lemma CommitKeepsLate(r: Runtime, o: SlotOp, marked: set<NoteId>)
    requires LateMarked(r.late, marked) && ReportMarked(o, marked)
    ensures LateMarked(LateAfter(r, o), marked)
  {
    match o
    case RememberTx(hash, ref, meta) => RememberKeepsMarked(r.late, ref, hash, ReportedSender(r, meta), marked);
    case UpdateLate(op, hash, status, expectedStatus) =>
      var k := FindLate(r.late, op, hash);
      if k.Some? { UpdateKeepsMarked(r.late, k.value, status, marked); }
    case ChallengeLate(op, hash, note, backgroundOwns) =>
      var k := FindLate(r.late, op, hash);
      if k.Some? { SettleKeepsMarked(r.late, k.value, Challenged, Superseded, marked); }
    case _ =>
  }

  /** Writing a slot that holds the same note, or a newly issued one where there was
      none, and that drops no mark, is safe. */
  lemma SlotWriteKeepsInv(w: World, r: Runtime, issued: set<NoteId>, v: World)
    requires Inv(w) && SlotOk(r) && LateMarked(r.late, w.marked)
    requires issued !! w.vault
    requires if issued == {} then
               && (r.state.Some? <==> w.store.runtime.state.Some?)
               && (r.state.Some? ==> r.state.value.id == w.store.runtime.state.value.id)
               && (Marked(w.store.runtime) ==> Marked(r))
             else r.state.Some? && w.store.runtime.state.None? && issued == {r.state.value.id}
    requires v.store == w.store.(runtime := r) && v.held == Some(r)
    requires v.vault == w.vault + issued && v.marked == w.marked + Carried(v.store)
    requires forall ref :: ref in v.refs && IsMarking(ref.clearance, ref.mode) ==> ref.note in v.marked
    ensures Inv(v)
  {
    assert forall n :: n in w.vault ==> (Selects(w.store.runtime, n) ==> Selects(r, n));
    assert Carried(v.store) <= w.marked + (if Marked(r) then {r.state.value.id} else {}) by {
      assert forall n :: n in v.store.records ==> n in w.store.records;
    }
  }

  /** A claim hands out a marked reference only for a note that carries the mark. */
  lemma SlotRefsMarked(r: Runtime, o: SlotOp, ref: Ref)
    requires SlotOk(r) && ref in SlotRefs(r, o) && IsMarking(ref.clearance, ref.mode)
    ensures Marked(r) && ref.note == r.state.value.id
  {
  }

  lemma CommitKeepsInv(w: World, o: SlotOp, h: Runtime, r: Runtime)
    requires Inv(w) && Possible(w, Commit(o)) && Commits(w, o, h, r)
    ensures Inv(Committed(w, o, h, r))
  {
    HeldIsSafe(w, h);
    SlotKeepsOk(h, o, r);
    SlotKeepsNote(h, o, r);
    CommitKeepsLate(h, o, w.marked);
    LateIsAfter(h, o, r);
    var v := Committed(w, o, h, r);
    forall ref | ref in v.refs && IsMarking(ref.clearance, ref.mode) ensures ref.note in v.marked {
      if ref in SlotRefs(r, o) { SlotRefsMarked(r, o, ref); }
    }
    SlotWriteKeepsInv(w, r, if o.ConfirmDeposit? then {o.note} else {}, v);
  }

  // --- Moves -------------------------------------------------------------------------

  /** Moving the selected note into a record that keeps its state and mark is safe. */
  lemma SlotToRecordKeepsInv(w: World, rec: Record, late: seq<Late>, v: World)
    requires Inv(w) && w.store.runtime.state.Some? && w.store.runtime.deposit.None?
    requires RecOk(rec) && rec.state == w.store.runtime.state && rec.note == rec.state.value.id
    requires Marked(w.store.runtime) ==> rec.clearance
    requires LateMarked(late, w.marked)
    requires v.store == w.store.(runtime := EMPTY_RUNTIME.(late := late), records := w.store.records[rec.note := rec])
    requires v.held == Some(v.store.runtime) && v.vault == w.vault && v.refs == w.refs
    requires v.marked == w.marked + Carried(v.store)
    ensures Inv(v)
  {
    assert Carried(v.store) <= w.marked + (if rec.clearance then {rec.note} else {});
  }

  /** Rewriting a record so that it keeps its note and mark, and its state unless it is
      closed, is safe; the slot may at most lose late attempts. */
  lemma RecordWriteKeepsOwned(s: Store, t: Store, n: NoteId, rec: Record, vault: set<NoteId>)
    requires Owned(s, vault) && Accounted(s, vault) && n in s.records && RecOk(rec) && rec.note == n
    requires t.runtime.state == s.runtime.state && t.records == s.records[n := rec] && t.archive == s.archive
    ensures Owned(t, vault) && Accounted(t, vault)
  {
    assert forall x :: IsArchived(s, x) ==> IsArchived(t, x);
  }

  lemma RecordWriteKeepsMarks(s: Store, t: Store, n: NoteId, rec: Record, marked: set<NoteId>)
    requires MarksKept(s, marked) && n in s.records && t.records == s.records[n := rec]
    requires t.runtime.state == s.runtime.state && (Marked(s.runtime) <==> Marked(t.runtime))
    requires s.records[n].clearance ==> rec.clearance
    requires rec.state.Some? ==> s.records[n].state.Some?
    requires !Selects(s.runtime, n)
    ensures MarksKept(t, marked + Carried(t))
    ensures Carried(t) <= marked + {n}
  {
  }

  lemma RecordWriteKeepsInv(w: World, n: NoteId, rec: Record, late: seq<Late>, v: World)
    requires Inv(w) && n in w.store.records
    requires RecOk(rec) && rec.note == n && LateMarked(late, w.marked)
    requires w.store.records[n].clearance ==> rec.clearance
    requires rec.state.Some? ==> w.store.records[n].state.Some?
    requires v.store == w.store.(runtime := w.store.runtime.(late := late), records := w.store.records[n := rec])
    requires v.held == Some(v.store.runtime) || (v.held == w.held && late == w.store.runtime.late)
    requires v.vault == w.vault && v.marked == w.marked + Carried(v.store)
    requires forall ref :: ref in v.refs && IsMarking(ref.clearance, ref.mode) ==> ref.note in v.marked
    ensures Inv(v)
  {
    RecordWriteKeepsOwned(w.store, v.store, n, rec, w.vault);
    RecordWriteKeepsMarks(w.store, v.store, n, rec, w.marked);
    assert late == w.store.runtime.late ==> v.store.runtime == w.store.runtime;
  }

  lemma ArchiveKeepsInv(w: World, n: NoteId, expiry: bool, verified: bool, v: World, t: Store)
    requires Inv(w) && Archive(w.store, n, expiry, verified) == Some(t)
    requires v.store == t
    requires v.held == Some(v.store.runtime) && v.vault == w.vault && v.refs == w.refs
    requires v.marked == w.marked + Carried(v.store)
    ensures Inv(v)
  {
    var a := v.store.archive[|v.store.archive| - 1];
    assert v.store.archive == w.store.archive + [a] && a.note == w.store.runtime.state.value;
    assert a in v.store.archive && IsArchived(v.store, n);
    assert forall x :: IsArchived(w.store, x) ==> IsArchived(v.store, x) by {
      forall x | IsArchived(w.store, x) ensures IsArchived(v.store, x) {
        var b :| b in w.store.archive && b.note.id == x;
        assert b in v.store.archive;
      }
    }
  }

  lemma RestoreKeepsInv(w: World, n: NoteId, expectedRevision: nat, v: World, t: Store)
    requires Inv(w) && Restore(w.store, n, expectedRevision) == Some(t)
    requires v.store == t
    requires v.held == Some(v.store.runtime) && v.vault == w.vault && v.refs == w.refs
    requires v.marked == w.marked + Carried(v.store)
    ensures Inv(v)
  {
    assert forall x :: x in w.store.records ==> x in v.store.records || x == n;
    assert forall x :: IsArchived(w.store, x) ==> IsArchived(v.store, x);
    assert w.store.records[n].clearance ==> Marked(v.store.runtime);
  }

  lemma FreshRecordOk(r: Runtime, mode: Mode, destination: Option<Address>, phase: Phase, chain: ChainStatus,
                      clearance: bool, hash: Option<Hash>, moved: bool)
    requires SlotOk(r) && r.state.Some?
    requires !phase.ClosedPhase? && !phase.AwaitingPhase? && !phase.AmbiguousPhase?
    requires Marked(r) ==> clearance
    ensures RecOk(RecordFromSlot(r, mode, destination, phase, chain, clearance, hash, moved))
  {
  }

  lemma TravellingPlanFits(s: Store, n: NoteId, e: Late, to: Destination)
    requires SourcePlan(s, n).Some? ==> MutualIsMarked(SourcePlan(s, n).value)
    ensures TravellingPlan(s, n, e, to).Some? <==> SourcePlan(s, n).Some?
    ensures TravellingPlan(s, n, e, to).Some? ==>
              var p, q := SourcePlan(s, n).value, TravellingPlan(s, n, e, to).value;
              q.mode == p.mode && q.clearance == p.clearance && q.note == p.note && q.proved == p.proved && q.op == p.op
  {
  }

  lemma TransferredRecordOk(s: Store, n: NoteId, e: Late, to: Destination)
    requires SlotOk(s.runtime) && (Selects(s.runtime, n) || BackgroundOwns(s, n))
    requires n in s.records ==> RecOk(s.records[n]) && s.records[n].note == n && !Selects(s.runtime, n)
    requires to.phase.PendingPhase? || to.phase.SubmittedUnconfirmed? || to.phase.ChallengedUnconfirmed?
        || to.phase.ClosedUnconfirmed?
    ensures var rec := TransferredRecord(s, n, e, to);
            && RecOk(rec) && rec.note == n
            && rec.state == (if n in s.records then s.records[n].state else s.runtime.state)
            && (n in s.records && s.records[n].clearance ==> rec.clearance)
            && (Selects(s.runtime, n) && Marked(s.runtime) ==> rec.clearance)
  {
    TravellingPlanFits(s, n, e, to);
  }

  lemma TransferKeepsInv(w: World, m: Move, v: World, t: Store)
    requires Inv(w) && m.TransferNote? && MoveNext(w.store, m) == Some(t)
    requires v.store == t
    requires v.held == Some(v.store.runtime) && v.vault == w.vault && v.refs == w.refs
    requires v.marked == w.marked + Carried(v.store)
    ensures Inv(v)
  {
    var k, e, rec, late := TransferParts(w.store, m, t);
    TransferredRecordOk(w.store, m.note, e, m.to);
    SettleKeepsMarked(w.store.runtime.late, k, if m.to.phase.ClosedUnconfirmed? then ClosedLate else Detached,
                      if Aggregates(w.store, m.note, m.to) then Detached else Superseded, w.marked);
    if Selects(w.store.runtime, m.note) {
      SlotToRecordKeepsInv(w, rec, late, v);
    } else {
      RecordWriteKeepsInv(w, m.note, rec, late, v);
    }
  }

  lemma DetachKeepsInv(w: World, m: Move, v: World, t: Store)
    requires Inv(w) && (m.EscapeStarted? || m.ClosedOnChain? || m.ParkNote?) && MoveNext(w.store, m) == Some(t)
    requires v.store == t
    requires v.held == Some(v.store.runtime) && v.vault == w.vault && v.refs == w.refs
    requires v.marked == w.marked + Carried(v.store)
    ensures Inv(v)
  {
    var r := w.store.runtime;
    var rec := v.store.records[m.note];
    FreshRecordOk(r, rec.mode, rec.destination, rec.phase, rec.chain, rec.clearance,
                  if rec.start.hashes == [] then None else Some(rec.start.hashes[0]), rec.moved);
    SlotToRecordKeepsInv(w, rec, r.late, v);
  }

  lemma MoveKeepsInv(w: World, m: Move, t: Store)
    requires Inv(w) && MoveNext(w.store, m) == Some(t)
    ensures Inv(Moved(w, t, m))
  {
    var v := Moved(w, t, m);
    match m
    case ArchiveNote(n, expiry, verified) => ArchiveKeepsInv(w, n, expiry, verified, v, t);
    case RestoreNote(n, expectedRevision) => RestoreKeepsInv(w, n, expectedRevision, v, t);
    case TransferNote(op, txHash, n, to) => TransferKeepsInv(w, m, v, t);
    case _ => DetachKeepsInv(w, m, v, t);
  }

  // --- Unlocked transactions ---------------------------------------------------------

  /** A background replacement hands out a marked reference only from a marked record. */
  lemma ReplacementRefMarked(rec: Record, r: Runtime, o: RecOp, ref: Ref, next: Record)
    requires RecOk(rec) && RecNext(rec, r, o) == Some(next) && ref in RecordRefs(next, o)
    requires IsMarking(ref.clearance, ref.mode)
    ensures ref.note == rec.note && rec.clearance && rec.state.Some?
  {
    WriteFrame(rec, DoReplaceStart(rec, o.sub, o.sender));
  }

  lemma RecordCallKeepsInv(w: World, n: NoteId, o: RecOp, rec: Record, next: Record)
    requires Inv(w) && Calls(w, n, o, rec, next)
    ensures Inv(Recorded(w, n, o, rec, next))
  {
    RecKeepsOk(rec, w.store.runtime, o, next);
    RecFrame(rec, w.store.runtime, o, next);
    var v := Recorded(w, n, o, rec, next);
    forall ref | ref in v.refs && IsMarking(ref.clearance, ref.mode) ensures ref.note in v.marked {
      if ref in RecordRefs(next, o) { ReplacementRefMarked(rec, w.store.runtime, o, ref, next); }
    }
    RecordWriteKeepsInv(w, n, next, w.store.runtime.late, v);
  }

  lemma ReleasedRecordOk(rec: Record, ref: Ref, unknown: bool)
    requires RecOk(rec) && RecordPromptMatches(rec, ref, unknown)
    ensures var next := ReleasedRecord(rec, ref, unknown);
            RecOk(next) && next.note == rec.note && next.clearance == rec.clearance && next.state == rec.state
  {
  }

  /** Releasing a prompt changes the slot only in its claim, so copies still agree. */
  lemma SlotReleaseKeepsInv(w: World, v: World, unknown: bool)
    requires Inv(w) && w.store.runtime.plan.Some?
    requires var released := Some(ReleasedPlan(w.store.runtime.plan.value, unknown));
             v == w.(store := w.store.(runtime := w.store.runtime.(plan := released)))
    ensures Inv(v) && Carried(v.store) == Carried(w.store)
  {
    assert forall x :: IsArchived(w.store, x) ==> IsArchived(v.store, x);
  }

  lemma ReleaseWriteKeepsInv(w: World, ref: Ref, unknown: bool, t: Store)
    requires Inv(w) && ReleaseSubmission(w.store, ref, unknown) == Some(t)
    ensures Inv(Placed(w, t, w.held))
  {
    var v := Placed(w, t, w.held);
    var inSlot := w.store.runtime.plan.Some? && PromptMatches(w.store.runtime.plan.value, ref, unknown);
    var mid := w;
    if inSlot {
      var released := Some(ReleasedPlan(w.store.runtime.plan.value, unknown));
      mid := w.(store := w.store.(runtime := w.store.runtime.(plan := released)));
      SlotReleaseKeepsInv(w, mid, unknown);
    }
    if ref.note in w.store.records && RecordPromptMatches(w.store.records[ref.note], ref, unknown) {
      var rec := ReleasedRecord(w.store.records[ref.note], ref, unknown);
      ReleasedRecordOk(w.store.records[ref.note], ref, unknown);
      RecordWriteKeepsInv(mid, ref.note, rec, mid.store.runtime.late, v);
    } else {
      assert v == mid.(marked := mid.marked + Carried(mid.store));
      assert mid.marked + Carried(mid.store) == mid.marked;
    }
  }

  /** The invariant does not read the claims, and a fresh or dropped copy is safe. */
  lemma QuietKeepsInv(w: World, v: World)
    requires Inv(w) && v.store == w.store && v.vault == w.vault && v.marked == w.marked && v.refs == w.refs
    requires v.held.None? || v.held == w.held || v.held == Some(w.store.runtime)
    ensures Inv(v)
  {
  }

  lemma ReleasePromptKeepsInv(w: World, ref: Ref, unknown: bool)
    requires Inv(w)
    ensures Inv(Released(w, ref, unknown))
  {
    var t := ReleaseSubmission(w.store, ref, unknown);
    if t.Some? {
      ReleaseWriteKeepsInv(w, ref, unknown, t.value);
      QuietKeepsInv(Placed(w, t.value, w.held), Released(w, ref, unknown));
    } else {
      QuietKeepsInv(w, Released(w, ref, unknown));
    }
  }

  lemma StepKeepsInv(w: World, st: Step)
    requires Inv(w) && Possible(w, st)
    ensures Inv(Next(w, st))
  {
    match st
    case Commit(o) =>
      if w.held.Some? && SlotNext(w.held.value, o).Some? {
        CommitKeepsInv(w, o, w.held.value, SlotNext(w.held.value, o).value);
      }
    case MoveNote(m) => if MoveNext(w.store, m).Some? { MoveKeepsInv(w, m, MoveNext(w.store, m).value); }
    case RecordCall(n, o) =>
      if n in w.store.records && RecNext(w.store.records[n], w.store.runtime, o).Some? {
        RecordCallKeepsInv(w, n, o, w.store.records[n], RecNext(w.store.records[n], w.store.runtime, o).value);
      }
    case ReleasePrompt(ref, unknown) => ReleasePromptKeepsInv(w, ref, unknown);
    case _ => QuietKeepsInv(w, Next(w, st));
  }
}
