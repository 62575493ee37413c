/** When a set-aside balance may be selected again: only after a clean pass has checked every
    start transaction that its record knows, so that none of them can move the note any more.
    One operation takes a shortcut; the exact condition and a run are given. */
module RestoreLaws {
  import opened WalletTypes
  import opened AttemptLog
  import opened PlanLog
  import opened SelectedSlot
  import opened FinalizationLog
  import opened WithdrawalRecord
  import opened RecordLaws
  import opened NoteMoves
  import opened WalletWorld
  import opened WalletLaws
  import opened WalletRuns
  import opened LogLaws

  /** What has been established about the start transactions of a note. */
  type Finding = (NoteId, Hash) -> bool

  ghost predicate AllDone(rec: Record, done: Finding) {
    forall h :: Mentions(rec, h) ==> done(rec.note, h)
  }

  /** Nothing of the start is pending and the balance counts as set aside or restored. */
  ghost predicate Quiet(rec: Record) {
    !rec.start.pending && (rec.phase.ParkedPhase? || rec.phase.RestoredPhase?)
  }

  ghost predicate RecordDone(rec: Record, done: Finding) {
    Quiet(rec) ==> AllDone(rec, done)
  }

  /** An attempt of the slot's plan whose hash was dropped has been dealt with. */
  ghost predicate PlanDone(p: Option<Plan>, done: Finding) {
    p.Some? ==>
      forall a :: a in p.value.wal.attempts ==> a.hash in p.value.wal.hashes || done(p.value.note, a.hash)
  }

  ghost predicate DoneInv(w: World, done: Finding) {
    && PlanDone(w.store.runtime.plan, done) && (w.held.Some? ==> PlanDone(w.held.value.plan, done))
    && forall n :: n in w.store.records ==> RecordDone(w.store.records[n], done)
  }

  // --- The rule --------------------------------------------------------------------------------------

  /** The patches by which a clean pass ends the recovery of a start. */
  predicate EndsRecovery(o: RecOp) {
    o.Update? && (o.patch.StartResolved? || o.patch.MarkRestored?)
  }

  /** Closing the wallet prompt of a challenged escape. */
  predicate ClosesChallenged(o: RecOp) {
    o.FinStep? && o.finOp.ResolveChallenged?
  }

  /** A recovery is ended only for a record whose transactions are all done; and a challenged
      prompt is closed only then, or while the start is still pending. */
  ghost predicate Vouched(rec: Record, o: RecOp, done: Finding) {
    && (EndsRecovery(o) ==> AllDone(rec, done))
    && (ClosesChallenged(o) ==> rec.start.pending || AllDone(rec, done))
  }

  ghost predicate StepVouched(w: World, st: Step, done: Finding) {
    st.RecordCall? && st.note in w.store.records ==> Vouched(w.store.records[st.note], st.recOp, done)
  }

  ghost predicate RunVouched(w: World, steps: seq<Step>, done: Finding) {
    steps == []
    || (RunVouched(w, steps[..|steps| - 1], done)
        && StepVouched(Run(w, steps[..|steps| - 1]), steps[|steps| - 1], done))
  }

  // --- The slot ----------------------------------------------------------------------------------------

  lemma RememberKeepsDone(p: Plan, hash: Hash, sub: SubId, op: OpId, meta: Option<Sender>, done: Finding, q: Plan)
    requires PlanDone(Some(p), done) && q.note == p.note && q.wal == WithHash(p.wal, hash, sub, op, meta)
    ensures PlanDone(Some(q), done)
  {
    forall a | a in q.wal.attempts ensures a.hash in q.wal.hashes || done(q.note, a.hash) {
      assert a.hash == hash || a in p.wal.attempts;
      assert a.hash in p.wal.hashes ==> a.hash in p.wal.hashes + [hash];
      assert hash in p.wal.hashes + [hash];
    }
  }

  lemma PlanKeepsDone(p: Plan, o: PlanOp, done: Finding, next: Plan)
    requires PlanDone(Some(p), done) && PlanNext(p, o) == Some(next)
    ensures PlanDone(Some(next), done)
  {
    if o.Remember? { RememberKeepsDone(p, o.hash, o.ref.sub, o.ref.op, o.meta, done, next); }
  }

  lemma SlotKeepsDone(r: Runtime, o: SlotOp, done: Finding, next: Runtime)
    requires PlanDone(r.plan, done) && SlotNext(r, o) == Some(next)
    ensures PlanDone(next.plan, done)
  {
    match o
    case PlanStep(planOp) => PlanKeepsDone(r.plan.value, planOp, done, next.plan.value);
    case RememberTx(hash, ref, meta) =>
      if r.plan.Some? && SameOperation(r.plan.value, ref) {
        PlanKeepsDone(r.plan.value, Remember(hash, ref, meta), done, next.plan.value);
      }
    case _ =>
  }

  // --- A record ------------------------------------------------------------------------------------------

  lemma KeptMentions(rec: Record, next: Record, done: Finding)
    requires LogsKept(rec, next) && next.note == rec.note && AllDone(rec, done)
    ensures AllDone(next, done)
  {
    forall h | Mentions(next, h) ensures done(next.note, h) { assert Mentions(rec, h); }
  }

  /** A record without transactions mentions none. */
  lemma NoneMentioned(rec: Record, done: Finding)
    requires !HasTransactions(rec)
    ensures AllDone(rec, done)
  {
  }

  lemma FinKeepsQuiet(rec: Record, o: FinOp, write: FinWrite)
    requires FinNext(rec, o) == Some(write) && !o.ResolveChallenged? && Quiet(FinSaved(rec, write))
    ensures Quiet(rec)
  {
  }

  /** Operations that touch no hash: the record is quiet only if it was, or if it has none. */
  lemma HashlessKeepsDone(rec: Record, r: Runtime, o: RecOp, done: Finding, next: Record)
    requires Hashless(o) && RecNext(rec, r, o) == Some(next) && next.note == rec.note
    requires RecordDone(rec, done) && Vouched(rec, o, done) && Quiet(next)
    ensures AllDone(next, done)
  {
    HashlessKeepsLogs(rec, r, o, next);
    match o
    case Repair(id, revision) => NoneMentioned(rec, done);
    case JournalStart(id, sub, op, sender) => WriteFrame(rec, DoJournalStart(rec, id, sub, op, sender));
    case StartAmbiguous(id, sub, op) => WriteFrame(rec, DoStartAmbiguous(rec, id, sub, op));
    case ReleaseStart(id, sub, op, requireNoNonce) => ReleasedHasNone(rec, r, id, sub, op, requireNoNonce, done, next);
    case FinStep(finOp) =>
      if !finOp.ResolveChallenged? { FinKeepsQuiet(rec, finOp, FinNext(rec, finOp).value); }
    if !o.ReleaseStart? { KeptMentions(rec, next, done); }
  }

  lemma ReleasedHasNone(rec: Record, r: Runtime, id: Identity, sub: SubId, op: OpId, requireNoNonce: bool,
                        done: Finding, next: Record)
    requires StartWritten(rec, DoReleaseStart(rec, r, id, sub, op, requireNoNonce)) == Some(next) && Quiet(next)
    ensures AllDone(next, done)
  {
    WriteFrame(rec, DoReleaseStart(rec, r, id, sub, op, requireNoNonce));
  }

  lemma PatchKeepsDone(rec: Record, p: Patch, expected: Option<nat>, done: Finding, next: Record)
    requires DoUpdate(rec, p, expected) == Some(next) && RecordDone(rec, done)
    requires Vouched(rec, Update(p, expected), done) && Quiet(next)
    ensures AllDone(next, done)
  {
    if !p.Close? {
      UpdateKeepsAudit(rec, p, expected, next);
      PatchKeepsLogs(rec, p, expected, next);
      KeptMentions(rec, next, done);
    }
  }

  lemma ReportIsNotQuiet(rec: Record, id: Identity, hash: Hash, sub: SubId, op: OpId, meta: Option<Sender>,
                         done: Finding, next: Record)
    requires DoRememberStart(rec, id, hash, sub, op, meta) == Some(next) && RecordDone(rec, done) && Quiet(next)
    ensures AllDone(next, done)
  {
    if FindArchived(rec.history, sub, op).Some? {
      LateHashIsAuditOnly(rec, id, hash, sub, op, meta, next);
      forall h | Mentions(next, h) ensures done(next.note, h) { assert Mentions(rec, h); }
    } else {
      WriteFrame(rec, DoRememberLive(rec, hash, sub, op, meta));
    }
  }

  /** New plans and claims need a record without transactions. */
  lemma OpeningKeepsDone(rec: Record, r: Runtime, o: RecOp, done: Finding, next: Record)
    requires (o.SavePlan? || o.ResolveForRetry? || o.ClaimStart? || o.ReplaceStart?) && RecNext(rec, r, o) == Some(next)
    requires Quiet(next)
    ensures AllDone(next, done)
  {
    if o.ClaimStart? { WriteFrame(rec, DoClaimStart(rec, r, o.identity, o.op, o.sub)); }
    if o.ReplaceStart? { WriteFrame(rec, DoReplaceStart(rec, o.sub, o.sender)); }
  }

  lemma CallKeepsDone(rec: Record, r: Runtime, o: RecOp, done: Finding, next: Record)
    requires ShapeOk(rec) && RecNext(rec, r, o) == Some(next) && RecordDone(rec, done) && Vouched(rec, o, done)
    ensures RecordDone(next, done)
  {
    RecFrame(rec, r, o, next);
    if Quiet(next) {
      match o
      case Update(patch, expected) => PatchKeepsDone(rec, patch, expected, done, next);
      case RememberStart(id, hash, sub, op, meta) => ReportIsNotQuiet(rec, id, hash, sub, op, meta, done, next);
      case _ =>
        if Hashless(o) {
          HashlessKeepsDone(rec, r, o, done, next);
        } else {
          OpeningKeepsDone(rec, r, o, done, next);
        }
    }
  }

  // --- Moves and releases ----------------------------------------------------------------------------------

  lemma ParkedIsDone(s: Store, n: NoteId, done: Finding, t: Store)
    requires SlotOk(s.runtime) && PlanDone(s.runtime.plan, done) && Park(s, n) == Some(t)
    ensures n in t.records && t.records == s.records[n := t.records[n]] && RecordDone(t.records[n], done)
    ensures t.runtime.plan.None?
  {
    var rec := t.records[n];
    forall h | Mentions(rec, h) ensures done(rec.note, h) {
      assert HasHash(s.runtime.plan.value.wal.attempts, h);
    }
  }

  lemma RestoredIsDone(s: Store, n: NoteId, expectedRevision: nat, done: Finding, t: Store)
    requires n in s.records ==> RecordDone(s.records[n], done)
    requires Restore(s, n, expectedRevision) == Some(t)
    ensures PlanDone(t.runtime.plan, done) && t.records == s.records - {n}
  {
    var rec := s.records[n];
    if t.runtime.plan.Some? {
      forall a | a in t.runtime.plan.value.wal.attempts ensures done(rec.note, a.hash) {
        assert Mentions(rec, a.hash);
      }
    }
  }

  /** Records that other moves make are not quiet. */
  lemma OtherMoveIsDone(s: Store, m: Move, done: Finding, t: Store)
    requires !m.ParkNote? && !m.RestoreNote? && MoveNext(s, m) == Some(t)
    ensures t.runtime.plan.None? || t.runtime.plan == s.runtime.plan
    ensures forall n :: n in t.records ==> (n in s.records && t.records[n] == s.records[n]) || !Quiet(t.records[n])
  {
  }

  lemma MoveKeepsDone(w: World, m: Move, done: Finding, t: Store)
    requires Inv(w) && DoneInv(w, done) && MoveNext(w.store, m) == Some(t)
    ensures DoneInv(Moved(w, t, m), done)
  {
    match m
    case ParkNote(n) => ParkedIsDone(w.store, n, done, t);
    case RestoreNote(n, expectedRevision) => RestoredIsDone(w.store, n, expectedRevision, done, t);
    case _ => OtherMoveIsDone(w.store, m, done, t);
  }

  lemma ReleasedIsDone(rec: Record, ref: Ref, unknown: bool, done: Finding)
    requires RecordDone(rec, done)
    ensures RecordDone(ReleasedRecord(rec, ref, unknown), done)
  {
    var next := ReleasedRecord(rec, ref, unknown);
    if Quiet(next) {
      forall h | Mentions(next, h) ensures done(next.note, h) { assert Mentions(rec, h); }
    }
  }

  lemma ReleaseKeepsDone(w: World, ref: Ref, unknown: bool, done: Finding)
    requires DoneInv(w, done)
    ensures DoneInv(Released(w, ref, unknown), done)
  {
    if ref.note in w.store.records { ReleasedIsDone(w.store.records[ref.note], ref, unknown, done); }
  }

  // --- Runs ----------------------------------------------------------------------------------------------------

  lemma StepKeepsDone(w: World, st: Step, done: Finding)
    requires Inv(w) && DoneInv(w, done) && StepVouched(w, st, done)
    ensures DoneInv(Next(w, st), done)
  {
    match st
    case Commit(o) =>
      if w.held.Some? && SlotNext(w.held.value, o).Some? {
        SlotKeepsDone(w.held.value, o, done, SlotNext(w.held.value, o).value);
      }
    case MoveNote(m) => if MoveNext(w.store, m).Some? { MoveKeepsDone(w, m, done, MoveNext(w.store, m).value); }
    case RecordCall(n, o) =>
      if n in w.store.records && RecNext(w.store.records[n], w.store.runtime, o).Some? {
        CallKeepsDone(w.store.records[n], w.store.runtime, o, done,
                      RecNext(w.store.records[n], w.store.runtime, o).value);
      }
    case ReleasePrompt(ref, unknown) => ReleaseKeepsDone(w, ref, unknown, done);
    case _ =>
  }

  lemma {:induction false} RunKeepsDone(w: World, steps: seq<Step>, done: Finding)
    requires Inv(w) && DoneInv(w, done) && PossibleRun(w, steps) && RunVouched(w, steps, done)
    ensures DoneInv(Run(w, steps), done)
  {
    if steps != [] {
      RunKeepsDone(w, steps[..|steps| - 1], done);
      RunKeepsInv(w, steps[..|steps| - 1]);
      StepKeepsDone(Run(w, steps[..|steps| - 1]), steps[|steps| - 1], done);
    }
  }

  /** Whatever balance can be selected again, all its start transactions are done. */
  ghost predicate SelectionIsSafe(w: World, done: Finding) {
    forall n, h ::
      n in w.store.records && Restorable(w.store, w.store.records[n], w.store.records[n].revision)
      && h in KnownHashes(w.store.records[n])
      ==> done(n, h)
  }

  lemma DoneIsSafe(w: World, done: Finding)
    requires Inv(w) && DoneInv(w, done)
    ensures SelectionIsSafe(w, done)
  {
    forall n, h |
      n in w.store.records && Restorable(w.store, w.store.records[n], w.store.records[n].revision)
      && h in KnownHashes(w.store.records[n])
      ensures done(n, h)
    {
      MentionsIff(w.store.records[n], h);
    }
  }

  /** From a new wallet, through every run in which recoveries are ended only for records whose
      transactions are done: a balance that can be selected again has none that is not. */
  lemma RestoredIsChecked(steps: seq<Step>, done: Finding)
    requires PossibleRun(INITIAL, steps) && RunVouched(INITIAL, steps, done)
    ensures SelectionIsSafe(Run(INITIAL, steps), done)
  {
    RunKeepsDone(INITIAL, steps, done);
    ReachableIsSafe(steps);
    DoneIsSafe(Run(INITIAL, steps), done);
  }

  /** The shortcut, exactly: closing a challenged prompt sets the balance aside without a look
      at its start transactions, so the record is safe afterwards if and only if its start is
      still pending or everything it knows was done before. */
  lemma ShortcutIff(rec: Record, ref: FinRef, expectedRevision: nat, write: FinWrite, done: Finding)
    requires FinNext(rec, ResolveChallenged(ref, expectedRevision)) == Some(write)
    ensures RecordDone(FinSaved(rec, write), done) <==> rec.start.pending || AllDone(rec, done)
  {
    assert forall h :: Mentions(FinSaved(rec, write), h) <==> Mentions(rec, h);
  }
}

/** What honest passes say about the chain. */
module RestoreChain {
  import opened WalletTypes
  import opened WithdrawalRecord
  import opened WalletWorld
  import opened Chain
  import opened StartRecovery
  import opened RestoreLaws

  /** In this view every occurrence of the transaction has failed, or stands before a block at
      which the note is still active: it does not move the note any more. */
  ghost predicate Harmless(view: View, n: NoteId, h: Hash) {
    forall p: nat :: p < |Flat(view.chain)| && Flat(view.chain)[p].hash == h ==>
      !Flat(view.chain)[p].ok || Outlived(view, p, n)
  }

  /** The transaction is harmless, or it is one whose receipt confirmed the start. */
  ghost function HarmlessIn(view: View, confirmed: set<Hash>): Finding {
    (n: NoteId, h: Hash) => h in confirmed || Harmless(view, n, h)
  }

  /** One pass: the node's answers, the ambiguous replacements it found, the observed block, and
      the moments at which it began and ended. */
  datatype Pass = Pass(node: Node, replaced: seq<Claim>, observed: nat, began: nat, ended: nat)

  /** The pass over the record was clean and had ended by the time of view v; its answers were
      true, and the starts that receipts confirmed are known. */
  ghost predicate HonestBy(views: seq<View>, v: nat, rec: Record, confirmed: set<Hash>, pass: Pass) {
    && Stable(views) && pass.ended <= v < |views|
    && Honest(pass.node, views, rec.note, pass.observed, pass.began, pass.ended)
    && Clean(pass.node, rec, pass.replaced, pass.observed) && Names(rec, Flat(views[v].chain))
    && forall h :: Mentions(rec, h) && SeenOf(pass.node, h).Matching? ==> h in confirmed
  }

  ghost predicate HonestPass(views: seq<View>, v: nat, rec: Record, confirmed: set<Hash>) {
    exists pass :: HonestBy(views, v, rec, confirmed, pass)
  }

  ghost predicate ViewAt(views: seq<View>, v: nat, view: View) {
    v < |views| && views[v] == view
  }

  lemma OccurrenceIsHarmless(views: seq<View>, v: nat, view: View, rec: Record, confirmed: set<Hash>, pass: Pass,
                             p: nat)
    requires ViewAt(views, v, view) && HonestBy(views, v, rec, confirmed, pass) && p < |Flat(view.chain)|
    requires Mentions(rec, Flat(view.chain)[p].hash) && Flat(view.chain)[p].hash !in confirmed
    ensures !Flat(view.chain)[p].ok || Outlived(view, p, rec.note)
  {
    DoneHashIsOutlived(pass.node, views, rec, pass.observed, pass.began, pass.ended, v, p);
  }

  lemma PassMakesHarmless(views: seq<View>, v: nat, view: View, rec: Record, confirmed: set<Hash>, h: Hash)
    requires ViewAt(views, v, view) && HonestPass(views, v, rec, confirmed) && Mentions(rec, h)
    requires h !in confirmed
    ensures Harmless(view, rec.note, h)
  {
    var pass :| HonestBy(views, v, rec, confirmed, pass);
    forall p: nat | p < |Flat(view.chain)| && Flat(view.chain)[p].hash == h
      ensures !Flat(view.chain)[p].ok || Outlived(view, p, rec.note)
    {
      OccurrenceIsHarmless(views, v, view, rec, confirmed, pass, p);
    }
  }

  lemma PassVouches(views: seq<View>, v: nat, view: View, rec: Record, confirmed: set<Hash>)
    requires ViewAt(views, v, view) && HonestPass(views, v, rec, confirmed)
    ensures AllDone(rec, HarmlessIn(view, confirmed))
  {
    forall h | Mentions(rec, h) && h !in confirmed ensures Harmless(view, rec.note, h) {
      PassMakesHarmless(views, v, view, rec, confirmed, h);
    }
  }

  /** Recoveries are ended by honest passes, and challenged prompts closed only after one. */
  ghost predicate StepPassed(w: World, st: Step, views: seq<View>, v: nat, confirmed: set<Hash>) {
    st.RecordCall? && st.note in w.store.records ==>
      var rec := w.store.records[st.note];
      && (EndsRecovery(st.recOp) ==> HonestPass(views, v, rec, confirmed))
      && (ClosesChallenged(st.recOp) ==> rec.start.pending || HonestPass(views, v, rec, confirmed))
  }

  ghost predicate RunPassed(w: World, steps: seq<Step>, views: seq<View>, v: nat, confirmed: set<Hash>) {
    steps == []
    || (RunPassed(w, steps[..|steps| - 1], views, v, confirmed)
        && StepPassed(Run(w, steps[..|steps| - 1]), steps[|steps| - 1], views, v, confirmed))
  }

  lemma StepPassedIsVouched(w: World, st: Step, views: seq<View>, v: nat, view: View, confirmed: set<Hash>)
    requires ViewAt(views, v, view) && StepPassed(w, st, views, v, confirmed)
    ensures StepVouched(w, st, HarmlessIn(view, confirmed))
  {
    if st.RecordCall? && st.note in w.store.records && HonestPass(views, v, w.store.records[st.note], confirmed) {
      PassVouches(views, v, view, w.store.records[st.note], confirmed);
    }
  }

  lemma {:induction false} PassedIsVouched(w: World, steps: seq<Step>, views: seq<View>, v: nat, view: View,
                                           confirmed: set<Hash>)
    requires ViewAt(views, v, view) && RunPassed(w, steps, views, v, confirmed)
    ensures RunVouched(w, steps, HarmlessIn(view, confirmed))
  {
    if steps != [] {
      PassedIsVouched(w, steps[..|steps| - 1], views, v, view, confirmed);
      StepPassedIsVouched(Run(w, steps[..|steps| - 1]), steps[|steps| - 1], views, v, view, confirmed);
    }
  }

  /** A balance that can be selected again cannot be moved by any start transaction that its
      record knows and no receipt confirmed, in any view from the end of the passes on. */
  lemma RestoredCannotMove(steps: seq<Step>, views: seq<View>, v: nat, view: View, confirmed: set<Hash>)
    requires PossibleRun(INITIAL, steps) && ViewAt(views, v, view) && RunPassed(INITIAL, steps, views, v, confirmed)
    ensures SelectionIsSafe(Run(INITIAL, steps), HarmlessIn(view, confirmed))
  {
    PassedIsVouched(INITIAL, steps, views, v, view, confirmed);
    RestoredIsChecked(steps, HarmlessIn(view, confirmed));
  }
}
