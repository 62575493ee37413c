/** The write-ahead log never forgets a broadcast: over whole runs, a transaction hash that
    was reported for a withdrawal stays on record until it is explicitly settled. */
module BroadcastLaws {
  import opened WalletTypes
  import opened AttemptLog
  import opened PlanLog
  import opened SelectedSlot
  import opened FinalizationLog
  import opened WithdrawalRecord
  import opened RecordLaws
  import opened NoteMoves
  import opened WalletWorld
  import opened WalletLaws
  import opened WalletRuns
  import opened ClaimLaws
  import opened LogLaws

  ghost predicate LateKnows(late: seq<Late>, h: Hash) {
    exists e :: e in late && e.hash == h && !IsTerminal(e.status)
  }

  ghost predicate PlanKnows(p: Option<Plan>, h: Hash) {
    p.Some? && h in p.value.wal.hashes
  }

  /** A resolved entry keeps hashes, and the attempts of record and plan. */
  ghost predicate EntryKnows(entry: Resolved, h: Hash) {
    h in entry.hashes || HasHash(entry.attempts, h) || HasHash(entry.planAttempts, h)
  }

  ghost predicate HistoryKnows(history: seq<Resolved>, h: Hash) {
    exists k :: 0 <= k < |history| && EntryKnows(history[k], h)
  }

  /** As the hash of a start transaction. */
  ghost predicate StartKnows(rec: Record, h: Hash) {
    h in rec.start.hashes || PlanKnows(rec.plan, h) || HistoryKnows(rec.history, h)
  }

  ghost predicate RecKnows(rec: Record, h: Hash) {
    StartKnows(rec, h) || h in rec.fin.hashes
  }

  ghost predicate RecordsKnow(records: map<NoteId, Record>, h: Hash) {
    exists n :: n in records && RecKnows(records[n], h)
  }

  /** The hash is in a live log: a plan, an unresolved late attempt or a record. */
  ghost predicate Known(s: Store, h: Hash) {
    PlanKnows(s.runtime.plan, h) || LateKnows(s.runtime.late, h) || RecordsKnow(s.records, h)
  }

  // --- The slot -----------------------------------------------------------------------------

  /** Commits that settle the hash: its receipt reverted, its late attempt ended, or the
      withdrawal it started was challenged. */
  ghost predicate CommitSettles(r: Runtime, o: SlotOp, h: Hash) {
    || (o.PlanStep? && o.planOp.ReleaseHash? && o.planOp.hash == h)
    || (o.ChallengeEscape? && PlanKnows(r.plan, h))
    || (o.UpdateLate? && o.hash == h && IsTerminal(o.status))
    || (o.ChallengeLate? && exists e :: e in r.late && e.note == o.note && e.hash == h)
  }

  lemma PlanKeepsHash(p: Plan, o: PlanOp, h: Hash, next: Plan)
    requires PlanNext(p, o) == Some(next) && h in p.wal.hashes && !(o.ReleaseHash? && o.hash == h)
    ensures h in next.wal.hashes
  {
    if o.Remember? { assert h in p.wal.hashes + [o.hash]; }
  }

  lemma SlotPlanKeepsHash(r: Runtime, o: SlotOp, h: Hash, next: Runtime)
    requires SlotOk(r) && SlotNext(r, o) == Some(next) && PlanKnows(r.plan, h) && !CommitSettles(r, o, h)
    ensures PlanKnows(next.plan, h)
  {
    match o
    case PlanStep(planOp) => PlanKeepsHash(r.plan.value, planOp, h, next.plan.value);
    case RememberTx(hash, ref, meta) =>
      if SameOperation(r.plan.value, ref) {
        PlanKeepsHash(r.plan.value, Remember(hash, ref, meta), h, next.plan.value);
      }
    case _ =>
  }

  lemma RetainKnows(late: seq<Late>, h: Hash)
    requires LateKnows(late, h)
    ensures LateKnows(Retain(late), h)
  {
    var e :| e in late && e.hash == h && !IsTerminal(e.status);
    Members(late);
    assert e in Unresolved(late);
    assert e in Retain(late);
  }

  lemma RememberKnows(late: seq<Late>, ref: Ref, hash: Hash, sender: Option<Sender>, h: Hash)
    requires h == hash || LateKnows(late, h)
    ensures LateKnows(Retain(WithoutLate(late, ref.op, hash) + [LateOf(ref, hash, sender)]), h)
  {
    var next := WithoutLate(late, ref.op, hash) + [LateOf(ref, hash, sender)];
    if h == hash {
      assert LateOf(ref, hash, sender) in next;
    } else {
      var e :| e in late && e.hash == h && !IsTerminal(e.status);
      assert e in next;
    }
    RetainKnows(next, h);
  }

  lemma UpdateKnows(late: seq<Late>, k: nat, status: LateStatus, h: Hash)
    requires k < |late| && LateKnows(late, h) && !(late[k].hash == h && IsTerminal(status))
    ensures LateKnows(Retain(late[k := late[k].(status := status)]), h)
  {
    var next := late[k := late[k].(status := status)];
    var i :| 0 <= i < |late| && late[i].hash == h && !IsTerminal(late[i].status);
    assert next[i] in next;
    RetainKnows(next, h);
  }

  /** Settling the attempts of one note keeps those of others. */
  lemma SettleKnows(late: seq<Late>, k: nat, status: LateStatus, others: LateStatus, e: Late)
    requires k < |late| && e in late && e.note != late[k].note && !IsTerminal(e.status)
    ensures LateKnows(Retain(Settle(late, k, status, others)), e.hash)
  {
    var i :| 0 <= i < |late| && late[i] == e;
    var next := Settle(late, k, status, others);
    assert next[i] == e && next[i] in next;
    RetainKnows(next, e.hash);
  }

  lemma LateAfterKnows(r: Runtime, o: SlotOp, h: Hash)
    requires LateKnows(r.late, h) && !CommitSettles(r, o, h)
    ensures LateKnows(LateAfter(r, o), h) || NoSuchAttempt(r, o)
  {
    match o
    case RememberTx(hash, ref, meta) => RememberKnows(r.late, ref, hash, ReportedSender(r, meta), h);
    case UpdateLate(op, hash, status, expectedStatus) =>
      var k := FindLate(r.late, op, hash);
      if k.Some? { UpdateKnows(r.late, k.value, status, h); }
    case ChallengeLate(op, hash, note, backgroundOwns) =>
      var k := FindLate(r.late, op, hash);
      if k.Some? && r.late[k.value].note == note {
        var e :| e in r.late && e.hash == h && !IsTerminal(e.status);
        SettleKnows(r.late, k.value, Challenged, Superseded, e);
      }
    case _ =>
  }

  /** The challenged attempt belongs to another note; such a commit is refused. */
  ghost predicate NoSuchAttempt(r: Runtime, o: SlotOp) {
    o.ChallengeLate? && FindLate(r.late, o.op, o.hash).Some?
    && r.late[FindLate(r.late, o.op, o.hash).value].note != o.note
  }

  lemma SlotLateKeepsHash(r: Runtime, o: SlotOp, h: Hash, next: Runtime)
    requires SlotNext(r, o) == Some(next) && LateKnows(r.late, h) && !CommitSettles(r, o, h)
    ensures LateKnows(next.late, h)
  {
    LateAfterKnows(r, o, h);
    LateIsAfter(r, o, next);
  }

  // --- A record --------------------------------------------------------------------------------

  lemma SnocHistory(history: seq<Resolved>, entry: Resolved, h: Hash)
    requires HistoryKnows(history, h) || EntryKnows(entry, h)
    ensures HistoryKnows(history + [entry], h)
  {
    var next := history + [entry];
    assert next[|history|] == entry && forall k :: 0 <= k < |history| ==> next[k] == history[k];
  }

  lemma ResolveForRetryKeepsHash(rec: Record, r: Runtime, id: Identity, revision: nat, hashes: set<Hash>, newOp: OpId,
                                 block: nat, h: Hash, next: Record)
    requires DoResolveForRetry(rec, r, id, revision, hashes, newOp, block) == Some(next) && StartKnows(rec, h)
    ensures StartKnows(next, h)
  {
    if !HistoryKnows(rec.history, h) { MentionsIff(rec, h); }
    SnocHistory(rec.history, next.history[|rec.history|], h);
    assert next.history == rec.history + [next.history[|rec.history|]];
  }

  /** The sanitizing close archives the hashes of the start log and the attempts of the plan. */
  lemma CloseKeepsHash(rec: Record, expected: Option<nat>, h: Hash, next: Record)
    requires DoUpdate(rec, Close, expected) == Some(next) && StartKnows(rec, h)
    requires PlanCovered(rec.plan, rec.start.hashes)
    ensures StartKnows(next, h)
  {
    var entry := next.history[|rec.history|];
    assert next.history == rec.history + [entry] && (h in entry.hashes <==> h in rec.start.hashes);
    assert rec.plan.Some? ==> entry.planAttempts == rec.plan.value.wal.attempts;
    SnocHistory(rec.history, entry, h);
  }

  lemma PatchKeepsHash(rec: Record, p: Patch, expected: Option<nat>, h: Hash, next: Record)
    requires DoUpdate(rec, p, expected) == Some(next) && !p.Close? && StartKnows(rec, h)
    ensures StartKnows(next, h)
  {
    assert next.start.hashes == rec.start.hashes && next.history == rec.history;
    assert PlanKnows(rec.plan, h) ==> PlanKnows(next.plan, h);
  }

  lemma LiveHashes(rec: Record, hash: Hash, sub: SubId, op: OpId, meta: Option<Sender>, h: Hash, w: StartWrite)
    requires DoRememberLive(rec, hash, sub, op, meta) == Some(w)
    ensures h in w.start.hashes <==> h in rec.start.hashes || h == hash
  {
    assert h in rec.start.hashes + [hash] <==> h in rec.start.hashes || h == hash;
  }

  /** A reported hash of the background driver overwrites the plan's hash list, but all of
      that list is in the start log already. */
  lemma RememberKeepsHash(rec: Record, id: Identity, hash: Hash, sub: SubId, op: OpId, meta: Option<Sender>,
                          issued: set<SubId>, background: set<SubId>, h: Hash, next: Record)
    requires sub in background && DoRememberStart(rec, id, hash, sub, op, meta) == Some(next) && StartKnows(rec, h)
    requires RecLogOk(rec, issued, background)
    ensures StartKnows(next, h)
  {
    if FindArchived(rec.history, sub, op).Some? {
      LateHashIsAuditOnly(rec, id, hash, sub, op, meta, next);
      AuditKeepsHash(rec, next, h);
    } else {
      WriteFrame(rec, DoRememberLive(rec, hash, sub, op, meta));
      ReporterIsTracked(rec, hash, sub, op, meta, background);
      LiveKeepsHash(rec, hash, sub, op, meta, h, DoRememberLive(rec, hash, sub, op, meta).value);
    }
  }

  lemma AuditKeepsHash(rec: Record, next: Record, h: Hash)
    requires StartKnows(rec, h) && IsAudit(rec, next)
    ensures StartKnows(next, h)
  {
    if HistoryKnows(rec.history, h) {
      var k :| 0 <= k < |rec.history| && EntryKnows(rec.history[k], h);
      assert EntryKnows(next.history[k], h);
    }
  }

  lemma LiveKeepsHash(rec: Record, hash: Hash, sub: SubId, op: OpId, meta: Option<Sender>, h: Hash, write: StartWrite)
    requires DoRememberLive(rec, hash, sub, op, meta) == Some(write)
    requires StartKnows(rec, h) && Within(rec.plan, rec.start.hashes)
    ensures StartKnows(StartSaved(rec, write), h)
  {
    LiveHashes(rec, hash, sub, op, meta, h, write);
  }

  lemma QuietCallKeepsHash(rec: Record, r: Runtime, o: RecOp, h: Hash, next: Record)
    requires RecNext(rec, r, o) == Some(next) && StartKnows(rec, h)
    requires !o.RememberStart? && !o.Update? && !o.ResolveForRetry?
    ensures StartKnows(next, h)
  {
    match o
    case ClaimStart(id, op, sub) => WriteFrame(rec, DoClaimStart(rec, r, id, op, sub));
    case JournalStart(id, sub, op, sender) => WriteFrame(rec, DoJournalStart(rec, id, sub, op, sender));
    case StartAmbiguous(id, sub, op) => WriteFrame(rec, DoStartAmbiguous(rec, id, sub, op));
    case ReleaseStart(id, sub, op, requireNoNonce) =>
      WriteFrame(rec, DoReleaseStart(rec, r, id, sub, op, requireNoNonce));
    case ReplaceStart(sub, sender) => WriteFrame(rec, DoReplaceStart(rec, sub, sender));
    case _ =>
  }

  /** No operation of a reachable record loses the hash of a start transaction, the sanitizing close included. */
  lemma RecordForgetsNothing(rec: Record, r: Runtime, o: RecOp, issued: set<SubId>, background: set<SubId>,
                             h: Hash, next: Record)
    requires RecNext(rec, r, o) == Some(next) && StartKnows(rec, h) && RecLogOk(rec, issued, background)
    requires ReportsFor(o, background)
    ensures StartKnows(next, h)
  {
    if o.RememberStart? {
      RememberKeepsHash(rec, o.identity, o.hash, o.sub, o.op, o.meta, issued, background, h, next);
    } else if o.Update? {
      if o.patch.Close? {
        CloseKeepsHash(rec, o.expected, h, next);
      } else {
        PatchKeepsHash(rec, o.patch, o.expected, h, next);
      }
    } else if o.ResolveForRetry? {
      ResolveForRetryKeepsHash(rec, r, o.identity, o.expectedRevision, o.resolvedHashes, o.newOp, o.block, h, next);
    } else {
      QuietCallKeepsHash(rec, r, o, h, next);
    }
  }

  /** The call settles the hash of a finalization: its receipt released it, or the sanitizing
      close erased the log. */
  ghost predicate CallSettles(rec: Record, o: RecOp, h: Hash) {
    && !StartKnows(rec, h)
    && ((o.FinStep? && o.finOp.ReleaseFinHash? && o.finOp.hash == h) || Closes(o))
  }

  lemma RecordKeepsHash(rec: Record, r: Runtime, o: RecOp, issued: set<SubId>, background: set<SubId>, h: Hash,
                        next: Record)
    requires RecNext(rec, r, o) == Some(next) && RecKnows(rec, h) && !CallSettles(rec, o, h)
    requires RecOk(rec) && RecLogOk(rec, issued, background) && ReportsFor(o, background)
    ensures RecKnows(next, h)
  {
    if StartKnows(rec, h) {
      RecordForgetsNothing(rec, r, o, issued, background, h, next);
    } else {
      StepChangesLogAsReported(rec, Call(r, o), next);
      assert h in HashSet(rec.fin.hashes);
      assert h in HashSet(next.fin.hashes);
    }
  }

  // --- The whole wallet ---------------------------------------------------------------------------

  /** Moves that settle the hash: archiving the note whose plan knows it, restoring the note
      whose record knows it, and a transfer that supersedes the other attempts of its note. */
  ghost predicate MoveSettles(s: Store, m: Move, h: Hash) {
    || (m.ArchiveNote? && PlanKnows(s.runtime.plan, h))
    || (m.RestoreNote? && m.note in s.records && StartKnows(s.records[m.note], h))
    || (m.TransferNote? && !Aggregates(s, m.note, m.to)
        && exists e :: e in s.runtime.late && e.note == m.note && e.hash == h)
  }

  ghost predicate StepSettles(w: World, st: Step, h: Hash) {
    match st
    case Commit(o) => w.held.Some? && CommitSettles(w.held.value, o, h)
    case MoveNote(m) => MoveSettles(w.store, m, h)
    case RecordCall(n, o) => n in w.store.records && CallSettles(w.store.records[n], o, h)
    case _ => false
  }

  lemma CommitKeepsKnown(w: World, o: SlotOp, r: Runtime, next: Runtime, h: Hash)
    requires Inv(w) && Commits(w, o, r, next) && Known(w.store, h) && !CommitSettles(r, o, h)
    ensures Known(Committed(w, o, r, next).store, h)
  {
    HeldIsSafe(w, r);
    if PlanKnows(r.plan, h) { SlotPlanKeepsHash(r, o, h, next); }
    if LateKnows(r.late, h) { SlotLateKeepsHash(r, o, h, next); }
  }

  lemma RecordKnows(s: Store, n: NoteId, h: Hash)
    requires n in s.records && RecKnows(s.records[n], h)
    ensures Known(s, h)
  {
  }

  lemma OtherRecordKnows(s: Store, t: Store, n: NoteId, h: Hash)
    requires RecordsKnow(s.records, h)
    requires (forall k :: k in s.records && k != n ==> k in t.records && t.records[k] == s.records[k])
    requires n in s.records && RecKnows(s.records[n], h) ==> Known(t, h)
    ensures Known(t, h)
  {
    var k :| k in s.records && RecKnows(s.records[k], h);
    if k != n { RecordKnows(t, k, h); }
  }

  lemma CallKeepsKnown(w: World, n: NoteId, o: RecOp, rec: Record, next: Record, h: Hash)
    requires BookInv(w) && Possible(w, RecordCall(n, o)) && Calls(w, n, o, rec, next) && Known(w.store, h)
    requires Inv(w) && !CallSettles(rec, o, h)
    ensures Known(Recorded(w, n, o, rec, next).store, h)
  {
    var t := Recorded(w, n, o, rec, next).store;
    if RecKnows(rec, h) {
      RecordKeepsHash(rec, w.store.runtime, o, w.claims.issued.Keys, w.claims.background, h, next);
      RecordKnows(t, n, h);
    }
    if RecordsKnow(w.store.records, h) { OtherRecordKnows(w.store, t, n, h); }
  }

  lemma TransferredPlanKnows(s: Store, n: NoteId, e: Late, to: Destination, h: Hash)
    requires PlanKnows(SourcePlan(s, n), h)
    ensures PlanKnows(TravellingPlan(s, n, e, to), h)
  {
    assert h in SourcePlan(s, n).value.wal.hashes + [e.hash];
  }

  lemma TransferredRecordKnows(s: Store, n: NoteId, e: Late, to: Destination, h: Hash)
    requires e in s.runtime.late && e.note == n && !IsTerminal(e.status)
    requires (n in s.records && RecKnows(s.records[n], h))
        || (Selects(s.runtime, n) && n !in s.records && PlanKnows(s.runtime.plan, h))
    ensures RecKnows(TransferredRecord(s, n, e, to), h)
  {
    TransferKeepsHashes(s, n, e, to);
    if PlanKnows(SourcePlan(s, n), h) { TransferredPlanKnows(s, n, e, to, h); }
  }

  /** A late attempt that a transfer ends is in the record, unless it is merely superseded. */
  lemma TransferredLateKnows(s: Store, n: NoteId, k: nat, to: Destination, h: Hash)
    requires k < |s.runtime.late| && s.runtime.late[k].note == n && !IsTerminal(s.runtime.late[k].status)
    requires LateKnows(s.runtime.late, h)
    requires Aggregates(s, n, to) || forall e :: e in s.runtime.late && e.note == n ==> e.hash != h
    ensures LateKnows(SettledLate(s, n, k, to), h) || RecKnows(TransferredRecord(s, n, s.runtime.late[k], to), h)
  {
    var e :| e in s.runtime.late && e.hash == h && !IsTerminal(e.status);
    if e.note == n {
      assert s.runtime.late[k] in s.runtime.late;
      TransferKeepsHashes(s, n, s.runtime.late[k], to);
    } else {
      SettleKnows(s.runtime.late, k, if to.phase.ClosedUnconfirmed? then ClosedLate else Detached,
                  if Aggregates(s, n, to) then Detached else Superseded, e);
    }
  }

  /** Replacing a record and the late attempts forgets nothing that they take over. */
  lemma PlacedKnown(s: Store, t: Store, n: NoteId, rec: Record, h: Hash)
    requires t.records == s.records[n := rec] && (Selects(s.runtime, n) || t.runtime.plan == s.runtime.plan)
    requires n in s.records && RecKnows(s.records[n], h) ==> RecKnows(rec, h)
    requires Selects(s.runtime, n) && PlanKnows(s.runtime.plan, h) ==> RecKnows(rec, h)
    requires LateKnows(s.runtime.late, h) ==> LateKnows(t.runtime.late, h) || RecKnows(rec, h)
    requires Known(s, h)
    ensures Known(t, h)
  {
    if RecKnows(rec, h) {
      assert t.records[n] == rec;
      RecordKnows(t, n, h);
    } else if RecordsKnow(s.records, h) {
      OtherRecordKnows(s, t, n, h);
    }
  }

  lemma TransferKeepsKnown(s: Store, vault: set<NoteId>, m: Move, h: Hash, t: Store)
    requires Owned(s, vault) && m.TransferNote? && MoveNext(s, m) == Some(t) && Known(s, h) && !MoveSettles(s, m, h)
    ensures Known(t, h)
  {
    var k, e, rec, late := TransferParts(s, m, t);
    var n := m.note;
    if (n in s.records && RecKnows(s.records[n], h)) || (Selects(s.runtime, n) && PlanKnows(s.runtime.plan, h)) {
      TransferredRecordKnows(s, n, e, m.to, h);
    }
    if LateKnows(s.runtime.late, h) { TransferredLateKnows(s, n, k, m.to, h); }
    PlacedKnown(s, t, n, rec, h);
  }

  /** A record of note n is added that carries the slot's plan away; the rest stays. */
  ghost predicate CarriesPlan(s: Store, t: Store, n: NoteId) {
    && Selects(s.runtime, n) && t.runtime.late == s.runtime.late && n in t.records
    && t.records == s.records[n := t.records[n]] && t.records[n].plan == s.runtime.plan
  }

  lemma DetachCarries(s: Store, m: Move, t: Store)
    requires (m.EscapeStarted? || m.ClosedOnChain? || m.ParkNote?) && MoveNext(s, m) == Some(t)
    ensures CarriesPlan(s, t, m.note)
  {
  }

  lemma RestKeepsLate(s: Store, m: Move, t: Store)
    requires (m.ArchiveNote? || m.RestoreNote?) && MoveNext(s, m) == Some(t)
    ensures t.runtime.late == s.runtime.late
    ensures t.records == (if m.RestoreNote? then s.records - {m.note} else s.records)
    ensures m.RestoreNote? ==> s.runtime.plan.None? && m.note in s.records && s.records[m.note].fin.hashes == []
  {
  }

  lemma OtherMoveKeepsKnown(s: Store, m: Move, h: Hash, t: Store)
    requires !m.TransferNote? && MoveNext(s, m) == Some(t) && Known(s, h) && !MoveSettles(s, m, h)
    requires Selects(s.runtime, m.note) ==> m.note !in s.records
    ensures Known(t, h)
  {
    if m.ArchiveNote? || m.RestoreNote? {
      RestKeepsLate(s, m, t);
    } else {
      DetachCarries(s, m, t);
      if PlanKnows(s.runtime.plan, h) { RecordKnows(t, m.note, h); }
    }
    if RecordsKnow(s.records, h) { OtherRecordKnows(s, t, m.note, h); }
  }

  lemma MoveKeepsKnown(s: Store, vault: set<NoteId>, m: Move, h: Hash, t: Store)
    requires Owned(s, vault) && MoveNext(s, m) == Some(t) && Known(s, h) && !MoveSettles(s, m, h)
    ensures Known(t, h)
  {
    if m.TransferNote? { TransferKeepsKnown(s, vault, m, h, t); } else { OtherMoveKeepsKnown(s, m, h, t); }
  }

  lemma ReleaseKeepsKnown(s: Store, ref: Ref, unknown: bool, h: Hash, t: Store)
    requires ReleaseSubmission(s, ref, unknown) == Some(t) && Known(s, h)
    ensures Known(t, h)
  {
    if ref.note in s.records && RecKnows(s.records[ref.note], h) {
      assert RecKnows(t.records[ref.note], h);
      RecordKnows(t, ref.note, h);
    }
    if RecordsKnow(s.records, h) { OtherRecordKnows(s, t, ref.note, h); }
  }

  /** A step loses a known hash only by settling it. */
  lemma StepKeepsKnown(w: World, st: Step, h: Hash)
    requires Inv(w) && BookInv(w) && Possible(w, st) && Known(w.store, h) && !StepSettles(w, st, h)
    ensures Known(Next(w, st).store, h)
  {
    match st
    case Commit(o) =>
      if w.held.Some? && SlotNext(w.held.value, o).Some? {
        CommitKeepsKnown(w, o, w.held.value, SlotNext(w.held.value, o).value, h);
      }
    case MoveNote(m) =>
      var t := MoveNext(w.store, m);
      if w.held.Some? && t.Some? { MoveKeepsKnown(w.store, w.vault, m, h, t.value); }
    case RecordCall(n, o) =>
      if n in w.store.records && RecNext(w.store.records[n], w.store.runtime, o).Some? {
        CallKeepsKnown(w, n, o, w.store.records[n], RecNext(w.store.records[n], w.store.runtime, o).value, h);
      }
    case ReleasePrompt(ref, unknown) =>
      var t := ReleaseSubmission(w.store, ref, unknown);
      if t.Some? { ReleaseKeepsKnown(w.store, ref, unknown, h, t.value); }
    case _ =>
  }

  /** A callback is never refused: whatever became of its claim, its hash is known afterwards. */
  lemma CallbackIsKnown(w: World, h: Runtime, hash: Hash, ref: Ref, meta: Option<Sender>)
    requires w.held == Some(h)
    ensures Known(Next(w, Commit(RememberTx(hash, ref, meta))).store, hash)
  {
    SlotCallback(h, hash, ref, meta);
  }

  lemma SlotCallback(r: Runtime, hash: Hash, ref: Ref, meta: Option<Sender>)
    ensures Answers(SlotNext(r, RememberTx(hash, ref, meta)), hash)
  {
    if r.plan.Some? && SameOperation(r.plan.value, ref) {
      assert hash in r.plan.value.wal.hashes + [hash];
    } else {
      RememberKnows(r.late, ref, hash, ReportedSender(r, meta), hash);
    }
  }

  ghost predicate Answers(next: Option<Runtime>, hash: Hash) {
    next.Some? && (PlanKnows(next.value.plan, hash) || LateKnows(next.value.late, hash))
  }

  /** Nor is one of a finalization. */
  lemma FinCallbackIsKnown(w: World, n: NoteId, hash: Hash, ref: FinRef, meta: Option<Sender>)
    requires n in w.store.records && ref.note == w.store.records[n].note
    ensures Known(Next(w, RecordCall(n, FinStep(RememberFin(hash, ref, meta)))).store, hash)
  {
    var t := Next(w, RecordCall(n, FinStep(RememberFin(hash, ref, meta)))).store;
    CallbackIsLogged(w.store.records[n], hash, ref, meta);
    assert hash in t.records[n].fin.hashes;
    RecordKnows(t, n, hash);
  }

  ghost predicate NeverSettled(w: World, steps: seq<Step>, h: Hash) {
    steps == [] || (NeverSettled(w, steps[..|steps| - 1], h)
                    && !StepSettles(Run(w, steps[..|steps| - 1]), steps[|steps| - 1], h))
  }

  /** No broadcast is forgotten: once reported, a hash stays in a live log through every
      run, whatever tabs do, until a step settles it. */
  lemma {:induction false} NoBroadcastForgotten(w: World, steps: seq<Step>, h: Hash)
    requires Inv(w) && ClaimInv(w) && BookInv(w) && PossibleRun(w, steps) && Known(w.store, h)
    requires NeverSettled(w, steps, h)
    ensures Known(Run(w, steps).store, h)
  {
    if steps != [] {
      var front := steps[..|steps| - 1];
      NoBroadcastForgotten(w, front, h);
      RunKeepsInv(w, front);
      RunKeepsBook(w, front);
      StepKeepsKnown(Run(w, front), steps[|steps| - 1], h);
    }
  }

  /** From a new wallet: a hash that is on record at some point of a run stays on record in
      every continuation that does not settle it. */
  lemma ReportedStaysKnown(steps: seq<Step>, more: seq<Step>, h: Hash)
    requires PossibleRun(INITIAL, steps) && Known(Run(INITIAL, steps).store, h)
    requires PossibleRun(Run(INITIAL, steps), more) && NeverSettled(Run(INITIAL, steps), more, h)
    ensures Known(Run(Run(INITIAL, steps), more).store, h)
  {
    ReachableIsSafe(steps);
    RunKeepsClaims(INITIAL, steps);
    RunKeepsBook(INITIAL, steps);
    NoBroadcastForgotten(Run(INITIAL, steps), more, h);
  }
}
