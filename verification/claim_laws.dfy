/** Cancelled means never sent: in every interleaving, a wallet claim that is retired
    without a journaled nonce has not been broadcast and never will be. */
module ClaimLaws {
  import opened WalletTypes
  import opened AttemptLog
  import opened PlanLog
  import opened SelectedSlot
  import opened WithdrawalRecord
  import opened RecordLaws
  import opened NoteMoves
  import opened WalletWorld
  import opened WalletLaws
  import opened WalletRuns

  ghost predicate HistoryOk(c: Claims) {
    && c.journaled !! c.cancelled
    && c.sent <= c.journaled
    && c.background <= c.issued.Keys && c.journaled <= c.issued.Keys && c.cancelled <= c.issued.Keys
    && c.ended <= c.issued.Keys && c.ended !! c.background
  }

  /** The claim is alive or its driver has given up: a section that holds the lock may write
      a claim back that was released under its hands, but nobody is left to use it. */
  ghost predicate Usable(s: SubId, c: Claims) {
    s in c.cancelled ==> s in c.ended
  }

  /** An open claim of the selected note was issued for it by a tab, is usable at most by
      its own driver, and shows its nonce if one was journaled. */
  ghost predicate SlotClaimOk(p: Option<Plan>, c: Claims) {
    p.Some? && p.value.wal.sub.Some? ==>
      var s := p.value.wal.sub.value;
      && s in c.issued && c.issued[s] == p.value.note && p.value.op.Some?
      && s !in c.background && Usable(s, c)
      && (s in c.journaled ==> p.value.wal.sender.Some?)
  }

  /** The same for the plan of record n, as far as the plan is the note's own. */
  ghost predicate RecordPlanOk(n: NoteId, p: Option<Plan>, c: Claims) {
    p.Some? && p.value.wal.sub.Some? ==>
      var s := p.value.wal.sub.value;
      && s in c.issued && c.issued[s] == p.value.note && p.value.op.Some?
      && (s in c.background ==> p.value.note == n)
      && (p.value.note == n ==> Usable(s, c) && (s in c.journaled ==> p.value.wal.sender.Some?))
  }

  /** An open start claim without a nonce is the background driver's. */
  ghost predicate StartClaimOk(start: StartLog, c: Claims) {
    start.sub.Some? && start.sender.None? ==> start.sub.value in c.background
  }

  ghost predicate RecordClaimOk(n: NoteId, rec: Record, c: Claims) {
    RecordPlanOk(n, rec.plan, c) && StartClaimOk(rec.start, c)
  }

  /** Prompts and late attempts stem from claims of the slot or of a replacement. */
  ghost predicate Prompted(sub: SubId, c: Claims) {
    sub in c.issued && sub !in c.background
  }

  ghost predicate LatePrompted(late: seq<Late>, c: Claims) {
    forall e :: e in late ==> Prompted(e.sub, c)
  }

  /** An open claim has a prompt that can report for it. */
  ghost predicate HasPrompt(p: Option<Plan>, refs: set<Ref>) {
    p.Some? && p.value.wal.sub.Some? ==>
      exists ref :: ref in refs && Some(ref.sub) == p.value.wal.sub && SameOperation(p.value, ref)
  }

  ghost predicate PromptsOk(w: World) {
    && (forall ref :: ref in w.refs ==> Prompted(ref.sub, w.claims))
    && LatePrompted(w.store.runtime.late, w.claims)
    && HasPrompt(w.store.runtime.plan, w.refs)
    && (w.held.Some? ==> HasPrompt(w.held.value.plan, w.refs))
  }

  ghost predicate LogInv(w: World) {
    && HistoryOk(w.claims)
    && SlotClaimOk(w.store.runtime.plan, w.claims)
    && (w.held.Some? ==> SlotClaimOk(w.held.value.plan, w.claims))
    && (forall n :: n in w.store.records ==> RecordClaimOk(n, w.store.records[n], w.claims))
  }

  ghost predicate ClaimInv(w: World) {
    LogInv(w) && PromptsOk(w)
  }

  // --- What one operation does to the claim of a plan ------------------------------------

  /** The plan has no claim, or the claim it had, with at most a nonce added. */
  ghost predicate ClaimKept(p: Option<Plan>, q: Option<Plan>) {
    q.Some? && q.value.wal.sub.Some? ==>
      && p.Some? && q.value.wal.sub == p.value.wal.sub && q.value.note == p.value.note && q.value.op == p.value.op
      && q.value.mode == p.value.mode && q.value.destination == p.value.destination
      && (p.value.wal.sender.Some? ==> q.value.wal.sender.Some?)
  }

  lemma PlanKeepsClaim(p: Plan, o: PlanOp, next: Plan)
    requires PlanNext(p, o) == Some(next) && !o.ClaimPlan? && !o.ClaimReplacement?
    ensures ClaimKept(Some(p), Some(next))
  {
  }

  lemma SlotKeepsClaim(r: Runtime, o: SlotOp, next: Runtime)
    requires SlotNext(r, o) == Some(next) && ClaimedSub(o).None?
    ensures ClaimKept(r.plan, next.plan)
  {
    if o.PlanStep? { PlanKeepsClaim(r.plan.value, o.planOp, PlanNext(r.plan.value, o.planOp).value); }
  }

  /** A new claim replaces no other; a journaled nonce belongs to the open claim. */
  ghost predicate SlotOpened(p: Option<Plan>, o: SlotOp, q: Option<Plan>) {
    o.PlanStep? ==>
      && p.Some? && q.Some? && q.value.note == p.value.note
      && (ClaimedSub(o).Some? ==> p.value.wal.sub.None? && q.value.wal.sub == ClaimedSub(o) && q.value.op.Some?)
      && (forall s :: s in SlotJournaled(o) ==> q.value.wal.sub == Some(s) && q.value.wal.sender.Some?)
  }

  lemma SlotOpensClaim(r: Runtime, o: SlotOp, next: Runtime)
    requires SlotNext(r, o) == Some(next)
    ensures SlotOpened(r.plan, o, next.plan)
  {
    if o.PlanStep? { PlanKeepsMark(r.plan.value, o.planOp, PlanNext(r.plan.value, o.planOp).value); }
  }

  predicate OpensClaim(o: RecOp) {
    o.ClaimStart? || o.ReplaceStart?
  }

  ghost predicate StartKept(rec: Record, next: Record) {
    && ClaimKept(rec.plan, next.plan)
    && (next.start.sub.Some? ==> next.start.sub == rec.start.sub)
    && (next.start.sub.Some? && rec.start.sender.Some? ==> next.start.sender.Some?)
  }

  /** A record operation that opens a claim opens it in log and plan, for the record's note. */
  ghost predicate Opened(rec: Record, o: RecOp, next: Record) {
    OpensClaim(o) ==>
      && next.plan.Some? && next.plan.value.note == rec.note && next.plan.value.op.Some?
      && next.start.sub == Some(o.sub) && next.plan.value.wal.sub == Some(o.sub)
      && (o.ReplaceStart? ==> next.plan.value.wal.sender.Some? && next.start.sender.Some?)
  }

  lemma RecordOpensClaim(rec: Record, r: Runtime, o: RecOp, next: Record)
    requires RecNext(rec, r, o) == Some(next)
    ensures Opened(rec, o, next)
  {
    if o.ClaimStart? { WriteFrame(rec, DoClaimStart(rec, r, o.identity, o.op, o.sub)); }
    if o.ReplaceStart? { WriteFrame(rec, DoReplaceStart(rec, o.sub, o.sender)); }
  }

  ghost predicate JournaledAt(rec: Record, o: RecOp, next: Record) {
    o.JournalStart? ==>
      && rec.plan.Some? && rec.plan.value.wal.sub == Some(o.sub)
      && next.plan.Some? && next.plan.value.wal.sub == Some(o.sub) && next.plan.value.wal.sender.Some?
      && StartKept(rec, next)
  }

  lemma RecordJournals(rec: Record, r: Runtime, o: RecOp, next: Record)
    requires RecNext(rec, r, o) == Some(next)
    ensures JournaledAt(rec, o, next)
  {
    if o.JournalStart? { WriteFrame(rec, DoJournalStart(rec, o.identity, o.sub, o.op, o.sender)); }
  }

  ghost predicate ReleasedAt(rec: Record, o: RecOp, next: Record) {
    o.ReleaseStart? ==>
      && rec.plan.Some? && rec.plan.value.wal.sub == Some(o.sub) && rec.start.sub == Some(o.sub)
      && next.start.sub.None? && next.plan.Some? && next.plan.value.wal.sub.None?
  }

  lemma RecordReleases(rec: Record, r: Runtime, o: RecOp, next: Record)
    requires RecNext(rec, r, o) == Some(next)
    ensures ReleasedAt(rec, o, next)
  {
    if o.ReleaseStart? { WriteFrame(rec, DoReleaseStart(rec, r, o.identity, o.sub, o.op, o.requireNoNonce)); }
  }

  lemma RememberKeepsClaim(rec: Record, id: Identity, hash: Hash, sub: SubId, op: OpId, meta: Option<Sender>,
                           next: Record)
    requires DoRememberStart(rec, id, hash, sub, op, meta) == Some(next)
    ensures StartKept(rec, next)
  {
    if FindArchived(rec.history, sub, op).Some? {
      LateHashIsAuditOnly(rec, id, hash, sub, op, meta, next);
    } else {
      WriteFrame(rec, DoRememberLive(rec, hash, sub, op, meta));
      RememberLiveKeepsClaim(rec, hash, sub, op, meta, DoRememberLive(rec, hash, sub, op, meta).value);
    }
  }

  lemma HashKeepsClaim(rec: Record, hashes: seq<Hash>, attempts: seq<Attempt>, op: OpId, active: bool)
    ensures StartKept(rec, StartSaved(rec, WithStartHash(rec, hashes, attempts, op, active)))
  {
  }

  lemma RememberLiveKeepsClaim(rec: Record, hash: Hash, sub: SubId, op: OpId, meta: Option<Sender>, write: StartWrite)
    requires DoRememberLive(rec, hash, sub, op, meta) == Some(write)
    ensures StartKept(rec, StartSaved(rec, write))
  {
    var active := rec.start.sub == Some(sub) && rec.start.op == Some(op);
    HashKeepsClaim(rec, write.start.hashes, write.start.attempts, op, active);
  }

  lemma UpdateKeepsClaim(rec: Record, p: Patch, expected: Option<nat>, next: Record)
    requires DoUpdate(rec, p, expected) == Some(next)
    ensures StartKept(rec, next)
  {
    if !p.Close? && !p.StartResolved? { PatchKeepsPrivate(rec, p, expected, next); }
  }

  lemma RecordKeepsClaim(rec: Record, r: Runtime, o: RecOp, next: Record)
    requires !OpensClaim(o) && RecNext(rec, r, o) == Some(next)
    ensures StartKept(rec, next)
  {
    match o
    case JournalStart(id, sub, op, sender) => RecordJournals(rec, r, o, next);
    case StartAmbiguous(id, sub, op) => WriteFrame(rec, DoStartAmbiguous(rec, id, sub, op));
    case ReleaseStart(id, sub, op, requireNoNonce) => RecordReleases(rec, r, o, next);
    case RememberStart(id, hash, sub, op, meta) => RememberKeepsClaim(rec, id, hash, sub, op, meta, next);
    case Update(patch, expected) => UpdateKeepsClaim(rec, patch, expected, next);
    case _ =>
  }

  // --- Steps ---------------------------------------------------------------------------------

  /** The history grows; new journal entries and cancellations concern claims of note n,
      claims that are new, or claims whose driver has given up. */
  ghost predicate Advances(c: Claims, d: Claims, n: NoteId) {
    && (forall s :: s in c.issued ==> s in d.issued && d.issued[s] == c.issued[s])
    && (forall s :: s in c.background ==> s in d.background)
    && (forall s :: s in d.background && s in c.issued ==> s in c.background)
    && (forall s :: s in d.journaled && s !in c.journaled && s in c.issued ==> c.issued[s] == n)
    && (forall s :: s in d.cancelled && s !in c.cancelled && s in c.issued ==> c.issued[s] == n || s in d.ended)
    && c.ended <= d.ended
  }

  lemma OtherRecordStays(k: NoteId, rec: Record, c: Claims, d: Claims, n: NoteId)
    requires RecordClaimOk(k, rec, c) && Advances(c, d, n) && k != n
    ensures RecordClaimOk(k, rec, d)
  {
  }

  lemma OtherSlotStays(p: Option<Plan>, c: Claims, d: Claims, n: NoteId)
    requires SlotClaimOk(p, c) && Advances(c, d, n) && (p.Some? ==> p.value.note != n)
    ensures SlotClaimOk(p, d)
  {
  }

  lemma OtherRecordsStay(records: map<NoteId, Record>, c: Claims, d: Claims, n: NoteId)
    requires forall k :: k in records && k != n ==> RecordClaimOk(k, records[k], c)
    requires Advances(c, d, n)
    ensures forall k :: k in records && k != n ==> RecordClaimOk(k, records[k], d)
  {
    forall k | k in records && k != n ensures RecordClaimOk(k, records[k], d) {
      OtherRecordStays(k, records[k], c, d, n);
    }
  }

  ghost predicate PlanIsFor(p: Option<Plan>, n: NoteId) {
    p.Some? ==> p.value.note == n
  }

  /** A commit advances the history for the selected note, and the new slot fits it. */
  lemma CommitAdvances(c: Claims, before: Runtime, o: SlotOp, after: Runtime, n: NoteId)
    requires HistoryOk(c) && SlotClaimOk(before.plan, c) && PlanIsFor(before.plan, n)
    requires SlotNext(before, o) == Some(after) && PossibleClaim(o, c)
    ensures HistoryOk(SlotClaims(c, before, o, after)) && Advances(c, SlotClaims(c, before, o, after), n)
    ensures SlotClaimOk(after.plan, SlotClaims(c, before, o, after))
  {
    if ClaimedSub(o).None? { SlotKeepsClaim(before, o, after); }
    SlotOpensClaim(before, o, after);
    CommitAdvancesFrom(c, before, o, after, n);
  }

  lemma CommitAdvancesFrom(c: Claims, before: Runtime, o: SlotOp, after: Runtime, n: NoteId)
    requires HistoryOk(c) && SlotClaimOk(before.plan, c) && PlanIsFor(before.plan, n) && PossibleClaim(o, c)
    requires (ClaimedSub(o).None? ==> ClaimKept(before.plan, after.plan)) && SlotOpened(before.plan, o, after.plan)
    ensures HistoryOk(SlotClaims(c, before, o, after)) && Advances(c, SlotClaims(c, before, o, after), n)
    ensures SlotClaimOk(after.plan, SlotClaims(c, before, o, after))
  {
  }

  ghost predicate Claimless(p: Option<Plan>) {
    p.Some? ==> p.value.wal.sub.None?
  }

  lemma NoPlanNoClaim(c: Claims, before: Runtime, o: SlotOp, after: Runtime)
    requires before.plan.None? && SlotNext(before, o) == Some(after)
    ensures SlotClaims(c, before, o, after) == c && Claimless(after.plan)
  {
  }

  lemma CommitKeepsLogs(w: World, o: SlotOp, h: Runtime, r: Runtime)
    requires Inv(w) && LogInv(w) && Possible(w, Commit(o)) && Commits(w, o, h, r)
    ensures LogInv(Committed(w, o, h, r))
  {
    HeldIsSafe(w, h);
    if h.plan.Some? {
      var n := h.state.value.id;
      CommitAdvances(w.claims, h, o, r, n);
      OtherRecordsStay(w.store.records, w.claims, SlotClaims(w.claims, h, o, r), n);
    } else {
      NoPlanNoClaim(w.claims, h, o, r);
    }
  }

  /** A call on record n advances the history for note n, and the new record fits it. */
  lemma CallAdvances(c: Claims, n: NoteId, rec: Record, r: Runtime, o: RecOp, next: Record)
    requires HistoryOk(c) && RecordClaimOk(n, rec, c) && rec.note == n && RecNext(rec, r, o) == Some(next)
    requires PossibleCall(o, c)
    ensures HistoryOk(RecordClaims(c, n, rec, o)) && Advances(c, RecordClaims(c, n, rec, o), n)
    ensures RecordClaimOk(n, next, RecordClaims(c, n, rec, o))
  {
    if OpensClaim(o) {
      RecordOpensClaim(rec, r, o, next);
      OpeningAdvances(c, n, rec, o, next);
    } else {
      RecordKeepsClaim(rec, r, o, next);
      RecordJournals(rec, r, o, next);
      RecordReleases(rec, r, o, next);
      KeepingAdvances(c, n, rec, o, next);
    }
  }

  lemma OpeningAdvances(c: Claims, n: NoteId, rec: Record, o: RecOp, next: Record)
    requires HistoryOk(c) && OpensClaim(o) && PossibleCall(o, c) && rec.note == n && Opened(rec, o, next)
    ensures HistoryOk(RecordClaims(c, n, rec, o)) && Advances(c, RecordClaims(c, n, rec, o), n)
    ensures RecordClaimOk(n, next, RecordClaims(c, n, rec, o))
  {
  }

  lemma KeepingAdvances(c: Claims, n: NoteId, rec: Record, o: RecOp, next: Record)
    requires HistoryOk(c) && RecordClaimOk(n, rec, c) && !OpensClaim(o) && PossibleCall(o, c) && StartKept(rec, next)
    requires JournaledAt(rec, o, next) && ReleasedAt(rec, o, next)
    ensures HistoryOk(RecordClaims(c, n, rec, o)) && Advances(c, RecordClaims(c, n, rec, o), n)
    ensures RecordClaimOk(n, next, RecordClaims(c, n, rec, o))
  {
  }

  lemma CallKeepsLogs(w: World, n: NoteId, o: RecOp, rec: Record, next: Record)
    requires Inv(w) && LogInv(w) && Possible(w, RecordCall(n, o)) && Calls(w, n, o, rec, next)
    ensures LogInv(Recorded(w, n, o, rec, next))
  {
    CallAdvances(w.claims, n, rec, w.store.runtime, o, next);
    CallWriteKeepsClaims(w, n, next, RecordClaims(w.claims, n, rec, o), Recorded(w, n, o, rec, next));
  }

  /** Replacing record n while the slot and its copy stay. */
  lemma CallWriteKeepsClaims(w: World, n: NoteId, rec: Record, d: Claims, v: World)
    requires Inv(w) && LogInv(w) && n in w.store.records && HistoryOk(d) && Advances(w.claims, d, n)
    requires RecordClaimOk(n, rec, d)
    requires v.claims == d && v.store == w.store.(records := w.store.records[n := rec]) && v.held == w.held
    ensures LogInv(v)
  {
    OtherRecordsStay(w.store.records, w.claims, d, n);
    OtherSlotStays(w.store.runtime.plan, w.claims, d, n);
    if w.held.Some? {
      HeldIsSafe(w, w.held.value);
      OtherSlotStays(w.held.value.plan, w.claims, d, n);
    }
  }

  // --- Moves and released prompts -----------------------------------------------------------

  /** A transfer that retires the note's own claim does so before any nonce. */
  lemma TransferAdvances(s: Store, n: NoteId, e: Late, to: Destination, c: Claims, retired: set<SubId>)
    requires HistoryOk(c) && SlotOk(s.runtime) && SlotClaimOk(s.runtime.plan, c)
    requires n in s.records ==> RecordClaimOk(n, s.records[n], c) && !Selects(s.runtime, n)
    requires retired == if RetiredClaim(s, n, e, to).Some? && SourcePlan(s, n).Some? && SourcePlan(s, n).value.note == n
                        then {RetiredClaim(s, n, e, to).value.sub} else {}
    ensures var d := c.(cancelled := c.cancelled + retired);
            && HistoryOk(d) && Advances(c, d, n)
            && RecordPlanOk(n, TravellingPlan(s, n, e, to), d)
  {
  }

  lemma TransferKeepsStartClaim(s: Store, n: NoteId, e: Late, to: Destination, c: Claims)
    requires SlotClaimOk(s.runtime.plan, c)
    requires n in s.records ==> RecordClaimOk(n, s.records[n], c)
    ensures StartClaimOk(TransferredStart(s, n, e, to), c)
  {
  }

  /** Replacing record n, while the slot keeps its plan or gives it up. */
  lemma TransferWriteKeepsLogs(w: World, n: NoteId, rec: Record, late: seq<Late>, d: Claims, v: World)
    requires Inv(w) && LogInv(w) && HistoryOk(d) && Advances(w.claims, d, n) && RecordClaimOk(n, rec, d)
    requires v.claims == d && v.store == AfterTransfer(w.store, n, rec, late) && v.held == Some(v.store.runtime)
    ensures LogInv(v)
  {
    OtherRecordsStay(w.store.records, w.claims, d, n);
    if !Selects(w.store.runtime, n) { OtherSlotStays(w.store.runtime.plan, w.claims, d, n); }
  }

  lemma TransferKeepsLogs(w: World, m: Move, t: Store)
    requires Inv(w) && LogInv(w) && m.TransferNote? && MoveNext(w.store, m) == Some(t)
    ensures LogInv(Moved(w, t, m))
  {
    var k, e, rec, late := TransferParts(w.store, m, t);
    var retired := RetiredByMove(w.store, m);
    TransferAdvances(w.store, m.note, e, m.to, w.claims, retired);
    TransferKeepsStartClaim(w.store, m.note, e, m.to, w.claims);
    TransferWriteKeepsLogs(w, m.note, rec, late, w.claims.(cancelled := w.claims.cancelled + retired),
                           Moved(w, t, m));
  }

  /** Other moves carry the slot's plan into a record, or restore one without its claim. */
  lemma MoveCarriesClaim(s: Store, m: Move, c: Claims, t: Store)
    requires SlotOk(s.runtime) && SlotClaimOk(s.runtime.plan, c) && MoveNext(s, m) == Some(t) && !m.TransferNote?
    requires forall n :: n in s.records ==> RecordClaimOk(n, s.records[n], c)
    ensures SlotClaimOk(t.runtime.plan, c)
    ensures forall n :: n in t.records ==> RecordClaimOk(n, t.records[n], c)
  {
  }

  lemma MoveKeepsLogs(w: World, m: Move, t: Store)
    requires Inv(w) && LogInv(w) && MoveNext(w.store, m) == Some(t)
    ensures LogInv(Moved(w, t, m))
  {
    if m.TransferNote? {
      TransferKeepsLogs(w, m, t);
    } else {
      MoveCarriesClaim(w.store, m, w.claims, t);
      assert w.claims.cancelled + RetiredByMove(w.store, m) == w.claims.cancelled;
    }
  }

  lemma ReleaseKeepsClaims(s: Store, ref: Ref, unknown: bool, c: Claims, t: Store)
    requires SlotClaimOk(s.runtime.plan, c) && ReleaseSubmission(s, ref, unknown) == Some(t)
    requires forall n :: n in s.records ==> RecordClaimOk(n, s.records[n], c)
    ensures SlotClaimOk(t.runtime.plan, c)
    ensures forall n :: n in t.records ==> RecordClaimOk(n, t.records[n], c)
  {
  }

  /** A prompt releases without a nonce only a claim that has none journaled. */
  lemma PromptAdvances(s: Store, ref: Ref, unknown: bool, c: Claims, n: NoteId)
    requires HistoryOk(c) && SlotClaimOk(s.runtime.plan, c) && Prompted(ref.sub, c)
    requires forall n :: n in s.records ==> RecordClaimOk(n, s.records[n], c)
    ensures HistoryOk(PromptClaims(c, s, ref, unknown)) && Advances(c, PromptClaims(c, s, ref, unknown), n)
  {
  }

  /** Growing the history as a prompt does leaves every log as it fits. */
  lemma LogsStay(w: World, d: Claims)
    requires LogInv(w) && HistoryOk(d) && d == w.claims.(ended := d.ended, cancelled := d.cancelled)
    requires w.claims.ended <= d.ended && forall s :: s in d.cancelled && s !in w.claims.cancelled ==> s in d.ended
    ensures LogInv(w.(claims := d))
  {
    forall n | n in w.store.records ensures RecordClaimOk(n, w.store.records[n], d) {
      assert RecordClaimOk(n, w.store.records[n], w.claims);
    }
  }

  lemma ReleaseKeepsLogs(w: World, ref: Ref, unknown: bool)
    requires LogInv(w) && Prompted(ref.sub, w.claims)
    ensures LogInv(Released(w, ref, unknown))
  {
    var t := ReleaseSubmission(w.store, ref, unknown);
    PromptAdvances(w.store, ref, unknown, w.claims, 0);
    var v := if t.None? then w else Placed(w, t.value, w.held);
    if t.Some? { ReleaseKeepsClaims(w.store, ref, unknown, w.claims, t.value); }
    LogsStay(v, PromptClaims(w.claims, w.store, ref, unknown));
  }

  // --- Where prompts and late attempts come from -----------------------------------------------

  lemma RememberPrompted(late: seq<Late>, ref: Ref, hash: Hash, sender: Option<Sender>, c: Claims)
    requires LatePrompted(late, c) && Prompted(ref.sub, c)
    ensures LatePrompted(Retain(WithoutLate(late, ref.op, hash) + [LateOf(ref, hash, sender)]), c)
  {
    RetainKeepsUnresolved(WithoutLate(late, ref.op, hash) + [LateOf(ref, hash, sender)]);
  }

  lemma UpdatePrompted(late: seq<Late>, k: nat, status: LateStatus, c: Claims)
    requires k < |late| && LatePrompted(late, c)
    ensures LatePrompted(Retain(late[k := late[k].(status := status)]), c)
  {
    assert late[k] in late;
    RetainKeepsUnresolved(late[k := late[k].(status := status)]);
  }

  lemma SettlePrompted(late: seq<Late>, k: nat, status: LateStatus, others: LateStatus, c: Claims)
    requires k < |late| && LatePrompted(late, c)
    ensures LatePrompted(Retain(Settle(late, k, status, others)), c)
  {
    var settled := Settle(late, k, status, others);
    RetainKeepsUnresolved(settled);
    forall e | e in settled ensures Prompted(e.sub, c) {
      var i :| 0 <= i < |late| && settled[i] == e;
      assert late[i] in late;
    }
  }

  ghost predicate ReportPrompted(o: SlotOp, c: Claims) {
    o.RememberTx? ==> Prompted(o.ref.sub, c)
  }

  lemma CommitPrompted(r: Runtime, o: SlotOp, c: Claims)
    requires LatePrompted(r.late, c) && ReportPrompted(o, c)
    ensures LatePrompted(LateAfter(r, o), c)
  {
    match o
    case RememberTx(hash, ref, meta) => RememberPrompted(r.late, ref, hash, ReportedSender(r, meta), c);
    case UpdateLate(op, hash, status, expectedStatus) =>
      var k := FindLate(r.late, op, hash);
      if k.Some? { UpdatePrompted(r.late, k.value, status, c); }
    case ChallengeLate(op, hash, note, backgroundOwns) =>
      var k := FindLate(r.late, op, hash);
      if k.Some? { SettlePrompted(r.late, k.value, Challenged, Superseded, c); }
    case _ =>
  }

  lemma MovePrompted(s: Store, m: Move, c: Claims, t: Store)
    requires MoveNext(s, m) == Some(t) && LatePrompted(s.runtime.late, c)
    ensures LatePrompted(t.runtime.late, c)
  {
    if m.TransferNote? {
      var k := Transferable(s, m.op, m.txHash, m.note, m.to).value;
      SettlePrompted(s.runtime.late, k, if m.to.phase.ClosedUnconfirmed? then ClosedLate else Detached,
                     if Aggregates(s, m.note, m.to) then Detached else Superseded, c);
    }
  }

  lemma KeptClaimHasPrompt(p: Option<Plan>, q: Option<Plan>, refs: set<Ref>, more: set<Ref>)
    requires HasPrompt(p, refs) && ClaimKept(p, q) && refs <= more
    ensures HasPrompt(q, more)
  {
    if q.Some? && q.value.wal.sub.Some? {
      var ref :| ref in refs && Some(ref.sub) == p.value.wal.sub && SameOperation(p.value, ref);
      assert ref in more && SameOperation(q.value, ref);
    }
  }

  lemma CommitHasPrompt(r: Runtime, o: SlotOp, refs: set<Ref>, next: Runtime)
    requires HasPrompt(r.plan, refs) && SlotNext(r, o) == Some(next)
    ensures HasPrompt(next.plan, refs + SlotRefs(next, o))
  {
    if ClaimedSub(o).None? {
      SlotKeepsClaim(r, o, next);
      KeptClaimHasPrompt(r.plan, next.plan, refs, refs + SlotRefs(next, o));
    } else {
      SlotOpensClaim(r, o, next);
      var q := next.plan.value;
      var handed := if o.planOp.ClaimReplacement? then Some(o.planOp.sender) else None;
      var ref := ClaimRef(q, ClaimedSub(o).value, q.op.value, handed);
      assert ref in refs + SlotRefs(next, o) && SameOperation(q, ref);
    }
  }

  lemma MoveHasPrompt(s: Store, m: Move, refs: set<Ref>, t: Store)
    requires HasPrompt(s.runtime.plan, refs) && MoveNext(s, m) == Some(t)
    ensures HasPrompt(t.runtime.plan, refs)
  {
  }

  /** What a release leaves of late attempts and of the claim in the slot. */
  lemma ReleaseKeepsPrompts(s: Store, ref: Ref, unknown: bool, refs: set<Ref>, t: Store)
    requires HasPrompt(s.runtime.plan, refs) && ReleaseSubmission(s, ref, unknown) == Some(t)
    ensures HasPrompt(t.runtime.plan, refs) && t.runtime.late == s.runtime.late
  {
  }

  /** A write that hands out references only for claims that it issues. */
  lemma WriteKeepsPrompts(w: World, v: World, handed: set<Ref>)
    requires PromptsOk(w) && v.refs == w.refs + handed && LatePrompted(v.store.runtime.late, w.claims)
    requires w.claims.issued.Keys <= v.claims.issued.Keys
    requires forall s :: s in v.claims.background && s in w.claims.issued ==> s in w.claims.background
    requires forall ref :: ref in handed ==> Prompted(ref.sub, v.claims)
    requires HasPrompt(v.store.runtime.plan, v.refs) && (v.held.Some? ==> HasPrompt(v.held.value.plan, v.refs))
    ensures PromptsOk(v)
  {
  }

  // --- Steps keep logs and prompts ----------------------------------------------------------------

  lemma CommitKeepsClaims(w: World, o: SlotOp, h: Runtime, r: Runtime)
    requires Inv(w) && ClaimInv(w) && Possible(w, Commit(o)) && Commits(w, o, h, r)
    ensures ClaimInv(Committed(w, o, h, r))
  {
    CommitKeepsLogs(w, o, h, r);
    HeldIsSafe(w, h);
    CommitPrompted(h, o, w.claims);
    LateIsAfter(h, o, r);
    CommitHasPrompt(h, o, w.refs, r);
    WriteKeepsPrompts(w, Committed(w, o, h, r), SlotRefs(r, o));
  }

  lemma CallKeepsClaims(w: World, n: NoteId, o: RecOp, rec: Record, next: Record)
    requires Inv(w) && ClaimInv(w) && Possible(w, RecordCall(n, o)) && Calls(w, n, o, rec, next)
    ensures ClaimInv(Recorded(w, n, o, rec, next))
  {
    CallKeepsLogs(w, n, o, rec, next);
    var v := Recorded(w, n, o, rec, next);
    KeptClaimHasPrompt(w.store.runtime.plan, w.store.runtime.plan, w.refs, v.refs);
    if w.held.Some? { KeptClaimHasPrompt(w.held.value.plan, w.held.value.plan, w.refs, v.refs); }
    WriteKeepsPrompts(w, v, RecordRefs(next, o));
  }

  lemma MoveKeepsClaims(w: World, m: Move, t: Store)
    requires Inv(w) && ClaimInv(w) && MoveNext(w.store, m) == Some(t)
    ensures ClaimInv(Moved(w, t, m))
  {
    MoveKeepsLogs(w, m, t);
    MovePrompted(w.store, m, w.claims, t);
    MoveHasPrompt(w.store, m, w.refs, t);
    WriteKeepsPrompts(w, Moved(w, t, m), {});
  }

  lemma ReleasePromptKeepsClaims(w: World, ref: Ref, unknown: bool)
    requires ClaimInv(w) && ref in w.refs
    ensures ClaimInv(Released(w, ref, unknown))
  {
    ReleaseKeepsLogs(w, ref, unknown);
    var t := ReleaseSubmission(w.store, ref, unknown);
    if t.Some? { ReleaseKeepsPrompts(w.store, ref, unknown, w.refs, t.value); }
    WriteKeepsPrompts(w, Released(w, ref, unknown), {});
  }

  /** Locking, reloading and sending leave every log alone. */
  lemma QuietStepKeepsClaims(w: World, v: World)
    requires ClaimInv(w) && v.store == w.store && v.claims == w.claims.(sent := v.claims.sent) && v.refs == w.refs
    requires v.claims.sent <= w.claims.journaled
    requires v.held.None? || v.held == w.held || v.held == Some(w.store.runtime)
    ensures ClaimInv(v)
  {
    forall n | n in v.store.records ensures RecordClaimOk(n, v.store.records[n], v.claims) {
      assert RecordClaimOk(n, w.store.records[n], w.claims);
    }
  }

  lemma StepKeepsClaims(w: World, st: Step)
    requires Inv(w) && ClaimInv(w) && Possible(w, st)
    ensures ClaimInv(Next(w, st))
  {
    match st
    case Commit(o) =>
      if w.held.Some? && SlotNext(w.held.value, o).Some? {
        CommitKeepsClaims(w, o, w.held.value, SlotNext(w.held.value, o).value);
      }
    case MoveNote(m) => if MoveNext(w.store, m).Some? { MoveKeepsClaims(w, m, MoveNext(w.store, m).value); }
    case RecordCall(n, o) =>
      if n in w.store.records && RecNext(w.store.records[n], w.store.runtime, o).Some? {
        CallKeepsClaims(w, n, o, w.store.records[n], RecNext(w.store.records[n], w.store.runtime, o).value);
      }
    case ReleasePrompt(ref, unknown) => ReleasePromptKeepsClaims(w, ref, unknown);
    case _ => QuietStepKeepsClaims(w, Next(w, st));
  }

  // --- The theorem ---------------------------------------------------------------------------

  lemma {:induction false} RunKeepsClaims(w: World, steps: seq<Step>)
    requires Inv(w) && ClaimInv(w) && PossibleRun(w, steps)
    ensures ClaimInv(Run(w, steps)) && w.claims.cancelled <= Run(w, steps).claims.cancelled
  {
    if steps != [] {
      RunKeepsClaims(w, steps[..|steps| - 1]);
      RunKeepsInv(w, steps[..|steps| - 1]);
      StepKeepsClaims(Run(w, steps[..|steps| - 1]), steps[|steps| - 1]);
      HistoryGrows(Run(w, steps[..|steps| - 1]), steps[|steps| - 1]);
    }
  }

  /** A claim that is cancelled at some point of a run has neither a journaled nonce nor a
      broadcast then, nor at any later point of any continuation. */
  lemma CancelledMeansNeverSent(steps: seq<Step>, more: seq<Step>, sub: SubId)
    requires PossibleRun(INITIAL, steps) && sub in Run(INITIAL, steps).claims.cancelled
    requires PossibleRun(Run(INITIAL, steps), more)
    ensures sub !in Run(INITIAL, steps).claims.sent
    ensures sub !in Run(Run(INITIAL, steps), more).claims.sent
    ensures sub !in Run(Run(INITIAL, steps), more).claims.journaled
  {
    ReachableIsSafe(steps);
    RunKeepsClaims(INITIAL, steps);
    RunKeepsClaims(Run(INITIAL, steps), more);
  }

  /** The record keeps the retired claim, so that a late callback is recognised. */
  lemma RetiredIsDismissed(s: Store, n: NoteId, e: Late, to: Destination, c: Claim)
    requires RetiredClaim(s, n, e, to) == Some(c)
    ensures c in TransferredStart(s, n, e, to).dismissed
  {
    var d := Last(StartBefore(s, n).dismissed + [c], CLAIM_LIMIT);
    assert d[|d| - 1] == c;
  }
}
