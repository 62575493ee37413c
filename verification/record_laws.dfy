/** What every operation on a background record keeps, and what whole runs of them
    guarantee: the exactness of the finalization log and the finality of a close. */
module RecordLaws {
  import opened WalletTypes
  import opened AttemptLog
  import opened FinalizationLog
  import opened WithdrawalRecord

  ghost predicate PlanFits(p: Plan, clearance: bool) {
    (p.mode.Mutual? ==> p.clearance) && (p.proved && p.clearance ==> clearance)
  }

  /** Every claim the record would still answer for is already in its final history. */
  ghost predicate AllArchived(rec: Record) {
    forall c :: c in PriorClaims(rec) ==> FindArchived(rec.history, c.sub, c.op).Some?
  }

  /** A closed record holds no private material and no live claim. */
  ghost predicate Erased(rec: Record) {
    && rec.state.None? && rec.plan.None? && rec.nullifier.None?
    && rec.start.sub.None? && rec.fin.sub.None?
  }

  ghost predicate PlanOk(rec: Record) {
    rec.plan.Some? ==> PlanFits(rec.plan.value, rec.clearance)
  }

  ghost predicate ShapeOk(rec: Record) {
    && (rec.state.Some? ==> rec.state.value.id == rec.note)
    && (rec.state.None? ==> rec.phase.ClosedPhase?)
    && (rec.phase.ClosedPhase? ==> Erased(rec))
    && PlanOk(rec)
    && ClaimOk(rec)
  }

  ghost predicate RecOk(rec: Record) {
    && ShapeOk(rec)
    && LogOk(rec.fin)
    && (rec.phase.ClosedPhase? ==> AllArchived(rec))
  }

  // --- The sanitizing close ----------------------------------------------------

  /** The last history entry answers for a claim that it lists. */
  lemma ArchivedByLast(history: seq<Resolved>, c: Claim)
    requires history != []
    requires c in history[|history| - 1].claims || c in ClaimsOf(history[|history| - 1].attempts)
    ensures FindArchived(history, c.sub, c.op).Some?
  {
    assert c in ArchivedClaims(history[|history| - 1]);
  }

  lemma SanitizeArchives(rec: Record)
    ensures AllArchived(Sanitize(rec))
  {
    var s := Sanitize(rec);
    forall c | c in PriorClaims(s) ensures FindArchived(s.history, c.sub, c.op).Some? {
      ArchivedByLast(s.history, c);
    }
  }

  lemma AnnotationKeepsFound(history: seq<Resolved>, k: nat, hash: Hash, c: Claim)
    requires k < |history|
    requires FindArchived(history, c.sub, c.op).Some?
    ensures FindArchived(history[k := history[k].(lateObserved := history[k].lateObserved + [hash])], c.sub, c.op).Some?
  {
    var next := history[k := history[k].(lateObserved := history[k].lateObserved + [hash])];
    var i := FindArchived(history, c.sub, c.op).value;
    assert ArchivedClaims(next[i]) == ArchivedClaims(history[i]);
  }

  /** Only the hashes that history entries observed late, and the revision, are new. */
  ghost predicate IsAudit(rec: Record, next: Record) {
    && next == rec.(history := next.history, revision := rec.revision + 1)
    && |next.history| == |rec.history|
    && forall k :: 0 <= k < |rec.history| ==>
         next.history[k] == rec.history[k].(lateObserved := next.history[k].lateObserved)
  }

  /** A late hash for an archived claim changes only the audit history of the record. */
  lemma LateHashIsAuditOnly(rec: Record, id: Identity, hash: Hash, sub: SubId, op: OpId, meta: Option<Sender>,
                            next: Record)
    requires FindArchived(rec.history, sub, op).Some?
    requires DoRememberStart(rec, id, hash, sub, op, meta) == Some(next)
    ensures IsAudit(rec, next)
  {
  }

  /** On a closed record every claim that could report a hash is archived already. */
  lemma ClosedAnswersFromArchive(rec: Record, id: Identity, hash: Hash, sub: SubId, op: OpId, meta: Option<Sender>,
                                 next: Record)
    requires Erased(rec) && AllArchived(rec) && DoRememberStart(rec, id, hash, sub, op, meta) == Some(next)
    ensures FindArchived(rec.history, sub, op).Some?
    ensures AllArchived(next)
  {
    var prior := FindClaim(PriorClaims(rec), sub, op);
    assert prior.Some? ==> FindArchived(rec.history, prior.value.sub, prior.value.op).Some?;
    LateHashIsAuditOnly(rec, id, hash, sub, op, meta, next);
    var k := FindArchived(rec.history, sub, op).value;
    assert next.history == rec.history[k := rec.history[k].(lateObserved := rec.history[k].lateObserved + [hash])];
    forall c | c in PriorClaims(next) ensures FindArchived(next.history, c.sub, c.op).Some? {
      assert c in PriorClaims(rec);
      AnnotationKeepsFound(rec.history, k, hash, c);
    }
  }

  // --- One step ------------------------------------------------------------------

  lemma UpdateKeepsOk(rec: Record, p: Patch, expected: Option<nat>, next: Record)
    requires RecOk(rec) && DoUpdate(rec, p, expected) == Some(next)
    ensures RecOk(next)
  {
    if p.Close? {
      SanitizeArchives(rec.(phase := ClosedPhase, revision := rec.revision + 1));
    } else {
      UpdateKeepsAudit(rec, p, expected, next);
      UpdateKeepsShape(rec, p, expected, next);
    }
  }

  lemma ResolveKeepsShape(rec: Record, status: ChainStatus, claims: seq<Claim>, block: nat)
    requires ShapeOk(rec)
    ensures ShapeOk(Resolve(rec, status, claims, block))
  {
  }

  lemma UpdateKeepsShape(rec: Record, p: Patch, expected: Option<nat>, next: Record)
    requires ShapeOk(rec) && !p.Close? && DoUpdate(rec, p, expected) == Some(next)
    ensures ShapeOk(next)
  {
    if p.StartResolved? {
      ResolveKeepsShape(rec.(revision := rec.revision + 1), p.status, p.claims, p.block);
    } else {
      PatchKeepsPrivate(rec, p, expected, next);
    }
  }

  /** Patches that report the chain's view never touch private material or claims; one
      that waits for the wallet is only written over a live finalization claim. */
  lemma PatchKeepsPrivate(rec: Record, p: Patch, expected: Option<nat>, next: Record)
    requires !p.Close? && !p.StartResolved? && DoUpdate(rec, p, expected) == Some(next)
    ensures next.note == rec.note && next.state == rec.state && next.plan == rec.plan
    ensures next.nullifier == rec.nullifier
    ensures next.start.sub == rec.start.sub && next.fin == rec.fin && next.clearance == rec.clearance
    ensures next.phase == rec.phase || !rec.phase.ClosedPhase?
    ensures next.phase.ClosedPhase? ==> rec.phase.ClosedPhase?
    ensures next.phase.AmbiguousPhase? ==> rec.phase.AmbiguousPhase?
    ensures next.phase.AwaitingPhase? ==> rec.phase.AwaitingPhase? || rec.fin.sub.Some?
  {
  }

  lemma UpdateKeepsAudit(rec: Record, p: Patch, expected: Option<nat>, next: Record)
    requires !p.Close? && DoUpdate(rec, p, expected) == Some(next)
    ensures next.fin == rec.fin && next.history == rec.history && PriorClaims(next) == PriorClaims(rec)
    ensures next.phase.ClosedPhase? ==> rec.phase.ClosedPhase?
    ensures next.note == rec.note && next.clearance == rec.clearance && next.state == rec.state
  {
  }

  /** Finalization never closes a record, nor reopens a closed one that has no live claim. */
  lemma FinKeepsClosed(rec: Record, o: FinOp, write: FinWrite)
    requires FinNext(rec, o) == Some(write)
    ensures write.phase.ClosedPhase? ==> rec.phase.ClosedPhase?
    ensures rec.phase.ClosedPhase? && rec.fin.sub.None? ==>
              write.phase.ClosedPhase? && write.fin.sub.None?
  {
  }

  lemma FinKeepsRecOk(rec: Record, o: FinOp, write: FinWrite)
    requires RecOk(rec) && FinNext(rec, o) == Some(write)
    ensures RecOk(FinSaved(rec, write))
  {
    FinKeepsClaim(rec, o, write);
    FinKeepsLog(rec, o, write);
    FinKeepsClosed(rec, o, write);
    assert PriorClaims(FinSaved(rec, write)) == PriorClaims(rec);
  }

  predicate NeedsPrivateState(o: RecOp) {
    !o.FinStep? && !o.Update? && !o.RememberStart?
  }

  lemma WriteFrame(rec: Record, w: Option<StartWrite>)
    requires StartWritten(rec, w).Some?
    ensures w.Some? && StartWritten(rec, w).value == StartSaved(rec, w.value)
  {
  }

  ghost predicate StartFramed(rec: Record, next: Record, o: RecOp) {
    && !rec.phase.ClosedPhase? && !next.phase.ClosedPhase?
    && next.note == rec.note && next.state == rec.state && next.clearance == rec.clearance
    && (next.fin == rec.fin || (o.ResolveForRetry? && rec.fin.hashes == [] && next.fin == rec.fin.(attempts := [])))
    && (next.phase == rec.phase || next.phase.ParkedPhase? || next.phase.SubmittedUnconfirmed?)
  }

  predicate RewritesPlan(o: RecOp) {
    o.Repair? || o.ResolveForRetry? || o.SavePlan?
  }

  lemma RewriteFrame(rec: Record, r: Runtime, o: RecOp, next: Record)
    requires ShapeOk(rec) && RewritesPlan(o) && RecNext(rec, r, o) == Some(next)
    ensures StartFramed(rec, next, o)
  {
  }

  /** The start operations other than a hash report need private state or an open claim,
      so they are refused on a closed record; they leave the finalization log alone,
      except that a resolved retry drops the attempts of an empty log. */
  lemma StartFrame(rec: Record, r: Runtime, o: RecOp, next: Record)
    requires ShapeOk(rec) && NeedsPrivateState(o) && RecNext(rec, r, o) == Some(next)
    ensures StartFramed(rec, next, o)
  {
    match o
    case ClaimStart(id, op, sub) => WriteFrame(rec, DoClaimStart(rec, r, id, op, sub));
    case JournalStart(id, sub, op, sender) => WriteFrame(rec, DoJournalStart(rec, id, sub, op, sender));
    case StartAmbiguous(id, sub, op) => WriteFrame(rec, DoStartAmbiguous(rec, id, sub, op));
    case ReleaseStart(id, sub, op, requireNoNonce) =>
      WriteFrame(rec, DoReleaseStart(rec, r, id, sub, op, requireNoNonce));
    case ReplaceStart(sub, sender) => WriteFrame(rec, DoReplaceStart(rec, sub, sender));
    case _ => RewriteFrame(rec, r, o, next);
  }

  lemma StartKeepsPlan(rec: Record, r: Runtime, o: RecOp, next: Record)
    requires ShapeOk(rec) && NeedsPrivateState(o) && RecNext(rec, r, o) == Some(next)
    ensures PlanOk(next)
  {
  }

  lemma StartHashShape(rec: Record, hashes: seq<Hash>, attempts: seq<Attempt>, op: OpId, active: bool)
    requires ShapeOk(rec)
    ensures ShapeOk(StartSaved(rec, WithStartHash(rec, hashes, attempts, op, active)))
    ensures WithStartHash(rec, hashes, attempts, op, active).phase.ClosedPhase? ==> rec.phase.ClosedPhase?
  {
  }

  lemma RememberLiveShape(rec: Record, hash: Hash, sub: SubId, op: OpId, meta: Option<Sender>, write: StartWrite)
    requires ShapeOk(rec) && DoRememberLive(rec, hash, sub, op, meta) == Some(write)
    ensures ShapeOk(StartSaved(rec, write))
    ensures write.phase.ClosedPhase? ==> rec.phase.ClosedPhase?
  {
    var active := rec.start.sub == Some(sub) && rec.start.op == Some(op);
    StartHashShape(rec, write.start.hashes, write.start.attempts, op, active);
  }

  lemma RememberKeepsOk(rec: Record, id: Identity, hash: Hash, sub: SubId, op: OpId, meta: Option<Sender>, next: Record)
    requires RecOk(rec) && DoRememberStart(rec, id, hash, sub, op, meta) == Some(next)
    ensures RecOk(next)
  {
    if rec.phase.ClosedPhase? {
      ClosedAnswersFromArchive(rec, id, hash, sub, op, meta, next);
    }
    if FindArchived(rec.history, sub, op).Some? {
      LateHashIsAuditOnly(rec, id, hash, sub, op, meta, next);
    } else {
      RememberLiveShape(rec, hash, sub, op, meta, DoRememberLive(rec, hash, sub, op, meta).value);
    }
  }

  lemma RecKeepsOk(rec: Record, r: Runtime, o: RecOp, next: Record)
    requires RecOk(rec) && RecNext(rec, r, o) == Some(next)
    ensures RecOk(next)
  {
    match o
    case FinStep(finOp) => FinKeepsRecOk(rec, finOp, FinNext(rec, finOp).value);
    case Update(patch, expected) => UpdateKeepsOk(rec, patch, expected, next);
    case RememberStart(id, hash, sub, op, meta) => RememberKeepsOk(rec, id, hash, sub, op, meta, next);
    case _ =>
      StartFrame(rec, r, o, next);
      StartKeepsPlan(rec, r, o, next);
  }

  /** A record is pending only while no finalization is open: every operation keeps that. */
  lemma PendingStaysIdle(rec: Record, r: Runtime, o: RecOp, next: Record)
    requires RecOk(rec) && PendingIsIdle(rec) && RecNext(rec, r, o) == Some(next)
    ensures PendingIsIdle(next)
  {
    match o
    case FinStep(finOp) => FinKeepsPendingIdle(rec, finOp, FinNext(rec, finOp).value);
    case Update(patch, expected) => PatchKeepsPendingIdle(rec, patch, expected, next);
    case RememberStart(id, hash, sub, op, meta) => RememberFrame(rec, id, hash, sub, op, meta, next);
    case _ => StartFrame(rec, r, o, next);
  }

  lemma PatchKeepsPendingIdle(rec: Record, p: Patch, expected: Option<nat>, next: Record)
    requires PendingIsIdle(rec) && DoUpdate(rec, p, expected) == Some(next)
    ensures PendingIsIdle(next)
  {
    if !p.Close? { UpdateKeepsAudit(rec, p, expected, next); }
  }

  predicate Closes(o: RecOp) {
    o.Update? && o.patch.Close?
  }

  /** No operation moves the record to another note or changes its withdrawal-only mark,
      and only the sanitizing close takes the private state out of it. */
  lemma RecFrame(rec: Record, r: Runtime, o: RecOp, next: Record)
    requires ShapeOk(rec) && RecNext(rec, r, o) == Some(next)
    ensures next.note == rec.note && next.clearance == rec.clearance
    ensures next.state == rec.state || (Closes(o) && next.state.None? && next.phase.ClosedPhase?)
  {
    match o
    case FinStep(finOp) =>
    case Update(patch, expected) => if !patch.Close? { UpdateKeepsAudit(rec, patch, expected, next); }
    case RememberStart(id, hash, sub, op, meta) => RememberFrame(rec, id, hash, sub, op, meta, next);
    case _ => StartFrame(rec, r, o, next);
  }

  lemma RememberFrame(rec: Record, id: Identity, hash: Hash, sub: SubId, op: OpId, meta: Option<Sender>, next: Record)
    requires DoRememberStart(rec, id, hash, sub, op, meta) == Some(next)
    ensures next.note == rec.note && next.clearance == rec.clearance && next.state == rec.state && next.fin == rec.fin
    ensures next.phase == rec.phase || next.phase.SubmittedUnconfirmed?
  {
  }

  // --- Whole runs of one record ----------------------------------------------------

  /** One call: what the transaction read of the selected slot, and the operation. */
  datatype Call = Call(slot: Runtime, op: RecOp)

  function RecStep(rec: Record, c: Call): Record {
    var next := RecNext(rec, c.slot, c.op);
    if next.Some? then next.value else rec
  }

  function RecRun(rec: Record, calls: seq<Call>): Record {
    if calls == [] then rec else RecStep(RecRun(rec, calls[..|calls| - 1]), calls[|calls| - 1])
  }

  lemma {:induction false} RunKeepsOk(rec: Record, calls: seq<Call>)
    requires RecOk(rec)
    ensures RecOk(RecRun(rec, calls))
  {
    if calls != [] {
      var front, c := calls[..|calls| - 1], calls[|calls| - 1];
      RunKeepsOk(rec, front);
      var before := RecRun(rec, front);
      var next := RecNext(before, c.slot, c.op);
      if next.Some? { RecKeepsOk(before, c.slot, c.op, next.value); }
    }
  }

  /** What the finalization log ought to hold: every hash ever reported, minus those
      released by hash since, minus everything erased by a sanitizing close. */
  ghost function Reported(rec: Record, calls: seq<Call>): set<Hash> {
    if calls == [] then HashSet(rec.fin.hashes)
    else
      var front, c := calls[..|calls| - 1], calls[|calls| - 1];
      var log := Reported(rec, front);
      if RecNext(RecRun(rec, front), c.slot, c.op).None? then log else LogAfter(log, c.op)
  }

  ghost function LogAfter(log: set<Hash>, o: RecOp): set<Hash> {
    if o.FinStep? && o.finOp.RememberFin? then log + {o.finOp.hash}
    else if o.FinStep? && o.finOp.ReleaseFinHash? then log - {o.finOp.hash}
    else if Closes(o) then {}
    else log
  }

  lemma StepChangesLogAsReported(rec: Record, c: Call, next: Record)
    requires RecOk(rec) && RecNext(rec, c.slot, c.op) == Some(next)
    ensures HashSet(next.fin.hashes) == LogAfter(HashSet(rec.fin.hashes), c.op)
  {
    match c.op
    case FinStep(finOp) => FinKeepsLog(rec, finOp, FinNext(rec, finOp).value);
    case Update(patch, expected) => if !patch.Close? { UpdateKeepsAudit(rec, patch, expected, next); }
    case RememberStart(id, hash, sub, op, meta) => RememberFrame(rec, id, hash, sub, op, meta, next);
    case _ => StartFrame(rec, c.slot, c.op, next);
  }

  /** Exactness of the finalization log over every run: the saved hashes are exactly the
      reported ones, without duplicates, whatever claims the reports stem from; and a
      record that waits for the wallet, or for an unknown answer, has a live claim. */
  lemma {:induction false} FinalizationLogIsExact(rec: Record, calls: seq<Call>)
    requires RecOk(rec)
    ensures HashSet(RecRun(rec, calls).fin.hashes) == Reported(rec, calls)
    ensures NoDup(RecRun(rec, calls).fin.hashes)
    ensures RecRun(rec, calls).phase.AwaitingPhase? || RecRun(rec, calls).phase.AmbiguousPhase?
            ==> RecRun(rec, calls).fin.sub.Some?
  {
    RunKeepsOk(rec, calls);
    if calls != [] {
      var front, c := calls[..|calls| - 1], calls[|calls| - 1];
      FinalizationLogIsExact(rec, front);
      RunKeepsOk(rec, front);
      var next := RecNext(RecRun(rec, front), c.slot, c.op);
      if next.Some? { StepChangesLogAsReported(RecRun(rec, front), c, next.value); }
    }
  }

  lemma FinCountsClaims(rec: Record, o: FinOp, write: FinWrite)
    requires FinNext(rec, o) == Some(write)
    ensures var f := write.fin;
            && rec.fin.generation <= f.generation <= rec.fin.generation + 1
            && (f.sub.Some? && f.sub != rec.fin.sub ==> f.generation == rec.fin.generation + 1)
            && (f.generation == rec.fin.generation + 1 ==> rec.fin.sub.None? && f.sub.Some?)
  {
  }

  /** The generation counts the claims: it never falls, and it rises by one exactly when
      a new claim is opened, so claims never share a generation. */
  lemma StepCountsClaims(rec: Record, c: Call, next: Record)
    requires RecOk(rec) && RecNext(rec, c.slot, c.op) == Some(next)
    ensures rec.fin.generation <= next.fin.generation <= rec.fin.generation + 1
    ensures next.fin.sub.Some? && next.fin.sub != rec.fin.sub ==> next.fin.generation == rec.fin.generation + 1
    ensures next.fin.generation == rec.fin.generation + 1 ==> rec.fin.sub.None? && next.fin.sub.Some?
  {
    if c.op.FinStep? {
      FinCountsClaims(rec, c.op.finOp, FinNext(rec, c.op.finOp).value);
    } else {
      OthersOpenNoClaim(rec, c, next);
    }
  }

  lemma CloseErases(rec: Record, expected: Option<nat>, next: Record)
    requires DoUpdate(rec, Close, expected) == Some(next)
    ensures next.phase.ClosedPhase? && Erased(next) && next.fin.hashes == []
            && next.fin.generation == rec.fin.generation
            && next.note == rec.note && next.clearance == rec.clearance
  {
  }

  /** Only finalization operations open finalization claims. */
  lemma OthersOpenNoClaim(rec: Record, c: Call, next: Record)
    requires ShapeOk(rec) && !c.op.FinStep? && RecNext(rec, c.slot, c.op) == Some(next)
    ensures var f := next.fin;
            f.generation == rec.fin.generation && (f.sub == rec.fin.sub || f.sub.None?)
  {
    match c.op
    case Update(patch, expected) =>
      if patch.Close? { CloseErases(rec, expected, next); } else { UpdateKeepsAudit(rec, patch, expected, next); }
    case RememberStart(id, hash, sub, op, meta) => RememberFrame(rec, id, hash, sub, op, meta, next);
    case _ => StartFrame(rec, c.slot, c.op, next);
  }

  lemma {:induction false} GenerationNeverFalls(rec: Record, calls: seq<Call>)
    requires RecOk(rec)
    ensures rec.fin.generation <= RecRun(rec, calls).fin.generation
  {
    if calls != [] {
      var front, c := calls[..|calls| - 1], calls[|calls| - 1];
      GenerationNeverFalls(rec, front);
      RunKeepsOk(rec, front);
      var next := RecNext(RecRun(rec, front), c.slot, c.op);
      if next.Some? { StepCountsClaims(RecRun(rec, front), c, next.value); }
    }
  }

  /** Once a later claim has been opened, the prompt of an earlier one can never again
      release, mark or journal anything, however the run continues. */
  lemma SupersededForever(rec: Record, ref: FinRef, calls: seq<Call>, sender: Sender, revision: nat)
    requires RecOk(rec) && ref.generation < rec.fin.generation
    ensures var later := RecRun(rec, calls);
            && FinNext(later, ReleaseFinClaim(ref)).None? && FinNext(later, FinAmbiguous(ref)).None?
            && FinNext(later, ReleaseFinReplacement(ref)).None? && FinNext(later, JournalFin(ref, sender)).None?
            && FinNext(later, ResolveChallenged(ref, revision)).None?
  {
    GenerationNeverFalls(rec, calls);
    SupersededClaimIsPowerless(RecRun(rec, calls), ref, sender, revision);
  }

  /** Closed is absorbing: no run of operations leaves the closed phase or puts note
      state, plan or nullifier back. */
  lemma {:induction false} ClosedIsAbsorbing(rec: Record, calls: seq<Call>)
    requires RecOk(rec) && rec.phase.ClosedPhase?
    ensures RecRun(rec, calls).phase.ClosedPhase? && Erased(RecRun(rec, calls))
  {
    RunKeepsOk(rec, calls);
    if calls != [] {
      var front, c := calls[..|calls| - 1], calls[|calls| - 1];
      ClosedIsAbsorbing(rec, front);
      RunKeepsOk(rec, front);
      var next := RecNext(RecRun(rec, front), c.slot, c.op);
      if next.Some? { ClosedStep(RecRun(rec, front), c, next.value); }
    }
  }

  lemma ClosedStep(rec: Record, c: Call, next: Record)
    requires RecOk(rec) && rec.phase.ClosedPhase? && RecNext(rec, c.slot, c.op) == Some(next)
    ensures next.phase.ClosedPhase? && (c.op.RememberStart? ==> IsAudit(rec, next))
  {
    match c.op
    case FinStep(finOp) => FinKeepsClosed(rec, finOp, FinNext(rec, finOp).value);
    case Update(patch, expected) =>
    case RememberStart(id, hash, sub, op, meta) =>
      ClosedAnswersFromArchive(rec, id, hash, sub, op, meta, next);
      LateHashIsAuditOnly(rec, id, hash, sub, op, meta, next);
    case _ => StartFrame(rec, c.slot, c.op, next);
  }
}
