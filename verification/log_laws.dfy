/** How the hash lists of plan and record hang together, in every reachable state: an
    attempt stands behind each hash of a plan, and a record that answers for a claim of the
    background driver has every hash of its plan in its own start log. */
module LogLaws {
  import opened WalletTypes
  import opened AttemptLog
  import opened PlanLog
  import opened SelectedSlot
  import opened WithdrawalRecord
  import opened RecordLaws
  import opened NoteMoves
  import opened WalletWorld
  import opened WalletLaws
  import opened WalletRuns
  import opened ClaimLaws

  /** An attempt stands behind every hash. */
  ghost predicate Backed(w: Wal) {
    forall h :: h in w.hashes ==> HasHash(w.attempts, h)
  }

  ghost predicate AttemptsIssued(s: seq<Attempt>, issued: set<SubId>) {
    forall a :: a in s ==> a.sub in issued
  }

  ghost predicate ClaimsIssued(s: seq<Claim>, issued: set<SubId>) {
    forall c :: c in s ==> c.sub in issued
  }

  ghost predicate PlanLogOk(p: Option<Plan>, issued: set<SubId>) {
    p.Some? ==> Backed(p.value.wal) && AttemptsIssued(p.value.wal.attempts, issued)
  }

  ghost predicate StartIssued(s: StartLog, issued: set<SubId>) {
    && (s.sub.Some? ==> s.sub.value in issued)
    && ClaimsIssued(s.dismissed, issued) && ClaimsIssued(s.superseded, issued) && ClaimsIssued(s.ambiguous, issued)
    && AttemptsIssued(s.attempts, issued)
  }

  /** The start log answers for one of these claims. */
  ghost predicate Tracks(s: StartLog, subs: set<SubId>) {
    || (s.sub.Some? && s.sub.value in subs)
    || (exists c :: c in s.dismissed + s.superseded + s.ambiguous && c.sub in subs)
    || (exists a :: a in s.attempts && a.sub in subs)
  }

  ghost predicate Within(p: Option<Plan>, hashes: seq<Hash>) {
    p.Some? ==> forall h :: h in p.value.wal.hashes ==> h in hashes
  }

  /** Every hash of the plan is in the start log or has an attempt in the plan. */
  ghost predicate PlanCovered(p: Option<Plan>, hashes: seq<Hash>) {
    p.Some? ==> forall h :: h in p.value.wal.hashes ==> h in hashes || HasHash(p.value.wal.attempts, h)
  }

  ghost predicate RecLogOk(rec: Record, issued: set<SubId>, background: set<SubId>) {
    && StartIssued(rec.start, issued)
    && (rec.plan.Some? ==> AttemptsIssued(rec.plan.value.wal.attempts, issued))
    && PlanCovered(rec.plan, rec.start.hashes)
    && (Tracks(rec.start, background) ==> Within(rec.plan, rec.start.hashes) && (rec.plan.None? ==> rec.state.None?))
  }

  ghost predicate BookInv(w: World) {
    && PlanLogOk(w.store.runtime.plan, w.claims.issued.Keys)
    && (w.held.Some? ==> PlanLogOk(w.held.value.plan, w.claims.issued.Keys))
    && (forall n :: n in w.store.records ==> RecLogOk(w.store.records[n], w.claims.issued.Keys, w.claims.background))
  }

  // --- The slot ---------------------------------------------------------------------------------

  lemma RememberBacked(w: Wal, hash: Hash, sub: SubId, op: OpId, meta: Option<Sender>)
    requires Backed(w)
    ensures Backed(WithHash(w, hash, sub, op, meta))
  {
    var next := WithHash(w, hash, sub, op, meta);
    var a := Attempt(hash, sub, op, First(meta, w.sender));
    assert next.attempts == WithoutAttempt(w.attempts, hash) + [a];
    forall h | h in next.hashes ensures HasHash(next.attempts, h) {
      if h == hash {
        assert a in next.attempts;
      } else {
        assert h in w.hashes + [hash];
        var b :| b in w.attempts && b.hash == h;
        assert b in next.attempts;
      }
    }
  }

  lemma ReleaseBacked(w: Wal, hash: Hash, unknown: bool)
    requires Backed(w)
    ensures Backed(WithoutHash(w, hash, unknown))
  {
    var next := WithoutHash(w, hash, unknown);
    forall h | h in next.hashes ensures HasHash(next.attempts, h) {
      var b :| b in w.attempts && b.hash == h;
      assert b in next.attempts;
    }
  }

  lemma PlanKeepsLog(p: Plan, o: PlanOp, issued: set<SubId>)
    requires PlanLogOk(Some(p), issued) && PlanNext(p, o).Some? && (o.Remember? ==> o.ref.sub in issued)
    ensures PlanLogOk(PlanNext(p, o), issued)
  {
    match o
    case Remember(hash, ref, meta) => RememberBacked(p.wal, hash, ref.sub, ref.op, meta);
    case ReleaseHash(hash, owner) =>
      ReleaseBacked(p.wal, hash, p.outcome.AmbiguousOutcome? || p.wal.phase.Ambiguous?);
    case _ =>
  }

  lemma SlotKeepsLog(r: Runtime, o: SlotOp, issued: set<SubId>, next: Runtime)
    requires PlanLogOk(r.plan, issued) && SlotNext(r, o) == Some(next) && (o.RememberTx? ==> o.ref.sub in issued)
    ensures PlanLogOk(next.plan, issued)
  {
    match o
    case PlanStep(planOp) => PlanKeepsLog(r.plan.value, planOp, issued);
    case RememberTx(hash, ref, meta) =>
      if r.plan.Some? && SameOperation(r.plan.value, ref) {
        PlanKeepsLog(r.plan.value, Remember(hash, ref, meta), issued);
      }
    case _ =>
  }

  // --- One record ---------------------------------------------------------------------------------

  /** Growing sets of claims keep a record in order, as long as new background claims are new. */
  lemma GrownClaims(rec: Record, issued: set<SubId>, background: set<SubId>, more: set<SubId>, later: set<SubId>)
    requires RecLogOk(rec, issued, background) && issued <= more
    requires forall s :: s in later && s in issued ==> s in background
    ensures RecLogOk(rec, more, later)
  {
  }

  /** The record answers for no claim that it did not answer for before, and keeps its logs. */
  ghost predicate LogsKept(rec: Record, next: Record) {
    && next.start.sub in {None, rec.start.sub}
    && (forall c :: c in next.start.dismissed + next.start.superseded + next.start.ambiguous ==>
          c in rec.start.dismissed + rec.start.superseded + rec.start.ambiguous || rec.start.sub == Some(c.sub))
    && next.start.attempts == rec.start.attempts && next.start.hashes == rec.start.hashes
    && (next.plan.None? ==> rec.plan.None?)
    && (next.plan.Some? ==> rec.plan.Some? && next.plan.value.wal.attempts == rec.plan.value.wal.attempts
                            && next.plan.value.wal.hashes == rec.plan.value.wal.hashes)
    && next.state == rec.state
  }

  lemma KeptLogsOk(rec: Record, next: Record, issued: set<SubId>, background: set<SubId>)
    requires RecLogOk(rec, issued, background) && LogsKept(rec, next)
    ensures RecLogOk(next, issued, background)
  {
  }

  lemma MemberOfLast(s: seq<Claim>, c: Claim, k: nat)
    ensures forall x :: x in Last(s + [c], k) ==> x in s || x == c
  {
  }

  /** Start operations that touch no hash. */
  predicate Hashless(o: RecOp) {
    o.Repair? || o.JournalStart? || o.StartAmbiguous? || o.ReleaseStart? || o.FinStep?
  }

  lemma HashlessKeepsLogs(rec: Record, r: Runtime, o: RecOp, next: Record)
    requires Hashless(o) && RecNext(rec, r, o) == Some(next)
    ensures LogsKept(rec, next)
  {
    match o
    case JournalStart(id, sub, op, sender) => WriteFrame(rec, DoJournalStart(rec, id, sub, op, sender));
    case StartAmbiguous(id, sub, op) => WriteFrame(rec, DoStartAmbiguous(rec, id, sub, op));
    case ReleaseStart(id, sub, op, requireNoNonce) =>
      WriteFrame(rec, DoReleaseStart(rec, r, id, sub, op, requireNoNonce));
      MemberOfLast(rec.start.dismissed, Claim(sub, op, FromOf(rec.start.sender), NonceOf(rec.start.sender)),
                   CLAIM_LIMIT);
    case _ =>
  }

  lemma PatchKeepsLogs(rec: Record, p: Patch, expected: Option<nat>, next: Record)
    requires DoUpdate(rec, p, expected) == Some(next) && !p.Close?
    ensures LogsKept(rec, next)
  {
  }

  lemma CloseKeepsLogOk(rec: Record, expected: Option<nat>, issued: set<SubId>, background: set<SubId>, next: Record)
    requires RecLogOk(rec, issued, background) && DoUpdate(rec, Close, expected) == Some(next)
    ensures RecLogOk(next, issued, background)
  {
  }

  /** The claims that an operation opens, and those that it opens for the background driver. */
  function NewClaims(o: RecOp): set<SubId> {
    if OpensClaim(o) then {o.sub} else {}
  }

  function NewBackground(o: RecOp): set<SubId> {
    if o.ClaimStart? then {o.sub} else {}
  }

  /** New claims and new plans need an empty log. */
  lemma ClaimingKeepsLogOk(rec: Record, r: Runtime, id: Identity, op: OpId, sub: SubId, issued: set<SubId>,
                           background: set<SubId>, next: Record)
    requires RecLogOk(rec, issued, background)
    requires StartWritten(rec, DoClaimStart(rec, r, id, op, sub)) == Some(next)
    ensures RecLogOk(next, issued + {sub}, background + {sub})
  {
    WriteFrame(rec, DoClaimStart(rec, r, id, op, sub));
  }

  lemma PlanningKeepsLogOk(rec: Record, r: Runtime, o: RecOp, issued: set<SubId>, background: set<SubId>, next: Record)
    requires RecLogOk(rec, issued, background) && RecNext(rec, r, o) == Some(next)
    requires o.SavePlan? || o.ResolveForRetry?
    ensures RecLogOk(next, issued, background)
  {
  }

  /** A replacement opens a claim that is not the background driver's. */
  lemma ReplacingKeepsLogOk(rec: Record, sub: SubId, sender: Sender, issued: set<SubId>, background: set<SubId>,
                            next: Record)
    requires RecLogOk(rec, issued, background) && StartWritten(rec, DoReplaceStart(rec, sub, sender)) == Some(next)
    requires sub !in background
    ensures RecLogOk(next, issued + {sub}, background)
  {
    WriteFrame(rec, DoReplaceStart(rec, sub, sender));
    var s := rec.start;
    if s.sub.Some? {
      MemberOfLast(s.superseded, Claim(s.sub.value, rec.plan.value.op.value, FromOf(s.sender), NonceOf(s.sender)),
                   CLAIM_LIMIT);
    }
    assert Tracks(next.start, background) ==> Tracks(rec.start, background);
  }

  // --- Reporting a hash to a record -----------------------------------------------------------------

  lemma PriorIsTracked(rec: Record, sub: SubId, op: OpId, subs: set<SubId>)
    requires sub in subs && FindClaim(PriorClaims(rec), sub, op).Some?
    ensures Tracks(rec.start, subs)
  {
    var c := FindClaim(PriorClaims(rec), sub, op).value;
    if c !in rec.start.dismissed + rec.start.superseded + rec.start.ambiguous {
      var i :| 0 <= i < |rec.start.attempts| && ClaimsOf(rec.start.attempts)[i] == c;
      assert rec.start.attempts[i] in rec.start.attempts;
    }
  }

  lemma ReporterIsTracked(rec: Record, hash: Hash, sub: SubId, op: OpId, meta: Option<Sender>, subs: set<SubId>)
    requires sub in subs && DoRememberLive(rec, hash, sub, op, meta).Some?
    ensures Tracks(rec.start, subs)
  {
    if !(rec.start.sub == Some(sub) && rec.start.op == Some(op)) { PriorIsTracked(rec, sub, op, subs); }
  }

  /** A tracked record overwrites its plan's hashes only with a longer list. */
  lemma HashWriteKeepsLogOk(rec: Record, hashes: seq<Hash>, attempts: seq<Attempt>, op: OpId, active: bool,
                            issued: set<SubId>, background: set<SubId>)
    requires RecLogOk(rec, issued, background) && Tracks(rec.start, background)
    requires forall h :: h in rec.start.hashes ==> h in hashes
    requires AttemptsIssued(attempts, issued)
    ensures RecLogOk(StartSaved(rec, WithStartHash(rec, hashes, attempts, op, active)), issued, background)
  {
  }

  lemma LiveKeepsLogOk(rec: Record, hash: Hash, sub: SubId, op: OpId, meta: Option<Sender>,
                       issued: set<SubId>, background: set<SubId>, write: StartWrite)
    requires RecLogOk(rec, issued, background) && sub in background && sub in issued
    requires DoRememberLive(rec, hash, sub, op, meta) == Some(write)
    ensures RecLogOk(StartSaved(rec, write), issued, background)
  {
    ReporterIsTracked(rec, hash, sub, op, meta, background);
    LiveLists(rec, hash, sub, op, meta, issued, write);
    HashWriteKeepsLogOk(rec, write.start.hashes, write.start.attempts, op,
                        rec.start.sub == Some(sub) && rec.start.op == Some(op),
                        issued, background);
  }

  lemma LiveLists(rec: Record, hash: Hash, sub: SubId, op: OpId, meta: Option<Sender>, issued: set<SubId>,
                  w: StartWrite)
    requires DoRememberLive(rec, hash, sub, op, meta) == Some(w) && AttemptsIssued(rec.start.attempts, issued)
    requires sub in issued
    ensures forall h :: h in rec.start.hashes ==> h in w.start.hashes
    ensures AttemptsIssued(w.start.attempts, issued)
  {
    assert forall h :: h in rec.start.hashes ==> h in rec.start.hashes + [hash];
  }

  /** A hash is reported for a claim of the background driver. */
  ghost predicate ReportsFor(o: RecOp, background: set<SubId>) {
    o.RememberStart? ==> o.sub in background
  }

  lemma RememberKeepsLogOk(rec: Record, id: Identity, hash: Hash, sub: SubId, op: OpId, meta: Option<Sender>,
                           issued: set<SubId>, background: set<SubId>, next: Record)
    requires RecLogOk(rec, issued, background) && sub in background && background <= issued
    requires DoRememberStart(rec, id, hash, sub, op, meta) == Some(next)
    ensures RecLogOk(next, issued, background)
  {
    if FindArchived(rec.history, sub, op).Some? {
      LateHashIsAuditOnly(rec, id, hash, sub, op, meta, next);
    } else {
      WriteFrame(rec, DoRememberLive(rec, hash, sub, op, meta));
      LiveKeepsLogOk(rec, hash, sub, op, meta, issued, background,
                     DoRememberLive(rec, hash, sub, op, meta).value);
    }
  }

  lemma UpdateKeepsLogOk(rec: Record, p: Patch, expected: Option<nat>, issued: set<SubId>, background: set<SubId>,
                         next: Record)
    requires RecLogOk(rec, issued, background) && DoUpdate(rec, p, expected) == Some(next)
    ensures RecLogOk(next, issued, background)
  {
    if p.Close? {
      CloseKeepsLogOk(rec, expected, issued, background, next);
    } else {
      PatchKeepsLogs(rec, p, expected, next);
      KeptLogsOk(rec, next, issued, background);
    }
  }

  /** Calls that issue no claim. */
  lemma CallKeepsLogOk(rec: Record, r: Runtime, o: RecOp, issued: set<SubId>, background: set<SubId>, next: Record)
    requires RecLogOk(rec, issued, background) && background <= issued && RecNext(rec, r, o) == Some(next)
    requires !OpensClaim(o) && ReportsFor(o, background)
    ensures RecLogOk(next, issued, background)
  {
    if Hashless(o) {
      HashlessKeepsLogs(rec, r, o, next);
      KeptLogsOk(rec, next, issued, background);
    } else if o.Update? {
      UpdateKeepsLogOk(rec, o.patch, o.expected, issued, background, next);
    } else if o.RememberStart? {
      RememberKeepsLogOk(rec, o.identity, o.hash, o.sub, o.op, o.meta, issued, background, next);
    } else {
      PlanningKeepsLogOk(rec, r, o, issued, background, next);
    }
  }

  // --- Moves ------------------------------------------------------------------------------------------

  /** A record made from the slot answers for no claim yet. */
  lemma FreshRecordLogOk(r: Runtime, rec: Record, hash: Option<Hash>, issued: set<SubId>, background: set<SubId>)
    requires PlanLogOk(r.plan, issued) && rec.plan == r.plan
    requires rec.start == EMPTY_START.(hashes := if hash.Some? then [hash.value] else [])
    ensures RecLogOk(rec, issued, background)
  {
  }

  lemma MergedAttempts(a: seq<Attempt>, b: seq<Attempt>, c: seq<Attempt>)
    ensures forall x :: x in MergeAttempts(a + b + c) ==> x in a || x in b || x in c
  {
    assert forall x :: x in a + b + c ==> x in a || x in b || x in c;
  }

  /** Late attempts stem from prompts, never from the background driver. */
  ghost predicate LateIssued(late: seq<Late>, issued: set<SubId>, background: set<SubId>)
  {
    forall e :: e in late ==> e.sub in issued && e.sub !in background
  }

  lemma LateAttemptsIssued(late: seq<Late>, issued: set<SubId>, background: set<SubId>)
    requires LateIssued(late, issued, background)
    ensures forall a :: a in LateAttempts(late) ==> a.sub in issued && a.sub !in background
  {
    forall a | a in LateAttempts(late) ensures a.sub in issued && a.sub !in background {
      var i :| 0 <= i < |late| && LateAttempts(late)[i] == a;
      assert late[i] in late;
    }
  }

  /** The hash that answers a claim joins the plan, and nothing else does. */
  lemma AnsweredPlanLog(p: Option<Plan>, answers: bool, e: Late, hashes: seq<Hash>, more: seq<Hash>, issued: set<SubId>)
    requires PlanCovered(p, hashes) && (p.Some? ==> AttemptsIssued(p.value.wal.attempts, issued)) && e.sub in issued
    requires e.hash in more && forall h :: h in hashes ==> h in more
    ensures var q := AnsweredPlan(p, answers, e);
            && PlanCovered(q, more) && (q.Some? ==> AttemptsIssued(q.value.wal.attempts, issued))
            && (Within(p, hashes) ==> Within(q, more)) && (q.None? <==> p.None?)
  {
    var q := AnsweredPlan(p, answers, e);
    if p.Some? && q != p {
      forall h | h in q.value.wal.hashes ensures h in more || HasHash(q.value.wal.attempts, h) {
        assert h in p.value.wal.hashes + [e.hash];
        if h !in more {
          var a :| a in p.value.wal.attempts && a.hash == h;
          assert a in q.value.wal.attempts;
        }
      }
      forall h | h in q.value.wal.hashes && Within(p, hashes) ensures h in more {
        assert h in p.value.wal.hashes + [e.hash];
      }
    }
  }

  lemma SourcePlanLog(s: Store, n: NoteId, issued: set<SubId>, background: set<SubId>)
    requires PlanLogOk(s.runtime.plan, issued) && (n in s.records ==> RecLogOk(s.records[n], issued, background))
    ensures PlanCovered(SourcePlan(s, n), StartBefore(s, n).hashes)
    ensures SourcePlan(s, n).Some? ==> AttemptsIssued(SourcePlan(s, n).value.wal.attempts, issued)
  {
  }

  /** A transfer that does not aggregate adds one attempt, of a prompt. */
  lemma PlainTransferLogOk(s: Store, n: NoteId, e: Late, to: Destination, issued: set<SubId>, background: set<SubId>)
    requires PlanLogOk(s.runtime.plan, issued) && n in s.records && RecLogOk(s.records[n], issued, background)
    requires s.records[n].state.Some? && !Aggregates(s, n, to) && e.sub in issued && e.sub !in background
    ensures RecLogOk(TransferredRecord(s, n, e, to), issued, background)
  {
    var rec, next := s.records[n], TransferredRecord(s, n, e, to);
    PlainStart(s, n, e, to, issued, background);
    SourcePlanLog(s, n, issued, background);
    AnsweredPlanLog(SourcePlan(s, n), AnswersClaim(Known(s, n), SourcePlan(s, n), e), e, rec.start.hashes,
                    next.start.hashes, issued);
  }

  lemma PlainStart(s: Store, n: NoteId, e: Late, to: Destination, issued: set<SubId>, background: set<SubId>)
    requires n in s.records && StartIssued(s.records[n].start, issued)
    requires !Aggregates(s, n, to) && e.sub in issued && e.sub !in background
    ensures var start := TransferredStart(s, n, e, to);
            && StartIssued(start, issued)
            && (Tracks(start, background) ==> Tracks(s.records[n].start, background))
            && e.hash in start.hashes && (forall h :: h in s.records[n].start.hashes ==> h in start.hashes)
  {
    CarriedHashes(s, n, e, to);
    CarriedAttempts(s, n, e, to);
    assert forall a :: a in LateAttempts([e]) ==> a.sub == e.sub;
    OnlyMore(s.records[n].start, TransferredStart(s, n, e, to), e.sub, issued, background);
  }

  lemma CarriedHashes(s: Store, n: NoteId, e: Late, to: Destination)
    ensures forall h :: h in StartBefore(s, n).hashes || h in CarriedLog(s, n, e, to).hashes || h == e.hash
              ==> h in TransferredHashes(s, n, e, to)
  {
    MergedHashes(StartBefore(s, n).hashes, CarriedLog(s, n, e, to).hashes, LateHashes(CarriedLate(s, n, e, to)),
                 e.hash);
  }

  lemma CarriedAttempts(s: Store, n: NoteId, e: Late, to: Destination)
    ensures forall a :: a in TransferredAttempts(s, n, e, to) ==>
              a in StartBefore(s, n).attempts || a in CarriedLog(s, n, e, to).attempts
                  || a in LateAttempts(CarriedLate(s, n, e, to))
  {
    MergedAttempts(StartBefore(s, n).attempts, CarriedLog(s, n, e, to).attempts,
                   LateAttempts(CarriedLate(s, n, e, to)));
  }

  lemma MergedHashes(a: seq<Hash>, b: seq<Hash>, c: seq<Hash>, h: Hash)
    ensures forall x :: x in a || x in b || x in c || x == h ==> x in Distinct(a + b + c + [h])
  {
    assert forall x :: x in a || x in b || x in c || x == h ==> x in a + b + c + [h];
  }

  /** A log that gains only an attempt of this claim. */
  lemma OnlyMore(before: StartLog, start: StartLog, sub: SubId, issued: set<SubId>, background: set<SubId>)
    requires StartIssued(before, issued) && sub in issued && sub !in background
    requires start.sub in {None, before.sub} && start.dismissed == before.dismissed
    requires start.superseded == before.superseded && start.ambiguous == before.ambiguous
    requires forall a :: a in start.attempts ==> a in before.attempts || a.sub == sub
    ensures StartIssued(start, issued) && (Tracks(start, background) ==> Tracks(before, background))
  {
  }

  /** A transfer that aggregates puts every hash of the plan into the start log. */
  lemma AggregateLogOk(s: Store, n: NoteId, e: Late, to: Destination, issued: set<SubId>, background: set<SubId>)
    requires PlanLogOk(s.runtime.plan, issued) && (n in s.records ==> RecLogOk(s.records[n], issued, background))
    requires n in s.records && SourcePlan(s, n).None? ==> s.records[n].state.Some?
    requires Aggregates(s, n, to) && e in s.runtime.late && LateIssued(s.runtime.late, issued, background)
    requires SourcePlan(s, n).Some? && SourcePlan(s, n).value.wal.sub.Some? ==>
          SourcePlan(s, n).value.wal.sub.value in issued
    ensures RecLogOk(TransferredRecord(s, n, e, to), issued, background)
  {
    var next := TransferredRecord(s, n, e, to);
    SourcePlanLog(s, n, issued, background);
    AnsweredPlanLog(SourcePlan(s, n), AnswersClaim(Known(s, n), SourcePlan(s, n), e), e, StartBefore(s, n).hashes,
                    StartBefore(s, n).hashes + [e.hash], issued);
    AggregateHashes(s, n, e, to);
    AggregateStart(s, n, e, to, issued, background);
  }

  lemma AggregateHashes(s: Store, n: NoteId, e: Late, to: Destination)
    requires Aggregates(s, n, to)
    ensures Within(TravellingPlan(s, n, e, to), TransferredStart(s, n, e, to).hashes)
  {
    CarriedHashes(s, n, e, to);
  }

  lemma AggregateAttempts(s: Store, n: NoteId, e: Late, to: Destination, issued: set<SubId>, background: set<SubId>)
    requires Aggregates(s, n, to) && LateIssued(s.runtime.late, issued, background)
    requires AttemptsIssued(StartBefore(s, n).attempts, issued)
    requires AttemptsIssued(CarriedLog(s, n, e, to).attempts, issued)
    ensures forall a :: a in TransferredAttempts(s, n, e, to) ==>
              a.sub in issued
              && (a in StartBefore(s, n).attempts || a in CarriedLog(s, n, e, to).attempts || a.sub !in background)
  {
    CarriedAttempts(s, n, e, to);
    LateAttemptsIssued(CarriedLate(s, n, e, to), issued, background);
  }

  lemma CarriedLogIssued(s: Store, n: NoteId, e: Late, to: Destination, issued: set<SubId>)
    requires ReportedPlan(s, n, e).Some? ==> AttemptsIssued(ReportedPlan(s, n, e).value.wal.attempts, issued)
    ensures AttemptsIssued(CarriedLog(s, n, e, to).attempts, issued)
    ensures TravellingPlan(s, n, e, to).None? ==> CarriedLog(s, n, e, to).attempts == []
  {
  }

  /** What an aggregating transfer adds to a start log. */
  lemma GrownStart(before: StartLog, start: StartLog, claim: Option<SubId>, retired: Option<Claim>,
                   carried: seq<Attempt>, issued: set<SubId>, background: set<SubId>)
    requires StartIssued(before, issued) && start.sub in {None, before.sub, claim}
    requires (claim.Some? ==> claim.value in issued) && (retired.Some? ==> retired.value.sub in issued)
    requires forall c :: c in start.dismissed ==> c in before.dismissed || Some(c) == retired
    requires start.superseded == before.superseded && start.ambiguous == before.ambiguous
    requires forall a :: a in start.attempts ==>
          a.sub in issued && (a in before.attempts || a in carried || a.sub !in background)
    ensures StartIssued(start, issued)
    ensures claim.None? && retired.None? && carried == [] && Tracks(start, background) ==> Tracks(before, background)
  {
  }

  lemma StartShape(s: Store, n: NoteId, e: Late, to: Destination)
    requires Aggregates(s, n, to)
    ensures var before, start := StartBefore(s, n), TransferredStart(s, n, e, to);
            && start.sub in {None, before.sub, CarriedLog(s, n, e, to).sub}
            && start.superseded == before.superseded && start.ambiguous == before.ambiguous
            && start.attempts == TransferredAttempts(s, n, e, to)
            && forall c :: c in start.dismissed ==> c in before.dismissed || Some(c) == RetiredClaim(s, n, e, to)
  {
    var retired := RetiredClaim(s, n, e, to);
    if retired.Some? { MemberOfLast(StartBefore(s, n).dismissed, retired.value, CLAIM_LIMIT); }
  }

  lemma CarriedClaimIssued(s: Store, n: NoteId, e: Late, to: Destination, issued: set<SubId>)
    requires SourcePlan(s, n).Some? && SourcePlan(s, n).value.wal.sub.Some? ==>
          SourcePlan(s, n).value.wal.sub.value in issued
    ensures var claim, retired := CarriedLog(s, n, e, to).sub, RetiredClaim(s, n, e, to);
            && (claim.Some? ==> claim.value in issued) && (retired.Some? ==> retired.value.sub in issued)
            && (TravellingPlan(s, n, e, to).None? ==> claim.None? && retired.None?)
  {
  }

  lemma AggregateStart(s: Store, n: NoteId, e: Late, to: Destination, issued: set<SubId>, background: set<SubId>)
    requires Aggregates(s, n, to) && LateIssued(s.runtime.late, issued, background)
    requires StartIssued(StartBefore(s, n), issued)
    requires ReportedPlan(s, n, e).Some? ==> AttemptsIssued(ReportedPlan(s, n, e).value.wal.attempts, issued)
    requires SourcePlan(s, n).Some? && SourcePlan(s, n).value.wal.sub.Some? ==>
          SourcePlan(s, n).value.wal.sub.value in issued
    ensures StartIssued(TransferredStart(s, n, e, to), issued)
    ensures TravellingPlan(s, n, e, to).None? && Tracks(TransferredStart(s, n, e, to), background)
            ==> Tracks(StartBefore(s, n), background)
  {
    StartShape(s, n, e, to);
    CarriedLogIssued(s, n, e, to, issued);
    CarriedClaimIssued(s, n, e, to, issued);
    AggregateAttempts(s, n, e, to, issued, background);
    GrownStart(StartBefore(s, n), TransferredStart(s, n, e, to), CarriedLog(s, n, e, to).sub, RetiredClaim(s, n, e, to),
               CarriedLog(s, n, e, to).attempts, issued, background);
  }

  lemma ReleasedLogOk(rec: Record, ref: Ref, unknown: bool, issued: set<SubId>, background: set<SubId>)
    requires RecLogOk(rec, issued, background) && ref.sub in issued && ref.sub !in background
    ensures RecLogOk(ReleasedRecord(rec, ref, unknown), issued, background)
  {
    var log, next := rec.start, ReleasedRecord(rec, ref, unknown);
    MemberOfLast(log.dismissed, Claim(ref.sub, ref.op, None, None), CLAIM_LIMIT);
    if ref.replacement.Some? {
      MemberOfLast(log.ambiguous, Claim(ref.sub, ref.op, None, Some(ref.replacement.value.nonce)), CLAIM_LIMIT);
    }
    assert Tracks(next.start, background) ==> Tracks(rec.start, background);
  }

  // --- Steps -------------------------------------------------------------------------------------------

  lemma TransferLogOk(s: Store, n: NoteId, e: Late, to: Destination, issued: set<SubId>, background: set<SubId>)
    requires PlanLogOk(s.runtime.plan, issued) && (n in s.records ==> RecLogOk(s.records[n], issued, background))
    requires Selects(s.runtime, n) || BackgroundOwns(s, n)
    requires Selects(s.runtime, n) ==> n !in s.records
    requires e in s.runtime.late && LateIssued(s.runtime.late, issued, background)
    requires SourcePlan(s, n).Some? && SourcePlan(s, n).value.wal.sub.Some? ==>
          SourcePlan(s, n).value.wal.sub.value in issued
    ensures RecLogOk(TransferredRecord(s, n, e, to), issued, background)
  {
    if Aggregates(s, n, to) {
      AggregateLogOk(s, n, e, to, issued, background);
    } else {
      PlainTransferLogOk(s, n, e, to, issued, background);
    }
  }

  /** Moves other than a transfer. */
  lemma MoveLogOk(s: Store, m: Move, issued: set<SubId>, background: set<SubId>, t: Store)
    requires PlanLogOk(s.runtime.plan, issued) && !m.TransferNote? && MoveNext(s, m) == Some(t)
    requires forall n :: n in s.records ==> RecLogOk(s.records[n], issued, background)
    ensures PlanLogOk(t.runtime.plan, issued)
    ensures forall n :: n in t.records ==>
          RecLogOk(t.records[n], issued, background)
  {
    if m.EscapeStarted? || m.ClosedOnChain? || m.ParkNote? {
      var rec := t.records[m.note];
      FreshRecordLogOk(s.runtime, rec, if rec.start.hashes == [] then None else Some(rec.start.hashes[0]), issued,
                       background);
    }
  }

  lemma GrownRecords(records: map<NoteId, Record>, issued: set<SubId>, background: set<SubId>, more: set<SubId>,
                     later: set<SubId>)
    requires forall n :: n in records ==> RecLogOk(records[n], issued, background)
    requires issued <= more && forall s :: s in later && s in issued ==> s in background
    ensures forall n :: n in records ==> RecLogOk(records[n], more, later)
  {
    forall n | n in records ensures RecLogOk(records[n], more, later) {
      GrownClaims(records[n], issued, background, more, later);
    }
  }

  lemma CommitKeepsBook(w: World, o: SlotOp, h: Runtime, r: Runtime)
    requires ClaimInv(w) && BookInv(w) && Possible(w, Commit(o)) && Commits(w, o, h, r)
    ensures BookInv(Committed(w, o, h, r))
  {
    var d := SlotClaims(w.claims, h, o, r);
    SlotKeepsLog(h, o, w.claims.issued.Keys, r);
    assert w.claims.issued.Keys <= d.issued.Keys && d.background == w.claims.background;
    GrownRecords(w.store.records, w.claims.issued.Keys, w.claims.background, d.issued.Keys, d.background);
  }

  lemma CallLogOk(rec: Record, r: Runtime, o: RecOp, issued: set<SubId>, background: set<SubId>, next: Record)
    requires RecLogOk(rec, issued, background) && background <= issued && RecNext(rec, r, o) == Some(next)
    requires NewClaims(o) !! issued && ReportsFor(o, background)
    ensures RecLogOk(next, issued + NewClaims(o), background + NewBackground(o))
  {
    if o.ClaimStart? {
      ClaimingKeepsLogOk(rec, r, o.identity, o.op, o.sub, issued, background, next);
    } else if o.ReplaceStart? {
      ReplacingKeepsLogOk(rec, o.sub, o.sender, issued, background, next);
      assert background + NewBackground(o) == background;
    } else {
      CallKeepsLogOk(rec, r, o, issued, background, next);
      assert issued + NewClaims(o) == issued && background + NewBackground(o) == background;
    }
  }

  lemma CallKeepsBook(w: World, n: NoteId, o: RecOp, rec: Record, next: Record)
    requires ClaimInv(w) && BookInv(w) && Possible(w, RecordCall(n, o)) && Calls(w, n, o, rec, next)
    ensures BookInv(Recorded(w, n, o, rec, next))
  {
    var issued, background, d := w.claims.issued.Keys, w.claims.background, RecordClaims(w.claims, n, rec, o);
    CallLogOk(rec, w.store.runtime, o, issued, background, next);
    assert d.issued.Keys == issued + NewClaims(o) && d.background == background + NewBackground(o);
    CallWriteKeepsBook(w, n, next, Recorded(w, n, o, rec, next));
  }

  lemma CallWriteKeepsBook(w: World, n: NoteId, next: Record, v: World)
    requires BookInv(w) && v.store == w.store.(records := w.store.records[n := next]) && v.held == w.held
    requires w.claims.issued.Keys <= v.claims.issued.Keys
    requires forall s :: s in v.claims.background && s in w.claims.issued ==> s in w.claims.background
    requires RecLogOk(next, v.claims.issued.Keys, v.claims.background)
    ensures BookInv(v)
  {
    GrownRecords(w.store.records, w.claims.issued.Keys, w.claims.background, v.claims.issued.Keys,
                 v.claims.background);
  }

  lemma TransferKeepsBook(w: World, m: Move, t: Store)
    requires Inv(w) && ClaimInv(w) && BookInv(w) && m.TransferNote? && MoveNext(w.store, m) == Some(t)
    ensures BookInv(Moved(w, t, m))
  {
    var k, e, rec, late := TransferParts(w.store, m, t);
    if m.note in w.store.records { assert RecordClaimOk(m.note, w.store.records[m.note], w.claims); }
    TransferLogOk(w.store, m.note, e, m.to, w.claims.issued.Keys, w.claims.background);
    TransferWriteKeepsBook(w, m.note, rec, late, Moved(w, t, m));
  }

  lemma TransferWriteKeepsBook(w: World, n: NoteId, rec: Record, late: seq<Late>, v: World)
    requires BookInv(w) && RecLogOk(rec, w.claims.issued.Keys, w.claims.background)
    requires v.store == AfterTransfer(w.store, n, rec, late) && v.held == Some(v.store.runtime)
    requires v.claims.issued == w.claims.issued && v.claims.background == w.claims.background
    ensures BookInv(v)
  {
  }

  lemma MoveKeepsBook(w: World, m: Move, t: Store)
    requires Inv(w) && ClaimInv(w) && BookInv(w) && MoveNext(w.store, m) == Some(t)
    ensures BookInv(Moved(w, t, m))
  {
    if m.TransferNote? {
      TransferKeepsBook(w, m, t);
    } else {
      MoveLogOk(w.store, m, w.claims.issued.Keys, w.claims.background, t);
    }
  }

  lemma ReleaseKeepsBook(s: Store, ref: Ref, unknown: bool, issued: set<SubId>, background: set<SubId>, t: Store)
    requires PlanLogOk(s.runtime.plan, issued) && ref.sub in issued && ref.sub !in background
    requires (forall n :: n in s.records ==> RecLogOk(s.records[n], issued, background))
    requires ReleaseSubmission(s, ref, unknown) == Some(t)
    ensures PlanLogOk(t.runtime.plan, issued)
    ensures forall n :: n in t.records ==> RecLogOk(t.records[n], issued, background)
  {
    if ref.note in s.records { ReleasedLogOk(s.records[ref.note], ref, unknown, issued, background); }
  }

  lemma ReleasePromptKeepsBook(w: World, ref: Ref, unknown: bool)
    requires ClaimInv(w) && BookInv(w) && ref in w.refs
    ensures BookInv(Released(w, ref, unknown))
  {
    var t := ReleaseSubmission(w.store, ref, unknown);
    if t.Some? {
      ReleaseKeepsBook(w.store, ref, unknown, w.claims.issued.Keys, w.claims.background, t.value);
      if w.held.Some? { assert PlanLogOk(w.held.value.plan, w.claims.issued.Keys); }
    }
  }

  lemma QuietKeepsBook(w: World, v: World)
    requires BookInv(w) && v.store == w.store && v.claims == w.claims.(sent := v.claims.sent)
    requires v.held.None? || v.held == w.held || v.held == Some(w.store.runtime)
    ensures BookInv(v)
  {
  }

  lemma StepKeepsBook(w: World, st: Step)
    requires Inv(w) && ClaimInv(w) && BookInv(w) && Possible(w, st)
    ensures BookInv(Next(w, st))
  {
    match st
    case Commit(o) =>
      if w.held.Some? && SlotNext(w.held.value, o).Some? {
        CommitKeepsBook(w, o, w.held.value, SlotNext(w.held.value, o).value);
      }
    case MoveNote(m) => if MoveNext(w.store, m).Some? { MoveKeepsBook(w, m, MoveNext(w.store, m).value); }
    case RecordCall(n, o) =>
      if n in w.store.records && RecNext(w.store.records[n], w.store.runtime, o).Some? {
        CallKeepsBook(w, n, o, w.store.records[n], RecNext(w.store.records[n], w.store.runtime, o).value);
      }
    case ReleasePrompt(ref, unknown) => ReleasePromptKeepsBook(w, ref, unknown);
    case _ => QuietKeepsBook(w, Next(w, st));
  }

  /** The logs hang together in every reachable state. */
  lemma {:induction false} RunKeepsBook(w: World, steps: seq<Step>)
    requires Inv(w) && ClaimInv(w) && BookInv(w) && PossibleRun(w, steps)
    ensures BookInv(Run(w, steps))
  {
    if steps != [] {
      RunKeepsBook(w, steps[..|steps| - 1]);
      RunKeepsInv(w, steps[..|steps| - 1]);
      RunKeepsClaims(w, steps[..|steps| - 1]);
      StepKeepsBook(Run(w, steps[..|steps| - 1]), steps[|steps| - 1]);
    }
  }
}
