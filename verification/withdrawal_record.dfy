/** Operations on one background withdrawal record: its start claims, the patches of
    chain reconciliation, and the sanitizing close. The selected slot is only read.
    None means that the transaction aborted or wrote nothing. A patch is computed
    from the record it is applied to: within one life of a record the revision
    compare-and-set guarantees exactly that. */
module WithdrawalRecord {
  import opened WalletTypes
  import opened AttemptLog
  import opened FinalizationLog

  datatype Identity = Identity(mode: Mode, destination: Option<Address>)

  datatype Patch =
    | StartResolved(status: ChainStatus, claims: seq<Claim>, block: nat)
    | StartUnresolved(allMissing: bool, droppable: seq<Hash>)
    | MarkClosing
    | Close
    | MarkPending(paidTo: Option<Address>)
    | MarkActive
    | MarkUnfinal
    | MarkRestored
    | NoteError

  datatype RecOp =
    | Repair(identity: Identity, expectedRevision: nat)
    | ResolveForRetry(identity: Identity, expectedRevision: nat, resolvedHashes: set<Hash>, newOp: OpId, block: nat)
    | SavePlan(identity: Identity, seenState: Option<Note>, seenPlan: Option<Plan>, newOp: OpId, nullifier: Felt)
    | ClaimStart(identity: Identity, op: OpId, sub: SubId)
    | JournalStart(identity: Identity, sub: SubId, op: OpId, sender: Sender)
    | StartAmbiguous(identity: Identity, sub: SubId, op: OpId)
    | ReleaseStart(identity: Identity, sub: SubId, op: OpId, requireNoNonce: bool)
    | RememberStart(identity: Identity, hash: Hash, sub: SubId, op: OpId, meta: Option<Sender>)
    | ReplaceStart(sub: SubId, sender: Sender)
    | FinStep(finOp: FinOp)
    | Update(patch: Patch, expected: Option<nat>)

  // --- Reading a record ------------------------------------------------------

  predicate SameIdentity(rec: Record, id: Identity) {
    rec.mode == id.mode && rec.destination == id.destination
  }

  /** backgroundHasTransactions */
  predicate HasTransactions(rec: Record) {
    || rec.start.hashes != [] || rec.start.attempts != []
    || rec.fin.hashes != [] || rec.fin.attempts != [] || rec.fin.sub.Some?
    || (rec.plan.Some?
        && (rec.plan.value.wal.hashes != [] || rec.plan.value.wal.attempts != [] || rec.plan.value.wal.sub.Some?))
    || rec.start.pending || rec.start.sub.Some? || rec.start.retry.Some?
    || rec.start.superseded != [] || rec.start.ambiguous != []
  }

  /** An outcome that leaves open whether a transaction reached the network. */
  predicate IsOpen(o: Outcome) {
    o.AwaitingWalletOutcome? || o.AmbiguousOutcome? || o.SubmittedOutcome? || o.ReceiptMissing?
    || o.ReplacementAwaiting? || o.ReplacementUnknown?
  }

  /** isUnsubmittedParkedMutualWithdrawal */
  predicate Unsubmitted(rec: Record, late: seq<Late>) {
    && rec.mode.Mutual? && rec.plan.Some? && rec.plan.value.mode.Mutual?
    && rec.state.Some? && rec.state.value.id == rec.note && rec.plan.value.note == rec.note
    && (rec.phase.ParkedPhase? || rec.phase.RestoredPhase? || rec.phase.ChallengedUnconfirmed?
        || rec.phase.RecoveryUnconfirmed?)
    && (rec.plan.value.wal.phase.Prepared? || rec.plan.value.wal.phase.Reserving?)
    && !rec.chain.ChainPending? && !rec.chain.ChainClosed?
    && !HasTransactions(rec) && !rec.moved
    && rec.start.sender.None? && rec.plan.value.wal.sender.None?
    && !rec.fin.retried && !rec.plan.value.residue
    && !IsOpen(rec.start.outcome) && !IsOpen(rec.plan.value.outcome)
    && !HasUnresolved(late, rec.note)
  }

  /** assertBrowserBackgroundWithdrawalAvailable */
  predicate Available(rec: Record, r: Runtime, id: Identity) {
    && SameIdentity(rec, id) && rec.state.Some? && rec.state.value.id == rec.note
    && rec.mode.Mutual? && (rec.phase.ParkedPhase? || rec.phase.RestoredPhase?)
    && rec.destination.Some? && rec.clearance && !HasTransactions(rec) && !rec.moved
    && !rec.chain.ChainPending? && Unsubmitted(rec, r.late)
    && !Selects(r, rec.note) && !HasUnresolved(r.late, rec.note)
  }

  /** isBrowserBackgroundWithdrawalPreparationCancelable: no trace of a nonce anywhere,
      and the record would be available but for this very claim. */
  predicate Cancelable(rec: Record, r: Runtime, id: Identity) {
    && rec.independent && rec.plan.Some?
    && rec.phase.SubmittedUnconfirmed? && rec.plan.value.wal.phase.AwaitingWallet?
    && rec.start.outcome.AwaitingWalletOutcome? && rec.plan.value.outcome.AwaitingWalletOutcome?
    && rec.start.sub.Some? && rec.start.op.Some?
    && rec.start.sub == rec.plan.value.wal.sub && rec.start.op == rec.plan.value.op
    && rec.start.resolutionBlock == 0 && rec.start.resolved == []
    && rec.start.sender.None? && rec.start.retry.None? && rec.plan.value.wal.sender.None?
    && Available(rec.(phase := ParkedPhase,
                      start := rec.start.(sub := None, pending := false, outcome := RejectedBeforeBroadcast),
                      plan := Some(rec.plan.value.(outcome := RejectedBeforeBroadcast,
                                                   wal := rec.plan.value.wal.(phase := Prepared, sub := None)))),
                 r, id)
  }

  /** assertBackgroundClaim */
  predicate HoldsClaim(rec: Record, sub: SubId, op: OpId) {
    && rec.start.sub == Some(sub) && rec.start.op == Some(op)
    && rec.plan.Some? && rec.plan.value.wal.sub == Some(sub) && rec.plan.value.op == Some(op)
  }

  function ClaimOf(a: Attempt): Claim {
    Claim(a.sub, a.op, FromOf(a.sender), NonceOf(a.sender))
  }

  function FromOf(s: Option<Sender>): Option<Address> {
    if s.Some? then Some(s.value.from) else None
  }

  function NonceOf(s: Option<Sender>): Option<nat> {
    if s.Some? then Some(s.value.nonce) else None
  }

  function ClaimsOf(attempts: seq<Attempt>): (r: seq<Claim>)
    ensures |r| == |attempts| && forall i :: 0 <= i < |r| ==> r[i] == ClaimOf(attempts[i])
  {
    seq(|attempts|, i requires 0 <= i < |attempts| => ClaimOf(attempts[i]))
  }

  function FindClaim(claims: seq<Claim>, sub: SubId, op: OpId): (r: Option<Claim>)
    ensures r.Some? ==> r.value in claims && r.value.sub == sub && r.value.op == op
    ensures r.None? ==> forall c :: c in claims ==> !(c.sub == sub && c.op == op)
  {
    if claims == [] then None
    else if claims[0].sub == sub && claims[0].op == op then Some(claims[0])
    else FindClaim(claims[1..], sub, op)
  }

  function ArchivedClaims(h: Resolved): seq<Claim> {
    h.claims + ClaimsOf(h.attempts) + ClaimsOf(h.planAttempts)
  }

  /** The first history entry that knows this claim. */
  function FindArchived(history: seq<Resolved>, sub: SubId, op: OpId, i: nat := 0): (r: Option<nat>)
    requires i <= |history|
    ensures r.Some? ==> i <= r.value < |history| && FindClaim(ArchivedClaims(history[r.value]), sub, op).Some?
    ensures r.None? ==> forall k :: i <= k < |history| ==> FindClaim(ArchivedClaims(history[k]), sub, op).None?
    decreases |history| - i
  {
    if i == |history| then None
    else if FindClaim(ArchivedClaims(history[i]), sub, op).Some? then Some(i)
    else FindArchived(history, sub, op, i + 1)
  }

  /** The claims a live record still answers for when a callback reports a hash. */
  function PriorClaims(rec: Record): seq<Claim> {
    rec.start.dismissed + rec.start.superseded + rec.start.ambiguous + ClaimsOf(rec.start.attempts)
  }

  // --- Writing a record ------------------------------------------------------

  /** What a start-claim operation writes: phase, start log and plan, and nothing else. */
  datatype StartWrite = StartWrite(phase: Phase, start: StartLog, plan: Option<Plan>)

  function StartSaved(rec: Record, w: StartWrite): Record {
    rec.(phase := w.phase, start := w.start, plan := w.plan, revision := rec.revision + 1)
  }

  /** mutateBackgroundWithdrawal: a write that would change nothing is not made. */
  function StartWritten(rec: Record, w: Option<StartWrite>): Option<Record> {
    if w.None? || w.value == StartWrite(rec.phase, rec.start, rec.plan) then None else Some(StartSaved(rec, w.value))
  }

  function Idle(s: StartLog): StartLog {
    s.(sub := None, op := None, sender := None)
  }

  function IdlePlan(p: Plan): Plan {
    p.(wal := p.wal.(sub := None, sender := None))
  }

  function KnownHashes(rec: Record): seq<Hash> {
    var planLog := if rec.plan.Some? then rec.plan.value.wal else EMPTY_WAL;
    Distinct(rec.start.hashes + AttemptHashList(rec.start.attempts)
             + planLog.hashes + AttemptHashList(planLog.attempts))
  }

  function AttemptHashList(s: seq<Attempt>): seq<Hash> {
    seq(|s|, i requires 0 <= i < |s| => s[i].hash)
  }

  /** The start transactions that a record knows, from its own log and from its plan. */
  ghost predicate Mentions(rec: Record, h: Hash) {
    h in rec.start.hashes || HasHash(rec.start.attempts, h) || PlanMentions(rec.plan, h)
  }

  ghost predicate PlanMentions(p: Option<Plan>, h: Hash) {
    p.Some? && (h in p.value.wal.hashes || HasHash(p.value.wal.attempts, h))
  }

  lemma AttemptHashListIff(s: seq<Attempt>, h: Hash)
    ensures h in AttemptHashList(s) <==> HasHash(s, h)
  {
    if HasHash(s, h) {
      var a :| a in s && a.hash == h;
      var i :| 0 <= i < |s| && s[i] == a;
      assert AttemptHashList(s)[i] == h;
    }
  }

  lemma MentionsIff(rec: Record, h: Hash)
    ensures Mentions(rec, h) <==> h in KnownHashes(rec)
  {
    var planLog := if rec.plan.Some? then rec.plan.value.wal else EMPTY_WAL;
    AttemptHashListIff(rec.start.attempts, h);
    AttemptHashListIff(planLog.attempts, h);
    assert h in rec.start.hashes + AttemptHashList(rec.start.attempts) + planLog.hashes
               + AttemptHashList(planLog.attempts)
      <==> h in rec.start.hashes || h in AttemptHashList(rec.start.attempts) || h in planLog.hashes
           || h in AttemptHashList(planLog.attempts);
  }

  function DoRepair(rec: Record, r: Runtime, id: Identity, expectedRevision: nat): Option<Record> {
    if !SameIdentity(rec, id) || rec.revision != expectedRevision || !Unsubmitted(rec, r.late) then None
    else Some(rec.(phase := ParkedPhase, chain := ChainActive, revision := rec.revision + 1))
  }

  function DoResolveForRetry(rec: Record, r: Runtime, id: Identity, expectedRevision: nat,
                             resolvedHashes: set<Hash>, newOp: OpId, block: nat): Option<Record> {
    if !SameIdentity(rec, id) || rec.revision != expectedRevision || rec.state.None? || !rec.mode.Mutual?
       || !rec.chain.ChainActive? || rec.start.pending || !rec.start.outcome.ResolvedOutcome?
       || rec.start.sub.Some? || rec.start.retry.Some?
       || (rec.plan.Some? && rec.plan.value.wal.sub.Some?) || rec.fin.sub.Some? || rec.fin.hashes != []
       || block == 0 || block < rec.start.resolutionBlock
       || HasUnresolved(r.late, rec.note) || (set h | h in KnownHashes(rec)) != resolvedHashes then None
    else
      var tried := if rec.plan.Some? then rec.plan.value.wal.attempts else [];
      var nullifier := First(rec.nullifier, if rec.plan.Some? then rec.plan.value.nullifier else None);
      Some(rec.(
        phase := ParkedPhase, chain := ChainActive, moved := false, revision := rec.revision + 1,
        history := rec.history + [Resolved(KnownHashes(rec), rec.start.attempts, tried, rec.start.resolved, [])],
        plan := Some(Plan(Mutual, rec.note, rec.destination, Some(newOp), true, nullifier, false,
                          NoOutcome, false, EMPTY_WAL)),
        start := EMPTY_START.(outcome := ResolvedOutcome, op := rec.start.op, dismissed := rec.start.dismissed),
        fin := rec.fin.(attempts := [])))
  }

  function DoSavePlan(rec: Record, r: Runtime, id: Identity, seenState: Option<Note>, seenPlan: Option<Plan>,
                      newOp: OpId, nullifier: Felt): Option<Record> {
    if !Available(rec, r, id) || rec.state != seenState || rec.plan != seenPlan then None
    else Some(rec.(
      phase := ParkedPhase, revision := rec.revision + 1, independent := true, nullifier := Some(nullifier),
      plan := Some(Plan(Mutual, rec.note, rec.destination, Some(newOp), true, Some(nullifier), true,
                        NoOutcome, false, EMPTY_WAL))))
  }

  function DoClaimStart(rec: Record, r: Runtime, id: Identity, op: OpId, sub: SubId): Option<StartWrite> {
    if !Available(rec, r, id) || rec.plan.None? || rec.plan.value.op != Some(op) || !rec.plan.value.proved
       || !rec.plan.value.wal.phase.Prepared? then None
    else Some(StartWrite(
      SubmittedUnconfirmed,
      rec.start.(pending := true, op := Some(op), sub := Some(sub), outcome := AwaitingWalletOutcome),
      Some(rec.plan.value.(outcome := AwaitingWalletOutcome,
                           wal := rec.plan.value.wal.(phase := AwaitingWallet, sub := Some(sub))))))
  }

  function DoJournalStart(rec: Record, id: Identity, sub: SubId, op: OpId, sender: Sender): Option<StartWrite> {
    if !SameIdentity(rec, id) || !HoldsClaim(rec, sub, op)
       || (rec.start.sender.Some? && rec.start.sender != Some(sender)) then None
    else Some(StartWrite(
      rec.phase,
      rec.start.(sender := Some(sender)),
      Some(rec.plan.value.(wal := rec.plan.value.wal.(sender := Some(sender))))))
  }

  function DoStartAmbiguous(rec: Record, id: Identity, sub: SubId, op: OpId): Option<StartWrite> {
    if !SameIdentity(rec, id) || !HoldsClaim(rec, sub, op) then None
    else Some(StartWrite(
      rec.phase,
      rec.start.(outcome := AmbiguousOutcome),
      Some(rec.plan.value.(outcome := AmbiguousOutcome, wal := rec.plan.value.wal.(phase := Ambiguous)))))
  }

  function DoReleaseStart(rec: Record, r: Runtime, id: Identity, sub: SubId, op: OpId,
                          requireNoNonce: bool): Option<StartWrite> {
    if !SameIdentity(rec, id) || !HoldsClaim(rec, sub, op) || (requireNoNonce && !Cancelable(rec, r, id)) then None
    else
      var retired := Claim(sub, op, FromOf(rec.start.sender), NonceOf(rec.start.sender));
      var start := Idle(rec.start).(pending := false, outcome := RejectedBeforeBroadcast,
                                    dismissed := Last(rec.start.dismissed + [retired], CLAIM_LIMIT));
      var plan := IdlePlan(rec.plan.value).(outcome := RejectedBeforeBroadcast);
      var unresolved := HasTransactions(rec.(start := start, plan := Some(plan)));
      Some(StartWrite(
        if unresolved then SubmittedUnconfirmed else ParkedPhase,
        start.(pending := unresolved),
        Some(plan.(wal := plan.wal.(phase := if unresolved then Submitted else Prepared)))))
  }

  /** A reported nonce must agree with what the claim saved; what is missing is filled in. */
  function AgreedSender(meta: Option<Sender>, from: Option<Address>, nonce: Option<nat>): Option<Sender> {
    if meta.Some? then
      if (from.Some? && from.value != meta.value.from) || (nonce.Some? && nonce.value != meta.value.nonce) then None
      else meta
    else if from.Some? && nonce.Some? then Some(Sender(from.value, nonce.value))
    else None
  }

  function DoRememberStart(rec: Record, id: Identity, hash: Hash, sub: SubId, op: OpId,
                           meta: Option<Sender>): Option<Record> {
    if !SameIdentity(rec, id) then None
    else
      var k := FindArchived(rec.history, sub, op);
      if k.Some? then DoRememberArchived(rec, k.value, hash, sub, op, meta)
      else StartWritten(rec, DoRememberLive(rec, hash, sub, op, meta))
  }

  /** A late hash for a finalized claim is audit only. */
  function DoRememberArchived(rec: Record, k: nat, hash: Hash, sub: SubId, op: OpId,
                              meta: Option<Sender>): Option<Record>
    requires k < |rec.history|
    requires FindClaim(ArchivedClaims(rec.history[k]), sub, op).Some?
  {
    var h := rec.history[k];
    var c := FindClaim(ArchivedClaims(h), sub, op).value;
    if c.from.None? || c.nonce.None? || AgreedSender(meta, c.from, c.nonce).None?
       || hash in h.hashes || hash in h.lateObserved then None
    else Some(rec.(history := rec.history[k := h.(lateObserved := h.lateObserved + [hash])],
                   revision := rec.revision + 1))
  }

  function DoRememberLive(rec: Record, hash: Hash, sub: SubId, op: OpId, meta: Option<Sender>): Option<StartWrite> {
    var active := rec.start.sub == Some(sub) && rec.start.op == Some(op);
    var prior := FindClaim(PriorClaims(rec), sub, op);
    if !active && prior.None? then None
    else
      var sender := if active then AgreedSender(meta, FromOf(rec.start.sender), NonceOf(rec.start.sender))
                    else AgreedSender(meta, prior.value.from, prior.value.nonce);
      if sender.None? then None
      else
        var hashes := Distinct(rec.start.hashes + [hash]);
        var attempts := WithoutAttempt(rec.start.attempts, hash) + [Attempt(hash, sub, op, sender)];
        Some(WithStartHash(rec, hashes, attempts, op, active))
  }

  function WithStartHash(rec: Record, hashes: seq<Hash>, attempts: seq<Attempt>, op: OpId, active: bool): StartWrite {
    var logged := rec.start.(hashes := hashes, attempts := attempts, pending := !rec.phase.ClosedPhase?);
    var plan :=
      if rec.plan.Some? && rec.plan.value.op == Some(op) then
        Some(rec.plan.value.(outcome := SubmittedOutcome,
                             wal := rec.plan.value.wal.(phase := Submitted, hashes := hashes, attempts := attempts)))
      else rec.plan;
    StartWrite(
      if rec.phase.ClosedPhase? || rec.phase.ClosedUnconfirmed? then rec.phase else SubmittedUnconfirmed,
      if active then Idle(logged).(outcome := SubmittedOutcome) else logged,
      if active && plan.Some? then Some(IdlePlan(plan.value)) else plan)
  }

  /** The nonce a background replacement may take over: that of the open claim, else the saved retry. */
  function Takeover(s: StartLog): Option<Sender> {
    if s.sub.Some? then s.sender else if s.retry.Some? then Some(s.retry.value.sender) else None
  }

  function DroppedSenders(rec: Record, p: Plan): set<Sender> {
    set i | 0 <= i < |rec.start.attempts| && Droppable(rec, p, rec.start.attempts[i])
      :: rec.start.attempts[i].sender.value
  }

  predicate Droppable(rec: Record, p: Plan, a: Attempt) {
    a.hash in rec.start.replaceables && a.hash in rec.start.hashes && a.hash in p.wal.hashes
    && Some(a.op) == p.op && a.sender.Some?
  }

  function DoReplaceStart(rec: Record, sub: SubId, sender: Sender): Option<StartWrite> {
    var s := rec.start;
    var takeover := Takeover(s);
    if rec.state.None? || rec.plan.None? || !s.pending || !rec.phase.SubmittedUnconfirmed? || !rec.chain.ChainActive?
       || (!(s.outcome.ReceiptMissing? || s.outcome.ReplacementUnknown?) && takeover.None?)
       || rec.plan.value.note != rec.note || rec.plan.value.destination.None? || !rec.plan.value.proved
       || rec.plan.value.op.None?
       || (s.sub.Some? && takeover.Some?
           && (rec.plan.value.wal.sub != s.sub || First(s.op, rec.plan.value.op) != rec.plan.value.op))
       || (s.sub.None? && takeover.Some? && Some(s.retry.value.op) != rec.plan.value.op)
       || (if takeover.Some? then takeover != Some(sender)
           else DroppedSenders(rec, rec.plan.value) != {sender}) then None
    else
      var p := rec.plan.value;
      Some(StartWrite(
        rec.phase,
        s.(op := p.op, sub := Some(sub), sender := Some(sender), outcome := ReplacementAwaiting, retry := None,
           superseded := if s.sub.Some?
                         then Last(s.superseded
                                   + [Claim(s.sub.value, p.op.value, FromOf(s.sender), NonceOf(s.sender))], CLAIM_LIMIT)
                         else s.superseded),
        Some(p.(outcome := ReplacementAwaiting, residue := p.residue || takeover.None? || p.wal.hashes != [],
                wal := p.wal.(phase := AwaitingWallet, sub := Some(sub), sender := Some(sender))))))
  }

  // --- Reconciliation patches --------------------------------------------------

  /** The phase a patch asks for, if it asks for one. */
  function PatchPhase(rec: Record, p: Patch): Option<Phase> {
    match p
    case StartUnresolved(_, _) => Some(SubmittedUnconfirmed)
    case MarkClosing => Some(ClosedUnconfirmed)
    case Close => Some(ClosedPhase)
    case MarkPending(_) =>
      Some(if rec.phase.AmbiguousPhase? then AmbiguousPhase
           else if rec.fin.hashes != [] then FinalizingPhase
           else if rec.fin.sub.Some? then AwaitingPhase else PendingPhase)
    case MarkUnfinal => Some(if rec.mode.Escape? then ChallengedUnconfirmed else RecoveryUnconfirmed)
    case MarkRestored => Some(ActivePhase(rec))
    case _ => None
  }

  function DoUpdate(rec: Record, p: Patch, expected: Option<nat>): Option<Record> {
    var phase := PatchPhase(rec, p);
    if (expected.Some? && expected.value != rec.revision)
       || (rec.phase.ClosedPhase? && phase.Some? && !phase.value.ClosedPhase?)
       || ((p.MarkUnfinal? || p.MarkRestored?) && (rec.fin.hashes != [] || rec.fin.sub.Some?)) then None
    else
      var next := rec.(phase := if phase.Some? then phase.value else rec.phase, revision := rec.revision + 1);
      Some(if p.Close? then Sanitize(next)
           else if p.StartResolved? then Resolve(next, p.status, p.claims, p.block)
           else Report(next, p))
  }

  /** A patch that only reports what the chain shows. */
  function Report(rec: Record, p: Patch): Record {
    rec.(mode := if p.MarkPending? then Escape else rec.mode,
         destination := if p.MarkPending? then First(p.paidTo, rec.destination) else rec.destination,
         chain := if p.NoteError? then rec.chain else if p.MarkClosing? then ChainClosed
                  else if p.MarkPending? then ChainPending else ChainActive,
         moved := rec.moved || p.MarkClosing? || p.MarkPending?,
         start := if p.StartUnresolved? then Unresolve(rec.start, p.allMissing, p.droppable) else rec.start)
  }

  function Resolve(rec: Record, status: ChainStatus, claims: seq<Claim>, block: nat): Record {
    rec.(chain := status,
         start := Idle(rec.start).(pending := false, outcome := ResolvedOutcome, replaceables := [], retry := None,
                                   resolved := claims, resolutionBlock := block),
         plan := if rec.plan.Some? && (rec.plan.value.wal.sub == rec.start.sub
                                       || exists c :: c in claims && rec.plan.value.wal.sub == Some(c.sub)
                                           && rec.plan.value.op == Some(c.op))
                 then Some(IdlePlan(rec.plan.value)) else rec.plan)
  }

  function Unresolve(s: StartLog, allMissing: bool, droppable: seq<Hash>): StartLog {
    if s.sub.Some? then s
    else if allMissing then s.(outcome := ReceiptMissing, replaceables := droppable)
    else if s.outcome.ReceiptMissing? || s.outcome.ReplacementUnknown? then s.(outcome := NoOutcome, replaceables := [])
    else s
  }

  function OpenClaim(sub: Option<SubId>, op: Option<OpId>, sender: Option<Sender>): seq<Claim> {
    if sub.Some? && op.Some? then [Claim(sub.value, op.value, FromOf(sender), NonceOf(sender))] else []
  }

  /** updateBrowserWithdrawal with `sanitize` on a closing record: every private field
      and every live claim goes; claim identities and hashes stay as audit. */
  function Sanitize(rec: Record): Record {
    var s := rec.start;
    var planWal := if rec.plan.Some? then rec.plan.value.wal else EMPTY_WAL;
    var planOp := if rec.plan.Some? then rec.plan.value.op else None;
    var claims := OpenClaim(s.sub, s.op, s.sender) + OpenClaim(planWal.sub, planOp, planWal.sender)
                  + s.resolved + s.dismissed + s.superseded + s.ambiguous;
    rec.(chain := ChainClosed, state := None, plan := None, nullifier := None, moved := true,
         history := rec.history + [Resolved(Distinct(s.hashes), s.attempts, planWal.attempts, claims, [])],
         start := Idle(s).(pending := false, outcome := NoOutcome, retry := None, replaceables := [],
                           superseded := [], ambiguous := [], resolved := []),
         fin := Unclaimed(rec.fin).(hashes := [], attempts := []))
  }

  function RecNext(rec: Record, r: Runtime, o: RecOp): Option<Record> {
    match o
    case Repair(id, revision) => DoRepair(rec, r, id, revision)
    case ResolveForRetry(id, revision, hashes, newOp, block) =>
      DoResolveForRetry(rec, r, id, revision, hashes, newOp, block)
    case SavePlan(id, seenState, seenPlan, newOp, nullifier) =>
      DoSavePlan(rec, r, id, seenState, seenPlan, newOp, nullifier)
    case ClaimStart(id, op, sub) => StartWritten(rec, DoClaimStart(rec, r, id, op, sub))
    case JournalStart(id, sub, op, sender) => StartWritten(rec, DoJournalStart(rec, id, sub, op, sender))
    case StartAmbiguous(id, sub, op) => StartWritten(rec, DoStartAmbiguous(rec, id, sub, op))
    case ReleaseStart(id, sub, op, requireNoNonce) =>
      StartWritten(rec, DoReleaseStart(rec, r, id, sub, op, requireNoNonce))
    case RememberStart(id, hash, sub, op, meta) => DoRememberStart(rec, id, hash, sub, op, meta)
    case ReplaceStart(sub, sender) => StartWritten(rec, DoReplaceStart(rec, sub, sender))
    case FinStep(finOp) =>
      var w := FinNext(rec, finOp);
      if w.None? then None else Some(FinSaved(rec, w.value))
    case Update(patch, expected) => DoUpdate(rec, patch, expected)
  }
}
