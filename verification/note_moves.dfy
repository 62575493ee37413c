/** The transactions that move a private note between the selected slot, the background
    records and the archive, as functions on the durable stores. None means that the
    transaction aborted. */
module NoteMoves {
  import opened WalletTypes
  import opened AttemptLog
  import opened PlanLog

  predicate Busy(r: Runtime) {
    r.journal.Some? || r.lease || r.deposit.Some?
  }

  function Known(s: Store, n: NoteId): Option<Record> {
    if n in s.records then Some(s.records[n]) else None
  }

  function PlanNullifier(r: Runtime): Option<Felt> {
    if r.plan.Some? then r.plan.value.nullifier else None
  }

  /** A record created from the selected slot. */
  function RecordFromSlot(r: Runtime, mode: Mode, destination: Option<Address>, phase: Phase, chain: ChainStatus,
                    clearance: bool, hash: Option<Hash>, moved: bool): Record
    requires r.state.Some?
  {
    Record(r.state.value.id, mode, destination, phase, chain, r.state, r.plan, clearance, PlanNullifier(r), false,
           moved, EMPTY_START.(hashes := if hash.Some? then [hash.value] else []), EMPTY_FIN, [], 1)
  }

  /** archiveBrowserWallet: with `expiry`, a verified expiry claim must be on record and
      unfinished work is archived with the note. */
  function Archive(s: Store, n: NoteId, expiry: bool, verified: bool): Option<Store> {
    var r := s.runtime;
    if !Selects(r, n) || (expiry && !verified) then None
    else
      var kept := if expiry then Archived(r.state.value, r.journal, r.plan, r.deposit, r.lease)
                  else Archived(r.state.value, None, None, None, false);
      Some(s.(archive := s.archive + [kept], runtime := Emptied(r)))
  }

  /** The selected note has this record, and the slot keeps only its late attempts. */
  function AfterDetach(s: Store, n: NoteId, rec: Record): Store {
    s.(records := s.records[n := rec], runtime := Emptied(s.runtime))
  }

  /** detachBrowserEscapeWithdrawal */
  function DetachEscape(s: Store, n: NoteId, destination: Option<Address>, challenged: bool,
                        chain: ChainStatus, hash: Option<Hash>, moved: bool): Option<Store> {
    var r := s.runtime;
    if !Selects(r, n) || Busy(r) then None
    else Some(AfterDetach(s, n, EscapeRecord(r, destination, challenged, chain, hash, moved)))
  }

  function EscapeRecord(r: Runtime, destination: Option<Address>, challenged: bool, chain: ChainStatus,
                        hash: Option<Hash>, moved: bool): Record
    requires r.state.Some?
  {
    RecordFromSlot(r, Escape, destination, if challenged then ChallengedUnconfirmed else PendingPhase, chain,
                   r.plan.Some? && r.plan.value.clearance, hash, moved)
  }

  /** detachBrowserClosedWithdrawal */
  function DetachClosed(s: Store, n: NoteId, mode: Mode, destination: Option<Address>,
                        hash: Option<Hash>, clearance: bool): Option<Store> {
    var r := s.runtime;
    if !Selects(r, n) || Busy(r) then None
    else
      var marked := clearance || (r.plan.Some? && (r.plan.value.clearance || r.plan.value.mode.Mutual?));
      var rec := RecordFromSlot(r, mode, destination, ClosedUnconfirmed, ChainUnknown, marked, hash, true);
      Some(AfterDetach(s, n, rec))
  }

  /** parkBrowserWithdrawal, for a withdrawal-only note without a wallet attempt */
  function Park(s: Store, n: NoteId): Option<Store> {
    var r := s.runtime;
    if !Selects(r, n) || Busy(r) || r.plan.None? || !(r.plan.value.mode.Mutual? || r.plan.value.clearance)
       || !(r.plan.value.wal.phase.Reserving? || r.plan.value.wal.phase.Prepared?)
       || r.plan.value.wal.sub.Some? || r.plan.value.wal.hashes != [] then None
    else
      var p := r.plan.value;
      var rec := RecordFromSlot(r, p.mode, p.destination, ParkedPhase, ChainUnknown, p.clearance || p.mode.Mutual?,
                                None, false);
      Some(AfterDetach(s, n, rec))
  }

  predicate WithdrawalOnly(rec: Record) {
    rec.mode.Mutual? || rec.clearance
  }

  predicate Restorable(s: Store, rec: Record, expectedRevision: nat) {
    && rec.state.Some? && rec.revision == expectedRevision && rec.state.value.id == rec.note
    && !rec.start.pending && rec.start.sub.None? && !HasUnresolved(s.runtime.late, rec.note)
    && rec.fin.sub.None? && rec.fin.hashes == []
    && (rec.phase.RestoredPhase? || (rec.phase.ParkedPhase? && WithdrawalOnly(rec)))
    && s.runtime.state.None? && !Busy(s.runtime) && s.runtime.plan.None?
  }

  /** The plan of a restored withdrawal-only note: never the old proof or hashes, always the mark. */
  function RestoredPlan(rec: Record): Option<Plan> {
    if !WithdrawalOnly(rec) then None
    else if rec.plan.None? then
      Some(Plan(rec.mode, rec.note, rec.destination, None, true, rec.nullifier, false, NoOutcome, false, EMPTY_WAL))
    else
      var p := rec.plan.value;
      Some(p.(note := rec.note, destination := rec.destination, clearance := true, proved := false,
              nullifier := First(rec.nullifier, p.nullifier),
              wal := p.wal.(phase := Prepared, sub := None, hashes := [])))
  }

  /** restoreBrowserWithdrawal */
  function Restore(s: Store, n: NoteId, expectedRevision: nat): Option<Store> {
    if n !in s.records || !Restorable(s, s.records[n], expectedRevision) then None
    else
      var rec := s.records[n];
      Some(s.(runtime := Emptied(s.runtime).(state := rec.state, plan := RestoredPlan(rec)),
              records := s.records - {n}))
  }

  // --- transferBrowserLateWithdrawalAttempt -------------------------------------

  datatype Destination = Destination(mode: Mode, phase: Phase, chain: ChainStatus, paidTo: Option<Address>,
                                     clearance: bool, moved: bool)

  /** The unresolved attempts of one note, in order. */
  function Related(late: seq<Late>, n: NoteId): (r: seq<Late>)
    ensures forall e :: e in r <==> e in late && e.note == n && !IsTerminal(e.status)
  {
    if late == [] then []
    else
      assert late == late[..|late| - 1] + [late[|late| - 1]];
      var e := late[|late| - 1];
      Related(late[..|late| - 1], n) + if e.note == n && !IsTerminal(e.status) then [e] else []
  }

  function LateHashes(late: seq<Late>): seq<Hash> {
    seq(|late|, i requires 0 <= i < |late| => late[i].hash)
  }

  function LateAttempts(late: seq<Late>): seq<Attempt> {
    seq(|late|, i requires 0 <= i < |late| => Attempt(late[i].hash, late[i].sub, late[i].op, late[i].sender))
  }

  /** The plan that travels with the record: the record's own, else whatever plan is in
      the selected slot, even when the slot belongs to another note. */
  function SourcePlan(s: Store, n: NoteId): Option<Plan> {
    First(if n in s.records then s.records[n].plan else None, s.runtime.plan)
  }

  function PlanOperation(p: Option<Plan>): Option<OpId> {
    if p.Some? then p.value.op else None
  }

  /** The reported hash answers the record's own open start claim. */
  predicate AnswersClaim(existing: Option<Record>, p: Option<Plan>, e: Late) {
    existing.Some? && existing.value.start.sub == Some(e.sub)
    && First(existing.value.start.op, PlanOperation(p)) == Some(e.op)
  }

  function AnsweredPlan(p: Option<Plan>, answers: bool, e: Late): Option<Plan> {
    if answers && p.Some? && p.value.wal.sub == Some(e.sub) then
      Some(p.value.(outcome := SubmittedOutcome,
                    wal := Wal(Submitted, None, None, Distinct(p.value.wal.hashes + [e.hash]),
                               WithoutAttempt(p.value.wal.attempts, e.hash)
                                   + [Attempt(e.hash, e.sub, e.op, e.sender)])))
    else p
  }

  predicate Aggregates(s: Store, n: NoteId, to: Destination) {
    to.phase.SubmittedUnconfirmed? || Selects(s.runtime, n) || (n in s.records && s.records[n].start.pending)
  }

  /** An open claim whose nonce was never journaled. Claiming assigns the operation id. */
  predicate PreNonce(p: Option<Plan>) {
    p.Some? && p.value.wal.sub.Some? && p.value.op.Some? && p.value.wal.sender.None?
  }

  function MigratedPlan(p: Plan): Plan {
    p.(outcome := RejectedBeforeBroadcast,
       wal := WithoutClaim(p.wal).(phase := if p.wal.hashes != [] then Submitted else Prepared))
  }

  /** The plan as the reported hash leaves it. */
  function ReportedPlan(s: Store, n: NoteId, e: Late): Option<Plan> {
    AnsweredPlan(SourcePlan(s, n), AnswersClaim(Known(s, n), SourcePlan(s, n), e), e)
  }

  /** The claim that an aggregating transfer retires because its nonce was never journaled. */
  function RetiredClaim(s: Store, n: NoteId, e: Late, to: Destination): Option<Claim> {
    var p := ReportedPlan(s, n, e);
    if Aggregates(s, n, to) && PreNonce(p) then Some(Claim(p.value.wal.sub.value, p.value.op.value, None, None))
        else None
  }

  /** The plan stored in the record. */
  function TravellingPlan(s: Store, n: NoteId, e: Late, to: Destination): Option<Plan> {
    var p := ReportedPlan(s, n, e);
    if Aggregates(s, n, to) && PreNonce(p) then Some(MigratedPlan(p.value)) else p
  }

  function StartBefore(s: Store, n: NoteId): StartLog {
    if n in s.records then s.records[n].start else EMPTY_START
  }

  /** The late attempts that the transfer carries into the record. */
  function CarriedLate(s: Store, n: NoteId, e: Late, to: Destination): seq<Late> {
    if Aggregates(s, n, to) then Related(s.runtime.late, n) else [e]
  }

  /** The plan's log, as far as the transfer carries it into the record's start log. */
  function CarriedLog(s: Store, n: NoteId, e: Late, to: Destination): Wal {
    var plan := TravellingPlan(s, n, e, to);
    if Aggregates(s, n, to) && plan.Some? then plan.value.wal else EMPTY_WAL
  }

  function TransferredHashes(s: Store, n: NoteId, e: Late, to: Destination): seq<Hash> {
    Distinct(StartBefore(s, n).hashes + CarriedLog(s, n, e, to).hashes + LateHashes(CarriedLate(s, n, e, to))
             + [e.hash])
  }

  function TransferredAttempts(s: Store, n: NoteId, e: Late, to: Destination): seq<Attempt> {
    MergeAttempts(StartBefore(s, n).attempts + CarriedLog(s, n, e, to).attempts
                  + LateAttempts(CarriedLate(s, n, e, to)))
  }

  function TransferredStart(s: Store, n: NoteId, e: Late, to: Destination): StartLog {
    var before := StartBefore(s, n);
    var plan := TravellingPlan(s, n, e, to);
    var log := if plan.Some? then plan.value.wal else EMPTY_WAL;
    var answers := AnswersClaim(Known(s, n), SourcePlan(s, n), e);
    var aggregates := Aggregates(s, n, to);
    var retired := RetiredClaim(s, n, e, to);
    var settled := (aggregates || answers) && log.sub.None? && (before.sub.None? || answers);
    StartLog(
      aggregates || before.pending,
      if answers then None else if aggregates then First(log.sub, before.sub) else before.sub,
      if answers then None else if aggregates then First(PlanOperation(plan), before.op) else before.op,
      if answers then None else if aggregates then First(log.sender, before.sender) else before.sender,
      if retired.Some? then RejectedBeforeBroadcast else if settled then NoOutcome else before.outcome,
      TransferredHashes(s, n, e, to),
      TransferredAttempts(s, n, e, to),
      if retired.Some? then Last(before.dismissed + [retired.value], CLAIM_LIMIT) else before.dismissed,
      before.superseded, before.ambiguous,
      if answers then None else before.retry,
      if settled then [] else before.replaceables,
      before.resolved, before.resolutionBlock)
  }

  predicate BackgroundOwns(s: Store, n: NoteId) {
    n in s.records && s.records[n].state.Some? && s.records[n].state.value.id == n
  }

  /** The late attempt with this identity, if it can still be transferred. */
  function Transferable(s: Store, op: OpId, hash: Hash, n: NoteId, to: Destination): (r: Option<nat>)
    ensures r.Some? ==> r.value < |s.runtime.late| && s.runtime.late[r.value].note == n
                        && s.runtime.late[r.value].hash == hash && !IsTerminal(s.runtime.late[r.value].status)
                        && (Selects(s.runtime, n) || BackgroundOwns(s, n))
  {
    var k := FindLate(s.runtime.late, op, hash);
    if !(to.phase.PendingPhase? || to.phase.SubmittedUnconfirmed? || to.phase.ChallengedUnconfirmed?
         || to.phase.ClosedUnconfirmed?)
       || k.None? || s.runtime.late[k.value].note != n || IsTerminal(s.runtime.late[k.value].status)
       || !(Selects(s.runtime, n) || BackgroundOwns(s, n))
       || (Selects(s.runtime, n) && Busy(s.runtime)) then None
    else k
  }

  function TransferredRecord(s: Store, n: NoteId, e: Late, to: Destination): Record {
    var existing := Known(s, n);
    var plan := TravellingPlan(s, n, e, to);
    Record(n, to.mode, to.paidTo, to.phase, to.chain,
           First(if existing.Some? then existing.value.state else None, s.runtime.state),
           plan,
           (existing.Some? && existing.value.clearance)
             || (plan.Some? && (plan.value.clearance || plan.value.mode.Mutual?))
             || e.clearance || to.clearance,
           First(if existing.Some? then existing.value.nullifier else None,
                 First(if plan.Some? then plan.value.nullifier else None, e.nullifier)),
           existing.Some? && existing.value.independent,
           to.moved || (existing.Some? && existing.value.moved),
           TransferredStart(s, n, e, to),
           if existing.Some? then existing.value.fin else EMPTY_FIN,
           if existing.Some? then existing.value.history else [],
           if existing.Some? then existing.value.revision + 1 else 1)
  }

  function SettledLate(s: Store, n: NoteId, k: nat, to: Destination): seq<Late>
    requires k < |s.runtime.late|
  {
    Retain(Settle(s.runtime.late, k,
                  if to.phase.ClosedUnconfirmed? then ClosedLate else Detached,
                  if Aggregates(s, n, to) then Detached else Superseded))
  }

  /** transferBrowserLateWithdrawalAttempt */
  function Transfer(s: Store, op: OpId, hash: Hash, n: NoteId, to: Destination): Option<Store> {
    var k := Transferable(s, op, hash, n, to);
    if k.None? then None
    else
      Some(AfterTransfer(s, n, TransferredRecord(s, n, s.runtime.late[k.value], to), SettledLate(s, n, k.value, to)))
  }

  lemma TransferSource(s: Store, op: OpId, hash: Hash, n: NoteId, to: Destination, t: Store)
    returns (k: nat, e: Late, rec: Record, late: seq<Late>)
    requires Transfer(s, op, hash, n, to) == Some(t)
    ensures Transferable(s, op, hash, n, to) == Some(k) && k < |s.runtime.late| && s.runtime.late[k] == e
    ensures rec == TransferredRecord(s, n, e, to) && late == SettledLate(s, n, k, to)
    ensures t == AfterTransfer(s, n, rec, late)
    ensures e in s.runtime.late && e.note == n && !IsTerminal(e.status)
    ensures Selects(s.runtime, n) || BackgroundOwns(s, n)
  {
    k := Transferable(s, op, hash, n, to).value;
    e := s.runtime.late[k];
    rec := TransferredRecord(s, n, e, to);
    late := SettledLate(s, n, k, to);
  }

  /** The note has this record and these late attempts are left; a selected note leaves the slot. */
  function AfterTransfer(s: Store, n: NoteId, rec: Record, late: seq<Late>): Store {
    s.(records := s.records[n := rec],
       runtime := if Selects(s.runtime, n) then EMPTY_RUNTIME.(deposit := s.runtime.deposit, late := late)
                  else s.runtime.(late := late))
  }

  // --- releaseBrowserWithdrawalStartSubmission ----------------------------------

  /** The claim a released prompt held, as its plan remembers it. */
  predicate PromptMatches(p: Plan, ref: Ref, unknown: bool) {
    p.wal.sub == Some(ref.sub) && p.op == Some(ref.op) && p.note == ref.note && p.mode == ref.mode
    && p.destination == ref.destination
    && (unknown ==>
          ref.replacement.Some? && p.wal.sender.Some?
          && p.wal.sender.value.nonce == ref.replacement.value.nonce)
  }

  function ReleasedPlan(p: Plan, unknown: bool): Plan {
    p.(outcome := if unknown then ReplacementUnknown else RejectedBeforeBroadcast,
       residue := p.residue || unknown,
       wal := WithoutClaim(p.wal).(phase := if unknown then Dropped
                                   else if p.wal.hashes != [] then Submitted else Prepared))
  }

  predicate RecordPromptMatches(rec: Record, ref: Ref, unknown: bool) {
    var own := rec.plan.Some? && rec.plan.value.wal.sub == rec.start.sub;
    var sender := if own then First(rec.plan.value.wal.sender, rec.start.sender) else rec.start.sender;
    && rec.start.sub == Some(ref.sub)
    && First(rec.start.op, PlanOperation(rec.plan)) == Some(ref.op)
    && (if own then rec.plan.value.note == ref.note && rec.plan.value.mode == ref.mode
        && rec.plan.value.destination == ref.destination
        else rec.note == ref.note && rec.mode == ref.mode && rec.destination == ref.destination)
    && (unknown ==> ref.replacement.Some? && sender.Some? && sender.value.nonce == ref.replacement.value.nonce)
  }

  predicate NamesSender(c: Claim, sender: Sender) {
    c.from == Some(sender.from) && c.nonce == Some(sender.nonce)
  }

  /** An older prompt with the same nonce may still broadcast. */
  predicate PriorSameNonce(log: StartLog, op: OpId) {
    log.sender.Some?
    && (|| (exists c :: c in log.superseded && c.op == op && NamesSender(c, log.sender.value))
        || (exists c :: c in log.ambiguous && c.op == op && c.nonce == Some(log.sender.value.nonce)))
  }

  function ReleasedRecord(rec: Record, ref: Ref, unknown: bool): Record {
    var log := rec.start;
    var retain := log.sender.Some? && (unknown || PriorSameNonce(log, ref.op));
    rec.(
      revision := rec.revision + 1,
      plan := if rec.plan.Some? && rec.plan.value.wal.sub == Some(ref.sub)
              then Some(ReleasedPlan(rec.plan.value, unknown)) else rec.plan,
      start := log.(
        sub := None, op := None, sender := None,
        outcome := if unknown then ReplacementUnknown else RejectedBeforeBroadcast,
        retry := if !retain then None
                 else if PlanOperation(rec.plan) == Some(ref.op) then Some(Retry(ref.op, log.sender.value))
                     else log.retry,
        ambiguous := if unknown && ref.replacement.Some?
                     then Last(log.ambiguous + [Claim(ref.sub, ref.op, None, Some(ref.replacement.value.nonce))],
                               CLAIM_LIMIT) else log.ambiguous,
        dismissed := if unknown then log.dismissed
            else Last(log.dismissed + [Claim(ref.sub, ref.op, None, None)], CLAIM_LIMIT)))
  }

  predicate PromptInSlot(s: Store, ref: Ref, unknown: bool) {
    s.runtime.plan.Some? && PromptMatches(s.runtime.plan.value, ref, unknown)
  }

  predicate PromptInRecord(s: Store, ref: Ref, unknown: bool) {
    ref.note in s.records && RecordPromptMatches(s.records[ref.note], ref, unknown)
  }

  /** The one transaction that writes the selected slot without the wallet lock. */
  function ReleaseSubmission(s: Store, ref: Ref, unknown: bool): Option<Store> {
    var inSlot, inRecord := PromptInSlot(s, ref, unknown), PromptInRecord(s, ref, unknown);
    if !inSlot && !inRecord then None
    else Some(s.(
      runtime := if inSlot then s.runtime.(plan := Some(ReleasedPlan(s.runtime.plan.value, unknown))) else s.runtime,
      records := if inRecord then s.records[ref.note := ReleasedRecord(s.records[ref.note], ref, unknown)]
          else s.records))
  }

  // ---------------------------------------------------------------------------
  // A late transfer loses no broadcast
  // ---------------------------------------------------------------------------

  /** The attempts that belong to other notes, in order. */
  ghost function OfOthers(late: seq<Late>, n: NoteId): seq<Late> {
    if late == [] then []
    else OfOthers(late[..|late| - 1], n) + if late[|late| - 1].note != n then [late[|late| - 1]] else []
  }

  /** Histories that agree on other notes, where every attempt of note n has ended. */
  lemma {:induction false} EndedHistory(ended: seq<Late>, late: seq<Late>, n: NoteId)
    requires |ended| == |late|
    requires forall i :: 0 <= i < |late| ==>
          if late[i].note == n then IsTerminal(ended[i].status) else ended[i] == late[i]
    ensures Unresolved(ended) == OfOthers(Unresolved(late), n)
  {
    if late != [] {
      var m := |late| - 1;
      EndedHistory(ended[..m], late[..m], n);
      assert ended == ended[..m] + [ended[m]] && late == late[..m] + [late[m]];
      UnresolvedSnoc(ended[..m], ended[m]);
      UnresolvedSnoc(late[..m], late[m]);
      OthersSnoc(Unresolved(late[..m]), late[m], n);
    }
  }

  lemma OthersSnoc(s: seq<Late>, e: Late, n: NoteId)
    ensures OfOthers(s + [e], n) == if e.note == n then OfOthers(s, n) else OfOthers(s, n) + [e]
  {
    assert (s + [e])[..|s|] == s;
  }

  lemma RelatedHash(late: seq<Late>, n: NoteId, e: Late)
    requires e in late && e.note == n && !IsTerminal(e.status)
    ensures e.hash in LateHashes(Related(late, n))
  {
    var i :| 0 <= i < |Related(late, n)| && Related(late, n)[i] == e;
    assert LateHashes(Related(late, n))[i] == e.hash;
  }

  /** A late transfer loses no broadcast. The record keeps every hash it had and the
      reported one. When the transfer aggregates, it also keeps every hash of the
      travelling plan and of every unresolved late attempt of that note, all of which
      leave the unresolved list; the unresolved attempts of other notes stay, in order,
      and only terminal history is cut, to 32 entries. */
  lemma TransferLosesNoBroadcast(s: Store, op: OpId, hash: Hash, n: NoteId, to: Destination)
    requires Transfer(s, op, hash, n, to).Some?
    ensures var t := Transfer(s, op, hash, n, to).value;
            && (forall h :: h in StartBefore(s, n).hashes || h == hash ==> h in t.records[n].start.hashes)
            && (Aggregates(s, n, to) && SourcePlan(s, n).Some? ==>
                  forall h :: h in SourcePlan(s, n).value.wal.hashes ==> h in t.records[n].start.hashes)
            && (Aggregates(s, n, to) ==>
                  forall e :: e in s.runtime.late && e.note == n && !IsTerminal(e.status) ==>
                        e.hash in t.records[n].start.hashes)
            && Unresolved(t.runtime.late) == OfOthers(Unresolved(s.runtime.late), n)
            && |t.runtime.late| <= |Unresolved(t.runtime.late)| + TERMINAL_LIMIT
  {
    var k := Transferable(s, op, hash, n, to).value;
    var e := s.runtime.late[k];
    assert e.hash == hash;
    var t := Transfer(s, op, hash, n, to).value;
    assert t.records[n].start == TransferredStart(s, n, e, to);
    assert t.runtime.late == SettledLate(s, n, k, to);
    TransferEndsAttempts(s, n, k, to);
    TransferKeepsHashes(s, n, e, to);
  }

  lemma TransferEndsAttempts(s: Store, n: NoteId, k: nat, to: Destination)
    requires k < |s.runtime.late| && s.runtime.late[k].note == n
    ensures Unresolved(SettledLate(s, n, k, to)) == OfOthers(Unresolved(s.runtime.late), n)
    ensures |SettledLate(s, n, k, to)| <= |Unresolved(SettledLate(s, n, k, to))| + TERMINAL_LIMIT
  {
    var status := if to.phase.ClosedUnconfirmed? then ClosedLate else Detached;
    var others := if Aggregates(s, n, to) then Detached else Superseded;
    RetainKeepsUnresolved(Settle(s.runtime.late, k, status, others));
    EndedHistory(Settle(s.runtime.late, k, status, others), s.runtime.late, n);
  }

  lemma TransferKeepsHashes(s: Store, n: NoteId, e: Late, to: Destination)
    requires e in s.runtime.late && e.note == n && !IsTerminal(e.status)
    ensures var log := TransferredStart(s, n, e, to);
            && (forall h :: h in StartBefore(s, n).hashes || h == e.hash ==> h in log.hashes)
            && (Aggregates(s, n, to) && SourcePlan(s, n).Some? ==>
                  forall h :: h in SourcePlan(s, n).value.wal.hashes ==> h in log.hashes)
            && (Aggregates(s, n, to) ==>
                  forall x :: x in s.runtime.late && x.note == n && !IsTerminal(x.status) ==> x.hash in log.hashes)
  {
    var planHashes := CarriedLog(s, n, e, to).hashes;
    var merged := StartBefore(s, n).hashes + planHashes + LateHashes(CarriedLate(s, n, e, to)) + [e.hash];
    assert TransferredHashes(s, n, e, to) == Distinct(merged);
    if Aggregates(s, n, to) {
      forall x | x in s.runtime.late && x.note == n && !IsTerminal(x.status) ensures x.hash in merged {
        RelatedHash(s.runtime.late, n, x);
      }
      if SourcePlan(s, n).Some? {
        forall h | h in SourcePlan(s, n).value.wal.hashes ensures h in merged {
          assert h in SourcePlan(s, n).value.wal.hashes + [e.hash];
          assert h in planHashes;
        }
      }
    }
  }
}
