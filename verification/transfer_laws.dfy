/** What a late transfer keeps of the record it rewrites: everything but what the reported hash
    answers, and every claim that a later reconciliation pass must still check. */
module TransferLaws {
  import opened WalletTypes
  import opened AttemptLog
  import opened FinalizationLog
  import opened WithdrawalRecord
  import opened NoteMoves
  import opened StartRecovery
  import opened RecordReplacement

  /** The transfer of attempt e leaves this record. */
  ghost predicate Leaves(s: Store, n: NoteId, e: Late, to: Destination, next: Record) {
    e in s.runtime.late && e.note == n && !IsTerminal(e.status) && next == TransferredRecord(s, n, e, to)
  }

  /** An existing record keeps its private state, mark, nullifier, finalization, history, resolved
      and retired claims. */
  lemma TransferKeepsRecord(s: Store, n: NoteId, e: Late, to: Destination, next: Record)
    requires n in s.records && Leaves(s, n, e, to, next)
    ensures var rec := s.records[n];
            && next.note == n && next.fin == rec.fin && next.history == rec.history
            && next.independent == rec.independent && next.revision == rec.revision + 1
            && (rec.state.Some? ==> next.state == rec.state)
            && (rec.nullifier.Some? ==> next.nullifier == rec.nullifier)
            && (rec.clearance ==> next.clearance) && (rec.moved ==> next.moved)
            && (rec.start.pending ==> next.start.pending)
            && next.start.superseded == rec.start.superseded && next.start.ambiguous == rec.start.ambiguous
            && next.start.resolved == rec.start.resolved && next.start.resolutionBlock == rec.start.resolutionBlock
    ensures next.mode == to.mode && next.destination == to.paidTo && next.phase == to.phase && next.chain == to.chain
  {
  }

  /** A new record takes the slot's state and plan with it, with nothing finalized yet. */
  lemma TransferMakesRecord(s: Store, n: NoteId, e: Late, to: Destination, next: Record)
    requires n !in s.records && Selects(s.runtime, n) && Leaves(s, n, e, to, next)
    ensures next.note == n && next.state == s.runtime.state && next.revision == 1 && next.history == []
            && !next.independent && next.start.pending && next.start.retry.None? && next.start.superseded == []
            && next.start.ambiguous == [] && next.start.resolved == []
    ensures next.mode == to.mode && next.destination == to.paidTo && next.phase == to.phase && next.chain == to.chain
    ensures next.fin.hashes == [] && next.fin.attempts == [] && next.fin.sub.None? && next.fin.generation == 0
    ensures e.clearance || (s.runtime.plan.Some? && s.runtime.plan.value.clearance) ==> next.clearance
  {
  }

  /** Every hash that a pass would follow, it follows afterwards. */
  lemma TransferKeepsMentions(s: Store, n: NoteId, e: Late, to: Destination, h: Hash, next: Record)
    requires n in s.records && Leaves(s, n, e, to, next) && Mentions(s.records[n], h)
    ensures Mentions(next, h)
  {
    var p := s.records[n].plan;
    if h in s.records[n].start.hashes {
      TransferKeepsHashes(s, n, e, to);
    } else if HasHash(s.records[n].start.attempts, h) {
      MergedMentions(s, n, e, to, h);
    } else if HasHash(p.value.wal.attempts, h) {
      TravellingMentions(s, n, e, to, h);
    } else {
      TravellingHash(s, n, e, to, h);
    }
  }

  lemma MergedMentions(s: Store, n: NoteId, e: Late, to: Destination, h: Hash)
    requires HasHash(StartBefore(s, n).attempts, h)
    ensures HasHash(TransferredAttempts(s, n, e, to), h)
  {
    MergeKeepsHash(StartBefore(s, n).attempts, CarriedLog(s, n, e, to).attempts,
                   LateAttempts(CarriedLate(s, n, e, to)), h);
  }

  lemma MergeKeepsHash(a: seq<Attempt>, b: seq<Attempt>, c: seq<Attempt>, h: Hash)
    requires HasHash(a, h)
    ensures HasHash(MergeAttempts(a + b + c), h)
  {
    var x :| x in a && x.hash == h;
    assert x in a + b + c;
  }

  lemma TravellingHash(s: Store, n: NoteId, e: Late, to: Destination, h: Hash)
    requires n in s.records && s.records[n].plan.Some? && h in s.records[n].plan.value.wal.hashes
    ensures TravellingPlan(s, n, e, to).Some? && h in TravellingPlan(s, n, e, to).value.wal.hashes
  {
    assert h in s.records[n].plan.value.wal.hashes + [e.hash];
  }

  lemma TravellingMentions(s: Store, n: NoteId, e: Late, to: Destination, h: Hash)
    requires n in s.records && s.records[n].plan.Some? && HasHash(s.records[n].plan.value.wal.attempts, h)
    ensures TravellingPlan(s, n, e, to).Some? && HasHash(TravellingPlan(s, n, e, to).value.wal.attempts, h)
  {
    var saved := s.records[n].plan.value.wal.attempts;
    var log := TravellingPlan(s, n, e, to).value.wal.attempts;
    var a :| a in saved && a.hash == h;
    var reported := Attempt(e.hash, e.sub, e.op, e.sender);
    assert log == saved || log == WithoutAttempt(saved, e.hash) + [reported];
    if log != saved {
      assert reported in log;
      if a.hash != e.hash { assert a in log; }
    } else {
      assert a in log;
    }
  }

  /** The travelling plan names another claim, operation or nonce than the record's open claim. */
  ghost predicate Disagrees(p: Option<Plan>, log: StartLog) {
    p.Some?
    && ((p.value.wal.sub.Some? && p.value.wal.sub != log.sub)
        || (p.value.op.Some? && p.value.op != log.op)
        || (p.value.wal.sender.Some? && p.value.wal.sender != log.sender))
  }

  /** The reported hash answers the claim or the retry that stands in for one, its nonce was never
      journaled, or it was the record's open claim and the plan that travels disagrees with it. */
  ghost predicate ClaimEnds(s: Store, n: NoteId, e: Late, to: Destination, c: LiveClaim) {
    var answers := AnswersClaim(Known(s, n), SourcePlan(s, n), e);
    || (answers && (c.sub == Some(e.sub) || c.sub.None?))
    || (Aggregates(s, n, to) && c.sub.Some? && c.nonce.None? && PreNonce(ReportedPlan(s, n, e)))
    || (Aggregates(s, n, to) && c.sub == StartBefore(s, n).sub
        && Disagrees(TravellingPlan(s, n, e, to), StartBefore(s, n)))
  }

  /** No live claim is lost: what the record answered for before the transfer, it answers for
      afterwards, unless the transfer ends that claim. */
  lemma TransferKeepsClaims(s: Store, n: NoteId, e: Late, to: Destination, replaced: seq<Claim>, c: LiveClaim,
                            next: Record)
    requires n in s.records && Leaves(s, n, e, to, next)
    requires Answers(s.records[n], replaced, c) && !ClaimEnds(s, n, e, to, c)
    ensures Answers(next, replaced, c)
  {
  }

  /** The open claim of the slot's plan, once its nonce is journaled, is one that the new record
      answers for. */
  lemma TransferTakesClaim(s: Store, n: NoteId, e: Late, to: Destination, replaced: seq<Claim>, c: LiveClaim,
                           next: Record)
    requires n !in s.records && Selects(s.runtime, n) && Leaves(s, n, e, to, next)
    requires s.runtime.plan.Some? && s.runtime.plan.value.wal.sub.Some? && s.runtime.plan.value.wal.sender.Some?
    requires Carries(c, s.runtime.plan.value.wal.sub, s.runtime.plan.value.op, s.runtime.plan.value.wal.sender)
    ensures Answers(next, replaced, c) && next.start.sub == c.sub && next.start.op == c.op
            && next.start.sender == s.runtime.plan.value.wal.sender
  {
  }

  /** A transfer to the pending phase leaves the record pending without an open finalization if
      and only if it had none. */
  lemma TransferredPendingIff(s: Store, n: NoteId, e: Late, to: Destination, next: Record)
    requires Leaves(s, n, e, to, next) && to.phase.PendingPhase?
    ensures PendingIsIdle(next)
       <==> n !in s.records || (s.records[n].fin.hashes == [] && s.records[n].fin.sub.None?)
  {
  }

  /** Marks of an earlier pass do not outlive the transfer: without an open claim or a saved
      retry no replacement is issued before the next pass. */
  lemma NoReplacementUntilChecked(s: Store, n: NoteId, e: Late, to: Destination, t: Sender, next: Record)
    requires Leaves(s, n, e, to, next) && (Aggregates(s, n, to) || AnswersClaim(Known(s, n), SourcePlan(s, n), e))
    requires next.start.sub.None? && next.start.retry.None? && (next.plan.Some? ==> next.plan.value.wal.sub.None?)
    ensures !IssuedFor(next, t)
  {
  }

  /** The plan travels unchanged unless the hash answers its claim or its claim had no nonce; in
      both cases only claim, phase, outcome and log change. */
  lemma TransferKeepsPlan(s: Store, n: NoteId, e: Late, to: Destination, p: Plan, next: Record)
    requires Leaves(s, n, e, to, next) && SourcePlan(s, n) == Some(p)
    ensures next.plan.Some?
    ensures p.wal.sub != Some(e.sub) && p.wal.sender.Some? ==> next.plan == Some(p)
    ensures next.plan.value == p.(outcome := next.plan.value.outcome, wal := next.plan.value.wal)
    ensures next.plan.value.wal.sub == p.wal.sub || next.plan.value.wal.sub.None?
    ensures forall h :: h in p.wal.hashes ==> h in next.plan.value.wal.hashes
    ensures next.nullifier.None? ==> p.nullifier.None? && e.nullifier.None?
    ensures n !in s.records && p.nullifier.Some? ==> next.nullifier == p.nullifier
  {
    assert forall h :: h in p.wal.hashes ==> h in p.wal.hashes + [e.hash];
  }

  /** Every attempt that the transfer ends is saved with the record, and the one that it was made
      for, when no other joins it, with its own claim and identity. */
  lemma TransferSavesAttempts(s: Store, n: NoteId, e: Late, to: Destination, x: Late, next: Record)
    requires Leaves(s, n, e, to, next) && x in CarriedLate(s, n, e, to)
    ensures HasHash(next.start.attempts, x.hash)
    ensures !Aggregates(s, n, to) ==>
              exists a :: a in next.start.attempts && a.hash == e.hash && a.sub == e.sub && a.op == e.op
                          && a.sender == e.sender
  {
    var a := Attempt(x.hash, x.sub, x.op, x.sender);
    var before := StartBefore(s, n).attempts + CarriedLog(s, n, e, to).attempts;
    var late := LateAttempts(CarriedLate(s, n, e, to));
    var i :| 0 <= i < |CarriedLate(s, n, e, to)| && CarriedLate(s, n, e, to)[i] == x;
    assert late[i] == a && a in before + late;
    if !Aggregates(s, n, to) {
      assert late == [a];
      LastIsSaved(before, a);
    }
  }

  lemma LastIsSaved(before: seq<Attempt>, a: Attempt)
    ensures a in MergeAttempts(before + [a])
  {
    assert (before + [a])[..|before|] == before;
  }
}
