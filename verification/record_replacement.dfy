/** Replacing the start transaction of a background record reuses its nonce: when a
    replacement is issued and for which identity, and over whole runs of the calls on a
    record and the unlocked release of its prompts. */
module RecordReplacement {
  import opened WalletTypes
  import opened AttemptLog
  import opened WithdrawalRecord
  import opened NoteMoves

  // --- One replacement --------------------------------------------------------------------------

  /** The start is unresolved on an active note, and the proof to send again is still there. */
  ghost predicate CanReplace(rec: Record) {
    && rec.state.Some? && rec.start.pending && rec.phase.SubmittedUnconfirmed? && rec.chain.ChainActive?
    && rec.plan.Some? && rec.plan.value.note == rec.note && rec.plan.value.destination.Some?
    && rec.plan.value.proved && rec.plan.value.op.Some?
  }

  /** The open claim has journaled a nonce, or there is none and a retry is saved. */
  ghost predicate HasIdentity(rec: Record) {
    if rec.start.sub.Some? then rec.start.sender.Some? else rec.start.retry.Some?
  }

  /** That identity is t, and its claim or retry is the plan's. */
  ghost predicate TakesOver(rec: Record, p: Plan, t: Sender) {
    if rec.start.sub.Some? then
      rec.start.sender == Some(t) && p.wal.sub == rec.start.sub && (rec.start.op.None? || rec.start.op == p.op)
    else
      rec.start.retry.Some? && rec.start.retry.value.sender == t && Some(rec.start.retry.value.op) == p.op
  }

  /** An attempt of the plan's operation that the last pass marked for replacement. */
  ghost predicate Dropped(rec: Record, p: Plan, a: Attempt) {
    && a in rec.start.attempts && Some(a.op) == p.op
    && a.hash in rec.start.replaceables && a.hash in rec.start.hashes && a.hash in p.wal.hashes
  }

  /** The dropped attempts that name a sender all name t, and there is one. */
  ghost predicate OnlyDropped(rec: Record, p: Plan, t: Sender) {
    && (exists a :: Dropped(rec, p, a) && a.sender == Some(t))
    && (forall a :: Dropped(rec, p, a) && a.sender.Some? ==> a.sender == Some(t))
  }

  ghost predicate IssuedFor(rec: Record, t: Sender) {
    && CanReplace(rec)
    && (if HasIdentity(rec) then TakesOver(rec, rec.plan.value, t)
        else (rec.start.outcome.ReceiptMissing? || rec.start.outcome.ReplacementUnknown?)
             && OnlyDropped(rec, rec.plan.value, t))
  }

  lemma OnlyDroppedIff(rec: Record, p: Plan, t: Sender)
    ensures DroppedSenders(rec, p) == {t} <==> OnlyDropped(rec, p, t)
  {
    forall x ensures x in DroppedSenders(rec, p) <==> exists a :: Dropped(rec, p, a) && a.sender == Some(x) {
      if a :| Dropped(rec, p, a) && a.sender == Some(x) {
        var i :| 0 <= i < |rec.start.attempts| && rec.start.attempts[i] == a;
        assert Droppable(rec, p, rec.start.attempts[i]);
      }
      if x in DroppedSenders(rec, p) {
        var i :| 0 <= i < |rec.start.attempts| && Droppable(rec, p, rec.start.attempts[i])
                 && rec.start.attempts[i].sender.value == x;
        assert Dropped(rec, p, rec.start.attempts[i]);
      }
    }
  }

  /** A replacement under a new claim id is issued if and only if the guards hold and the sender
      is the one that the open claim has journaled, else that of the saved retry, else the only
      one of the dropped attempts. */
  lemma ReplacementIssuedIff(rec: Record, r: Runtime, sub: SubId, t: Sender)
    requires rec.start.sub != Some(sub)
    ensures RecNext(rec, r, ReplaceStart(sub, t)).Some? <==> IssuedFor(rec, t)
  {
    if rec.plan.Some? { OnlyDroppedIff(rec, rec.plan.value, t); }
  }

  /** It opens the new claim under that nonce in both logs, keeps every hash and attempt, and
      keeps the overtaken claim, which can still report, among the superseded ones. */
  lemma ReplacementOpens(rec: Record, r: Runtime, sub: SubId, t: Sender, next: Record)
    requires RecNext(rec, r, ReplaceStart(sub, t)) == Some(next)
    ensures next.start.sub == Some(sub) && next.start.sender == Some(t) && next.start.retry.None?
    ensures next.plan.Some? && next.plan.value.wal.sub == Some(sub) && next.plan.value.wal.sender == Some(t)
            && next.start.op == next.plan.value.op == rec.plan.value.op
    ensures next.start.hashes == rec.start.hashes && next.start.attempts == rec.start.attempts
            && next.plan.value.wal.hashes == rec.plan.value.wal.hashes
            && next.plan.value.wal.attempts == rec.plan.value.wal.attempts
    ensures rec.start.sub.Some? ==>
              exists c :: c in next.start.superseded && Some(c.sub) == rec.start.sub && Some(c.op) == rec.plan.value.op
                          && c.from == FromOf(rec.start.sender) && c.nonce == NonceOf(rec.start.sender)
    ensures rec.start.sub.None? ==> next.start.superseded == rec.start.superseded
    ensures next.phase == rec.phase && next.start.pending == rec.start.pending
  {
    WriteIs(rec, DoReplaceStart(rec, sub, t), next);
    if rec.start.sub.Some? {
      assert next.start.superseded[|next.start.superseded| - 1]
          == Claim(rec.start.sub.value, rec.plan.value.op.value, FromOf(rec.start.sender), NonceOf(rec.start.sender));
    }
  }

  lemma WriteIs(rec: Record, w: Option<StartWrite>, next: Record)
    requires StartWritten(rec, w) == Some(next)
    ensures w.Some? && next == StartSaved(rec, w.value)
  {
  }

  // --- Whole runs -------------------------------------------------------------------------------

  /** A record, and for every prompt that journaled its nonce the identity it journaled. */
  datatype Desk = Desk(rec: Record, prompts: map<SubId, Sender>)

  datatype Round =
    | Called(slot: Runtime, o: RecOp)
    | Unlocked(ref: Ref, unknown: bool)

  /** A replacement is handed the identity that it must journal. */
  function Handed(prompts: map<SubId, Sender>, o: RecOp): map<SubId, Sender> {
    if o.ReplaceStart? then prompts[o.sub := o.sender] else prompts
  }

  function DeskNext(d: Desk, r: Round): Desk {
    match r
    case Called(slot, o) =>
      var next := RecNext(d.rec, slot, o);
      if next.None? then d else Desk(next.value, Handed(d.prompts, o))
    case Unlocked(ref, unknown) =>
      if RecordPromptMatches(d.rec, ref, unknown) then d.(rec := ReleasedRecord(d.rec, ref, unknown)) else d
  }

  function DeskRun(d: Desk, rounds: seq<Round>): Desk {
    if rounds == [] then d else DeskNext(DeskRun(d, rounds[..|rounds| - 1]), rounds[|rounds| - 1])
  }

  /** What the drivers do: claim ids are new, and a prompt journals before it sends and reports
      the identity that it journaled. */
  predicate Follows(d: Desk, r: Round) {
    r.Called? ==>
      match r.o
      case RememberStart(_, _, sub, _, meta) => sub in d.prompts && (meta.None? || meta.value == d.prompts[sub])
      case ReplaceStart(sub, _) => sub !in d.prompts
      case _ => true
  }

  predicate FollowsAll(d: Desk, rounds: seq<Round>) {
    rounds == []
    || (FollowsAll(d, rounds[..|rounds| - 1]) && Follows(DeskRun(d, rounds[..|rounds| - 1]), rounds[|rounds| - 1]))
  }

  /** The round opens a first prompt, which is possible only on a record without transactions. */
  predicate StartsOver(d: Desk, r: Round) {
    r.Called? && r.o.ClaimStart? && RecNext(d.rec, r.slot, r.o).Some?
  }

  predicate NeverStartsOver(d: Desk, rounds: seq<Round>) {
    rounds == []
    || (NeverStartsOver(d, rounds[..|rounds| - 1])
        && !StartsOver(DeskRun(d, rounds[..|rounds| - 1]), rounds[|rounds| - 1]))
  }

  ghost predicate AttemptsUse(attempts: seq<Attempt>, s: Sender) {
    forall a :: a in attempts && a.sender.Some? ==> a.sender == Some(s)
  }

  /** As far as these claims name sender and nonce, they are those of s. */
  ghost predicate ClaimsUse(claims: seq<Claim>, s: Sender) {
    forall c :: c in claims ==>
          (c.from.Some? ==> c.from == Some(s.from)) && (c.nonce.Some? ==> c.nonce == Some(s.nonce))
  }

  /** Attempts, open claim, saved retry and retired claims of the log all use s. */
  ghost predicate LogUses(log: StartLog, s: Sender) {
    && AttemptsUse(log.attempts, s)
    && (log.sub.Some? ==> log.sender.Some?) && (log.sender.Some? ==> log.sender == Some(s))
    && (log.retry.Some? ==> log.retry.value.sender == s)
    && ClaimsUse(log.superseded, s) && ClaimsUse(log.ambiguous, s) && ClaimsUse(log.dismissed, s)
  }

  ghost predicate PlanUses(p: Option<Plan>, s: Sender) {
    p.Some? ==>
      AttemptsUse(p.value.wal.attempts, s) && (p.value.wal.sender.Some? ==> p.value.wal.sender == Some(s))
  }

  ghost predicate RecordUses(rec: Record, s: Sender) {
    LogUses(rec.start, s) && PlanUses(rec.plan, s)
  }

  ghost predicate AllUse(d: Desk, s: Sender) {
    && RecordUses(d.rec, s)
    && forall sub :: sub in d.prompts ==> d.prompts[sub] == s
  }

  /** Some saved attempt names the identity. */
  ghost predicate Saved(rec: Record, s: Sender) {
    exists a :: a in rec.start.attempts && a.sender == Some(s)
  }

  lemma IssuedUsesIt(d: Desk, t: Sender, s: Sender)
    requires AllUse(d, s) && IssuedFor(d.rec, t)
    ensures t == s
  {
    if !HasIdentity(d.rec) { var a :| Dropped(d.rec, d.rec.plan.value, a) && a.sender == Some(t); }
  }

  lemma ReplaceKeeps(d: Desk, slot: Runtime, sub: SubId, t: Sender, s: Sender, next: Record)
    requires AllUse(d, s) && RecNext(d.rec, slot, ReplaceStart(sub, t)) == Some(next)
    ensures t == s && RecordUses(next, s)
  {
    WriteIs(d.rec, DoReplaceStart(d.rec, sub, t), next);
    OnlyDroppedIff(d.rec, d.rec.plan.value, t);
    IssuedUsesIt(d, t, s);
  }

  /** The claim that a reported hash is matched with, if it is not the open one, uses s. */
  lemma PriorUses(rec: Record, sub: SubId, op: OpId, s: Sender, c: Claim)
    requires LogUses(rec.start, s) && FindClaim(PriorClaims(rec), sub, op) == Some(c)
    ensures ClaimsUse([c], s)
  {
    if c in ClaimsOf(rec.start.attempts) {
      var i :| 0 <= i < |rec.start.attempts| && ClaimsOf(rec.start.attempts)[i] == c;
      assert rec.start.attempts[i] in rec.start.attempts;
    }
  }

  lemma LiveReportKeeps(rec: Record, hash: Hash, sub: SubId, op: OpId, active: bool, s: Sender)
    requires RecordUses(rec, s)
    ensures var attempts := WithoutAttempt(rec.start.attempts, hash) + [Attempt(hash, sub, op, Some(s))];
            var next := StartSaved(rec, WithStartHash(rec, Distinct(rec.start.hashes + [hash]), attempts, op, active));
            RecordUses(next, s) && Saved(next, s)
  {
    var attempts := WithoutAttempt(rec.start.attempts, hash) + [Attempt(hash, sub, op, Some(s))];
    assert attempts[|attempts| - 1] in attempts;
    assert AttemptsUse(attempts, s);
  }

  /** The sender that a live report is saved with. */
  lemma ReportedSender(rec: Record, hash: Hash, sub: SubId, op: OpId, meta: Option<Sender>, s: Sender, w: StartWrite)
    requires LogUses(rec.start, s) && (meta.None? || meta.value == s)
    requires DoRememberLive(rec, hash, sub, op, meta) == Some(w)
    ensures var attempts := WithoutAttempt(rec.start.attempts, hash) + [Attempt(hash, sub, op, Some(s))];
            w == WithStartHash(rec, Distinct(rec.start.hashes + [hash]), attempts, op,
                               rec.start.sub == Some(sub) && rec.start.op == Some(op))
  {
    var prior := FindClaim(PriorClaims(rec), sub, op);
    if prior.Some? {
      PriorUses(rec, sub, op, s, prior.value);
      assert prior.value in [prior.value];
    }
  }

  lemma ReportKeeps(rec: Record, id: Identity, hash: Hash, sub: SubId, op: OpId, meta: Option<Sender>, s: Sender,
                    next: Record)
    requires RecordUses(rec, s) && (meta.None? || meta.value == s)
    requires DoRememberStart(rec, id, hash, sub, op, meta) == Some(next)
    ensures RecordUses(next, s)
    ensures Saved(rec, s) ==> Saved(next, s)
  {
    if FindArchived(rec.history, sub, op).None? {
      WriteIs(rec, DoRememberLive(rec, hash, sub, op, meta), next);
      ReportedSender(rec, hash, sub, op, meta, s, DoRememberLive(rec, hash, sub, op, meta).value);
      LiveReportKeeps(rec, hash, sub, op, rec.start.sub == Some(sub) && rec.start.op == Some(op), s);
    }
  }

  lemma ReleaseKeeps(rec: Record, ref: Ref, unknown: bool, s: Sender)
    requires RecordUses(rec, s) && RecordPromptMatches(rec, ref, unknown)
    ensures RecordUses(ReleasedRecord(rec, ref, unknown), s)
  {
  }

  lemma PatchKeeps(rec: Record, p: Patch, expected: Option<nat>, s: Sender, next: Record)
    requires RecordUses(rec, s) && DoUpdate(rec, p, expected) == Some(next)
    ensures RecordUses(next, s)
  {
  }

  /** The other calls add no identity. */
  lemma OtherCallKeeps(rec: Record, slot: Runtime, o: RecOp, s: Sender, next: Record)
    requires RecordUses(rec, s) && !o.RememberStart? && !o.ReplaceStart? && !o.ClaimStart? && !o.Update?
    requires RecNext(rec, slot, o) == Some(next)
    ensures RecordUses(next, s)
  {
    match o
    case JournalStart(id, sub, op, sender) => WriteIs(rec, DoJournalStart(rec, id, sub, op, sender), next);
    case StartAmbiguous(id, sub, op) => WriteIs(rec, DoStartAmbiguous(rec, id, sub, op), next);
    case ReleaseStart(id, sub, op, requireNoNonce) =>
      WriteIs(rec, DoReleaseStart(rec, slot, id, sub, op, requireNoNonce), next);
    case _ =>
  }

  lemma RoundKeepsOneNonce(d: Desk, r: Round, s: Sender)
    requires AllUse(d, s) && Follows(d, r) && !StartsOver(d, r)
    ensures AllUse(DeskNext(d, r), s)
  {
    if r.Called? && RecNext(d.rec, r.slot, r.o).Some? {
      var next := RecNext(d.rec, r.slot, r.o).value;
      match r.o
      case RememberStart(id, hash, sub, op, meta) => ReportKeeps(d.rec, id, hash, sub, op, meta, s, next);
      case ReplaceStart(sub, t) => ReplaceKeeps(d, r.slot, sub, t, s, next);
      case Update(patch, expected) => PatchKeeps(d.rec, patch, expected, s, next);
      case ClaimStart(_, _, _) =>
      case _ => OtherCallKeeps(d.rec, r.slot, r.o, s, next);
    } else if r.Unlocked? && RecordPromptMatches(d.rec, r.ref, r.unknown) {
      ReleaseKeeps(d.rec, r.ref, r.unknown, s);
    }
  }

  /** Over any run of the calls on a record and the unlocked releases of its prompts, every
      attempt, open claim and saved retry keeps the one identity, and a replacement is issued
      for no other. */
  lemma {:induction false} RecordKeepsOneNonce(d: Desk, rounds: seq<Round>, s: Sender)
    requires AllUse(d, s) && FollowsAll(d, rounds) && NeverStartsOver(d, rounds)
    ensures AllUse(DeskRun(d, rounds), s)
    ensures forall slot, sub, t :: RecNext(DeskRun(d, rounds).rec, slot, ReplaceStart(sub, t)).Some? ==> t == s
  {
    if rounds != [] {
      RecordKeepsOneNonce(d, rounds[..|rounds| - 1], s);
      RoundKeepsOneNonce(DeskRun(d, rounds[..|rounds| - 1]), rounds[|rounds| - 1], s);
    }
    var now := DeskRun(d, rounds);
    forall slot, sub, t | RecNext(now.rec, slot, ReplaceStart(sub, t)).Some? ensures t == s {
      ReplaceKeeps(now, slot, sub, t, s, RecNext(now.rec, slot, ReplaceStart(sub, t)).value);
    }
  }

  /** The round neither closes the record nor files its resolved attempts away. */
  predicate KeepsAttempts(r: Round) {
    r.Called? ==> !r.o.ResolveForRetry? && !(r.o.Update? && r.o.patch.Close?)
  }

  lemma RoundKeepsSaved(d: Desk, r: Round, s: Sender)
    requires AllUse(d, s) && Follows(d, r) && Saved(d.rec, s) && KeepsAttempts(r)
    ensures !StartsOver(d, r) && Saved(DeskNext(d, r).rec, s)
  {
    if r.Called? && RecNext(d.rec, r.slot, r.o).Some? {
      var next := RecNext(d.rec, r.slot, r.o).value;
      if r.o.RememberStart? {
        ReportKeeps(d.rec, r.o.identity, r.o.hash, r.o.sub, r.o.op, r.o.meta, s, next);
      } else if !r.o.ClaimStart? {
        CallKeepsAttempts(d.rec, r.slot, r.o, next);
      }
    }
  }

  lemma CallKeepsAttempts(rec: Record, slot: Runtime, o: RecOp, next: Record)
    requires RecNext(rec, slot, o) == Some(next) && KeepsAttempts(Called(slot, o))
    requires !o.RememberStart? && !o.ClaimStart?
    ensures next.start.attempts == rec.start.attempts
  {
    match o
    case JournalStart(id, sub, op, sender) => WriteIs(rec, DoJournalStart(rec, id, sub, op, sender), next);
    case StartAmbiguous(id, sub, op) => WriteIs(rec, DoStartAmbiguous(rec, id, sub, op), next);
    case ReleaseStart(id, sub, op, requireNoNonce) =>
      WriteIs(rec, DoReleaseStart(rec, slot, id, sub, op, requireNoNonce), next);
    case ReplaceStart(sub, t) => WriteIs(rec, DoReplaceStart(rec, sub, t), next);
    case _ =>
  }

  /** Until the record is closed or its attempts are filed away, the identity stays saved, no
      first prompt can start over, and every replacement uses that nonce. */
  lemma {:induction false} RecordIdentityStays(d: Desk, rounds: seq<Round>, s: Sender)
    requires AllUse(d, s) && Saved(d.rec, s) && FollowsAll(d, rounds)
    requires forall r :: r in rounds ==> KeepsAttempts(r)
    ensures NeverStartsOver(d, rounds) && Saved(DeskRun(d, rounds).rec, s) && AllUse(DeskRun(d, rounds), s)
  {
    if rounds != [] {
      var front, r := rounds[..|rounds| - 1], rounds[|rounds| - 1];
      assert r in rounds;
      RecordIdentityStays(d, front, s);
      RoundKeepsSaved(DeskRun(d, front), r, s);
      RoundKeepsOneNonce(DeskRun(d, front), r, s);
    }
  }

  // --- The saved retry -----------------------------------------------------------------------------

  /** An older prompt of this operation with the same nonce may still broadcast. */
  ghost predicate OlderPrompt(log: StartLog, op: OpId, s: Sender) {
    || (exists c :: c in log.superseded && c.op == op && c.from == Some(s.from) && c.nonce == Some(s.nonce))
    || (exists c :: c in log.ambiguous && c.op == op && c.nonce == Some(s.nonce))
  }

  /** A released prompt whose nonce may still be used, because its own result is unknown or an older
      prompt shares it, leaves that nonce as the saved retry of the plan, so that the next
      replacement takes it over; no other release saves one for the plan. */
  lemma ReleaseSavesRetry(rec: Record, ref: Ref, unknown: bool, next: Record)
    requires RecordPromptMatches(rec, ref, unknown) && next == ReleasedRecord(rec, ref, unknown)
    requires rec.plan.Some? && rec.plan.value.op == Some(ref.op)
    ensures var s := rec.start.sender;
            if s.Some? && (unknown || OlderPrompt(rec.start, ref.op, s.value)) then
              next.start.retry == Some(Retry(ref.op, s.value))
              && forall t :: IssuedFor(next, t) ==> t == s.value
            else next.start.retry.None?
    ensures next.start.sub.None? && next.start.hashes == rec.start.hashes && next.start.attempts == rec.start.attempts
    ensures next.start.superseded == rec.start.superseded
  {
  }

  /** The release is for exactly the claim, plan and, with an unknown result, nonce of the prompt. */
  lemma ReleaseIsExact(rec: Record, ref: Ref, unknown: bool)
    requires RecordPromptMatches(rec, ref, unknown)
    ensures rec.start.sub == Some(ref.sub)
    ensures rec.start.op == Some(ref.op) || (rec.start.op.None? && rec.plan.Some? && rec.plan.value.op == Some(ref.op))
    ensures if rec.plan.Some? && rec.plan.value.wal.sub == Some(ref.sub) then
              rec.plan.value.note == ref.note && rec.plan.value.mode == ref.mode
              && rec.plan.value.destination == ref.destination
            else rec.note == ref.note && rec.mode == ref.mode && rec.destination == ref.destination
    ensures unknown ==> ref.replacement.Some?
  {
  }
}
