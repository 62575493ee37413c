/** Finalization over whole runs of the wallet: no move of a note, late transfers included,
    touches the finalization log of its record, so the log is exactly what the finalization
    calls made of it, and one prompt at a time is open. */
module FinalizationRuns {
  import opened WalletTypes
  import opened FinalizationLog
  import opened WithdrawalRecord
  import opened RecordLaws
  import opened NoteMoves
  import opened WalletWorld
  import opened WalletLaws
  import opened WalletRuns

  /** No hash, no attempt and no claim yet. */
  ghost predicate Unused(f: FinLog) {
    f.hashes == [] && f.attempts == [] && f.sub.None? && f.sender.None? && f.generation == 0
  }

  /** A record that stays keeps its whole log, a new record starts with none, and one that goes
      has no hash and no claim left. */
  ghost predicate FinKept(before: Option<Record>, after: Option<Record>) {
    if before.None? then after.Some? ==> Unused(after.value.fin)
    else if after.Some? then after.value.fin == before.value.fin
    else before.value.fin.hashes == [] && before.value.fin.sub.None?
  }

  lemma TransferKeepsFin(s: Store, m: Move, t: Store, n: NoteId)
    requires m.TransferNote? && MoveNext(s, m) == Some(t)
    ensures FinKept(Known(s, n), Known(t, n)) && (n in s.records ==> n in t.records)
  {
    var k, e, rec, late := TransferParts(s, m, t);
  }

  /** No move of a note touches a finalization log; only restoring a note removes its record. */
  lemma MoveKeepsFin(s: Store, m: Move, t: Store, n: NoteId)
    requires MoveNext(s, m) == Some(t)
    requires Selects(s.runtime, m.note) ==> m.note !in s.records
    ensures FinKept(Known(s, n), Known(t, n))
    ensures n in s.records && n !in t.records ==> m.RestoreNote? && m.note == n
  {
    if m.TransferNote? { TransferKeepsFin(s, m, t, n); }
  }

  lemma ReleaseKeepsFin(s: Store, ref: Ref, unknown: bool, t: Store, n: NoteId)
    requires ReleaseSubmission(s, ref, unknown) == Some(t)
    ensures FinKept(Known(s, n), Known(t, n)) && (n in s.records <==> n in t.records)
  {
  }

  /** The step is a call that the record of note n accepts. */
  ghost predicate Accepted(w: World, st: Step, n: NoteId) {
    st.RecordCall? && st.note == n && n in w.store.records
    && RecNext(w.store.records[n], w.store.runtime, st.recOp).Some?
  }

  ghost predicate Restores(st: Step, n: NoteId) {
    st.MoveNote? && st.move.RestoreNote? && st.move.note == n
  }

  lemma QuietStepKeepsFin(w: World, st: Step, n: NoteId)
    requires !st.MoveNote? && !st.ReleasePrompt? && !Accepted(w, st, n)
    ensures Known(Next(w, st).store, n) == Known(w.store, n)
  {
  }

  /** Whatever the step is, unless the record itself accepts a call its log stays as it is. */
  lemma StepKeepsFin(w: World, st: Step, n: NoteId)
    requires Inv(w) && Possible(w, st) && !Accepted(w, st, n)
    ensures FinKept(Known(w.store, n), Known(Next(w, st).store, n))
    ensures n in w.store.records && n !in Next(w, st).store.records ==> Restores(st, n)
  {
    match st
    case MoveNote(m) =>
      if w.held.Some? && MoveNext(w.store, m).Some? { MoveKeepsFin(w.store, m, MoveNext(w.store, m).value, n); }
    case ReleasePrompt(ref, unknown) =>
      if ReleaseSubmission(w.store, ref, unknown).Some? {
        ReleaseKeepsFin(w.store, ref, unknown, ReleaseSubmission(w.store, ref, unknown).value, n);
      }
    case _ => QuietStepKeepsFin(w, st, n);
  }

  // --- The log over runs --------------------------------------------------------------------------

  ghost function LogOf(w: World, n: NoteId): set<Hash> {
    if n in w.store.records then HashSet(w.store.records[n].fin.hashes) else {}
  }

  /** Every hash that a finalization callback reported for the note, minus those released by hash
      since, minus everything erased by a sanitizing close. Moves of the note do not count. */
  ghost function FinReported(w: World, steps: seq<Step>, n: NoteId): set<Hash> {
    if steps == [] then LogOf(w, n)
    else
      var front, st := steps[..|steps| - 1], steps[|steps| - 1];
      if Accepted(Run(w, front), st, n) then LogAfter(FinReported(w, front, n), st.recOp) else FinReported(w, front, n)
  }

  lemma StepChangesFin(w: World, st: Step, n: NoteId)
    requires Inv(w) && Possible(w, st)
    ensures LogOf(Next(w, st), n) == if Accepted(w, st, n) then LogAfter(LogOf(w, n), st.recOp) else LogOf(w, n)
  {
    if Accepted(w, st, n) {
      StepChangesLogAsReported(w.store.records[n], Call(w.store.runtime, st.recOp),
                               RecNext(w.store.records[n], w.store.runtime, st.recOp).value);
    } else {
      StepKeepsFin(w, st, n);
    }
  }

  /** In every run of the whole wallet the finalization hashes saved for a note are exactly those
      reported and not since released, whatever moves the note made in between. */
  lemma {:induction false} FinalizationLogOverRuns(w: World, steps: seq<Step>, n: NoteId)
    requires Inv(w) && PossibleRun(w, steps)
    ensures LogOf(Run(w, steps), n) == FinReported(w, steps, n)
  {
    if steps != [] {
      var front := steps[..|steps| - 1];
      FinalizationLogOverRuns(w, front, n);
      RunKeepsInv(w, front);
      StepChangesFin(Run(w, front), steps[|steps| - 1], n);
    }
  }

  /** A fresh finalization prompt, which may use a new nonce, is opened if and only if the record
      still waits for one, the chain does not show the note active, every hash ever reported has
      been released, and no prompt is open. */
  lemma FreshPromptIff(steps: seq<Step>, n: NoteId, sub: SubId, op: OpId)
    requires PossibleRun(INITIAL, steps) && n in Run(INITIAL, steps).store.records
    ensures var rec := Run(INITIAL, steps).store.records[n];
            FinNext(rec, ClaimFin(sub, op)).Some? <==>
              && (rec.phase.PendingPhase? || rec.phase.FinalizingPhase? || rec.phase.AwaitingPhase?)
              && !rec.chain.ChainActive? && FinReported(INITIAL, steps, n) == {} && rec.fin.sub.None?
  {
    ReachableIsSafe(steps);
    FinalizationLogOverRuns(INITIAL, steps, n);
    var f := Run(INITIAL, steps).store.records[n].fin;
    assert f.hashes != [] ==> f.hashes[0] in HashSet(f.hashes);
  }

  // --- Claims over runs ----------------------------------------------------------------------------

  lemma {:induction false} GenerationOnlyRises(w: World, steps: seq<Step>, n: NoteId)
    requires Inv(w) && PossibleRun(w, steps) && n in w.store.records && forall st :: st in steps ==> !Restores(st, n)
    ensures n in Run(w, steps).store.records
    ensures w.store.records[n].fin.generation <= Run(w, steps).store.records[n].fin.generation
  {
    if steps != [] {
      var front, st := steps[..|steps| - 1], steps[|steps| - 1];
      assert st in steps;
      GenerationOnlyRises(w, front, n);
      RunKeepsInv(w, front);
      StepRaises(Run(w, front), st, n);
    }
  }

  lemma StepRaises(w: World, st: Step, n: NoteId)
    requires Inv(w) && Possible(w, st) && n in w.store.records && !Restores(st, n)
    ensures n in Next(w, st).store.records
    ensures w.store.records[n].fin.generation <= Next(w, st).store.records[n].fin.generation
  {
    if Accepted(w, st, n) {
      StepCountsClaims(w.store.records[n], Call(w.store.runtime, st.recOp),
                       RecNext(w.store.records[n], w.store.runtime, st.recOp).value);
    } else {
      StepKeepsFin(w, st, n);
    }
  }

  /** Until the note is restored, whatever else the wallet does with it, the prompt of a
      finalization claim that a later one followed can never again release, mark, journal or
      resolve anything. */
  lemma SupersededInWallet(w: World, steps: seq<Step>, n: NoteId, ref: FinRef, sender: Sender, revision: nat)
    requires Inv(w) && PossibleRun(w, steps) && n in w.store.records && forall st :: st in steps ==> !Restores(st, n)
    requires ref.generation < w.store.records[n].fin.generation
    ensures n in Run(w, steps).store.records
    ensures var later := Run(w, steps).store.records[n];
            && FinNext(later, ReleaseFinClaim(ref)).None? && FinNext(later, FinAmbiguous(ref)).None?
            && FinNext(later, ReleaseFinReplacement(ref)).None? && FinNext(later, JournalFin(ref, sender)).None?
            && FinNext(later, ResolveChallenged(ref, revision)).None?
  {
    GenerationOnlyRises(w, steps, n);
    SupersededClaimIsPowerless(Run(w, steps).store.records[n], ref, sender, revision);
  }
}

/** Replacing a dropped finalization reuses its nonce. */
module FinalizationNonce {
  import opened WalletTypes
  import opened FinalizationLog

  /** A saved attempt of a hash that is still in the log names this identity. */
  ghost predicate Saves(f: FinLog, s: Sender) {
    exists a :: a in f.attempts && a.hash in f.hashes && a.sender == Some(s)
  }

  lemma SavesIff(f: FinLog, s: Sender)
    ensures s in FinIdentities(f) <==> Saves(f, s)
  {
    if a :| a in f.attempts && a.hash in f.hashes && a.sender == Some(s) {
      var i :| 0 <= i < |f.attempts| && f.attempts[i] == a;
    }
  }

  /** A finalization replacement is issued if and only if the dropped finalization has no open
      prompt and t is the one identity of its saved attempts. */
  lemma FinReplacementIssuedIff(rec: Record, sub: SubId, t: Sender, op: OpId)
    ensures FinNext(rec, ClaimFinReplacement(sub, t, op)).Some? <==>
            && rec.phase.FinalizingPhase? && !rec.chain.ChainActive? && !rec.chain.ChainClosed?
            && (rec.fin.outcome.ReceiptMissing? || rec.fin.outcome.ReplacementUnknown?) && rec.fin.sub.None?
            && Saves(rec.fin, t) && forall x :: Saves(rec.fin, x) ==> x == t
  {
    forall x ensures x in FinIdentities(rec.fin) <==> Saves(rec.fin, x) { SavesIff(rec.fin, x); }
  }

  /** A record, and for every prompt the identity that it journaled or was handed. */
  datatype Desk = Desk(rec: Record, prompts: map<SubId, Sender>)

  function DeskNext(d: Desk, o: FinOp): Desk {
    var write := FinNext(d.rec, o);
    if write.None? then d
    else Desk(FinSaved(d.rec, write.value), if o.ClaimFinReplacement? then d.prompts[o.sub := o.sender] else d.prompts)
  }

  function DeskRun(d: Desk, ops: seq<FinOp>): Desk {
    if ops == [] then d else DeskNext(DeskRun(d, ops[..|ops| - 1]), ops[|ops| - 1])
  }

  /** A prompt journals what it was handed, journals before it sends, and reports the identity
      that it journaled; claim ids are new. */
  predicate Follows(d: Desk, o: FinOp) {
    match o
    case JournalFin(ref, sender) => ref.sub in d.prompts ==> sender == d.prompts[ref.sub]
    case RememberFin(_, ref, meta) => ref.sub in d.prompts && (meta.None? || meta.value == d.prompts[ref.sub])
    case ClaimFinReplacement(sub, _, _) => sub !in d.prompts
    case _ => true
  }

  predicate FollowsAll(d: Desk, ops: seq<FinOp>) {
    ops == [] || (FollowsAll(d, ops[..|ops| - 1]) && Follows(DeskRun(d, ops[..|ops| - 1]), ops[|ops| - 1]))
  }

  /** No fresh prompt is opened, which is possible only when no hash is left. */
  predicate NoFreshPrompt(d: Desk, ops: seq<FinOp>) {
    ops == []
    || (NoFreshPrompt(d, ops[..|ops| - 1])
        && !(ops[|ops| - 1].ClaimFin? && FinNext(DeskRun(d, ops[..|ops| - 1]).rec, ops[|ops| - 1]).Some?))
  }

  /** Every saved attempt that names an identity, the open claim and every prompt use s. */
  ghost predicate AllUse(d: Desk, s: Sender) {
    && (forall a :: a in d.rec.fin.attempts && a.sender.Some? ==> a.sender == Some(s))
    && (d.rec.fin.sender.Some? ==> d.rec.fin.sender == Some(s))
    && (d.rec.fin.sub.Some? ==> d.rec.fin.sub.value in d.prompts)
    && forall sub :: sub in d.prompts ==> d.prompts[sub] == s
  }

  lemma {:induction false} OldAttempts(s: seq<FinAttempt>, h: Hash, a: FinAttempt)
    requires a in WithoutFinAttempt(s, h)
    ensures a in s
  {
    if a in WithoutFinAttempt(s[..|s| - 1], h) { OldAttempts(s[..|s| - 1], h, a); }
  }

  lemma OpKeepsOneNonce(d: Desk, o: FinOp, s: Sender)
    requires AllUse(d, s) && Follows(d, o) && !(o.ClaimFin? && FinNext(d.rec, o).Some?)
    ensures AllUse(DeskNext(d, o), s)
  {
    if o.RememberFin? || o.ReleaseFinHash? {
      forall a | a in WithoutFinAttempt(d.rec.fin.attempts, o.hash) ensures a in d.rec.fin.attempts {
        OldAttempts(d.rec.fin.attempts, o.hash, a);
      }
    }
    if o.ClaimFinReplacement? { IssuedUsesIt(d, o.sub, o.sender, o.freshOp, s); }
  }

  lemma IssuedUsesIt(d: Desk, sub: SubId, t: Sender, op: OpId, s: Sender)
    requires AllUse(d, s)
    ensures FinNext(d.rec, ClaimFinReplacement(sub, t, op)).Some? ==> t == s
  {
    FinReplacementIssuedIff(d.rec, sub, t, op);
  }

  /** Over any run of finalization calls in which no fresh prompt is opened, all attempts, the
      open claim and every replacement keep the one nonce. */
  lemma {:induction false} FinalizationKeepsOneNonce(d: Desk, ops: seq<FinOp>, s: Sender)
    requires AllUse(d, s) && FollowsAll(d, ops) && NoFreshPrompt(d, ops)
    ensures AllUse(DeskRun(d, ops), s)
    ensures forall sub, t, op :: FinNext(DeskRun(d, ops).rec, ClaimFinReplacement(sub, t, op)).Some? ==> t == s
  {
    if ops != [] {
      FinalizationKeepsOneNonce(d, ops[..|ops| - 1], s);
      OpKeepsOneNonce(DeskRun(d, ops[..|ops| - 1]), ops[|ops| - 1], s);
    }
    forall sub, t, op | FinNext(DeskRun(d, ops).rec, ClaimFinReplacement(sub, t, op)).Some? ensures t == s {
      IssuedUsesIt(DeskRun(d, ops), sub, t, op, s);
    }
  }
}
