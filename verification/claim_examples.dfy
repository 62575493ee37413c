/** Concrete runs: one that cancels a claim, one in which a cancelled claim is written back,
    one that reaches the corner in which a late transfer retires a claim of another note, and
    one after which a balance is offered while its start is still open. */
module ClaimExamples {
  import opened WalletTypes
  import opened AttemptLog
  import opened PlanLog
  import opened SelectedSlot
  import opened FinalizationLog
  import opened WithdrawalRecord
  import opened NoteMoves
  import opened WalletWorld
  import opened WalletRuns
  import opened ClaimLaws
  import opened RetirementLaws

  // --- Runs of commits -----------------------------------------------------------------------------

  lemma RunSnoc(w: World, steps: seq<Step>, st: Step)
    ensures Run(w, steps + [st]) == Next(Run(w, steps), st)
    ensures PossibleRun(w, steps) && Possible(Run(w, steps), st) ==> PossibleRun(w, steps + [st])
  {
    assert (steps + [st])[..|steps|] == steps;
  }

  /** The world is reached from a new wallet. */
  ghost predicate Reached(w: World) {
    exists steps :: PossibleRun(INITIAL, steps) && Run(INITIAL, steps) == w
  }

  lemma StepReaches(w: World, st: Step)
    requires Reached(w) && Possible(w, st)
    ensures Reached(Next(w, st))
  {
    var steps :| PossibleRun(INITIAL, steps) && Run(INITIAL, steps) == w;
    RunSnoc(INITIAL, steps, st);
  }

  /** One commit: the copy it is computed from, the operation, and what it writes. */
  datatype Write = Write(before: Runtime, o: SlotOp, after: Runtime)

  function After(w: World, x: Write): World {
    Committed(w, x.o, x.before, x.after)
  }

  ghost predicate Writes(w: World, x: Write) {
    Commits(w, x.o, x.before, x.after) && Possible(w, Commit(x.o))
  }

  /** A property of worlds that possible commits keep. */
  ghost predicate Closed(p: World -> bool) {
    forall w, x :: p(w) && Writes(w, x) ==> p(After(w, x))
  }

  lemma OneMore(p: World -> bool, w: World, x: Write) returns (v: World)
    requires Closed(p) && p(w) && Writes(w, x)
    ensures p(v) && v == After(w, x)
  {
    v := After(w, x);
  }

  /** The same for the moves of a note, and for the calls on a record that claim nothing. */
  ghost predicate MoveClosed(p: World -> bool) {
    forall w, m, t :: p(w) && Moves(w, m, t) ==> p(Moved(w, t, m))
  }

  ghost predicate Moves(w: World, m: Move, t: Store) {
    w.held.Some? && MoveNext(w.store, m) == Some(t)
  }

  ghost predicate CallClosed(p: World -> bool) {
    forall w, n, o, rec, next :: p(w) && QuietCall(w, n, o, rec, next) ==> p(Recorded(w, n, o, rec, next))
  }

  ghost predicate QuietCall(w: World, n: NoteId, o: RecOp, rec: Record, next: Record) {
    Calls(w, n, o, rec, next) && (o.FinStep? || o.Update?)
  }

  lemma CommitReaches(w: World, x: Write)
    requires Reached(w) && Writes(w, x)
    ensures Reached(After(w, x))
  {
    StepReaches(w, Commit(x.o));
  }

  lemma MoveReaches(w: World, m: Move, t: Store)
    requires Reached(w) && Moves(w, m, t)
    ensures Reached(Moved(w, t, m))
  {
    StepReaches(w, MoveNote(m));
  }

  lemma CallReaches(w: World, n: NoteId, o: RecOp, rec: Record, next: Record)
    requires Reached(w) && QuietCall(w, n, o, rec, next)
    ensures Reached(Recorded(w, n, o, rec, next))
  {
    StepReaches(w, RecordCall(n, o));
  }

  lemma ReachedIsClosed()
    ensures Closed(w => Reached(w)) && MoveClosed(w => Reached(w)) && CallClosed(w => Reached(w))
  {
    forall w, x | Reached(w) && Writes(w, x) ensures Reached(After(w, x)) { CommitReaches(w, x); }
    forall w, m, t | Reached(w) && Moves(w, m, t) ensures Reached(Moved(w, t, m)) { MoveReaches(w, m, t); }
    forall w, n, o, rec, next | Reached(w) && QuietCall(w, n, o, rec, next)
      ensures Reached(Recorded(w, n, o, rec, next))
    {
      CallReaches(w, n, o, rec, next);
    }
  }

  // --- A run that cancels a claim ------------------------------------------------------------------

  const FIRST: SubId := 10

  const ISSUED: map<SubId, NoteId> := map[FIRST := 1]

  const FUNDED: Runtime := EMPTY_RUNTIME.(state := Some(Note(1, 100)))

  const PENDING: Runtime := EMPTY_RUNTIME.(deposit := Some(Deposit(1, 1, 100, 7, EMPTY_WAL)))

  const PLAN: Plan := Plan(Escape, 1, Some(5), Some(2), false, Some(9), true, NoOutcome, false, EMPTY_WAL)

  const PREPARED: Runtime := FUNDED.(plan := Some(PLAN))

  const ASKED_PLAN: Plan :=
    PLAN.(outcome := AwaitingWalletOutcome, wal := EMPTY_WAL.(phase := AwaitingWallet, sub := Some(10)))

  const ASKED: Runtime := FUNDED.(plan := Some(ASKED_PLAN))

  const PROMPT: Ref := Ref(10, 2, 1, Escape, Some(5), false, Some(9), None)

  ghost const LOCKED: World := INITIAL.(held := Some(EMPTY_RUNTIME))

  /** The section holds this slot, the store has it and these records, note 1 was issued and
      at most claim 10, and no driver has given up. */
  ghost predicate At(w: World, r: Runtime, records: map<NoteId, Record>) {
    && w.held == Some(r) && w.store == Store(r, records, []) && w.vault == {1} && w.claims.ended == {}
    && w.claims.issued.Keys <= {FIRST} && w.claims.background == {}
  }

  lemma Funds(p: World -> bool) returns (v: World)
    requires Closed(p) && p(LOCKED)
    ensures p(v) && At(v, FUNDED, map[]) && v.claims == INITIAL.claims
  {
    v := OneMore(p, LOCKED, Write(EMPTY_RUNTIME, NewDeposit(1, 100, 7, 1), PENDING));
    v := OneMore(p, v, Write(PENDING, ConfirmDeposit(Some(1), 7, 1, 100), FUNDED));
  }

  lemma Prepares(p: World -> bool) returns (v: World)
    requires Closed(p) && p(LOCKED)
    ensures p(v) && At(v, PREPARED, map[]) && v.claims == INITIAL.claims
  {
    v := Funds(p);
    assert !HasUnresolved(FUNDED.late, 1);
    v := OneMore(p, v, Write(FUNDED, CommitPlan(Escape, 5, 9, 2), PREPARED));
  }

  /** Note 1 is funded, an escape is prepared for it, and claim 10 is opened. */
  lemma Asks(p: World -> bool) returns (v: World)
    requires Closed(p) && p(LOCKED)
    ensures p(v) && At(v, ASKED, map[]) && v.claims == INITIAL.claims.(issued := ISSUED) && PROMPT in v.refs
  {
    v := Prepares(p);
    v := OneMore(p, v, Write(PREPARED, PlanStep(ClaimPlan(10, 2)), ASKED));
  }

  lemma LockedIsReached()
    ensures Closed(w => Reached(w)) && MoveClosed(w => Reached(w)) && CallClosed(w => Reached(w)) && Reached(LOCKED)
  {
    ReachedIsClosed();
    assert PossibleRun(INITIAL, []) && Run(INITIAL, []) == INITIAL;
    StepReaches(INITIAL, Lock);
  }

  const RELEASED: Runtime := FUNDED.(plan := Some(PLAN.(outcome := ExplicitlyRejected)))

  lemma Rejects(p: World -> bool) returns (v: World)
    requires Closed(p) && p(LOCKED)
    ensures p(v) && FIRST in v.claims.cancelled
  {
    v := Asks(p);
    v := OneMore(p, v, Write(ASKED, PlanStep(ReleaseClaim(2, 10)), RELEASED));
  }

  /** The theorem has instances: claim 10 is opened and released again before its nonce is
      journaled. */
  lemma CancellationHappens() returns (steps: seq<Step>)
    ensures PossibleRun(INITIAL, steps) && FIRST in Run(INITIAL, steps).claims.cancelled
  {
    LockedIsReached();
    var v := Rejects(w => Reached(w));
    steps :| PossibleRun(INITIAL, steps) && Run(INITIAL, steps) == v;
  }

  // --- A cancelled claim is written back ----------------------------------------------------------

  const WRITTEN_BACK: Runtime :=
    FUNDED.(plan := Some(ASKED_PLAN.(outcome := AmbiguousOutcome,
                                     wal := EMPTY_WAL.(phase := Ambiguous, sub := Some(10)))))

  /** The prompt of claim 10 releases it while a section holds the lock with an older copy. */
  lemma PromptReleases(u: World, v: World)
    requires At(u, ASKED, map[]) && u.claims == INITIAL.claims.(issued := ISSUED)
    requires v == Released(u, PROMPT, false)
    ensures v.held == Some(ASKED) && !Holds(v.store.runtime, FIRST) && FIRST in v.claims.cancelled
  {
  }

  /** The section commits its copy and so writes the cancelled claim back. */
  lemma WritesBack(p: World -> bool, w: World) returns (v: World)
    requires Closed(p) && p(w) && w.held == Some(ASKED) && FIRST in w.claims.cancelled
    ensures p(v) && Holds(v.store.runtime, FIRST) && FIRST in v.claims.cancelled
  {
    v := OneMore(p, w, Write(ASKED, PlanStep(MarkUnknown), WRITTEN_BACK));
  }

  lemma CancelledIsNotSendable(steps: seq<Step>, sub: SubId)
    requires PossibleRun(INITIAL, steps) && sub in Run(INITIAL, steps).claims.cancelled
    ensures !Sendable(Run(INITIAL, steps), sub)
  {
    ReachableIsSafe(steps);
    RunKeepsClaims(INITIAL, steps);
    NotSendable(Run(INITIAL, steps), sub);
  }

  /** The claim is open again in the slot, yet no continuation sends it. */
  lemma CancelledClaimIsWrittenBack() returns (steps: seq<Step>)
    ensures PossibleRun(INITIAL, steps) && Holds(Run(INITIAL, steps).store.runtime, FIRST)
    ensures FIRST in Run(INITIAL, steps).claims.cancelled && !Sendable(Run(INITIAL, steps), FIRST)
  {
    LockedIsReached();
    var u := Asks(w => Reached(w));
    StepReaches(u, ReleasePrompt(PROMPT, false));
    PromptReleases(u, Released(u, PROMPT, false));
    var v := WritesBack(w => Reached(w), Released(u, PROMPT, false));
    steps :| PossibleRun(INITIAL, steps) && Run(INITIAL, steps) == v;
    CancelledIsNotSendable(steps, FIRST);
  }

  // --- A stray claim ------------------------------------------------------------------------------

  /** Note 1 waits in the background without a plan while note 2 is selected and has asked
      a wallet under claim 20; a late hash of note 1 has just been seen. */
  const STRAY: Store := Store(
    Runtime(Some(Note(2, 50)), None, None,
            Some(Plan(Escape, 2, Some(6), Some(3), false, Some(8), true, AwaitingWalletOutcome, false,
                      Wal(AwaitingWallet, Some(20), None, [], []))),
            false, [Late(2, 10, 1, Escape, Some(5), false, Some(9), 77, None, SubmittedLate)]),
    map[1 := Record(1, Escape, Some(5), PendingPhase, ChainPending, Some(Note(1, 100)), None, false, None, false, true,
                    EMPTY_START, EMPTY_FIN, [], 1)],
    [])

  const LATE_ATTEMPT: Late := Late(2, 10, 1, Escape, Some(5), false, Some(9), 77, None, SubmittedLate)

  const LATE: seq<Late> := [LATE_ATTEMPT]

  const SIGNED: Runtime := FUNDED.(plan := Some(ASKED_PLAN.(
    wal := EMPTY_WAL.(phase := AwaitingWallet, sub := Some(10), sender := Some(Sender(3, 0))))))

  lemma Signs(p: World -> bool) returns (v: World)
    requires Closed(p) && p(LOCKED)
    ensures p(v) && At(v, SIGNED, map[]) && PROMPT in v.refs
  {
    v := Asks(p);
    v := OneMore(p, v, Write(ASKED, PlanStep(Journal(PROMPT, Sender(3, 0))), SIGNED));
  }

  lemma SignsAndRejects(p: World -> bool) returns (v: World)
    requires Closed(p) && p(LOCKED)
    ensures p(v) && At(v, RELEASED, map[]) && PROMPT in v.refs
  {
    v := Signs(p);
    v := OneMore(p, v, Write(SIGNED, PlanStep(ReleaseClaim(2, 10)), RELEASED));
  }

  lemma Drops(p: World -> bool) returns (v: World)
    requires Closed(p) && p(LOCKED)
    ensures p(v) && At(v, FUNDED, map[]) && PROMPT in v.refs
  {
    v := SignsAndRejects(p);
    v := OneMore(p, v, Write(RELEASED, ClearPlan(None, None), FUNDED));
  }

  lemma RetainOne(e: Late)
    requires !IsTerminal(e.status)
    ensures Retain([e]) == [e]
  {
    assert [e][..0] == [];
    assert Terminal([e]) == [] && Unresolved([e]) == [e];
  }

  /** The plan is dropped, and then the wallet reports hash 77 after all. */
  lemma Reports(p: World -> bool) returns (v: World)
    requires Closed(p) && p(LOCKED)
    ensures p(v) && At(v, FUNDED.(late := LATE), map[])
  {
    v := Drops(p);
    RetainOne(LATE_ATTEMPT);
    assert WithoutLate([], 2, 77) + [LATE_ATTEMPT] == LATE;
    v := OneMore(p, v, Write(FUNDED, RememberTx(77, PROMPT, None), FUNDED.(late := LATE)));
  }

  const EMPTIED: Runtime := EMPTY_RUNTIME.(late := LATE)

  const ESCAPE: Move := EscapeStarted(1, Some(5), false, ChainPending, None, true)

  lemma Detaches(p: World -> bool) returns (v: World)
    requires Closed(p) && MoveClosed(p) && p(LOCKED)
    ensures p(v) && At(v, EMPTIED, STRAY.records)
  {
    var u := Reports(p);
    v := DetachedAt(p, u);
  }

  lemma DetachedAt(p: World -> bool, w: World) returns (v: World)
    requires MoveClosed(p) && p(w) && At(w, FUNDED.(late := LATE), map[])
    ensures p(v) && At(v, EMPTIED, STRAY.records)
  {
    var t := MoveNext(w.store, ESCAPE).value;
    assert Moves(w, ESCAPE, t);
    v := Moved(w, t, ESCAPE);
  }

  const AGAIN_PENDING: Runtime := EMPTIED.(deposit := Some(Deposit(11, 2, 50, 8, EMPTY_WAL)))

  const AGAIN_FUNDED: Runtime := STRAY.runtime.(plan := None)

  const SECOND: Plan := Plan(Escape, 2, Some(6), Some(3), false, Some(8), true, NoOutcome, false, EMPTY_WAL)

  const AGAIN_PREPARED: Runtime := STRAY.runtime.(plan := Some(SECOND))

  /** Note 2 is selected with this slot, and claim 20 is new. */
  ghost predicate AtSecond(w: World, r: Runtime) {
    w.held == Some(r) && w.store == STRAY.(runtime := r) && STRAY_CLAIM !in w.claims.issued && w.claims.ended == {}
  }

  lemma FundsAgain(p: World -> bool, w: World) returns (v: World)
    requires Closed(p) && p(w) && At(w, EMPTIED, STRAY.records)
    ensures p(v) && AtSecond(v, AGAIN_FUNDED)
  {
    v := OneMore(p, w, Write(EMPTIED, NewDeposit(11, 50, 8, 2), AGAIN_PENDING));
    v := OneMore(p, v, Write(AGAIN_PENDING, ConfirmDeposit(Some(11), 8, 2, 50), AGAIN_FUNDED));
  }

  lemma PreparesAgain(p: World -> bool, w: World) returns (v: World)
    requires Closed(p) && p(w) && At(w, EMPTIED, STRAY.records)
    ensures p(v) && AtSecond(v, AGAIN_PREPARED)
  {
    v := FundsAgain(p, w);
    assert !HasUnresolved(LATE, 2);
    v := OneMore(p, v, Write(AGAIN_FUNDED, CommitPlan(Escape, 6, 8, 3), AGAIN_PREPARED));
  }

  lemma AsksAgain(p: World -> bool, w: World) returns (v: World)
    requires Closed(p) && p(w) && At(w, EMPTIED, STRAY.records)
    ensures p(v) && v.store == STRAY && v.held == Some(STRAY.runtime) && v.claims.ended == {}
  {
    v := PreparesAgain(p, w);
    v := OneMore(p, v, Write(AGAIN_PREPARED, PlanStep(ClaimPlan(20, 3)), STRAY.runtime));
  }

  /** The store above is reached by a run. */
  lemma StrayIsReachable() returns (steps: seq<Step>)
    ensures PossibleRun(INITIAL, steps) && Run(INITIAL, steps).store == STRAY
    ensures Run(INITIAL, steps).held == Some(STRAY.runtime) && Run(INITIAL, steps).claims.ended == {}
  {
    LockedIsReached();
    var u := Detaches(w => Reached(w));
    var v := AsksAgain(w => Reached(w), u);
    steps :| PossibleRun(INITIAL, steps) && Run(INITIAL, steps) == v;
  }

  const TO: Destination := Destination(Escape, SubmittedUnconfirmed, ChainActive, Some(5), false, false)

  const STRAY_CLAIM: SubId := 20

  const LATE_TRANSFER: Move := TransferNote(2, 77, 1, TO)

  /** Transferring that hash dismisses claim 20 in the record of note 1 ... */
  lemma StrayClaimIsRetired()
    ensures RetiresClaim(STRAY, LATE_TRANSFER, LATE_ATTEMPT, STRAY_CLAIM)
    ensures Claim(20, 3, None, None) in TransferredStart(STRAY, 1, LATE_ATTEMPT, TO).dismissed
  {
    assert Transferable(STRAY, 2, 77, 1, TO) == Some(0);
    RetiredIsDismissed(STRAY, 1, LATE_ATTEMPT, TO, RetiredClaim(STRAY, 1, LATE_ATTEMPT, TO).value);
  }

  /** ... yet note 2 can go on to journal and send it: the fallback is not final. */
  lemma StrayClaimIsSendable() returns (steps: seq<Step>, w: World)
    ensures PossibleRun(INITIAL, steps) && w == Run(INITIAL, steps) && w.store == STRAY
    ensures Sendable(Next(w, MoveNote(LATE_TRANSFER)), STRAY_CLAIM)
  {
    steps := StrayIsReachable();
    w := Run(INITIAL, steps);
    StrayClaimIsRetired();
    FallbackIsFinalIff(steps, w, LATE_TRANSFER, LATE_ATTEMPT, STRAY_CLAIM);
  }

  // --- A balance offered too early ----------------------------------------------------------------------

  const STARTED: Move := EscapeStarted(1, Some(5), false, ChainPending, Some(77), true)

  const STARTED_NOTE: NoteId := 1

  const STARTED_RECORD: Record :=
    Record(1, Escape, Some(5), PendingPhase, ChainPending, Some(Note(1, 100)), None, false, None, false, true,
           EMPTY_START.(hashes := [77]), EMPTY_FIN, [], 1)

  const CLAIMED: Record :=
    STARTED_RECORD.(phase := AwaitingPhase, revision := 2,
                    fin := EMPTY_FIN.(op := Some(31), generation := 1, sub := Some(30)))

  const CHALLENGED: Record := CLAIMED.(phase := SubmittedUnconfirmed, chain := ChainActive, revision := 3)

  const OFFERED: Record :=
    CHALLENGED.(phase := RestoredPhase, revision := 4,
                fin := EMPTY_FIN.(op := Some(31), generation := 1, outcome := PromptClosed))

  const CLAIM_FIN: RecOp := FinStep(ClaimFin(30, 31))

  const STILL_OPEN: RecOp := Update(StartUnresolved(false, []), Some(2))

  const SHORTCUT: RecOp := FinStep(ResolveChallenged(FinRef(1, 30, 31, 1, Some(5)), 3))

  /** The slot is empty and note 1 has this record. */
  ghost predicate Aside(w: World, rec: Record) {
    w.store == Store(EMPTY_RUNTIME, map[STARTED_NOTE := rec], [])
  }

  lemma StartsAt(p: World -> bool, w: World) returns (v: World)
    requires MoveClosed(p) && p(w) && At(w, FUNDED, map[])
    ensures p(v) && Aside(v, STARTED_RECORD)
  {
    var t := MoveNext(w.store, STARTED).value;
    assert Moves(w, STARTED, t);
    v := Moved(w, t, STARTED);
  }

  lemma OneCall(p: World -> bool, w: World, o: RecOp, rec: Record, next: Record) returns (v: World)
    requires CallClosed(p) && p(w) && Aside(w, rec) && (o.FinStep? || o.Update?)
    requires RecNext(rec, EMPTY_RUNTIME, o) == Some(next)
    ensures p(v) && Aside(v, next)
  {
    assert QuietCall(w, STARTED_NOTE, o, rec, next);
    v := Recorded(w, STARTED_NOTE, o, rec, next);
    assert w.store.records[STARTED_NOTE := next] == map[STARTED_NOTE := next];
  }

  /** The finalization is claimed, a pass finds the note active and hash 77 still open, and the
      prompt is closed. */
  lemma ClosesPrompt(p: World -> bool, w: World) returns (v: World)
    requires CallClosed(p) && p(w) && Aside(w, STARTED_RECORD)
    ensures p(v) && Aside(v, OFFERED)
  {
    v := OneCall(p, w, CLAIM_FIN, STARTED_RECORD, CLAIMED);
    v := OneCall(p, v, STILL_OPEN, CLAIMED, CHALLENGED);
    v := OneCall(p, v, SHORTCUT, CHALLENGED, OFFERED);
  }

  /** The note can be selected, and knows a start transaction that no pass has resolved. */
  ghost predicate OffersUnchecked(w: World, n: NoteId) {
    && n in w.store.records && Restorable(w.store, w.store.records[n], w.store.records[n].revision)
    && w.store.records[n].start.hashes != [] && w.store.records[n].start.outcome.NoOutcome?
    && w.store.records[n].start.resolved == [] && w.store.records[n].start.resolutionBlock == 0
  }

  lemma OfferedIsUnchecked(w: World)
    requires Aside(w, OFFERED)
    ensures OffersUnchecked(w, STARTED_NOTE)
  {
  }

  /** The escape starts with hash 77; its start is still open, yet the balance is offered. */
  lemma ShortcutIsReachable() returns (steps: seq<Step>)
    ensures PossibleRun(INITIAL, steps) && OffersUnchecked(Run(INITIAL, steps), STARTED_NOTE)
  {
    LockedIsReached();
    var u := Funds(w => Reached(w));
    var v := StartsAt(w => Reached(w), u);
    v := ClosesPrompt(w => Reached(w), v);
    OfferedIsUnchecked(v);
    steps :| PossibleRun(INITIAL, steps) && Run(INITIAL, steps) == v;
  }
}
