/** Which claims that a late transfer retires can still be sent: the exact condition. */
module RetirementLaws {
  import opened WalletTypes
  import opened PlanLog
  import opened SelectedSlot
  import opened NoteMoves
  import opened WalletWorld
  import opened WalletLaws
  import opened WalletRuns
  import opened ClaimLaws

  predicate Holds(r: Runtime, sub: SubId) {
    r.plan.Some? && r.plan.value.wal.sub == Some(sub)
  }

  // --- A claim that nobody can journal or send any more ------------------------------------------

  /** An unsent claim that the slot opened, and that lost its driver or, without a nonce,
      left the slot and its locked copy. */
  ghost predicate Dead(w: World, sub: SubId) {
    && sub in w.claims.issued && sub !in w.claims.background && sub !in w.claims.sent
    && (sub in w.claims.ended
        || (sub !in w.claims.journaled && !Holds(w.store.runtime, sub)
            && (w.held.Some? ==> !Holds(w.held.value, sub))))
  }

  lemma CommitKeepsDead(w: World, o: SlotOp, h: Runtime, r: Runtime, sub: SubId)
    requires Dead(w, sub) && Possible(w, Commit(o)) && Commits(w, o, h, r)
    ensures Dead(Committed(w, o, h, r), sub)
  {
    if ClaimedSub(o).None? { SlotKeepsClaim(h, o, r); }
    SlotOpensClaim(h, o, r);
  }

  lemma MoveKeepsHeldClaims(s: Store, m: Move, sub: SubId, t: Store)
    requires MoveNext(s, m) == Some(t) && Holds(t.runtime, sub)
    ensures Holds(s.runtime, sub)
  {
  }

  lemma ReleaseKeepsHeldClaims(s: Store, ref: Ref, unknown: bool, sub: SubId, t: Store)
    requires ReleaseSubmission(s, ref, unknown) == Some(t) && Holds(t.runtime, sub)
    ensures Holds(s.runtime, sub)
  {
  }

  lemma StepKeepsDead(w: World, st: Step, sub: SubId)
    requires Dead(w, sub) && Possible(w, st)
    ensures Dead(Next(w, st), sub)
  {
    match st
    case Commit(o) =>
      if w.held.Some? && SlotNext(w.held.value, o).Some? {
        CommitKeepsDead(w, o, w.held.value, SlotNext(w.held.value, o).value, sub);
      }
    case MoveNote(m) =>
      if MoveNext(w.store, m).Some? && Holds(MoveNext(w.store, m).value.runtime, sub) {
        MoveKeepsHeldClaims(w.store, m, sub, MoveNext(w.store, m).value);
      }
    case ReleasePrompt(ref, unknown) =>
      var t := ReleaseSubmission(w.store, ref, unknown);
      if t.Some? && Holds(t.value.runtime, sub) { ReleaseKeepsHeldClaims(w.store, ref, unknown, sub, t.value); }
    case _ =>
  }

  lemma {:induction false} RunKeepsDead(w: World, more: seq<Step>, sub: SubId)
    requires Dead(w, sub) && PossibleRun(w, more)
    ensures Dead(Run(w, more), sub)
  {
    if more != [] {
      RunKeepsDead(w, more[..|more| - 1], sub);
      StepKeepsDead(Run(w, more[..|more| - 1]), more[|more| - 1], sub);
    }
  }

  // --- The exact condition ---------------------------------------------------------------------------

  /** Some continuation hands the claim's transaction to the wallet. */
  ghost predicate Sendable(w: World, sub: SubId) {
    exists more :: PossibleRun(w, more) && sub in Run(w, more).claims.sent
  }

  lemma NotSendable(w: World, sub: SubId)
    requires Inv(w) && ClaimInv(w) && (sub in w.claims.cancelled || Dead(w, sub))
    ensures !Sendable(w, sub)
  {
    forall more | PossibleRun(w, more) ensures sub !in Run(w, more).claims.sent {
      RunKeepsClaims(w, more);
      if Dead(w, sub) { RunKeepsDead(w, more, sub); }
    }
  }

  lemma JournaledIsSendable(w: World, sub: SubId)
    requires sub in w.claims.journaled && sub !in w.claims.ended
    ensures Sendable(w, sub)
  {
    var more := [Send(sub)];
    assert more[..0] == [];
    assert PossibleRun(w, more[..0]) && Run(w, more[..0]) == w;
    assert PossibleRun(w, more) && sub in Run(w, more).claims.sent;
  }

  /** The claim's prompt journals a nonce for it. */
  function Journaling(ref: Ref): SlotOp {
    PlanStep(Journal(ref, Sender(0, 0)))
  }

  lemma OpenIsJournaled(w: World, h: Runtime, sub: SubId) returns (ref: Ref, r: Runtime)
    requires ClaimInv(w) && w.held == Some(h) && Holds(h, sub) && sub !in w.claims.ended
    ensures Commits(w, Journaling(ref), h, r) && Possible(w, Commit(Journaling(ref)))
    ensures sub in Committed(w, Journaling(ref), h, r).claims.journaled
    ensures sub !in Committed(w, Journaling(ref), h, r).claims.ended
  {
    ref :| ref in w.refs && ref.sub == sub && SameOperation(h.plan.value, ref);
    r := SlotNext(h, Journaling(ref)).value;
  }

  /** An open claim whose driver has not given up can be journaled and then sent. */
  lemma OpenIsSendable(w: World, h: Runtime, sub: SubId)
    requires ClaimInv(w) && w.held == Some(h) && Holds(h, sub) && sub !in w.claims.ended
    ensures Sendable(w, sub)
  {
    var ref, r := OpenIsJournaled(w, h, sub);
    var st := Commit(Journaling(ref));
    JournaledIsSendable(Next(w, st), sub);
    var more :| PossibleRun(Next(w, st), more) && sub in Run(Next(w, st), more).claims.sent;
    RunFrom(w, st, more);
  }

  lemma {:induction false} RunFrom(w: World, st: Step, more: seq<Step>)
    requires Possible(w, st)
    ensures Run(w, [st] + more) == Run(Next(w, st), more)
    ensures PossibleRun(Next(w, st), more) ==> PossibleRun(w, [st] + more)
  {
    var all := [st] + more;
    if more == [] {
      assert all[..0] == [] && all == [st];
      assert Run(w, all[..0]) == w && PossibleRun(w, all[..0]);
    } else {
      RunFrom(w, st, more[..|more| - 1]);
      assert all[..|all| - 1] == [st] + more[..|more| - 1];
    }
  }

  /** The slot belongs to another note and has this claim open. */
  predicate StillOpen(s: Store, n: NoteId, sub: SubId) {
    !Selects(s.runtime, n) && Holds(s.runtime, sub)
  }

  /** The plan that travels with note n is the note's own. */
  ghost predicate OwnPlan(s: Store, n: NoteId) {
    SourcePlan(s, n).Some? && SourcePlan(s, n).value.note == n
  }

  /** The plan that travels with note n has this claim open, without a nonce. */
  ghost predicate OpenSource(s: Store, n: NoteId, sub: SubId) {
    && SourcePlan(s, n).Some? && SourcePlan(s, n).value.wal.sub == Some(sub)
    && SourcePlan(s, n).value.wal.sender.None?
  }

  /** The transfer m, caused by late attempt e, retires the claim. */
  ghost predicate RetiresClaim(s: Store, m: Move, e: Late, sub: SubId) {
    && m.TransferNote? && Transferable(s, m.op, m.txHash, m.note, m.to).Some?
    && e == s.runtime.late[Transferable(s, m.op, m.txHash, m.note, m.to).value]
    && RetiredClaim(s, m.note, e, m.to).Some? && RetiredClaim(s, m.note, e, m.to).value.sub == sub
  }

  /** What a transfer of note n leaves in the slot and in the history. */
  ghost predicate LeavesSlot(w: World, v: World, n: NoteId) {
    && v.held == Some(v.store.runtime) && v.claims == w.claims.(cancelled := v.claims.cancelled)
    && v.store.runtime.plan == if Selects(w.store.runtime, n) then None else w.store.runtime.plan
  }

  /** A claim of another note that a transfer retires was opened by the slot. */
  lemma ForeignIsSlotClaim(w: World, n: NoteId, sub: SubId)
    requires LogInv(w) && OpenSource(w.store, n, sub) && !OwnPlan(w.store, n)
    ensures sub in w.claims.issued && sub !in w.claims.background
  {
    if n in w.store.records { assert RecordClaimOk(n, w.store.records[n], w.claims); }
  }

  /** The moved note's own retired claim has no nonce and is not open in the slot beside it. */
  lemma OwnIsUnjournaled(w: World, n: NoteId, sub: SubId)
    requires Inv(w) && LogInv(w) && (Selects(w.store.runtime, n) || BackgroundOwns(w.store, n))
    requires OpenSource(w.store, n, sub) && OwnPlan(w.store, n)
    ensures sub !in w.claims.journaled && !StillOpen(w.store, n, sub)
  {
    if n in w.store.records { assert RecordClaimOk(n, w.store.records[n], w.claims); }
  }

  lemma TransferRetires(w: World, m: Move, e: Late, sub: SubId, t: Store)
    requires RetiresClaim(w.store, m, e, sub) && MoveNext(w.store, m) == Some(t)
    ensures LeavesSlot(w, Moved(w, t, m), m.note) && OpenSource(w.store, m.note, sub)
    ensures Selects(w.store.runtime, m.note) || BackgroundOwns(w.store, m.note)
    ensures OwnPlan(w.store, m.note) ==> sub in Moved(w, t, m).claims.cancelled
  {
  }

  /** The retired claim was sent before, or its driver is still at work and has its nonce or
      finds it open in the slot of another note. */
  ghost predicate Survives(w: World, n: NoteId, sub: SubId) {
    || sub in w.claims.sent
    || (sub !in w.claims.ended && (sub in w.claims.journaled || StillOpen(w.store, n, sub)))
  }

  lemma RetirementIsFinal(w: World, v: World, n: NoteId, sub: SubId)
    requires Inv(w) && LogInv(w) && OpenSource(w.store, n, sub) && LeavesSlot(w, v, n)
    requires (OwnPlan(w.store, n) ==> sub in v.claims.cancelled) && !Survives(w, n, sub)
    ensures sub in v.claims.cancelled || Dead(v, sub)
  {
    if !OwnPlan(w.store, n) { ForeignIsSlotClaim(w, n, sub); }
  }

  lemma SendableIff(w: World, v: World, n: NoteId, sub: SubId)
    requires Inv(w) && LogInv(w) && OpenSource(w.store, n, sub) && LeavesSlot(w, v, n)
    requires OwnPlan(w.store, n) ==> sub in v.claims.cancelled
    requires Inv(v) && ClaimInv(v)
    ensures Sendable(v, sub) <==> Survives(w, n, sub)
  {
    if sub in w.claims.sent {
      assert PossibleRun(v, []) && sub in Run(v, []).claims.sent;
    } else if Survives(w, n, sub) {
      if sub in w.claims.journaled { JournaledIsSendable(v, sub); } else { OpenIsSendable(v, v.store.runtime, sub); }
    } else {
      RetirementIsFinal(w, v, n, sub);
      NotSendable(v, sub);
    }
  }

  /** What is needed of a retiring transfer, without its definition. */
  lemma TransferSettles(w: World, m: Move, e: Late, sub: SubId, t: Store)
    requires Inv(w) && ClaimInv(w) && RetiresClaim(w.store, m, e, sub) && MoveNext(w.store, m) == Some(t)
    ensures Inv(Moved(w, t, m)) && ClaimInv(Moved(w, t, m))
    ensures OpenSource(w.store, m.note, sub) && LeavesSlot(w, Moved(w, t, m), m.note)
    ensures OwnPlan(w.store, m.note) ==> sub in Moved(w, t, m).claims.cancelled && !Survives(w, m.note, sub)
  {
    MoveKeepsInv(w, m, t);
    MoveKeepsClaims(w, m, t);
    TransferRetires(w, m, e, sub, t);
    if OwnPlan(w.store, m.note) { OwnIsUnjournaled(w, m.note, sub); }
  }

  lemma MovedIsFinalIff(w: World, m: Move, e: Late, sub: SubId, t: Store)
    requires Inv(w) && ClaimInv(w) && RetiresClaim(w.store, m, e, sub) && MoveNext(w.store, m) == Some(t)
    ensures Sendable(Moved(w, t, m), sub) <==> Survives(w, m.note, sub)
    ensures OwnPlan(w.store, m.note) ==> !Survives(w, m.note, sub)
  {
    TransferSettles(w, m, e, sub, t);
    SendableIff(w, Moved(w, t, m), m.note, sub);
  }

  lemma RetiringStore(s: Store, m: Move, e: Late, sub: SubId) returns (t: Store)
    requires RetiresClaim(s, m, e, sub)
    ensures MoveNext(s, m) == Some(t)
  {
    t := MoveNext(s, m).value;
  }

  lemma NextMoves(w: World, m: Move, t: Store, sub: SubId)
    requires w.held.Some? && MoveNext(w.store, m) == Some(t)
    ensures Sendable(Next(w, MoveNote(m)), sub) <==> Sendable(Moved(w, t, m), sub)
  {
  }

  /** The exact condition. After a late transfer retires a claim, some continuation of the run
      has sent it if and only if it was sent before, or its driver is still at work and either
      has journaled its nonce or finds the claim open in the slot, which then belongs to
      another note. The moved note's own claim never is. */
  lemma RetiredByTransferIsFinalIff(w: World, m: Move, e: Late, sub: SubId)
    requires Inv(w) && ClaimInv(w) && w.held.Some? && RetiresClaim(w.store, m, e, sub)
    ensures Sendable(Next(w, MoveNote(m)), sub) <==> Survives(w, m.note, sub)
    ensures OwnPlan(w.store, m.note) ==> !Survives(w, m.note, sub)
  {
    var t := RetiringStore(w.store, m, e, sub);
    NextMoves(w, m, t, sub);
    MovedIsFinalIff(w, m, e, sub, t);
  }

  ghost predicate Planless(s: Store, n: NoteId) {
    n in s.records && s.records[n].plan.None? && !Selects(s.runtime, n)
  }

  /** In every reachable state: the fallback to the slot's plan retires a claim that can still
      be sent exactly when its driver is still at work. */
  lemma FallbackIsFinalIff(steps: seq<Step>, w: World, m: Move, e: Late, sub: SubId)
    requires PossibleRun(INITIAL, steps) && w == Run(INITIAL, steps) && w.held.Some?
    requires RetiresClaim(w.store, m, e, sub) && Planless(w.store, m.note)
    ensures Sendable(Next(w, MoveNote(m)), sub) <==> sub !in w.claims.ended
  {
    ReachableIsSafe(steps);
    RunKeepsClaims(INITIAL, steps);
    TransferRetires(w, m, e, sub, MoveNext(w.store, m).value);
    RetiredByTransferIsFinalIff(w, m, e, sub);
  }
}
