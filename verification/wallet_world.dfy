/** Whole runs of the wallet: any number of tabs, any interleaving of atomic
    transactions, and the history a statement about a run needs. */
module WalletWorld {
  import opened WalletTypes
  import opened AttemptLog
  import opened PlanLog
  import opened SelectedSlot
  import opened WithdrawalRecord
  import opened NoteMoves

  /** `held` is the in-memory copy of the slot in the tab that holds the wallet lock:
      a locked section commits what it computed from that copy. The other fields are
      history: note ids the vault has issued, notes that ever carried the
      withdrawal-only mark, references carried away by wallet prompts, and what became
      of every wallet claim. */
  datatype World = World(store: Store, held: Option<Runtime>, vault: set<NoteId>, marked: set<NoteId>,
                         refs: set<Ref>, claims: Claims)

  /** Claims issued, with the note they were opened for; those issued by the background
      driver; those whose nonce was journaled; those retired before that; those whose
      driver has given up; and those whose transaction was handed to the wallet. */
  datatype Claims = Claims(issued: map<SubId, NoteId>, background: set<SubId>, journaled: set<SubId>,
                           cancelled: set<SubId>, ended: set<SubId>, sent: set<SubId>)

  datatype Move =
    | ArchiveNote(note: NoteId, expiry: bool, verified: bool)
    | EscapeStarted(note: NoteId, destination: Option<Address>, challenged: bool, chain: ChainStatus,
                    hash: Option<Hash>, moved: bool)
    | ClosedOnChain(note: NoteId, mode: Mode, destination: Option<Address>, hash: Option<Hash>, clearance: bool)
    | ParkNote(note: NoteId)
    | RestoreNote(note: NoteId, expectedRevision: nat)
    | TransferNote(op: OpId, txHash: Hash, note: NoteId, to: Destination)

  datatype Step =
    | Lock | Reload | Unlock
    | Commit(slotOp: SlotOp)
    | MoveNote(move: Move)
    | RecordCall(note: NoteId, recOp: RecOp)
    | ReleasePrompt(ref: Ref, unknown: bool)
    | Send(sub: SubId)

  function MoveNext(s: Store, m: Move): Option<Store> {
    match m
    case ArchiveNote(n, expiry, verified) => Archive(s, n, expiry, verified)
    case EscapeStarted(n, destination, challenged, chain, hash, moved) =>
      DetachEscape(s, n, destination, challenged, chain, hash, moved)
    case ClosedOnChain(n, mode, destination, hash, clearance) => DetachClosed(s, n, mode, destination, hash, clearance)
    case ParkNote(n) => Park(s, n)
    case RestoreNote(n, expectedRevision) => Restore(s, n, expectedRevision)
    case TransferNote(op, txHash, n, to) => Transfer(s, op, txHash, n, to)
  }

  /** The late attempt behind a transfer, the record it makes and the attempts it leaves. */
  ghost predicate Transfers(s: Store, m: Move, k: nat, e: Late, rec: Record, late: seq<Late>) {
    && m.TransferNote? && Transferable(s, m.op, m.txHash, m.note, m.to) == Some(k) && k < |s.runtime.late|
    && s.runtime.late[k] == e && rec == TransferredRecord(s, m.note, e, m.to) && late == SettledLate(s, m.note, k, m.to)
  }

  lemma TransferParts(s: Store, m: Move, t: Store) returns (k: nat, e: Late, rec: Record, late: seq<Late>)
    requires m.TransferNote? && MoveNext(s, m) == Some(t)
    ensures Transfers(s, m, k, e, rec, late) && t == AfterTransfer(s, m.note, rec, late)
    ensures e in s.runtime.late && e.note == m.note && !IsTerminal(e.status)
    ensures Selects(s.runtime, m.note) || BackgroundOwns(s, m.note)
  {
    k, e, rec, late := TransferSource(s, m.op, m.txHash, m.note, m.to, t);
  }

  /** Notes whose live location carries the withdrawal-only mark. */
  function Carried(s: Store): set<NoteId> {
    (if s.runtime.state.Some? && s.runtime.plan.Some? && s.runtime.plan.value.clearance
     then {s.runtime.state.value.id} else {})
    + (set n | n in s.records && s.records[n].state.Some? && s.records[n].clearance)
  }

  function Placed(w: World, s: Store, held: Option<Runtime>): World {
    w.(store := s, held := held, marked := w.marked + Carried(s))
  }

  // --- History written by a successful step ----------------------------------------

  function ClaimedSub(o: SlotOp): Option<SubId> {
    if o.PlanStep? && o.planOp.ClaimPlan? then Some(o.planOp.sub)
    else if o.PlanStep? && o.planOp.ClaimReplacement? then Some(o.planOp.sub)
    else None
  }

  /** The reference a slot claim hands to its wallet prompt. */
  function SlotRefs(r: Runtime, o: SlotOp): set<Ref> {
    if ClaimedSub(o).Some? && r.plan.Some? && r.plan.value.op.Some? then
      {ClaimRef(r.plan.value, ClaimedSub(o).value, r.plan.value.op.value,
                if o.planOp.ClaimReplacement? then Some(o.planOp.sender) else None)}
    else {}
  }

  function SlotJournaled(o: SlotOp): set<SubId> {
    if o.PlanStep? && o.planOp.Journal? then {o.planOp.ref.sub}
    else if o.PlanStep? && o.planOp.ClaimReplacement? then {o.planOp.sub}
    else {}
  }

  /** The claim that a commit retires although no nonce was journaled for it. A commit
      that reports the claim's hash answers it instead. */
  function RetiredByCommit(before: Runtime, o: SlotOp, after: Runtime): set<SubId> {
    if !o.RememberTx? && Unjournaled(before.plan)
        && (after.plan.None? || after.plan.value.wal.sub != before.plan.value.wal.sub)
    then {before.plan.value.wal.sub.value} else {}
  }

  predicate Unjournaled(p: Option<Plan>) {
    p.Some? && p.value.wal.sub.Some? && p.value.wal.sender.None?
  }

  function SlotClaims(c: Claims, before: Runtime, o: SlotOp, after: Runtime): Claims {
    c.(issued := if ClaimedSub(o).Some? && after.plan.Some?
                 then c.issued[ClaimedSub(o).value := after.plan.value.note] else c.issued,
       journaled := c.journaled + SlotJournaled(o),
       cancelled := c.cancelled + RetiredByCommit(before, o, after))
  }

  /** A commit of o, computed from the locked copy h, writes r. */
  ghost predicate Commits(w: World, o: SlotOp, h: Runtime, r: Runtime) {
    w.held == Some(h) && SlotNext(h, o) == Some(r)
  }

  function Committed(w: World, o: SlotOp, h: Runtime, r: Runtime): World {
    Placed(w, w.store.(runtime := r), Some(r)).(
      vault := w.vault + if o.ConfirmDeposit? then {o.note} else {},
      refs := w.refs + SlotRefs(r, o),
      claims := SlotClaims(w.claims, h, o, r))
  }

  /** The claim of the moved note itself that a late transfer retires. */
  function RetiredByMove(s: Store, m: Move): set<SubId> {
    if m.TransferNote? && Transferable(s, m.op, m.txHash, m.note, m.to).Some? then
      var c := RetiredClaim(s, m.note, s.runtime.late[Transferable(s, m.op, m.txHash, m.note, m.to).value], m.to);
      if c.Some? && SourcePlan(s, m.note).Some? && SourcePlan(s, m.note).value.note == m.note then {c.value.sub} else {}
    else {}
  }

  function Moved(w: World, s: Store, m: Move): World {
    Placed(w, s, Some(s.runtime)).(claims := w.claims.(cancelled := w.claims.cancelled + RetiredByMove(w.store, m)))
  }

  function AfterMove(w: World, t: Option<Store>, m: Move): World {
    if w.held.None? || t.None? then w else Moved(w, t.value, m)
  }

  function RecordRefs(rec: Record, o: RecOp): set<Ref> {
    if o.ReplaceStart? && rec.plan.Some? && rec.plan.value.op.Some? then
      {ClaimRef(rec.plan.value, o.sub, rec.plan.value.op.value, Some(o.sender))}
    else {}
  }

  /** A record's claim that is released although neither log has a nonce for it. */
  function RetiredByRelease(before: Record, o: RecOp): set<SubId> {
    if o.ReleaseStart? && before.start.sender.None? && Unjournaled(before.plan) then {o.sub} else {}
  }

  function RecordClaims(c: Claims, n: NoteId, before: Record, o: RecOp): Claims {
    c.(issued := if o.ClaimStart? || o.ReplaceStart? then c.issued[o.sub := n] else c.issued,
       background := c.background + (if o.ClaimStart? then {o.sub} else {}),
       journaled := c.journaled + (if o.JournalStart? || o.ReplaceStart? then {o.sub} else {}),
       cancelled := c.cancelled + RetiredByRelease(before, o))
  }

  /** A call of o on record n turns rec into next. */
  ghost predicate Calls(w: World, n: NoteId, o: RecOp, rec: Record, next: Record) {
    n in w.store.records && w.store.records[n] == rec && RecNext(rec, w.store.runtime, o) == Some(next)
  }

  function Recorded(w: World, n: NoteId, o: RecOp, rec: Record, next: Record): World {
    Placed(w, w.store.(records := w.store.records[n := next]), w.held).(
      refs := w.refs + RecordRefs(next, o),
      claims := RecordClaims(w.claims, n, rec, o))
  }

  /** A prompt's claim that its driver releases although no log it is released from has a
      nonce for it. */
  function RetiredByPrompt(s: Store, ref: Ref, unknown: bool): set<SubId> {
    if && (PromptInSlot(s, ref, unknown) || PromptInRecord(s, ref, unknown))
       && (PromptInSlot(s, ref, unknown) ==> s.runtime.plan.value.wal.sender.None?)
       && (PromptInRecord(s, ref, unknown) ==> s.records[ref.note].start.sender.None?)
    then {ref.sub} else {}
  }

  /** Releasing is the last thing a prompt's driver does, whether or not it finds its claim. */
  function PromptClaims(c: Claims, s: Store, ref: Ref, unknown: bool): Claims {
    c.(ended := c.ended + {ref.sub}, cancelled := c.cancelled + RetiredByPrompt(s, ref, unknown))
  }

  function Released(w: World, ref: Ref, unknown: bool): World {
    var t := ReleaseSubmission(w.store, ref, unknown);
    (if t.None? then w else Placed(w, t.value, w.held)).(claims := PromptClaims(w.claims, w.store, ref, unknown))
  }

  function Next(w: World, st: Step): World {
    match st
    case Lock => if w.held.None? then w.(held := Some(w.store.runtime)) else w
    case Reload => if w.held.Some? then w.(held := Some(w.store.runtime)) else w
    case Unlock => w.(held := None)
    case Commit(o) =>
      if w.held.None? || SlotNext(w.held.value, o).None? then w
      else Committed(w, o, w.held.value, SlotNext(w.held.value, o).value)
    case MoveNote(m) => AfterMove(w, MoveNext(w.store, m), m)
    case RecordCall(n, o) =>
      if n !in w.store.records || RecNext(w.store.records[n], w.store.runtime, o).None? then w
      else Recorded(w, n, o, w.store.records[n], RecNext(w.store.records[n], w.store.runtime, o).value)
    case ReleasePrompt(ref, unknown) => Released(w, ref, unknown)
    case Send(sub) => w.(claims := w.claims.(sent := w.claims.sent + {sub}))
  }

  /** A commit claims under a new id, and no driver journals after it has given up. */
  ghost predicate PossibleClaim(o: SlotOp, c: Claims) {
    && (ClaimedSub(o).Some? ==> ClaimedSub(o).value !in c.issued)
    && (o.PlanStep? && o.planOp.Journal? ==> o.planOp.ref.sub !in c.ended)
  }

  /** A call claims under a new id, and background calls come from the background driver. */
  ghost predicate PossibleCall(o: RecOp, c: Claims) {
    && (o.ClaimStart? || o.ReplaceStart? ==> o.sub !in c.issued)
    && (o.JournalStart? || o.RememberStart? ==> o.sub in c.background)
  }

  /** What the environment guarantees: the vault never reuses a note id, random claim
      ids are new, a prompt reports, journals and releases only for the claim that opened
      it, a driver that has released its claim neither journals nor sends any more,
      background calls come from the background driver, and a broadcast follows a
      successful nonce write. */
  ghost predicate Possible(w: World, st: Step) {
    match st
    case Commit(o) =>
      && (o.ConfirmDeposit? ==> o.note !in w.vault)
      && PossibleClaim(o, w.claims)
      && (o.RememberTx? ==> o.ref in w.refs)
      && (o.PlanStep? && o.planOp.Journal? ==> o.planOp.ref in w.refs)
      && (o.ChallengeLate? ==> o.backgroundOwns == BackgroundOwns(w.store, o.note))
    case RecordCall(n, o) => PossibleCall(o, w.claims)
    case ReleasePrompt(ref, _) => ref in w.refs
    case Send(sub) => sub in w.claims.journaled && sub !in w.claims.ended
    case _ => true
  }

  const INITIAL := World(Store(EMPTY_RUNTIME, map[], []), None, {}, {}, {}, Claims(map[], {}, {}, {}, {}, {}))

  ghost predicate PossibleRun(w: World, steps: seq<Step>) {
    steps == [] || (PossibleRun(w, steps[..|steps| - 1]) && Possible(Run(w, steps[..|steps| - 1]), steps[|steps| - 1]))
  }

  ghost function Run(w: World, steps: seq<Step>): World {
    if steps == [] then w else Next(Run(w, steps[..|steps| - 1]), steps[|steps| - 1])
  }
}
