/** The finalization claim machine of one background record. */
module FinalizationLog {
  import opened WalletTypes
  import opened AttemptLog

  /** What a finalization prompt carries away from its claim. */
  datatype FinRef = FinRef(note: NoteId, sub: SubId, op: OpId, generation: nat, destination: Option<Address>)

  datatype FinOp =
    | ClaimFin(sub: SubId, freshOp: OpId)
    | ClaimFinReplacement(sub: SubId, sender: Sender, freshOp: OpId)
    | JournalFin(ref: FinRef, sender: Sender)
    | RememberFin(hash: Hash, ref: FinRef, meta: Option<Sender>)
    | ReleaseFinHash(hash: Hash)
    | ReleaseFinClaim(ref: FinRef)
    | MissingFinReceipts(expected: multiset<Hash>)
    | ReleaseFinReplacement(ref: FinRef)
    | ResolveChallenged(ref: FinRef, expectedRevision: nat)
    | FinAmbiguous(ref: FinRef)
    | AuthorizeFinRetry

  predicate IsSettled(phase: Phase) {
    phase.ClosedPhase? || phase.RestoredPhase? || phase.ParkedPhase?
  }

  /** Only the exact current claim of this record matches. */
  predicate Matches(rec: Record, ref: FinRef) {
    && ref.note == rec.note
    && rec.fin.sub == Some(ref.sub)
    && rec.fin.op == Some(ref.op)
    && rec.fin.generation == ref.generation
    && rec.destination == ref.destination
  }

  ghost function AttemptHashes(s: seq<FinAttempt>): set<Hash> {
    if s == [] then {} else AttemptHashes(s[..|s| - 1]) + {s[|s| - 1].hash}
  }

  function WithoutFinAttempt(s: seq<FinAttempt>, h: Hash): (r: seq<FinAttempt>)
    ensures AttemptHashes(r) == AttemptHashes(s) - {h}
  {
    if s == [] then []
    else
      var front := WithoutFinAttempt(s[..|s| - 1], h);
      var last := s[|s| - 1];
      assert (front + [last])[..|front|] == front;
      if last.hash == h then front else front + [last]
  }

  function FinIdentities(f: FinLog): set<Sender> {
    set i | 0 <= i < |f.attempts| && f.attempts[i].hash in f.hashes && f.attempts[i].sender.Some?
      :: f.attempts[i].sender.value
  }

  function Unclaimed(f: FinLog): FinLog {
    f.(sub := None, sender := None)
  }

  /** A finalization operation writes the phase and the log, and nothing else. */
  datatype FinWrite = FinWrite(phase: Phase, fin: FinLog)

  function FinSaved(rec: Record, w: FinWrite): Record {
    rec.(phase := w.phase, fin := w.fin, revision := rec.revision + 1)
  }

  function FinNext(rec: Record, o: FinOp): Option<FinWrite> {
    var f := rec.fin;
    match o
    case ClaimFin(sub, freshOp) =>
      if !(rec.phase.PendingPhase? || rec.phase.FinalizingPhase? || rec.phase.AwaitingPhase?)
         || rec.chain.ChainActive? || f.hashes != [] || f.sub.Some? then None
      else Some(FinWrite(AwaitingPhase,
                         f.(op := First(f.op, Some(freshOp)), generation := f.generation + 1, sub := Some(sub))))
    case ClaimFinReplacement(sub, sender, freshOp) =>
      if !rec.phase.FinalizingPhase? || rec.chain.ChainActive? || rec.chain.ChainClosed? || f.sub.Some?
         || !(f.outcome.ReceiptMissing? || f.outcome.ReplacementUnknown?) || FinIdentities(f) != {sender} then None
      else Some(FinWrite(rec.phase, f.(op := First(f.op, Some(freshOp)), generation := f.generation + 1,
                                    sub := Some(sub), sender := Some(sender), outcome := ReplacementAwaiting)))
    case JournalFin(ref, sender) =>
      if !Matches(rec, ref) then None
      else Some(FinWrite(rec.phase, f.(sender := Some(sender))))
    case RememberFin(hash, ref, meta) =>
      if ref.note != rec.note then None
      else
        var logged := f.(
          hashes := Distinct(f.hashes + [hash]),
          attempts := WithoutFinAttempt(f.attempts, hash)
                      + [FinAttempt(hash, ref.sub, ref.op, ref.generation, First(meta, f.sender))]);
        Some(FinWrite(if IsSettled(rec.phase) then rec.phase else FinalizingPhase,
              if Matches(rec, ref) then Unclaimed(logged)
              else logged.(concurrent := f.concurrent || f.sub.Some? || f.op != Some(ref.op)
                           || f.generation != ref.generation)))
    case ReleaseFinHash(hash) =>
      if hash !in f.hashes then None
      else
        var remaining := Without(f.hashes, hash);
        Some(FinWrite(
              if IsSettled(rec.phase) then rec.phase
              else if remaining != [] then FinalizingPhase
              else if f.sub.Some? then (if rec.phase.AmbiguousPhase? then AmbiguousPhase else AwaitingPhase)
              else PendingPhase,
              f.(hashes := remaining, attempts := WithoutFinAttempt(f.attempts, hash))))
    case ReleaseFinClaim(ref) =>
      if !Matches(rec, ref) then None
      else Some(FinWrite(
                 if IsSettled(rec.phase) then rec.phase else if f.hashes != [] then FinalizingPhase else PendingPhase,
                 Unclaimed(f)))
    case MissingFinReceipts(expected) =>
      if IsSettled(rec.phase) || multiset(f.hashes) != expected || f.sub.Some?
         || rec.chain.ChainActive? || rec.chain.ChainClosed? || f.outcome.ReceiptMissing? then None
      else Some(FinWrite(FinalizingPhase, f.(outcome := ReceiptMissing)))
    case ReleaseFinReplacement(ref) =>
      if !Matches(rec, ref) then None
      else Some(FinWrite(if IsSettled(rec.phase) then rec.phase else FinalizingPhase,
                 Unclaimed(f).(outcome := ReplacementUnknown)))
    case ResolveChallenged(ref, expectedRevision) =>
      if rec.revision != expectedRevision || !rec.chain.ChainActive? || f.hashes != [] || !Matches(rec, ref) then None
      else Some(FinWrite(ActivePhase(rec), Unclaimed(f).(outcome := PromptClosed)))
    case FinAmbiguous(ref) =>
      if IsSettled(rec.phase) || !Matches(rec, ref) then None
      else Some(FinWrite(AmbiguousPhase, f.(outcome := AmbiguousOutcome)))
    case AuthorizeFinRetry =>
      if !rec.phase.AmbiguousPhase? || f.sub.None? || f.hashes != [] then None
      else Some(FinWrite(PendingPhase, Unclaimed(f).(outcome := RetryAuthorized, retried := true)))
  }

  /** A note that is active again is parked when it is withdrawal-only. */
  function ActivePhase(rec: Record): Phase {
    if rec.clearance || (rec.plan.Some? && rec.plan.value.clearance) then ParkedPhase else RestoredPhase
  }

  ghost function HashSet(s: seq<Hash>): set<Hash> {
    set h | h in s
  }

  lemma DropHash(f: FinLog, hash: Hash)
    ensures HashSet(Without(f.hashes, hash)) == HashSet(f.hashes) - {hash}
  {
  }

  lemma AddHash(f: FinLog, hash: Hash, entry: FinAttempt)
    requires entry.hash == hash
    ensures HashSet(Distinct(f.hashes + [hash])) == HashSet(f.hashes) + {hash}
    ensures AttemptHashes(WithoutFinAttempt(f.attempts, hash) + [entry]) == AttemptHashes(f.attempts) + {hash}
  {
    DistinctSet(f.hashes, hash);
    SnocHashes(WithoutFinAttempt(f.attempts, hash), entry);
  }

  lemma DistinctSet(hashes: seq<Hash>, hash: Hash)
    ensures HashSet(Distinct(hashes + [hash])) == HashSet(hashes) + {hash}
  {
    assert forall h :: h in hashes + [hash] <==> h in hashes || h == hash;
  }

  lemma SnocHashes(front: seq<FinAttempt>, entry: FinAttempt)
    ensures AttemptHashes(front + [entry]) == AttemptHashes(front) + {entry.hash}
  {
    assert (front + [entry])[..|front|] == front;
  }

  /** One attempt is saved per hash in the log. */
  ghost predicate LogOk(f: FinLog) {
    NoDup(f.hashes) && HashSet(f.hashes) == AttemptHashes(f.attempts)
  }

  /** A phase that waits for the wallet has a live claim. */
  ghost predicate ClaimOk(rec: Record) {
    && (rec.phase.AwaitingPhase? || rec.phase.AmbiguousPhase? ==> rec.fin.sub.Some?)
    && (rec.fin.sub.Some? ==> rec.fin.op.Some?)
  }

  lemma FinKeepsClaim(rec: Record, o: FinOp, write: FinWrite)
    requires ClaimOk(rec) && FinNext(rec, o) == Some(write)
    ensures ClaimOk(FinSaved(rec, write))
  {
  }

  lemma FinKeepsLog(rec: Record, o: FinOp, write: FinWrite)
    requires LogOk(rec.fin) && FinNext(rec, o) == Some(write)
    ensures LogOk(write.fin)
    ensures HashSet(write.fin.hashes) ==
            if o.RememberFin? then HashSet(rec.fin.hashes) + {o.hash}
            else if o.ReleaseFinHash? then HashSet(rec.fin.hashes) - {o.hash}
            else HashSet(rec.fin.hashes)
  {
    if o.RememberFin? {
      AddHash(rec.fin, o.hash,
              FinAttempt(o.hash, o.ref.sub, o.ref.op, o.ref.generation, First(o.meta, rec.fin.sender)));
    } else if o.ReleaseFinHash? {
      DropHash(rec.fin, o.hash);
    }
  }

  /** The attempt that a callback saves: the claim it stems from, and the identity it reports, or
      else the one the record has journaled. */
  ghost predicate SavedAs(f: FinLog, hash: Hash, ref: FinRef, meta: Option<Sender>, a: FinAttempt) {
    a.hash == hash && a.sub == ref.sub && a.op == ref.op && a.generation == ref.generation
    && a.sender == if meta.Some? then meta else f.sender
  }

  /** The callback comes from another operation or claim, or while another one is open. */
  ghost predicate ReportsConcurrent(rec: Record, ref: FinRef) {
    !Matches(rec, ref)
    && (rec.fin.sub.Some? || rec.fin.op != Some(ref.op) || rec.fin.generation != ref.generation)
  }

  lemma {:induction false} WithoutFinIff(s: seq<FinAttempt>, h: Hash, a: FinAttempt)
    ensures a in WithoutFinAttempt(s, h) <==> a in s && a.hash != h
  {
    if s != [] { WithoutFinIff(s[..|s| - 1], h, a); }
  }

  /** Its attempt takes the place of an earlier one of that hash, and the others stay. */
  lemma CallbackSavesAttempt(rec: Record, hash: Hash, ref: FinRef, meta: Option<Sender>, write: FinWrite, a: FinAttempt)
    requires FinNext(rec, RememberFin(hash, ref, meta)) == Some(write)
    ensures a in write.fin.attempts <==>
            SavedAs(rec.fin, hash, ref, meta, a) || (a in rec.fin.attempts && a.hash != hash)
    ensures write.fin.concurrent <==> rec.fin.concurrent || ReportsConcurrent(rec, ref)
  {
    WithoutFinIff(rec.fin.attempts, hash, a);
  }

  /** A pending withdrawal has no finalization to wait for. */
  ghost predicate PendingIsIdle(rec: Record) {
    rec.phase.PendingPhase? ==> rec.fin.hashes == [] && rec.fin.sub.None?
  }

  lemma FinKeepsPendingIdle(rec: Record, o: FinOp, write: FinWrite)
    requires PendingIsIdle(rec) && FinNext(rec, o) == Some(write)
    ensures PendingIsIdle(FinSaved(rec, write))
  {
  }

  /** A valid callback is never lost: whatever claim it stems from, its hash is in the
      log afterwards, with every hash that was there before. */
  lemma CallbackIsLogged(rec: Record, hash: Hash, ref: FinRef, meta: Option<Sender>)
    requires ref.note == rec.note
    ensures var next := FinNext(rec, RememberFin(hash, ref, meta));
            && next.Some?
            && (forall h :: h in next.value.fin.hashes <==> h == hash || h in rec.fin.hashes)
            && (IsSettled(rec.phase) ==> next.value.phase == rec.phase)
            && (!Matches(rec, ref) ==>
                next.value.fin.sub == rec.fin.sub && next.value.fin.generation == rec.fin.generation)
  {
    assert forall h :: h in rec.fin.hashes + [hash] <==> h == hash || h in rec.fin.hashes;
  }

  /** A claim that is no longer current can neither release, mark nor journal the
      current one, and reporting its hash leaves the current claim open. */
  lemma SupersededClaimIsPowerless(rec: Record, ref: FinRef, sender: Sender, revision: nat)
    requires ref.generation != rec.fin.generation || rec.fin.sub != Some(ref.sub)
    ensures FinNext(rec, ReleaseFinClaim(ref)).None?
    ensures FinNext(rec, FinAmbiguous(ref)).None?
    ensures FinNext(rec, ReleaseFinReplacement(ref)).None?
    ensures FinNext(rec, ResolveChallenged(ref, revision)).None?
    ensures FinNext(rec, JournalFin(ref, sender)).None?
    ensures forall h :: FinNext(rec, RememberFin(h, ref, Some(sender))).Some? ==>
              FinNext(rec, RememberFin(h, ref, Some(sender))).value.fin.sub == rec.fin.sub
  {
  }

  /** A finalization prompt is given up for a fresh one only when its result is unknown and it left
      no hash; receipts are acted on for exactly the hashes looked up and never while a prompt is
      open; and a challenged prompt is closed only for the record that was looked at, whose note is
      active again and whose log has no hash. */
  lemma FinGuards(rec: Record, seen: multiset<Hash>, ref: FinRef, revision: nat)
    ensures FinNext(rec, AuthorizeFinRetry).Some? ==>
              rec.phase.AmbiguousPhase? && rec.fin.sub.Some? && rec.fin.hashes == []
    ensures FinNext(rec, MissingFinReceipts(seen)).Some? ==>
              seen == multiset(rec.fin.hashes) && rec.fin.sub.None?
              && !rec.chain.ChainActive? && !rec.chain.ChainClosed?
    ensures FinNext(rec, ResolveChallenged(ref, revision)).Some? ==>
              rec.revision == revision && rec.chain.ChainActive? && rec.fin.hashes == []
              && rec.fin.sub == Some(ref.sub) && rec.fin.op == Some(ref.op) && rec.fin.generation == ref.generation
              && rec.note == ref.note && rec.destination == ref.destination
  {
  }

  /** What the current claim may write: its nonce, that its result is unknown, or its end; the
      generation, the operation and the hashes stay. */
  lemma CurrentClaimWrites(rec: Record, o: FinOp, write: FinWrite)
    requires FinNext(rec, o) == Some(write)
    ensures rec.fin.op.Some? ==> write.fin.op == rec.fin.op
    ensures o.JournalFin? ==> write.fin == rec.fin.(sender := Some(o.sender)) && write.phase == rec.phase
    ensures o.FinAmbiguous? ==> write.phase.AmbiguousPhase? && write.fin.sub == rec.fin.sub
    ensures o.ReleaseFinClaim? || o.ReleaseFinReplacement? || o.ResolveChallenged? || o.AuthorizeFinRetry? ==>
              write.fin.sub.None? && write.fin.sender.None? && write.fin.hashes == rec.fin.hashes
              && write.fin.attempts == rec.fin.attempts
    ensures o.ReleaseFinHash? || o.MissingFinReceipts? ==>
              write.fin.sub == rec.fin.sub && write.fin.sender == rec.fin.sender
    ensures o.RememberFin? ==> write.fin.sub == (if Matches(rec, o.ref) then None else rec.fin.sub)
    ensures o.ClaimFin? || o.ClaimFinReplacement? ==> write.fin.sub == Some(o.sub)
  {
  }
}
