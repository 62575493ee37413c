/** The revision compare-and-set over whole runs of the wallet: a patch that expects the revision
    of a record it has read is applied to that very record or refused. */
module RevisionLaws {
  import opened WalletTypes
  import opened WithdrawalRecord
  import opened WalletWorld
  import opened WalletLaws
  import opened WalletRuns
  import opened FinalizationRuns

  /** A write to a record raises its revision by one. */
  ghost predicate Raised(before: Record, after: Record) {
    after == before || after.revision == before.revision + 1
  }

  lemma CallRaises(rec: Record, r: Runtime, o: RecOp, next: Record)
    requires RecNext(rec, r, o) == Some(next)
    ensures next.revision == rec.revision + 1
  {
    match o
    case Update(patch, expected) => PatchRaises(rec, patch, expected, next);
    case RememberStart(id, hash, sub, op, meta) => ReportRaises(rec, id, hash, sub, op, meta, next);
    case _ =>
  }

  lemma PatchRaises(rec: Record, p: Patch, expected: Option<nat>, next: Record)
    requires DoUpdate(rec, p, expected) == Some(next)
    ensures next.revision == rec.revision + 1
  {
  }

  lemma ReportRaises(rec: Record, id: Identity, hash: Hash, sub: SubId, op: OpId, meta: Option<Sender>, next: Record)
    requires DoRememberStart(rec, id, hash, sub, op, meta) == Some(next)
    ensures next.revision == rec.revision + 1
  {
  }

  lemma MoveRaises(s: Store, m: Move, t: Store, n: NoteId)
    requires MoveNext(s, m) == Some(t) && n in s.records && (Selects(s.runtime, m.note) ==> m.note !in s.records)
    ensures n in t.records ==> Raised(s.records[n], t.records[n])
  {
  }

  lemma StepRaisesRevision(w: World, st: Step, n: NoteId)
    requires Inv(w) && Possible(w, st) && n in w.store.records && n in Next(w, st).store.records
    ensures Raised(w.store.records[n], Next(w, st).store.records[n])
  {
    match st
    case MoveNote(m) =>
      if w.held.Some? && MoveNext(w.store, m).Some? { MoveRaises(w.store, m, MoveNext(w.store, m).value, n); }
    case RecordCall(k, o) =>
      if Accepted(w, st, n) {
        CallRaises(w.store.records[n], w.store.runtime, o, RecNext(w.store.records[n], w.store.runtime, o).value);
      }
    case _ =>
  }

  lemma {:induction false} RunRaises(w: World, steps: seq<Step>, n: NoteId)
    requires Inv(w) && PossibleRun(w, steps) && n in w.store.records && forall st :: st in steps ==> !Restores(st, n)
    ensures n in Run(w, steps).store.records
    ensures Run(w, steps).store.records[n] == w.store.records[n]
         || Run(w, steps).store.records[n].revision > w.store.records[n].revision
  {
    if steps != [] {
      var front, st := steps[..|steps| - 1], steps[|steps| - 1];
      assert st in steps;
      RunRaises(w, front, n);
      RunKeepsInv(w, front);
      StepRaises(Run(w, front), st, n);
      StepRaisesRevision(Run(w, front), st, n);
    }
  }

  /** Until the note is restored, however many steps of other tabs come in between, a patch for
      the revision that was read is applied only to the very record that was read. */
  lemma StalePatchIsRefused(w: World, steps: seq<Step>, n: NoteId, p: Patch)
    requires Inv(w) && PossibleRun(w, steps) && n in w.store.records && forall st :: st in steps ==> !Restores(st, n)
    ensures n in Run(w, steps).store.records
    ensures DoUpdate(Run(w, steps).store.records[n], p, Some(w.store.records[n].revision)).Some? ==>
              Run(w, steps).store.records[n] == w.store.records[n]
  {
    RunRaises(w, steps, n);
  }
}
