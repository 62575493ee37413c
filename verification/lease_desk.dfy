/** Checking out the temporary key: leases, the handles given out for them, and the
    retirement that closes a lease. Code between two awaits is one step. */
module LeaseDesk {
  import opened WalletTypes

  type LeaseId = nat
  type HandleId = nat

  datatype Lease = Lease(inFlight: nat, retiring: bool, retired: bool)
  datatype Handle = Handle(lease: LeaseId, released: bool)

  /** `retirement` is the lease whose retirement promise is pending. */
  datatype Desk = Desk(leases: map<LeaseId, Lease>, handles: map<HandleId, Handle>,
                       active: Option<LeaseId>, retirement: Option<LeaseId>)

  datatype Step =
    | Issue(id: LeaseId)
    | Acquire(lease: LeaseId, handle: HandleId)
    | Release(released: HandleId)
    | Begin(hasJournal: bool)
    | RemoteDone
    | End(ok: bool)
    | Abandon

  /** None: the call threw or did nothing. */
  function Next(d: Desk, st: Step): Option<Desk> {
    match st
    case Issue(id) =>
      if id in d.leases then None
      else Some(d.(leases := d.leases[id := Lease(0, false, false)], active := Some(id)))
    case Acquire(l, h) =>
      if l !in d.leases || h in d.handles || d.active != Some(l) || d.leases[l].retiring
          || d.leases[l].retired then None
      else Some(d.(leases := d.leases[l := d.leases[l].(inFlight := d.leases[l].inFlight + 1)],
                   handles := d.handles[h := Handle(l, false)]))
    case Release(h) =>
      if h !in d.handles || d.handles[h].released || d.handles[h].lease !in d.leases then None
      else
        var l := d.handles[h].lease;
        var n := d.leases[l].inFlight;
        Some(d.(leases := d.leases[l := d.leases[l].(inFlight := if n == 0 then 0 else n - 1)],
                handles := d.handles[h := Handle(l, true)]))
    case Begin(hasJournal) =>
      if d.retirement.Some? || d.active.None? || d.active.value !in d.leases || !hasJournal
          || d.leases[d.active.value].inFlight > 0 then None
      else Some(d.(leases := d.leases[d.active.value := d.leases[d.active.value].(retiring := true)],
                   retirement := d.active))
    case RemoteDone =>
      if d.retirement.None? || d.retirement.value !in d.leases then None
      else
        var l := d.retirement.value;
        Some(d.(leases := d.leases[l := d.leases[l].(retired := true)],
                active := if d.active == Some(l) then None else d.active))
    case End(ok) =>
      if d.retirement.None? || d.retirement.value !in d.leases then None
      else
        var l := d.retirement.value;
        if ok then Some(d.(active := None, retirement := None))
        else Some(d.(leases := if d.active == Some(l) then d.leases[l := d.leases[l].(retiring := false)] else d.leases,
                     retirement := None))
    case Abandon => Some(d.(active := None))
  }

  function Open(d: Desk, l: LeaseId): set<HandleId> {
    set h | h in d.handles && d.handles[h] == Handle(l, false)
  }

  predicate Closing(d: Desk, l: LeaseId) {
    l in d.leases && (d.leases[l].retiring || d.leases[l].retired)
  }

  ghost predicate LeaseOk(d: Desk, l: LeaseId) {
    l in d.leases ==>
      && d.leases[l].inFlight == |Open(d, l)|
      && (d.leases[l].retired ==> d.active != Some(l))
      && (d.leases[l].retiring || d.leases[l].retired ==> Open(d, l) == {})
  }

  ghost predicate DeskOk(d: Desk) {
    && (forall h :: h in d.handles ==> d.handles[h].lease in d.leases)
    && (d.active.Some? ==> d.active.value in d.leases)
    && (d.active.Some? && d.leases[d.active.value].retiring ==> d.retirement == d.active)
    && (d.retirement.Some? ==> d.retirement.value in d.leases && d.leases[d.retirement.value].retiring)
    && (forall l :: LeaseOk(d, l))
  }

  /** A handle step changes the open handles of its lease by one and no others. */
  lemma HandleStep(d: Desk, st: Step, l: LeaseId)
    requires DeskOk(d) && (st.Acquire? || st.Release?) && Next(d, st).Some?
    ensures LeaseOk(Next(d, st).value, l)
  {
    assert LeaseOk(d, l);
    if st.Acquire? { AcquireOpens(d, st.lease, st.handle, l); } else { ReleaseCloses(d, st.released, l); }
  }

  lemma AcquireOpens(d: Desk, lease: LeaseId, h: HandleId, l: LeaseId)
    requires Next(d, Acquire(lease, h)).Some?
    ensures h !in Open(d, l)
    ensures Open(Next(d, Acquire(lease, h)).value, l) == if l == lease then Open(d, l) + {h} else Open(d, l)
  {
  }

  lemma ReleaseCloses(d: Desk, h: HandleId, l: LeaseId)
    requires Next(d, Release(h)).Some?
    ensures l == d.handles[h].lease ==> h in Open(d, l)
    ensures Open(Next(d, Release(h)).value, l) == Open(d, l) - {h}
  {
  }

  lemma LeaseStep(d: Desk, st: Step, l: LeaseId)
    requires DeskOk(d) && !st.Acquire? && !st.Release? && Next(d, st).Some?
    ensures LeaseOk(Next(d, st).value, l)
  {
    var e := Next(d, st).value;
    assert LeaseOk(d, l) && Open(e, l) == Open(d, l);
    assert st.Issue? && l == st.id ==> Open(d, l) == {};
    if st.Begin? { assert LeaseOk(d, d.active.value); }
    if st.RemoteDone? { assert LeaseOk(d, d.retirement.value); }
  }

  lemma StepKeepsOk(d: Desk, st: Step)
    requires DeskOk(d) && Next(d, st).Some?
    ensures DeskOk(Next(d, st).value)
  {
    forall l ensures LeaseOk(Next(d, st).value, l) {
      if st.Acquire? || st.Release? { HandleStep(d, st, l); } else { LeaseStep(d, st, l); }
    }
  }

  function Take(d: Desk, st: Step): Desk {
    if Next(d, st).Some? then Next(d, st).value else d
  }

  function Run(d: Desk, steps: seq<Step>): Desk {
    if steps == [] then d else Take(Run(d, steps[..|steps| - 1]), steps[|steps| - 1])
  }

  const NEW_DESK := Desk(map[], map[], None, None)

  /** In every interleaving the counter of a lease is the number of its handles that have
      not been released, and a lease that is retiring or retired has none. */
  lemma {:induction false} CheckoutIsExact(d: Desk, steps: seq<Step>)
    requires DeskOk(d)
    ensures DeskOk(Run(d, steps))
  {
    if steps != [] {
      var front, st := Run(d, steps[..|steps| - 1]), steps[|steps| - 1];
      CheckoutIsExact(d, steps[..|steps| - 1]);
      if Next(front, st).Some? { StepKeepsOk(front, st); }
    }
  }

  lemma NewDeskIsExact(steps: seq<Step>, l: LeaseId)
    requires l in Run(NEW_DESK, steps).leases
    ensures var d := Run(NEW_DESK, steps);
            && d.leases[l].inFlight == |Open(d, l)|
            && (d.leases[l].retiring || d.leases[l].retired ==> d.leases[l].inFlight == 0)
  {
    CheckoutIsExact(NEW_DESK, steps);
    assert LeaseOk(Run(NEW_DESK, steps), l);
  }

  /** A release lowers the counter by exactly one the first time, and later ones do nothing. */
  lemma DoubleReleaseCountsOnce(d: Desk, h: HandleId)
    requires DeskOk(d) && Next(d, Release(h)).Some?
    ensures var e := Next(d, Release(h)).value;
            var l := d.handles[h].lease;
            e.leases[l].inFlight + 1 == d.leases[l].inFlight && Next(e, Release(h)).None?
  {
    assert h in Open(d, d.handles[h].lease) && LeaseOk(d, d.handles[h].lease);
  }

  /** No step of the run ends a retirement of l in failure. */
  ghost predicate NeverFails(d: Desk, steps: seq<Step>, l: LeaseId) {
    steps == []
    || (NeverFails(d, steps[..|steps| - 1], l)
        && (steps[|steps| - 1] == End(false) ==> Run(d, steps[..|steps| - 1]).retirement != Some(l)))
  }

  lemma ClosingIsEmpty(d: Desk, l: LeaseId)
    requires DeskOk(d) && Closing(d, l)
    ensures Open(d, l) == {}
  {
    assert LeaseOk(d, l);
  }

  lemma ClosingStays(d: Desk, st: Step, l: LeaseId)
    requires DeskOk(d) && Closing(d, l) && (st == End(false) ==> d.retirement != Some(l))
    ensures Closing(Take(d, st), l)
  {
  }

  /** Once the retirement of a lease has begun, no handle for it is given out again unless
      that very retirement fails, whatever else happens. */
  lemma {:induction false} NoKeyAfterRetirement(d: Desk, steps: seq<Step>, l: LeaseId, h: HandleId)
    requires DeskOk(d) && Closing(d, l) && NeverFails(d, steps, l)
    ensures Closing(Run(d, steps), l) && Open(Run(d, steps), l) == {}
    ensures Next(Run(d, steps), Acquire(l, h)).None?
  {
    CheckoutIsExact(d, steps);
    if steps != [] {
      NoKeyAfterRetirement(d, steps[..|steps| - 1], l, h);
      CheckoutIsExact(d, steps[..|steps| - 1]);
      ClosingStays(Run(d, steps[..|steps| - 1]), steps[|steps| - 1], l);
    }
    ClosingIsEmpty(Run(d, steps), l);
  }

  /** A key is handed out exactly when its lease is the active one and no retirement of it is
      pending. */
  lemma CheckoutIff(d: Desk, l: LeaseId, h: HandleId)
    requires DeskOk(d) && h !in d.handles
    ensures Next(d, Acquire(l, h)).Some? <==> d.active == Some(l) && d.retirement != Some(l)
  {
    assert LeaseOk(d, l);
  }

  /** The retirement of a lease fails while it is still the active one: keys are handed out
      again, and nothing else has changed. */
  lemma FailureReopens(d: Desk, l: LeaseId, h: HandleId)
    requires DeskOk(d) && d.retirement == Some(l) && h !in d.handles
    ensures Next(d, End(false)).Some?
    ensures var e := Next(d, End(false)).value;
            && (d.active == Some(l) ==> Next(e, Acquire(l, h)).Some?)
            && e.retirement.None? && e.active == d.active && e.handles == d.handles && e.leases.Keys == d.leases.Keys
            && forall k :: k in d.leases && (k != l || d.active != Some(l)) ==> e.leases[k] == d.leases[k]
  {
    StepKeepsOk(d, End(false));
    CheckoutIff(Next(d, End(false)).value, l, h);
  }

  /** A retirement that begins and fails with nothing in between leaves no trace. */
  lemma FailureUndoesBegin(d: Desk, hasJournal: bool, e: Desk)
    requires DeskOk(d) && Next(d, Begin(hasJournal)) == Some(e)
    ensures Next(e, End(false)) == Some(d)
  {
    var l := d.active.value;
    var f := Next(e, End(false)).value;
    assert f.leases[l] == d.leases[l];
    assert f.leases == d.leases;
  }

  /** A successful one leaves no active lease, so the next request must lease a new key. */
  lemma SuccessCloses(d: Desk, l: LeaseId, h: HandleId)
    requires DeskOk(d) && d.retirement.Some?
    ensures Next(d, End(true)).Some? && Next(d, End(true)).value.active.None?
    ensures Next(d, End(true)).value.retirement.None? && Next(Next(d, End(true)).value, Acquire(l, h)).None?
  {
  }

  lemma RetiredStays(d: Desk, st: Step, l: LeaseId)
    requires l in d.leases && d.leases[l].retired
    ensures l in Take(d, st).leases && Take(d, st).leases[l].retired
  {
  }

  /** Once the server has disabled the key, no later failure makes it available again. */
  lemma {:induction false} RetiredForever(d: Desk, steps: seq<Step>, l: LeaseId, h: HandleId)
    requires DeskOk(d) && l in d.leases && d.leases[l].retired
    ensures l in Run(d, steps).leases && Run(d, steps).leases[l].retired && Run(d, steps).active != Some(l)
    ensures Next(Run(d, steps), Acquire(l, h)).None? && Open(Run(d, steps), l) == {}
  {
    CheckoutIsExact(d, steps);
    if steps != [] {
      RetiredForever(d, steps[..|steps| - 1], l, h);
      RetiredStays(Run(d, steps[..|steps| - 1]), steps[|steps| - 1], l);
    }
    assert LeaseOk(Run(d, steps), l);
  }

  /** The lease part of the wallet runtime. */
  class LeaseHolder {
    var leases: map<LeaseId, Lease>
    var handles: map<HandleId, Handle>
    var active: Option<LeaseId>
    var retirement: Option<LeaseId>

    function View(): Desk
      reads this
    {
      Desk(leases, handles, active, retirement)
    }

    ghost predicate Valid()
      reads this
    {
      DeskOk(View())
    }

    constructor ()
      ensures Valid() && View() == NEW_DESK
    {
      leases, handles, active, retirement := map[], map[], None, None;
    }

    method IssueLease(id: LeaseId)
      requires Valid() && id !in leases
      modifies this
      ensures Valid() && Next(old(View()), Issue(id)) == Some(View())
    {
      StepKeepsOk(View(), Issue(id));
      leases := leases[id := Lease(0, false, false)];
      active := Some(id);
    }

    /** The lease was looked up before an await, so it is checked again here. */
    method AcquireKey(l: LeaseId, h: HandleId) returns (ok: bool)
      requires Valid() && h !in handles
      modifies this
      ensures Valid() && ok == Next(old(View()), Acquire(l, h)).Some?
      ensures View() == if ok then Next(old(View()), Acquire(l, h)).value else old(View())
    {
      if active != Some(l) || leases[l].retiring || leases[l].retired { return false; }
      StepKeepsOk(View(), Acquire(l, h));
      leases := leases[l := leases[l].(inFlight := leases[l].inFlight + 1)];
      handles := handles[h := Handle(l, false)];
      return true;
    }

    method ReleaseKey(h: HandleId)
      requires Valid() && h in handles
      modifies this
      ensures Valid() && View() == Take(old(View()), Release(h))
    {
      if handles[h].released { return; }
      StepKeepsOk(View(), Release(h));
      var l := handles[h].lease;
      var n := leases[l].inFlight - 1;
      leases := leases[l := leases[l].(inFlight := if n < 0 then 0 else n)];
      handles := handles[h := Handle(l, true)];
    }

    method BeginRetirement(hasJournal: bool) returns (ok: bool)
      requires Valid()
      modifies this
      ensures Valid() && ok == Next(old(View()), Begin(hasJournal)).Some?
      ensures View() == if ok then Next(old(View()), Begin(hasJournal)).value else old(View())
    {
      if retirement.Some? || active.None? || !hasJournal { return false; }
      var l := active.value;
      if leases[l].inFlight > 0 { return false; }
      StepKeepsOk(View(), Begin(hasJournal));
      leases := leases[l := leases[l].(retiring := true)];
      retirement := active;
      return true;
    }

    method RemoteRetired()
      requires Valid() && retirement.Some?
      modifies this
      ensures Valid() && Next(old(View()), RemoteDone) == Some(View())
    {
      StepKeepsOk(View(), RemoteDone);
      var l := retirement.value;
      leases := leases[l := leases[l].(retired := true)];
      if active == Some(l) { active := None; }
    }

    method EndRetirement(ok: bool)
      requires Valid() && retirement.Some?
      modifies this
      ensures Valid() && Next(old(View()), End(ok)) == Some(View())
    {
      StepKeepsOk(View(), End(ok));
      if ok { active := None; }
      if active == retirement { leases := leases[retirement.value := leases[retirement.value].(retiring := false)]; }
      retirement := None;
    }
  }
}
