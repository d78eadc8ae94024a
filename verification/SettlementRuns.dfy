/** Every interleaving of the settlement operations.  Reserving, warming and recovering drop the lock
    while they ask the provisioner, so each is two steps of its own thread; the provisioner may
    answer anything. */
module SettlementRuns {
  import opened Options
  import opened Settlement

  /** Where a thread stands between two of its locked sections. */
  datatype Thread =
    | Reserving(org: string, binding: nat, snapshot: Pool, needed: nat)
    | Holding(reservation: nat)
    | Warming(org: string, binding: nat)
    | Recovering(org: string, binding: nat)

  datatype Office = Office(desk: Desk, threads: map<nat, Thread>)

  datatype Event =
    | RegisterBinding(org: string)
    | VerifyBinding(id: nat)
    | SuspendBinding(id: nat)
    | ReportDisconnect(org: string)
    | StartReserve(thread: nat, org: string, carrier: CarrierBinding, budget: nat, bufferBps: int)
    | EndReserve(thread: nat, answer: Option<Provision>)
    | AttachOrder(thread: nat, order: nat)
    | Abandon(thread: nat)
    | StartWarm(thread: nat, org: string)
    | EndWarm(thread: nat, answer: Option<Provision>)
    | StartRecover(thread: nat, org: string)
    | EndRecover(thread: nat, answer: Option<Provision>)
    | CompleteOrder(order: nat)

  function Spawn(o: Office, t: nat, thread: Thread): Office {
    o.(threads := o.threads[t := thread])
  }

  function Done(o: Office, t: nat, d: Desk): Office {
    Office(d, o.threads - {t})
  }

  predicate Idle(o: Office, t: nat) { t !in o.threads }

  function Apply(o: Office, e: Event): Office {
    var d := o.desk;
    match e
    case RegisterBinding(org) => o.(desk := Register(d, org))
    case VerifyBinding(id) => o.(desk := Verify(d, id))
    case SuspendBinding(id) => o.(desk := Suspend(d, id))
    case ReportDisconnect(org) => o.(desk := PoolDisconnected(d, org))
    case StartReserve(t, org, carrier, budget, bps) =>
      if Idle(o, t) && BeginReserve(d, org, carrier).Asking?
      then
        var a := BeginReserve(d, org, carrier);
        Spawn(o, t, Reserving(org, a.binding, a.pool, NeededReserve(budget, bps)))
      else o
    case EndReserve(t, answer) =>
      if !Idle(o, t) && o.threads[t].Reserving? then
        var th := o.threads[t];
        if answer.Some? && Sufficient(th.snapshot, th.needed, answer.value)
        then Spawn(o.(desk := CommitReserve(d, th.org, th.binding, th.needed, answer.value)), t,
                   Holding(|d.reservations|))
        else Done(o, t, d)
      else o
    case AttachOrder(t, order) =>
      if !Idle(o, t) && o.threads[t].Holding? then Done(o, t, Attach(d, o.threads[t].reservation, order)) else o
    case Abandon(t) =>
      if !Idle(o, t) && o.threads[t].Holding? then Done(o, t, Release(d, o.threads[t].reservation)) else o
    case StartWarm(t, org) =>
      if Idle(o, t) && BeginWarm(d, org).Asking? then Spawn(o, t, Warming(org, BeginWarm(d, org).binding)) else o
    case EndWarm(t, answer) =>
      if !Idle(o, t) && o.threads[t].Warming? then
        var th := o.threads[t];
        Done(o, t, if answer.Some? then CommitTotal(d, th.org, th.binding, answer.value) else d)
      else o
    case StartRecover(t, org) =>
      var (d', a) := BeginRecover(d, org);
      if Idle(o, t) && a.Asking? then Spawn(o.(desk := d'), t, Recovering(org, a.binding)) else o
    case EndRecover(t, answer) =>
      if !Idle(o, t) && o.threads[t].Recovering? then
        var th := o.threads[t];
        Done(o, t, if answer.Some? then CommitTotal(d, th.org, th.binding, answer.value) else FailRecover(d, th.org))
      else o
    case CompleteOrder(order) =>
      if order in d.byOrder then o.(desk := Release(d, d.byOrder[order])) else o
  }

  function Run(o: Office, events: seq<Event>): Office {
    if events == [] then o else Apply(Run(o, events[..|events| - 1]), events[|events| - 1])
  }

  const OPENING := Office(Desk([], map[], map[], [], map[]), map[])

  // ---- Reservations and who may release them ----

  /** A reservation is still a thread's own exactly as long as it is merely reserved; the index of
      orders leads to the others only. */
  ghost predicate Owned(o: Office) {
    var rs := o.desk.reservations;
    && (forall i :: 0 <= i < |rs| ==> rs[i].cents >= 0)
    && (forall t :: t in o.threads && o.threads[t].Holding? ==>
          o.threads[t].reservation < |rs| && rs[o.threads[t].reservation].status == Reserved)
    && (forall t, u :: t in o.threads && u in o.threads && t != u && o.threads[t].Holding? && o.threads[u].Holding? ==>
          o.threads[t].reservation != o.threads[u].reservation)
    && (forall n :: n in o.desk.byOrder ==>
          o.desk.byOrder[n] < |rs| && rs[o.desk.byOrder[n]].status != Reserved)
  }

  /** The events that neither add a reservation nor change one. */
  predicate Quiet(e: Event) {
    !e.EndReserve? && !e.AttachOrder? && !e.Abandon? && !e.CompleteOrder?
  }

  lemma QuietFrame(o: Office, e: Event)
    requires Quiet(e)
    ensures var q := Apply(o, e);
            && q.desk.reservations == o.desk.reservations && q.desk.byOrder == o.desk.byOrder
            && forall t :: t in q.threads && q.threads[t].Holding? ==> t in o.threads && o.threads[t] == q.threads[t]
  {
  }

  lemma OwnedReserve(o: Office, t: nat, answer: Option<Provision>)
    requires Owned(o)
    ensures Owned(Apply(o, EndReserve(t, answer)))
  {
  }

  lemma OwnedAttach(o: Office, t: nat, order: nat)
    requires Owned(o)
    ensures Owned(Apply(o, AttachOrder(t, order)))
  {
  }

  lemma OwnedAbandon(o: Office, t: nat)
    requires Owned(o)
    ensures Owned(Apply(o, Abandon(t)))
  {
  }

  lemma OwnedComplete(o: Office, order: nat)
    requires Owned(o)
    ensures Owned(Apply(o, CompleteOrder(order)))
  {
  }

  lemma OwnedStep(o: Office, e: Event)
    requires Owned(o)
    ensures Owned(Apply(o, e))
  {
    match e
    case EndReserve(t, answer) => OwnedReserve(o, t, answer);
    case AttachOrder(t, order) => OwnedAttach(o, t, order);
    case Abandon(t) => OwnedAbandon(o, t);
    case CompleteOrder(order) => OwnedComplete(o, order);
    case _ => QuietFrame(o, e);
  }

  // ---- Pools against reservations ----

  function ReservedOf(d: Desk, org: string): int { PoolOf(d, org).reserved }

  /** What a pool counts as reserved is never negative and never more than is outstanding. */
  ghost predicate Bounded(d: Desk) {
    forall org :: 0 <= ReservedOf(d, org) <= Outstanding(d.reservations, org)
  }

  /** What a pool counts as reserved is exactly what is outstanding. */
  ghost predicate Exact(d: Desk) {
    forall org :: ReservedOf(d, org) == Outstanding(d.reservations, org)
  }

  lemma {:induction false} OutstandingUpdate(rs: seq<Reservation>, i: nat, r: Reservation, org: string)
    requires i < |rs| && r.provider == rs[i].provider && r.cents == rs[i].cents
    ensures Outstanding(rs[i := r], org) == Outstanding(rs, org)
            + (if r.provider == org && r.status != ReleasedReservation then r.cents else 0)
            - (if r.provider == org && rs[i].status != ReleasedReservation then r.cents else 0)
  {
    var n := |rs| - 1;
    if i == n {
      assert rs[i := r][..n] == rs[..n];
    } else {
      assert rs[i := r][..n] == rs[..n][i := r];
      OutstandingUpdate(rs[..n], i, r, org);
    }
  }

  lemma {:induction false} OutstandingCovers(rs: seq<Reservation>, i: nat, org: string)
    requires forall j :: 0 <= j < |rs| ==> rs[j].cents >= 0
    ensures Outstanding(rs, org) >= 0
    ensures i < |rs| && rs[i].provider == org && rs[i].status != ReleasedReservation ==>
            Outstanding(rs, org) >= rs[i].cents
  {
    if rs != [] {
      OutstandingCovers(rs[..|rs| - 1], i, org);
    }
  }

  /** From one state to the next a provider's pool stays within, or on, what is outstanding. */
  ghost predicate Follows(d: Desk, q: Desk, org: string) {
    0 <= ReservedOf(d, org) <= Outstanding(d.reservations, org) ==>
      && 0 <= ReservedOf(q, org) <= Outstanding(q.reservations, org)
      && (ReservedOf(d, org) == Outstanding(d.reservations, org) ==>
          ReservedOf(q, org) == Outstanding(q.reservations, org))
  }

  /** Releasing takes the same amount from both sides; a pool that counts too little stops at zero. */
  lemma ReleaseFollows(d: Desk, r: nat, org: string)
    requires forall j :: 0 <= j < |d.reservations| ==> d.reservations[j].cents >= 0
    ensures Follows(d, Release(d, r), org)
  {
    OutstandingCovers(d.reservations, r, org);
    if r < |d.reservations| {
      OutstandingUpdate(d.reservations, r, d.reservations[r].(status := ReleasedReservation), org);
    }
  }

  lemma CommitFollows(d: Desk, org: string, binding: nat, needed: nat, result: Provision, any: string)
    ensures Follows(d, CommitReserve(d, org, binding, needed, result), any)
  {
  }

  lemma AttachFollows(d: Desk, r: nat, order: nat, org: string)
    requires r < |d.reservations| && d.reservations[r].status != ReleasedReservation
    ensures Follows(d, Attach(d, r, order), org)
  {
    OutstandingUpdate(d.reservations, r, d.reservations[r].(order := Some(order), status := ActiveReservation), org);
  }

  /** Of the quiet events only a verification changes what a pool counts. */
  lemma QuietMoney(o: Office, e: Event, org: string)
    requires Quiet(e)
    ensures var d := Apply(o, e).desk;
            ReservedOf(d, org) ==
            if e.VerifyBinding? && e.id < |o.desk.bindings| && o.desk.bindings[e.id].provider == org then 0
            else ReservedOf(o.desk, org)
  {
  }

  lemma StepFollows(o: Office, e: Event, org: string)
    requires Owned(o) && !Careless(o, e)
    ensures Follows(o.desk, Apply(o, e).desk, org)
  {
    var d := o.desk;
    match e
    case EndReserve(t, answer) =>
      if t in o.threads && o.threads[t].Reserving? && answer.Some? {
        var th := o.threads[t];
        CommitFollows(d, th.org, th.binding, th.needed, answer.value, org);
      }
    case AttachOrder(t, order) =>
      if t in o.threads && o.threads[t].Holding? {
        AttachFollows(d, o.threads[t].reservation, order, org);
      }
    case Abandon(t) =>
      if t in o.threads && o.threads[t].Holding? {
        ReleaseFollows(d, o.threads[t].reservation, org);
      }
    case CompleteOrder(order) =>
      if order in d.byOrder {
        ReleaseFollows(d, d.byOrder[order], org);
      }
    case _ =>
      QuietMoney(o, e, org);
      QuietFrame(o, e);
  }

  /** A verification of a provider that has reservations outstanding. */
  predicate Careless(o: Office, e: Event) {
    e.VerifyBinding? && e.id < |o.desk.bindings| &&
    Outstanding(o.desk.reservations, o.desk.bindings[e.id].provider) != 0
  }

  /** No event of the run is such a verification. */
  predicate Careful(o: Office, events: seq<Event>) {
    if events == [] then true
    else
      var past := events[..|events| - 1];
      Careful(o, past) && !Careless(Run(o, past), events[|events| - 1])
  }

  lemma {:induction false} RunOwned(events: seq<Event>)
    ensures Owned(Run(OPENING, events))
  {
    if events != [] {
      RunOwned(events[..|events| - 1]);
      OwnedStep(Run(OPENING, events[..|events| - 1]), events[|events| - 1]);
    }
  }

  /** In every interleaved run, every pool counts between zero and what is outstanding. */
  lemma {:induction false} PoolsBounded(events: seq<Event>)
    ensures Bounded(Run(OPENING, events).desk)
  {
    if events != [] {
      var o, e := Run(OPENING, events[..|events| - 1]), events[|events| - 1];
      PoolsBounded(events[..|events| - 1]);
      RunOwned(events[..|events| - 1]);
      forall org
        ensures 0 <= ReservedOf(Apply(o, e).desk, org) <= Outstanding(Apply(o, e).desk.reservations, org)
      {
        if Careless(o, e) {
          QuietMoney(o, e, org);
          QuietFrame(o, e);
        } else {
          StepFollows(o, e, org);
        }
      }
    }
  }

  /** In every interleaved run that verifies a binding only while its provider has nothing outstanding,
      every pool counts exactly what is outstanding. */
  lemma {:induction false} PoolsExact(events: seq<Event>)
    requires Careful(OPENING, events)
    ensures Exact(Run(OPENING, events).desk)
  {
    if events != [] {
      var n := |events| - 1;
      var t := events[..n];
      var o := Run(OPENING, t);
      PoolsExact(t);
      PoolsBounded(t);
      RunOwned(t);
      forall org
        ensures ReservedOf(Run(OPENING, events).desk, org) == Outstanding(Run(OPENING, events).desk.reservations, org)
      {
        assert 0 <= ReservedOf(o.desk, org) <= Outstanding(o.desk.reservations, org);
        StepFollows(o, events[n], org);
      }
    }
  }

  /** And the first careless verification makes its provider's pool count too little. */
  lemma CarelessBreaks(events: seq<Event>, e: Event)
    requires Careless(Run(OPENING, events), e)
    ensures !Exact(Run(OPENING, events + [e]).desk)
  {
  }
}
