/** Every run of the platform is, at the provider liquidity desk, a run of the interleaved model in which no call
    is ever interrupted; so the pools of the platform keep what pools keep under any interleaving. */
module DeskRuns {
  import opened Options
  import opened Workflow
  import opened Settlement
  import opened Platform
  import opened PlatformRuns
  import OrderRuns
  import Market
  import Threads = SettlementRuns

  /** The desk with no call under way. */
  function Quiet(d: Desk): Threads.Office { Threads.Office(d, map[]) }

  /** The locked sections a platform event goes through, on a thread of its own. */
  function Sections(s: State, e: Event): seq<Threads.Event> {
    match e
    case Award(rfq, winner, funding, carrier, bps, answer) =>
      if AwardAdmitted(s, rfq, winner, funding) && Awardable(s, rfq, winner)
      then AwardSections(s, rfq, winner, funding, carrier, bps, answer)
      else []
    case SettleMilestone(n, id, summary, anomalies) =>
      if n < |s.orders| && Settle(s.orders[n], id, summary).Ok? && Finishes(s.orders[n], id, summary, anomalies)
      then [Threads.CompleteOrder(n)] else []
    case ReportDisconnect(org) => [Threads.ReportDisconnect(org)]
    case RecoverProvider(org, answer) =>
      if BeginRecover(s.desk, org).1.Asking? then [Threads.StartRecover(0, org), Threads.EndRecover(0, answer)] else []
    case WarmPool(org, answer) =>
      if BeginWarm(s.desk, org).Asking? then [Threads.StartWarm(0, org), Threads.EndWarm(0, answer)] else []
    case RegisterBinding(org) => [Threads.RegisterBinding(org)]
    case VerifyBinding(b) => [Threads.VerifyBinding(b)]
    case SuspendBinding(b) => [Threads.SuspendBinding(b)]
    case _ => []
  }

  predicate Finishes(o: Order, id: string, summary: string, anomalies: seq<string>)
    requires Settle(o, id, summary).Ok?
  {
    var done := OrderRuns.AfterSettle(Settle(o, id, summary).value.0, id, anomalies);
    AllSettled(done.milestones) && done.status == Completed
  }

  function AwardSections(s: State, rfq: nat, winner: nat, funding: FundingMode, carrier: CarrierBinding, bps: int,
                         answer: Option<Provision>): seq<Threads.Event>
    requires Awardable(s, rfq, winner)
  {
    var b := s.bids[winner];
    var budget := Market.Budget(b.milestones);
    if budget < 0 || !Reserving(s.desk, b.provider, carrier, NeededReserve(budget, bps), answer).Made? then []
    else [Threads.StartReserve(0, b.provider, carrier, budget, bps), Threads.EndReserve(0, answer),
          Last(OrderAllowed(s, InputOf(s, rfq, winner, funding)), |s.orders|)]
  }

  lemma RunOne(o: Threads.Office, a: Threads.Event)
    ensures Threads.Run(o, [a]) == Threads.Apply(o, a)
  {
    assert [a][..0] == [];
  }

  lemma RunTwo(o: Threads.Office, a: Threads.Event, b: Threads.Event)
    ensures Threads.Run(o, [a, b]) == Threads.Apply(Threads.Apply(o, a), b)
  {
    RunOne(o, a);
    assert [a, b][..1] == [a];
  }

  lemma RunThree(o: Threads.Office, a: Threads.Event, b: Threads.Event, c: Threads.Event)
    ensures Threads.Run(o, [a, b, c]) == Threads.Apply(Threads.Apply(Threads.Apply(o, a), b), c)
  {
    RunTwo(o, a, b);
    assert [a, b, c][..2] == [a, b];
  }

  /** The desk with one call under way. */
  function Busy(d: Desk, t: Threads.Thread): Threads.Office { Threads.Office(d, map[0 := t]) }

  lemma StartAtDesk(d: Desk, org: string, carrier: CarrierBinding, budget: nat, bps: int)
    requires BeginReserve(d, org, carrier).Asking?
    ensures var a := BeginReserve(d, org, carrier);
            Threads.Apply(Quiet(d), Threads.StartReserve(0, org, carrier, budget, bps)) ==
            Busy(d, Threads.Reserving(org, a.binding, a.pool, NeededReserve(budget, bps)))
  {
  }

  lemma EndAtDesk(d: Desk, org: string, b: nat, p: Pool, needed: nat, answer: Option<Provision>)
    requires answer.Some? && Sufficient(p, needed, answer.value)
    ensures Threads.Apply(Busy(d, Threads.Reserving(org, b, p, needed)), Threads.EndReserve(0, answer)) ==
            Busy(CommitReserve(d, org, b, needed, answer.value), Threads.Holding(|d.reservations|))
  {
    assert map[0 := Threads.Reserving(org, b, p, needed)][0 := Threads.Holding(|d.reservations|)] ==
           map[0 := Threads.Holding(|d.reservations|)];
  }

  /** A reservation from start to end without interruption. */
  lemma ReserveWhole(d: Desk, org: string, carrier: CarrierBinding, budget: nat, bps: int, answer: Option<Provision>,
                     last: Threads.Event)
    requires Reserving(d, org, carrier, NeededReserve(budget, bps), answer).Made?
    ensures var m := Reserving(d, org, carrier, NeededReserve(budget, bps), answer);
            var start := Threads.StartReserve(0, org, carrier, budget, bps);
            Threads.Run(Quiet(d), [start, Threads.EndReserve(0, answer), last]) ==
            Threads.Apply(Busy(m.desk, Threads.Holding(m.reservation)), last)
  {
    var a := BeginReserve(d, org, carrier);
    RunThree(Quiet(d), Threads.StartReserve(0, org, carrier, budget, bps), Threads.EndReserve(0, answer), last);
    StartAtDesk(d, org, carrier, budget, bps);
    EndAtDesk(d, org, a.binding, a.pool, NeededReserve(budget, bps), answer);
  }

  lemma ConcludedDesk(s: State, rfq: nat, winner: nat, funding: FundingMode, r: Option<nat>)
    requires Awardable(s, rfq, winner)
    ensures Concluded(s, rfq, winner, funding, r).0.desk ==
            if r.None? then s.desk
            else if OrderAllowed(s, InputOf(s, rfq, winner, funding)) then Attach(s.desk, r.value, |s.orders|)
            else Release(s.desk, r.value)
  {
  }

  /** What the thread that holds a reservation does last. */
  function Last(allowed: bool, order: nat): Threads.Event {
    if allowed then Threads.AttachOrder(0, order) else Threads.Abandon(0)
  }

  lemma LastAtDesk(d: Desk, r: nat, allowed: bool, order: nat)
    ensures Threads.Apply(Busy(d, Threads.Holding(r)), Last(allowed, order)) ==
            Quiet(if allowed then Attach(d, r, order) else Release(d, r))
  {
    assert map[0 := Threads.Holding(r)] - {0} == map[];
  }

  lemma AwardAtDesk(s: State, rfq: nat, winner: nat, funding: FundingMode, carrier: CarrierBinding, bps: int,
                    answer: Option<Provision>)
    requires Awardable(s, rfq, winner) && Market.Budget(s.bids[winner].milestones) >= 0
    ensures Threads.Run(Quiet(s.desk), AwardSections(s, rfq, winner, funding, carrier, bps, answer)) ==
            Quiet(Awarded(s, rfq, winner, funding, carrier, bps, answer).0.desk)
  {
    var b := s.bids[winner];
    var budget := Market.Budget(b.milestones);
    match Reserving(s.desk, b.provider, carrier, NeededReserve(budget, bps), answer)
    case Made(d, r) =>
      var allowed := OrderAllowed(s, InputOf(s, rfq, winner, funding));
      ReserveWhole(s.desk, b.provider, carrier, budget, bps, answer, Last(allowed, |s.orders|));
      LastAtDesk(d, r, allowed, |s.orders|);
      ConcludedDesk(s.(desk := d), rfq, winner, funding, Some(r));
    case Unneeded => ConcludedDesk(s, rfq, winner, funding, None);
    case Denied =>
  }

  /** A settlement touches the desk only if it completes an order that holds a reservation. */
  lemma SettledDesk(s: State, n: nat, id: string, summary: string, anomalies: seq<string>)
    ensures SettledAt(s, n, id, summary, anomalies).desk ==
            if n < |s.orders| && Settle(s.orders[n], id, summary).Ok? &&
               Finishes(s.orders[n], id, summary, anomalies) && n in s.desk.byOrder
            then Release(s.desk, s.desk.byOrder[n]) else s.desk
  {
  }

  lemma SettleAtDesk(s: State, n: nat, id: string, summary: string, anomalies: seq<string>)
    ensures Threads.Run(Quiet(s.desk), Sections(s, SettleMilestone(n, id, summary, anomalies))) ==
            Quiet(SettledAt(s, n, id, summary, anomalies).desk)
  {
    SettledDesk(s, n, id, summary, anomalies);
    RunOne(Quiet(s.desk), Threads.CompleteOrder(n));
  }

  /** Events with one section, and events without any. */
  lemma SimpleAtDesk(s: State, e: Event)
    requires !e.Award? && !e.SettleMilestone? && !e.RecoverProvider? && !e.WarmPool?
    ensures Threads.Run(Quiet(s.desk), Sections(s, e)) == Quiet(Platform.Apply(s, e).desk)
  {
    if |Sections(s, e)| > 0 {
      RunOne(Quiet(s.desk), Sections(s, e)[0]);
    }
  }

  lemma RecoverAtDesk(s: State, org: string, answer: Option<Provision>)
    ensures Threads.Run(Quiet(s.desk), Sections(s, RecoverProvider(org, answer))) ==
            Quiet(Restored(s, org, answer).0.desk)
  {
    var (d, a) := BeginRecover(s.desk, org);
    if a.Asking? {
      RunTwo(Quiet(s.desk), Threads.StartRecover(0, org), Threads.EndRecover(0, answer));
      assert map[0 := Threads.Recovering(org, a.binding)] - {0} == map[];
    }
  }

  lemma WarmAtDesk(s: State, org: string, answer: Option<Provision>)
    ensures Threads.Run(Quiet(s.desk), Sections(s, WarmPool(org, answer))) == Quiet(Warmed(s, org, answer).desk)
  {
    var a := BeginWarm(s.desk, org);
    if a.Asking? {
      RunTwo(Quiet(s.desk), Threads.StartWarm(0, org), Threads.EndWarm(0, answer));
      assert map[0 := Threads.Warming(org, a.binding)] - {0} == map[];
    }
  }

  /** At the desk, an event is its locked sections. */
  lemma EventAtDesk(s: State, e: Event)
    requires Orderly(s)
    ensures Threads.Run(Quiet(s.desk), Sections(s, e)) == Quiet(Platform.Apply(s, e).desk)
  {
    match e
    case Award(rfq, winner, funding, carrier, bps, answer) =>
      if Awardable(s, rfq, winner) {
        BudgetSane(s.bids[winner].milestones);
        AwardAtDesk(s, rfq, winner, funding, carrier, bps, answer);
      }
    case SettleMilestone(n, id, summary, anomalies) => SettleAtDesk(s, n, id, summary, anomalies);
    case RecoverProvider(org, answer) => RecoverAtDesk(s, org, answer);
    case WarmPool(org, answer) => WarmAtDesk(s, org, answer);
    case _ => SimpleAtDesk(s, e);
  }

  lemma {:induction false} BudgetSane(ms: seq<MilestoneInput>)
    requires forall i :: 0 <= i < |ms| ==> ms[i].budget >= 0
    ensures Market.Budget(ms) >= 0
  {
    if ms != [] {
      BudgetSane(ms[..|ms| - 1]);
    }
  }

  // ---- Runs ----

  lemma {:induction false} RunAppend(o: Threads.Office, a: seq<Threads.Event>, b: seq<Threads.Event>)
    ensures Threads.Run(o, a + b) == Threads.Run(Threads.Run(o, a), b)
  {
    if b == [] {
      assert a + b == a;
    } else {
      RunAppend(o, a, b[..|b| - 1]);
      assert (a + b)[..|a + b| - 1] == a + b[..|b| - 1];
    }
  }

  lemma {:induction false} CarefulAppend(o: Threads.Office, a: seq<Threads.Event>, b: seq<Threads.Event>)
    requires Threads.Careful(o, a) && Threads.Careful(Threads.Run(o, a), b)
    ensures Threads.Careful(o, a + b)
  {
    if b == [] {
      assert a + b == a;
    } else {
      var past := b[..|b| - 1];
      CarefulAppend(o, a, past);
      RunAppend(o, a, past);
      assert (a + b)[..|a + b| - 1] == a + past;
    }
  }

  /** Without verifications there is nothing to be careful about. */
  lemma {:induction false} CarefulAnyway(o: Threads.Office, events: seq<Threads.Event>)
    requires forall n :: 0 <= n < |events| ==> !events[n].VerifyBinding?
    ensures Threads.Careful(o, events)
  {
    if events != [] {
      CarefulAnyway(o, events[..|events| - 1]);
    }
  }

  /** The event verifies a binding whose provider has something outstanding. */
  predicate Hasty(s: State, e: Event) {
    && e.VerifyBinding? && e.binding < |s.desk.bindings|
    && Outstanding(s.desk.reservations, s.desk.bindings[e.binding].provider) != 0
  }

  predicate Unhurried(s: State, events: seq<Event>) {
    if events == [] then true
    else
      var past := events[..|events| - 1];
      Unhurried(s, past) && !Hasty(Platform.Run(s, past), events[|events| - 1])
  }

  lemma SectionsCareful(s: State, e: Event)
    requires !Hasty(s, e)
    ensures Threads.Careful(Quiet(s.desk), Sections(s, e))
  {
    if e.VerifyBinding? {
      assert Sections(s, e)[..0] == [];
    } else {
      CarefulAnyway(Quiet(s.desk), Sections(s, e));
    }
  }

  /** Every platform run is at the desk an interleaved run, and a careful one if the platform's is. */
  lemma {:induction false} RunAtDesk(limits: map<string, int>, events: seq<Event>)
    returns (sections: seq<Threads.Event>)
    requires AllSane(events)
    ensures Threads.Run(Threads.OPENING, sections) == Quiet(Platform.Run(Start(limits), events).desk)
    ensures Unhurried(Start(limits), events) ==> Threads.Careful(Threads.OPENING, sections)
  {
    sections := [];
    if events != [] {
      var past, e := events[..|events| - 1], events[|events| - 1];
      assert forall i :: 0 <= i < |past| ==> past[i] == events[i];
      sections := RunAtDesk(limits, past);
      var s := Platform.Run(Start(limits), past);
      RunLinked(Start(limits), past);
      RunOrderly(Start(limits), past);
      EventAtDesk(s, e);
      RunAppend(Threads.OPENING, sections, Sections(s, e));
      if Unhurried(Start(limits), events) {
        SectionsCareful(s, e);
        CarefulAppend(Threads.OPENING, sections, Sections(s, e));
      }
      sections := sections + Sections(s, e);
    }
  }

  /** So in every platform run every pool counts between zero and what is outstanding, and exactly that
      if no binding is verified while its provider has something outstanding. */
  lemma PlatformPools(limits: map<string, int>, events: seq<Event>)
    requires AllSane(events)
    ensures Threads.Bounded(Platform.Run(Start(limits), events).desk)
    ensures Unhurried(Start(limits), events) ==> Threads.Exact(Platform.Run(Start(limits), events).desk)
  {
    var sections := RunAtDesk(limits, events);
    Threads.PoolsBounded(sections);
    if Unhurried(Start(limits), events) {
      Threads.PoolsExact(sections);
    }
  }
}
