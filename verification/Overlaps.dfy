/** What calls do to each other while the provisioner is asked without the lock. */
module Overlaps {
  import opened Options
  import opened Settlement
  import opened SettlementRuns
  import Fnn

  // ---- Pools that promise more than they hold ----

  function TotalOf(d: Desk, org: string): int { PoolOf(d, org).total }

  /** No pool has reserved more than its total. */
  ghost predicate Covered(d: Desk) { forall org :: ReservedOf(d, org) <= TotalOf(d, org) }

  /** The answer a call is about to write, and for which provider. */
  datatype Commit = NoCommit | Commit(org: string, needed: nat, answer: Provision)

  function CommitOf(o: Office, e: Event): Commit {
    match e
    case EndReserve(t, answer) =>
      if !Idle(o, t) && o.threads[t].Reserving? && answer.Some? &&
         Sufficient(o.threads[t].snapshot, o.threads[t].needed, answer.value)
      then Commit(o.threads[t].org, o.threads[t].needed, answer.value) else NoCommit
    case EndWarm(t, answer) =>
      if !Idle(o, t) && o.threads[t].Warming? && answer.Some? then Commit(o.threads[t].org, 0, answer.value)
      else NoCommit
    case EndRecover(t, answer) =>
      if !Idle(o, t) && o.threads[t].Recovering? && answer.Some? then Commit(o.threads[t].org, 0, answer.value)
      else NoCommit
    case _ => NoCommit
  }

  /** The answer does not cover what is reserved by the time it is written.  The program compares it with what
      was reserved when the provisioner was asked. */
  predicate Short(o: Office, e: Event) {
    match CommitOf(o, e)
    case NoCommit => false
    case Commit(org, needed, answer) => answer.total < ReservedOf(o.desk, org) + needed
  }

  lemma CommitWrites(o: Office, e: Event, any: string)
    requires CommitOf(o, e).Commit?
    ensures var c, d := CommitOf(o, e), Apply(o, e).desk;
            if any == c.org
            then ReservedOf(d, any) == ReservedOf(o.desk, any) + c.needed && TotalOf(d, any) == c.answer.total
            else PoolOf(d, any) == PoolOf(o.desk, any)
  {
  }

  lemma ReleaseLowers(d: Desk, r: nat, any: string)
    requires 0 <= ReservedOf(d, any) && forall j :: 0 <= j < |d.reservations| ==> d.reservations[j].cents >= 0
    ensures 0 <= ReservedOf(Release(d, r), any) <= ReservedOf(d, any) && TotalOf(Release(d, r), any) == TotalOf(d, any)
  {
  }

  /** Whatever writes no answer takes from the reserved amount, or starts the pool from nothing. */
  lemma OthersLower(o: Office, e: Event, any: string)
    requires Owned(o) && CommitOf(o, e).NoCommit? && 0 <= ReservedOf(o.desk, any)
    ensures var d := Apply(o, e).desk;
            || (ReservedOf(d, any) <= ReservedOf(o.desk, any) && TotalOf(d, any) == TotalOf(o.desk, any))
            || (ReservedOf(d, any) == 0 && TotalOf(d, any) == 0)
  {
    match e
    case Abandon(t) =>
      if t in o.threads && o.threads[t].Holding? {
        ReleaseLowers(o.desk, o.threads[t].reservation, any);
      }
    case CompleteOrder(n) =>
      if n in o.desk.byOrder {
        ReleaseLowers(o.desk, o.desk.byOrder[n], any);
      }
    case _ =>
  }

  /** A covered desk stays covered exactly if the event writes no short answer. */
  lemma CoveredStep(o: Office, e: Event)
    requires Owned(o) && Bounded(o.desk) && Covered(o.desk)
    ensures Covered(Apply(o, e).desk) <==> !Short(o, e)
  {
    var d := Apply(o, e).desk;
    if Short(o, e) {
      CommitWrites(o, e, CommitOf(o, e).org);
      assert ReservedOf(d, CommitOf(o, e).org) > TotalOf(d, CommitOf(o, e).org);
    } else {
      forall org ensures ReservedOf(d, org) <= TotalOf(d, org) {
        assert 0 <= ReservedOf(o.desk, org) <= TotalOf(o.desk, org);
        if CommitOf(o, e).Commit? {
          CommitWrites(o, e, org);
        } else {
          OthersLower(o, e, org);
        }
      }
    }
  }

  predicate NeverShort(o: Office, events: seq<Event>) {
    if events == [] then true
    else
      var past := events[..|events| - 1];
      NeverShort(o, past) && !Short(Run(o, past), events[|events| - 1])
  }

  /** In an interleaved run no pool promises more than it holds as long as no short answer is written, and the
      first one that is written breaks it. */
  lemma {:induction false} CoveredUntilShort(events: seq<Event>, next: Event)
    requires NeverShort(OPENING, events)
    ensures Covered(Run(OPENING, events).desk)
    ensures Covered(Apply(Run(OPENING, events), next).desk) <==> !Short(Run(OPENING, events), next)
  {
    if events == [] {
      assert Covered(OPENING.desk);
    } else {
      CoveredUntilShort(events[..|events| - 1], events[|events| - 1]);
    }
    RunOwned(events);
    PoolsBounded(events);
    CoveredStep(Run(OPENING, events), next);
  }

  /** The comparison with the snapshot is enough if nobody else has reserved in the meantime. */
  lemma AloneIsNotShort(o: Office, e: Event)
    requires e.EndReserve? && !Idle(o, e.thread) && o.threads[e.thread].Reserving?
    requires ReservedOf(o.desk, o.threads[e.thread].org) <= o.threads[e.thread].snapshot.reserved
    ensures !Short(o, e)
  {
  }

  // ---- Incidents reported while a call is under way ----

  /** The pool has been suspended or disconnected. */
  predicate Down(d: Desk, org: string) {
    PoolOf(d, org).status == SuspendedPool || PoolOf(d, org).status == DisconnectedPool
  }

  /** The events that take a pool out of that state: a verification, the start of a recovery, and the end of any
      call that was already asking when the incident was reported. */
  predicate Revives(o: Office, e: Event, org: string) {
    match e
    case VerifyBinding(id) => id < |o.desk.bindings| && o.desk.bindings[id].provider == org
    case StartRecover(t, x) => x == org && Idle(o, t) && BeginRecover(o.desk, org).1.Asking?
    case _ => CommitOf(o, e).Commit? && CommitOf(o, e).org == org
  }

  /** A commit always writes a healthy pool, whatever was reported since the provisioner was asked. */
  lemma CommitHeals(o: Office, e: Event)
    requires CommitOf(o, e).Commit?
    ensures PoolOf(Apply(o, e).desk, CommitOf(o, e).org).status == Healthy
  {
  }

  /** A suspension or disconnection survives an event exactly if that does not revive the pool. */
  lemma DownStep(o: Office, e: Event, org: string)
    requires Down(o.desk, org)
    ensures Down(Apply(o, e).desk, org) <==> !Revives(o, e, org)
  {
    if CommitOf(o, e).Commit? {
      CommitWrites(o, e, org);
      CommitHeals(o, e);
    } else if !e.Abandon? && !e.CompleteOrder? {
      DownQuiet(o, e, org);
    }
  }

  lemma DownQuiet(o: Office, e: Event, org: string)
    requires Down(o.desk, org) && CommitOf(o, e).NoCommit? && !e.Abandon? && !e.CompleteOrder?
    ensures Down(Apply(o, e).desk, org) <==> !Revives(o, e, org)
  {
  }

  /** A call for the provider is between its two locked sections. */
  predicate AsksFor(t: Thread, org: string) { !t.Holding? && t.org == org }

  ghost predicate NobodyAsks(o: Office, org: string) { forall t :: t in o.threads ==> !AsksFor(o.threads[t], org) }

  /** The run neither verifies a binding of the provider nor starts a recovery for it. */
  predicate LeftAlone(o: Office, events: seq<Event>, org: string) {
    if events == [] then true
    else
      var past, e := events[..|events| - 1], events[|events| - 1];
      LeftAlone(o, past, org) && !(e.VerifyBinding? && Revives(Run(o, past), e, org)) &&
      !(e.StartRecover? && e.org == org)
  }

  lemma NobodyStarts(o: Office, e: Event, org: string)
    requires Down(o.desk, org) && NobodyAsks(o, org) && !(e.StartRecover? && e.org == org)
    ensures NobodyAsks(Apply(o, e), org)
  {
  }

  /** If nobody is asking when the incident is there, it lasts until a verification or a recovery: no new call
      for the provider gets as far as the provisioner. */
  lemma {:induction false} DownStays(o: Office, events: seq<Event>, org: string)
    requires Down(o.desk, org) && NobodyAsks(o, org) && LeftAlone(o, events, org)
    ensures Down(Run(o, events).desk, org) && NobodyAsks(Run(o, events), org)
  {
    if events != [] {
      var past, e := events[..|events| - 1], events[|events| - 1];
      DownStays(o, past, org);
      DownStep(Run(o, past), e, org);
      NobodyStarts(Run(o, past), e, org);
    }
  }

  // ---- Runs that show each of these failures ----

  function Verified(org: string): Desk {
    Desk([Binding(org, ActiveBinding)], map[org := 0], map[org := Pool(0, Healthy, 0, 0, 0, 0)], [], map[])
  }

  function Opening(org: string): seq<Event> { [RegisterBinding(org), VerifyBinding(0)] }

  lemma RunSnoc(o: Office, events: seq<Event>, e: Event)
    ensures Run(o, events + [e]) == Apply(Run(o, events), e)
  {
    assert (events + [e])[..|events|] == events;
  }

  lemma OpeningVerifies(org: string)
    ensures Run(OPENING, Opening(org)) == Office(Verified(org), map[])
  {
    var none: seq<Event> := [];
    RunSnoc(OPENING, none, RegisterBinding(org));
    RunSnoc(OPENING, none + [RegisterBinding(org)], VerifyBinding(0));
    assert none + [RegisterBinding(org)] + [VerifyBinding(0)] == Opening(org);
  }

  function Ask(t: nat, org: string, budget: nat, bps: int): Event { StartReserve(t, org, UsableCarrier, budget, bps) }

  /** One reservation made, its pool counts it. */
  lemma OneReserved(org: string, budget: nat, bps: int, answer: Provision)
    requires answer.total >= NeededReserve(budget, bps)
    ensures var d := Run(OPENING, Opening(org) + [Ask(0, org, budget, bps)] + [EndReserve(0, Some(answer))]).desk;
            && d.bindings == Verified(org).bindings
            && d.reservations == [Reservation(None, 0, org, NeededReserve(budget, bps), Reserved)]
  {
    OpeningVerifies(org);
    RunSnoc(OPENING, Opening(org), Ask(0, org, budget, bps));
    RunSnoc(OPENING, Opening(org) + [Ask(0, org, budget, bps)], EndReserve(0, Some(answer)));
  }

  /** Register, verify, reserve, verify again: the pool then counts too little. */
  lemma CarelessRun(org: string, budget: nat, bps: int, answer: Provision)
    requires budget > 0 && answer.total >= NeededReserve(budget, bps)
    ensures var events := Opening(org) + [Ask(0, org, budget, bps)] + [EndReserve(0, Some(answer))];
            Careless(Run(OPENING, events), VerifyBinding(0)) && !Exact(Run(OPENING, events + [VerifyBinding(0)]).desk)
  {
    var events := Opening(org) + [Ask(0, org, budget, bps)] + [EndReserve(0, Some(answer))];
    OneReserved(org, budget, bps, answer);
    assert Run(OPENING, events).desk.reservations[..0] == [];
    CarelessBreaks(events, VerifyBinding(0));
  }

  function TwoAsk(org: string, budget: nat, bps: int): seq<Event> {
    Opening(org) + [Ask(0, org, budget, bps)] + [Ask(1, org, budget, bps)]
  }

  lemma BothAsk(org: string, budget: nat, bps: int)
    ensures var th := Reserving(org, 0, Pool(0, Healthy, 0, 0, 0, 0), NeededReserve(budget, bps));
            Run(OPENING, TwoAsk(org, budget, bps)) == Office(Verified(org), map[0 := th, 1 := th])
  {
    OpeningVerifies(org);
    RunSnoc(OPENING, Opening(org), Ask(0, org, budget, bps));
    RunSnoc(OPENING, Opening(org) + [Ask(0, org, budget, bps)], Ask(1, org, budget, bps));
  }

  lemma EndOne(o: Office, t: nat, answer: Provision)
    requires t in o.threads && o.threads[t].Reserving? && Sufficient(o.threads[t].snapshot, o.threads[t].needed, answer)
    ensures var th := o.threads[t];
            Apply(o, EndReserve(t, Some(answer))) ==
            Office(CommitReserve(o.desk, th.org, th.binding, th.needed, answer),
                   o.threads[t := Holding(|o.desk.reservations|)])
  {
  }

  lemma CommitTwice(org: string, needed: nat, a: Provision, b: Provision)
    ensures CommitReserve(CommitReserve(Verified(org), org, 0, needed, a), org, 0, needed, b).pools ==
            map[org := Pool(0, Healthy, b.channels, b.total, 2 * needed, b.total - 2 * needed)]
  {
  }

  /** Two reservations that asked with the same snapshot are both made if each answer is enough for one, and the
      second answer stands. */
  lemma BothMade(org: string, budget: nat, bps: int, a: Provision, b: Provision)
    requires a.total >= NeededReserve(budget, bps) && b.total >= NeededReserve(budget, bps)
    ensures var needed := NeededReserve(budget, bps);
            var d := Run(OPENING, TwoAsk(org, budget, bps) + [EndReserve(0, Some(a))] + [EndReserve(1, Some(b))]).desk;
            d.pools == map[org := Pool(0, Healthy, b.channels, b.total, 2 * needed, b.total - 2 * needed)]
  {
    var asked := Run(OPENING, TwoAsk(org, budget, bps));
    BothAsk(org, budget, bps);
    RunSnoc(OPENING, TwoAsk(org, budget, bps), EndReserve(0, Some(a)));
    RunSnoc(OPENING, TwoAsk(org, budget, bps) + [EndReserve(0, Some(a))], EndReserve(1, Some(b)));
    EndOne(asked, 0, a);
    EndOne(Apply(asked, EndReserve(0, Some(a))), 1, b);
    CommitTwice(org, NeededReserve(budget, bps), a, b);
  }

  lemma OnePoolCovered(d: Desk, org: string, p: Pool)
    requires d.pools == map[org := p]
    ensures ReservedOf(d, org) == p.reserved && TotalOf(d, org) == p.total && (Covered(d) <==> p.reserved <= p.total)
  {
    assert PoolOf(d, org) == p;
  }

  /** With each answered with just enough for one, the pool has promised twice what it holds. */
  lemma OverlappingReserves(org: string, budget: nat, bps: int, channels: int)
    requires budget > 0
    ensures var needed := NeededReserve(budget, bps);
            var answer := Some(Provision(channels, needed));
            var d := Run(OPENING, TwoAsk(org, budget, bps) + [EndReserve(0, answer)] + [EndReserve(1, answer)]).desk;
            ReservedOf(d, org) == 2 * needed && TotalOf(d, org) == needed && needed > 0 && !Covered(d)
  {
    var needed := NeededReserve(budget, bps);
    var p := Provision(channels, needed);
    BothMade(org, budget, bps, p, p);
    var d := Run(OPENING, TwoAsk(org, budget, bps) + [EndReserve(0, Some(p))] + [EndReserve(1, Some(p))]).desk;
    OnePoolCovered(d, org, Pool(0, Healthy, channels, needed, 2 * needed, needed - 2 * needed));
  }

  /** What the provisioner answers about an empty pool. */
  function FirstAnswer(fund: Fnn.Funding, net: Fnn.Network, needed: nat): Provision
    requires net.Reachable?
  {
    Fnn.Ensure(fund, net, Pool(0, Healthy, 0, 0, 0, 0), needed).value.provision
  }

  lemma FirstAnswerFunds(fund: Fnn.Funding, net: Fnn.Network, needed: nat)
    requires Fnn.Covers(fund) && net.Reachable? && needed > 0
    ensures FirstAnswer(fund, net, needed).total == fund(needed) >= needed
  {
  }

  /** With the provisioner's own answers, two overlapping reserves on an empty pool leave it with more promised
      than held exactly if twice the need exceeds what one call funds.  Two channels have been opened by then; the
      total counts one. */
  lemma OverlapProvisioned(fund: Fnn.Funding, org: string, budget: nat, bps: int, m: Fnn.Network, n: Fnn.Network)
    requires Fnn.Covers(fund) && budget > 0 && m.Reachable? && n.Reachable?
    ensures var needed := NeededReserve(budget, bps);
            var a, b := Some(FirstAnswer(fund, m, needed)), Some(FirstAnswer(fund, n, needed));
            var d := Run(OPENING, TwoAsk(org, budget, bps) + [EndReserve(0, a)] + [EndReserve(1, b)]).desk;
            && ReservedOf(d, org) == 2 * needed && TotalOf(d, org) == fund(needed)
            && (Covered(d) <==> 2 * needed <= fund(needed))
  {
    var needed := NeededReserve(budget, bps);
    var a, b := FirstAnswer(fund, m, needed), FirstAnswer(fund, n, needed);
    FirstAnswerFunds(fund, m, needed);
    FirstAnswerFunds(fund, n, needed);
    BothMade(org, budget, bps, a, b);
    var d := Run(OPENING, TwoAsk(org, budget, bps) + [EndReserve(0, Some(a))] + [EndReserve(1, Some(b))]).desk;
    OnePoolCovered(d, org, Pool(0, Healthy, b.channels, b.total, 2 * needed, b.total - 2 * needed));
  }

  /** A disconnect reported while a reservation is asking is gone as soon as that is made. */
  lemma IncidentForgotten(org: string, budget: nat, bps: int, answer: Provision)
    requires answer.total >= NeededReserve(budget, bps)
    ensures var events := Opening(org) + [Ask(0, org, budget, bps)] + [ReportDisconnect(org)];
            && Down(Run(OPENING, events).desk, org)
            && PoolOf(Run(OPENING, events + [EndReserve(0, Some(answer))]).desk, org).status == Healthy
  {
    var asked := Opening(org) + [Ask(0, org, budget, bps)];
    OpeningVerifies(org);
    RunSnoc(OPENING, Opening(org), Ask(0, org, budget, bps));
    RunSnoc(OPENING, asked, ReportDisconnect(org));
    RunSnoc(OPENING, asked + [ReportDisconnect(org)], EndReserve(0, Some(answer)));
  }
}
