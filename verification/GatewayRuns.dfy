/** Every run of the gateway, callbacks included, is on the platform a run of the platform; so what holds of every
    platform run holds with callbacks too. */
module GatewayRuns {
  import opened Options
  import opened Workflow
  import opened Callbacks
  import Jobs = CarrierService
  import EventLedger
  import Platform
  import PlatformRuns
  import OrderRuns
  import DeskRuns
  import SettlementRuns
  import MarketRuns
  import Funding

  /** The events a callback can be on the platform. */
  ghost predicate FromCallback(e: Platform.Event) { e.SettleMilestone? || e.RecordUsage? }

  lemma OnePlatformEvent(s: Platform.State, e: Platform.Event)
    ensures Platform.Run(s, [e]) == Platform.Apply(s, e)
  {
    assert [e][..0] == [];
  }

  lemma ChargeEvent(s: Platform.State, n: nat, id: string, c: UsageCharge)
    ensures Platform.Run(s, [Platform.RecordUsage(n, id, c)]) == Platform.ChargedAt(s, n, id, c)
  {
    OnePlatformEvent(s, Platform.RecordUsage(n, id, c));
  }

  lemma SettleEvent(s: Platform.State, n: nat, id: string, summary: string, anomalies: seq<string>)
    ensures Platform.Run(s, [Platform.SettleMilestone(n, id, summary, anomalies)]) ==
            Platform.SettledAt(s, n, id, summary, anomalies)
  {
    OnePlatformEvent(s, Platform.SettleMilestone(n, id, summary, anomalies));
  }

  lemma SettlingOnPlatform(g: Gateway, c: Callback, target: Option<(nat, string)>) returns (es: seq<Platform.Event>)
    ensures Settling(g, c, target).after.platform == Platform.Run(g.platform, es)
    ensures |es| <= 1 && forall i :: 0 <= i < |es| ==> FromCallback(es[i])
  {
    es := [];
    if Settling(g, c, target).decision.Some? {
      var (order, milestone) := target.value;
      SettleEvent(g.platform, order, milestone, c.text, c.anomalies);
      es := [Platform.SettleMilestone(order, milestone, c.text, c.anomalies)];
    }
  }

  lemma UsageOnPlatform(g: Gateway, c: Callback) returns (es: seq<Platform.Event>)
    ensures Usage(g, c).after.platform == Platform.Run(g.platform, es)
    ensures |es| <= 1 && forall i :: 0 <= i < |es| ==> FromCallback(es[i])
  {
    es := [];
    if Usage(g, c).decision.Some? {
      var (order, milestone) := Target(g.service, c.job).value;
      ChargeEvent(g.platform, order, milestone, c.usage.value);
      es := [Platform.RecordUsage(order, milestone, c.usage.value)];
    }
  }

  /** On the platform a callback is a settlement, a charge, or nothing. */
  lemma ActOnPlatform(g: Gateway, c: Callback) returns (es: seq<Platform.Event>)
    ensures Act(g, c).after.platform == Platform.Run(g.platform, es)
    ensures |es| <= 1 && forall i :: 0 <= i < |es| ==> FromCallback(es[i])
  {
    es := [];
    if c.kind == UsageReported {
      es := UsageOnPlatform(g, c);
    } else if c.kind == MilestoneReady {
      var done := Move(g, c.job, Jobs.Completed, c.text, "", CONTINUE);
      MoveEffects(g, c.job, Jobs.Completed, c.text, "", CONTINUE);
      if FindJob(|g.service.jobs|, c.job).Some? && !c.refused && done.decision.Some? {
        es := SettlingOnPlatform(done.after, c, Target(done.after.service, c.job));
      }
    }
  }

  lemma HandleOnPlatform(g: Gateway, c: Callback) returns (es: seq<Platform.Event>)
    ensures Handle(g, c).0.platform == Platform.Run(g.platform, es)
    ensures |es| <= 1 && forall i :: 0 <= i < |es| ==> FromCallback(es[i])
  {
    es := [];
    if c.id == "" {
      es := ActOnPlatform(g, c);
    } else {
      var (ledger, answer) := EventLedger.Recorded(g.ledger, c.job, c.id, c.sequence, c.name, "");
      if answer.Appended? {
        es := ActOnPlatform(g.(ledger := ledger), c);
      }
    }
  }

  /** Every platform event of the run is sane. */
  ghost predicate SaneRun(events: seq<Event>) {
    forall i :: 0 <= i < |events| && events[i].OnPlatform? ==> PlatformRuns.SaneEvent(events[i].event)
  }

  /** No platform event of the run is a dispute, and none is a top-up. */
  ghost predicate Undisputed(events: seq<Event>) {
    forall i :: 0 <= i < |events| && events[i].OnPlatform? ==> !events[i].event.OpenDispute?
  }

  ghost predicate Untopped(events: seq<Event>) {
    forall i :: 0 <= i < |events| && events[i].OnPlatform? ==> !events[i].event.TopUpMilestone?
  }

  lemma StepOnPlatform(g: Gateway, e: Event) returns (es: seq<Platform.Event>)
    ensures Apply(g, e).platform == Platform.Run(g.platform, es)
    ensures forall i :: 0 <= i < |es| ==> FromCallback(es[i]) || (e.OnPlatform? && es[i] == e.event)
  {
    es := [];
    if e.Delivered? {
      es := HandleOnPlatform(g, e.callback);
    } else if e.OnPlatform? {
      OnePlatformEvent(g.platform, e.event);
      es := [e.event];
    }
  }

  /** A platform event stems from a callback, or is one of the run's own. */
  ghost predicate StemsFrom(p: Platform.Event, events: seq<Event>) { FromCallback(p) || OnPlatform(p) in events }

  ghost predicate AllStem(es: seq<Platform.Event>, events: seq<Event>) {
    forall i :: 0 <= i < |es| ==> StemsFrom(es[i], events)
  }

  lemma StemAppend(a: seq<Platform.Event>, b: seq<Platform.Event>, events: seq<Event>, e: Event)
    requires AllStem(a, events)
    requires forall i :: 0 <= i < |b| ==> FromCallback(b[i]) || (e.OnPlatform? && b[i] == e.event)
    ensures AllStem(a + b, events + [e])
  {
    forall i | 0 <= i < |a + b| ensures StemsFrom((a + b)[i], events + [e]) {
      if i < |a| {
        assert StemsFrom(a[i], events);
      }
    }
  }

  lemma Joined(p: Platform.State, a: seq<Platform.Event>, q: Platform.State, b: seq<Platform.Event>, r: Platform.State)
    requires q == Platform.Run(p, a) && r == Platform.Run(q, b)
    ensures r == Platform.Run(p, a + b)
  {
    Platform.RunAppend(p, a, b);
  }

  /** What the run so far is on the platform goes on with what the next event is there. */
  lemma Extended(p: Platform.State, before: seq<Platform.Event>, t: Gateway, events: seq<Event>)
    returns (es: seq<Platform.Event>)
    requires events != [] && t.platform == Platform.Run(p, before) && AllStem(before, events[..|events| - 1])
    ensures Apply(t, events[|events| - 1]).platform == Platform.Run(p, es) && AllStem(es, events)
  {
    var past, e := events[..|events| - 1], events[|events| - 1];
    assert past + [e] == events;
    var more := StepOnPlatform(t, e);
    Joined(p, before, t.platform, more, Apply(t, e).platform);
    StemAppend(before, more, past, e);
    es := before + more;
  }

  /** Every run of the gateway is, on the platform, a run of the platform's own events and of those that stem from
      callbacks. */
  lemma {:induction false} RunOnPlatform(g: Gateway, events: seq<Event>) returns (es: seq<Platform.Event>)
    ensures Run(g, events).platform == Platform.Run(g.platform, es)
    ensures AllStem(es, events)
  {
    es := [];
    if events != [] {
      var past := events[..|events| - 1];
      var before := RunOnPlatform(g, past);
      es := Extended(g.platform, before, Run(g, past), events);
    }
  }

  lemma StemsKeep(es: seq<Platform.Event>, events: seq<Event>)
    requires AllStem(es, events)
    ensures SaneRun(events) ==> PlatformRuns.AllSane(es)
    ensures Undisputed(events) ==> PlatformRuns.NoDisputes(es)
    ensures Untopped(events) ==> MarketRuns.NoTopUps(es)
  {
    forall i | 0 <= i < |es|
      ensures SaneRun(events) ==> PlatformRuns.SaneEvent(es[i])
      ensures Undisputed(events) ==> !es[i].OpenDispute?
      ensures Untopped(events) ==> !es[i].TopUpMilestone?
    {
      assert StemsFrom(es[i], events);
    }
  }

  /** The ledger law for every order, with any callbacks. */
  lemma GatewayBalances(limits: map<string, int>, events: seq<Event>, n: nat)
    requires SaneRun(events) && n < |Run(Empty(limits), events).platform.orders|
    ensures var s := Run(Empty(limits), events).platform;
            var es := PlatformRuns.EntriesFor(s.entries, n);
            && (forall i :: 0 <= i < |s.orders[n].milestones| ==>
                  var m := s.orders[n].milestones[i];
                  OrderRuns.Settlements(es, m.id) - OrderRuns.Disputes(es, m.id) == if m.state == Settled then 1 else 0)
            && OrderRuns.Sum(es, OrderRuns.IsRefund) == OrderRuns.Sum(es, OrderRuns.IsRecovery)
            && OrderRuns.Sum(es, OrderRuns.IsRefund) <= OrderRuns.Sum(es, OrderRuns.IsSettlement)
  {
    var es := RunOnPlatform(Empty(limits), events);
    StemsKeep(es, events);
    PlatformRuns.OrdersBalance(limits, es, n);
  }

  /** The progress law for every order, with any callbacks and without disputes. */
  lemma GatewayProgress(limits: map<string, int>, events: seq<Event>, n: nat) returns (k: nat)
    requires SaneRun(events) && Undisputed(events) && n < |Run(Empty(limits), events).platform.orders|
    ensures OrderRuns.At(PlatformRuns.BookOf(Run(Empty(limits), events).platform, n), k)
  {
    var es := RunOnPlatform(Empty(limits), events);
    StemsKeep(es, events);
    k := PlatformRuns.OrdersProgress(limits, es, n);
  }

  /** The pools, the winners, and, without disputes and top-ups, the prepaid money, with any callbacks. */
  lemma GatewayKeeps(limits: map<string, int>, events: seq<Event>)
    requires SaneRun(events)
    ensures var s := Run(Empty(limits), events).platform;
            && SettlementRuns.Bounded(s.desk) && MarketRuns.Fair(s, false)
            && (Undisputed(events) && Untopped(events) ==> Funding.PrepaidCovered(s))
  {
    var es := RunOnPlatform(Empty(limits), events);
    StemsKeep(es, events);
    DeskRuns.PlatformPools(limits, es);
    MarketRuns.OneWinner(limits, es, false);
    if Undisputed(events) && Untopped(events) {
      Funding.PrepaidStaysCovered(limits, es);
    }
  }
}
