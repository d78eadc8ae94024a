/** What callbacks do, said on jobs, bindings and orders. */
module CallbackEffects {
  import opened Options
  import opened Workflow
  import opened Callbacks
  import opened OrderEffects
  import Jobs = CarrierService
  import EventLedger
  import Market
  import Platform
  import OrderRuns
  import OrderMoney
  import Radix

  // ---- Which job a callback is about ----

  lemma TenDigits(n: nat)
    ensures var ds := Radix.Minimal(n, 10);
            && Radix.InRange(ds, 10) && Radix.Value(ds, 10) == n && (n == 0 <==> ds == []) && (n > 0 ==> ds[0] != 0)
  {
    Radix.ValueOfMinimal(n, 10);
  }

  lemma DecimalDigits(n: nat)
    ensures var ds, text := Radix.Minimal(n, 10), Market.Decimal(n);
            if ds == [] then text == "0"
            else |text| == |ds| && forall i :: 0 <= i < |ds| ==> 0 <= ds[i] < 10 && text[i] == '0' + ds[i] as char
  {
    TenDigits(n);
    FiguresAre(Radix.Minimal(n, 10));
  }

  lemma FiguresAre(ds: seq<nat>)
    requires Radix.InRange(ds, 10)
    ensures |Market.Figures(ds)| == |ds|
    ensures forall i :: 0 <= i < |ds| ==> 0 <= ds[i] < 10 && Market.Figures(ds)[i] == '0' + ds[i] as char
  {
  }

  lemma DecimalInjective(m: nat, n: nat)
    requires Market.Decimal(m) == Market.Decimal(n)
    ensures m == n
  {
    var a, b := Radix.Minimal(m, 10), Radix.Minimal(n, 10);
    TenDigits(m);
    TenDigits(n);
    DecimalDigits(m);
    DecimalDigits(n);
    SameDigits(a, b, Market.Decimal(m), Market.Decimal(n));
  }

  lemma SameDigits(a: seq<nat>, b: seq<nat>, s: string, t: string)
    requires s == t && (a != [] ==> a[0] != 0) && (b != [] ==> b[0] != 0)
    requires if a == [] then s == "0"
             else |s| == |a| && forall i :: 0 <= i < |a| ==> 0 <= a[i] < 10 && s[i] == '0' + a[i] as char
    requires if b == [] then t == "0"
             else |t| == |b| && forall i :: 0 <= i < |b| ==> 0 <= b[i] < 10 && t[i] == '0' + b[i] as char
    ensures a == b
  {
    if a != [] && b != [] {
      forall i | 0 <= i < |a| ensures a[i] == b[i] {
        assert s[i] == t[i];
      }
    }
  }

  /** No two jobs share an id, so the one found is the one meant. */
  lemma {:induction false} JobFound(count: nat, id: string, j: nat)
    requires j < count && JobName(j) == id
    ensures FindJob(count, id) == Some(j)
  {
    if JobName(count - 1) == id {
      var a, b := Market.Decimal(j + 1), Market.Decimal(count);
      assert JobName(j)[4..] == a && JobName(count - 1)[4..] == b;
      DecimalInjective(j + 1, count);
    } else {
      JobFound(count - 1, id, j);
    }
  }

  /** Job j has the id and works, through an existing binding, for the milestone of the order. */
  ghost predicate WorksFor(s: Jobs.State, id: string, j: nat, order: nat, milestone: string) {
    && j < |s.jobs| && JobName(j) == id && s.jobs[j].milestone == milestone
    && s.jobs[j].binding < |s.bindings| && s.bindings[s.jobs[j].binding].order == order
  }

  lemma TargetIs(s: Jobs.State, id: string, j: nat, order: nat, milestone: string)
    requires WorksFor(s, id, j, order, milestone)
    ensures Target(s, id) == Some((order, milestone)) && FindJob(|s.jobs|, id) == Some(j)
  {
    JobFound(|s.jobs|, id, j);
  }

  /** The callback gets past the ledger: it has no event id, or one that is new and next. */
  predicate Passes(g: Gateway, c: Callback) {
    c.id == "" || EventLedger.Screened(g.ledger, c.job, c.id, c.sequence).Next?
  }

  /** What it does to jobs and platform is then what acting on it does. */
  lemma PassedActs(g: Gateway, c: Callback)
    requires Passes(g, c)
    ensures var (h, reply) := Handle(g, c);
            && (reply.Accepted? <==> Act(g, c).decision.Some?) && (reply.Accepted? || reply == Rejected)
            && h.service == Act(g, c).after.service && h.platform == Act(g, c).after.platform
            && (reply.Accepted? ==> Some(reply.decision) == Act(g, c).decision)
  {
    if c.id != "" {
      ActIgnores(g, g.(ledger := EventLedger.Recorded(g.ledger, c.job, c.id, c.sequence, c.name, "").0), c);
    }
  }

  ghost predicate Alike(a: Outcome, b: Outcome) {
    b.decision == a.decision && b.after.service == a.after.service && b.after.platform == a.after.platform
  }

  lemma MoveIgnores(g: Gateway, h: Gateway, id: string, to: Jobs.JobState, output: string, error: string, d: string)
    requires h.service == g.service && h.platform == g.platform
    ensures Alike(Move(g, id, to, output, error, d), Move(h, id, to, output, error, d))
  {
  }

  lemma ReadyIgnores(g: Gateway, h: Gateway, c: Callback)
    requires h.service == g.service && h.platform == g.platform
    ensures Alike(Ready(g, c), Ready(h, c))
  {
    MoveIgnores(g, h, c.job, Jobs.Completed, c.text, "", CONTINUE);
  }

  lemma UsageIgnores(g: Gateway, h: Gateway, c: Callback)
    requires h.service == g.service && h.platform == g.platform
    ensures Alike(Usage(g, c), Usage(h, c))
  {
  }

  lemma ActIgnores(g: Gateway, h: Gateway, c: Callback)
    requires h.service == g.service && h.platform == g.platform
    ensures Alike(Act(g, c), Act(h, c))
  {
    match c.kind
    case Started => MoveIgnores(g, h, c.job, Jobs.Running, "", "", CONTINUE);
    case Finished => MoveIgnores(g, h, c.job, Jobs.Completed, c.text, "", CONTINUE);
    case MilestoneReady => ReadyIgnores(g, h, c);
    case Broken => MoveIgnores(g, h, c.job, Jobs.Failed, "", c.text, CONTINUE);
    case PauseAsked => MoveIgnores(g, h, c.job, Jobs.Cancelled, "", "", PAUSE);
    case UsageReported => UsageIgnores(g, h, c);
    case _ =>
  }

  // ---- Usage ----

  /** The platforms differ at most in one order. */
  ghost predicate OnlyOrder(p: Platform.State, q: Platform.State, n: nat) {
    && |q.orders| == |p.orders| && q.rfqs == p.rfqs && q.bids == p.bids && q.disputes == p.disputes
    && q.limits == p.limits && q.credited == p.credited
    && forall m :: 0 <= m < |p.orders| && m != n ==> q.orders[m] == p.orders[m]
  }

  /** A usage report that gets past the ledger is accepted exactly if it reports a positive charge and the milestone its
      job works for is running or paused.  Exactly that charge is then added to that milestone, and nothing else on the
      platform or among the jobs changes but for the budget wall. */
  lemma UsageMeans(g: Gateway, c: Callback, j: nat, n: nat, milestone: string, i: nat)
    requires Passes(g, c) && c.kind == UsageReported && WorksFor(g.service, c.job, j, n, milestone)
    requires n < |g.platform.orders| && FirstWith(g.platform.orders[n].milestones, milestone, i)
    ensures var (h, reply), m := Handle(g, c), g.platform.orders[n].milestones[i];
            && (reply.Accepted? <==>
                c.usage.Some? && c.usage.value.amount > 0 && (m.state == MilestoneState.Running || m.state == Paused))
            && h.service == g.service
            && (!reply.Accepted? ==> h.platform == g.platform)
    ensures Handle(g, c).1.Accepted? ==>
              var p, q := g.platform, Handle(g, c).0.platform;
              var m := p.orders[n].milestones[i];
              && OnlyOrder(p, q, n) && q.desk == p.desk && q.entries == p.entries
              && |q.orders[n].milestones| == |p.orders[n].milestones|
              && q.orders[n].milestones[i].charges == m.charges + [c.usage.value]
              && (forall k :: 0 <= k < |p.orders[n].milestones| && k != i ==>
                    q.orders[n].milestones[k] == p.orders[n].milestones[k])
  {
    PassedActs(g, c);
    TargetIs(g.service, c.job, j, n, milestone);
    if c.usage.Some? {
      ChargeMeans(g.platform.orders[n], milestone, c.usage.value, i);
    }
  }

  // ---- Milestones that are ready ----

  /** The job can be completed: it runs, or is completed already. */
  predicate Completable(s: Jobs.State, j: nat) {
    j < |s.jobs| && (s.jobs[j].state == Jobs.Running || s.jobs[j].state == Jobs.Completed)
  }

  /** A ready milestone that gets past the ledger is accepted exactly if its evidence is, its job can be completed, and
      the milestone the job works for is running or paused.  Then the job is completed, and the one new ledger entry
      is for that order, that milestone and its price; other orders stay as they are. */
  lemma ReadyMeans(g: Gateway, c: Callback, j: nat, n: nat, milestone: string, i: nat)
    requires Passes(g, c) && c.kind == MilestoneReady && WorksFor(g.service, c.job, j, n, milestone)
    requires n < |g.platform.orders| && FirstWith(g.platform.orders[n].milestones, milestone, i)
    ensures var (h, reply), m := Handle(g, c), g.platform.orders[n].milestones[i];
            && (reply.Accepted? <==> !c.refused && Completable(g.service, j) &&
                                     (m.state == MilestoneState.Running || m.state == Paused))
            && (!reply.Accepted? ==> h.platform == g.platform)
    ensures Handle(g, c).1.Accepted? ==>
              var p, q := g.platform, Handle(g, c).0.platform;
              var o := p.orders[n];
              && OnlyOrder(p, q, n) && |q.entries| == |p.entries| + 1 && q.entries[..|p.entries|] == p.entries
              && q.entries[|p.entries|].order == o.id && q.entries[|p.entries|].milestone == milestone
              && q.entries[|p.entries|].amount == o.milestones[i].basePrice
              && j < |Handle(g, c).0.service.jobs| && Handle(g, c).0.service.jobs[j].state == Jobs.Completed
  {
    PassedActs(g, c);
    TargetIs(g.service, c.job, j, n, milestone);
    TransitionTable(g.service.jobs[j].state, Jobs.Completed);
    SettleMeans(g.platform.orders[n], milestone, c.text, i);
    ReadyEnds(g, c, n, milestone);
    if Ready(g, c).decision.Some? {
      ReadyService(g, c);
      MoveMeans(g, c.job, j, Jobs.Completed, c.text, "", CONTINUE);
    }
  }

  /** What acting on it comes to, once the target is known. */
  lemma ReadyEnds(g: Gateway, c: Callback, n: nat, milestone: string)
    requires Target(g.service, c.job) == Some((n, milestone)) && n < |g.platform.orders|
    ensures var ok := !c.refused && Movable(g.service, c.job, Jobs.Completed) &&
                      Settle(g.platform.orders[n], milestone, c.text).Ok?;
            && (Ready(g, c).decision.Some? <==> ok)
            && Ready(g, c).after.platform ==
               (if ok then Platform.SettledAt(g.platform, n, milestone, c.text, c.anomalies) else g.platform)
  {
    MoveFails(g, c.job, Jobs.Completed, c.text, "", CONTINUE);
    MoveEffects(g, c.job, Jobs.Completed, c.text, "", CONTINUE);
    ReadyFails(g, c);
  }

  lemma ReadyService(g: Gateway, c: Callback)
    requires Ready(g, c).decision.Some?
    ensures Ready(g, c).after.service == Move(g, c.job, Jobs.Completed, c.text, "", CONTINUE).after.service
    ensures Move(g, c.job, Jobs.Completed, c.text, "", CONTINUE).decision.Some?
  {
  }

  // ---- Jobs ----

  /** The transitions there are. */
  lemma TransitionTable(from: Jobs.JobState, to: Jobs.JobState)
    ensures Jobs.CanTransition(from, to) <==>
            || (from == Jobs.Pending && (to == Jobs.Running || to == Jobs.Cancelled))
            || (from == Jobs.Running && (to == Jobs.Completed || to == Jobs.Failed || to == Jobs.Cancelled))
  {
  }

  /** The state a callback about a job's progress asks for. */
  function StateFor(kind: Kind): Option<Jobs.JobState> {
    match kind
    case Started => Some(Jobs.Running)
    case Finished => Some(Jobs.Completed)
    case Broken => Some(Jobs.Failed)
    case PauseAsked => Some(Jobs.Cancelled)
    case _ => None
  }

  /** Asking for a state works exactly if the job can go there or is there; nothing else changes. */
  ghost predicate Asked(g: Gateway, o: Outcome, j: nat, to: Jobs.JobState)
    requires j < |g.service.jobs|
  {
    var before, jobs := g.service.jobs[j].state, o.after.service.jobs;
    && (o.decision.Some? <==> before == to || Jobs.CanTransition(before, to))
    && o.after.platform == g.platform && o.after.service == g.service.(jobs := jobs) && |jobs| == |g.service.jobs|
    && (forall k :: 0 <= k < |jobs| && k != j ==> jobs[k] == g.service.jobs[k])
    && (o.decision.Some? ==> jobs[j].state == to)
    && (o.decision.None? || before == to ==> jobs[j] == g.service.jobs[j])
  }

  lemma MoveMeans(g: Gateway, id: string, j: nat, to: Jobs.JobState, output: string, error: string, d: string)
    requires j < |g.service.jobs| && JobName(j) == id
    ensures Asked(g, Move(g, id, to, output, error, d), j, to)
  {
    JobFound(|g.service.jobs|, id, j);
    TransitionTable(g.service.jobs[j].state, to);
  }

  lemma ProgressActs(g: Gateway, c: Callback, j: nat)
    requires StateFor(c.kind).Some? && j < |g.service.jobs| && JobName(j) == c.job
    ensures Asked(g, Act(g, c), j, StateFor(c.kind).value)
  {
    match c.kind
    case Started => MoveMeans(g, c.job, j, Jobs.Running, "", "", CONTINUE);
    case Finished => MoveMeans(g, c.job, j, Jobs.Completed, c.text, "", CONTINUE);
    case Broken => MoveMeans(g, c.job, j, Jobs.Failed, "", c.text, CONTINUE);
    case PauseAsked => MoveMeans(g, c.job, j, Jobs.Cancelled, "", "", PAUSE);
  }

  /** A callback about a job's progress is accepted exactly if the job can go to that state or is in it; no other job
      and
      nothing on the platform changes. */
  lemma ProgressMeans(g: Gateway, c: Callback, j: nat)
    requires Passes(g, c) && StateFor(c.kind).Some? && j < |g.service.jobs| && JobName(j) == c.job
    ensures var (h, reply), before, to := Handle(g, c), g.service.jobs[j].state, StateFor(c.kind).value;
            && (reply.Accepted? <==> before == to || Jobs.CanTransition(before, to))
            && h.platform == g.platform && h.service == g.service.(jobs := h.service.jobs)
            && |h.service.jobs| == |g.service.jobs|
            && (forall k :: 0 <= k < |g.service.jobs| && k != j ==> h.service.jobs[k] == g.service.jobs[k])
            && (reply.Accepted? ==> h.service.jobs[j].state == to)
            && (!reply.Accepted? || before == to ==> h.service.jobs[j] == g.service.jobs[j])
  {
    PassedActs(g, c);
    ProgressActs(g, c, j);
  }

  /** The action that goes with a callback: to pause if the carrier asked for that, what it recommends itself
      with usage, artifacts and a low budget, and otherwise to continue. */
  function ActionFor(c: Callback): string {
    match c.kind
    case PauseAsked => "pause"
    case UsageReported => c.action
    case ArtifactReady => c.action
    case BudgetLow => c.action
    case _ => "continue"
  }

  lemma ActDecides(g: Gateway, c: Callback)
    ensures Act(g, c).decision.Some? ==> Act(g, c).decision.value == ActionFor(c)
  {
  }

  /** That is what the carrier is told. */
  lemma DecisionMeans(g: Gateway, c: Callback)
    requires Passes(g, c) && Handle(g, c).1.Accepted?
    ensures Handle(g, c).1.decision == ActionFor(c)
  {
    PassedActs(g, c);
    ActDecides(g, c);
  }

  /** The other callbacks change neither jobs nor platform. */
  lemma OthersChangeNothing(g: Gateway, c: Callback)
    requires c.kind !in {UsageReported, MilestoneReady} && StateFor(c.kind).None?
    ensures Handle(g, c).0.platform == g.platform && Handle(g, c).0.service == g.service
  {
  }

  // ---- Cents over whole runs ----

  /** All usage charged so far, in cents. */
  function Cents(orders: seq<Order>): int {
    if orders == [] then 0 else Cents(orders[..|orders| - 1]) + OrderMoney.Used(orders[|orders| - 1].milestones)
  }

  lemma {:induction false} CentsUpdate(orders: seq<Order>, i: nat, o: Order)
    requires i < |orders|
    ensures Cents(orders[i := o]) ==
            Cents(orders) - OrderMoney.Used(orders[i].milestones) + OrderMoney.Used(o.milestones)
  {
    var n := |orders| - 1;
    if i == n {
      assert orders[i := o][..n] == orders[..n];
    } else {
      assert orders[i := o][..n] == orders[..n][i := o];
      CentsUpdate(orders[..n], i, o);
    }
  }

  lemma ChargeCents(p: Platform.State, n: nat, id: string, c: UsageCharge)
    requires n < |p.orders| && Charge(p.orders[n], id, c).Ok?
    ensures Cents(Platform.ChargedAt(p, n, id, c).orders) == Cents(p.orders) + c.amount
  {
    var o, ms := Charge(p.orders[n], id, c).value, p.orders[n].milestones;
    var i := Find(ms, id);
    OrderRuns.TotalSnoc(ms[i].charges, c);
    OrderMoney.BudgetUpdate(ms, i, o.milestones[i]);
    CentsUpdate(p.orders, n, o);
  }

  lemma SettleCents(p: Platform.State, n: nat, id: string, summary: string, anomalies: seq<string>)
    requires n < |p.orders| && Settle(p.orders[n], id, summary).Ok?
    ensures Cents(Platform.SettledAt(p, n, id, summary, anomalies).orders) == Cents(p.orders)
  {
    var o := OrderRuns.AfterSettle(Settle(p.orders[n], id, summary).value.0, id, anomalies);
    OrderMoney.SettleCharges(p.orders[n], id, summary, anomalies);
    OrderMoney.UsedSame(p.orders[n].milestones, o.milestones);
    CentsUpdate(p.orders, n, o);
  }

  lemma UsageActs(g: Gateway, c: Callback)
    ensures Cents(Usage(g, c).after.platform.orders) - Cents(g.platform.orders) ==
            if Usage(g, c).decision.Some? then c.usage.value.amount else 0
    ensures Charges(Usage(g, c).after.platform.orders) - Charges(g.platform.orders) ==
            if Usage(g, c).decision.Some? then 1 else 0
    ensures Usage(g, c).decision.Some? ==> c.usage.Some?
  {
    if Usage(g, c).decision.Some? {
      var (n, milestone) := Target(g.service, c.job).value;
      ChargeCents(g.platform, n, milestone, c.usage.value);
      ChargeAddsOne(g.platform, n, milestone, c.usage.value);
    }
  }

  lemma SettlingCents(g: Gateway, c: Callback, target: Option<(nat, string)>)
    ensures Cents(Settling(g, c, target).after.platform.orders) == Cents(g.platform.orders)
  {
    if Settling(g, c, target).decision.Some? {
      SettleCents(g.platform, target.value.0, target.value.1, c.text, c.anomalies);
    }
  }

  lemma ReadyActs(g: Gateway, c: Callback)
    ensures Cents(Ready(g, c).after.platform.orders) == Cents(g.platform.orders)
  {
    var done := Move(g, c.job, Jobs.Completed, c.text, "", CONTINUE);
    MoveEffects(g, c.job, Jobs.Completed, c.text, "", CONTINUE);
    SettlingCents(done.after, c, Target(done.after.service, c.job));
  }

  /** A callback charges the reported amount, or nothing. */
  lemma ActCents(g: Gateway, c: Callback)
    ensures var before, after := g.platform.orders, Act(g, c).after.platform.orders;
            && Charges(after) - Charges(before) in {0, 1}
            && (Charges(after) == Charges(before) ==> Cents(after) == Cents(before))
            && (Charges(after) != Charges(before) ==>
                  c.usage.Some? && Cents(after) == Cents(before) + c.usage.value.amount)
  {
    ActEffects(g, c);
    match c.kind
    case UsageReported => UsageActs(g, c);
    case MilestoneReady => ReadyActs(g, c);
    case _ =>
  }

  function NewCents(g: Gateway, e: Event): int { Cents(Apply(g, e).platform.orders) - Cents(g.platform.orders) }

  lemma DeliveryCents(g: Gateway, c: Callback)
    ensures var e := Delivered(c);
            && (NewCharges(g, e) == 0 ==> NewCents(g, e) == 0)
            && (NewCharges(g, e) != 0 ==> c.usage.Some? && NewCents(g, e) == c.usage.value.amount)
  {
    if Passes(g, c) {
      PassedActs(g, c);
      ActCents(g, c);
    } else {
      GateKeeps(g, c);
      assert Handle(g, c).0 == g;
    }
  }

  /** What the deliveries of one event id charged in a run. */
  function CentsBy(g: Gateway, events: seq<Event>, id: string): int {
    if events == [] then 0
    else
      var past, e := events[..|events| - 1], events[|events| - 1];
      CentsBy(g, past, id) + if Bears(e, id) then NewCents(Run(g, past), e) else 0
  }

  /** The one delivery that charged, if there is one, is the n-th. */
  ghost predicate ChargedOnceBy(g: Gateway, events: seq<Event>, id: string, n: nat) {
    && (ChargesBy(g, events, id) == 0 ==> CentsBy(g, events, id) == 0)
    && (ChargesBy(g, events, id) != 0 ==>
          n < |events| && Bears(events[n], id) && events[n].callback.usage.Some? &&
          CentsBy(g, events, id) == events[n].callback.usage.value.amount)
  }

  /** What the last event adds to the two sums. */
  lemma LastAdds(g: Gateway, events: seq<Event>, id: string) returns (charges: int, cents: int)
    requires id != "" && events != []
    ensures ChargesBy(g, events, id) == ChargesBy(g, events[..|events| - 1], id) + charges
    ensures CentsBy(g, events, id) == CentsBy(g, events[..|events| - 1], id) + cents
    ensures charges >= 0 && (charges == 0 ==> cents == 0)
    ensures charges != 0 ==> var e := events[|events| - 1];
                             Bears(e, id) && e.callback.usage.Some? && cents == e.callback.usage.value.amount
  {
    var past, e := events[..|events| - 1], events[|events| - 1];
    charges, cents := 0, 0;
    if Bears(e, id) {
      DeliveryCents(Run(g, past), e.callback);
      DeliveryEffects(Run(g, past), e.callback);
      charges, cents := NewCharges(Run(g, past), e), NewCents(Run(g, past), e);
    }
  }

  lemma ChargedNext(g: Gateway, events: seq<Event>, id: string, before: nat) returns (n: nat)
    requires id != "" && events != [] && ChargedOnceBy(g, events[..|events| - 1], id, before)
    requires ChargesBy(g, events, id) <= 1 && ChargesBy(g, events[..|events| - 1], id) >= 0
    ensures ChargedOnceBy(g, events, id, n)
  {
    var charges, cents := LastAdds(g, events, id);
    n := if charges != 0 then |events| - 1 else before;
  }

  /** For every stream of callbacks amid any other activity, the cents charged by one event id are none, or exactly the
      amount that one of its deliveries reported. */
  lemma {:induction false} ExactCents(g: Gateway, events: seq<Event>, id: string) returns (n: nat)
    requires id != ""
    ensures ChargedOnceBy(g, events, id, n)
  {
    n := 0;
    if events != [] {
      n := ExactCents(g, events[..|events| - 1], id);
      AtMostOnce(g, events[..|events| - 1], id);
      AtMostOnce(g, events, id);
      n := ChargedNext(g, events, id, n);
    }
  }
}
