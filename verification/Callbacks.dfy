/** Carrier callbacks: delivered in any order and any number of times, acted on at most once. */
module Callbacks {
  import opened Options
  import opened Workflow
  import opened EventLedger
  import Jobs = CarrierService
  import Platform
  import Market

  /** What the handler makes of the event's name. */
  datatype Kind =
    | Started | Finished | MilestoneReady | Broken | Heartbeat | PauseAsked | Continues | UsageReported | ArtifactReady
    | BudgetLow | Unknown

  /** An authenticated callback with its payload taken apart: `usage` is the charge it reports, if that is
      well formed and proven; `refused` says that its evidence is not accepted; `action` is the action it
      recommends; `anomalies` are what the reconciliation of the settled milestone will find. */
  datatype Callback = Callback(
    job: string, binding: nat, kind: Kind, name: string, id: string, sequence: int, text: string,
    usage: Option<UsageCharge>, refused: bool, action: string, anomalies: seq<string>)

  datatype Gateway = Gateway(ledger: seq<Entry>, service: Jobs.State, platform: Platform.State)

  /** What the carrier is told. */
  datatype Reply = Conflict | Replay(decision: string) | Rejected | Accepted(decision: string)

  const CONTINUE := "continue"
  const PAUSE := "pause"

  function JobName(n: nat): string { "job_" + Market.Decimal(n + 1) }

  /** The job with the id, among the first ones. */
  function FindJob(count: nat, id: string): (job: Option<nat>)
    ensures job.Some? ==> job.value < count && JobName(job.value) == id
  {
    if count == 0 then None
    else if JobName(count - 1) == id then Some(count - 1)
    else FindJob(count - 1, id)
  }

  // ---- Acting on a callback ----

  /** The outcome of acting: the new state, and the decision unless an error stopped it. */
  datatype Outcome = Outcome(after: Gateway, decision: Option<string>)

  function Move(g: Gateway, id: string, to: Jobs.JobState, output: string, error: string, decision: string): Outcome {
    match FindJob(|g.service.jobs|, id)
    case None => Outcome(g, None)
    case Some(job) =>
      match Jobs.Transition(g.service, job, to, output, error)
      case Ok(s) => Outcome(g.(service := s), Some(decision))
      case Err(_) => Outcome(g, None)
  }

  /** The order and the milestone a job works for. */
  function Target(s: Jobs.State, id: string): Option<(nat, string)> {
    match FindJob(|s.jobs|, id)
    case None => None
    case Some(job) =>
      if s.jobs[job].binding < |s.bindings| then Some((s.bindings[s.jobs[job].binding].order, s.jobs[job].milestone))
      else None
  }

  function Settling(g: Gateway, c: Callback, target: Option<(nat, string)>): Outcome {
    if target.None? then Outcome(g, None)
    else
      var (order, milestone) := target.value;
      var p := g.platform;
      if order >= |p.orders| || Settle(p.orders[order], milestone, c.text).Err? then Outcome(g, None)
      else Outcome(g.(platform := Platform.SettledAt(p, order, milestone, c.text, c.anomalies)), Some(CONTINUE))
  }

  /** The job is completed, then its milestone is settled; the first may happen without the second. */
  function Ready(g: Gateway, c: Callback): Outcome {
    if FindJob(|g.service.jobs|, c.job).None? || c.refused then Outcome(g, None)
    else
      var done := Move(g, c.job, Jobs.Completed, c.text, "", CONTINUE);
      if done.decision.None? then done else Settling(done.after, c, Target(done.after.service, c.job))
  }

  function Usage(g: Gateway, c: Callback): Outcome {
    var target := Target(g.service, c.job);
    if target.None? || c.usage.None? then Outcome(g, None)
    else
      var (order, milestone) := target.value;
      var p := g.platform;
      if order >= |p.orders| || Charge(p.orders[order], milestone, c.usage.value).Err? then Outcome(g, None)
      else Outcome(g.(platform := Platform.ChargedAt(p, order, milestone, c.usage.value)), Some(c.action))
  }

  function Act(g: Gateway, c: Callback): Outcome {
    match c.kind
    case Started => Move(g, c.job, Jobs.Running, "", "", CONTINUE)
    case Finished => Move(g, c.job, Jobs.Completed, c.text, "", CONTINUE)
    case MilestoneReady => Ready(g, c)
    case Broken => Move(g, c.job, Jobs.Failed, "", c.text, CONTINUE)
    case Heartbeat => Outcome(g, if c.binding < |g.service.bindings| then Some(CONTINUE) else None)
    case PauseAsked => Move(g, c.job, Jobs.Cancelled, "", "", PAUSE)
    case Continues => Outcome(g, Some(CONTINUE))
    case UsageReported => Usage(g, c)
    case ArtifactReady =>
      Outcome(g, if FindJob(|g.service.jobs|, c.job).None? || c.refused then None else Some(c.action))
    case BudgetLow => Outcome(g, Some(c.action))
    case Unknown => Outcome(g, None)
  }

  // ---- The gate in front of it ----

  /** A recorded event is acted on, and the decision is kept with it. */
  function Decided(g: Gateway, c: Callback): Outcome {
    var done := Act(g, c);
    if done.decision.None? then done
    else done.(after := done.after.(ledger := Updated(done.after.ledger, c.id, done.decision.value)))
  }

  function Answered(o: Outcome): (Gateway, Reply) {
    (o.after, if o.decision.Some? then Accepted(o.decision.value) else Rejected)
  }

  /** How a callback goes on once the ledger has answered. */
  function Proceeded(g: Gateway, c: Callback, answer: Answer): (Gateway, Reply) {
    match answer
    case Replayed(entry) => (g, Replay(entry.decision))
    case OutOfOrder => (g, Conflict)
    case GapFound => (g, Conflict)
    case Appended(_) => Answered(Decided(g, c))
  }

  function Handle(g: Gateway, c: Callback): (Gateway, Reply) {
    if c.id == "" then Answered(Act(g, c))
    else
      var (ledger, answer) := Recorded(g.ledger, c.job, c.id, c.sequence, c.name, "");
      Proceeded(g.(ledger := ledger), c, answer)
  }

  // ---- Runs: callbacks amid everything else ----

  datatype Event =
    | Delivered(callback: Callback)
    | OnPlatform(event: Platform.Event)
    | OnService(op: Jobs.Op)

  function Apply(g: Gateway, e: Event): Gateway {
    match e
    case Delivered(c) => Handle(g, c).0
    case OnPlatform(p) => g.(platform := Platform.Apply(g.platform, p))
    case OnService(op) => g.(service := Jobs.Apply(g.service, op))
  }

  function Run(g: Gateway, events: seq<Event>): Gateway {
    if events == [] then g else Apply(Run(g, events[..|events| - 1]), events[|events| - 1])
  }

  // ---- Effects, measured on the state ----

  function ChargesOn(ms: seq<Milestone>): nat {
    if ms == [] then 0 else ChargesOn(ms[..|ms| - 1]) + |ms[|ms| - 1].charges|
  }

  /** How many usage charges there are. */
  function Charges(orders: seq<Order>): nat {
    if orders == [] then 0 else Charges(orders[..|orders| - 1]) + ChargesOn(orders[|orders| - 1].milestones)
  }

  lemma {:induction false} ChargesOnUpdate(ms: seq<Milestone>, i: nat, m: Milestone)
    requires i < |ms|
    ensures ChargesOn(ms[i := m]) == ChargesOn(ms) - |ms[i].charges| + |m.charges|
  {
    var n := |ms| - 1;
    if i == n {
      assert ms[i := m][..n] == ms[..n];
    } else {
      assert ms[i := m][..n] == ms[..n][i := m];
      ChargesOnUpdate(ms[..n], i, m);
    }
  }

  lemma {:induction false} ChargesUpdate(orders: seq<Order>, i: nat, o: Order)
    requires i < |orders|
    ensures Charges(orders[i := o]) == Charges(orders) - ChargesOn(orders[i].milestones) + ChargesOn(o.milestones)
  {
    var n := |orders| - 1;
    if i == n {
      assert orders[i := o][..n] == orders[..n];
    } else {
      assert orders[i := o][..n] == orders[..n][i := o];
      ChargesUpdate(orders[..n], i, o);
    }
  }

  /** A recorded charge is one more, and nothing else about the platform's ledger changes. */
  lemma ChargeAddsOne(p: Platform.State, n: nat, id: string, c: UsageCharge)
    requires n < |p.orders| && Charge(p.orders[n], id, c).Ok?
    ensures Charges(Platform.ChargedAt(p, n, id, c).orders) == Charges(p.orders) + 1
    ensures Platform.ChargedAt(p, n, id, c).entries == p.entries
  {
    var o := Charge(p.orders[n], id, c).value;
    var i := Find(p.orders[n].milestones, id);
    ChargesOnUpdate(p.orders[n].milestones, i, o.milestones[i]);
    ChargesUpdate(p.orders, n, o);
  }

  lemma SettleChargesSame(o: Order, id: string, summary: string, anomalies: seq<string>)
    requires Settle(o, id, summary).Ok?
    ensures ChargesOn(Platform.OrderRuns.AfterSettle(Settle(o, id, summary).value.0, id, anomalies).milestones) ==
            ChargesOn(o.milestones)
  {
    var ms := o.milestones;
    var i := Find(ms, id);
    var settled := Settle(o, id, summary).value.0.milestones;
    ChargesOnUpdate(ms, i, settled[i]);
    var r := Reconciled(settled, id, anomalies);
    var k := Find(settled, id);
    if k < |settled| && anomalies != [] {
      ChargesOnUpdate(settled, k, r[k]);
    }
    var n := NextPending(r, id, 0, false);
    if n < |r| {
      ChargesOnUpdate(r, n, r[n].(state := MilestoneState.Running));
    }
  }

  /** A settlement is one ledger entry more, and no charge. */
  lemma SettleAddsOne(p: Platform.State, n: nat, id: string, summary: string, anomalies: seq<string>)
    requires n < |p.orders| && Settle(p.orders[n], id, summary).Ok?
    ensures var q := Platform.SettledAt(p, n, id, summary, anomalies);
            |q.entries| == |p.entries| + 1 && Charges(q.orders) == Charges(p.orders)
  {
    var o := Settle(p.orders[n], id, summary).value.0;
    SettleChargesSame(p.orders[n], id, summary, anomalies);
    ChargesUpdate(p.orders, n, Platform.OrderRuns.AfterSettle(o, id, anomalies));
  }

  /** How many charges and how many settlements an event brought about. */
  function NewCharges(g: Gateway, e: Event): int { Charges(Apply(g, e).platform.orders) - Charges(g.platform.orders) }

  function NewSettlements(g: Gateway, e: Event): int { |Apply(g, e).platform.entries| - |g.platform.entries| }

  predicate Bears(e: Event, id: string) { e.Delivered? && e.callback.id == id }

  /** What the deliveries of one event id brought about in a run. */
  function ChargesBy(g: Gateway, events: seq<Event>, id: string): int {
    if events == [] then 0
    else
      var past, e := events[..|events| - 1], events[|events| - 1];
      ChargesBy(g, past, id) + if Bears(e, id) then NewCharges(Run(g, past), e) else 0
  }

  function SettlementsBy(g: Gateway, events: seq<Event>, id: string): int {
    if events == [] then 0
    else
      var past, e := events[..|events| - 1], events[|events| - 1];
      SettlementsBy(g, past, id) + if Bears(e, id) then NewSettlements(Run(g, past), e) else 0
  }

  // ---- At most once ----

  predicate Known(ledger: seq<Entry>, id: string) { IndexOf(ledger, id) < |ledger| }

  lemma ActEffects(g: Gateway, c: Callback)
    ensures var a := Act(g, c).after;
            && a.ledger == g.ledger
            && 0 <= Charges(a.platform.orders) - Charges(g.platform.orders) <=
               (if c.kind == UsageReported then 1 else 0)
            && 0 <= |a.platform.entries| - |g.platform.entries| <= (if c.kind == MilestoneReady then 1 else 0)
  {
    match c.kind
    case MilestoneReady => ReadyEffects(g, c);
    case UsageReported => UsageEffects(g, c);
    case _ =>
  }

  lemma MoveEffects(g: Gateway, id: string, to: Jobs.JobState, output: string, error: string, decision: string)
    ensures var a := Move(g, id, to, output, error, decision).after; a.ledger == g.ledger && a.platform == g.platform
  {
  }

  lemma SettlingEffects(g: Gateway, c: Callback, target: Option<(nat, string)>)
    ensures var a := Settling(g, c, target).after;
            && a.ledger == g.ledger && Charges(a.platform.orders) == Charges(g.platform.orders)
            && 0 <= |a.platform.entries| - |g.platform.entries| <= 1
  {
    if target.Some? {
      var (order, milestone) := target.value;
      if order < |g.platform.orders| && Settle(g.platform.orders[order], milestone, c.text).Ok? {
        SettleAddsOne(g.platform, order, milestone, c.text, c.anomalies);
      }
    }
  }

  lemma ReadyEffects(g: Gateway, c: Callback)
    ensures var a := Ready(g, c).after;
            && a.ledger == g.ledger && Charges(a.platform.orders) == Charges(g.platform.orders)
            && 0 <= |a.platform.entries| - |g.platform.entries| <= 1
  {
    var done := Move(g, c.job, Jobs.Completed, c.text, "", CONTINUE);
    MoveEffects(g, c.job, Jobs.Completed, c.text, "", CONTINUE);
    SettlingEffects(done.after, c, Target(done.after.service, c.job));
  }

  lemma UsageEffects(g: Gateway, c: Callback)
    ensures var a := Usage(g, c).after;
            && a.ledger == g.ledger && |a.platform.entries| == |g.platform.entries|
            && 0 <= Charges(a.platform.orders) - Charges(g.platform.orders) <= 1
  {
    var target := Target(g.service, c.job);
    if target.Some? && c.usage.Some? {
      var (order, milestone) := target.value;
      if order < |g.platform.orders| && Charge(g.platform.orders[order], milestone, c.usage.value).Ok? {
        ChargeAddsOne(g.platform, order, milestone, c.usage.value);
      }
    }
  }

  /** A known event id changes nothing and answers with the decision kept for it; a number that is not
      the next one changes nothing either. */
  lemma GateKeeps(g: Gateway, c: Callback)
    requires c.id != ""
    ensures Known(g.ledger, c.id) ==> Handle(g, c) == (g, Replay(g.ledger[IndexOf(g.ledger, c.id)].decision))
    ensures Handle(g, c).1 == Conflict ==> Handle(g, c).0 == g
    ensures Handle(g, c).1 == Conflict <==> !Known(g.ledger, c.id) && LastNumber(g.ledger, c.job) > 0 &&
                                            c.sequence != LastNumber(g.ledger, c.job) + 1
  {
  }

  /** What a delivery does to the ledger: nothing, or one entry with the decision, if there is one. */
  lemma HandleLedger(g: Gateway, c: Callback)
    ensures var (h, reply) := Handle(g, c);
            if c.id == "" || Known(g.ledger, c.id) || reply == Conflict then h.ledger == g.ledger
            else |h.ledger| == |g.ledger| + 1 && h.ledger[..|g.ledger|] == g.ledger &&
                 h.ledger[|g.ledger|].facts.id == c.id &&
                 h.ledger[|g.ledger|].decision == (if reply.Accepted? then reply.decision else "") &&
                 (reply.Accepted? || reply == Rejected)
  {
    if c.id == "" {
      ActEffects(g, c);
    } else {
      var (ledger, answer) := Recorded(g.ledger, c.job, c.id, c.sequence, c.name, "");
      ActEffects(g.(ledger := ledger), c);
      if answer.Appended? {
        AppendedLast(g.ledger, answer.entry, c.id);
      }
    }
  }

  lemma AppendedLast(h: seq<Entry>, e: Entry, id: string)
    requires !Known(h, id) && e.facts.id == id
    ensures IndexOf(h + [e], id) == |h|
  {
    assert (h + [e])[|h|] == e;
  }

  /** An entry stays what it is: same facts, same decision. */
  lemma EntryStays(g: Gateway, e: Event, i: nat)
    requires i < |g.ledger|
    ensures i < |Apply(g, e).ledger| && Apply(g, e).ledger[i] == g.ledger[i]
  {
    if e.Delivered? {
      HandleLedger(g, e.callback);
      var h := Handle(g, e.callback).0.ledger;
      if h != g.ledger {
        assert h[..|g.ledger|][i] == h[i];
      }
    }
  }

  lemma {:induction false} EntryStaysInRun(g: Gateway, events: seq<Event>, i: nat)
    requires i < |g.ledger|
    ensures i < |Run(g, events).ledger| && Run(g, events).ledger[i] == g.ledger[i]
  {
    if events != [] {
      EntryStaysInRun(g, events[..|events| - 1], i);
      EntryStays(Run(g, events[..|events| - 1]), events[|events| - 1], i);
    }
  }

  lemma KnownAt(h: seq<Entry>, i: nat, id: string)
    requires i < |h| && h[i].facts.id == id
    ensures Known(h, id)
  {
  }

  lemma StaysKnown(g: Gateway, e: Event, id: string)
    requires Known(g.ledger, id)
    ensures Known(Apply(g, e).ledger, id)
  {
    var i := IndexOf(g.ledger, id);
    EntryStays(g, e, i);
    KnownAt(Apply(g, e).ledger, i, id);
  }

  lemma DecidedEffects(g: Gateway, c: Callback)
    ensures var a := Decided(g, c).after.platform;
            && 0 <= Charges(a.orders) - Charges(g.platform.orders) <= (if c.kind == UsageReported then 1 else 0)
            && 0 <= |a.entries| - |g.platform.entries| <= (if c.kind == MilestoneReady then 1 else 0)
  {
    ActEffects(g, c);
  }

  /** A delivery has effects of its own only if its id was unknown, and then the id is known. */
  lemma DeliveryEffects(g: Gateway, c: Callback)
    requires c.id != ""
    ensures var e := Delivered(c);
            && 0 <= NewCharges(g, e) <= 1 && 0 <= NewSettlements(g, e) <= 1 &&
               NewCharges(g, e) + NewSettlements(g, e) <= 1
            && (NewCharges(g, e) + NewSettlements(g, e) > 0 ==>
                !Known(g.ledger, c.id) && Known(Apply(g, e).ledger, c.id))
  {
    var (ledger, answer) := Recorded(g.ledger, c.job, c.id, c.sequence, c.name, "");
    if answer.Appended? {
      HandleLedger(g, c);
      DecidedEffects(g.(ledger := ledger), c);
      KnownAt(Apply(g, Delivered(c)).ledger, |g.ledger|, c.id);
    } else {
      assert Handle(g, c).0 == g;
    }
  }

  /** For every stream of callbacks, in any order, with any duplicates and amid any other activity, each
      event id causes at most one usage charge or one settlement, and none at all if it was known
      before. */
  lemma {:induction false} AtMostOnce(g: Gateway, events: seq<Event>, id: string)
    requires id != ""
    ensures 0 <= ChargesBy(g, events, id) && 0 <= SettlementsBy(g, events, id)
    ensures ChargesBy(g, events, id) + SettlementsBy(g, events, id) <= if Known(g.ledger, id) then 0 else 1
    ensures ChargesBy(g, events, id) + SettlementsBy(g, events, id) > 0 || Known(g.ledger, id) ==>
            Known(Run(g, events).ledger, id)
  {
    if events != [] {
      var past, e := events[..|events| - 1], events[|events| - 1];
      var t := Run(g, past);
      AtMostOnce(g, past, id);
      if Bears(e, id) {
        DeliveryEffects(t, e.callback);
      }
      if Known(t.ledger, id) {
        StaysKnown(t, e, id);
      }
    }
  }

  /** However much later an event is delivered again, and whatever the delivery says, it answers with the
      decision made the first time, or with none if the first time ended in an error. */
  lemma RedeliveryAnswers(g: Gateway, c: Callback, later: seq<Event>, again: Callback)
    requires c.id != "" && again.id == c.id && Screened(g.ledger, c.job, c.id, c.sequence).Next?
    ensures var (h, reply) := Handle(g, c);
            var u := Run(h, later);
            && (reply.Accepted? || reply == Rejected)
            && Handle(u, again) == (u, Replay(if reply.Accepted? then reply.decision else ""))
  {
    var h := Handle(g, c).0;
    var u := Run(h, later);
    HandleLedger(g, c);
    EntryStaysInRun(h, later, |g.ledger|);
    assert forall j :: 0 <= j < |g.ledger| ==> h.ledger[j] == h.ledger[..|g.ledger|][j] == g.ledger[j];
    forall j | 0 <= j < |g.ledger| ensures u.ledger[j].facts.id != c.id {
      EntryStaysInRun(h, later, j);
    }
    assert IndexOf(u.ledger, c.id) == |g.ledger|;
    GateKeeps(u, again);
  }

  // ---- Deliveries that end in an error ----

  /** The job exists and can be in the state asked for. */
  predicate Movable(s: Jobs.State, id: string, to: Jobs.JobState) {
    var job := FindJob(|s.jobs|, id);
    job.Some? && (Jobs.CanTransition(s.jobs[job.value].state, to) || s.jobs[job.value].state == to)
  }

  predicate CanSettle(g: Gateway, c: Callback) {
    var target := Target(g.service, c.job);
    target.Some? && target.value.0 < |g.platform.orders| &&
    Settle(g.platform.orders[target.value.0], target.value.1, c.text).Ok?
  }

  predicate CanCharge(g: Gateway, c: Callback) {
    var target := Target(g.service, c.job);
    target.Some? && c.usage.Some? && target.value.0 < |g.platform.orders| &&
    Charge(g.platform.orders[target.value.0], target.value.1, c.usage.value).Ok?
  }

  /** What can be told before the call: the callback ends in an error. */
  predicate Fails(g: Gateway, c: Callback) {
    match c.kind
    case Started => !Movable(g.service, c.job, Jobs.Running)
    case Finished => !Movable(g.service, c.job, Jobs.Completed)
    case MilestoneReady => c.refused || !Movable(g.service, c.job, Jobs.Completed) || !CanSettle(g, c)
    case Broken => !Movable(g.service, c.job, Jobs.Failed)
    case Heartbeat => c.binding >= |g.service.bindings|
    case PauseAsked => !Movable(g.service, c.job, Jobs.Cancelled)
    case Continues => false
    case UsageReported => !CanCharge(g, c)
    case ArtifactReady => FindJob(|g.service.jobs|, c.job).None? || c.refused
    case BudgetLow => false
    case Unknown => true
  }

  lemma MoveFails(g: Gateway, id: string, to: Jobs.JobState, output: string, error: string, decision: string)
    ensures var m := Move(g, id, to, output, error, decision);
            && (m.decision.None? <==> !Movable(g.service, id, to))
            && Target(m.after.service, id) == Target(g.service, id)
  {
  }

  lemma ReadyFails(g: Gateway, c: Callback)
    ensures Ready(g, c).decision.None? <==> c.refused || !Movable(g.service, c.job, Jobs.Completed) || !CanSettle(g, c)
    ensures Ready(g, c).decision.None? ==> Ready(g, c).after.platform == g.platform
  {
    MoveFails(g, c.job, Jobs.Completed, c.text, "", CONTINUE);
    MoveEffects(g, c.job, Jobs.Completed, c.text, "", CONTINUE);
  }

  lemma UsageFails(g: Gateway, c: Callback)
    ensures Usage(g, c).decision.None? <==> !CanCharge(g, c)
    ensures Usage(g, c).decision.None? ==> Usage(g, c).after == g
  {
  }

  /** A callback ends in an error exactly in the cases that can be told before, and then has not touched the
      platform. */
  lemma ActFails(g: Gateway, c: Callback)
    ensures Act(g, c).decision.None? <==> Fails(g, c)
    ensures Act(g, c).decision.None? ==> Act(g, c).after.platform == g.platform
  {
    match c.kind
    case Started => MoveFails(g, c.job, Jobs.Running, "", "", CONTINUE);
    case Finished => MoveFails(g, c.job, Jobs.Completed, c.text, "", CONTINUE);
    case MilestoneReady => ReadyFails(g, c);
    case Broken => MoveFails(g, c.job, Jobs.Failed, "", c.text, CONTINUE);
    case PauseAsked => MoveFails(g, c.job, Jobs.Cancelled, "", "", PAUSE);
    case UsageReported => UsageFails(g, c);
    case _ =>
  }

  /** A first delivery is rejected exactly if it is bound to fail. */
  lemma FirstRejected(g: Gateway, c: Callback)
    requires c.id != "" && Screened(g.ledger, c.job, c.id, c.sequence).Next?
    ensures Handle(g, c).1 == Rejected <==> Fails(g, c)
    ensures Handle(g, c).1 == Rejected ==> Handle(g, c).0.platform == g.platform
  {
    var ledger := Recorded(g.ledger, c.job, c.id, c.sequence, c.name, "").0;
    ActFails(g.(ledger := ledger), c);
    FailsAlike(g, ledger, c);
  }

  lemma FailsAlike(g: Gateway, ledger: seq<Entry>, c: Callback)
    ensures Fails(g.(ledger := ledger), c) <==> Fails(g, c)
  {
  }

  /** A rejected event is lost: however often and however much later it is delivered again, even if it could be
      acted on by then, it never charges or settles anything and is answered with an empty decision. */
  lemma RejectedForGood(g: Gateway, c: Callback, later: seq<Event>, again: Callback)
    requires c.id != "" && Screened(g.ledger, c.job, c.id, c.sequence).Next? && Fails(g, c) && again.id == c.id
    ensures var h := Handle(g, c).0;
            && Handle(g, c).1 == Rejected && h.platform == g.platform
            && ChargesBy(h, later, c.id) == 0 && SettlementsBy(h, later, c.id) == 0
            && Handle(Run(h, later), again) == (Run(h, later), Replay(""))
  {
    var h := Handle(g, c).0;
    FirstRejected(g, c);
    HandleLedger(g, c);
    KnownAt(h.ledger, |g.ledger|, c.id);
    AtMostOnce(h, later, c.id);
    RedeliveryAnswers(g, c, later, again);
  }

  /** The gateway before anything has happened. */
  function Empty(limits: map<string, int>): Gateway { Gateway([], Jobs.EMPTY, Platform.Start(limits)) }

  /** For instance a usage report that arrives before its job exists. */
  lemma TooEarly(limits: map<string, int>, c: Callback, later: seq<Event>, again: Callback)
    requires c.id != "" && c.kind == UsageReported && again.id == c.id
    ensures var (h, reply) := Handle(Empty(limits), c);
            && reply == Rejected && Handle(Run(h, later), again) == (Run(h, later), Replay(""))
            && ChargesBy(h, later, c.id) == 0
  {
    assert Fails(Empty(limits), c);
    RejectedForGood(Empty(limits), c, later, again);
  }
}
