/** Budgets and usage of one order over its whole life: nothing appears or disappears. */
module OrderMoney {
  import opened Workflow
  import opened OrderRuns
  import opened Platform
  import opened MarketRuns
  import Funding

  /** The usage charged to the milestones. */
  function Used(ms: seq<Milestone>): int {
    if ms == [] then 0 else Used(ms[..|ms| - 1]) + Total(ms[|ms| - 1].charges)
  }

  /** What a step adds to the budgets, and to the usage. */
  function Granted(b: Book, s: Step): int {
    if s.TopUpStep? && TopUp(b.order, s.id, s.cents).Ok? then s.cents else 0
  }

  function Charged(b: Book, s: Step): int {
    if s.UsageStep? && Charge(b.order, s.id, s.charge).Ok? then s.charge.amount else 0
  }

  function AllGranted(b: Book, steps: seq<Step>): int {
    if steps == [] then 0
    else
      var past := steps[..|steps| - 1];
      AllGranted(b, past) + Granted(OrderRuns.Run(b, past), steps[|steps| - 1])
  }

  function AllCharged(b: Book, steps: seq<Step>): int {
    if steps == [] then 0
    else
      var past := steps[..|steps| - 1];
      AllCharged(b, past) + Charged(OrderRuns.Run(b, past), steps[|steps| - 1])
  }

  lemma {:induction false} BudgetUpdate(ms: seq<Milestone>, i: nat, m: Milestone)
    requires i < |ms|
    ensures BudgetOf(ms[i := m]) == BudgetOf(ms) - ms[i].budget + m.budget
    ensures Used(ms[i := m]) == Used(ms) - Total(ms[i].charges) + Total(m.charges)
  {
    var n := |ms| - 1;
    if i == n {
      assert ms[i := m][..n] == ms[..n];
    } else {
      assert ms[i := m][..n] == ms[..n][i := m];
      BudgetUpdate(ms[..n], i, m);
    }
  }

  ghost predicate SameCharges(ms: seq<Milestone>, ns: seq<Milestone>) {
    |ms| == |ns| && forall i :: 0 <= i < |ms| ==> ns[i].charges == ms[i].charges
  }

  lemma {:induction false} UsedSame(ms: seq<Milestone>, ns: seq<Milestone>)
    requires SameCharges(ms, ns)
    ensures Used(ms) == Used(ns)
  {
    if ms != [] {
      UsedSame(ms[..|ms| - 1], ns[..|ns| - 1]);
    }
  }

  lemma SettleCharges(o: Order, id: string, summary: string, anomalies: seq<string>)
    requires Settle(o, id, summary).Ok?
    ensures SameCharges(o.milestones, AfterSettle(Settle(o, id, summary).value.0, id, anomalies).milestones)
  {
  }

  lemma LocalCharges(o: Order, id: string, cents: int)
    ensures match Dispute(o, id, cents)
            case Ok((p, _, _)) => SameCharges(o.milestones, p.milestones)
            case Err(_) => true
    ensures match Resolve(o, id) case Ok(p) => SameCharges(o.milestones, p.milestones) case Err(_) => true
    ensures match TopUp(o, id, cents) case Ok(p) => SameCharges(o.milestones, p.milestones) case Err(_) => true
  {
  }

  lemma OutageCharges(o: Order)
    ensures SameCharges(o.milestones, Disconnected(o).milestones) && SameCharges(o.milestones, Resumed(o).milestones)
  {
  }

  lemma OtherCharges(b: Book, s: Step)
    requires !s.UsageStep?
    ensures SameCharges(b.order.milestones, OrderRuns.Apply(b, s).order.milestones)
  {
    match s
    case SettleStep(id, summary, anomalies) =>
      if Settle(b.order, id, summary).Ok? {
        SettleCharges(b.order, id, summary, anomalies);
      }
    case DisputeStep(id, refund) => LocalCharges(b.order, id, refund);
    case ResolveStep(id) => LocalCharges(b.order, id, 0);
    case TopUpStep(id, cents) => LocalCharges(b.order, id, cents);
    case _ => OutageCharges(b.order);
  }

  lemma StepUsed(b: Book, s: Step)
    ensures Used(OrderRuns.Apply(b, s).order.milestones) == Used(b.order.milestones) + Charged(b, s)
  {
    var ms, ns := b.order.milestones, OrderRuns.Apply(b, s).order.milestones;
    if s.UsageStep? {
      if Charge(b.order, s.id, s.charge).Ok? {
        var i := Find(ms, s.id);
        TotalSnoc(ms[i].charges, s.charge);
        BudgetUpdate(ms, i, ns[i]);
        assert ns == ms[i := ns[i]];
      }
    } else {
      OtherCharges(b, s);
      UsedSame(ms, ns);
    }
  }

  lemma StepBudget(b: Book, s: Step)
    ensures BudgetOf(OrderRuns.Apply(b, s).order.milestones) == BudgetOf(b.order.milestones) + Granted(b, s)
  {
    var ms, ns := b.order.milestones, OrderRuns.Apply(b, s).order.milestones;
    if s.TopUpStep? {
      if TopUp(b.order, s.id, s.cents).Ok? {
        var i := Find(ms, s.id);
        BudgetUpdate(ms, i, ns[i]);
        assert ns == ms[i := ns[i]];
      }
    } else {
      StepKeepsTerms(b, s);
      Funding.SameBudgets(ms, ns);
    }
  }

  /** In every run of all seven steps the budgets are the original ones plus the top-ups that were
      accepted, and the usage is the sum of the charges that were accepted. */
  lemma {:induction false} MoneyAddsUp(b: Book, steps: seq<Step>)
    ensures var ms := OrderRuns.Run(b, steps).order.milestones;
            && BudgetOf(ms) == BudgetOf(b.order.milestones) + AllGranted(b, steps)
            && Used(ms) == Used(b.order.milestones) + AllCharged(b, steps)
  {
    if steps != [] {
      var past := steps[..|steps| - 1];
      MoneyAddsUp(b, past);
      StepBudget(OrderRuns.Run(b, past), steps[|steps| - 1]);
      StepUsed(OrderRuns.Run(b, past), steps[|steps| - 1]);
    }
  }
}
