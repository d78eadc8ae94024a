/** What each call does to an order, said on the order's own fields: which milestone it concerns, when it is
    accepted, what changes and what does not. */
module OrderEffects {
  import opened Workflow
  import opened OrderRuns

  /** Milestone i is the first one with the id. */
  ghost predicate FirstWith(ms: seq<Milestone>, id: string, i: nat) {
    i < |ms| && ms[i].id == id && forall j :: 0 <= j < i ==> ms[j].id != id
  }

  ghost predicate NoneWith(ms: seq<Milestone>, id: string) { forall j :: 0 <= j < |ms| ==> ms[j].id != id }

  /** The orders differ at most in the status and in milestone i. */
  ghost predicate OnlyAt(o: Order, p: Order, i: nat) {
    && p.id == o.id && p.buyer == o.buyer && p.provider == o.provider && p.funding == o.funding
    && |p.milestones| == |o.milestones|
    && forall j :: 0 <= j < |o.milestones| && j != i ==> p.milestones[j] == o.milestones[j]
  }

  /** The milestones differ at most in state, dispute, budget, charges and settlement. */
  ghost predicate SameOffer(m: Milestone, n: Milestone) {
    n.id == m.id && n.title == m.title && n.basePrice == m.basePrice && n.flags == m.flags
  }

  lemma Located(ms: seq<Milestone>, id: string, i: nat)
    ensures FirstWith(ms, id, i) ==> Find(ms, id) == i
    ensures NoneWith(ms, id) ==> Find(ms, id) == |ms|
  {
  }

  lemma Unlocated(o: Order, id: string, summary: string, c: UsageCharge, cents: int)
    requires NoneWith(o.milestones, id)
    ensures Settle(o, id, summary) == Err(MilestoneNotFound) && Charge(o, id, c) == Err(MilestoneNotFound)
    ensures Dispute(o, id, cents) == Err(MilestoneNotFound) && Resolve(o, id) == Err(MilestoneNotFound)
    ensures TopUp(o, id, cents) == Err(if id == "" || cents <= 0 then MissingFields else MilestoneNotFound)
  {
    Located(o.milestones, id, 0);
  }

  predicate OthersSettled(ms: seq<Milestone>, i: nat) {
    forall j :: 0 <= j < |ms| && j != i ==> ms[j].state == Settled
  }

  lemma LastOne(ms: seq<Milestone>, ns: seq<Milestone>, i: nat)
    requires i < |ms| == |ns| && ns == ms[i := ns[i]] && ns[i].state == Settled
    ensures AllSettled(ns) <==> OthersSettled(ms, i)
  {
    if AllSettled(ns) {
      forall j | 0 <= j < |ms| && j != i ensures ms[j].state == Settled {
        assert ns[j].state == Settled;
      }
    }
  }

  /** A milestone is settled exactly if it is running or paused; it is then paid its price, by the platform's
      exposure unless the order is prepaid, and the order is completed exactly if that was the last. */
  lemma SettleMeans(o: Order, id: string, summary: string, i: nat)
    requires FirstWith(o.milestones, id, i)
    ensures var m := o.milestones[i];
            && (Settle(o, id, summary).Ok? <==> m.state == MilestoneState.Running || m.state == Paused)
            && (Settle(o, id, summary).Err? ==> Settle(o, id, summary).error == NotPayable)
    ensures Settle(o, id, summary).Ok? ==>
              var (p, e), m := Settle(o, id, summary).value, o.milestones[i];
              && OnlyAt(o, p, i) && SameOffer(m, p.milestones[i])
              && p.milestones[i].state == Settled && p.milestones[i].settled == m.basePrice
              && p.milestones[i].summary == summary && p.milestones[i].budget == m.budget
              && p.milestones[i].charges == m.charges && p.milestones[i].dispute == m.dispute
              && p.status == (if OthersSettled(o.milestones, i) then Completed else o.status)
              && e.order == o.id && e.milestone == id && e.amount == m.basePrice
              && e.kind == (if o.funding == Prepaid then ProviderPayout else PlatformExposure)
  {
    Located(o.milestones, id, i);
    if Settle(o, id, summary).Ok? {
      LastOne(o.milestones, Settle(o, id, summary).value.0.milestones, i);
    }
  }

  /** The sum of all charges, the new one included. */
  function Amounts(cs: seq<UsageCharge>): int { if cs == [] then 0 else cs[0].amount + Amounts(cs[1..]) }

  lemma {:induction false} AmountsSnoc(cs: seq<UsageCharge>, c: UsageCharge)
    ensures Amounts(cs + [c]) == Amounts(cs) + c.amount
  {
    if cs == [] {
      assert cs + [c] == [c] && [c][1..] == [];
    } else {
      AmountsSnoc(cs[1..], c);
      assert (cs + [c])[1..] == cs[1..] + [c];
    }
  }

  lemma {:induction false} TotalIsAmounts(cs: seq<UsageCharge>)
    ensures Total(cs) == Amounts(cs)
  {
    if cs != [] {
      var past, c := cs[..|cs| - 1], cs[|cs| - 1];
      TotalIsAmounts(past);
      AmountsSnoc(past, c);
      assert past + [c] == cs;
    }
  }

  /** A charge is accepted exactly if it is positive and the milestone is running or paused.  It is added to the
      charges; the order hits the budget wall exactly if the price and all charges together exceed the budget, and
      otherwise states and status are as before. */
  lemma ChargeMeans(o: Order, id: string, c: UsageCharge, i: nat)
    requires FirstWith(o.milestones, id, i)
    ensures var m := o.milestones[i];
            Charge(o, id, c).Ok? <==> c.amount > 0 && (m.state == MilestoneState.Running || m.state == Paused)
    ensures Charge(o, id, c).Err? ==> Charge(o, id, c).error == if c.amount <= 0 then AmountNotPositive
            else NoUsageAccepted
    ensures Charge(o, id, c).Ok? ==>
              var p, m := Charge(o, id, c).value, o.milestones[i];
              var over := m.basePrice + Amounts(m.charges) + c.amount > m.budget;
              && OnlyAt(o, p, i)
              && p.status == (if over then AwaitingBudget else o.status)
              && p.milestones[i] == m.(charges := m.charges + [c], state := if over then Paused else m.state)
  {
    Located(o.milestones, id, i);
    TotalIsAmounts(o.milestones[i].charges + [c]);
    AmountsSnoc(o.milestones[i].charges, c);
  }

  /** Only a settled milestone can be disputed, for a positive refund up to what was settled.  It is frozen and
      paused, and refund and recovery are booked for the same amount. */
  lemma DisputeMeans(o: Order, id: string, refund: int, i: nat)
    requires FirstWith(o.milestones, id, i)
    ensures Dispute(o, id, refund).Ok? <==> o.milestones[i].state == Settled && 0 < refund <= o.milestones[i].settled
    ensures Dispute(o, id, refund).Err? ==>
              Dispute(o, id, refund).error == if o.milestones[i].state != Settled then NotSettled
              else if refund <= 0 then AmountNotPositive else RefundExceedsSettled
    ensures Dispute(o, id, refund).Ok? ==>
              var (p, x, y), m := Dispute(o, id, refund).value, o.milestones[i];
              && OnlyAt(o, p, i) && p.status == o.status
              && p.milestones[i] == m.(dispute := Frozen, state := Paused)
              && x == LedgerEntry(BuyerReimbursement, o.id, id, refund) &&
                 y == LedgerEntry(ProviderRecovery, o.id, id, refund)
  {
    Located(o.milestones, id, i);
  }

  /** Only a frozen or open dispute can be resolved, which changes nothing but the dispute. */
  lemma ResolveMeans(o: Order, id: string, i: nat)
    requires FirstWith(o.milestones, id, i)
    ensures Resolve(o, id).Ok? <==> o.milestones[i].dispute == Frozen || o.milestones[i].dispute == Open
    ensures Resolve(o, id).Err? ==> Resolve(o, id).error == NoOpenDispute
    ensures Resolve(o, id).Ok? ==>
              var p := Resolve(o, id).value;
              && OnlyAt(o, p, i) && p.status == o.status
              && p.milestones[i] == o.milestones[i].(dispute := DisputeStatus.Resolved)
  {
    Located(o.milestones, id, i);
  }

  /** So a dispute can always be resolved once, and only once. */
  lemma ResolvedOnce(o: Order, id: string, refund: int, i: nat)
    requires FirstWith(o.milestones, id, i) && Dispute(o, id, refund).Ok?
    ensures var p := Dispute(o, id, refund).value.0;
            Resolve(p, id).Ok? && Resolve(Resolve(p, id).value, id) == Err(NoOpenDispute)
  {
    DisputeMeans(o, id, refund, i);
    var p := Dispute(o, id, refund).value.0;
    assert FirstWith(p.milestones, id, i);
    ResolveMeans(p, id, i);
    var q := Resolve(p, id).value;
    assert FirstWith(q.milestones, id, i);
    ResolveMeans(q, id, i);
    Located(q.milestones, id, i);
  }

  /** A top-up needs an id and a positive amount, which goes onto the budget; a paused milestone runs again, and the
      order with it; nothing else changes. */
  lemma TopUpMeans(o: Order, id: string, cents: int, i: nat)
    requires FirstWith(o.milestones, id, i)
    ensures TopUp(o, id, cents).Ok? <==> id != "" && cents > 0
    ensures TopUp(o, id, cents).Err? ==> TopUp(o, id, cents).error == MissingFields
    ensures TopUp(o, id, cents).Ok? ==>
              var p, m := TopUp(o, id, cents).value, o.milestones[i];
              && OnlyAt(o, p, i)
              && p.status == (if m.state == Paused then OrderStatus.Running else o.status)
              && p.milestones[i] == m.(budget := m.budget + cents,
                                       state := if m.state == Paused then MilestoneState.Running else m.state)
  {
    Located(o.milestones, id, i);
  }

  /** A disconnect makes the order wait for its payment rail, pauses what runs and flags every milestone once. */
  lemma DisconnectMeans(o: Order, i: nat)
    requires i < |o.milestones|
    ensures var p, m := Disconnected(o), o.milestones[i];
            && p.status == AwaitingPaymentRail && p == o.(status := p.status, milestones := p.milestones)
            && |p.milestones| == |o.milestones|
            && p.milestones[i] == m.(state := p.milestones[i].state, flags := p.milestones[i].flags)
            && p.milestones[i].state == (if m.state == MilestoneState.Running then Paused else m.state)
            && p.milestones[i].flags == (if DISCONNECTED in m.flags then m.flags else m.flags + [DISCONNECTED])
  {
  }

  /** A recovery runs the order again if it waited for its payment rail, and every milestone that is paused and
      flagged, which loses the flag; the other milestones stay as they are. */
  lemma RecoverMeans(o: Order, i: nat)
    requires i < |o.milestones|
    ensures var p, m := Resumed(o), o.milestones[i];
            && p == o.(status := p.status, milestones := p.milestones) && |p.milestones| == |o.milestones|
            && p.status == (if o.status == AwaitingPaymentRail then OrderStatus.Running else o.status)
            && (if m.state == Paused && DISCONNECTED in m.flags
                then && p.milestones[i] == m.(state := MilestoneState.Running, flags := p.milestones[i].flags)
                     && DISCONNECTED !in p.milestones[i].flags
                     && forall f :: f != DISCONNECTED ==> (f in p.milestones[i].flags <==> f in m.flags)
                else p.milestones[i] == m)
  {
    FlagsKept(o.milestones[i].flags);
  }

  lemma {:induction false} FlagsKept(flags: seq<string>)
    ensures forall f :: f != DISCONNECTED ==> (f in Without(flags, DISCONNECTED) <==> f in flags)
  {
    if flags != [] {
      FlagsKept(flags[1..]);
    }
  }

  /** A reconciliation that finds anomalies puts them in place of the flags of the settled milestone. */
  lemma ReconcileMeans(ms: seq<Milestone>, id: string, anomalies: seq<string>, i: nat)
    requires FirstWith(ms, id, i)
    ensures var ns := Reconciled(ms, id, anomalies);
            && |ns| == |ms| && ns[i] == ms[i].(flags := if anomalies == [] then ms[i].flags else anomalies)
            && forall j :: 0 <= j < |ms| && j != i ==> ns[j] == ms[j]
  {
    Located(ms, id, i);
  }

  /** After a settlement the first pending milestone behind the settled one starts, if there is one. */
  lemma AdvanceMeans(ms: seq<Milestone>, id: string, i: nat, p: nat)
    requires Distinct(ms) && i < |ms| && ms[i].id == id && i < p <= |ms|
    requires (forall j :: i < j < p ==> ms[j].state != Pending) && (p < |ms| ==> ms[p].state == Pending)
    ensures Advance(ms, id) == if p < |ms| then ms[p := ms[p].(state := MilestoneState.Running)] else ms
  {
    NextAt(ms, id, i, p, 0, false);
  }

  lemma {:induction false} NextAt(ms: seq<Milestone>, id: string, i: nat, p: nat, from: nat, found: bool)
    requires Distinct(ms) && i < |ms| && ms[i].id == id && i < p <= |ms| && from <= p && (found <==> i < from)
    requires (forall j :: i < j < p ==> ms[j].state != Pending) && (p < |ms| ==> ms[p].state == Pending)
    ensures NextPending(ms, id, from, found) == p
    decreases |ms| - from
  {
    if from < p {
      NextAt(ms, id, i, p, from + 1, from >= i);
    }
  }

  /** A budget wall is reported exactly for an order awaiting budget with something paused, about the first such
      milestone: its budget, its price and charges, and the difference. */
  lemma WallMeans(o: Order, i: nat)
    ensures BudgetWallInfo(o) == NoWall <==>
            o.status != AwaitingBudget || forall j :: 0 <= j < |o.milestones| ==> o.milestones[j].state != Paused
    ensures o.status == AwaitingBudget && i < |o.milestones| && o.milestones[i].state == Paused &&
            (forall j :: 0 <= j < i ==> o.milestones[j].state != Paused) ==>
              var m := o.milestones[i];
              var spent := m.basePrice + Amounts(m.charges);
              BudgetWallInfo(o) == Wall(m.id, m.budget, spent, spent - m.budget)
  {
    if i < |o.milestones| {
      TotalIsAmounts(o.milestones[i].charges);
    }
  }

  /** A new order has the parties, funding and milestones it was made with; the first runs, the others wait, and
      nothing has been settled, charged, disputed or flagged. */
  lemma NewOrderMeans(id: nat, buyer: string, provider: string, funding: FundingMode, input: seq<MilestoneInput>,
                      i: nat)
    requires i < |input|
    ensures var o := NewOrder(id, buyer, provider, funding, input);
            && o.id == id && o.buyer == buyer && o.provider == provider && o.funding == funding
            && o.status == OrderStatus.Running && |o.milestones| == |input|
            && o.milestones[i].id == input[i].id && o.milestones[i].title == input[i].title
            && o.milestones[i].basePrice == input[i].basePrice && o.milestones[i].budget == input[i].budget
            && o.milestones[i].state == (if i == 0 then MilestoneState.Running else Pending)
            && o.milestones[i].settled == 0 && o.milestones[i].summary == "" && o.milestones[i].charges == []
            && o.milestones[i].dispute == NoDispute && o.milestones[i].flags == []
  {
  }

  // ---- Nothing runs over its budget ----

  predicate Plain(s: Step) { s.SettleStep? || s.UsageStep? || s.ResolveStep? }

  ghost predicate AllPlain(steps: seq<Step>) { forall i :: 0 <= i < |steps| ==> Plain(steps[i]) }

  /** What runs has not spent more than its budget, and what waits has spent nothing but its price. */
  predicate Within(m: Milestone) {
    && (m.state == MilestoneState.Running ==> m.basePrice + Amounts(m.charges) <= m.budget)
    && (m.state == Pending ==> m.charges == [] && m.basePrice <= m.budget)
  }

  ghost predicate AllWithin(ms: seq<Milestone>) { forall i :: 0 <= i < |ms| ==> Within(ms[i]) }

  lemma AdvanceWithin(ms: seq<Milestone>, id: string, anomalies: seq<string>)
    requires AllWithin(ms)
    ensures AllWithin(Advance(Reconciled(ms, id, anomalies), id))
  {
    assert Amounts([]) == 0;
  }

  lemma SettleWithin(o: Order, id: string, summary: string)
    requires AllWithin(o.milestones) && Settle(o, id, summary).Ok?
    ensures AllWithin(Settle(o, id, summary).value.0.milestones)
  {
  }

  lemma ChargeWithin(o: Order, id: string, c: UsageCharge)
    requires AllWithin(o.milestones) && Charge(o, id, c).Ok?
    ensures AllWithin(Charge(o, id, c).value.milestones)
  {
    var i := Find(o.milestones, id);
    assert FirstWith(o.milestones, id, i);
    ChargeMeans(o, id, c, i);
    AmountsSnoc(o.milestones[i].charges, c);
    var ns := Charge(o, id, c).value.milestones;
    forall j | 0 <= j < |ns| ensures Within(ns[j]) {
      assert Within(o.milestones[j]);
    }
  }

  lemma StepWithin(b: Book, s: Step)
    requires AllWithin(b.order.milestones) && Plain(s)
    ensures AllWithin(Apply(b, s).order.milestones)
  {
    match s
    case SettleStep(id, summary, anomalies) =>
      if Settle(b.order, id, summary).Ok? {
        SettleWithin(b.order, id, summary);
        AdvanceWithin(Settle(b.order, id, summary).value.0.milestones, id, anomalies);
      }
    case UsageStep(id, c) =>
      if Charge(b.order, id, c).Ok? {
        ChargeWithin(b.order, id, c);
      }
    case ResolveStep(id) =>
  }

  lemma {:induction false} RunWithin(b: Book, steps: seq<Step>)
    requires AllWithin(b.order.milestones) && AllPlain(steps)
    ensures AllWithin(Run(b, steps).order.milestones)
  {
    if steps != [] {
      var past := steps[..|steps| - 1];
      assert forall i :: 0 <= i < |past| ==> past[i] == steps[i];
      RunWithin(b, past);
      StepWithin(Run(b, past), steps[|steps| - 1]);
    }
  }

  /** From a fresh order with prices within budgets, by settlements, usage and resolutions, no milestone ever runs
      with more spent than its budget. */
  lemma NothingRunsOver(b: Book, steps: seq<Step>, i: nat)
    requires Fresh(b) && AllPlain(steps) && i < |Run(b, steps).order.milestones|
    requires forall j :: 0 <= j < |b.order.milestones| ==>
             b.order.milestones[j].basePrice <= b.order.milestones[j].budget
    ensures var m := Run(b, steps).order.milestones[i];
            m.state == MilestoneState.Running ==> m.basePrice + Amounts(m.charges) <= m.budget
  {
    assert AllWithin(b.order.milestones);
    RunWithin(b, steps);
    assert Within(Run(b, steps).order.milestones[i]);
  }
}
