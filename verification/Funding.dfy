/** The two funding gates over whole runs: what is checked when an order is admitted goes on holding. */
module Funding {
  import opened Options
  import opened Workflow
  import opened Settlement
  import opened Market
  import opened Platform
  import opened PlatformRuns
  import opened MarketRuns
  import OrderRuns
  import DeskRuns

  // ---- Sums over orders ----

  function Commitment(o: Order, buyer: string): int {
    if o.buyer == buyer && PrepaidCommitted(o) then Unsettled(o.milestones) else 0
  }

  function CreditOf(o: Order, buyer: string): int {
    if UsesCredit(o, buyer) then BudgetOf(o.milestones) else 0
  }

  lemma CommittedSnoc(orders: seq<Order>, o: Order, buyer: string)
    ensures Committed(orders + [o], buyer) == Committed(orders, buyer) + Commitment(o, buyer)
    ensures CreditUsed(orders + [o], buyer) == CreditUsed(orders, buyer) + CreditOf(o, buyer)
  {
  }

  /** If no order commits more than before, the orders together do not. */
  lemma {:induction false} CommittedBelow(before: seq<Order>, after: seq<Order>, buyer: string)
    requires |before| == |after|
    requires forall n :: 0 <= n < |before| ==> Commitment(after[n], buyer) <= Commitment(before[n], buyer)
    ensures Committed(after, buyer) <= Committed(before, buyer)
  {
    if before != [] {
      var i := |before| - 1;
      CommittedBelow(before[..i], after[..i], buyer);
      assert Commitment(after[i], buyer) <= Commitment(before[i], buyer);
    }
  }

  lemma {:induction false} CreditBelow(before: seq<Order>, after: seq<Order>, buyer: string)
    requires |before| == |after|
    requires forall n :: 0 <= n < |before| ==> CreditOf(after[n], buyer) <= CreditOf(before[n], buyer)
    ensures CreditUsed(after, buyer) <= CreditUsed(before, buyer)
  {
    if before != [] {
      var i := |before| - 1;
      CreditBelow(before[..i], after[..i], buyer);
      assert CreditOf(after[i], buyer) <= CreditOf(before[i], buyer);
    }
  }

  // ---- What the sums are made of ----

  /** One order commits the positive rests of its unsettled milestones, if it is the buyer's, prepaid, and running or
      waiting for budget or payment rail. */
  lemma CommittedOfOne(o: Order, orders: seq<Order>, buyer: string)
    ensures Committed([], buyer) == 0
    ensures Committed(orders + [o], buyer) ==
            Committed(orders, buyer) +
            if o.buyer == buyer && o.funding == Prepaid &&
               (o.status == OrderStatus.Running || o.status == AwaitingBudget || o.status == AwaitingPaymentRail)
            then Unsettled(o.milestones) else 0
  {
    assert (orders + [o])[..|orders|] == orders;
  }

  lemma UnsettledOfOne(m: Milestone, ms: seq<Milestone>)
    ensures Unsettled([]) == 0
    ensures Unsettled(ms + [m]) ==
            Unsettled(ms) + if m.state == Settled || m.budget <= m.settled then 0 else m.budget - m.settled
  {
    assert (ms + [m])[..|ms|] == ms;
  }

  /** One order takes up all its budgets, if it is the buyer's, on credit, and running or waiting for budget. */
  lemma CreditOfOne(o: Order, orders: seq<Order>, buyer: string)
    ensures CreditUsed([], buyer) == 0
    ensures CreditUsed(orders + [o], buyer) ==
            CreditUsed(orders, buyer) +
            if o.buyer == buyer && o.funding == Credit &&
              (o.status == OrderStatus.Running || o.status == AwaitingBudget)
            then BudgetOf(o.milestones) else 0
  {
    assert (orders + [o])[..|orders|] == orders;
  }

  lemma BudgetOfOne(m: Milestone, ms: seq<Milestone>)
    ensures BudgetOf([]) == 0 && BudgetOf(ms + [m]) == BudgetOf(ms) + m.budget
  {
    assert (ms + [m])[..|ms|] == ms;
  }

  /** An order is placed exactly if parties and milestones are given and the gate of its funding lets it through: for
      prepaid, enough paid in beyond what is committed; for credit with a limit, enough of it unused. */
  lemma PlacedMeans(s: State, x: OrderInput)
    ensures var total := Budget(x.milestones);
            var paid := if x.buyer in s.credited then s.credited[x.buyer] else 0;
            var let := && x.buyer != "" && x.provider != "" && |x.milestones| > 0
                       && (x.funding == Prepaid && total > 0 ==> Committed(s.orders, x.buyer) + total <= paid)
                       && (x.funding == Credit && x.buyer in s.limits ==>
                             CreditUsed(s.orders, x.buyer) + total <= s.limits[x.buyer]);
            if let then Placed(s, x) == s.(orders := s.orders +
                                           [NewOrder(|s.orders|, x.buyer, x.provider, x.funding, x.milestones)])
            else Placed(s, x) == s
  {
  }

  // ---- The filtered list ----

  /** What the store is asked for. */
  predicate Matches(o: Order, buyer: string) {
    (buyer == "" || o.buyer == buyer) && PrepaidCommitted(o)
  }

  function Filtered(orders: seq<Order>, buyer: string): seq<Order> {
    if orders == [] then []
    else
      var o := orders[|orders| - 1];
      Filtered(orders[..|orders| - 1], buyer) + if Matches(o, buyer) then [o] else []
  }

  lemma {:induction false} CommittedFiltered(orders: seq<Order>, buyer: string)
    ensures Committed(Filtered(orders, buyer), buyer) == Committed(orders, buyer)
  {
    if orders != [] {
      var past, o := orders[..|orders| - 1], orders[|orders| - 1];
      CommittedFiltered(past, buyer);
      if Matches(o, buyer) {
        CommittedSnoc(Filtered(past, buyer), o, buyer);
      } else {
        assert Filtered(past, buyer) + [] == Filtered(past, buyer);
      }
    }
  }

  lemma {:induction false} CommittedAppend(a: seq<Order>, b: seq<Order>, buyer: string)
    ensures Committed(a + b, buyer) == Committed(a, buyer) + Committed(b, buyer)
  {
    if b == [] {
      assert a + b == a;
    } else {
      CommittedAppend(a, b[..|b| - 1], buyer);
      assert (a + b)[..|a + b| - 1] == a + b[..|b| - 1];
    }
  }

  lemma TakeOut(b: seq<Order>, i: nat, buyer: string)
    requires i < |b|
    ensures var rest := b[..i] + b[i + 1..];
            multiset(b) == multiset(rest) + multiset{b[i]} &&
            Committed(b, buyer) == Committed(rest, buyer) + Commitment(b[i], buyer)
  {
    assert b == b[..i] + [b[i]] + b[i + 1..];
    CommittedAppend(b[..i], b[i + 1..], buyer);
    CommittedSnoc(b[..i], b[i], buyer);
    CommittedAppend(b[..i] + [b[i]], b[i + 1..], buyer);
  }

  lemma Remains(x: multiset<Order>, y: multiset<Order>, o: Order)
    requires x + multiset{o} == y + multiset{o}
    ensures x == y
  {
    assert x == (x + multiset{o}) - multiset{o};
    assert y == (y + multiset{o}) - multiset{o};
  }

  /** The order in which a list is summed does not matter. */
  lemma {:induction false} CommittedPermuted(a: seq<Order>, b: seq<Order>, buyer: string)
    requires multiset(a) == multiset(b)
    ensures Committed(a, buyer) == Committed(b, buyer)
  {
    if a == [] {
      assert |multiset(b)| == 0;
    } else {
      var past, o := a[..|a| - 1], a[|a| - 1];
      assert a == past + [o];
      assert o in multiset(b);
      var i :| 0 <= i < |b| && b[i] == o;
      TakeOut(b, i, buyer);
      Remains(multiset(past), multiset(b[..i] + b[i + 1..]), o);
      CommittedPermuted(past, b[..i] + b[i + 1..], buyer);
    }
  }

  /** Summing over the filtered orders, listed in whatever order, is summing over all orders. */
  lemma ListedIsEnough(orders: seq<Order>, listed: seq<Order>, buyer: string)
    requires multiset(listed) == multiset(Filtered(orders, buyer))
    ensures Committed(listed, buyer) == Committed(orders, buyer)
  {
    CommittedPermuted(listed, Filtered(orders, buyer), buyer);
    CommittedFiltered(orders, buyer);
  }

  // ---- One order never asks for more ----

  function Outlay(m: Milestone): int {
    if m.state != Settled && m.budget - m.settled > 0 then m.budget - m.settled else 0
  }

  lemma {:induction false} UnsettledBelow(ms: seq<Milestone>, ns: seq<Milestone>)
    requires |ms| == |ns| && forall i :: 0 <= i < |ms| ==> Outlay(ns[i]) <= Outlay(ms[i])
    ensures 0 <= Unsettled(ns) <= Unsettled(ms)
  {
    if ms != [] {
      var i := |ms| - 1;
      UnsettledBelow(ms[..i], ns[..i]);
      assert Outlay(ns[i]) <= Outlay(ms[i]);
    }
  }

  lemma {:induction false} SettledOwesNothing(ms: seq<Milestone>)
    requires AllSettled(ms)
    ensures Unsettled(ms) == 0
  {
    if ms != [] {
      SettledOwesNothing(ms[..|ms| - 1]);
    }
  }

  lemma {:induction false} SameBudgets(ms: seq<Milestone>, ns: seq<Milestone>)
    requires SameTerms(ms, ns, true)
    ensures BudgetOf(ms) == BudgetOf(ns)
  {
    if ms != [] {
      SameBudgets(ms[..|ms| - 1], ns[..|ns| - 1]);
    }
  }

  lemma SettleOutlay(o: Order, id: string, summary: string)
    requires Settle(o, id, summary).Ok?
    ensures var ns := Settle(o, id, summary).value.0.milestones;
            |ns| == |o.milestones| && forall i :: 0 <= i < |ns| ==> Outlay(ns[i]) <= Outlay(o.milestones[i])
  {
  }

  lemma SameOutlay(ms: seq<Milestone>, ns: seq<Milestone>)
    requires OrderRuns.SameMoney(ms, ns) && SameTerms(ms, ns, true)
    ensures forall i :: 0 <= i < |ms| ==> Outlay(ns[i]) == Outlay(ms[i])
  {
  }

  lemma StepOutlay(b: OrderRuns.Book, step: OrderRuns.Step)
    requires !step.DisputeStep? && !step.TopUpStep?
    ensures var ns := OrderRuns.Apply(b, step).order.milestones;
            |ns| == |b.order.milestones| && forall i :: 0 <= i < |ns| ==> Outlay(ns[i]) <= Outlay(b.order.milestones[i])
  {
    var ns := OrderRuns.Apply(b, step).order.milestones;
    match step
    case SettleStep(id, summary, anomalies) =>
      if Settle(b.order, id, summary).Ok? {
        var o := Settle(b.order, id, summary).value.0;
        SettleOutlay(b.order, id, summary);
        OrderRuns.SettleSameMoney(o.milestones, id, anomalies);
        AfterSettleTerms(o.milestones, id, anomalies);
        SameOutlay(o.milestones, ns);
        assert forall i :: 0 <= i < |ns| ==> Outlay(ns[i]) == Outlay(o.milestones[i]);
      }
    case _ =>
      OrderRuns.OtherSameMoney(b, step);
      StepKeepsTerms(b, step);
      SameOutlay(b.order.milestones, ns);
  }

  /** Short of disputes and top-ups, an order never commits more than it did. */
  lemma StepCommits(b: OrderRuns.Book, k: nat, step: OrderRuns.Step, buyer: string)
    requires OrderRuns.At(b, k) && !step.DisputeStep? && !step.TopUpStep?
    ensures Commitment(OrderRuns.Apply(b, step).order, buyer) <= Commitment(b.order, buyer)
  {
    var o := OrderRuns.Apply(b, step).order;
    StepOutlay(b, step);
    UnsettledBelow(b.order.milestones, o.milestones);
    StepKeepsTerms(b, step);
    if b.order.status == Completed {
      SettledOwesNothing(b.order.milestones);
    }
  }

  /** Short of outages too, the same holds of what it takes up of the credit. */
  lemma StepCredit(b: OrderRuns.Book, k: nat, step: OrderRuns.Step, buyer: string)
    requires OrderRuns.At(b, k) && !step.DisputeStep? && !step.TopUpStep? && step != OrderRuns.Disconnect
    requires b.order.status != AwaitingPaymentRail && BudgetOf(b.order.milestones) >= 0
    ensures var o := OrderRuns.Apply(b, step).order;
            CreditOf(o, buyer) <= CreditOf(b.order, buyer) && o.status != AwaitingPaymentRail &&
            BudgetOf(o.milestones) == BudgetOf(b.order.milestones)
  {
    var o := OrderRuns.Apply(b, step).order;
    StepKeepsTerms(b, step);
    SameBudgets(b.order.milestones, o.milestones);
    var n := OrderRuns.StepMoves(b, k, step);
    assert b.order.status == Completed ==> o.status == Completed;
    StatusAfter(b, step);
  }

  lemma StatusAfter(b: OrderRuns.Book, step: OrderRuns.Step)
    requires step != OrderRuns.Disconnect
    ensures OrderRuns.Apply(b, step).order.status in {b.order.status, OrderStatus.Running, AwaitingBudget, Completed}
  {
  }

  // ---- New orders ----

  lemma {:induction false} NewOutlay(ms: seq<Milestone>, input: seq<MilestoneInput>)
    requires |ms| == |input| && forall i :: 0 <= i < |ms| ==>
               ms[i].budget == input[i].budget >= 0 && ms[i].settled == 0 && ms[i].state != Settled
    ensures Unsettled(ms) == BudgetOf(ms) == Budget(input) >= 0
  {
    if ms != [] {
      NewOutlay(ms[..|ms| - 1], input[..|input| - 1]);
    }
  }

  /** A new order adds its budget to one of the two sums. */
  lemma BirthAdds(s: State, t: State, x: OrderInput, buyer: string)
    requires Untouched(s, t) && Born(s, t, x) && Sane(x.milestones)
    ensures |t.orders| == |s.orders| ==>
              Committed(t.orders, buyer) == Committed(s.orders, buyer) &&
              CreditUsed(t.orders, buyer) == CreditUsed(s.orders, buyer)
    ensures |t.orders| > |s.orders| ==>
              && Committed(t.orders, buyer) ==
                 Committed(s.orders, buyer) +
                 (if x.buyer == buyer && x.funding == Prepaid then Budget(x.milestones) else 0)
              && CreditUsed(t.orders, buyer) ==
                 CreditUsed(s.orders, buyer) +
                 (if x.buyer == buyer && x.funding == Credit then Budget(x.milestones) else 0)
              && BudgetOf(t.orders[|s.orders|].milestones) >= 0
  {
    assert t.orders[..|s.orders|] == s.orders;
    if |t.orders| > |s.orders| {
      var o := t.orders[|s.orders|];
      assert t.orders == s.orders + [o];
      CommittedSnoc(s.orders, o, buyer);
      NewOutlay(o.milestones, x.milestones);
    } else {
      assert t.orders == s.orders;
    }
  }

  /** Both gates have been passed by the input. */
  ghost predicate Admitted(s: State, x: OrderInput) {
    && (x.funding == Prepaid ==> PrepaidAvailable(s, x.buyer, Budget(x.milestones)))
    && (x.funding == Credit ==> CreditAvailable(s, x.buyer, Budget(x.milestones)))
  }

  /** Every order that comes into being has passed the gate for its funding. */
  lemma BornAdmitted(s: State, e: Event) returns (x: OrderInput)
    requires Linked(s.orders, s.desk) && Orderly(s) && SaneEvent(e) && MakesOrders(e)
    ensures var t := Platform.Apply(s, e);
            && Untouched(s, t) && Born(s, t, x) && Sane(x.milestones)
            && (|t.orders| > |s.orders| ==> Admitted(s, x))
  {
    if e.PlaceOrder? {
      x := e.input;
      PlaceLives(s, x);
    } else if Awardable(s, e.rfq, e.winner) {
      x := InputOf(s, e.rfq, e.winner, e.funding);
      AwardLives(s, e.rfq, e.winner, e.funding, e.carrier, e.bufferBps, e.answer);
      AwardSucceeds(s, e.rfq, e.winner, e.funding, e.carrier, e.bufferBps, e.answer);
      UnsuccessfulKeepsOrders(s, e.rfq, e.winner, e.funding, e.carrier, e.bufferBps, e.answer);
    } else {
      x := OrderInput("", "", e.funding, []);
    }
  }

  lemma UnsuccessfulKeepsOrders(s: State, rfq: nat, winner: nat, funding: FundingMode, carrier: CarrierBinding,
                                bps: int, answer: Option<Provision>)
    ensures !Awarded(s, rfq, winner, funding, carrier, bps, answer).1 ==>
              Awarded(s, rfq, winner, funding, carrier, bps, answer).0.orders == s.orders
  {
  }

  // ---- Runs ----

  /** Every order is somewhere in its life. */
  ghost predicate InStep(s: State) {
    forall n :: 0 <= n < |s.orders| ==> Somewhere(BookOf(s, n))
  }

  ghost predicate Somewhere(b: OrderRuns.Book) { exists k: nat :: OrderRuns.At(b, k) }

  lemma RunInStep(limits: map<string, int>, events: seq<Event>)
    requires AllSane(events) && NoDisputes(events)
    ensures InStep(Platform.Run(Start(limits), events))
  {
    var s := Platform.Run(Start(limits), events);
    forall n | 0 <= n < |s.orders| ensures Somewhere(BookOf(s, n)) {
      var k := OrdersProgress(limits, events, n);
    }
  }

  lemma OldOrdersCommit(s: State, e: Event, buyer: string)
    requires Linked(s.orders, s.desk) && InStep(s) && !MakesOrders(e) && !e.OpenDispute? && !e.TopUpMilestone?
    ensures Committed(Platform.Apply(s, e).orders, buyer) <= Committed(s.orders, buyer)
  {
    var t := Platform.Apply(s, e);
    if OnOrders(e) {
      SameCount(s, e);
      forall n | 0 <= n < |s.orders| ensures Commitment(t.orders[n], buyer) <= Commitment(s.orders[n], buyer) {
        assert Somewhere(BookOf(s, n));
        var k: nat :| OrderRuns.At(BookOf(s, n), k);
        StepLives(s, e, n);
        if StepOn(s, e, n).Some? {
          StepCommits(BookOf(s, n), k, StepOn(s, e, n).value, buyer);
        }
      }
      CommittedBelow(s.orders, t.orders, buyer);
    } else {
      OtherLives(s, e);
    }
  }

  lemma OldOrdersCredit(s: State, e: Event, buyer: string)
    requires Linked(s.orders, s.desk) && InStep(s) && Plain(s)
    requires !MakesOrders(e) && !e.OpenDispute? && !e.TopUpMilestone? && !e.ReportDisconnect?
    ensures CreditUsed(Platform.Apply(s, e).orders, buyer) <= CreditUsed(s.orders, buyer) && Plain(Platform.Apply(s, e))
  {
    var t := Platform.Apply(s, e);
    if OnOrders(e) {
      SameCount(s, e);
      forall n | 0 <= n < |s.orders|
        ensures CreditOf(t.orders[n], buyer) <= CreditOf(s.orders[n], buyer) && PlainOrder(t.orders[n])
      {
        assert Somewhere(BookOf(s, n));
        var k: nat :| OrderRuns.At(BookOf(s, n), k);
        StepLives(s, e, n);
        assert PlainOrder(s.orders[n]);
        if StepOn(s, e, n).Some? {
          StepCredit(BookOf(s, n), k, StepOn(s, e, n).value, buyer);
        }
      }
      CreditBelow(s.orders, t.orders, buyer);
    } else {
      OtherLives(s, e);
    }
  }

  /** No order waits for a payment rail, and no order has a negative budget. */
  predicate PlainOrder(o: Order) { o.status != AwaitingPaymentRail && BudgetOf(o.milestones) >= 0 }

  ghost predicate Plain(s: State) { forall n :: 0 <= n < |s.orders| ==> PlainOrder(s.orders[n]) }

  lemma PurseFrame(s: State, e: Event)
    ensures var t := Platform.Apply(s, e); t.limits == s.limits && (!e.PayIn? ==> t.credited == s.credited)
  {
    if e.Award? {
      AwardPurse(s, e.rfq, e.winner, e.funding, e.carrier, e.bufferBps, e.answer);
    }
  }

  lemma AwardPurse(s: State, rfq: nat, winner: nat, funding: FundingMode, carrier: CarrierBinding, bps: int,
                   answer: Option<Provision>)
    ensures var t := Awarded(s, rfq, winner, funding, carrier, bps, answer).0;
            t.limits == s.limits && t.credited == s.credited
  {
  }

  lemma MoneyFrame(s: State, e: Event, buyer: string)
    ensures var t := Platform.Apply(s, e); t.limits == s.limits && Credited(t, buyer) >= Credited(s, buyer)
  {
    PurseFrame(s, e);
  }

  ghost predicate PrepaidCovered(s: State) { forall buyer :: Committed(s.orders, buyer) <= Credited(s, buyer) }

  lemma StepCovered(s: State, e: Event)
    requires Linked(s.orders, s.desk) && Orderly(s) && InStep(s) && PrepaidCovered(s)
    requires SaneEvent(e) && !e.OpenDispute? && !e.TopUpMilestone?
    ensures PrepaidCovered(Platform.Apply(s, e))
  {
    var t := Platform.Apply(s, e);
    var x := OrderInput("", "", Prepaid, []);
    if MakesOrders(e) {
      x := BornAdmitted(s, e);
    }
    forall buyer ensures Committed(t.orders, buyer) <= Credited(t, buyer) {
      MoneyFrame(s, e, buyer);
      assert Committed(s.orders, buyer) <= Credited(s, buyer);
      if MakesOrders(e) {
        BirthAdds(s, t, x, buyer);
      } else {
        OldOrdersCommit(s, e, buyer);
      }
    }
  }

  /** In every run without disputes and top-ups, outages or not, the prepaid orders of every buyer
      together have no more to spend than the buyer has paid in. */
  lemma {:induction false} PrepaidStaysCovered(limits: map<string, int>, events: seq<Event>)
    requires AllSane(events) && NoDisputes(events) && NoTopUps(events)
    ensures PrepaidCovered(Platform.Run(Start(limits), events))
  {
    if events != [] {
      var past := events[..|events| - 1];
      assert forall i :: 0 <= i < |past| ==> past[i] == events[i];
      PrepaidStaysCovered(limits, past);
      RunLinked(Start(limits), past);
      RunOrderly(Start(limits), past);
      RunInStep(limits, past);
      StepCovered(Platform.Run(Start(limits), past), events[|events| - 1]);
    }
  }

  ghost predicate CreditWithin(s: State) {
    forall buyer :: buyer in s.limits ==> CreditUsed(s.orders, buyer) <= Floor(s.limits[buyer])
  }

  lemma BirthPlain(s: State, t: State, x: OrderInput)
    requires Untouched(s, t) && Born(s, t, x) && Sane(x.milestones) && Plain(s)
    ensures Plain(t)
  {
    BirthAdds(s, t, x, "");
  }

  lemma StepPlain(s: State, e: Event)
    requires Linked(s.orders, s.desk) && Orderly(s) && InStep(s) && Plain(s)
    requires SaneEvent(e) && !e.OpenDispute? && !e.TopUpMilestone? && !e.ReportDisconnect?
    ensures Plain(Platform.Apply(s, e))
  {
    if MakesOrders(e) {
      var x := BornAdmitted(s, e);
      BirthPlain(s, Platform.Apply(s, e), x);
    } else {
      OldOrdersCredit(s, e, "");
    }
  }

  lemma WithinAfterBirth(s: State, e: Event)
    requires Linked(s.orders, s.desk) && Orderly(s) && CreditWithin(s) && SaneEvent(e) && MakesOrders(e)
    ensures CreditWithin(Platform.Apply(s, e))
  {
    var t := Platform.Apply(s, e);
    var x := BornAdmitted(s, e);
    DeskRuns.BudgetSane(x.milestones);
    forall buyer | buyer in t.limits ensures CreditUsed(t.orders, buyer) <= Floor(t.limits[buyer]) {
      MoneyFrame(s, e, buyer);
      assert CreditUsed(s.orders, buyer) <= Floor(s.limits[buyer]);
      BirthAdds(s, t, x, buyer);
    }
  }

  lemma StepWithin(s: State, e: Event)
    requires Linked(s.orders, s.desk) && Orderly(s) && InStep(s) && Plain(s) && CreditWithin(s)
    requires SaneEvent(e) && !e.OpenDispute? && !e.TopUpMilestone? && !e.ReportDisconnect?
    ensures CreditWithin(Platform.Apply(s, e))
  {
    var t := Platform.Apply(s, e);
    if MakesOrders(e) {
      WithinAfterBirth(s, e);
    } else {
      forall buyer | buyer in t.limits ensures CreditUsed(t.orders, buyer) <= Floor(t.limits[buyer]) {
        MoneyFrame(s, e, buyer);
        assert CreditUsed(s.orders, buyer) <= Floor(s.limits[buyer]);
        OldOrdersCredit(s, e, buyer);
      }
    }
  }

  ghost predicate NoOutages(events: seq<Event>) {
    forall i :: 0 <= i < |events| ==> !events[i].ReportDisconnect?
  }

  /** In every run without disputes, top-ups and outages, the active orders on credit of every buyer
      with a limit stay within it. */
  lemma {:induction false} CreditStaysWithin(limits: map<string, int>, events: seq<Event>)
    requires AllSane(events) && NoDisputes(events) && NoTopUps(events) && NoOutages(events)
    ensures var s := Platform.Run(Start(limits), events); s.limits == limits && CreditWithin(s) && Plain(s)
  {
    if events != [] {
      var past := events[..|events| - 1];
      assert forall i :: 0 <= i < |past| ==> past[i] == events[i];
      CreditStaysWithin(limits, past);
      RunLinked(Start(limits), past);
      RunOrderly(Start(limits), past);
      RunInStep(limits, past);
      StepWithin(Platform.Run(Start(limits), past), events[|events| - 1]);
      StepPlain(Platform.Run(Start(limits), past), events[|events| - 1]);
      MoneyFrame(Platform.Run(Start(limits), past), events[|events| - 1], "");
    }
  }
}
