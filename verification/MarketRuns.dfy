/** Awards over whole runs: one winner per request, an order that is the winning bid, and nothing
    left behind by an award that fails. */
module MarketRuns {
  import opened Options
  import opened Workflow
  import opened Settlement
  import opened Market
  import opened Platform
  import opened PlatformRuns
  import OrderRuns
  import SettlementRuns
  import DeskRuns

  // ---- Orders keep what was offered ----

  /** The milestones are the offered ones; budgets may have grown, unless that is ruled out. */
  ghost predicate Copies(ms: seq<Milestone>, input: seq<MilestoneInput>, exact: bool) {
    && |ms| == |input|
    && forall i :: 0 <= i < |ms| ==>
         && ms[i].id == input[i].id && ms[i].title == input[i].title && ms[i].basePrice == input[i].basePrice
         && (if exact then ms[i].budget == input[i].budget else ms[i].budget >= input[i].budget)
  }

  ghost predicate SameTerms(ms: seq<Milestone>, ns: seq<Milestone>, exact: bool) {
    && |ms| == |ns|
    && forall i :: 0 <= i < |ms| ==>
         && ns[i].id == ms[i].id && ns[i].title == ms[i].title && ns[i].basePrice == ms[i].basePrice
         && (if exact then ns[i].budget == ms[i].budget else ns[i].budget >= ms[i].budget)
  }

  /** The parties and the terms of the order are kept. */
  ghost predicate SameDeal(o: Order, p: Order, exact: bool) {
    && p.buyer == o.buyer && p.provider == o.provider && p.funding == o.funding
    && SameTerms(o.milestones, p.milestones, exact)
  }

  lemma AfterSettleTerms(ms: seq<Milestone>, id: string, anomalies: seq<string>)
    ensures SameTerms(ms, Advance(Reconciled(ms, id, anomalies), id), true)
  {
  }

  lemma SettleTerms(o: Order, id: string, summary: string)
    requires Settle(o, id, summary).Ok?
    ensures SameDeal(o, Settle(o, id, summary).value.0, true)
  {
  }

  lemma ChargeTerms(o: Order, id: string, c: UsageCharge)
    ensures match Charge(o, id, c) case Ok(p) => SameDeal(o, p, true) case Err(_) => true
  {
  }

  lemma DisputeTerms(o: Order, id: string, refund: int)
    ensures match Dispute(o, id, refund) case Ok((p, _, _)) => SameDeal(o, p, true) case Err(_) => true
    ensures match Resolve(o, id) case Ok(p) => SameDeal(o, p, true) case Err(_) => true
  {
  }

  lemma TopUpTerms(o: Order, id: string, cents: int)
    ensures match TopUp(o, id, cents) case Ok(p) => SameDeal(o, p, false) case Err(_) => true
  {
  }

  lemma OutageTerms(o: Order)
    ensures SameDeal(o, Disconnected(o), true) && SameDeal(o, Resumed(o), true)
  {
  }

  lemma StepKeepsTerms(b: OrderRuns.Book, step: OrderRuns.Step)
    ensures SameDeal(b.order, OrderRuns.Apply(b, step).order, !step.TopUpStep?)
  {
    match step
    case SettleStep(id, summary, anomalies) =>
      if Settle(b.order, id, summary).Ok? {
        SettleTerms(b.order, id, summary);
        AfterSettleTerms(Settle(b.order, id, summary).value.0.milestones, id, anomalies);
      }
    case UsageStep(id, c) => ChargeTerms(b.order, id, c);
    case DisputeStep(id, refund) => DisputeTerms(b.order, id, refund);
    case ResolveStep(id) => DisputeTerms(b.order, id, 0);
    case TopUpStep(id, cents) => TopUpTerms(b.order, id, cents);
    case Disconnect => OutageTerms(b.order);
    case Recover => OutageTerms(b.order);
  }

  /** The orders so far keep their parties and their terms. */
  ghost predicate KeepsTerms(s: State, t: State, exact: bool) {
    && |s.orders| <= |t.orders|
    && forall n :: 0 <= n < |s.orders| ==> SameDeal(s.orders[n], t.orders[n], exact)
  }

  lemma EventKeepsTerms(s: State, e: Event)
    requires Linked(s.orders, s.desk)
    ensures KeepsTerms(s, Platform.Apply(s, e), !e.TopUpMilestone?)
  {
    var t := Platform.Apply(s, e);
    StepGrows(s, e);
    forall n | 0 <= n < |s.orders|
      ensures SameDeal(s.orders[n], t.orders[n], !e.TopUpMilestone?)
    {
      StepLives(s, e, n);
      if StepOn(s, e, n).Some? {
        StepKeepsTerms(BookOf(s, n), StepOn(s, e, n).value);
      }
    }
  }

  // ---- One winner ----

  /** The order behind an awarded request is the winning bid. */
  ghost predicate Honours(o: Order, q: RFQ, b: Bid, exact: bool) {
    o.buyer == q.buyer && o.provider == b.provider && q.provider == b.provider &&
    Copies(o.milestones, b.milestones, exact)
  }

  /** The request names its winner, the other bids on it are rejected, and its order is the winning bid. */
  ghost predicate Won(s: State, q: nat, exact: bool)
    requires q < |s.rfqs|
  {
    var r := s.rfqs[q];
    && r.bid.Some? && r.bid.value < |s.bids| && r.order.Some? && r.order.value < |s.orders|
    && s.bids[r.bid.value].rfq == q && s.bids[r.bid.value].status == AwardedBid
    && (forall b :: 0 <= b < |s.bids| && s.bids[b].rfq == q && b != r.bid.value ==> s.bids[b].status == RejectedBid)
    && Honours(s.orders[r.order.value], r, s.bids[r.bid.value], exact)
  }

  ghost predicate Fair(s: State, exact: bool) {
    && (forall b :: 0 <= b < |s.bids| ==>
          s.bids[b].rfq < |s.rfqs| && Budget(s.bids[b].milestones) <= s.rfqs[s.bids[b].rfq].budget)
    && (forall b, c :: 0 <= b < c < |s.bids| && s.bids[b].rfq == s.bids[c].rfq ==>
          s.bids[b].status != AwardedBid || s.bids[c].status != AwardedBid)
    && (forall q :: 0 <= q < |s.rfqs| && s.rfqs[q].status == AwardedRFQ ==> Won(s, q, exact))
    && (forall p, q :: 0 <= p < q < |s.rfqs| && s.rfqs[p].status == AwardedRFQ && s.rfqs[q].status == AwardedRFQ ==>
          s.rfqs[p].order != s.rfqs[q].order)
  }

  lemma FairRequest(s: State, x: RFQInput, exact: bool)
    requires Fair(s, exact)
    ensures Fair(Platform.Apply(s, RequestQuotes(x)), exact)
  {
    var t := Platform.Apply(s, RequestQuotes(x));
    forall q | 0 <= q < |t.rfqs| && t.rfqs[q].status == AwardedRFQ ensures Won(t, q, exact) {
      assert Won(s, q, exact);
    }
  }

  /** A bid on an open request. */
  lemma FairWithBid(s: State, b: Bid, exact: bool)
    requires Fair(s, exact) && b.rfq < |s.rfqs| && s.rfqs[b.rfq].status == OpenRFQ && b.status == OpenBid
    requires Budget(b.milestones) <= s.rfqs[b.rfq].budget
    ensures Fair(s.(bids := s.bids + [b]), exact)
  {
    var t := s.(bids := s.bids + [b]);
    forall q | 0 <= q < |t.rfqs| && t.rfqs[q].status == AwardedRFQ ensures Won(t, q, exact) {
      assert Won(s, q, exact);
    }
  }

  lemma FairBid(s: State, rfq: nat, x: BidInput, exact: bool)
    requires Fair(s, exact)
    ensures Fair(Platform.Apply(s, SubmitBid(rfq, x)), exact)
  {
    if PlaceBid(s.rfqs, s.bids, rfq, x).Success? {
      FairWithBid(s, PlaceBid(s.rfqs, s.bids, rfq, x).value[|s.bids|], exact);
    }
  }

  /** Only orders move. */
  lemma FairOrders(s: State, t: State, exact: bool)
    requires Fair(s, exact) && t.rfqs == s.rfqs && t.bids == s.bids && KeepsTerms(s, t, exact)
    ensures Fair(t, exact)
  {
    forall q | 0 <= q < |t.rfqs| && t.rfqs[q].status == AwardedRFQ ensures Won(t, q, exact) {
      assert Won(s, q, exact);
      HonoursStill(s.orders[s.rfqs[q].order.value], t.orders[s.rfqs[q].order.value], s.rfqs[q],
                   s.bids[s.rfqs[q].bid.value], exact);
    }
  }

  lemma HonoursStill(o: Order, p: Order, q: RFQ, b: Bid, exact: bool)
    requires Honours(o, q, b, exact) && SameDeal(o, p, exact)
    ensures Honours(p, q, b, exact)
  {
  }

  lemma FairMarked(s: State, rfq: nat, winner: nat, d: Desk, exact: bool)
    requires Fair(s, exact) && Awardable(s, rfq, winner)
    ensures Fair(s.(bids := Marked(s.bids, rfq, winner), desk := d), exact)
  {
    var t := s.(bids := Marked(s.bids, rfq, winner), desk := d);
    forall q | 0 <= q < |t.rfqs| && t.rfqs[q].status == AwardedRFQ ensures Won(t, q, exact) {
      assert Won(s, q, exact);
    }
  }

  /** The state after the bids are marked, with the new order in place. */
  function AfterAward(s: State, rfq: nat, winner: nat, funding: FundingMode, d: Desk): State
    requires Awardable(s, rfq, winner)
  {
    var x := InputOf(s, rfq, winner, funding);
    var o := WithOrder(s.(bids := Marked(s.bids, rfq, winner)), x);
    o.(desk := d, rfqs := o.rfqs[rfq := Closed(o.rfqs[rfq], winner, x.provider, |s.orders|)])
  }

  lemma WonAfterAward(s: State, rfq: nat, winner: nat, funding: FundingMode, d: Desk, q: nat, exact: bool)
    requires Awardable(s, rfq, winner) && q < |s.rfqs| && (q != rfq ==> Won(s, q, exact))
    ensures Won(AfterAward(s, rfq, winner, funding, d), q, exact)
  {
  }

  lemma FairClosed(s: State, rfq: nat, winner: nat, funding: FundingMode, d: Desk, exact: bool)
    requires Fair(s, exact) && Awardable(s, rfq, winner)
    ensures Fair(AfterAward(s, rfq, winner, funding, d), exact)
  {
    var t := AfterAward(s, rfq, winner, funding, d);
    FairMarked(s, rfq, winner, d, exact);
    forall q | 0 <= q < |t.rfqs| && t.rfqs[q].status == AwardedRFQ ensures Won(t, q, exact) {
      WonAfterAward(s, rfq, winner, funding, d, q, exact);
    }
    forall p, q | 0 <= p < q < |t.rfqs| && t.rfqs[p].status == AwardedRFQ && t.rfqs[q].status == AwardedRFQ
      ensures t.rfqs[p].order != t.rfqs[q].order
    {
      assert (p != rfq ==> Won(s, p, exact)) && (q != rfq ==> Won(s, q, exact));
    }
  }

  lemma FairConcluded(s: State, rfq: nat, winner: nat, funding: FundingMode, r: Option<nat>, exact: bool)
    requires Fair(s, exact) && Awardable(s, rfq, winner)
    ensures Fair(Concluded(s, rfq, winner, funding, r).0, exact)
  {
    var t := Concluded(s, rfq, winner, funding, r);
    if t.1 {
      FairClosed(s, rfq, winner, funding, t.0.desk, exact);
    } else {
      FairMarked(s, rfq, winner, t.0.desk, exact);
    }
  }

  lemma FairAward(s: State, rfq: nat, winner: nat, funding: FundingMode, carrier: CarrierBinding, bps: int,
                  answer: Option<Provision>, exact: bool)
    requires Fair(s, exact)
    ensures Fair(Awarded(s, rfq, winner, funding, carrier, bps, answer).0, exact)
  {
    if Awardable(s, rfq, winner) {
      var b := s.bids[winner];
      match Reserving(s.desk, b.provider, carrier, NeededReserve(Budget(b.milestones), bps), answer)
      case Denied =>
      case Unneeded => FairConcluded(s, rfq, winner, funding, None, exact);
      case Made(d, r) =>
        FairDesk(s, d, exact);
        FairConcluded(s.(desk := d), rfq, winner, funding, Some(r), exact);
    }
  }

  lemma FairDesk(s: State, d: Desk, exact: bool)
    requires Fair(s, exact)
    ensures Fair(s.(desk := d), exact)
  {
  }

  lemma MarketFrame(s: State, e: Event)
    requires !e.RequestQuotes? && !e.SubmitBid? && !e.Award?
    ensures Platform.Apply(s, e).rfqs == s.rfqs && Platform.Apply(s, e).bids == s.bids
  {
  }

  lemma FairElsewhere(s: State, e: Event, exact: bool)
    requires Linked(s.orders, s.desk) && Fair(s, exact) && (exact ==> !e.TopUpMilestone?)
    requires !e.RequestQuotes? && !e.SubmitBid? && !e.Award?
    ensures Fair(Platform.Apply(s, e), exact)
  {
    MarketFrame(s, e);
    EventKeepsTerms(s, e);
    FairOrders(s, Platform.Apply(s, e), exact);
  }

  lemma StepFair(s: State, e: Event, exact: bool)
    requires Linked(s.orders, s.desk) && Fair(s, exact) && (exact ==> !e.TopUpMilestone?)
    ensures Fair(Platform.Apply(s, e), exact)
  {
    match e
    case RequestQuotes(x) => FairRequest(s, x, exact);
    case SubmitBid(rfq, x) => FairBid(s, rfq, x, exact);
    case Award(rfq, winner, funding, carrier, bps, answer) =>
      FairAward(s, rfq, winner, funding, carrier, bps, answer, exact);
    case _ => FairElsewhere(s, e, exact);
  }

  ghost predicate NoTopUps(events: seq<Event>) {
    forall i :: 0 <= i < |events| ==> !events[i].TopUpMilestone?
  }

  /** In every run at most one bid per request is awarded; an awarded request names it, all its other
      bids are rejected, and its own order is that bid, within the request's budget; without
      top-ups the order's budgets are still those of the bid. */
  lemma {:induction false} OneWinner(limits: map<string, int>, events: seq<Event>, exact: bool)
    requires exact ==> NoTopUps(events)
    ensures Fair(Platform.Run(Start(limits), events), exact)
  {
    if events != [] {
      var past := events[..|events| - 1];
      assert forall i :: 0 <= i < |past| ==> past[i] == events[i];
      OneWinner(limits, past, exact);
      RunLinked(Start(limits), past);
      StepFair(Platform.Run(Start(limits), past), events[|events| - 1], exact);
    }
  }

  // ---- An award is final ----

  /** The request and every bid on it are as they were, and no bid has joined them. */
  ghost predicate Sealed(s: State, t: State, q: nat) {
    && q < |s.rfqs| <= |t.rfqs| && t.rfqs[q] == s.rfqs[q] && |s.bids| <= |t.bids|
    && (forall b :: 0 <= b < |s.bids| && s.bids[b].rfq == q ==> t.bids[b] == s.bids[b])
    && (forall b :: 0 <= b < |t.bids| && t.bids[b].rfq == q ==> b < |s.bids| && s.bids[b].rfq == q)
  }

  lemma SealedConcluded(s: State, rfq: nat, winner: nat, funding: FundingMode, r: Option<nat>, q: nat)
    requires Awardable(s, rfq, winner) && q < |s.rfqs| && q != rfq
    ensures Sealed(s, Concluded(s, rfq, winner, funding, r).0, q)
  {
  }

  lemma SealedStep(s: State, e: Event, q: nat)
    requires q < |s.rfqs| && s.rfqs[q].status == AwardedRFQ
    ensures Sealed(s, Platform.Apply(s, e), q)
  {
    if e.Award? && Awardable(s, e.rfq, e.winner) {
      var b := s.bids[e.winner];
      match Reserving(s.desk, b.provider, e.carrier, NeededReserve(Budget(b.milestones), e.bufferBps), e.answer)
      case Denied =>
      case Unneeded => SealedConcluded(s, e.rfq, e.winner, e.funding, None, q);
      case Made(d, r) => SealedConcluded(s.(desk := d), e.rfq, e.winner, e.funding, Some(r), q);
    } else if !e.Award? && !e.SubmitBid? && !e.RequestQuotes? {
      MarketFrame(s, e);
    }
  }

  /** Nothing that happens later changes an awarded request or any bid on it. */
  lemma {:induction false} AwardIsFinal(s: State, later: seq<Event>, q: nat)
    requires q < |s.rfqs| && s.rfqs[q].status == AwardedRFQ
    ensures Sealed(s, Platform.Run(s, later), q)
  {
    if later != [] {
      AwardIsFinal(s, later[..|later| - 1], q);
      SealedStep(Platform.Run(s, later[..|later| - 1]), later[|later| - 1], q);
    }
  }

  // ---- An award that fails ----

  /** No pool counts less than nothing as reserved. */
  ghost predicate NoDebt(d: Desk) { forall org :: SettlementRuns.ReservedOf(d, org) >= 0 }

  /** The same is reserved with every provider. */
  ghost predicate SameReserves(d: Desk, e: Desk) {
    forall org :: SettlementRuns.ReservedOf(e, org) == SettlementRuns.ReservedOf(d, org) &&
                  Outstanding(e.reservations, org) == Outstanding(d.reservations, org)
  }

  lemma ReleaseUndoes(d: Desk, org: string, b: nat, needed: nat, p: Provision)
    requires NoDebt(d)
    ensures SameReserves(d, Release(CommitReserve(d, org, b, needed, p), |d.reservations|))
  {
  }

  /** How the reservation for a bid ends. */
  function ReservingFor(s: State, winner: nat, carrier: CarrierBinding, bps: int, answer: Option<Provision>): Attempt
    requires winner < |s.bids|
  {
    var b := s.bids[winner];
    Reserving(s.desk, b.provider, carrier, NeededReserve(Budget(b.milestones), bps), answer)
  }

  /** The award goes through exactly if the request is open for this bid, the reservation is not denied,
      and the order is allowed; and the verdict says so. */
  lemma AwardSucceeds(s: State, rfq: nat, winner: nat, funding: FundingMode, carrier: CarrierBinding, bps: int,
                      answer: Option<Provision>)
    ensures Awarded(s, rfq, winner, funding, carrier, bps, answer).1 <==>
            && Awardable(s, rfq, winner)
            && !ReservingFor(s, winner, carrier, bps, answer).Denied?
            && OrderAllowed(s, InputOf(s, rfq, winner, funding))
    ensures Awarded(s, rfq, winner, funding, carrier, bps, answer).1 <==>
            AwardVerdict(s, rfq, winner, funding, carrier, bps, answer).Done?
  {
  }

  /** The bids after a failed award: marked exactly if the award got past the reservation, that is, if it
      is the order that was refused. */
  function BidsAfterFailure(s: State, rfq: nat, winner: nat, carrier: CarrierBinding, bps: int,
                            answer: Option<Provision>):
    seq<Bid>
  {
    if Awardable(s, rfq, winner) && !ReservingFor(s, winner, carrier, bps, answer).Denied?
    then Marked(s.bids, rfq, winner) else s.bids
  }

  /** A failed award leaves every request, every order and what is reserved with every provider as
      they were, and the bids marked or not. */
  lemma FailedAward(s: State, rfq: nat, winner: nat, funding: FundingMode, carrier: CarrierBinding, bps: int,
                    answer: Option<Provision>)
    requires NoDebt(s.desk) && Orderly(s) && !Awarded(s, rfq, winner, funding, carrier, bps, answer).1
    ensures var t := Awarded(s, rfq, winner, funding, carrier, bps, answer).0;
            && t.rfqs == s.rfqs && t.orders == s.orders && SameReserves(s.desk, t.desk)
            && t.bids == BidsAfterFailure(s, rfq, winner, carrier, bps, answer)
  {
    if Awardable(s, rfq, winner) {
      var b := s.bids[winner];
      DeskRuns.BudgetSane(b.milestones);
      match ReservingFor(s, winner, carrier, bps, answer)
      case Made(_, _) =>
        ReleaseUndoes(s.desk, b.provider, BeginReserve(s.desk, b.provider, carrier).binding,
                      NeededReserve(Budget(b.milestones), bps), answer.value);
      case _ =>
    }
  }

  /** So in every run a failed award changes no request, no order and no reserve, and leaves the bids
      marked exactly if it is the order that was refused. */
  lemma FailedAwardInRun(limits: map<string, int>, events: seq<Event>, rfq: nat, winner: nat, funding: FundingMode,
                         carrier: CarrierBinding, bps: int, answer: Option<Provision>)
    requires AllSane(events)
    requires !Awarded(Platform.Run(Start(limits), events), rfq, winner, funding, carrier, bps, answer).1
    ensures var s := Platform.Run(Start(limits), events);
            var t := Awarded(s, rfq, winner, funding, carrier, bps, answer).0;
            && t.rfqs == s.rfqs && t.orders == s.orders && SameReserves(s.desk, t.desk)
            && t.bids == BidsAfterFailure(s, rfq, winner, carrier, bps, answer)
  {
    DeskRuns.PlatformPools(limits, events);
    assert NoDebt(Platform.Run(Start(limits), events).desk);
    RunOrderly(Start(limits), events);
    FailedAward(Platform.Run(Start(limits), events), rfq, winner, funding, carrier, bps, answer);
  }

  lemma RunSnoc(s: State, events: seq<Event>, e: Event)
    ensures Platform.Run(s, events + [e]) == Platform.Apply(Platform.Run(s, events), e)
  {
    assert (events + [e])[..|events|] == events;
  }

  /** A request with the default split and one default bid on it. */
  function OneBid(budget: int): seq<Event> {
    [RequestQuotes(RFQInput("buyer", "title", "category", "scope", budget, Ahead, []))] +
    [SubmitBid(0, BidInput("provider", "message", 0, [], true))]
  }

  lemma OneBidPlaced(limit: int, budget: int)
    requires budget > 0
    ensures var s := Platform.Run(Start(map["buyer" := limit]), OneBid(budget));
            && s.orders == [] && s.limits == map["buyer" := limit]
            && s.rfqs == [RFQ("buyer", budget, DefaultSplit(budget), OpenRFQ, None, "", None)]
            && s.bids == [Bid(0, "provider", budget, OpenBid, DefaultSplit(budget))]
  {
    var none: seq<Event> := [];
    var start := Start(map["buyer" := limit]);
    SplitAddsUp(budget);
    RunSnoc(start, none, OneBid(budget)[0]);
    RunSnoc(start, none + [OneBid(budget)[0]], OneBid(budget)[1]);
    assert none + [OneBid(budget)[0]] + [OneBid(budget)[1]] == OneBid(budget);
  }

  /** With a credit limit below the bid the award fails at the order: the request is still open and there is no
      order, but the bid says awarded. */
  lemma MarkedButOpen(limit: int, budget: int)
    requires limit < budget && budget > 0
    ensures var events := OneBid(budget) + [Award(0, 0, Credit, NoCarrier, 0, None)];
            var s := Platform.Run(Start(map["buyer" := limit]), events);
            && |s.rfqs| == 1 && s.rfqs[0].status == OpenRFQ
            && |s.bids| == 1 && s.bids[0].status == AwardedBid && s.orders == []
  {
    OneBidPlaced(limit, budget);
    SplitAddsUp(budget);
    RunSnoc(Start(map["buyer" := limit]), OneBid(budget), Award(0, 0, Credit, NoCarrier, 0, None));
  }
}
