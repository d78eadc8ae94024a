/** Where requests, bids and awarded orders come from: every one is what somebody submitted. */
module BidOrigins {
  import opened Options
  import opened Workflow
  import opened Market
  import opened Platform
  import opened PlatformRuns
  import opened MarketRuns

  // ---- One call ----

  /** A request is accepted exactly if its fields are there, its budget positive and its deadline ahead. */
  lemma RequestMeans(rfqs: seq<RFQ>, x: RFQInput)
    ensures OpenRequest(rfqs, x).Success? <==>
            x.buyer != "" && x.title != "" && x.category != "" && x.scope != "" && x.budget > 0 && x.deadline == Ahead
    ensures OpenRequest(rfqs, x).Failure? ==>
              OpenRequest(rfqs, x).error ==
              if x.buyer == "" || x.title == "" || x.category == "" || x.scope == "" || x.budget <= 0
              then MissingRequiredFields else if x.deadline == Past then DeadlineInPast else DeadlineRequired
    ensures OpenRequest(rfqs, x).Success? ==>
              var after := OpenRequest(rfqs, x).value;
              && |after| == |rfqs| + 1 && after[..|rfqs|] == rfqs && Made(after[|rfqs|], x)
              && after[|rfqs|].status == OpenRFQ && after[|rfqs|].bid == None && after[|rfqs|].order == None
  {
  }

  /** The request is the one submitted: its own milestones if it has any, otherwise the default split. */
  predicate Made(q: RFQ, x: RFQInput) {
    && q.buyer == x.buyer && q.budget == x.budget
    && (x.milestones != [] ==> q.defaults == x.milestones)
    && (x.milestones == [] ==> q.defaults == DefaultSplit(x.budget))
  }

  /** A bid is accepted exactly if the request is open, the fields are there, the profile is accepted, and what it
      offers is something within the request's budget. */
  lemma BidMeans(rfqs: seq<RFQ>, bids: seq<Bid>, rfq: nat, x: BidInput)
    ensures PlaceBid(rfqs, bids, rfq, x).Success? <==>
            && rfq < |rfqs| && rfqs[rfq].status == OpenRFQ && x.provider != "" && x.message != "" && x.profileAccepted
            && (if x.milestones != [] then Budget(x.milestones) <= rfqs[rfq].budget
                else rfqs[rfq].defaults != [] && Budget(rfqs[rfq].defaults) <= rfqs[rfq].budget)
    ensures PlaceBid(rfqs, bids, rfq, x).Failure? ==>
              var why, missing := PlaceBid(rfqs, bids, rfq, x).error, x.provider == "" || x.message == "";
              && (why == RFQNotFound <==> rfq >= |rfqs|)
              && (why == NotOpenForBids <==> rfq < |rfqs| && rfqs[rfq].status != OpenRFQ)
              && (why == MissingRequiredFields <==> rfq < |rfqs| && rfqs[rfq].status == OpenRFQ && missing)
              && (why == ProfileRejected ==> !x.profileAccepted && !missing)
              && (why == MilestonesRequired ==> x.milestones == [] && rfqs[rfq].defaults == [])
              && (why == BidExceedsBudget ==> x.profileAccepted && !missing)
    ensures PlaceBid(rfqs, bids, rfq, x).Success? ==>
              var after := PlaceBid(rfqs, bids, rfq, x).value;
              && |after| == |bids| + 1 && after[..|bids|] == bids
              && after[|bids|].status == OpenBid && Submitted(after[|bids|], rfq, x, rfqs[rfq])
  {
  }

  /** The bid is the one submitted: with its own milestones if it has any, otherwise the request's, and with its own
      quote if it has one, otherwise the request's budget. */
  predicate Submitted(b: Bid, rfq: nat, x: BidInput, q: RFQ) {
    && b.rfq == rfq && b.provider == x.provider
    && (x.milestones != [] ==> b.milestones == x.milestones) && (x.milestones == [] ==> b.milestones == q.defaults)
    && (x.quote > 0 ==> b.quote == x.quote) && (x.quote <= 0 ==> b.quote == q.budget)
  }

  /** The budgets of a list, from the front. */
  function Sum(ms: seq<MilestoneInput>): int { if ms == [] then 0 else ms[0].budget + Sum(ms[1..]) }

  lemma {:induction false} SumSnoc(ms: seq<MilestoneInput>, m: MilestoneInput)
    ensures Sum(ms + [m]) == Sum(ms) + m.budget
  {
    if ms == [] {
      assert ms + [m] == [m] && [m][1..] == [];
    } else {
      SumSnoc(ms[1..], m);
      assert (ms + [m])[1..] == ms[1..] + [m];
    }
  }

  lemma {:induction false} BudgetIsSum(ms: seq<MilestoneInput>)
    ensures Budget(ms) == Sum(ms)
  {
    if ms != [] {
      BudgetIsSum(ms[..|ms| - 1]);
      SumSnoc(ms[..|ms| - 1], ms[|ms| - 1]);
      assert ms[..|ms| - 1] + [ms[|ms| - 1]] == ms;
    }
  }

  /** The title names the phase and its share of the budget in whole percent, rounded down. */
  ghost predicate Titled(m: MilestoneInput, name: string, budget: int) {
    exists k: nat :: Share(k, m.budget, budget) && m.title == name + " (" + Decimal(k) + "%)"
  }

  predicate Share(k: nat, cents: int, budget: int) { k * budget <= 100 * cents < k * budget + budget }

  lemma PhaseTitled(id: string, name: string, cents: nat, budget: nat)
    requires budget > 0
    ensures Titled(Phase(id, name, cents, budget), name, budget)
  {
    var k := Percent(cents, budget);
    assert k * budget <= 100 * cents < k * budget + budget by {
      Floored(cents * 100, budget);
    }
    assert Share(k, cents, budget);
  }

  lemma Floored(x: nat, d: nat)
    requires d > 0
    ensures x / d * d <= x < x / d * d + d
  {
  }

  /** The default split: one phase for a small budget; otherwise a fifth each for setup and delivery, rounded down,
      and all the rest for execution. */
  lemma SplitMeans(budget: int)
    ensures budget <= 0 ==> DefaultSplit(budget) == []
    ensures 0 < budget < 1000 ==> DefaultSplit(budget) == [MilestoneInput("ms_1", "Execution", budget, budget)]
    ensures budget >= 1000 ==>
              var ms := DefaultSplit(budget);
              && |ms| == 3 && ms[0].id == "ms_1" && ms[1].id == "ms_2" && ms[2].id == "ms_3"
              && (forall i :: 0 <= i < 3 ==> ms[i].basePrice == ms[i].budget)
              && ms[0].budget == ms[2].budget && 5 * ms[0].budget <= budget < 5 * ms[0].budget + 5
              && ms[0].budget + ms[1].budget + ms[2].budget == budget
              && Titled(ms[0], "Setup", budget) && Titled(ms[1], "Execution", budget)
              && Titled(ms[2], "Delivery", budget)
  {
    if budget >= 1000 {
      var ms := DefaultSplit(budget);
      PhaseTitled("ms_1", "Setup", ms[0].budget, budget);
      PhaseTitled("ms_2", "Execution", ms[1].budget, budget);
      PhaseTitled("ms_3", "Delivery", ms[2].budget, budget);
    }
  }

  // ---- Whole runs ----

  /** What a request says is kept, whatever becomes of it. */
  predicate SameRequest(q: RFQ, r: RFQ) { r.buyer == q.buyer && r.budget == q.budget && r.defaults == q.defaults }

  predicate SameBid(b: Bid, c: Bid) { c == b.(status := c.status) }

  ghost predicate Extends(s: State, t: State) {
    && |s.rfqs| <= |t.rfqs| && |s.bids| <= |t.bids|
    && (forall q :: 0 <= q < |s.rfqs| ==> SameRequest(s.rfqs[q], t.rfqs[q]))
    && (forall b :: 0 <= b < |s.bids| ==> SameBid(s.bids[b], t.bids[b]))
  }

  lemma ConcludedExtends(s: State, rfq: nat, winner: nat, funding: FundingMode, r: Option<nat>)
    requires Awardable(s, rfq, winner)
    ensures var t := Concluded(s, rfq, winner, funding, r).0;
            Extends(s, t) && |t.rfqs| == |s.rfqs| && |t.bids| == |s.bids|
  {
  }

  lemma AwardExtends(s: State, e: Event)
    requires e.Award?
    ensures var t := Platform.Apply(s, e); Extends(s, t) && |t.rfqs| == |s.rfqs| && |t.bids| == |s.bids|
  {
    if Awardable(s, e.rfq, e.winner) {
      match ReservingFor(s, e.winner, e.carrier, e.bufferBps, e.answer)
      case Denied =>
      case Unneeded => ConcludedExtends(s, e.rfq, e.winner, e.funding, None);
      case Made(d, r) => ConcludedExtends(s.(desk := d), e.rfq, e.winner, e.funding, Some(r));
    }
  }

  /** An event adds at most one request or one bid, as submitted, and changes what none of the others says. */
  lemma EventExtends(s: State, e: Event)
    ensures var t := Platform.Apply(s, e);
            && Extends(s, t)
            && (|t.rfqs| > |s.rfqs| ==>
                  e.RequestQuotes? && |t.rfqs| == |s.rfqs| + 1 && Made(t.rfqs[|s.rfqs|], e.request))
            && (|t.bids| > |s.bids| ==>
                  && e.SubmitBid? && |t.bids| == |s.bids| + 1 && t.rfqs == s.rfqs && e.rfq < |s.rfqs|
                  && Submitted(t.bids[|s.bids|], e.rfq, e.bid, s.rfqs[e.rfq]))
  {
    match e
    case RequestQuotes(x) => RequestMeans(s.rfqs, x);
    case SubmitBid(rfq, x) => BidMeans(s.rfqs, s.bids, rfq, x);
    case Award(_, _, _, _, _, _) => AwardExtends(s, e);
    case _ => MarketFrame(s, e);
  }

  /** Every request of every run is one that was submitted. */
  lemma {:induction false} RequestOrigin(limits: map<string, int>, events: seq<Event>, q: nat) returns (n: nat)
    requires q < |Platform.Run(Start(limits), events).rfqs|
    ensures n < |events| && events[n].RequestQuotes? &&
            Made(Platform.Run(Start(limits), events).rfqs[q], events[n].request)
  {
    var past, e := events[..|events| - 1], events[|events| - 1];
    var s := Platform.Run(Start(limits), past);
    EventExtends(s, e);
    if q < |s.rfqs| {
      n := RequestOrigin(limits, past, q);
    } else {
      n := |past|;
    }
  }

  /** Every bid of every run is one that was submitted on its request. */
  lemma {:induction false} BidOrigin(limits: map<string, int>, events: seq<Event>, b: nat) returns (n: nat)
    requires b < |Platform.Run(Start(limits), events).bids|
    ensures n < |events| && events[n].SubmitBid?
    ensures var s := Platform.Run(Start(limits), events);
            s.bids[b].rfq < |s.rfqs| && Submitted(s.bids[b], events[n].rfq, events[n].bid, s.rfqs[s.bids[b].rfq])
  {
    var past, e := events[..|events| - 1], events[|events| - 1];
    var s := Platform.Run(Start(limits), past);
    EventExtends(s, e);
    if b < |s.bids| {
      n := BidOrigin(limits, past, b);
    } else {
      n := |past|;
    }
  }

  /** The order behind an awarded request is for the milestones that the winner submitted: same ids, titles and prices,
      and same budgets unless topped up; or those of the request, if it submitted none. */
  lemma OrderOrigin(limits: map<string, int>, events: seq<Event>, q: nat, exact: bool) returns (n: nat)
    requires q < |Platform.Run(Start(limits), events).rfqs|
    requires Platform.Run(Start(limits), events).rfqs[q].status == AwardedRFQ && (exact ==> NoTopUps(events))
    ensures n < |events| && events[n].SubmitBid? && events[n].rfq == q
    ensures var s := Platform.Run(Start(limits), events);
            var x, r := events[n].bid, s.rfqs[q];
            && r.order.Some? && r.order.value < |s.orders| && s.orders[r.order.value].provider == x.provider
            && s.orders[r.order.value].buyer == r.buyer
            && Copies(s.orders[r.order.value].milestones, if x.milestones != [] then x.milestones
                      else r.defaults, exact)
  {
    var s := Platform.Run(Start(limits), events);
    OneWinner(limits, events, exact);
    assert Won(s, q, exact);
    n := BidOrigin(limits, events, s.rfqs[q].bid.value);
  }
}
