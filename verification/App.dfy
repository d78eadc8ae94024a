/** The application object: its stores, and calls that change them in place. */
module MarketplaceApp {
  import opened Options
  import opened Workflow
  import opened Settlement
  import opened Market
  import opened Platform
  import opened LiveOrders
  import Funding

  // ---- Visiting reservations in no particular order ----

  /** The ids of a store with the given number of elements. */
  function Ids(n: nat): (ids: set<nat>)
    ensures forall r: nat :: r in ids <==> r < n
  {
    if n == 0 then {} else Ids(n - 1) + {n - 1}
  }

  /** A reservation already visited backs the order. */
  ghost predicate Visited(rs: seq<Reservation>, left: set<nat>, org: string, n: nat) {
    exists r :: 0 <= r < |rs| && r !in left && Backs(rs[r], org, n)
  }

  /** The orders of the visited reservations are rewritten and the others are not. */
  ghost predicate Swept(before: seq<Order>, now: seq<Order>, rs: seq<Reservation>, left: set<nat>, org: string,
                        f: Order -> Order) {
    && |now| == |before|
    && forall n :: 0 <= n < |now| ==> now[n] == if Visited(rs, left, org, n) then f(before[n]) else before[n]
  }

  lemma VisitSkips(before: seq<Order>, now: seq<Order>, rs: seq<Reservation>, left: set<nat>, org: string,
                   f: Order -> Order, r: nat)
    requires Swept(before, now, rs, left, org, f) && r in left && r < |rs|
    requires forall n :: 0 <= n < |before| ==> !Backs(rs[r], org, n)
    ensures Swept(before, now, rs, left - {r}, org, f)
  {
  }

  /** Rewriting an order once more does no harm. */
  lemma VisitRewrites(before: seq<Order>, now: seq<Order>, rs: seq<Reservation>, left: set<nat>, org: string,
                      f: Order -> Order, r: nat, m: nat)
    requires Swept(before, now, rs, left, org, f) && r in left && r < |rs| && m < |before| && Backs(rs[r], org, m)
    requires f(f(before[m])) == f(before[m])
    ensures Swept(before, now[m := f(now[m])], rs, left - {r}, org, f)
  {
  }

  lemma DisconnectedTwice(o: Order)
    ensures Disconnected(Disconnected(o)) == Disconnected(o)
  {
  }

  lemma ResumedTwice(o: Order)
    ensures Resumed(Resumed(o)) == Resumed(o)
  {
  }

  lemma SweptAll(before: seq<Order>, now: seq<Order>, rs: seq<Reservation>, org: string, f: Order -> Order)
    requires Swept(before, now, rs, {}, org, f)
    ensures now == Sweep(before, rs, org, f)
  {
  }

  // ---- Awards, by how the reservation ended ----

  lemma AwardedBy(s: State, rfq: nat, winner: nat, funding: FundingMode, carrier: CarrierBinding, bps: int,
                  answer: Option<Provision>, a: Attempt)
    requires Awardable(s, rfq, winner)
    requires a == Reserving(s.desk, s.bids[winner].provider, carrier,
                            NeededReserve(Budget(s.bids[winner].milestones), bps), answer)
    ensures a.Denied? ==> AwardVerdict(s, rfq, winner, funding, carrier, bps, answer) ==
                          NoLiquidity(DenialOf(s.desk, s.bids[winner].provider, carrier, answer)) &&
                          Awarded(s, rfq, winner, funding, carrier, bps, answer) == (s, false)
    ensures !a.Denied? ==>
              var t := if a.Made? then s.(desk := a.desk) else s;
              var after := Concluded(t, rfq, winner, funding, if a.Made? then Some(a.reservation) else None);
              && Awarded(s, rfq, winner, funding, carrier, bps, answer) == after
              && AwardVerdict(s, rfq, winner, funding, carrier, bps, answer) == if after.1 then Done else OrderRefused
  {
  }

  // ---- Fields that have to be filled in ----

  /** The characters Unicode calls white space. */
  predicate Space(c: char) {
    var n := c as int;
    || 0x09 <= n <= 0x0d || n == 0x20 || n == 0x85 || n == 0xa0 || n == 0x1680 || 0x2000 <= n <= 0x200a
    || n == 0x2028 || n == 0x2029 || n == 0x202f || n == 0x205f || n == 0x3000
  }

  /** Nothing is left once white space is trimmed. */
  predicate Blank(s: string) { forall i :: 0 <= i < |s| ==> Space(s[i]) }

  datatype BindingInput = BindingInput(provider: string, asset: string, peer: string, address: string)

  predicate Complete(x: BindingInput) { !Blank(x.provider) && !Blank(x.asset) && !Blank(x.peer) && !Blank(x.address) }

  // ---- Totals ----

  method TotalBudget(ms: seq<MilestoneInput>) returns (total: int)
    ensures total == Budget(ms)
  {
    total := 0;
    for i := 0 to |ms|
      invariant total == Budget(ms[..i])
    {
      total := total + ms[i].budget;
      assert ms[..i + 1][..i] == ms[..i];
    }
    assert ms[..|ms|] == ms;
  }

  method UnsettledCents(ms: seq<Milestone>) returns (total: int)
    ensures total == Unsettled(ms)
  {
    total := 0;
    for i := 0 to |ms|
      invariant total == Unsettled(ms[..i])
    {
      assert ms[..i + 1][..i] == ms[..i];
      if ms[i].state == Settled {
        continue;
      }
      var unsettled := ms[i].budget - ms[i].settled;
      if unsettled > 0 {
        total := total + unsettled;
      }
    }
    assert ms[..|ms|] == ms;
  }

  /** What the buyer's prepaid orders in the list still have to spend. */
  method BuyerCommittedPrepaidCents(orders: seq<Order>, buyer: string) returns (committed: int)
    ensures committed == Committed(orders, buyer)
  {
    committed := 0;
    for i := 0 to |orders|
      invariant committed == Committed(orders[..i], buyer)
    {
      assert orders[..i + 1][..i] == orders[..i];
      if orders[i].buyer != buyer || !PrepaidCommitted(orders[i]) {
        continue;
      }
      var unsettled := UnsettledCents(orders[i].milestones);
      committed := committed + unsettled;
    }
    assert orders[..|orders|] == orders;
  }

  method BudgetCents(ms: seq<Milestone>) returns (total: int)
    ensures total == BudgetOf(ms)
  {
    total := 0;
    for i := 0 to |ms|
      invariant total == BudgetOf(ms[..i])
    {
      total := total + ms[i].budget;
      assert ms[..i + 1][..i] == ms[..i];
    }
    assert ms[..|ms|] == ms;
  }

  class App {
    var orders: seq<Order>
    var bindings: seq<Binding>
    var bindingOf: map<string, nat>
    var pools: map<string, Pool>
    var reservations: seq<Reservation>
    var byOrder: map<nat, nat>
    var rfqs: seq<RFQ>
    var bids: seq<Bid>
    var disputes: seq<DisputeRecord>
    const limits: map<string, int>
    var credited: map<string, int>
    ghost var entries: seq<LedgerEntry>

    function TheDesk(): Desk
      reads this
    {
      Desk(bindings, bindingOf, pools, reservations, byOrder)
    }

    ghost function View(): State
      reads this
    {
      State(orders, TheDesk(), rfqs, bids, disputes, entries, limits, credited)
    }

    constructor (creditLimits: map<string, int>)
      ensures View() == Start(creditLimits)
    {
      orders, bindings, bindingOf, pools, reservations, byOrder := [], [], map[], map[], [], map[];
      rfqs, bids, disputes, limits, credited, entries := [], [], [], creditLimits, map[], [];
    }

    // ---- Settlement bindings ----

    method RegisterProviderSettlementBinding(x: BindingInput) returns (registered: bool)
      modifies this
      ensures registered <==> Complete(x) && !HasActive(old(bindings), x.provider)
      ensures View() == if Complete(x) then old(View()).(desk := Register(old(TheDesk()), x.provider)) else old(View())
    {
      if Blank(x.provider) || Blank(x.asset) || Blank(x.peer) || Blank(x.address) {
        return false;
      }
      var org := x.provider;
      for i := 0 to |bindings|
        invariant View() == old(View())
        invariant forall j :: 0 <= j < i ==> !(bindings[j].provider == org && bindings[j].status == ActiveBinding)
      {
        if bindings[i].provider == org && bindings[i].status == ActiveBinding {
          return false;
        }
      }
      bindings := bindings + [Binding(org, PendingVerification)];
      bindingOf := bindingOf[org := |bindings| - 1];
      return true;
    }

    method VerifyProviderSettlementBinding(binding: nat) returns (found: bool)
      modifies this
      ensures View() == old(View()).(desk := Verify(old(TheDesk()), binding))
      ensures found <==> binding < |old(bindings)|
    {
      if binding >= |bindings| {
        return false;
      }
      bindings := bindings[binding := bindings[binding].(status := ActiveBinding)];
      pools := pools[bindings[binding].provider := Pool(binding, Healthy, 0, 0, 0, 0)];
      return true;
    }

    method SuspendProviderSettlementBinding(binding: nat) returns (found: bool)
      modifies this
      ensures View() == old(View()).(desk := Suspend(old(TheDesk()), binding))
      ensures found <==> binding < |old(bindings)|
    {
      if binding >= |bindings| {
        return false;
      }
      bindings := bindings[binding := bindings[binding].(status := SuspendedBinding)];
      var org := bindings[binding].provider;
      var pool := if org in pools then pools[org] else NO_POOL;
      pools := pools[org := pool.(binding := binding, status := SuspendedPool)];
      return true;
    }

    // ---- Outages ----

    /** The reservations are visited in any order whatever; the result is the same. */
    method ReportProviderSettlementDisconnect(org: string) returns (found: bool)
      modifies this
      ensures View() == Disrupted(old(View()), org)
      ensures found <==> org in old(pools)
    {
      if org !in pools {
        return false;
      }
      pools := pools[org := pools[org].(status := DisconnectedPool)];
      ghost var before, start := orders, View();
      var left: set<nat> := Ids(|reservations|);
      while left != {}
        invariant forall r :: r in left ==> r < |reservations|
        invariant View() == start.(orders := orders)
        invariant Swept(before, orders, reservations, left, org, Disconnected)
        decreases |left|
      {
        var r: nat :| r in left;
        var reservation := reservations[r];
        if reservation.provider != org || reservation.order.None? || reservation.status != ActiveReservation
           || reservation.order.value >= |orders| {
          VisitSkips(before, orders, reservations, left, org, Disconnected, r);
        } else {
          var m := reservation.order.value;
          DisconnectedTwice(before[m]);
          VisitRewrites(before, orders, reservations, left, org, Disconnected, r, m);
          var order := new LiveOrder(orders[m]);
          order.MarkDisconnected();
          orders := orders[m := order.Value()];
        }
        left := left - {r};
      }
      SweptAll(before, orders, reservations, org, Disconnected);
      return true;
    }

    method ResumeProviderSettlementOrders(org: string)
      modifies this
      ensures View() == old(View()).(orders := Sweep(old(orders), old(reservations), org, Resumed))
    {
      ghost var before := orders;
      var left: set<nat> := Ids(|reservations|);
      while left != {}
        invariant forall r :: r in left ==> r < |reservations|
        invariant View() == old(View()).(orders := orders)
        invariant Swept(before, orders, reservations, left, org, Resumed)
        decreases |left|
      {
        var r: nat :| r in left;
        var reservation := reservations[r];
        if reservation.provider != org || reservation.order.None? || reservation.status != ActiveReservation
           || reservation.order.value >= |orders| {
          VisitSkips(before, orders, reservations, left, org, Resumed, r);
        } else {
          var m := reservation.order.value;
          ResumedTwice(before[m]);
          VisitRewrites(before, orders, reservations, left, org, Resumed, r, m);
          var order := new LiveOrder(orders[m]);
          order.Resume();
          orders := orders[m := order.Value()];
        }
        left := left - {r};
      }
      SweptAll(before, orders, reservations, org, Resumed);
    }

    /** The locked section before the provisioner is asked. */
    method BeginRecovery(org: string) returns (begun: Begun)
      modifies this
      ensures var (d, a) := BeginRecover(old(TheDesk()), org); View() == old(View()).(desk := d) && begun == a
    {
      if org !in bindingOf || bindingOf[org] >= |bindings| || bindings[bindingOf[org]].status != ActiveBinding ||
         org !in pools {
        return Refused;
      }
      pools := pools[org := pools[org].(status := RecoveringPool)];
      return Asking(bindingOf[org], pools[org].(available := pools[org].total));
    }

    method WritePool(org: string, binding: nat, result: Provision)
      modifies this
      ensures View() == old(View()).(desk := CommitTotal(old(TheDesk()), org, binding, result))
    {
      var pool := if org in pools then pools[org] else NO_POOL;
      var available := result.total - pool.reserved;
      if available < 0 {
        available := 0;
      }
      pools := pools[org := Pool(binding, Healthy, result.channels, result.total, pool.reserved, available)];
    }

    /** The locked section after it has answered. */
    method FinishRecovery(org: string, binding: nat, answer: Option<Provision>)
      modifies this
      ensures View() == match answer
                        case None => old(View()).(desk := FailRecover(old(TheDesk()), org))
                        case Some(p) => old(View()).(desk := CommitTotal(old(TheDesk()), org, binding, p),
                                                     orders := Sweep(old(orders), old(reservations), org, Resumed))
    {
      match answer {
        case None =>
          var pool := if org in pools then pools[org] else NO_POOL;
          pools := pools[org := pool.(status := DisconnectedPool)];
        case Some(p) =>
          ResumeProviderSettlementOrders(org);
          WritePool(org, binding, p);
      }
    }

    method RecoverProviderSettlement(org: string, answer: Option<Provision>) returns (recovered: bool)
      modifies this
      ensures (View(), recovered) == Restored(old(View()), org, answer)
    {
      var begun := BeginRecovery(org);
      if begun.Asking? {
        FinishRecovery(org, begun.binding, answer);
        return answer.Some?;
      }
      return false;
    }

    /** What is looked up before the provisioner is asked to warm the pool. */
    method BeginWarming(org: string) returns (begun: Begun)
      ensures begun == BeginWarm(TheDesk(), org)
    {
      if org !in bindingOf || bindingOf[org] >= |bindings| || bindings[bindingOf[org]].status != ActiveBinding ||
         org !in pools {
        return Refused;
      }
      var status := pools[org].status;
      if status == DisconnectedPool || status == RecoveringPool || status == SuspendedPool {
        return Refused;
      }
      return Asking(bindingOf[org], pools[org]);
    }

    method WarmProviderSettlementPool(org: string, answer: Option<Provision>) returns (warmed: bool)
      modifies this
      ensures View() == Warmed(old(View()), org, answer)
      ensures warmed <==> BeginWarm(old(TheDesk()), org).Asking? && answer.Some?
    {
      var begun := BeginWarming(org);
      if begun.Asking? && answer.Some? {
        WritePool(org, begun.binding, answer.value);
        return true;
      }
      return false;
    }

    // ---- Reservations ----

    /** The locked section before the provisioner is asked. */
    method BeginReservation(org: string, carrier: CarrierBinding) returns (begun: Begun)
      ensures begun == BeginReserve(TheDesk(), org, carrier)
    {
      if carrier == SuspendedCarrier {
        return Refused;
      }
      if carrier == NoCarrier {
        return NotNeeded;
      }
      if org !in bindingOf || bindingOf[org] >= |bindings| || bindings[bindingOf[org]].status != ActiveBinding {
        return Refused;
      }
      var pool := if org in pools then pools[org] else NO_POOL;
      if pool.status == DisconnectedPool || pool.status == RecoveringPool || pool.status == SuspendedPool ||
         pool.status == Degraded {
        return Refused;
      }
      return Asking(bindingOf[org], pool);
    }

    /** The locked section after it has answered. */
    method FinishReservation(org: string, binding: nat, snapshot: Pool, needed: int, answer: Option<Provision>)
      returns (reservation: Option<nat>)
      modifies this
      ensures if answer.Some? && Sufficient(snapshot, needed, answer.value)
              then View() == old(View()).(desk := CommitReserve(old(TheDesk()), org, binding, needed, answer.value)) &&
                   reservation == Some(|old(reservations)|)
              else View() == old(View()) && reservation == None
    {
      if answer.None? || answer.value.total < snapshot.reserved + needed {
        return None;
      }
      var pool := if org in pools then pools[org] else NO_POOL;
      var reserved := pool.reserved + needed;
      pools := pools[org := Pool(binding, Healthy, answer.value.channels, answer.value.total, reserved,
                                 answer.value.total - reserved)];
      reservations := reservations + [Reservation(None, binding, org, needed, Reserved)];
      return Some(|reservations| - 1);
    }

    method AttachProviderSettlementReservation(r: nat, order: nat) returns (found: bool)
      modifies this
      ensures View() == old(View()).(desk := Attach(old(TheDesk()), r, order))
      ensures found <==> r < |old(reservations)|
    {
      if r >= |reservations| {
        return false;
      }
      reservations := reservations[r := reservations[r].(order := Some(order), status := ActiveReservation)];
      byOrder := byOrder[order := r];
      return true;
    }

    method ReleaseProviderSettlementReservation(r: nat)
      modifies this
      ensures View() == old(View()).(desk := Release(old(TheDesk()), r))
    {
      if r >= |reservations| || reservations[r].status == ReleasedReservation {
        return;
      }
      var org := reservations[r].provider;
      var pool := if org in pools then pools[org] else NO_POOL;
      var reserved := pool.reserved - reservations[r].cents;
      if reserved < 0 {
        reserved := 0;
      }
      pools := pools[org := pool.(reserved := reserved, available := pool.total - reserved)];
      reservations := reservations[r := reservations[r].(status := ReleasedReservation)];
    }

    // ---- Requests, bids and orders ----

    method CreateRFQ(x: RFQInput) returns (r: Outcome<nat>)
      modifies this
      ensures match OpenRequest(old(rfqs), x)
              case Success(after) => View() == old(View()).(rfqs := after) && r == Success(|old(rfqs)|)
              case Failure(e) => View() == old(View()) && r == Failure(e)
    {
      if x.buyer == "" || x.title == "" || x.category == "" || x.scope == "" || x.budget <= 0 {
        return Failure(MissingRequiredFields);
      }
      if x.deadline == NoDeadline {
        return Failure(DeadlineRequired);
      }
      if x.deadline == Past {
        return Failure(DeadlineInPast);
      }
      var milestones := x.milestones;
      if |milestones| == 0 {
        milestones := DefaultSplit(x.budget);
      }
      rfqs := rfqs + [RFQ(x.buyer, x.budget, milestones, OpenRFQ, None, "", None)];
      return Success(|rfqs| - 1);
    }

    method CreateBid(rfq: nat, x: BidInput) returns (r: Outcome<nat>)
      modifies this
      ensures match PlaceBid(old(rfqs), old(bids), rfq, x)
              case Success(after) => View() == old(View()).(bids := after) && r == Success(|old(bids)|)
              case Failure(e) => View() == old(View()) && r == Failure(e)
    {
      if rfq >= |rfqs| {
        return Failure(RFQNotFound);
      }
      if rfqs[rfq].status != OpenRFQ {
        return Failure(NotOpenForBids);
      }
      if x.provider == "" || x.message == "" {
        return Failure(MissingRequiredFields);
      }
      if !x.profileAccepted {
        return Failure(ProfileRejected);
      }
      var quote := x.quote;
      if quote <= 0 {
        quote := rfqs[rfq].budget;
      }
      var milestones := x.milestones;
      if |milestones| == 0 && |rfqs[rfq].defaults| > 0 {
        milestones := rfqs[rfq].defaults;
      }
      if |milestones| == 0 {
        return Failure(MilestonesRequired);
      }
      var total := TotalBudget(milestones);
      if total > rfqs[rfq].budget {
        return Failure(BidExceedsBudget);
      }
      bids := bids + [Bid(rfq, x.provider, quote, OpenBid, milestones)];
      return Success(|bids| - 1);
    }

    method CheckCreditAvailability(buyer: string, requested: int) returns (available: bool)
      ensures available == CreditAvailable(View(), buyer, requested)
    {
      if buyer !in limits {
        return true;
      }
      var used := 0;
      for i := 0 to |orders|
        invariant used == CreditUsed(orders[..i], buyer)
      {
        assert orders[..i + 1][..i] == orders[..i];
        if orders[i].buyer == buyer && orders[i].funding == Credit
           && (orders[i].status == OrderStatus.Running || orders[i].status == AwaitingBudget) {
          var budget := BudgetCents(orders[i].milestones);
          used := used + budget;
        }
      }
      assert orders[..|orders|] == orders;
      return limits[buyer] - used >= requested;
    }

    method CreateOrder(x: OrderInput) returns (order: Option<nat>)
      modifies this
      ensures if OrderAllowed(old(View()), x) then View() == WithOrder(old(View()), x) && order == Some(|old(orders)|)
              else View() == old(View()) && order == None
    {
      if x.buyer == "" || x.provider == "" || |x.milestones| == 0 {
        return None;
      }
      if x.funding == Credit {
        var total := TotalBudget(x.milestones);
        var available := CheckCreditAvailability(x.buyer, total);
        if !available {
          return None;
        }
      }
      orders := orders + [NewOrder(|orders|, x.buyer, x.provider, x.funding, x.milestones)];
      return Some(|orders| - 1);
    }

    method MarkBids(rfq: nat, winner: nat)
      modifies this
      ensures View() == old(View()).(bids := Marked(old(bids), rfq, winner))
    {
      for i := 0 to |bids|
        invariant View() == old(View()).(bids := bids) && |bids| == |old(bids)|
        invariant forall j :: 0 <= j < |bids| ==>
                    bids[j] == if j < i then Marked(old(bids), rfq, winner)[j] else old(bids)[j]
      {
        if bids[i].rfq == rfq {
          if i == winner {
            bids := bids[i := bids[i].(status := AwardedBid)];
          } else {
            bids := bids[i := bids[i].(status := RejectedBid)];
          }
        }
      }
      assert bids == Marked(old(bids), rfq, winner);
    }

    /** The award once the reservation, if one is needed, has been made. */
    method ConcludeAward(rfq: nat, winner: nat, funding: FundingMode, reservation: Option<nat>) returns (done: bool)
      requires Awardable(View(), rfq, winner)
      modifies this
      ensures (View(), done) == Concluded(old(View()), rfq, winner, funding, reservation)
    {
      var x := OrderInput(rfqs[rfq].buyer, bids[winner].provider, funding, bids[winner].milestones);
      MarkBids(rfq, winner);
      var order := CreateOrder(x);
      if order.None? {
        if reservation.Some? {
          ReleaseProviderSettlementReservation(reservation.value);
        }
        return false;
      }
      if reservation.Some? {
        var attached := AttachProviderSettlementReservation(reservation.value, order.value);
      }
      var q := rfqs[rfq].(status := AwardedRFQ, bid := Some(winner), provider := x.provider, order := order);
      rfqs := rfqs[rfq := q];
      return true;
    }

    method AwardRFQ(rfq: nat, winner: nat, funding: FundingMode, carrier: CarrierBinding, bufferBps: int,
                    answer: Option<Provision>) returns (verdict: Verdict)
      modifies this
      ensures (View(), verdict.Done?) == Awarded(old(View()), rfq, winner, funding, carrier, bufferBps, answer)
      ensures verdict == AwardVerdict(old(View()), rfq, winner, funding, carrier, bufferBps, answer)
    {
      if rfq >= |rfqs| {
        return NoRFQ;
      }
      if rfqs[rfq].status != OpenRFQ {
        return NotOpen;
      }
      if winner >= |bids| {
        return NoBid;
      }
      if bids[winner].rfq != rfq {
        return OtherRFQ;
      }
      verdict := AwardOpenRFQ(rfq, winner, funding, carrier, bufferBps, answer);
    }

    method AwardOpenRFQ(rfq: nat, winner: nat, funding: FundingMode, carrier: CarrierBinding, bufferBps: int,
                        answer: Option<Provision>) returns (verdict: Verdict)
      requires Awardable(View(), rfq, winner)
      modifies this
      ensures (View(), verdict.Done?) == Awarded(old(View()), rfq, winner, funding, carrier, bufferBps, answer)
      ensures verdict == AwardVerdict(old(View()), rfq, winner, funding, carrier, bufferBps, answer)
    {
      ghost var before := View();
      var total := TotalBudget(bids[winner].milestones);
      var attempt, why := MaybeReserve(bids[winner].provider, carrier, NeededReserve(total, bufferBps), answer);
      AwardedBy(before, rfq, winner, funding, carrier, bufferBps, answer, attempt);
      if attempt.Denied? {
        return NoLiquidity(why);
      }
      var done := ConcludeAward(rfq, winner, funding, if attempt.Made? then Some(attempt.reservation) else None);
      return if done then Done else OrderRefused;
    }

    /** A reservation from begin to end, and why it is denied if it is. */
    method MaybeReserve(org: string, carrier: CarrierBinding, needed: int, answer: Option<Provision>)
      returns (attempt: Attempt, why: Denial)
      modifies this
      ensures attempt == Reserving(old(TheDesk()), org, carrier, needed, answer)
      ensures attempt.Denied? ==> why == DenialOf(old(TheDesk()), org, carrier, answer)
      ensures View() == if attempt.Made? then old(View()).(desk := attempt.desk) else old(View())
    {
      why := PoolUnavailable;
      if carrier == SuspendedCarrier {
        return Denied, ProviderSuspended;
      }
      if carrier != NoCarrier && (org !in bindingOf || bindingOf[org] >= |bindings|) {
        return Denied, BindingRequired;
      }
      var begun := BeginReservation(org, carrier);
      if begun.Refused? {
        return Denied, why;
      }
      if begun.NotNeeded? {
        return Unneeded, why;
      }
      if answer.None? {
        return Denied, ProvisionerFailed;
      }
      var reservation := FinishReservation(org, begun.binding, begun.pool, needed, answer);
      attempt := if reservation.Some? then Made(TheDesk(), reservation.value) else Denied;
    }

    // ---- Calls on one order ----

    method SettleMilestone(n: nat, key: string, summary: string, anomalies: seq<string>)
      returns (entry: Option<LedgerEntry>)
      modifies this
      ensures View() == SettledAt(old(View()), n, key, summary, anomalies)
      ensures entry == if n < |old(orders)| && Settle(old(orders)[n], key, summary).Ok?
                       then Some(Settle(old(orders)[n], key, summary).value.1) else None
    {
      if n >= |orders| {
        return None;
      }
      var order := new LiveOrder(orders[n]);
      var settled := order.SettleMilestone(key, summary);
      if settled.Err? {
        return None;
      }
      order.Reconcile(key, anomalies);
      order.AdvanceNextMilestone(key);
      orders := orders[n := order.Value()];
      entries := entries + [settled.value];
      var all := order.IsLastMilestoneSettled();
      if all && order.status == Completed && n in byOrder {
        ReleaseProviderSettlementReservation(byOrder[n]);
      }
      return Some(settled.value);
    }

    method RecordUsageCharge(n: nat, key: string, charge: UsageCharge) returns (recorded: bool)
      modifies this
      ensures View() == ChargedAt(old(View()), n, key, charge)
      ensures recorded <==> n < |old(orders)| && Charge(old(orders)[n], key, charge).Ok?
    {
      if n >= |orders| {
        return false;
      }
      var order := new LiveOrder(orders[n]);
      var r := order.RecordUsageCharge(key, charge);
      if r.Err? {
        return false;
      }
      orders := orders[n := order.Value()];
      return true;
    }

    method OpenDispute(n: nat, key: string, refund: int) returns (dispute: Option<nat>)
      modifies this
      ensures View() == DisputedAt(old(View()), n, key, refund)
      ensures dispute == if n < |old(orders)| && Dispute(old(orders)[n], key, refund).Ok?
                         then Some(|old(disputes)|) else None
    {
      if n >= |orders| {
        return None;
      }
      var order := new LiveOrder(orders[n]);
      var r := order.OpenDispute(key, refund);
      if r.Err? {
        return None;
      }
      disputes := disputes + [DisputeRecord(n, key, refund, false)];
      orders := orders[n := order.Value()];
      entries := entries + [r.value.0] + [r.value.1];
      return Some(|disputes| - 1);
    }

    method ResolveDispute(d: nat) returns (resolved: bool)
      modifies this
      ensures View() == ResolvedDispute(old(View()), d)
      ensures resolved <==> Resolvable(old(View()), d)
    {
      if d >= |disputes| || disputes[d].order >= |orders| {
        return false;
      }
      var n := disputes[d].order;
      var order := new LiveOrder(orders[n]);
      var r := order.ResolveDispute(disputes[d].milestone);
      if r.Err? {
        return false;
      }
      disputes := disputes[d := disputes[d].(resolved := true)];
      orders := orders[n := order.Value()];
      return true;
    }

    method TopUpMilestone(n: nat, key: string, cents: int) returns (done: bool)
      modifies this
      ensures View() == ToppedUpAt(old(View()), n, key, cents)
      ensures done <==> n < |old(orders)| && TopUp(old(orders)[n], key, cents).Ok?
    {
      if n >= |orders| {
        return false;
      }
      var order := new LiveOrder(orders[n]);
      var r := order.TopUpBudget(key, cents);
      if r.Err? {
        return false;
      }
      orders := orders[n := order.Value()];
      return true;
    }

    method GetBudgetWallInfo(n: nat) returns (wall: BudgetWall)
      ensures wall == if n < |orders| then BudgetWallInfo(orders[n]) else NoWall
    {
      if n >= |orders| {
        return NoWall;
      }
      var order := new LiveOrder(orders[n]);
      wall := order.GetBudgetWallInfo();
    }

    // ---- The gateway's prepaid gate ----

    /** A settled top-up of the buyer's, which the gate will find among the funding records. */
    method RecordTopUp(buyer: string, paid: nat)
      modifies this
      ensures View() == Platform.Apply(old(View()), PayIn(buyer, paid))
    {
      var before := if buyer in credited then credited[buyer] else 0;
      credited := credited[buyer := before + paid];
    }

    /** The store lists the matching orders in an order of its own. */
    method ListPrepaidOrders(buyer: string) returns (listed: seq<Order>)
      ensures multiset(listed) == multiset(Funding.Filtered(orders, buyer))
    {
      listed := [];
      for i := 0 to |orders|
        invariant listed == Funding.Filtered(orders[..i], buyer)
      {
        assert orders[..i + 1][..i] == orders[..i];
        if buyer != "" && orders[i].buyer != buyer {
          assert Funding.Filtered(orders[..i + 1], buyer) == Funding.Filtered(orders[..i], buyer) + [];
          continue;
        }
        if orders[i].funding != Prepaid {
          continue;
        }
        if orders[i].status != OrderStatus.Running && orders[i].status != AwaitingBudget &&
           orders[i].status != AwaitingPaymentRail {
          continue;
        }
        listed := listed + [orders[i]];
      }
      assert orders[..|orders|] == orders;
    }

    method EnsureBuyerPrepaidAvailability(buyer: string, requested: int) returns (available: bool)
      ensures available == PrepaidAvailable(View(), buyer, requested)
    {
      if requested <= 0 {
        return true;
      }
      var paidIn := if buyer in credited then credited[buyer] else 0;
      var listed := ListPrepaidOrders(buyer);
      var committed := BuyerCommittedPrepaidCents(listed, buyer);
      Funding.ListedIsEnough(orders, listed, buyer);
      return paidIn - committed >= requested;
    }

    /** The gateway's order call: the gate, then the order. */
    method HandleCreateOrder(x: OrderInput) returns (order: Option<nat>)
      modifies this
      ensures View() == Placed(old(View()), x)
      ensures order == if (x.funding == Prepaid ==> PrepaidAvailable(old(View()), x.buyer, Budget(x.milestones))) &&
                          OrderAllowed(old(View()), x)
                       then Some(|old(orders)|) else None
    {
      if x.funding == Prepaid {
        var total := TotalBudget(x.milestones);
        var available := EnsureBuyerPrepaidAvailability(x.buyer, total);
        if !available {
          return None;
        }
      }
      order := CreateOrder(x);
    }

    /** The gateway's award call: the gate, then the award. */
    method HandleAwardRFQ(rfq: nat, winner: nat, funding: FundingMode, carrier: CarrierBinding, bufferBps: int,
                          answer: Option<Provision>) returns (verdict: Option<Verdict>)
      modifies this
      ensures View() == Platform.Apply(old(View()), Award(rfq, winner, funding, carrier, bufferBps, answer))
      ensures verdict == if AwardAdmitted(old(View()), rfq, winner, funding)
                         then Some(AwardVerdict(old(View()), rfq, winner, funding, carrier, bufferBps, answer))
                         else None
    {
      if funding == Prepaid {
        if rfq >= |rfqs| || winner >= |bids| || bids[winner].rfq != rfq {
          return None;
        }
        var total := TotalBudget(bids[winner].milestones);
        var available := EnsureBuyerPrepaidAvailability(rfqs[rfq].buyer, total);
        if !available {
          return None;
        }
      }
      var v := AwardRFQ(rfq, winner, funding, carrier, bufferBps, answer);
      return Some(v);
    }
  }
}
