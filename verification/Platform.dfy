/** The marketplace as a whole: orders, provider liquidity, requests, bids and money, with every call
    one step. */
module Platform {
  import opened Options
  import opened Workflow
  import opened Settlement
  import opened Market
  import OrderRuns

  datatype DisputeRecord = DisputeRecord(order: nat, milestone: string, refund: int, resolved: bool)

  /** Orders have their position as id.  `entries` are the ledger entries the calls have returned,
      `limits` the buyers' credit limits and `credited` what they have paid in. */
  datatype State = State(
    orders: seq<Order>, desk: Desk, rfqs: seq<RFQ>, bids: seq<Bid>, disputes: seq<DisputeRecord>,
    entries: seq<LedgerEntry>, limits: map<string, int>, credited: map<string, int>)

  datatype OrderInput = OrderInput(buyer: string, provider: string, funding: FundingMode,
                                   milestones: seq<MilestoneInput>)

  datatype Event =
    | RequestQuotes(request: RFQInput)
    | SubmitBid(rfq: nat, bid: BidInput)
    | Award(rfq: nat, winner: nat, funding: FundingMode, carrier: CarrierBinding, bufferBps: int,
            answer: Option<Provision>)
    | PlaceOrder(input: OrderInput)
    | SettleMilestone(order: nat, id: string, summary: string, anomalies: seq<string>)
    | RecordUsage(order: nat, id: string, charge: UsageCharge)
    | OpenDispute(order: nat, id: string, refund: int)
    | ResolveDispute(dispute: nat)
    | TopUpMilestone(order: nat, id: string, cents: int)
    | ReportDisconnect(org: string)
    | RecoverProvider(org: string, answer: Option<Provision>)
    | WarmPool(org: string, answer: Option<Provision>)
    | RegisterBinding(org: string)
    | VerifyBinding(binding: nat)
    | SuspendBinding(binding: nat)
    | PayIn(buyer: string, paid: nat)

  // ---- Funding gates ----

  function BudgetOf(ms: seq<Milestone>): int {
    if ms == [] then 0 else BudgetOf(ms[..|ms| - 1]) + ms[|ms| - 1].budget
  }

  predicate UsesCredit(o: Order, buyer: string) {
    o.buyer == buyer && o.funding == Credit && (o.status == OrderStatus.Running || o.status == AwaitingBudget)
  }

  /** The budgets of a buyer's active orders on credit. */
  function CreditUsed(orders: seq<Order>, buyer: string): int {
    if orders == [] then 0
    else
      var o := orders[|orders| - 1];
      CreditUsed(orders[..|orders| - 1], buyer) + if UsesCredit(o, buyer) then BudgetOf(o.milestones) else 0
  }

  predicate CreditAvailable(s: State, buyer: string, cents: int) {
    buyer !in s.limits || s.limits[buyer] - CreditUsed(s.orders, buyer) >= cents
  }

  function Unsettled(ms: seq<Milestone>): int {
    if ms == [] then 0
    else
      var m := ms[|ms| - 1];
      Unsettled(ms[..|ms| - 1]) + if m.state != Settled && m.budget - m.settled > 0 then m.budget - m.settled else 0
  }

  /** What a buyer's prepaid orders still have to spend. */
  function Committed(orders: seq<Order>, buyer: string): int {
    if orders == [] then 0
    else
      var o := orders[|orders| - 1];
      Committed(orders[..|orders| - 1], buyer) +
      if o.buyer == buyer && PrepaidCommitted(o) then Unsettled(o.milestones) else 0
  }

  function Credited(s: State, buyer: string): int { if buyer in s.credited then s.credited[buyer] else 0 }

  predicate PrepaidAvailable(s: State, buyer: string, cents: int) {
    cents <= 0 || Credited(s, buyer) - Committed(s.orders, buyer) >= cents
  }

  // ---- Orders ----

  predicate OrderAllowed(s: State, x: OrderInput) {
    && x.buyer != "" && x.provider != "" && x.milestones != []
    && (x.funding == Credit ==> CreditAvailable(s, x.buyer, Budget(x.milestones)))
  }

  function WithOrder(s: State, x: OrderInput): State {
    s.(orders := s.orders + [NewOrder(|s.orders|, x.buyer, x.provider, x.funding, x.milestones)])
  }

  /** An order placed directly; the gateway checks the prepaid balance first. */
  function Placed(s: State, x: OrderInput): State {
    if (x.funding == Prepaid ==> PrepaidAvailable(s, x.buyer, Budget(x.milestones))) && OrderAllowed(s, x)
    then WithOrder(s, x) else s
  }

  // ---- Awards ----

  /** How a reservation attempt ends: refused, not needed, or made. */
  datatype Attempt = Denied | Unneeded | Made(desk: Desk, reservation: nat)

  function Reserving(d: Desk, org: string, carrier: CarrierBinding, needed: int, answer: Option<Provision>): Attempt {
    match BeginReserve(d, org, carrier)
    case Refused => Denied
    case NotNeeded => Unneeded
    case Asking(b, p) =>
      if answer.Some? && Sufficient(p, needed, answer.value)
      then Made(CommitReserve(d, org, b, needed, answer.value), |d.reservations|) else Denied
  }

  predicate Awardable(s: State, rfq: nat, winner: nat) {
    rfq < |s.rfqs| && s.rfqs[rfq].status == OpenRFQ && winner < |s.bids| && s.bids[winner].rfq == rfq
  }

  function InputOf(s: State, rfq: nat, winner: nat, funding: FundingMode): OrderInput
    requires Awardable(s, rfq, winner)
  {
    OrderInput(s.rfqs[rfq].buyer, s.bids[winner].provider, funding, s.bids[winner].milestones)
  }

  /** The request after its award. */
  function Closed(q: RFQ, winner: nat, provider: string, order: nat): RFQ {
    q.(status := AwardedRFQ, bid := Some(winner), provider := provider, order := Some(order))
  }

  /** The part of an award after the reservation: the bids are marked, the order is created, and the
      reservation is attached to it, or released if there is no order. */
  function Concluded(s: State, rfq: nat, winner: nat, funding: FundingMode, reservation: Option<nat>): (State, bool)
    requires Awardable(s, rfq, winner)
  {
    var x := InputOf(s, rfq, winner, funding);
    var m := s.(bids := Marked(s.bids, rfq, winner));
    if !OrderAllowed(m, x) then (if reservation.Some? then m.(desk := Release(m.desk, reservation.value)) else m, false)
    else
      var o := WithOrder(m, x);
      var d := if reservation.Some? then Attach(o.desk, reservation.value, |s.orders|) else o.desk;
      (o.(desk := d, rfqs := o.rfqs[rfq := Closed(o.rfqs[rfq], winner, x.provider, |s.orders|)]), true)
  }

  /** The award itself; the flag says whether it succeeded. */
  function Awarded(s: State, rfq: nat, winner: nat, funding: FundingMode, carrier: CarrierBinding, bps: int,
                   answer: Option<Provision>): (State, bool) {
    if !Awardable(s, rfq, winner) then (s, false)
    else
      var b := s.bids[winner];
      match Reserving(s.desk, b.provider, carrier, NeededReserve(Budget(b.milestones), bps), answer)
      case Denied => (s, false)
      case Unneeded => Concluded(s, rfq, winner, funding, None)
      case Made(d, r) => Concluded(s.(desk := d), rfq, winner, funding, Some(r))
  }

  /** Why a reservation is denied. */
  datatype Denial = ProviderSuspended | BindingRequired | PoolUnavailable | ProvisionerFailed

  function DenialOf(d: Desk, org: string, carrier: CarrierBinding, answer: Option<Provision>): Denial {
    if carrier == SuspendedCarrier then ProviderSuspended
    else if BindingFor(d, org).None? then BindingRequired
    else if BeginReserve(d, org, carrier).Asking? && answer.None? then ProvisionerFailed
    else PoolUnavailable
  }

  /** How an award ends. */
  datatype Verdict = Done | NoRFQ | NotOpen | NoBid | OtherRFQ | NoLiquidity(why: Denial) | OrderRefused

  function AwardVerdict(s: State, rfq: nat, winner: nat, funding: FundingMode, carrier: CarrierBinding, bps: int,
                        answer: Option<Provision>): Verdict {
    if rfq >= |s.rfqs| then NoRFQ
    else if s.rfqs[rfq].status != OpenRFQ then NotOpen
    else if winner >= |s.bids| then NoBid
    else if s.bids[winner].rfq != rfq then OtherRFQ
    else
      var b := s.bids[winner];
      if Reserving(s.desk, b.provider, carrier, NeededReserve(Budget(b.milestones), bps), answer).Denied?
      then NoLiquidity(DenialOf(s.desk, b.provider, carrier, answer))
      else if !OrderAllowed(s, InputOf(s, rfq, winner, funding)) then OrderRefused
      else Done
  }

  /** The gateway checks the prepaid balance before it awards. */
  predicate AwardAdmitted(s: State, rfq: nat, winner: nat, funding: FundingMode) {
    funding == Prepaid ==>
      rfq < |s.rfqs| && winner < |s.bids| && s.bids[winner].rfq == rfq &&
      PrepaidAvailable(s, s.rfqs[rfq].buyer, Budget(s.bids[winner].milestones))
  }

  // ---- Steps on one order ----

  function WithOrderAt(s: State, n: nat, o: Order): State
    requires n < |s.orders|
  {
    s.(orders := s.orders[n := o])
  }

  /** Completion releases the reservation. */
  function DeskAfter(d: Desk, o: Order, n: nat): Desk {
    if AllSettled(o.milestones) && o.status == Completed && n in d.byOrder then Release(d, d.byOrder[n]) else d
  }

  function SettledAt(s: State, n: nat, id: string, summary: string, anomalies: seq<string>): State {
    if n >= |s.orders| then s
    else match Settle(s.orders[n], id, summary)
      case Err(_) => s
      case Ok((o, e)) =>
        var done := OrderRuns.AfterSettle(o, id, anomalies);
        WithOrderAt(s, n, done).(desk := DeskAfter(s.desk, done, n), entries := s.entries + [e])
  }

  function ChargedAt(s: State, n: nat, id: string, c: UsageCharge): State {
    if n >= |s.orders| then s
    else match Charge(s.orders[n], id, c) case Err(_) => s case Ok(o) => WithOrderAt(s, n, o)
  }

  function DisputedAt(s: State, n: nat, id: string, refund: int): State {
    if n >= |s.orders| then s
    else match Dispute(s.orders[n], id, refund)
      case Err(_) => s
      case Ok((o, x, y)) =>
        WithOrderAt(s, n, o).(disputes := s.disputes + [DisputeRecord(n, id, refund, false)],
                              entries := s.entries + [x] + [y])
  }

  function ResolvedAt(s: State, n: nat, id: string): State {
    if n >= |s.orders| then s
    else match Resolve(s.orders[n], id) case Err(_) => s case Ok(o) => WithOrderAt(s, n, o)
  }

  predicate Resolvable(s: State, d: nat) {
    d < |s.disputes| && s.disputes[d].order < |s.orders| &&
    Resolve(s.orders[s.disputes[d].order], s.disputes[d].milestone).Ok?
  }

  /** A dispute is resolved through its record. */
  function ResolvedDispute(s: State, d: nat): State {
    if !Resolvable(s, d) then s
    else
      var r := s.disputes[d];
      ResolvedAt(s, r.order, r.milestone).(disputes := s.disputes[d := r.(resolved := true)])
  }

  function ToppedUpAt(s: State, n: nat, id: string, cents: int): State {
    if n >= |s.orders| then s
    else match TopUp(s.orders[n], id, cents) case Err(_) => s case Ok(o) => WithOrderAt(s, n, o)
  }

  // ---- Outages ----

  /** The reservation reaches the order when its provider's rail breaks or comes back. */
  predicate Backs(r: Reservation, org: string, n: nat) {
    r.provider == org && r.order == Some(n) && r.status == ActiveReservation
  }

  predicate Backed(rs: seq<Reservation>, org: string, n: nat) {
    exists r :: 0 <= r < |rs| && Backs(rs[r], org, n)
  }

  /** Every order with an active reservation of the provider is rewritten. */
  function Sweep(orders: seq<Order>, rs: seq<Reservation>, org: string, f: Order -> Order): (swept: seq<Order>)
    ensures |swept| == |orders|
  {
    seq(|orders|, n requires 0 <= n < |orders| => if Backed(rs, org, n) then f(orders[n]) else orders[n])
  }

  function Disrupted(s: State, org: string): State {
    if org !in s.desk.pools then s
    else s.(desk := PoolDisconnected(s.desk, org), orders := Sweep(s.orders, s.desk.reservations, org, Disconnected))
  }

  /** A recovery from begin to end; the flag says whether it succeeded. */
  function Restored(s: State, org: string, answer: Option<Provision>): (State, bool) {
    var (d, a) := BeginRecover(s.desk, org);
    if !a.Asking? then (s, false)
    else if answer.None? then (s.(desk := FailRecover(d, org)), false)
    else (s.(desk := CommitTotal(d, org, a.binding, answer.value),
             orders := Sweep(s.orders, s.desk.reservations, org, Resumed)), true)
  }

  function Warmed(s: State, org: string, answer: Option<Provision>): State {
    match BeginWarm(s.desk, org)
    case Asking(b, p) => if answer.Some? then s.(desk := CommitTotal(s.desk, org, b, answer.value)) else s
    case _ => s
  }

  // ---- Runs ----

  function Apply(s: State, e: Event): State {
    match e
    case RequestQuotes(x) => (match OpenRequest(s.rfqs, x) case Success(rfqs) => s.(rfqs := rfqs) case Failure(_) => s)
    case SubmitBid(rfq, x) => (
      match PlaceBid(s.rfqs, s.bids, rfq, x) case Success(bids) => s.(bids := bids) case Failure(_) => s)
    case Award(rfq, winner, funding, carrier, bps, answer) =>
      if AwardAdmitted(s, rfq, winner, funding) then Awarded(s, rfq, winner, funding, carrier, bps, answer).0 else s
    case PlaceOrder(x) => Placed(s, x)
    case SettleMilestone(n, id, summary, anomalies) => SettledAt(s, n, id, summary, anomalies)
    case RecordUsage(n, id, c) => ChargedAt(s, n, id, c)
    case OpenDispute(n, id, refund) => DisputedAt(s, n, id, refund)
    case ResolveDispute(d) => ResolvedDispute(s, d)
    case TopUpMilestone(n, id, cents) => ToppedUpAt(s, n, id, cents)
    case ReportDisconnect(org) => Disrupted(s, org)
    case RecoverProvider(org, answer) => Restored(s, org, answer).0
    case WarmPool(org, answer) => Warmed(s, org, answer)
    case RegisterBinding(org) => s.(desk := Register(s.desk, org))
    case VerifyBinding(b) => s.(desk := Verify(s.desk, b))
    case SuspendBinding(b) => s.(desk := Suspend(s.desk, b))
    case PayIn(buyer, paid) => s.(credited := s.credited[buyer := Credited(s, buyer) + paid])
  }

  function Run(s: State, events: seq<Event>): State {
    if events == [] then s else Apply(Run(s, events[..|events| - 1]), events[|events| - 1])
  }

  function Start(limits: map<string, int>): State {
    State([], Desk([], map[], map[], [], map[]), [], [], [], [], limits, map[])
  }

  lemma {:induction false} RunAppend(s: State, a: seq<Event>, b: seq<Event>)
    ensures Run(s, a + b) == Run(Run(s, a), b)
  {
    if b == [] {
      assert a + b == a;
    } else {
      RunAppend(s, a, b[..|b| - 1]);
      assert (a + b)[..|a + b| - 1] == a + b[..|b| - 1];
    }
  }
}
