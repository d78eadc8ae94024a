/** Every step of the marketplace is, seen from one order, a step of that order's life or no step at
    all; so what holds in every life of an order holds of every order in every run. */
module PlatformRuns {
  import opened Options
  import opened Workflow
  import opened Settlement
  import opened Platform
  import opened OrderLife = OrderRuns
  import Market

  // ---- One order in the whole ----

  function RailOf(d: Desk, n: nat): Rail {
    if n !in d.byOrder || d.byOrder[n] >= |d.reservations| then NoRail
    else if d.reservations[d.byOrder[n]].status == ActiveReservation then Attached else Released
  }

  function EntriesFor(entries: seq<LedgerEntry>, n: nat): seq<LedgerEntry> {
    if entries == [] then []
    else
      var e := entries[|entries| - 1];
      EntriesFor(entries[..|entries| - 1], n) + if e.order == n then [e] else []
  }

  function BookOf(s: State, n: nat): Book
    requires n < |s.orders|
  {
    Book(s.orders[n], RailOf(s.desk, n), EntriesFor(s.entries, n))
  }

  /** The step an event is for one order. */
  function StepOn(s: State, e: Event, n: nat): Option<Step>
    requires n < |s.orders|
  {
    match e
    case SettleMilestone(m, id, summary, anomalies) => if m == n then Some(SettleStep(id, summary, anomalies)) else None
    case RecordUsage(m, id, c) => if m == n then Some(UsageStep(id, c)) else None
    case OpenDispute(m, id, refund) => if m == n then Some(DisputeStep(id, refund)) else None
    case ResolveDispute(d) =>
      if d < |s.disputes| && s.disputes[d].order == n then Some(ResolveStep(s.disputes[d].milestone)) else None
    case TopUpMilestone(m, id, cents) => if m == n then Some(TopUpStep(id, cents)) else None
    case ReportDisconnect(org) => if org in s.desk.pools && s.orders[n].provider == org then Some(Disconnect) else None
    case RecoverProvider(org, answer) =>
      if Restored(s, org, answer).1 && s.orders[n].provider == org then Some(Recover) else None
    case _ => None
  }

  function Lived(b: Book, step: Option<Step>): Book {
    if step.None? then b else OrderLife.Apply(b, step.value)
  }

  // ---- Orders and reservations point at each other ----

  ghost predicate Linked(orders: seq<Order>, d: Desk) {
    && (forall n :: 0 <= n < |orders| ==> orders[n].id == n)
    && (forall n :: n in d.byOrder ==>
          && n < |orders| && d.byOrder[n] < |d.reservations|
          && d.reservations[d.byOrder[n]].order == Some(n)
          && d.reservations[d.byOrder[n]].provider == orders[n].provider)
    && (forall r :: 0 <= r < |d.reservations| && d.reservations[r].order.Some? ==>
          var n := d.reservations[r].order.value;
          n in d.byOrder && d.byOrder[n] == r)
  }

  /** The later orders start with the earlier ones, up to what may change in an order. */
  ghost predicate Continues(before: seq<Order>, after: seq<Order>) {
    && |before| <= |after|
    && (forall n :: 0 <= n < |before| ==> after[n].id == before[n].id && after[n].provider == before[n].provider)
    && (forall n :: |before| <= n < |after| ==> after[n].id == n)
  }

  lemma LinkedOrders(before: seq<Order>, after: seq<Order>, d: Desk)
    requires Linked(before, d) && Continues(before, after)
    ensures Linked(after, d)
  {
  }

  lemma LinkedRelease(orders: seq<Order>, d: Desk, r: nat)
    requires Linked(orders, d)
    ensures Linked(orders, Release(d, r))
  {
  }

  lemma LinkedCommit(orders: seq<Order>, d: Desk, org: string, b: nat, needed: int, p: Provision)
    requires Linked(orders, d)
    ensures Linked(orders, CommitReserve(d, org, b, needed, p))
  {
  }

  lemma LinkedAttach(orders: seq<Order>, d: Desk, r: nat, o: Order)
    requires Linked(orders, d) && r < |d.reservations| && d.reservations[r].order.None?
    requires o.id == |orders| && o.provider == d.reservations[r].provider
    ensures Linked(orders + [o], Attach(d, r, |orders|))
  {
  }

  /** An outage of a provider reaches exactly its orders that hold an active reservation. */
  lemma BackedExactly(orders: seq<Order>, d: Desk, org: string, n: nat)
    requires Linked(orders, d) && n < |orders|
    ensures Backed(d.reservations, org, n) <==> RailOf(d, n) == Attached && orders[n].provider == org
  {
  }

  // ---- Steps on one order ----

  lemma EntriesSnoc(es: seq<LedgerEntry>, e: LedgerEntry, n: nat)
    ensures EntriesFor(es + [e], n) == EntriesFor(es, n) + if e.order == n then [e] else []
  {
  }

  lemma SettleIdentity(o: Order, id: string, summary: string)
    requires Settle(o, id, summary).Ok?
    ensures var (p, e) := Settle(o, id, summary).value; p.id == o.id && p.provider == o.provider && e.order == o.id
  {
  }

  lemma RailAfterSettle(d: Desk, done: Order, m: nat, n: nat, orders: seq<Order>)
    requires Linked(orders, d)
    ensures RailOf(DeskAfter(d, done, m), n) == if m == n then RailAfter(done, RailOf(d, n)) else RailOf(d, n)
  {
  }

  lemma SettleLinked(s: State, m: nat, id: string, summary: string, anomalies: seq<string>)
    requires Linked(s.orders, s.desk)
    ensures var t := SettledAt(s, m, id, summary, anomalies); Linked(t.orders, t.desk) && |t.orders| == |s.orders|
  {
    if m < |s.orders| && Settle(s.orders[m], id, summary).Ok? {
      SettleIdentity(s.orders[m], id, summary);
      var done := AfterSettle(Settle(s.orders[m], id, summary).value.0, id, anomalies);
      LinkedOrders(s.orders, s.orders[m := done], s.desk);
      if m in s.desk.byOrder {
        LinkedRelease(s.orders[m := done], s.desk, s.desk.byOrder[m]);
      }
    }
  }

  lemma SettleLives(s: State, m: nat, id: string, summary: string, anomalies: seq<string>, n: nat)
    requires Linked(s.orders, s.desk) && n < |s.orders| &&
             |SettledAt(s, m, id, summary, anomalies).orders| == |s.orders|
    ensures BookOf(SettledAt(s, m, id, summary, anomalies), n) ==
            Lived(BookOf(s, n), if m == n then Some(SettleStep(id, summary, anomalies)) else None)
  {
    if m < |s.orders| && Settle(s.orders[m], id, summary).Ok? {
      SettleIdentity(s.orders[m], id, summary);
      var (o, e) := Settle(s.orders[m], id, summary).value;
      EntriesSnoc(s.entries, e, n);
      RailAfterSettle(s.desk, AfterSettle(o, id, anomalies), m, n, s.orders);
    }
  }

  lemma ChargeLives(s: State, m: nat, id: string, c: UsageCharge, n: nat)
    requires Linked(s.orders, s.desk) && n < |s.orders|
    ensures var t := ChargedAt(s, m, id, c);
            && |t.orders| == |s.orders|
            && BookOf(t, n) == Lived(BookOf(s, n), if m == n then Some(UsageStep(id, c)) else None)
  {
  }

  lemma DisputeIdentity(o: Order, id: string, refund: int)
    requires Dispute(o, id, refund).Ok?
    ensures var (p, x, y) := Dispute(o, id, refund).value;
            p.id == o.id && p.provider == o.provider && x.order == o.id && y.order == o.id
  {
  }

  lemma EntriesPair(es: seq<LedgerEntry>, x: LedgerEntry, y: LedgerEntry, n: nat)
    requires x.order == y.order
    ensures EntriesFor(es + [x] + [y], n) == if x.order == n then EntriesFor(es, n) + [x, y] else EntriesFor(es, n)
  {
  }

  lemma DisputeLives(s: State, m: nat, id: string, refund: int, n: nat)
    requires Linked(s.orders, s.desk) && n < |s.orders|
    ensures var t := DisputedAt(s, m, id, refund);
            && |t.orders| == |s.orders|
            && BookOf(t, n) == Lived(BookOf(s, n), if m == n then Some(DisputeStep(id, refund)) else None)
  {
    if m < |s.orders| && Dispute(s.orders[m], id, refund).Ok? {
      DisputeIdentity(s.orders[m], id, refund);
      var (o, x, y) := Dispute(s.orders[m], id, refund).value;
      EntriesPair(s.entries, x, y, n);
    }
  }

  lemma ResolveLives(s: State, m: nat, id: string, n: nat)
    requires Linked(s.orders, s.desk) && n < |s.orders|
    ensures var t := ResolvedAt(s, m, id);
            && |t.orders| == |s.orders|
            && BookOf(t, n) == Lived(BookOf(s, n), if m == n then Some(ResolveStep(id)) else None)
  {
  }

  lemma TopUpLives(s: State, m: nat, id: string, cents: int, n: nat)
    requires Linked(s.orders, s.desk) && n < |s.orders|
    ensures var t := ToppedUpAt(s, m, id, cents);
            && |t.orders| == |s.orders|
            && BookOf(t, n) == Lived(BookOf(s, n), if m == n then Some(TopUpStep(id, cents)) else None)
  {
  }

  // Steps on one order that leave the desk alone.

  lemma ChargeLinked(s: State, m: nat, id: string, c: UsageCharge)
    requires Linked(s.orders, s.desk)
    ensures Linked(ChargedAt(s, m, id, c).orders, s.desk) && ChargedAt(s, m, id, c).desk == s.desk
  {
  }

  lemma DisputeLinked(s: State, m: nat, id: string, refund: int)
    requires Linked(s.orders, s.desk)
    ensures Linked(DisputedAt(s, m, id, refund).orders, s.desk) && DisputedAt(s, m, id, refund).desk == s.desk
  {
  }

  lemma ResolveLinked(s: State, m: nat, id: string)
    requires Linked(s.orders, s.desk)
    ensures Linked(ResolvedAt(s, m, id).orders, s.desk) && ResolvedAt(s, m, id).desk == s.desk
  {
  }

  lemma TopUpLinked(s: State, m: nat, id: string, cents: int)
    requires Linked(s.orders, s.desk)
    ensures Linked(ToppedUpAt(s, m, id, cents).orders, s.desk) && ToppedUpAt(s, m, id, cents).desk == s.desk
  {
  }

  // ---- Outages ----

  lemma LinkedSweep(orders: seq<Order>, d: Desk, org: string, f: Order -> Order)
    requires Linked(orders, d) && forall o :: f(o).id == o.id && f(o).provider == o.provider
    ensures Linked(Sweep(orders, d.reservations, org, f), d)
  {
  }

  /** The pools play no part in the links. */
  lemma LinkedPools(orders: seq<Order>, d: Desk, e: Desk)
    requires Linked(orders, d) && e.reservations == d.reservations && e.byOrder == d.byOrder
    ensures Linked(orders, e) && forall n :: RailOf(e, n) == RailOf(d, n)
  {
  }

  lemma RecoverKeeps(d: Desk, org: string, b: nat, p: Provision)
    ensures var c := CommitTotal(BeginRecover(d, org).0, org, b, p);
            c.reservations == d.reservations && c.byOrder == d.byOrder
    ensures var c := FailRecover(BeginRecover(d, org).0, org);
            c.reservations == d.reservations && c.byOrder == d.byOrder
    ensures PoolDisconnected(d, org).reservations == d.reservations && PoolDisconnected(d, org).byOrder == d.byOrder
  {
  }

  lemma OutageLinked(s: State, org: string, answer: Option<Provision>)
    requires Linked(s.orders, s.desk)
    ensures Linked(Disrupted(s, org).orders, Disrupted(s, org).desk)
    ensures Linked(Restored(s, org, answer).0.orders, Restored(s, org, answer).0.desk)
  {
    var b, p := BeginRecover(s.desk, org).1, if answer.Some? then answer.value else Provision(0, 0);
    RecoverKeeps(s.desk, org, if b.Asking? then b.binding else 0, p);
    LinkedSweep(s.orders, s.desk, org, Disconnected);
    LinkedSweep(s.orders, s.desk, org, Resumed);
    LinkedPools(Disrupted(s, org).orders, s.desk, Disrupted(s, org).desk);
    LinkedPools(Restored(s, org, answer).0.orders, s.desk, Restored(s, org, answer).0.desk);
  }

  lemma RestoredKeeps(s: State, org: string, answer: Option<Provision>)
    ensures var t := Restored(s, org, answer).0;
            && t.desk.reservations == s.desk.reservations && t.desk.byOrder == s.desk.byOrder && t.entries == s.entries
            && t.orders == if Restored(s, org, answer).1
                           then Sweep(s.orders, s.desk.reservations, org, Resumed) else s.orders
  {
  }

  lemma DisconnectLives(s: State, org: string, n: nat)
    requires Linked(s.orders, s.desk) && n < |s.orders|
    ensures var t := Disrupted(s, org);
            && |t.orders| == |s.orders|
            && BookOf(t, n) == Lived(BookOf(s, n), StepOn(s, ReportDisconnect(org), n))
  {
    BackedExactly(s.orders, s.desk, org, n);
  }

  lemma RecoverLives(s: State, org: string, answer: Option<Provision>, n: nat)
    requires Linked(s.orders, s.desk) && n < |s.orders|
    ensures var t := Restored(s, org, answer).0;
            && |t.orders| == |s.orders|
            && BookOf(t, n) == Lived(BookOf(s, n), StepOn(s, RecoverProvider(org, answer), n))
  {
    BackedExactly(s.orders, s.desk, org, n);
    RestoredKeeps(s, org, answer);
  }

  // ---- New orders ----

  /** The orders so far are as they were. */
  ghost predicate Untouched(s: State, t: State) {
    && |s.orders| <= |t.orders| && t.entries == s.entries
    && (forall n :: 0 <= n < |s.orders| ==> t.orders[n] == s.orders[n] && RailOf(t.desk, n) == RailOf(s.desk, n))
  }

  /** Orders that came into being are new ones made from the input, with or without a reservation. */
  ghost predicate Born(s: State, t: State, x: OrderInput) {
    |t.orders| == |s.orders| ||
    (&& |t.orders| == |s.orders| + 1 && x.milestones != []
     && t.orders[|s.orders|] == NewOrder(|s.orders|, x.buyer, x.provider, x.funding, x.milestones)
     && RailOf(t.desk, |s.orders|) != Released)
  }

  lemma PlaceLives(s: State, x: OrderInput)
    requires Linked(s.orders, s.desk)
    ensures var t := Placed(s, x); Linked(t.orders, t.desk) && Untouched(s, t) && Born(s, t, x)
  {
  }

  /** A reservation made for the provider and not attached to any order. */
  predicate Loose(d: Desk, r: nat, org: string) {
    r < |d.reservations| && d.reservations[r].order.None? && d.reservations[r].provider == org
  }

  lemma RailLoose(orders: seq<Order>, d: Desk, r: nat, org: string, n: nat)
    requires Linked(orders, d) && Loose(d, r, org)
    ensures RailOf(Release(d, r), n) == RailOf(d, n)
    ensures RailOf(Attach(d, r, |orders|), n) == if n == |orders| then Attached else RailOf(d, n)
  {
  }

  lemma ConcludeLives(s: State, rfq: nat, winner: nat, funding: FundingMode, r: nat)
    requires Linked(s.orders, s.desk) && Awardable(s, rfq, winner) && Loose(s.desk, r, s.bids[winner].provider)
    ensures var t := Concluded(s, rfq, winner, funding, Some(r)).0;
            Linked(t.orders, t.desk) && Untouched(s, t) && Born(s, t, InputOf(s, rfq, winner, funding))
  {
    var x := InputOf(s, rfq, winner, funding);
    var o := NewOrder(|s.orders|, x.buyer, x.provider, x.funding, x.milestones);
    LinkedRelease(s.orders, s.desk, r);
    LinkedAttach(s.orders, s.desk, r, o);
    forall n ensures RailOf(Release(s.desk, r), n) == RailOf(s.desk, n) {
      RailLoose(s.orders, s.desk, r, x.provider, n);
    }
    forall n
      ensures RailOf(Attach(s.desk, r, |s.orders|), n) == if n == |s.orders| then Attached else RailOf(s.desk, n)
    {
      RailLoose(s.orders, s.desk, r, x.provider, n);
    }
  }

  lemma ConcludeUnreserved(s: State, rfq: nat, winner: nat, funding: FundingMode)
    requires Linked(s.orders, s.desk) && Awardable(s, rfq, winner)
    ensures var t := Concluded(s, rfq, winner, funding, None).0;
            Linked(t.orders, t.desk) && Untouched(s, t) && Born(s, t, InputOf(s, rfq, winner, funding))
  {
  }

  lemma AwardLives(s: State, rfq: nat, winner: nat, funding: FundingMode, carrier: CarrierBinding, bps: int,
                   answer: Option<Provision>)
    requires Linked(s.orders, s.desk)
    ensures var t := Awarded(s, rfq, winner, funding, carrier, bps, answer).0;
            && Linked(t.orders, t.desk) && Untouched(s, t)
            && if Awardable(s, rfq, winner) then Born(s, t, InputOf(s, rfq, winner, funding)) else t == s
  {
    if Awardable(s, rfq, winner) {
      var b := s.bids[winner];
      var needed := NeededReserve(Market.Budget(b.milestones), bps);
      match Reserving(s.desk, b.provider, carrier, needed, answer)
      case Denied =>
      case Unneeded => ConcludeUnreserved(s, rfq, winner, funding);
      case Made(d, r) =>
        LinkedCommit(s.orders, s.desk, b.provider, BeginReserve(s.desk, b.provider, carrier).binding, needed,
                     answer.value);
        var m := s.(desk := d);
        assert forall n :: 0 <= n < |s.orders| ==> RailOf(d, n) == RailOf(s.desk, n);
        ConcludeLives(m, rfq, winner, funding, r);
    }
  }

  // ---- Every event ----

  predicate MakesOrders(e: Event) { e.Award? || e.PlaceOrder? }

  predicate OnOrders(e: Event) {
    e.SettleMilestone? || e.RecordUsage? || e.OpenDispute? || e.ResolveDispute? || e.TopUpMilestone? ||
    e.ReportDisconnect? || e.RecoverProvider?
  }

  lemma OtherKeeps(s: State, e: Event)
    requires !MakesOrders(e) && !OnOrders(e)
    ensures var t := Platform.Apply(s, e);
            && t.orders == s.orders && t.entries == s.entries
            && t.desk.reservations == s.desk.reservations && t.desk.byOrder == s.desk.byOrder
  {
  }

  lemma OtherLives(s: State, e: Event)
    requires Linked(s.orders, s.desk) && !MakesOrders(e) && !OnOrders(e)
    ensures var t := Platform.Apply(s, e); Linked(t.orders, t.desk) && Untouched(s, t) && t.orders == s.orders
  {
    OtherKeeps(s, e);
    LinkedPools(s.orders, s.desk, Platform.Apply(s, e).desk);
  }

  lemma LocalLinked(s: State, e: Event)
    requires Linked(s.orders, s.desk)
    requires e.SettleMilestone? || e.RecordUsage? || e.OpenDispute? || e.ResolveDispute? || e.TopUpMilestone?
    ensures var t := Platform.Apply(s, e); Linked(t.orders, t.desk)
  {
    match e
    case SettleMilestone(m, id, summary, anomalies) => SettleLinked(s, m, id, summary, anomalies);
    case RecordUsage(m, id, c) => ChargeLinked(s, m, id, c);
    case OpenDispute(m, id, refund) => DisputeLinked(s, m, id, refund);
    case ResolveDispute(d) =>
      if Resolvable(s, d) {
        ResolveLinked(s, s.disputes[d].order, s.disputes[d].milestone);
      }
    case TopUpMilestone(m, id, cents) => TopUpLinked(s, m, id, cents);
  }

  lemma StepLinked(s: State, e: Event)
    requires Linked(s.orders, s.desk)
    ensures var t := Platform.Apply(s, e); Linked(t.orders, t.desk)
  {
    match e
    case ReportDisconnect(org) => OutageLinked(s, org, None);
    case RecoverProvider(org, answer) => OutageLinked(s, org, answer);
    case PlaceOrder(x) => PlaceLives(s, x);
    case Award(rfq, winner, funding, carrier, bps, answer) => AwardLives(s, rfq, winner, funding, carrier, bps, answer);
    case _ =>
      if OnOrders(e) {
        LocalLinked(s, e);
      } else {
        OtherLives(s, e);
      }
  }

  lemma StepGrows(s: State, e: Event)
    ensures |s.orders| <= |Platform.Apply(s, e).orders|
  {
  }

  lemma OrderLives(s: State, e: Event, n: nat)
    requires Linked(s.orders, s.desk) && n < |s.orders| && OnOrders(e) && |s.orders| <= |Platform.Apply(s, e).orders|
    ensures BookOf(Platform.Apply(s, e), n) == Lived(BookOf(s, n), StepOn(s, e, n))
  {
    match e
    case SettleMilestone(m, id, summary, anomalies) => SettleLives(s, m, id, summary, anomalies, n);
    case RecordUsage(m, id, c) => ChargeLives(s, m, id, c, n);
    case OpenDispute(m, id, refund) => DisputeLives(s, m, id, refund, n);
    case ResolveDispute(d) =>
      if d < |s.disputes| {
        ResolveLives(s, s.disputes[d].order, s.disputes[d].milestone, n);
      }
    case TopUpMilestone(m, id, cents) => TopUpLives(s, m, id, cents, n);
    case ReportDisconnect(org) => DisconnectLives(s, org, n);
    case RecoverProvider(org, answer) => RecoverLives(s, org, answer, n);
  }

  lemma OthersUntouched(s: State, e: Event)
    requires Linked(s.orders, s.desk) && !OnOrders(e)
    ensures Untouched(s, Platform.Apply(s, e))
  {
    match e
    case PlaceOrder(x) => PlaceLives(s, x);
    case Award(rfq, winner, funding, carrier, bps, answer) => AwardLives(s, rfq, winner, funding, carrier, bps, answer);
    case _ => OtherLives(s, e);
  }

  /** Seen from an order, every event is its step. */
  lemma StepLives(s: State, e: Event, n: nat)
    requires Linked(s.orders, s.desk) && n < |s.orders| && |s.orders| <= |Platform.Apply(s, e).orders|
    ensures BookOf(Platform.Apply(s, e), n) == Lived(BookOf(s, n), StepOn(s, e, n))
  {
    if OnOrders(e) {
      OrderLives(s, e, n);
    } else {
      OthersUntouched(s, e);
    }
  }

  // ---- Sane inputs ----

  /** Distinct milestone ids and no negative amounts, which the calls do not check. */
  ghost predicate Sane(ms: seq<MilestoneInput>) {
    && (forall i, j :: 0 <= i < j < |ms| ==> ms[i].id != ms[j].id)
    && (forall i :: 0 <= i < |ms| ==> ms[i].basePrice >= 0 && ms[i].budget >= 0)
  }

  ghost predicate SaneEvent(e: Event) {
    match e
    case RequestQuotes(x) => Sane(x.milestones)
    case SubmitBid(_, x) => Sane(x.milestones)
    case PlaceOrder(x) => Sane(x.milestones)
    case _ => true
  }

  ghost predicate AllSane(events: seq<Event>) {
    forall i :: 0 <= i < |events| ==> SaneEvent(events[i])
  }

  /** Every offer made so far is sane, and every ledger entry belongs to an order. */
  ghost predicate Orderly(s: State) {
    && (forall q :: 0 <= q < |s.rfqs| ==> Sane(s.rfqs[q].defaults))
    && (forall b :: 0 <= b < |s.bids| ==> Sane(s.bids[b].milestones))
    && (forall i :: 0 <= i < |s.entries| ==> s.entries[i].order < |s.orders|)
  }

  lemma OrderlyRequest(s: State, x: Market.RFQInput)
    requires Orderly(s) && Sane(x.milestones)
    ensures Orderly(Platform.Apply(s, RequestQuotes(x)))
  {
    if x.budget > 0 {
      Market.SplitAddsUp(x.budget);
    }
  }

  lemma OrderlyBid(s: State, rfq: nat, x: Market.BidInput)
    requires Orderly(s) && Sane(x.milestones)
    ensures Orderly(Platform.Apply(s, SubmitBid(rfq, x)))
  {
  }

  lemma OrderlySettle(s: State, m: nat, id: string, summary: string, anomalies: seq<string>)
    requires Orderly(s) && Linked(s.orders, s.desk)
    ensures Orderly(SettledAt(s, m, id, summary, anomalies))
  {
  }

  lemma OrderlyDispute(s: State, m: nat, id: string, refund: int)
    requires Orderly(s) && Linked(s.orders, s.desk)
    ensures Orderly(DisputedAt(s, m, id, refund))
  {
  }

  /** Offers are never rewritten. */
  ghost predicate SameOffers(s: State, t: State) {
    && t.entries == s.entries && |t.rfqs| == |s.rfqs| && |t.bids| == |s.bids| && |s.orders| <= |t.orders|
    && (forall q :: 0 <= q < |s.rfqs| ==> t.rfqs[q].defaults == s.rfqs[q].defaults)
    && (forall b :: 0 <= b < |s.bids| ==> t.bids[b].milestones == s.bids[b].milestones)
  }

  lemma ConcludeFrame(s: State, rfq: nat, winner: nat, funding: FundingMode, r: Option<nat>)
    requires Awardable(s, rfq, winner)
    ensures SameOffers(s, Concluded(s, rfq, winner, funding, r).0)
  {
  }

  lemma OrderlyAward(s: State, rfq: nat, winner: nat, funding: FundingMode, carrier: CarrierBinding, bps: int,
                     answer: Option<Provision>)
    requires Orderly(s)
    ensures Orderly(Awarded(s, rfq, winner, funding, carrier, bps, answer).0)
  {
    if Awardable(s, rfq, winner) {
      var b := s.bids[winner];
      match Reserving(s.desk, b.provider, carrier, NeededReserve(Market.Budget(b.milestones), bps), answer)
      case Denied =>
      case Unneeded => ConcludeFrame(s, rfq, winner, funding, None);
      case Made(d, r) => ConcludeFrame(s.(desk := d), rfq, winner, funding, Some(r));
    }
  }

  lemma OtherFrame(s: State, e: Event)
    requires !e.RequestQuotes? && !e.SubmitBid? && !e.SettleMilestone? && !e.OpenDispute? && !e.Award?
    ensures var t := Platform.Apply(s, e); t.rfqs == s.rfqs && t.bids == s.bids && t.entries == s.entries
  {
  }

  lemma StepOrderly(s: State, e: Event)
    requires Orderly(s) && Linked(s.orders, s.desk) && SaneEvent(e)
    ensures Orderly(Platform.Apply(s, e))
  {
    match e
    case RequestQuotes(x) => OrderlyRequest(s, x);
    case SubmitBid(rfq, x) => OrderlyBid(s, rfq, x);
    case SettleMilestone(m, id, summary, anomalies) => OrderlySettle(s, m, id, summary, anomalies);
    case OpenDispute(m, id, refund) => OrderlyDispute(s, m, id, refund);
    case Award(rfq, winner, funding, carrier, bps, answer) =>
      OrderlyAward(s, rfq, winner, funding, carrier, bps, answer);
    case _ =>
      OtherFrame(s, e);
      StepGrows(s, e);
  }

  // ---- Lives within runs ----

  lemma {:induction false} RunLinked(s: State, events: seq<Event>)
    requires Linked(s.orders, s.desk)
    ensures Linked(Platform.Run(s, events).orders, Platform.Run(s, events).desk)
    ensures |s.orders| <= |Platform.Run(s, events).orders|
  {
    if events != [] {
      RunLinked(s, events[..|events| - 1]);
      StepLinked(Platform.Run(s, events[..|events| - 1]), events[|events| - 1]);
      StepGrows(Platform.Run(s, events[..|events| - 1]), events[|events| - 1]);
    }
  }

  lemma {:induction false} RunOrderly(s: State, events: seq<Event>)
    requires Linked(s.orders, s.desk) && Orderly(s) && AllSane(events)
    ensures Orderly(Platform.Run(s, events))
  {
    if events != [] {
      var past := events[..|events| - 1];
      assert forall i :: 0 <= i < |past| ==> past[i] == events[i];
      RunOrderly(s, past);
      RunLinked(s, past);
      StepOrderly(Platform.Run(s, past), events[|events| - 1]);
    }
  }

  ghost predicate NoDisputes(events: seq<Event>) {
    forall i :: 0 <= i < |events| ==> !events[i].OpenDispute?
  }

  lemma OneMore(b: Book, steps: seq<Step>, step: Option<Step>) returns (more: seq<Step>)
    ensures OrderLife.Run(b, more) == Lived(OrderLife.Run(b, steps), step)
    ensures DisputeFree(steps) && (step.Some? ==> !step.value.DisputeStep?) ==> DisputeFree(more)
  {
    more := steps;
    if step.Some? {
      more := steps + [step.value];
      assert more[..|steps|] == steps;
    }
  }

  /** From any moment on, what happens to an order is a run of its own steps. */
  lemma {:induction false} Life(s: State, events: seq<Event>, n: nat) returns (steps: seq<Step>)
    requires Linked(s.orders, s.desk) && n < |s.orders|
    ensures n < |Platform.Run(s, events).orders|
    ensures BookOf(Platform.Run(s, events), n) == OrderLife.Run(BookOf(s, n), steps)
    ensures NoDisputes(events) ==> DisputeFree(steps)
  {
    steps := [];
    if events != [] {
      var past, e := events[..|events| - 1], events[|events| - 1];
      assert NoDisputes(events) ==> NoDisputes(past) && !e.OpenDispute?;
      var t := Platform.Run(s, past);
      steps := Life(s, past, n);
      RunLinked(s, past);
      StepGrows(t, e);
      StepLives(t, e, n);
      steps := OneMore(BookOf(s, n), steps, StepOn(t, e, n));
    }
  }

  lemma {:induction false} NoEntries(es: seq<LedgerEntry>, n: nat)
    requires forall i :: 0 <= i < |es| ==> es[i].order < n
    ensures EntriesFor(es, n) == []
  {
    if es != [] {
      NoEntries(es[..|es| - 1], n);
    }
  }

  lemma BornFresh(s: State, t: State, x: OrderInput)
    requires Orderly(s) && Untouched(s, t) && Born(s, t, x) && |t.orders| > |s.orders| && Sane(x.milestones)
    ensures Fresh(BookOf(t, |s.orders|))
  {
    NoEntries(s.entries, |s.orders|);
  }

  /** An order that an event brings about starts a fresh life. */
  lemma FreshAtBirth(s: State, e: Event, n: nat)
    requires Linked(s.orders, s.desk) && Orderly(s) && SaneEvent(e) && |s.orders| <= n < |Platform.Apply(s, e).orders|
    ensures Fresh(BookOf(Platform.Apply(s, e), n))
  {
    var t := Platform.Apply(s, e);
    if e.PlaceOrder? {
      PlaceLives(s, e.input);
      BornFresh(s, t, e.input);
    } else if e.Award? {
      AwardLives(s, e.rfq, e.winner, e.funding, e.carrier, e.bufferBps, e.answer);
      BornFresh(s, t, InputOf(s, e.rfq, e.winner, e.funding));
    } else if OnOrders(e) {
      SameCount(s, e);
      assert false;
    } else {
      OtherLives(s, e);
      assert false;
    }
  }

  lemma SameCount(s: State, e: Event)
    requires OnOrders(e)
    ensures |Platform.Apply(s, e).orders| == |s.orders|
  {
  }

  /** Every order of every run has lived a fresh life of its own. */
  lemma {:induction false} WholeLife(limits: map<string, int>, events: seq<Event>, n: nat)
    returns (birth: Book, steps: seq<Step>)
    requires AllSane(events) && n < |Platform.Run(Start(limits), events).orders|
    ensures Fresh(birth) && BookOf(Platform.Run(Start(limits), events), n) == OrderLife.Run(birth, steps)
    ensures NoDisputes(events) ==> DisputeFree(steps)
  {
    assert events != [];
    var past, e := events[..|events| - 1], events[|events| - 1];
    assert forall i :: 0 <= i < |past| ==> past[i] == events[i];
    assert NoDisputes(events) ==> NoDisputes(past) && !e.OpenDispute?;
    var t := Platform.Run(Start(limits), past);
    RunLinked(Start(limits), past);
    RunOrderly(Start(limits), past);
    if n < |t.orders| {
      birth, steps := WholeLife(limits, past, n);
      StepGrows(t, e);
      StepLives(t, e, n);
      steps := OneMore(birth, steps, StepOn(t, e, n));
    } else {
      FreshAtBirth(t, e, n);
      birth, steps := BookOf(Platform.Apply(t, e), n), [];
    }
  }

  // ---- What holds of every order in every run ----

  /** Each milestone of each order has been settled once more than disputed if it is settled, and as
      often otherwise; refunds equal recoveries and never exceed the settlements. */
  lemma OrdersBalance(limits: map<string, int>, events: seq<Event>, n: nat)
    requires AllSane(events) && n < |Platform.Run(Start(limits), events).orders|
    ensures var s := Platform.Run(Start(limits), events);
            var es := EntriesFor(s.entries, n);
            && (forall i :: 0 <= i < |s.orders[n].milestones| ==>
                  var m := s.orders[n].milestones[i];
                  Settlements(es, m.id) - Disputes(es, m.id) == if m.state == Settled then 1 else 0)
            && Sum(es, IsRefund) == Sum(es, IsRecovery)
            && Sum(es, IsRefund) <= Sum(es, IsSettlement)
  {
    var birth, steps := WholeLife(limits, events, n);
    LedgerBalances(birth, steps);
  }

  /** Without disputes every order settles its milestones one after the other, is completed exactly
      when all are settled, and never reports an overage that is not positive. */
  lemma OrdersProgress(limits: map<string, int>, events: seq<Event>, n: nat) returns (k: nat)
    requires AllSane(events) && NoDisputes(events) && n < |Platform.Run(Start(limits), events).orders|
    ensures var s := Platform.Run(Start(limits), events);
            && At(BookOf(s, n), k)
            && (BudgetWallInfo(s.orders[n]).Wall? ==> BudgetWallInfo(s.orders[n]).overage > 0)
  {
    var birth, steps := WholeLife(limits, events, n);
    k := Lifecycle(birth, steps);
  }

  /** A completed order stays completed and its reservation, if it had one, stays released, whatever
      happens later on the marketplace short of a dispute. */
  lemma CompletedForGood(limits: map<string, int>, events: seq<Event>, later: seq<Event>, n: nat)
    requires AllSane(events) && NoDisputes(events) && NoDisputes(later)
    requires var s := Platform.Run(Start(limits), events); n < |s.orders| && s.orders[n].status == Completed
    ensures var s := Platform.Run(Start(limits), events + later);
            n < |s.orders| && s.orders[n].status == Completed && AllSettled(s.orders[n].milestones) &&
            RailOf(s.desk, n) != Attached
  {
    var s := Platform.Run(Start(limits), events);
    Platform.RunAppend(Start(limits), events, later);
    RunLinked(Start(limits), events);
    var k := OrdersProgress(limits, events, n);
    var steps := Life(s, later, n);
    var j := RunMoves(BookOf(s, n), k, steps);
    RunLength(BookOf(s, n), steps);
  }

  // ---- Outages end to end ----

  ghost predicate SameProgress(o: Order, p: Order) {
    && p.status == o.status && |p.milestones| == |o.milestones|
    && forall i :: 0 <= i < |o.milestones| ==> p.milestones[i].state == o.milestones[i].state
  }

  /** After a disconnect and a successful recovery an order that holds an active reservation of the
      provider is where it was exactly if it was running with nothing paused; every other order,
      of this or of any other provider, is untouched. */
  lemma OutageRoundTrip(s: State, org: string, answer: Option<Provision>, n: nat)
    requires Linked(s.orders, s.desk) && n < |s.orders| && Restored(Disrupted(s, org), org, answer).1
    ensures var t := Restored(Disrupted(s, org), org, answer).0;
            && |t.orders| == |s.orders| && t.desk.reservations == s.desk.reservations
            && if RailOf(s.desk, n) == Attached && s.orders[n].provider == org
               then SameProgress(s.orders[n], t.orders[n]) <==>
                    (s.orders[n].status == OrderStatus.Running && NoPaused(s.orders[n].milestones))
               else t.orders[n] == s.orders[n]
  {
    var d := Disrupted(s, org);
    BackedExactly(s.orders, s.desk, org, n);
    assert d.desk.reservations == s.desk.reservations;
    OutageRestores(s.orders[n]);
  }
}
