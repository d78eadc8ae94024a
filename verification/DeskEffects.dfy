/** What each call does at the liquidity desk, said on the desk's own fields. */
module DeskEffects {
  import opened Options
  import opened Workflow
  import opened Settlement
  import opened Market
  import opened Platform
  import Fnn

  // ---- When the provisioner is asked ----

  /** The provider's indexed binding exists and is active. */
  predicate ActiveFor(d: Desk, org: string) {
    org in d.bindingOf && d.bindingOf[org] < |d.bindings| && d.bindings[d.bindingOf[org]].status == ActiveBinding
  }

  /** The provider has no pool yet, or one in one of the given states. */
  predicate PoolIn(d: Desk, org: string, states: set<PoolStatus>) { org in d.pools ==> d.pools[org].status in states }

  /** A reservation asks the provisioner exactly if the carrier is usable, the provider's binding active, and its pool
      missing, healthy or without a status; it is not needed exactly if there is no carrier; otherwise it is refused.
      It asks with the binding and the pool as they are. */
  lemma ReserveAsks(d: Desk, org: string, carrier: CarrierBinding)
    ensures var a := BeginReserve(d, org, carrier);
            && (a.Asking? <==> carrier == UsableCarrier && ActiveFor(d, org) && PoolIn(d, org, {NoStatus, Healthy}))
            && (a.NotNeeded? <==> carrier == NoCarrier)
            && (a.Asking? ==> a.binding == d.bindingOf[org])
            && (a.Asking? && org in d.pools ==> a.pool == d.pools[org])
            && (a.Asking? && org !in d.pools ==> a.pool.total == a.pool.reserved == a.pool.available == 0)
  {
  }

  /** Warming asks exactly for an active provider with a pool that is neither disconnected, recovering nor suspended. */
  lemma WarmAsks(d: Desk, org: string)
    ensures var a := BeginWarm(d, org);
            && (a.Asking? <==> ActiveFor(d, org) && org in d.pools && PoolIn(d, org, {NoStatus, Healthy, Degraded}))
            && (a.Asking? ==> a.binding == d.bindingOf[org] && a.pool == d.pools[org])
            && !a.NotNeeded?
  {
  }

  /** Recovery asks exactly for an active provider with a pool, marks the pool, and offers the whole total. */
  lemma RecoverAsks(d: Desk, org: string)
    ensures var (e, a) := BeginRecover(d, org);
            && (a.Asking? <==> ActiveFor(d, org) && org in d.pools)
            && (!a.Asking? ==> a == Refused && e == d)
            && (a.Asking? ==> && a.binding == d.bindingOf[org]
                              && e == d.(pools := d.pools[org := d.pools[org].(status := RecoveringPool)])
                              && a.pool.reserved == d.pools[org].reserved && a.pool.total == d.pools[org].total
                              && a.pool.available == d.pools[org].total)
  {
  }

  /** The reserve is the budget and the buffer's share of it, rounded down; without a setting the buffer is a tenth. */
  lemma ReserveAmount(budget: nat, bufferBps: int)
    ensures var bps := if bufferBps > 0 then bufferBps else 1000;
            var extra := NeededReserve(budget, bufferBps) - budget;
            extra >= 0 && 10000 * extra <= budget * bps < 10000 * extra + 10000
  {
    var bps := if bufferBps > 0 then bufferBps else 1000;
    Grows(budget, bps);
    Tenths(budget * bps);
  }

  lemma Tenths(x: nat)
    ensures 10000 * (x / 10000) <= x < 10000 * (x / 10000) + 10000
  {
  }

  /** Warming wants the larger of what is available and what was asked for, and nothing negative. */
  lemma WarmWants(p: Pool, minimum: int)
    ensures var t := WarmTarget(p, minimum);
            t >= p.available && t >= minimum && t >= 0 && (t == p.available || t == minimum || t == 0)
  {
  }

  // ---- What is written ----

  /** The desks differ at most in one provider's pool. */
  ghost predicate OnlyPool(d: Desk, e: Desk, org: string) {
    && e.bindings == d.bindings && e.bindingOf == d.bindingOf && e.byOrder == d.byOrder
    && org in e.pools
    && forall x :: x != org ==> (x in e.pools <==> x in d.pools) && (x in d.pools ==> e.pools[x] == d.pools[x])
  }

  function Was(d: Desk, org: string): int { if org in d.pools then d.pools[org].reserved else 0 }

  /** A reservation is added, still without an order, and its cents to what the pool counts as reserved. */
  lemma CommitMeans(d: Desk, org: string, b: nat, needed: int, result: Provision)
    ensures var e := CommitReserve(d, org, b, needed, result);
            && OnlyPool(d, e, org)
            && e.reservations == d.reservations + [Reservation(None, b, org, needed, Reserved)]
            && e.pools[org].reserved == Was(d, org) + needed && e.pools[org].total == result.total
            && e.pools[org].available == result.total - e.pools[org].reserved
            && e.pools[org].channels == result.channels && e.pools[org].binding == b && e.pools[org].status == Healthy
  {
  }

  /** Warming and recovery write the total and keep what is reserved; what is available is never negative. */
  lemma TotalMeans(d: Desk, org: string, b: nat, result: Provision)
    ensures var e := CommitTotal(d, org, b, result);
            && OnlyPool(d, e, org) && e.reservations == d.reservations
            && e.pools[org].reserved == Was(d, org) && e.pools[org].total == result.total
            && e.pools[org].available == (if result.total >= Was(d, org) then result.total - Was(d, org) else 0)
            && e.pools[org].channels == result.channels && e.pools[org].binding == b && e.pools[org].status == Healthy
  {
  }

  lemma FailMeans(d: Desk, org: string)
    requires org in d.pools
    ensures FailRecover(d, org) == d.(pools := d.pools[org := d.pools[org].(status := DisconnectedPool)])
    ensures PoolDisconnected(d, org) == d.(pools := d.pools[org := d.pools[org].(status := DisconnectedPool)])
  {
  }

  /** A reservation is released once: its cents leave the pool, down to zero, and the pool offers the rest. */
  lemma ReleaseMeans(d: Desk, r: nat)
    ensures r >= |d.reservations| || d.reservations[r].status == ReleasedReservation ==> Release(d, r) == d
    ensures r < |d.reservations| && d.reservations[r].status != ReleasedReservation ==>
              var e, v := Release(d, r), d.reservations[r];
              var left := Was(d, v.provider) - v.cents;
              && OnlyPool(d, e, v.provider)
              && e.reservations == d.reservations[r := v.(status := ReleasedReservation)]
              && e.pools[v.provider].reserved == (if left < 0 then 0 else left)
              && e.pools[v.provider].available == e.pools[v.provider].total - e.pools[v.provider].reserved
              && (v.provider in d.pools ==> && e.pools[v.provider].total == d.pools[v.provider].total
                                            && e.pools[v.provider].status == d.pools[v.provider].status)
  {
  }

  lemma AttachMeans(d: Desk, r: nat, order: nat)
    requires r < |d.reservations|
    ensures var e, v := Attach(d, r, order), d.reservations[r];
            && e.bindings == d.bindings && e.bindingOf == d.bindingOf && e.pools == d.pools
            && e.byOrder == d.byOrder[order := r]
            && e.reservations ==
               d.reservations[r := Reservation(Some(order), v.binding, v.provider, v.cents, ActiveReservation)]
  {
  }

  /** Registration refuses a provider with an active binding; otherwise the new binding waits for verification and is
      the provider's indexed one. */
  lemma RegisterMeans(d: Desk, org: string)
    ensures (exists i :: 0 <= i < |d.bindings| && d.bindings[i] == Binding(org, ActiveBinding)) ==>
            Register(d, org) == d
    ensures (forall i :: 0 <= i < |d.bindings| ==> d.bindings[i] != Binding(org, ActiveBinding)) ==>
              Register(d, org) == d.(bindings := d.bindings + [Binding(org, PendingVerification)],
                                     bindingOf := d.bindingOf[org := |d.bindings|])
  {
  }

  lemma VerifyMeans(d: Desk, id: nat)
    ensures id >= |d.bindings| ==> Verify(d, id) == d && Suspend(d, id) == d
    ensures id < |d.bindings| ==>
              var e, org := Verify(d, id), d.bindings[id].provider;
              && e.bindings == d.bindings[id := Binding(org, ActiveBinding)] && e.bindingOf == d.bindingOf
              && e.pools == d.pools[org := Pool(id, Healthy, 0, 0, 0, 0)]
              && e.reservations == d.reservations && e.byOrder == d.byOrder
  {
  }

  lemma SuspendMeans(d: Desk, id: nat)
    requires id < |d.bindings|
    ensures var e, org := Suspend(d, id), d.bindings[id].provider;
            && e.bindings == d.bindings[id := Binding(org, SuspendedBinding)] && e.bindingOf == d.bindingOf
            && e.reservations == d.reservations && e.byOrder == d.byOrder
            && org in e.pools && e.pools[org].status == SuspendedPool && e.pools[org].binding == id
            && e.pools[org].reserved == Was(d, org)
            && (org in d.pools ==> e.pools[org] == d.pools[org].(binding := id, status := SuspendedPool))
            && forall x :: x != org ==> (x in e.pools <==> x in d.pools) && (x in d.pools ==> e.pools[x] == d.pools[x])
  {
  }

  // ---- The provisioner ----

  /** A ready channel is reused exactly if the pool has the need available, at no cost; otherwise a channel is opened
      and its money added to the total. */
  lemma EnsureMeans(fund: Fnn.Funding, net: Fnn.Network, p: Pool, needed: int)
    ensures Fnn.Ensure(fund, net, p, needed).None? <==> net.Unreachable?
    ensures net.Reachable? ==>
              var l := Fnn.Ensure(fund, net, p, needed).value;
              if net.ready && p.available >= needed
              then l.funded == 0 && l.provision.channels == net.channels &&
                   l.provision.total >= p.total && l.provision.total >= p.reserved + p.available &&
                   (l.provision.total == p.total || l.provision.total == p.reserved + p.available)
              else l.funded == fund(needed) && l.provision.channels == net.channels + 1 &&
                   l.provision.total == p.total + fund(needed)
  {
  }

  /** A new channel has as many units as the need takes, and never fewer than the minimum; without settings a unit is
      100 cents and the minimum one unit. */
  lemma UnitsMean(needed: int, centsPerUnit: int, minUnits: int)
    ensures var c := Fnn.NewConfig(centsPerUnit, minUnits);
            var units, rate, least := Fnn.FundingUnits(needed, c), if centsPerUnit <= 0 then 100 else centsPerUnit,
                                      if minUnits <= 0 then 1 else minUnits;
            && units >= least && units * rate >= needed && (units > least ==> (units - 1) * rate < needed)
            && Fnn.FundingCents(needed, c) == units * rate
  {
    var c := Fnn.NewConfig(centsPerUnit, minUnits);
    Fnn.FundingCovers(needed, c);
    var units, rate := Fnn.FundingUnits(needed, c), c.centsPerUnit;
    assert (units - 1) * rate == units * rate - rate;
  }

  // ---- Awards ----

  /** With a suspended carrier binding every award of an open request is denied for that reason, and leaves everything
      as it is. */
  lemma SuspendedDenied(s: State, rfq: nat, winner: nat, funding: FundingMode, bps: int, answer: Option<Provision>)
    requires Awardable(s, rfq, winner)
    ensures Awarded(s, rfq, winner, funding, SuspendedCarrier, bps, answer) == (s, false)
    ensures AwardVerdict(s, rfq, winner, funding, SuspendedCarrier, bps, answer) == NoLiquidity(ProviderSuspended)
  {
    ReserveAsks(s.desk, s.bids[winner].provider, SuspendedCarrier);
  }

  /** Without a carrier binding no liquidity is touched. */
  lemma NoCarrierUntouched(s: State, rfq: nat, winner: nat, funding: FundingMode, bps: int, answer: Option<Provision>)
    requires Awardable(s, rfq, winner)
    ensures Awarded(s, rfq, winner, funding, NoCarrier, bps, answer).0.desk == s.desk
    ensures !AwardVerdict(s, rfq, winner, funding, NoCarrier, bps, answer).NoLiquidity?
  {
    ReserveAsks(s.desk, s.bids[winner].provider, NoCarrier);
  }

  /** With a usable carrier an award goes through only with liquidity: the new order holds an active reservation of the
      provider's for the bid's budget and the buffer. */
  lemma AwardHolds(s: State, rfq: nat, winner: nat, funding: FundingMode, bps: int, answer: Option<Provision>)
    requires Awardable(s, rfq, winner) && Awarded(s, rfq, winner, funding, UsableCarrier, bps, answer).1
    ensures var t, b, n := Awarded(s, rfq, winner, funding, UsableCarrier, bps, answer).0, s.bids[winner], |s.orders|;
            && ActiveFor(s.desk, b.provider) && PoolIn(s.desk, b.provider, {NoStatus, Healthy})
            && answer.Some? && n in t.desk.byOrder && t.desk.byOrder[n] == |s.desk.reservations| < |t.desk.reservations|
            && t.desk.reservations[|s.desk.reservations|] ==
               Reservation(Some(n), s.desk.bindingOf[b.provider], b.provider, NeededReserve(Budget(b.milestones), bps),
                           ActiveReservation)
            && |t.orders| == n + 1 && t.orders[n].provider == b.provider
  {
    ReserveAsks(s.desk, s.bids[winner].provider, UsableCarrier);
  }

  /** The reasons for a denial, on the desk's fields. */
  lemma DenialMeans(d: Desk, org: string, carrier: CarrierBinding, needed: int, answer: Option<Provision>)
    requires Reserving(d, org, carrier, needed, answer).Denied?
    ensures var why := DenialOf(d, org, carrier, answer);
            && (why == ProviderSuspended <==> carrier == SuspendedCarrier)
            && (why == BindingRequired <==>
                carrier == UsableCarrier && !(org in d.bindingOf && d.bindingOf[org] < |d.bindings|))
            && (why == ProvisionerFailed <==>
                carrier == UsableCarrier && ActiveFor(d, org) && PoolIn(d, org, {NoStatus, Healthy}) && answer.None?)
  {
    ReserveAsks(d, org, carrier);
  }

  /** An award that goes through places one order: the request's buyer, the bid's provider and milestones, the funding
      asked for.  The orders so far, the other requests, the disputes and the money are as they were. */
  lemma AwardMeans(s: State, rfq: nat, winner: nat, funding: FundingMode, carrier: CarrierBinding, bps: int,
                   answer: Option<Provision>)
    requires Awarded(s, rfq, winner, funding, carrier, bps, answer).1
    ensures Awardable(s, rfq, winner)
    ensures var t, b, n := Awarded(s, rfq, winner, funding, carrier, bps, answer).0, s.bids[winner], |s.orders|;
            && t.orders == s.orders + [NewOrder(n, s.rfqs[rfq].buyer, b.provider, funding, b.milestones)]
            && |t.rfqs| == |s.rfqs| && t.rfqs[rfq].order == Some(n) && t.rfqs[rfq].bid == Some(winner)
            && t.rfqs[rfq].status == AwardedRFQ && t.rfqs[rfq].provider == b.provider
            && (forall q :: 0 <= q < |s.rfqs| && q != rfq ==> t.rfqs[q] == s.rfqs[q])
            && t.disputes == s.disputes && t.entries == s.entries && t.limits == s.limits && t.credited == s.credited
  {
  }

  /** The verdicts in the order in which the reasons are looked at, and the award that each goes with. */
  lemma VerdictMeans(s: State, rfq: nat, winner: nat, funding: FundingMode, carrier: CarrierBinding, bps: int,
                     answer: Option<Provision>)
    ensures var v := AwardVerdict(s, rfq, winner, funding, carrier, bps, answer);
            && (v == NoRFQ <==> rfq >= |s.rfqs|)
            && (v == NotOpen <==> rfq < |s.rfqs| && s.rfqs[rfq].status != OpenRFQ)
            && (v == NoBid <==> rfq < |s.rfqs| && s.rfqs[rfq].status == OpenRFQ && winner >= |s.bids|)
            && (v == OtherRFQ <==> rfq < |s.rfqs| && s.rfqs[rfq].status == OpenRFQ && winner < |s.bids| &&
                                   s.bids[winner].rfq != rfq)
            && (v == Done <==> Awarded(s, rfq, winner, funding, carrier, bps, answer).1)
            && (v in {NoRFQ, NotOpen, NoBid, OtherRFQ} || v.NoLiquidity? ==>
                Awarded(s, rfq, winner, funding, carrier, bps, answer).0 == s)
  {
  }
}
