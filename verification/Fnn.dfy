/** The provisioner that opens payment channels, and what its arithmetic means for the pools when
    operations run one after the other. */
module Fnn {
  import opened Options
  import opened Settlement

  datatype Config = Config(centsPerUnit: int, minUnits: int)

  const DEFAULT_CENTS := 100
  const DEFAULT_MIN := 1

  /** The configuration the constructor keeps. */
  function NewConfig(centsPerUnit: int, minUnits: int): (c: Config)
    ensures c.centsPerUnit > 0 && c.minUnits > 0
  {
    Config(if centsPerUnit <= 0 then DEFAULT_CENTS else centsPerUnit, if minUnits <= 0 then DEFAULT_MIN else minUnits)
  }

  function Rate(centsPerUnit: int): (r: int)
    ensures r > 0
  {
    if centsPerUnit <= 0 then DEFAULT_CENTS else centsPerUnit
  }

  function FundingUnits(needed: int, c: Config): int {
    if needed <= 0 then c.minUnits
    else
      var cents := Rate(c.centsPerUnit);
      var units := needed / cents + if needed % cents != 0 then 1 else 0;
      if units < c.minUnits then c.minUnits else units
  }

  function UnitsToCents(units: int, c: Config): int {
    if units <= 0 then 0 else units * Rate(c.centsPerUnit)
  }

  function FundingCents(needed: int, c: Config): int { UnitsToCents(FundingUnits(needed, c), c) }

  /** The funding covers the need with the fewest units, except that it never goes below the minimum. */
  lemma FundingCovers(needed: int, c: Config)
    requires c.minUnits > 0
    ensures FundingCents(needed, c) >= needed && FundingCents(needed, c) > 0
    ensures FundingUnits(needed, c) > c.minUnits ==> FundingCents(needed, c) - Rate(c.centsPerUnit) < needed
  {
  }

  /** How much a new channel is funded with, depending on the need. */
  type Funding = int -> int

  ghost predicate Covers(fund: Funding) { forall needed :: fund(needed) >= needed && fund(needed) > 0 }

  function Configured(c: Config): Funding { needed => FundingCents(needed, c) }

  lemma ConfiguredCovers(c: Config)
    requires c.minUnits > 0
    ensures Covers(Configured(c))
  {
    forall needed ensures Configured(c)(needed) >= needed && Configured(c)(needed) > 0 {
      FundingCovers(needed, c);
    }
  }

  /** What the nodes say: unreachable, or whether a ready channel exists on both sides and how many
      are ready. */
  datatype Network = Unreachable | Reachable(ready: bool, channels: nat)

  datatype Liquidity = Liquidity(provision: Provision, funded: int)

  function Max(a: int, b: int): int { if a > b then a else b }

  function Ensure(fund: Funding, net: Network, pool: Pool, needed: int): Option<Liquidity> {
    match net
    case Unreachable => None
    case Reachable(ready, channels) =>
      if ready && pool.available >= needed
      then Some(Liquidity(Provision(channels, Max(pool.total, pool.reserved + pool.available)), 0))
      else
        var cents := fund(needed);
        Some(Liquidity(Provision(channels + 1, pool.total + cents), cents))
  }

  // ---- One operation after the other ----

  /** The desk and, per provider, the cents of the channels opened for it. */
  datatype Till = Till(desk: Desk, funded: map<string, int>)

  datatype Event =
    | RegisterBinding(org: string)
    | VerifyBinding(id: nat)
    | SuspendBinding(id: nat)
    | ReportDisconnect(org: string)
    | Reserve(org: string, carrier: CarrierBinding, budget: nat, bufferBps: int, net: Network)
    | Warm(org: string, minimum: int, net: Network)
    | Recover(org: string, net: Network)
    | AttachOrder(reservation: nat, order: nat)
    | ReleaseReservation(reservation: nat)

  function FundedFor(t: Till, org: string): int { if org in t.funded then t.funded[org] else 0 }

  function Opening(t: Till, org: string, cents: int): map<string, int> { t.funded[org := FundedFor(t, org) + cents] }

  /** A reservation from begin to commit; the flag says whether it was made. */
  function DoReserve(fund: Funding, t: Till, org: string, carrier: CarrierBinding, needed: int, net: Network):
    (Till, bool)
  {
    match BeginReserve(t.desk, org, carrier)
    case Asking(b, p) => FinishReserve(t, org, b, p, needed, Ensure(fund, net, p, needed))
    case _ => (t, false)
  }

  function FinishReserve(t: Till, org: string, b: nat, p: Pool, needed: int, l: Option<Liquidity>): (Till, bool) {
    if l.None? then (t, false)
    else
      var funded := Opening(t, org, l.value.funded);
      if Sufficient(p, needed, l.value.provision)
      then (Till(CommitReserve(t.desk, org, b, needed, l.value.provision), funded), true)
      else (t.(funded := funded), false)
  }

  function DoWarm(fund: Funding, t: Till, org: string, minimum: int, net: Network): Till {
    match BeginWarm(t.desk, org)
    case Asking(b, p) => (
      match Ensure(fund, net, p, WarmTarget(p, minimum))
      case None => t
      case Some(l) => Till(CommitTotal(t.desk, org, b, l.provision), Opening(t, org, l.funded)))
    case _ => t
  }

  function DoRecover(fund: Funding, t: Till, org: string, net: Network): Till {
    var (d, a) := BeginRecover(t.desk, org);
    match a
    case Asking(b, p) => (
      match Ensure(fund, net, p, p.reserved)
      case None => t.(desk := FailRecover(d, org))
      case Some(l) => Till(CommitTotal(d, org, b, l.provision), Opening(t, org, l.funded)))
    case _ => t.(desk := d)
  }

  function Apply(fund: Funding, t: Till, e: Event): Till {
    match e
    case RegisterBinding(org) => t.(desk := Register(t.desk, org))
    case VerifyBinding(id) => t.(desk := Verify(t.desk, id))
    case SuspendBinding(id) => t.(desk := Suspend(t.desk, id))
    case ReportDisconnect(org) => t.(desk := PoolDisconnected(t.desk, org))
    case Reserve(org, carrier, budget, bps, net) => DoReserve(fund, t, org, carrier, NeededReserve(budget, bps), net).0
    case Warm(org, minimum, net) => DoWarm(fund, t, org, minimum, net)
    case Recover(org, net) => DoRecover(fund, t, org, net)
    case AttachOrder(r, order) => t.(desk := Attach(t.desk, r, order))
    case ReleaseReservation(r) => t.(desk := Release(t.desk, r))
  }

  function Run(fund: Funding, t: Till, events: seq<Event>): Till {
    if events == [] then t else Apply(fund, Run(fund, t, events[..|events| - 1]), events[|events| - 1])
  }

  const EMPTY := Till(Desk([], map[], map[], [], map[]), map[])

  predicate Solvent(p: Pool) {
    0 <= p.reserved <= p.total && p.available == p.total - p.reserved
  }

  ghost predicate AllSolvent(d: Desk) {
    && (forall org :: org in d.pools ==> Solvent(d.pools[org]))
    && (forall r :: 0 <= r < |d.reservations| ==> d.reservations[r].cents >= 0)
  }

  /** On a solvent pool the answer always covers what is reserved plus what is asked for. */
  lemma EnsureCovers(fund: Funding, net: Network, p: Pool, needed: int)
    requires Covers(fund) && Solvent(p) && Ensure(fund, net, p, needed).Some?
    ensures var l := Ensure(fund, net, p, needed).value;
            l.provision.total >= p.reserved + needed && l.provision.total == p.total + l.funded && l.funded >= 0
  {
  }

  /** So the check after the provisioner never rejects: a reservation fails only if it is refused at
      the start or the provisioner cannot be reached. */
  lemma ReserveSucceeds(fund: Funding, t: Till, org: string, carrier: CarrierBinding, needed: nat, net: Network)
    requires Covers(fund) && AllSolvent(t.desk)
    ensures DoReserve(fund, t, org, carrier, needed, net).1 <==>
            BeginReserve(t.desk, org, carrier).Asking? && net.Reachable?
  {
  }

  lemma SolventReserve(fund: Funding, t: Till, org: string, carrier: CarrierBinding, needed: nat, net: Network)
    requires Covers(fund) && AllSolvent(t.desk)
    ensures AllSolvent(DoReserve(fund, t, org, carrier, needed, net).0.desk)
  {
    if BeginReserve(t.desk, org, carrier).Asking? && net.Reachable? {
      EnsureCovers(fund, net, PoolOf(t.desk, org), needed);
    }
  }

  lemma SolventWarm(fund: Funding, t: Till, org: string, minimum: int, net: Network)
    requires Covers(fund) && AllSolvent(t.desk)
    ensures AllSolvent(DoWarm(fund, t, org, minimum, net).desk)
  {
    if BeginWarm(t.desk, org).Asking? && net.Reachable? {
      EnsureCovers(fund, net, t.desk.pools[org], WarmTarget(t.desk.pools[org], minimum));
    }
  }

  /** Recovery shows the provisioner the whole total as available; the pool stays solvent all the same. */
  lemma SolventRecover(fund: Funding, t: Till, org: string, net: Network)
    requires Covers(fund) && AllSolvent(t.desk)
    ensures AllSolvent(DoRecover(fund, t, org, net).desk)
  {
  }

  lemma SolventOther(fund: Funding, t: Till, e: Event)
    requires AllSolvent(t.desk) && !e.Reserve? && !e.Warm? && !e.Recover?
    ensures AllSolvent(Apply(fund, t, e).desk)
  {
  }

  /** In every serialised run, whatever the network does, every pool covers its reservations and
      offers exactly the rest. */
  lemma {:induction false} AlwaysSolvent(fund: Funding, events: seq<Event>)
    requires Covers(fund)
    ensures AllSolvent(Run(fund, EMPTY, events).desk)
  {
    if events != [] {
      var t := Run(fund, EMPTY, events[..|events| - 1]);
      AlwaysSolvent(fund, events[..|events| - 1]);
      match events[|events| - 1]
      case Reserve(org, carrier, budget, bps, net) =>
        SolventReserve(fund, t, org, carrier, NeededReserve(budget, bps), net);
      case Warm(org, minimum, net) => SolventWarm(fund, t, org, minimum, net);
      case Recover(org, net) => SolventRecover(fund, t, org, net);
      case _ => SolventOther(fund, t, events[|events| - 1]);
    }
  }

  /** In every serialised run a reservation the desk begins is made as soon as the provisioner answers. */
  lemma NeverRejected(fund: Funding, events: seq<Event>, org: string, carrier: CarrierBinding, budget: nat, bps: int,
                      net: Network)
    requires Covers(fund) && BeginReserve(Run(fund, EMPTY, events).desk, org, carrier).Asking? && net.Reachable?
    ensures DoReserve(fund, Run(fund, EMPTY, events), org, carrier, NeededReserve(budget, bps), net).1
  {
    AlwaysSolvent(fund, events);
    ReserveSucceeds(fund, Run(fund, EMPTY, events), org, carrier, NeededReserve(budget, bps), net);
  }

  /** Warming delivers: it leaves the provider at least what was asked for and never less than it had, and puts money in
      exactly if no channel is ready or too little was available. */
  lemma WarmDelivers(fund: Funding, t: Till, org: string, minimum: int, net: Network)
    requires Covers(fund) && AllSolvent(t.desk) && BeginWarm(t.desk, org).Asking? && net.Reachable?
    ensures var p, q := t.desk.pools[org], PoolOf(DoWarm(fund, t, org, minimum, net).desk, org);
            && q.available >= minimum && q.available >= p.available && q.reserved == p.reserved && q.status == Healthy
            && q.total - p.total == q.available - p.available
            && (q.total == p.total <==> net.ready && p.available >= minimum)
  {
    var p := t.desk.pools[org];
    EnsureCovers(fund, net, p, WarmTarget(p, minimum));
    assert fund(WarmTarget(p, minimum)) > 0;
  }

  /** Recovery that reaches the nodes makes the pool healthy with all its reservations covered: through a ready channel
      it offers the whole old total on top of them, otherwise what was on offer and the new channel.  One that does not
      reach them leaves the amounts as they were and the pool disconnected. */
  lemma RecoverDelivers(fund: Funding, t: Till, org: string, net: Network)
    requires Covers(fund) && AllSolvent(t.desk) && BeginRecover(t.desk, org).1.Asking?
    ensures var p, q := t.desk.pools[org], PoolOf(DoRecover(fund, t, org, net).desk, org);
            if net.Unreachable? then q == p.(status := DisconnectedPool)
            else && q.status == Healthy && q.reserved == p.reserved && q.total == q.reserved + q.available
                 && q.available == if net.ready then p.total else p.available + fund(p.reserved)
  {
  }

  // ---- Totals against the channels that exist ----

  /** By how much a pool's total exceeds the money in the channels opened for the provider. */
  function Gap(t: Till, org: string): int { PoolOf(t.desk, org).total - FundedFor(t, org) }

  /** What an event adds to the gap: a verification forgets the total, and a recovery that finds a ready
      channel counts what is reserved a second time, since it has offered the whole total as available. */
  function Drift(t: Till, e: Event, org: string): int {
    match e
    case VerifyBinding(id) =>
      if id < |t.desk.bindings| && t.desk.bindings[id].provider == org then -PoolOf(t.desk, org).total else 0
    case Recover(o, net) =>
      if o == org && net.Reachable? && net.ready && BeginRecover(t.desk, org).1.Asking?
      then PoolOf(t.desk, org).reserved
      else 0
    case _ => 0
  }

  lemma GapReserve(fund: Funding, t: Till, org: string, carrier: CarrierBinding, needed: nat, net: Network, any: string)
    requires Covers(fund) && AllSolvent(t.desk)
    ensures Gap(DoReserve(fund, t, org, carrier, needed, net).0, any) == Gap(t, any)
  {
  }

  lemma GapWarm(fund: Funding, t: Till, org: string, minimum: int, net: Network, any: string)
    requires Covers(fund) && AllSolvent(t.desk)
    ensures Gap(DoWarm(fund, t, org, minimum, net), any) == Gap(t, any)
  {
  }

  lemma GapRecover(fund: Funding, t: Till, org: string, net: Network, any: string)
    requires Covers(fund) && AllSolvent(t.desk)
    ensures Gap(DoRecover(fund, t, org, net), any) == Gap(t, any) + Drift(t, Recover(org, net), any)
  {
  }

  lemma GapOther(fund: Funding, t: Till, e: Event, any: string)
    requires !e.Reserve? && !e.Warm? && !e.Recover?
    ensures Gap(Apply(fund, t, e), any) == Gap(t, any) + Drift(t, e, any)
  {
  }

  lemma GapStep(fund: Funding, t: Till, e: Event, any: string)
    requires Covers(fund) && AllSolvent(t.desk)
    ensures Gap(Apply(fund, t, e), any) == Gap(t, any) + Drift(t, e, any)
  {
    match e
    case Reserve(org, carrier, budget, bps, net) =>
      GapReserve(fund, t, org, carrier, NeededReserve(budget, bps), net, any);
    case Warm(org, minimum, net) => GapWarm(fund, t, org, minimum, net, any);
    case Recover(org, net) => GapRecover(fund, t, org, net, any);
    case _ => GapOther(fund, t, e, any);
  }

  function TotalDrift(fund: Funding, events: seq<Event>, org: string): int {
    if events == [] then 0
    else
      var past := events[..|events| - 1];
      TotalDrift(fund, past, org) + Drift(Run(fund, EMPTY, past), events[|events| - 1], org)
  }

  /** In every serialised run every total is the money in the channels opened plus what recoveries and
      verifications made of it; in a run where none of them drifts it is exact, however often channels
      are reused. */
  lemma {:induction false} TotalsExplained(fund: Funding, events: seq<Event>, org: string)
    requires Covers(fund)
    ensures var t := Run(fund, EMPTY, events);
            PoolOf(t.desk, org).total == FundedFor(t, org) + TotalDrift(fund, events, org)
    ensures (forall n :: 0 <= n < |events| ==> Drift(Run(fund, EMPTY, events[..n]), events[n], org) == 0) ==>
              PoolOf(Run(fund, EMPTY, events).desk, org).total == FundedFor(Run(fund, EMPTY, events), org)
  {
    if events != [] {
      var past := events[..|events| - 1];
      assert forall n :: 0 <= n < |past| ==> past[..n] == events[..n] && past[n] == events[n];
      TotalsExplained(fund, past, org);
      AlwaysSolvent(fund, past);
      GapStep(fund, Run(fund, EMPTY, past), events[|events| - 1], org);
    }
  }

  // ---- The plain condition: no recovery, and no second verification ----

  predicate Verifies(t: Till, e: Event, org: string) {
    e.VerifyBinding? && e.id < |t.desk.bindings| && t.desk.bindings[e.id].provider == org
  }

  /** How often a binding of the provider was verified. */
  function Verifications(fund: Funding, events: seq<Event>, org: string): nat {
    if events == [] then 0
    else
      var past := events[..|events| - 1];
      Verifications(fund, past, org) + if Verifies(Run(fund, EMPTY, past), events[|events| - 1], org) then 1 else 0
  }

  predicate NeverRecovered(events: seq<Event>, org: string) {
    forall n :: 0 <= n < |events| && events[n].Recover? ==> events[n].org != org
  }

  /** The index of bindings leads every provider to a binding of its own. */
  ghost predicate OwnBindings(d: Desk) {
    forall org :: org in d.bindingOf ==> d.bindingOf[org] < |d.bindings| && d.bindings[d.bindingOf[org]].provider == org
  }

  /** The provider has no active binding, and nothing in its pool. */
  ghost predicate Untried(d: Desk, org: string) {
    && PoolOf(d, org).total == 0
    && forall b :: 0 <= b < |d.bindings| && d.bindings[b].provider == org ==> d.bindings[b].status != ActiveBinding
  }

  lemma BindingsFrame(fund: Funding, t: Till, e: Event)
    requires !e.RegisterBinding? && !e.VerifyBinding? && !e.SuspendBinding?
    ensures var d := Apply(fund, t, e).desk; d.bindings == t.desk.bindings && d.bindingOf == t.desk.bindingOf
  {
  }

  lemma OwnBindingsStep(fund: Funding, t: Till, e: Event)
    requires OwnBindings(t.desk)
    ensures OwnBindings(Apply(fund, t, e).desk)
  {
    if !e.RegisterBinding? && !e.VerifyBinding? && !e.SuspendBinding? {
      BindingsFrame(fund, t, e);
    }
  }

  lemma NotAsked(d: Desk, org: string, carrier: CarrierBinding)
    requires OwnBindings(d) && Untried(d, org)
    ensures !BeginReserve(d, org, carrier).Asking? && !BeginWarm(d, org).Asking? && BeginRecover(d, org) == (d, Refused)
  {
  }

  lemma UntriedStep(fund: Funding, t: Till, e: Event, org: string)
    requires OwnBindings(t.desk) && Untried(t.desk, org) && !Verifies(t, e, org)
    ensures Untried(Apply(fund, t, e).desk, org)
  {
    match e
    case Reserve(x, carrier, budget, bps, net) => NotAsked(t.desk, org, carrier);
    case Warm(x, minimum, net) => NotAsked(t.desk, org, NoCarrier);
    case Recover(x, net) => NotAsked(t.desk, org, NoCarrier);
    case _ =>
  }

  /** Until its first verification a provider's pool is empty; so that verification forgets nothing. */
  lemma {:induction false} FirstFindsNothing(fund: Funding, events: seq<Event>, org: string)
    ensures OwnBindings(Run(fund, EMPTY, events).desk)
    ensures Verifications(fund, events, org) == 0 ==> Untried(Run(fund, EMPTY, events).desk, org)
  {
    if events != [] {
      var past, e := events[..|events| - 1], events[|events| - 1];
      FirstFindsNothing(fund, past, org);
      OwnBindingsStep(fund, Run(fund, EMPTY, past), e);
      if Verifications(fund, events, org) == 0 {
        UntriedStep(fund, Run(fund, EMPTY, past), e, org);
      }
    }
  }

  lemma {:induction false} NoDrift(fund: Funding, events: seq<Event>, org: string)
    requires Verifications(fund, events, org) <= 1 && NeverRecovered(events, org)
    ensures TotalDrift(fund, events, org) == 0
  {
    if events != [] {
      var past, e := events[..|events| - 1], events[|events| - 1];
      NoDrift(fund, past, org);
      FirstFindsNothing(fund, past, org);
    }
  }

  /** In every serialised run that never recovers the provider and verifies it at most once, its total is
      exactly the money in the channels opened for it. */
  lemma TotalsExact(fund: Funding, events: seq<Event>, org: string)
    requires Covers(fund) && Verifications(fund, events, org) <= 1 && NeverRecovered(events, org)
    ensures var t := Run(fund, EMPTY, events); PoolOf(t.desk, org).total == FundedFor(t, org)
  {
    TotalsExplained(fund, events, org);
    NoDrift(fund, events, org);
  }

  /** All of it holds for every provisioner that can be constructed. */
  lemma ConfiguredRuns(centsPerUnit: int, minUnits: int, events: seq<Event>, org: string, carrier: CarrierBinding,
                       budget: nat, bps: int, net: Network)
    ensures var fund := Configured(NewConfig(centsPerUnit, minUnits));
            var t := Run(fund, EMPTY, events);
            && AllSolvent(t.desk)
            && (DoReserve(fund, t, org, carrier, NeededReserve(budget, bps), net).1 <==>
                BeginReserve(t.desk, org, carrier).Asking? && net.Reachable?)
            && PoolOf(t.desk, org).total == FundedFor(t, org) + TotalDrift(fund, events, org)
  {
    var fund := Configured(NewConfig(centsPerUnit, minUnits));
    ConfiguredCovers(NewConfig(centsPerUnit, minUnits));
    AlwaysSolvent(fund, events);
    ReserveSucceeds(fund, Run(fund, EMPTY, events), org, carrier, NeededReserve(budget, bps), net);
    TotalsExplained(fund, events, org);
  }

  // ---- A run whose total is more than its channels hold ----

  lemma RunSnoc(fund: Funding, t: Till, events: seq<Event>, e: Event)
    ensures Run(fund, t, events + [e]) == Apply(fund, Run(fund, t, events), e)
  {
    assert (events + [e])[..|events|] == events;
  }

  function Reserved(org: string, budget: nat, bps: int): seq<Event> {
    [RegisterBinding(org)] + [VerifyBinding(0)] + [Reserve(org, UsableCarrier, budget, bps, Reachable(false, 0))]
  }

  /** The first reservation opens a channel, whose money is the pool's total. */
  lemma OneChannel(fund: Funding, org: string, budget: nat, bps: int)
    requires Covers(fund)
    ensures var t, needed := Run(fund, EMPTY, Reserved(org, budget, bps)), NeededReserve(budget, bps);
            && t.desk.bindings == [Binding(org, ActiveBinding)] && t.desk.bindingOf == map[org := 0]
            && t.desk.pools == map[org := Pool(0, Healthy, 1, fund(needed), needed, fund(needed) - needed)]
            && t.funded == map[org := fund(needed)]
  {
    var none: seq<Event> := [];
    var reserve := Reserve(org, UsableCarrier, budget, bps, Reachable(false, 0));
    RunSnoc(fund, EMPTY, none, RegisterBinding(org));
    RunSnoc(fund, EMPTY, none + [RegisterBinding(org)], VerifyBinding(0));
    RunSnoc(fund, EMPTY, none + [RegisterBinding(org)] + [VerifyBinding(0)], reserve);
    assert none + [RegisterBinding(org)] + [VerifyBinding(0)] + [reserve] == Reserved(org, budget, bps);
  }

  /** Verify, reserve, recover with a ready channel: the total is then more than the money in the channels, by what is
      reserved. */
  lemma RecoveryInflates(fund: Funding, org: string, budget: nat, bps: int, channels: nat)
    requires Covers(fund) && budget > 0
    ensures var t := Run(fund, EMPTY, Reserved(org, budget, bps) + [Recover(org, Reachable(true, channels))]);
            PoolOf(t.desk, org).total == FundedFor(t, org) + NeededReserve(budget, bps) > FundedFor(t, org)
  {
    OneChannel(fund, org, budget, bps);
    RunSnoc(fund, EMPTY, Reserved(org, budget, bps), Recover(org, Reachable(true, channels)));
  }
}
