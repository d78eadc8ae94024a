/** The platform with the channel provisioner behind it: answers are no longer arbitrary, and every run is, at the
    desk, one of the provisioner's serialised runs. */
module Supply {
  import opened Options
  import opened Workflow
  import opened Settlement
  import opened Platform
  import opened PlatformRuns
  import opened MarketRuns
  import DeskRuns
  import Market
  import Fnn

  /** A platform event, what the nodes say while it asks, and how much a warming wants. */
  datatype Supplied = Supplied(event: Event, net: Fnn.Network, minimum: int)

  function Answer(l: Option<Fnn.Liquidity>): Option<Provision> { if l.Some? then Some(l.value.provision) else None }

  /** The event with the provisioner's answer in it. */
  function Answered(fund: Fnn.Funding, s: State, x: Supplied): Event {
    match x.event
    case Award(rfq, winner, funding, carrier, bps, _) =>
      if !Awardable(s, rfq, winner) then x.event
      else
        var b := s.bids[winner];
        var needed := NeededReserve(Market.Budget(b.milestones), bps);
        Award(rfq, winner, funding, carrier, bps, AwardAnswer(fund, s.desk, b.provider, carrier, needed, x.net))
    case RecoverProvider(org, _) => (
      match BeginRecover(s.desk, org).1
      case Asking(_, p) => RecoverProvider(org, Answer(Fnn.Ensure(fund, x.net, p, p.reserved)))
      case _ => x.event)
    case WarmPool(org, _) => (
      match BeginWarm(s.desk, org)
      case Asking(_, p) => WarmPool(org, Answer(Fnn.Ensure(fund, x.net, p, WarmTarget(p, x.minimum))))
      case _ => x.event)
    case _ => x.event
  }

  function AwardAnswer(fund: Fnn.Funding, d: Desk, org: string, carrier: CarrierBinding, needed: int,
                       net: Fnn.Network): Option<Provision> {
    match BeginReserve(d, org, carrier)
    case Asking(_, p) => Answer(Fnn.Ensure(fund, net, p, needed))
    case _ => None
  }

  /** The run that comes about. */
  function Events(fund: Fnn.Funding, limits: map<string, int>, xs: seq<Supplied>): (events: seq<Event>)
    ensures |events| == |xs|
  {
    if xs == [] then []
    else
      var past := Events(fund, limits, xs[..|xs| - 1]);
      past + [Answered(fund, Platform.Run(Start(limits), past), xs[|xs| - 1])]
  }

  function RunSupplied(fund: Fnn.Funding, limits: map<string, int>, xs: seq<Supplied>): State {
    Platform.Run(Start(limits), Events(fund, limits, xs))
  }

  ghost predicate AllSaneIn(xs: seq<Supplied>) { forall i :: 0 <= i < |xs| ==> SaneEvent(xs[i].event) }

  lemma RunSuppliedStep(fund: Fnn.Funding, limits: map<string, int>, xs: seq<Supplied>)
    requires xs != []
    ensures var s := RunSupplied(fund, limits, xs[..|xs| - 1]);
            RunSupplied(fund, limits, xs) == Platform.Apply(s, Answered(fund, s, xs[|xs| - 1]))
  {
    var past := Events(fund, limits, xs[..|xs| - 1]);
    var e := Answered(fund, Platform.Run(Start(limits), past), xs[|xs| - 1]);
    assert (past + [e])[..|past|] == past;
  }

  lemma {:induction false} EventsSane(fund: Fnn.Funding, limits: map<string, int>, xs: seq<Supplied>)
    requires AllSaneIn(xs)
    ensures AllSane(Events(fund, limits, xs))
  {
    if xs != [] {
      EventsSane(fund, limits, xs[..|xs| - 1]);
      assert SaneEvent(xs[|xs| - 1].event);
    }
  }

  // ---- What an event is for the provisioner ----

  function Moves(s: State, x: Supplied): seq<Fnn.Event> {
    match x.event
    case Award(rfq, winner, funding, carrier, bps, _) =>
      if AwardAdmitted(s, rfq, winner, funding) && Awardable(s, rfq, winner)
      then AwardMoves(s, s.bids[winner], OrderAllowed(s, InputOf(s, rfq, winner, funding)), carrier, bps, x.net) else []
    case SettleMilestone(n, id, summary, anomalies) =>
      SettleMoves(s.desk, n, n < |s.orders| && Settle(s.orders[n], id, summary).Ok? &&
                             DeskRuns.Finishes(s.orders[n], id, summary, anomalies))
    case ReportDisconnect(org) => [Fnn.ReportDisconnect(org)]
    case RecoverProvider(org, _) => [Fnn.Recover(org, x.net)]
    case WarmPool(org, _) => [Fnn.Warm(org, x.minimum, x.net)]
    case RegisterBinding(org) => [Fnn.RegisterBinding(org)]
    case VerifyBinding(b) => [Fnn.VerifyBinding(b)]
    case SuspendBinding(b) => [Fnn.SuspendBinding(b)]
    case _ => []
  }

  /** A reservation is made as soon as the nodes answer; then it is attached or released. */
  function AwardMoves(s: State, b: Market.Bid, allowed: bool, carrier: CarrierBinding, bps: int,
                      net: Fnn.Network): seq<Fnn.Event> {
    var budget := Market.Budget(b.milestones);
    if budget < 0 || !BeginReserve(s.desk, b.provider, carrier).Asking? || net.Unreachable? then []
    else
      var r := |s.desk.reservations|;
      [Fnn.Reserve(b.provider, carrier, budget, bps, net),
       if allowed then Fnn.AttachOrder(r, |s.orders|) else Fnn.ReleaseReservation(r)]
  }

  function SettleMoves(d: Desk, n: nat, finishes: bool): seq<Fnn.Event> {
    if finishes && n in d.byOrder then [Fnn.ReleaseReservation(d.byOrder[n])] else []
  }

  lemma OneMove(fund: Fnn.Funding, t: Fnn.Till, e: Fnn.Event)
    ensures Fnn.Run(fund, t, [e]) == Fnn.Apply(fund, t, e)
  {
    assert [e][..0] == [];
  }

  lemma TwoMoves(fund: Fnn.Funding, t: Fnn.Till, e: Fnn.Event, f: Fnn.Event)
    ensures Fnn.Run(fund, t, [e, f]) == Fnn.Apply(fund, Fnn.Apply(fund, t, e), f)
  {
    OneMove(fund, t, e);
    assert [e, f][..1] == [e];
  }

  /** On a solvent desk a reservation is denied exactly if it is refused at the start or the nodes cannot be
      reached, and otherwise it is the provisioner's. */
  lemma SuppliedReserving(fund: Fnn.Funding, t: Fnn.Till, org: string, carrier: CarrierBinding, needed: nat,
                          net: Fnn.Network)
    requires Fnn.Covers(fund) && Fnn.AllSolvent(t.desk)
    ensures var a := Reserving(t.desk, org, carrier, needed, AwardAnswer(fund, t.desk, org, carrier, needed, net));
            && (a.Denied? <==> BeginReserve(t.desk, org, carrier).Refused? ||
                               (BeginReserve(t.desk, org, carrier).Asking? && net.Unreachable?))
            && (a.Made? <==> BeginReserve(t.desk, org, carrier).Asking? && net.Reachable?)
            && (a.Made? ==> a.desk == Fnn.DoReserve(fund, t, org, carrier, needed, net).0.desk &&
                            a.reservation == |t.desk.reservations|)
  {
    Fnn.ReserveSucceeds(fund, t, org, carrier, needed, net);
  }

  lemma AwardMovesRun(fund: Fnn.Funding, s: State, t: Fnn.Till, b: Market.Bid, allowed: bool, carrier: CarrierBinding,
                      bps: int, net: Fnn.Network)
    requires t.desk == s.desk && Market.Budget(b.milestones) >= 0
    requires BeginReserve(s.desk, b.provider, carrier).Asking? && net.Reachable?
    ensures var needed := NeededReserve(Market.Budget(b.milestones), bps);
            var d, r := Fnn.DoReserve(fund, t, b.provider, carrier, needed, net).0.desk, |s.desk.reservations|;
            Fnn.Run(fund, t, AwardMoves(s, b, allowed, carrier, bps, net)).desk ==
            if allowed then Attach(d, r, |s.orders|) else Release(d, r)
  {
    var moves := AwardMoves(s, b, allowed, carrier, bps, net);
    TwoMoves(fund, t, moves[0], moves[1]);
  }

  lemma AwardSupplied(fund: Fnn.Funding, s: State, t: Fnn.Till, rfq: nat, winner: nat, funding: FundingMode,
                      carrier: CarrierBinding, bps: int, net: Fnn.Network)
    requires Fnn.Covers(fund) && Fnn.AllSolvent(s.desk) && t.desk == s.desk && Awardable(s, rfq, winner)
    requires Market.Budget(s.bids[winner].milestones) >= 0
    ensures var b := s.bids[winner];
            var needed := NeededReserve(Market.Budget(b.milestones), bps);
            var answer := AwardAnswer(fund, s.desk, b.provider, carrier, needed, net);
            Awarded(s, rfq, winner, funding, carrier, bps, answer).0.desk ==
            Fnn.Run(fund, t, AwardMoves(s, b, OrderAllowed(s, InputOf(s, rfq, winner, funding)), carrier, bps,
                                        net)).desk
  {
    var b := s.bids[winner];
    var needed := NeededReserve(Market.Budget(b.milestones), bps);
    var allowed := OrderAllowed(s, InputOf(s, rfq, winner, funding));
    var answer := AwardAnswer(fund, s.desk, b.provider, carrier, needed, net);
    SuppliedReserving(fund, t, b.provider, carrier, needed, net);
    AwardedDesk(s, rfq, winner, funding, carrier, bps, answer);
    if Reserving(s.desk, b.provider, carrier, needed, answer).Made? {
      AwardMovesRun(fund, s, t, b, allowed, carrier, bps, net);
    }
  }

  /** The desk after an award, by how the reservation ended. */
  lemma AwardedDesk(s: State, rfq: nat, winner: nat, funding: FundingMode, carrier: CarrierBinding, bps: int,
                    answer: Option<Provision>)
    requires Awardable(s, rfq, winner)
    ensures Awarded(s, rfq, winner, funding, carrier, bps, answer).0.desk ==
            match ReservingFor(s, winner, carrier, bps, answer)
            case Made(d, r) =>
              if OrderAllowed(s, InputOf(s, rfq, winner, funding)) then Attach(d, r, |s.orders|) else Release(d, r)
            case _ => s.desk
  {
    match ReservingFor(s, winner, carrier, bps, answer)
    case Made(d, r) => DeskRuns.ConcludedDesk(s.(desk := d), rfq, winner, funding, Some(r));
    case Unneeded => DeskRuns.ConcludedDesk(s, rfq, winner, funding, None);
    case Denied =>
  }

  lemma OutageSupplied(fund: Fnn.Funding, s: State, t: Fnn.Till, x: Supplied)
    requires t.desk == s.desk && (x.event.RecoverProvider? || x.event.WarmPool?)
    ensures Fnn.Run(fund, t, Moves(s, x)).desk == Platform.Apply(s, Answered(fund, s, x)).desk
  {
    OneMove(fund, t, Moves(s, x)[0]);
  }

  lemma SettleMovesRun(fund: Fnn.Funding, t: Fnn.Till, n: nat, finishes: bool)
    ensures Fnn.Run(fund, t, SettleMoves(t.desk, n, finishes)).desk ==
            if finishes && n in t.desk.byOrder then Release(t.desk, t.desk.byOrder[n]) else t.desk
  {
    if finishes && n in t.desk.byOrder {
      OneMove(fund, t, Fnn.ReleaseReservation(t.desk.byOrder[n]));
    }
  }

  lemma SimpleSupplied(fund: Fnn.Funding, s: State, t: Fnn.Till, x: Supplied)
    requires t.desk == s.desk
    requires !x.event.Award? && !x.event.SettleMilestone? && !x.event.RecoverProvider? && !x.event.WarmPool?
    ensures Fnn.Run(fund, t, Moves(s, x)).desk == Platform.Apply(s, Answered(fund, s, x)).desk
  {
    if Moves(s, x) != [] {
      OneMove(fund, t, Moves(s, x)[0]);
    }
  }

  /** At the desk, a supplied event is the provisioner's moves. */
  lemma StepSupplied(fund: Fnn.Funding, s: State, t: Fnn.Till, x: Supplied)
    requires Fnn.Covers(fund) && Fnn.AllSolvent(s.desk) && t.desk == s.desk && Orderly(s)
    ensures Fnn.Run(fund, t, Moves(s, x)).desk == Platform.Apply(s, Answered(fund, s, x)).desk
  {
    match x.event
    case Award(rfq, winner, funding, carrier, bps, _) =>
      if Awardable(s, rfq, winner) {
        DeskRuns.BudgetSane(s.bids[winner].milestones);
        AwardSupplied(fund, s, t, rfq, winner, funding, carrier, bps, x.net);
      }
    case SettleMilestone(n, id, summary, anomalies) =>
      DeskRuns.SettledDesk(s, n, id, summary, anomalies);
      SettleMovesRun(fund, t, n, n < |s.orders| && Settle(s.orders[n], id, summary).Ok? &&
                                 DeskRuns.Finishes(s.orders[n], id, summary, anomalies));
    case RecoverProvider(_, _) => OutageSupplied(fund, s, t, x);
    case WarmPool(_, _) => OutageSupplied(fund, s, t, x);
    case _ => SimpleSupplied(fund, s, t, x);
  }

  lemma {:induction false} RunMoves(fund: Fnn.Funding, t: Fnn.Till, a: seq<Fnn.Event>, b: seq<Fnn.Event>)
    ensures Fnn.Run(fund, t, a + b) == Fnn.Run(fund, Fnn.Run(fund, t, a), b)
  {
    if b == [] {
      assert a + b == a;
    } else {
      RunMoves(fund, t, a, b[..|b| - 1]);
      assert (a + b)[..|a + b| - 1] == a + b[..|b| - 1];
    }
  }

  /** Every supplied run of the platform is, at the desk, a serialised run of the provisioner. */
  lemma {:induction false} RunIsProvisioned(fund: Fnn.Funding, limits: map<string, int>, xs: seq<Supplied>)
    returns (moves: seq<Fnn.Event>)
    requires Fnn.Covers(fund) && AllSaneIn(xs)
    ensures Fnn.Run(fund, Fnn.EMPTY, moves).desk == RunSupplied(fund, limits, xs).desk
  {
    moves := [];
    if xs != [] {
      var past, x := xs[..|xs| - 1], xs[|xs| - 1];
      moves := RunIsProvisioned(fund, limits, past);
      var s := RunSupplied(fund, limits, past);
      EventsSane(fund, limits, past);
      RunOrderly(Start(limits), Events(fund, limits, past));
      Fnn.AlwaysSolvent(fund, moves);
      StepSupplied(fund, s, Fnn.Run(fund, Fnn.EMPTY, moves), x);
      RunMoves(fund, Fnn.EMPTY, moves, Moves(s, x));
      RunSuppliedStep(fund, limits, xs);
      moves := moves + Moves(s, x);
    }
  }

  /** So on the platform every pool always covers its reservations and offers exactly the rest. */
  lemma PlatformSolvent(fund: Fnn.Funding, limits: map<string, int>, xs: seq<Supplied>)
    requires Fnn.Covers(fund) && AllSaneIn(xs)
    ensures Fnn.AllSolvent(RunSupplied(fund, limits, xs).desk)
  {
    var moves := RunIsProvisioned(fund, limits, xs);
    Fnn.AlwaysSolvent(fund, moves);
  }

  /** And with any provisioner that can be constructed, an award goes through exactly if the request is open for
      the bid, the reservation is not refused at the start, the nodes can be reached if they are asked, and the
      order is allowed: liquidity is never the reason. */
  lemma AwardsGoThrough(centsPerUnit: int, minUnits: int, limits: map<string, int>, xs: seq<Supplied>, rfq: nat,
                        winner: nat, funding: FundingMode, carrier: CarrierBinding, bps: int, net: Fnn.Network)
    requires AllSaneIn(xs)
    requires var fund := Fnn.Configured(Fnn.NewConfig(centsPerUnit, minUnits));
             Awardable(RunSupplied(fund, limits, xs), rfq, winner)
    ensures var fund := Fnn.Configured(Fnn.NewConfig(centsPerUnit, minUnits));
            var s := RunSupplied(fund, limits, xs);
            var b := s.bids[winner];
            var needed := NeededReserve(Market.Budget(b.milestones), bps);
            var begun := BeginReserve(s.desk, b.provider, carrier);
            Awarded(s, rfq, winner, funding, carrier, bps,
                    AwardAnswer(fund, s.desk, b.provider, carrier, needed, net)).1
            <==> !begun.Refused? && (begun.Asking? ==> net.Reachable?) &&
                 OrderAllowed(s, InputOf(s, rfq, winner, funding))
  {
    var fund := Fnn.Configured(Fnn.NewConfig(centsPerUnit, minUnits));
    Fnn.ConfiguredCovers(Fnn.NewConfig(centsPerUnit, minUnits));
    AwardGoesThrough(fund, limits, xs, rfq, winner, funding, carrier, bps, net);
  }

  lemma AwardGoesThrough(fund: Fnn.Funding, limits: map<string, int>, xs: seq<Supplied>, rfq: nat, winner: nat,
                         funding: FundingMode, carrier: CarrierBinding, bps: int, net: Fnn.Network)
    requires Fnn.Covers(fund) && AllSaneIn(xs) && Awardable(RunSupplied(fund, limits, xs), rfq, winner)
    ensures var s := RunSupplied(fund, limits, xs);
            var b := s.bids[winner];
            var needed := NeededReserve(Market.Budget(b.milestones), bps);
            var begun := BeginReserve(s.desk, b.provider, carrier);
            Awarded(s, rfq, winner, funding, carrier, bps,
                    AwardAnswer(fund, s.desk, b.provider, carrier, needed, net)).1
            <==> !begun.Refused? && (begun.Asking? ==> net.Reachable?) &&
                 OrderAllowed(s, InputOf(s, rfq, winner, funding))
  {
    var s := RunSupplied(fund, limits, xs);
    var b := s.bids[winner];
    var needed := NeededReserve(Market.Budget(b.milestones), bps);
    PlatformSolvent(fund, limits, xs);
    EventsSane(fund, limits, xs);
    RunOrderly(Start(limits), Events(fund, limits, xs));
    DeskRuns.BudgetSane(b.milestones);
    SuppliedReserving(fund, Fnn.Till(s.desk, map[]), b.provider, carrier, needed, net);
    AwardSucceeds(s, rfq, winner, funding, carrier, bps, AwardAnswer(fund, s.desk, b.provider, carrier, needed, net));
  }
}
