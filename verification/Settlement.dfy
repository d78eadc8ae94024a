/** Provider liquidity: settlement bindings, a pool per provider, and reservations against it. */
module Settlement {
  import opened Options

  datatype BindingStatus = PendingVerification | ActiveBinding | SuspendedBinding

  /** A binding; its id is its position. */
  datatype Binding = Binding(provider: string, status: BindingStatus)

  datatype PoolStatus = NoStatus | Healthy | Degraded | DisconnectedPool | RecoveringPool | SuspendedPool

  datatype Pool = Pool(binding: nat, status: PoolStatus, channels: int, total: int, reserved: int, available: int)

  datatype ReservationStatus = Reserved | ActiveReservation | ReleasedReservation

  /** A reservation; its id is its position. */
  datatype Reservation = Reservation(
    order: Option<nat>, binding: nat, provider: string, cents: int, status: ReservationStatus)

  datatype Desk = Desk(
    bindings: seq<Binding>, bindingOf: map<string, nat>, pools: map<string, Pool>,
    reservations: seq<Reservation>, byOrder: map<nat, nat>)

  /** What a provisioner reports after it has made sure of the liquidity. */
  datatype Provision = Provision(channels: int, total: int)

  /** The provider's carrier binding, as far as a reservation looks at it. */
  datatype CarrierBinding = NoCarrier | SuspendedCarrier | UsableCarrier

  /** The first half of a call that asks the provisioner: refused, not needed, or the snapshot
      with which the provisioner is asked, without the lock. */
  datatype Begun = Refused | NotNeeded | Asking(binding: nat, pool: Pool)

  const NO_POOL := Pool(0, NoStatus, 0, 0, 0, 0)

  function PoolOf(d: Desk, org: string): Pool {
    if org in d.pools then d.pools[org] else NO_POOL
  }

  function BindingFor(d: Desk, org: string): Option<nat> {
    if org in d.bindingOf && d.bindingOf[org] < |d.bindings| then Some(d.bindingOf[org]) else None
  }

  function WithPool(d: Desk, org: string, p: Pool): Desk {
    d.(pools := d.pools[org := p])
  }

  // ---- Bindings ----

  predicate HasActive(bindings: seq<Binding>, org: string) {
    exists i :: 0 <= i < |bindings| && bindings[i].provider == org && bindings[i].status == ActiveBinding
  }

  function Register(d: Desk, org: string): Desk {
    if HasActive(d.bindings, org) then d
    else d.(bindings := d.bindings + [Binding(org, PendingVerification)], bindingOf := d.bindingOf[org := |d.bindings|])
  }

  /** Verification starts the provider's pool from nothing, whatever was there. */
  function Verify(d: Desk, id: nat): Desk {
    if id >= |d.bindings| then d
    else
      var org := d.bindings[id].provider;
      WithPool(d.(bindings := d.bindings[id := Binding(org, ActiveBinding)]), org, Pool(id, Healthy, 0, 0, 0, 0))
  }

  function Suspend(d: Desk, id: nat): Desk {
    if id >= |d.bindings| then d
    else
      var org := d.bindings[id].provider;
      WithPool(d.(bindings := d.bindings[id := Binding(org, SuspendedBinding)]), org,
               PoolOf(d, org).(binding := id, status := SuspendedPool))
  }

  function PoolDisconnected(d: Desk, org: string): Desk {
    if org !in d.pools then d else WithPool(d, org, d.pools[org].(status := DisconnectedPool))
  }

  // ---- Calls that ask the provisioner, cut where the lock is dropped ----

  predicate Blocked(status: PoolStatus) {
    status == DisconnectedPool || status == RecoveringPool || status == SuspendedPool
  }

  function BeginReserve(d: Desk, org: string, carrier: CarrierBinding): Begun {
    if carrier == SuspendedCarrier then Refused
    else if carrier == NoCarrier then NotNeeded
    else match BindingFor(d, org)
      case None => Refused
      case Some(b) =>
        if d.bindings[b].status != ActiveBinding then Refused
        else if Blocked(PoolOf(d, org).status) || PoolOf(d, org).status == Degraded then Refused
        else Asking(b, PoolOf(d, org))
  }

  const DEFAULT_BUFFER := 1000

  /** Integer division that rounds toward zero. */
  function Quotient(x: int, d: nat): int
    requires d > 0
  {
    if x >= 0 then x / d else -((-x) / d)
  }

  /** The budget plus the buffer, which is given in basis points. */
  function NeededReserve(budget: int, bufferBps: int): (needed: int)
    ensures budget >= 0 ==> needed >= budget
  {
    var bps := if bufferBps <= 0 then DEFAULT_BUFFER else bufferBps;
    Grows(budget, bps);
    budget + Quotient(budget * bps, 10000)
  }

  lemma Grows(budget: int, bps: nat)
    ensures budget >= 0 ==> budget * bps >= 0
  {
  }

  predicate Sufficient(snapshot: Pool, needed: int, result: Provision) {
    result.total >= snapshot.reserved + needed
  }

  function CommitReserve(d: Desk, org: string, binding: nat, needed: int, result: Provision): Desk {
    var p := PoolOf(d, org);
    var reserved := p.reserved + needed;
    WithPool(d, org, Pool(binding, Healthy, result.channels, result.total, reserved, result.total - reserved))
    .(reservations := d.reservations + [Reservation(None, binding, org, needed, Reserved)])
  }

  function BeginWarm(d: Desk, org: string): Begun {
    match BindingFor(d, org)
    case None => Refused
    case Some(b) =>
      if d.bindings[b].status != ActiveBinding || org !in d.pools then Refused
      else if Blocked(d.pools[org].status) then Refused
      else Asking(b, d.pools[org])
  }

  function WarmTarget(pool: Pool, minimum: int): int {
    var m := if minimum < 0 then 0 else minimum;
    if pool.available > m then pool.available else m
  }

  function Floor(x: int): int { if x < 0 then 0 else x }

  /** Warming and recovery write the new total and keep what is reserved by then. */
  function CommitTotal(d: Desk, org: string, binding: nat, result: Provision): Desk {
    var p := PoolOf(d, org);
    WithPool(d, org, Pool(binding, Healthy, result.channels, result.total, p.reserved,
                          Floor(result.total - p.reserved)))
  }

  function BeginRecover(d: Desk, org: string): (Desk, Begun) {
    match BindingFor(d, org)
    case None => (d, Refused)
    case Some(b) =>
      if d.bindings[b].status != ActiveBinding || org !in d.pools then (d, Refused)
      else
        var p := d.pools[org].(status := RecoveringPool);
        (WithPool(d, org, p), Asking(b, p.(available := p.total)))
  }

  function FailRecover(d: Desk, org: string): Desk {
    WithPool(d, org, PoolOf(d, org).(status := DisconnectedPool))
  }

  // ---- Reservations ----

  function Attach(d: Desk, r: nat, order: nat): Desk {
    if r >= |d.reservations| then d
    else d.(reservations := d.reservations[r := d.reservations[r].(order := Some(order), status := ActiveReservation)],
            byOrder := d.byOrder[order := r])
  }

  function Release(d: Desk, r: nat): Desk {
    if r >= |d.reservations| || d.reservations[r].status == ReleasedReservation then d
    else
      var v := d.reservations[r];
      var p := PoolOf(d, v.provider);
      var reserved := Floor(p.reserved - v.cents);
      WithPool(d, v.provider, p.(reserved := reserved, available := p.total - reserved))
      .(reservations := d.reservations[r := v.(status := ReleasedReservation)])
  }

  /** The sum of a provider's reservations that have not been released. */
  function Outstanding(rs: seq<Reservation>, org: string): int {
    if rs == [] then 0
    else
      var r := rs[|rs| - 1];
      Outstanding(rs[..|rs| - 1], org) +
      if r.provider == org && r.status != ReleasedReservation then r.cents else 0
  }
}
