/** Orders and their milestones: what a single call does to one order. */
module Workflow {

  datatype FundingMode = Prepaid | Credit | OtherMode(name: string)

  datatype OrderStatus = Draft | Running | AwaitingBudget | AwaitingPaymentRail | Completed | Failed

  datatype MilestoneState = Pending | Running | Paused | Settled

  datatype DisputeStatus = NoDispute | Open | Frozen | Resolved

  datatype UsageCharge = UsageCharge(kind: string, amount: int, proof: string)

  datatype Milestone = Milestone(
    id: string, title: string, basePrice: int, budget: int, settled: int, summary: string,
    state: MilestoneState, dispute: DisputeStatus, charges: seq<UsageCharge>, flags: seq<string>)

  datatype Order = Order(
    id: nat, buyer: string, provider: string, funding: FundingMode, status: OrderStatus, milestones: seq<Milestone>)

  datatype EntryKind = PlatformExposure | ProviderPayout | BuyerReimbursement | ProviderRecovery

  datatype LedgerEntry = LedgerEntry(kind: EntryKind, order: nat, milestone: string, amount: int)

  datatype Error =
    | MilestoneNotFound | NotPayable | AmountNotPositive | NoUsageAccepted | NotSettled | RefundExceedsSettled
    | NoOpenDispute | MissingFields

  datatype Result<T> = Ok(value: T) | Err(error: Error)

  const DISCONNECTED := "provider_settlement_disconnected"

  // ---- Reading an order ----

  /** The first milestone with the id, or the length. */
  function Find(ms: seq<Milestone>, id: string): (i: nat)
    ensures i <= |ms|
    ensures i < |ms| ==> ms[i].id == id
    ensures forall j :: 0 <= j < i ==> ms[j].id != id
  {
    if ms == [] || ms[0].id == id then 0 else 1 + Find(ms[1..], id)
  }

  function Total(charges: seq<UsageCharge>): int {
    if charges == [] then 0 else Total(charges[..|charges| - 1]) + charges[|charges| - 1].amount
  }

  function Spend(m: Milestone): int { m.basePrice + Total(m.charges) }

  predicate AllSettled(ms: seq<Milestone>) {
    forall i :: 0 <= i < |ms| ==> ms[i].state == Settled
  }

  predicate Payable(m: Milestone) { m.state == MilestoneState.Running || m.state == Paused }

  predicate PrepaidCommitted(o: Order) {
    o.funding == Prepaid && o.status in {OrderStatus.Running, AwaitingBudget, AwaitingPaymentRail}
  }

  // ---- One call on one order ----

  function Settle(o: Order, id: string, summary: string): Result<(Order, LedgerEntry)> {
    var i := Find(o.milestones, id);
    if i == |o.milestones| then Err(MilestoneNotFound)
    else
      var m := o.milestones[i];
      if !Payable(m) then Err(NotPayable)
      else
        var ms := o.milestones[i := m.(state := Settled, summary := summary, settled := m.basePrice)];
        Ok((o.(milestones := ms, status := if AllSettled(ms) then Completed else o.status),
            LedgerEntry(if o.funding == Prepaid then ProviderPayout else PlatformExposure, o.id, id, m.basePrice)))
  }

  function Charge(o: Order, id: string, c: UsageCharge): Result<Order> {
    var i := Find(o.milestones, id);
    if i == |o.milestones| then Err(MilestoneNotFound)
    else if c.amount <= 0 then Err(AmountNotPositive)
    else if !Payable(o.milestones[i]) then Err(NoUsageAccepted)
    else
      var m := o.milestones[i].(charges := o.milestones[i].charges + [c]);
      if Spend(m) > m.budget
      then Ok(o.(milestones := o.milestones[i := m.(state := Paused)], status := AwaitingBudget))
      else Ok(o.(milestones := o.milestones[i := m]))
  }

  function Dispute(o: Order, id: string, refund: int): Result<(Order, LedgerEntry, LedgerEntry)> {
    var i := Find(o.milestones, id);
    if i == |o.milestones| then Err(MilestoneNotFound)
    else
      var m := o.milestones[i];
      if m.state != Settled then Err(NotSettled)
      else if refund <= 0 then Err(AmountNotPositive)
      else if refund > m.settled then Err(RefundExceedsSettled)
      else Ok((o.(milestones := o.milestones[i := m.(dispute := Frozen, state := Paused)]),
               LedgerEntry(BuyerReimbursement, o.id, id, refund), LedgerEntry(ProviderRecovery, o.id, id, refund)))
  }

  function Resolve(o: Order, id: string): Result<Order> {
    var i := Find(o.milestones, id);
    if i == |o.milestones| then Err(MilestoneNotFound)
    else if o.milestones[i].dispute !in {Frozen, Open} then Err(NoOpenDispute)
    else Ok(o.(milestones := o.milestones[i := o.milestones[i].(dispute := Resolved)]))
  }

  /** The reconciliation of a settled milestone replaces its flags when it finds anomalies. */
  function Reconciled(ms: seq<Milestone>, id: string, anomalies: seq<string>): seq<Milestone> {
    var i := Find(ms, id);
    if i < |ms| && anomalies != [] then ms[i := ms[i].(flags := anomalies)] else ms
  }

  /** The first pending milestone behind a milestone with the id, or the length. */
  function NextPending(ms: seq<Milestone>, id: string, from: nat, found: bool): (i: nat)
    requires from <= |ms|
    ensures from <= i <= |ms|
    ensures i < |ms| ==> ms[i].state == Pending && ms[i].id != id
    decreases |ms| - from
  {
    if from == |ms| then from
    else if ms[from].id == id then NextPending(ms, id, from + 1, true)
    else if found && ms[from].state == Pending then from
    else NextPending(ms, id, from + 1, found)
  }

  function Advance(ms: seq<Milestone>, id: string): seq<Milestone> {
    var i := NextPending(ms, id, 0, false);
    if i < |ms| then ms[i := ms[i].(state := MilestoneState.Running)] else ms
  }

  function TopUp(o: Order, id: string, cents: int): Result<Order> {
    var i := Find(o.milestones, id);
    if id == "" || cents <= 0 then Err(MissingFields)
    else if i == |o.milestones| then Err(MilestoneNotFound)
    else
      var m := o.milestones[i].(budget := o.milestones[i].budget + cents);
      if m.state == Paused
      then Ok(o.(milestones := o.milestones[i := m.(state := MilestoneState.Running)], status := OrderStatus.Running))
      else Ok(o.(milestones := o.milestones[i := m]))
  }

  function Interrupted(m: Milestone): Milestone {
    m.(state := if m.state == MilestoneState.Running then Paused else m.state,
       flags := if DISCONNECTED in m.flags then m.flags else m.flags + [DISCONNECTED])
  }

  /** The provider's settlement rail broke. */
  function Disconnected(o: Order): Order {
    o.(status := AwaitingPaymentRail,
       milestones := seq(|o.milestones|, i requires 0 <= i < |o.milestones| => Interrupted(o.milestones[i])))
  }

  function Without(flags: seq<string>, flag: string): (r: seq<string>)
    ensures flag !in r
  {
    if flags == [] then []
    else if flags[0] == flag then Without(flags[1..], flag) else [flags[0]] + Without(flags[1..], flag)
  }

  function Continued(m: Milestone): Milestone {
    if m.state == Paused && DISCONNECTED in m.flags
    then m.(state := MilestoneState.Running, flags := Without(m.flags, DISCONNECTED)) else m
  }

  /** The rail is back. */
  function Resumed(o: Order): Order {
    o.(status := if o.status == AwaitingPaymentRail then OrderStatus.Running else o.status,
       milestones := seq(|o.milestones|, i requires 0 <= i < |o.milestones| => Continued(o.milestones[i])))
  }

  datatype BudgetWall = NoWall | Wall(milestone: string, budget: int, spent: int, overage: int)

  function FirstPaused(ms: seq<Milestone>): (i: nat)
    ensures i <= |ms|
    ensures i < |ms| ==> ms[i].state == Paused
    ensures forall j :: 0 <= j < i ==> ms[j].state != Paused
  {
    if ms == [] || ms[0].state == Paused then 0 else 1 + FirstPaused(ms[1..])
  }

  function BudgetWallInfo(o: Order): BudgetWall {
    var i := FirstPaused(o.milestones);
    if o.status != AwaitingBudget || i == |o.milestones| then NoWall
    else
      var m := o.milestones[i];
      Wall(m.id, m.budget, Spend(m), Spend(m) - m.budget)
  }

  datatype MilestoneInput = MilestoneInput(id: string, title: string, basePrice: int, budget: int)

  /** A new order: the first milestone runs, the others wait. */
  function NewOrder(id: nat, buyer: string, provider: string, funding: FundingMode,
                    input: seq<MilestoneInput>): (o: Order)
    ensures |o.milestones| == |input|
  {
    Order(id, buyer, provider, funding, OrderStatus.Running,
          seq(|input|, i requires 0 <= i < |input| =>
            Milestone(input[i].id, input[i].title, input[i].basePrice, input[i].budget, 0, "",
                      if i == 0 then MilestoneState.Running else Pending, NoDispute, [], [])))
  }
}
