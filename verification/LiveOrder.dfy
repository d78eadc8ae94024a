/** The order as the program holds it: an object whose methods work on it in place. */
module LiveOrders {
  import opened Workflow

  class LiveOrder {
    const id: nat
    const buyer: string
    const provider: string
    const funding: FundingMode
    var status: OrderStatus
    var milestones: seq<Milestone>

    function Value(): Order
      reads this
    {
      Order(id, buyer, provider, funding, status, milestones)
    }

    /** A private copy of a stored order. */
    constructor (o: Order)
      ensures Value() == o
    {
      id, buyer, provider, funding := o.id, o.buyer, o.provider, o.funding;
      status, milestones := o.status, o.milestones;
    }

    method FindMilestone(key: string) returns (i: nat)
      ensures i == Find(milestones, key)
    {
      i := 0;
      while i < |milestones| && milestones[i].id != key
        invariant i <= |milestones|
        invariant forall j :: 0 <= j < i ==> milestones[j].id != key
      {
        i := i + 1;
      }
    }

    method IsLastMilestoneSettled() returns (all: bool)
      ensures all == AllSettled(milestones)
    {
      for i := 0 to |milestones|
        invariant forall j :: 0 <= j < i ==> milestones[j].state == Settled
      {
        if milestones[i].state != Settled {
          return false;
        }
      }
      return true;
    }

    static method CurrentSpendCents(m: Milestone) returns (total: int)
      ensures total == Spend(m)
    {
      total := m.basePrice;
      for i := 0 to |m.charges|
        invariant total == m.basePrice + Total(m.charges[..i])
      {
        total := total + m.charges[i].amount;
        assert m.charges[..i + 1][..i] == m.charges[..i];
      }
      assert m.charges[..|m.charges|] == m.charges;
    }

    method SettleMilestone(key: string, summary: string) returns (r: Result<LedgerEntry>)
      modifies this
      ensures match Settle(old(Value()), key, summary)
              case Ok((o, entry)) => Value() == o && r == Ok(entry)
              case Err(e) => Value() == old(Value()) && r == Err(e)
    {
      var i := FindMilestone(key);
      if i == |milestones| {
        return Err(MilestoneNotFound);
      }
      if milestones[i].state != MilestoneState.Running && milestones[i].state != Paused {
        return Err(NotPayable);
      }
      milestones := milestones[i := milestones[i].(state := Settled)];
      milestones := milestones[i := milestones[i].(summary := summary)];
      milestones := milestones[i := milestones[i].(settled := milestones[i].basePrice)];
      ghost var m := old(milestones)[i];
      assert milestones == old(milestones)[i := m.(state := Settled, summary := summary, settled := m.basePrice)];
      var last := IsLastMilestoneSettled();
      if last {
        status := Completed;
      }
      var kind := PlatformExposure;
      if funding == Prepaid {
        kind := ProviderPayout;
      }
      return Ok(LedgerEntry(kind, id, milestones[i].id, milestones[i].basePrice));
    }

    method RecordUsageCharge(key: string, charge: UsageCharge) returns (r: Result<UsageCharge>)
      modifies this
      ensures match Charge(old(Value()), key, charge)
              case Ok(o) => Value() == o && r == Ok(charge)
              case Err(e) => Value() == old(Value()) && r == Err(e)
    {
      var i := FindMilestone(key);
      if i == |milestones| {
        return Err(MilestoneNotFound);
      }
      if charge.amount <= 0 {
        return Err(AmountNotPositive);
      }
      if milestones[i].state != MilestoneState.Running && milestones[i].state != Paused {
        return Err(NoUsageAccepted);
      }
      milestones := milestones[i := milestones[i].(charges := milestones[i].charges + [charge])];
      var spend := CurrentSpendCents(milestones[i]);
      if spend > milestones[i].budget {
        status := AwaitingBudget;
        milestones := milestones[i := milestones[i].(state := Paused)];
      }
      return Ok(charge);
    }

    method OpenDispute(key: string, refund: int) returns (r: Result<(LedgerEntry, LedgerEntry)>)
      modifies this
      ensures match Dispute(old(Value()), key, refund)
              case Ok((o, paid, recovered)) => Value() == o && r == Ok((paid, recovered))
              case Err(e) => Value() == old(Value()) && r == Err(e)
    {
      var i := FindMilestone(key);
      if i == |milestones| {
        return Err(MilestoneNotFound);
      }
      if milestones[i].state != Settled {
        return Err(NotSettled);
      }
      if refund <= 0 {
        return Err(AmountNotPositive);
      }
      if refund > milestones[i].settled {
        return Err(RefundExceedsSettled);
      }
      milestones := milestones[i := milestones[i].(dispute := Frozen)];
      milestones := milestones[i := milestones[i].(state := Paused)];
      return Ok((LedgerEntry(BuyerReimbursement, id, milestones[i].id, refund),
                 LedgerEntry(ProviderRecovery, id, milestones[i].id, refund)));
    }

    method ResolveDispute(key: string) returns (r: Result<()>)
      modifies this
      ensures match Resolve(old(Value()), key)
              case Ok(o) => Value() == o && r == Ok(())
              case Err(e) => Value() == old(Value()) && r == Err(e)
    {
      var i := FindMilestone(key);
      if i == |milestones| {
        return Err(MilestoneNotFound);
      }
      if milestones[i].dispute != Frozen && milestones[i].dispute != Open {
        return Err(NoOpenDispute);
      }
      milestones := milestones[i := milestones[i].(dispute := Resolved)];
      return Ok(());
    }

    method Reconcile(key: string, anomalies: seq<string>)
      modifies this
      ensures Value() == old(Value()).(milestones := Reconciled(old(milestones), key, anomalies))
    {
      var i := FindMilestone(key);
      if i < |milestones| && |anomalies| > 0 {
        milestones := milestones[i := milestones[i].(flags := anomalies)];
      }
    }

    method AdvanceNextMilestone(settledKey: string)
      modifies this
      ensures Value() == old(Value()).(milestones := Advance(old(milestones), settledKey))
    {
      var found := false;
      for i := 0 to |milestones|
        invariant milestones == old(milestones)
        invariant NextPending(milestones, settledKey, 0, false) == NextPending(milestones, settledKey, i, found)
      {
        if milestones[i].id == settledKey {
          found := true;
        } else if found && milestones[i].state == Pending {
          milestones := milestones[i := milestones[i].(state := MilestoneState.Running)];
          return;
        }
      }
    }

    method TopUpBudget(key: string, cents: int) returns (r: Result<()>)
      modifies this
      ensures match TopUp(old(Value()), key, cents)
              case Ok(o) => Value() == o && r == Ok(())
              case Err(e) => Value() == old(Value()) && r == Err(e)
    {
      if key == "" || cents <= 0 {
        return Err(MissingFields);
      }
      for i := 0 to |milestones|
        invariant Value() == old(Value())
        invariant forall j :: 0 <= j < i ==> milestones[j].id != key
      {
        if milestones[i].id == key {
          milestones := milestones[i := milestones[i].(budget := milestones[i].budget + cents)];
          if milestones[i].state == Paused {
            milestones := milestones[i := milestones[i].(state := MilestoneState.Running)];
            status := OrderStatus.Running;
          }
          return Ok(());
        }
      }
      return Err(MilestoneNotFound);
    }

    method MarkDisconnected()
      modifies this
      ensures Value() == Disconnected(old(Value()))
    {
      status := AwaitingPaymentRail;
      ghost var before := milestones;
      for i := 0 to |milestones|
        invariant |milestones| == |before| && status == AwaitingPaymentRail
        invariant forall j :: 0 <= j < |before| ==> milestones[j] == if j < i then Interrupted(before[j]) else before[j]
      {
        if milestones[i].state == MilestoneState.Running {
          milestones := milestones[i := milestones[i].(state := Paused)];
        }
        if DISCONNECTED !in milestones[i].flags {
          milestones := milestones[i := milestones[i].(flags := milestones[i].flags + [DISCONNECTED])];
        }
      }
      assert milestones == Disconnected(old(Value())).milestones;
    }

    method Resume()
      modifies this
      ensures Value() == Resumed(old(Value()))
    {
      if status == AwaitingPaymentRail {
        status := OrderStatus.Running;
      }
      ghost var before := milestones;
      for i := 0 to |milestones|
        invariant |milestones| == |before| && status == Resumed(old(Value())).status
        invariant forall j :: 0 <= j < |before| ==> milestones[j] == if j < i then Continued(before[j]) else before[j]
      {
        if milestones[i].state == Paused && DISCONNECTED in milestones[i].flags {
          milestones := milestones[i := milestones[i].(state := MilestoneState.Running)];
          milestones := milestones[i := milestones[i].(flags := Without(milestones[i].flags, DISCONNECTED))];
        }
      }
      assert milestones == Resumed(old(Value())).milestones;
    }

    method GetBudgetWallInfo() returns (wall: BudgetWall)
      ensures wall == BudgetWallInfo(Value())
    {
      if status != AwaitingBudget {
        return NoWall;
      }
      for i := 0 to |milestones|
        invariant forall j :: 0 <= j < i ==> milestones[j].state != Paused
      {
        if milestones[i].state == Paused {
          var spent := CurrentSpendCents(milestones[i]);
          return Wall(milestones[i].id, milestones[i].budget, spent, spent - milestones[i].budget);
        }
      }
      return NoWall;
    }
  }
}
