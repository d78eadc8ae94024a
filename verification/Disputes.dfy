/** What disputes do to the life of an order, and runs that show what it does not keep. */
module Disputes {
  import opened Workflow
  import opened OrderRuns

  // ---- A frozen dispute does not block settlement ----

  /** Right after a dispute the milestone can be settled again. */
  lemma DisputeThenSettle(o: Order, id: string, refund: int, summary: string)
    requires Dispute(o, id, refund).Ok?
    ensures Settle(Dispute(o, id, refund).value.0, id, summary).Ok?
  {
    var p := Dispute(o, id, refund).value.0;
    FindSame(o.milestones, p.milestones, id);
  }

  lemma {:induction false} FindSame(ms: seq<Milestone>, ns: seq<Milestone>, id: string)
    requires |ms| == |ns| && forall i :: 0 <= i < |ms| ==> ms[i].id == ns[i].id
    ensures Find(ms, id) == Find(ns, id)
  {
    if ms != [] {
      FindSame(ms[1..], ns[1..], id);
    }
  }

  /** Ids are distinct, and a milestone that has been disputed no longer waits for its turn. */
  ghost predicate Begun(ms: seq<Milestone>) {
    Distinct(ms) && forall i :: 0 <= i < |ms| && ms[i].dispute != NoDispute ==> ms[i].state != Pending
  }

  /** No milestone goes back to waiting, and only a settled one becomes disputed. */
  ghost predicate Onwards(ms: seq<Milestone>, ns: seq<Milestone>) {
    && |ms| == |ns|
    && forall i :: 0 <= i < |ms| ==>
         && ns[i].id == ms[i].id && (ms[i].state != Pending ==> ns[i].state != Pending)
         && (ms[i].dispute == NoDispute && ns[i].dispute != NoDispute ==> ms[i].state == Settled)
  }

  lemma AdvanceOnwards(ms: seq<Milestone>, id: string, anomalies: seq<string>)
    ensures Onwards(ms, Advance(Reconciled(ms, id, anomalies), id))
  {
  }

  lemma SettleOnwards(o: Order, id: string, summary: string)
    requires Settle(o, id, summary).Ok?
    ensures Onwards(o.milestones, Settle(o, id, summary).value.0.milestones)
  {
  }

  lemma LocalOnwards(o: Order, id: string, c: UsageCharge, cents: int)
    ensures match Charge(o, id, c) case Ok(p) => Onwards(o.milestones, p.milestones) case Err(_) => true
    ensures match Dispute(o, id, cents) case Ok((p, _, _)) => Onwards(o.milestones, p.milestones) case Err(_) => true
    ensures match TopUp(o, id, cents) case Ok(p) => Onwards(o.milestones, p.milestones) case Err(_) => true
  {
  }

  /** Only a dispute that was opened can be resolved. */
  lemma ResolveOnwards(o: Order, id: string)
    ensures match Resolve(o, id) case Ok(p) => Onwards(o.milestones, p.milestones) case Err(_) => true
  {
  }

  lemma OutageOnwards(o: Order)
    ensures Onwards(o.milestones, Disconnected(o).milestones) && Onwards(o.milestones, Resumed(o).milestones)
  {
  }

  lemma StepOnwards(b: Book, s: Step)
    ensures Onwards(b.order.milestones, Apply(b, s).order.milestones)
  {
    var none := UsageCharge("", 0, "");
    match s
    case SettleStep(id, summary, anomalies) =>
      if Settle(b.order, id, summary).Ok? {
        SettleOnwards(b.order, id, summary);
        AdvanceOnwards(Settle(b.order, id, summary).value.0.milestones, id, anomalies);
      }
    case UsageStep(id, c) => LocalOnwards(b.order, id, c, 0);
    case DisputeStep(id, refund) => LocalOnwards(b.order, id, none, refund);
    case ResolveStep(id) => ResolveOnwards(b.order, id);
    case TopUpStep(id, cents) => LocalOnwards(b.order, id, none, cents);
    case Disconnect => OutageOnwards(b.order);
    case Recover => OutageOnwards(b.order);
  }

  lemma {:induction false} RunBegun(b: Book, steps: seq<Step>)
    requires Begun(b.order.milestones)
    ensures Begun(Run(b, steps).order.milestones)
  {
    if steps != [] {
      RunBegun(b, steps[..|steps| - 1]);
      StepOnwards(Run(b, steps[..|steps| - 1]), steps[|steps| - 1]);
    }
  }

  /** In every run a milestone under a frozen dispute can be settled exactly if it is not settled already: the
      dispute itself blocks nothing. */
  lemma FrozenBlocksNothing(b: Book, steps: seq<Step>, i: nat, summary: string)
    requires Fresh(b) && i < |Run(b, steps).order.milestones|
    requires Run(b, steps).order.milestones[i].dispute == Frozen
    ensures var o := Run(b, steps).order;
            Settle(o, o.milestones[i].id, summary).Ok? <==> o.milestones[i].state != Settled
  {
    RunBegun(b, steps);
    var ms := Run(b, steps).order.milestones;
    FindDistinct(ms, ms[i].id);
  }

  // ---- Settling a disputed milestone again ----

  /** The first milestone that waits, when all before it do not. */
  lemma {:induction false} NextIsFirst(ms: seq<Milestone>, id: string, i: nat, p: nat, from: nat, found: bool)
    requires Distinct(ms) && i < p <= |ms| && i < |ms| && ms[i].id == id && from <= p && (i < from ==> found)
    requires (forall j :: 0 <= j < p ==> ms[j].state != Pending) && (p < |ms| ==> ms[p].state == Pending)
    ensures NextPending(ms, id, from, found) == p
    decreases |ms| - from
  {
    if from < p {
      NextIsFirst(ms, id, i, p, from + 1, found || from == i);
    }
  }

  /** The order after milestone i has been disputed and settled again. */
  function Again(b: Book, id: string, refund: int, summary: string, anomalies: seq<string>): Book {
    Apply(Apply(b, DisputeStep(id, refund)), SettleStep(id, summary, anomalies))
  }

  lemma SettledAgain(o: Order, id: string, refund: int, summary: string)
    requires Dispute(o, id, refund).Ok?
    ensures Settle(Dispute(o, id, refund).value.0, id, summary).Ok?
    ensures var ms, ns := o.milestones, Settle(Dispute(o, id, refund).value.0, id, summary).value.0.milestones;
            var i := Find(ms, id);
            i < |ms| && |ns| == |ms| && ns == ms[i := ns[i]] && ns[i].id == id && ns[i].state == Settled
  {
    DisputeThenSettle(o, id, refund, summary);
    FindSame(o.milestones, Dispute(o, id, refund).value.0.milestones, id);
  }

  /** What follows a settlement starts the first milestone that waits. */
  lemma StartsFirst(ms: seq<Milestone>, id: string, i: nat, p: nat, anomalies: seq<string>)
    requires Distinct(ms) && i < p <= |ms| && i < |ms| && ms[i].id == id
    requires (forall j :: 0 <= j < p ==> ms[j].state != Pending) && (p < |ms| ==> ms[p].state == Pending)
    ensures var ns := Advance(Reconciled(ms, id, anomalies), id);
            && |ns| == |ms| && ns[i].id == id && ns[i].state == ms[i].state
            && forall j :: 0 <= j < |ms| && j != i ==>
                 ns[j] == if j == p then ms[j].(state := MilestoneState.Running) else ms[j]
  {
    FindDistinct(ms, id);
    NextIsFirst(Reconciled(ms, id, anomalies), id, i, p, 0, false);
  }

  /** The milestones are as they were, but for one that is settled again, and for the next one waiting, which starts. */
  ghost predicate Restarted(ms: seq<Milestone>, ns: seq<Milestone>, i: nat, k: nat) {
    && |ns| == |ms| && i < k <= |ms| && ns[i].id == ms[i].id && ns[i].state == Settled
    && forall j :: 0 <= j < |ms| && j != i ==>
         ns[j] == if j == k + 1 then ms[j].(state := MilestoneState.Running) else ms[j]
  }

  lemma StageRestarted(ms: seq<Milestone>, s: seq<Milestone>, i: nat, k: nat, id: string, anomalies: seq<string>)
    requires Stage(ms, k) && i < k && |s| == |ms| && s == ms[i := s[i]]
    requires s[i].id == ms[i].id == id && s[i].state == Settled
    ensures Restarted(ms, Advance(Reconciled(s, id, anomalies), id), i, k)
  {
    StartsFirst(s, id, i, if k < |ms| then k + 1 else |ms|, anomalies);
  }

  lemma AgainMilestones(b: Book, k: nat, id: string, refund: int, summary: string, anomalies: seq<string>)
    requires At(b, k) && Dispute(b.order, id, refund).Ok?
    ensures Restarted(b.order.milestones, Again(b, id, refund, summary, anomalies).order.milestones,
                      Find(b.order.milestones, id), k)
  {
    var ms, i := b.order.milestones, Find(b.order.milestones, id);
    SettledAgain(b.order, id, refund, summary);
    var s := Settle(Dispute(b.order, id, refund).value.0, id, summary).value.0.milestones;
    assert i < k;
    StageRestarted(ms, s, i, k, id, anomalies);
  }

  /** Settling the disputed milestone again restores what every other step keeps exactly if no milestone is left
      waiting behind the one under way; otherwise that starts too, and two are under way at once. */
  lemma AgainRestores(b: Book, k: nat, id: string, refund: int, summary: string, anomalies: seq<string>)
    requires At(b, k) && Dispute(b.order, id, refund).Ok?
    ensures var r := Again(b, id, refund, summary, anomalies);
            && ((exists n :: At(r, n)) <==> k + 1 >= |b.order.milestones|)
            && (k + 1 < |b.order.milestones| ==> Payable(r.order.milestones[k]) && Payable(r.order.milestones[k + 1]))
  {
    var ms, r := b.order.milestones, Again(b, id, refund, summary, anomalies);
    AgainMilestones(b, k, id, refund, summary, anomalies);
    if k + 1 < |ms| {
      forall n ensures !At(r, n) {
        TwoUnderWay(r.order.milestones, k, n);
      }
    } else {
      AgainStatus(b, k, id, refund, summary, anomalies);
      assert Stage(r.order.milestones, k);
      assert At(r, k);
    }
  }

  lemma TwoUnderWay(ns: seq<Milestone>, k: nat, n: nat)
    requires k + 1 < |ns| && Payable(ns[k]) && Payable(ns[k + 1])
    ensures !Stage(ns, n)
  {
  }

  lemma AgainStatus(b: Book, k: nat, id: string, refund: int, summary: string, anomalies: seq<string>)
    requires At(b, k) && Dispute(b.order, id, refund).Ok?
    ensures var r := Again(b, id, refund, summary, anomalies);
            r.order.status == b.order.status && (r.order.status == Completed ==> r.rail != Attached)
  {
    var o := Dispute(b.order, id, refund).value.0;
    DisputeThenSettle(b.order, id, refund, summary);
    FindSame(b.order.milestones, o.milestones, id);
    var s := Settle(o, id, summary).value.0;
    assert k < |b.order.milestones| ==> s.milestones[k].state != Settled;
    assert k == |b.order.milestones| ==> AllSettled(s.milestones);
  }

  // ---- Lives that show it, on an order with one milestone ----

  function Only(price: nat, budget: int, rail: Rail): Book {
    var m := Milestone("ms_1", "title", price, budget, 0, "", MilestoneState.Running, NoDispute, [], []);
    Book(Order(0, "buyer", "provider", Prepaid, OrderStatus.Running, [m]), rail, [])
  }

  lemma OnlyIsFresh(price: nat, budget: int, rail: Rail)
    requires rail != Released
    ensures Fresh(Only(price, budget, rail))
  {
  }

  lemma RunSnoc(b: Book, steps: seq<Step>, s: Step)
    ensures Run(b, steps + [s]) == Apply(Run(b, steps), s)
  {
    assert (steps + [s])[..|steps|] == steps;
  }

  lemma RunTwo(b: Book, s: Step, t: Step)
    ensures Run(b, [s] + [t]) == Apply(Apply(b, s), t)
  {
    var none: seq<Step> := [];
    RunSnoc(b, none, s);
    assert none + [s] == [s];
    RunSnoc(b, [s], t);
  }

  function Paid(price: nat): LedgerEntry { LedgerEntry(ProviderPayout, 0, "ms_1", price) }

  function Returned(refund: int): LedgerEntry { LedgerEntry(BuyerReimbursement, 0, "ms_1", refund) }

  function Taken(refund: int): LedgerEntry { LedgerEntry(ProviderRecovery, 0, "ms_1", refund) }

  /** Settle, then dispute: the order says completed while its milestone is paused. */
  lemma CompletedButPaused(price: nat, budget: int, rail: Rail, refund: int)
    requires rail != Released && 0 < refund <= price
    ensures Fresh(Only(price, budget, rail))
    ensures var r := Run(Only(price, budget, rail), [SettleStep("ms_1", "", [])] + [DisputeStep("ms_1", refund)]);
            && r.order.status == Completed && |r.order.milestones| == 1 && r.order.milestones[0].state == Paused
            && r.order.milestones[0].id == "ms_1" && r.order.milestones[0].basePrice == price
            && r.order.id == 0 && r.order.funding == Prepaid
            && r.entries == [Paid(price), Returned(refund), Taken(refund)]
  {
    OnlyIsFresh(price, budget, rail);
    RunTwo(Only(price, budget, rail), SettleStep("ms_1", "", []), DisputeStep("ms_1", refund));
  }

  lemma LastPaid(b: Book, price: nat)
    requires |b.order.milestones| == 1 && b.order.milestones[0].state == Paused && b.order.milestones[0].id == "ms_1"
    requires b.order.milestones[0].basePrice == price && b.order.id == 0 && b.order.funding == Prepaid
    ensures Apply(b, SettleStep("ms_1", "", [])).entries == b.entries + [Paid(price)]
  {
  }

  /** Settle, dispute, settle: the milestone has been paid for twice and refunded once. */
  lemma PaidTwice(price: nat, budget: int, rail: Rail, refund: int)
    requires rail != Released && 0 < refund <= price
    ensures Fresh(Only(price, budget, rail))
    ensures var steps := [SettleStep("ms_1", "", [])] + [DisputeStep("ms_1", refund)] + [SettleStep("ms_1", "", [])];
            var es := Run(Only(price, budget, rail), steps).entries;
            && Settlements(es, "ms_1") == 2 && Disputes(es, "ms_1") == 1
            && Sum(es, IsSettlement) == 2 * price && Sum(es, IsRefund) == refund
  {
    OnlyIsFresh(price, budget, rail);
    var b, two := Only(price, budget, rail), [SettleStep("ms_1", "", [])] + [DisputeStep("ms_1", refund)];
    CompletedButPaused(price, budget, rail, refund);
    RunSnoc(b, two, SettleStep("ms_1", "", []));
    LastPaid(Run(b, two), price);
    var none: seq<LedgerEntry> := [];
    assert Run(b, two).entries + [Paid(price)] ==
           none + [Paid(price)] + [Returned(refund)] + [Taken(refund)] + [Paid(price)];
    FourEntries(none, Paid(price), Returned(refund), Taken(refund), Paid(price));
  }

  lemma FourEntries(es: seq<LedgerEntry>, p: LedgerEntry, q: LedgerEntry, r: LedgerEntry, s: LedgerEntry)
    requires IsSettlement(p) && IsRefund(q) && IsRecovery(r) && IsSettlement(s) && es == []
    requires p.milestone == q.milestone == r.milestone == s.milestone
    ensures var all := es + [p] + [q] + [r] + [s];
            && Settlements(all, p.milestone) == 2 && Disputes(all, p.milestone) == 1
            && Sum(all, IsSettlement) == p.amount + s.amount && Sum(all, IsRefund) == q.amount
  {
    CountSnoc(es, p, p.milestone, IsSettlement);
    CountSnoc(es, p, p.milestone, IsRefund);
    CountSnoc(es + [p], q, p.milestone, IsSettlement);
    CountSnoc(es + [p], q, p.milestone, IsRefund);
    CountSnoc(es + [p] + [q], r, p.milestone, IsSettlement);
    CountSnoc(es + [p] + [q], r, p.milestone, IsRefund);
    CountSnoc(es + [p] + [q] + [r], s, p.milestone, IsSettlement);
    CountSnoc(es + [p] + [q] + [r], s, p.milestone, IsRefund);
  }

  lemma OneCharge(c: UsageCharge)
    ensures Total([c]) == c.amount
  {
    var none: seq<UsageCharge> := [];
    TotalSnoc(none, c);
    assert none + [c] == [c];
  }

  /** A first charge over budget runs into the budget wall. */
  lemma WallHit(o: Order, m: Milestone, charge: UsageCharge)
    requires o.milestones == [m] && m.state == MilestoneState.Running && m.charges == []
    requires charge.amount > 0 && m.basePrice + charge.amount > m.budget
    ensures Charge(o, m.id, charge) ==
            Ok(o.(status := AwaitingBudget, milestones := [m.(charges := [charge], state := Paused)]))
    ensures Spend(m.(charges := [charge], state := Paused)) > m.budget
  {
    OneCharge(charge);
    assert m.charges + [charge] == [charge];
    assert Find(o.milestones, m.id) == 0;
    assert o.milestones[0 := m.(charges := [charge], state := Paused)] == [m.(charges := [charge], state := Paused)];
  }

  lemma RunOne(b: Book, s: Step)
    ensures Run(b, [s]) == Apply(b, s)
  {
    assert [s][..0] == [];
  }

  lemma WallUp(price: nat, budget: int, charge: UsageCharge)
    requires charge.amount > 0 && price + charge.amount > budget
    ensures var b := Only(price, budget, Attached);
            var m := b.order.milestones[0].(charges := [charge], state := Paused);
            && Run(b, [UsageStep("ms_1", charge)]).rail == Attached
            && Run(b, [UsageStep("ms_1", charge)]).order == b.order.(status := AwaitingBudget, milestones := [m])
            && Spend(m) > m.budget
  {
    var b := Only(price, budget, Attached);
    RunOne(b, UsageStep("ms_1", charge));
    WallHit(b.order, b.order.milestones[0], charge);
  }

  lemma OutageOf(b: Book, steps: seq<Step>)
    requires Run(b, steps).rail == Attached
    ensures Run(b, steps + [Disconnect] + [Recover]).order == Resumed(Disconnected(Run(b, steps).order))
  {
    RunSnoc(b, steps, Disconnect);
    RunSnoc(b, steps + [Disconnect], Recover);
  }

  /** Usage over budget, disconnect, recover: the order runs, overspent, and reports no budget wall. */
  lemma WallLost(price: nat, budget: int, charge: UsageCharge)
    requires charge.amount > 0 && price + charge.amount > budget
    ensures Fresh(Only(price, budget, Attached))
    ensures var b := Only(price, budget, Attached);
            var wall := Run(b, [UsageStep("ms_1", charge)]);
            var o := Run(b, [UsageStep("ms_1", charge)] + [Disconnect] + [Recover]).order;
            && BudgetWallInfo(wall.order).Wall?
            && o.status == OrderStatus.Running && |o.milestones| == 1 && o.milestones[0].state == MilestoneState.Running
            && Spend(o.milestones[0]) > o.milestones[0].budget && BudgetWallInfo(o) == NoWall
  {
    var b := Only(price, budget, Attached);
    OnlyIsFresh(price, budget, Attached);
    WallUp(price, budget, charge);
    OutageOf(b, [UsageStep("ms_1", charge)]);
    OutageEnds(Run(b, [UsageStep("ms_1", charge)]).order);
  }

  /** Whatever was paused runs again after an outage. */
  lemma OutageEnds(o: Order)
    requires |o.milestones| == 1 && o.milestones[0].state == Paused
    ensures var r := Resumed(Disconnected(o));
            && r.status == OrderStatus.Running && |r.milestones| == 1
            && r.milestones[0] == o.milestones[0].(state := MilestoneState.Running, flags := r.milestones[0].flags)
  {
  }
}
