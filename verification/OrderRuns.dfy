/** The life of one order: every sequence of settlements, usage charges, disputes, resolutions,
    top-ups, disconnects and recoveries. */
module OrderRuns {
  import opened Workflow

  /** The liquidity reservation behind an order.  Only an attached one lets a disconnect reach it. */
  datatype Rail = NoRail | Attached | Released

  /** An order, its rail, and the ledger entries its steps have produced. */
  datatype Book = Book(order: Order, rail: Rail, entries: seq<LedgerEntry>)

  datatype Step =
    | SettleStep(id: string, summary: string, anomalies: seq<string>)
    | UsageStep(id: string, charge: UsageCharge)
    | DisputeStep(id: string, refund: int)
    | ResolveStep(id: string)
    | TopUpStep(id: string, cents: int)
    | Disconnect
    | Recover

  /** The order after a settlement: reconciled, and with the next milestone started. */
  function AfterSettle(o: Order, id: string, anomalies: seq<string>): Order {
    o.(milestones := Advance(Reconciled(o.milestones, id, anomalies), id))
  }

  /** Completion releases the reservation. */
  function RailAfter(o: Order, rail: Rail): Rail {
    if AllSettled(o.milestones) && o.status == Completed && rail == Attached then Released else rail
  }

  /** A step; a refused call changes nothing. */
  function Apply(b: Book, s: Step): Book {
    match s
    case SettleStep(id, summary, anomalies) => (
      match Settle(b.order, id, summary)
      case Ok((o, e)) =>
        var done := AfterSettle(o, id, anomalies);
        Book(done, RailAfter(done, b.rail), b.entries + [e])
      case Err(_) => b)
    case UsageStep(id, c) => (
      match Charge(b.order, id, c) case Ok(o) => b.(order := o) case Err(_) => b)
    case DisputeStep(id, refund) => (
      match Dispute(b.order, id, refund)
      case Ok((o, x, y)) => b.(order := o, entries := b.entries + [x, y])
      case Err(_) => b)
    case ResolveStep(id) => (
      match Resolve(b.order, id) case Ok(o) => b.(order := o) case Err(_) => b)
    case TopUpStep(id, cents) => (
      match TopUp(b.order, id, cents) case Ok(o) => b.(order := o) case Err(_) => b)
    case Disconnect => if b.rail == Attached then b.(order := Disconnected(b.order)) else b
    case Recover => if b.rail == Attached then b.(order := Resumed(b.order)) else b
  }

  function Run(b: Book, steps: seq<Step>): Book {
    if steps == [] then b else Apply(Run(b, steps[..|steps| - 1]), steps[|steps| - 1])
  }

  ghost predicate Distinct(ms: seq<Milestone>) {
    forall i, j :: 0 <= i < j < |ms| ==> ms[i].id != ms[j].id
  }

  /** A new order as the marketplace means it: distinct milestone ids and no negative amounts. */
  ghost predicate Fresh(b: Book) {
    && b.entries == [] && b.rail != Released
    && b.order.status == OrderStatus.Running && |b.order.milestones| > 0 && Distinct(b.order.milestones)
    && forall i :: 0 <= i < |b.order.milestones| ==>
         var m := b.order.milestones[i];
         m.basePrice >= 0 && m.settled == 0 && m.dispute == NoDispute && m.charges == [] && m.flags == [] &&
         m.state == if i == 0 then MilestoneState.Running else Pending
  }

  // ---- What the ledger says about one milestone ----

  predicate IsSettlement(e: LedgerEntry) { e.kind == ProviderPayout || e.kind == PlatformExposure }

  function Count(entries: seq<LedgerEntry>, id: string, p: LedgerEntry -> bool): nat {
    if entries == [] then 0
    else
      var e := entries[|entries| - 1];
      Count(entries[..|entries| - 1], id, p) + if e.milestone == id && p(e) then 1 else 0
  }

  function Sum(entries: seq<LedgerEntry>, p: LedgerEntry -> bool): int {
    if entries == [] then 0
    else
      var e := entries[|entries| - 1];
      Sum(entries[..|entries| - 1], p) + if p(e) then e.amount else 0
  }

  function Settlements(entries: seq<LedgerEntry>, id: string): nat { Count(entries, id, IsSettlement) }

  predicate IsRefund(e: LedgerEntry) { e.kind == BuyerReimbursement }

  predicate IsRecovery(e: LedgerEntry) { e.kind == ProviderRecovery }

  function Disputes(entries: seq<LedgerEntry>, id: string): nat { Count(entries, id, IsRefund) }

  /** What the buyer's money currently stands behind: the prices of the settled milestones. */
  function Held(ms: seq<Milestone>): int {
    if ms == [] then 0
    else Held(ms[..|ms| - 1]) + if ms[|ms| - 1].state == Settled then ms[|ms| - 1].basePrice else 0
  }

  /** Entry counts agree with the state of a milestone. */
  ghost predicate Counted(m: Milestone, es: seq<LedgerEntry>) {
    && m.basePrice >= 0
    && (m.state == Settled ==> m.settled == m.basePrice)
    && Settlements(es, m.id) == Disputes(es, m.id) + (if m.state == Settled then 1 else 0)
  }

  /** The ledger agrees with the order. */
  ghost predicate Balanced(b: Book) {
    && Distinct(b.order.milestones)
    && (forall i :: 0 <= i < |b.order.milestones| ==> Counted(b.order.milestones[i], b.entries))
    && Sum(b.entries, IsRefund) == Sum(b.entries, IsRecovery)
    && Sum(b.entries, IsSettlement) >= Sum(b.entries, IsRefund) + Held(b.order.milestones)
  }

  /** The parts of the milestones the ledger is about are the same. */
  ghost predicate SameMoney(ms: seq<Milestone>, ns: seq<Milestone>) {
    && |ms| == |ns|
    && forall i :: 0 <= i < |ms| ==>
         && ms[i].id == ns[i].id && ms[i].basePrice == ns[i].basePrice && ms[i].settled == ns[i].settled
         && (ms[i].state == Settled <==> ns[i].state == Settled)
  }

  lemma {:induction false} HeldSame(ms: seq<Milestone>, ns: seq<Milestone>)
    requires SameMoney(ms, ns)
    ensures Held(ms) == Held(ns)
  {
    if ms != [] {
      HeldSame(ms[..|ms| - 1], ns[..|ns| - 1]);
    }
  }

  /** Settling or reopening one milestone changes what is held by its price. */
  lemma {:induction false} HeldUpdate(ms: seq<Milestone>, i: nat, m: Milestone)
    requires i < |ms| && m.basePrice == ms[i].basePrice
    ensures Held(ms[i := m]) == Held(ms) +
            (if m.state == Settled then m.basePrice else 0) - (if ms[i].state == Settled then m.basePrice else 0)
  {
    var n := |ms| - 1;
    if i == n {
      assert ms[i := m][..n] == ms[..n];
    } else {
      assert ms[i := m][..n] == ms[..n][i := m];
      HeldUpdate(ms[..n], i, m);
    }
  }

  lemma CountSnoc(entries: seq<LedgerEntry>, e: LedgerEntry, id: string, p: LedgerEntry -> bool)
    ensures Count(entries + [e], id, p) == Count(entries, id, p) + if e.milestone == id && p(e) then 1 else 0
    ensures Sum(entries + [e], p) == Sum(entries, p) + if p(e) then e.amount else 0
  {
  }

  lemma FindDistinct(ms: seq<Milestone>, id: string)
    requires Distinct(ms)
    ensures forall j :: 0 <= j < |ms| && ms[j].id == id ==> j == Find(ms, id)
  {
  }

  lemma SettleSameMoney(ms: seq<Milestone>, id: string, anomalies: seq<string>)
    ensures SameMoney(ms, Advance(Reconciled(ms, id, anomalies), id))
  {
  }

  /** Milestones that agree in money terms agree with the same ledger. */
  lemma CarryOver(b: Book, o: Order, rail: Rail)
    requires Balanced(b) && SameMoney(b.order.milestones, o.milestones)
    ensures Balanced(Book(o, rail, b.entries))
  {
    HeldSame(b.order.milestones, o.milestones);
    forall i | 0 <= i < |o.milestones|
      ensures Counted(o.milestones[i], b.entries)
    {
      assert Counted(b.order.milestones[i], b.entries);
    }
  }

  lemma SettleCounts(m: Milestone, es: seq<LedgerEntry>, e: LedgerEntry, after: Milestone)
    requires Counted(m, es) && IsSettlement(e)
    requires if e.milestone == m.id then m.state != Settled && after.state == Settled && after.id == m.id &&
                                         after.settled == after.basePrice == m.basePrice else after == m
    ensures Counted(after, es + [e])
  {
  }

  /** The settlement itself, before the next milestone is started. */
  lemma BalancedSettle(b: Book, id: string, summary: string)
    requires Balanced(b) && Settle(b.order, id, summary).Ok?
    ensures var (o, e) := Settle(b.order, id, summary).value; Balanced(Book(o, b.rail, b.entries + [e]))
  {
    var (o, e) := Settle(b.order, id, summary).value;
    var ms, es := b.order.milestones, b.entries;
    var i := Find(ms, id);
    HeldUpdate(ms, i, o.milestones[i]);
    CountSnoc(es, e, id, IsSettlement);
    CountSnoc(es, e, id, IsRefund);
    CountSnoc(es, e, id, IsRecovery);
    forall j | 0 <= j < |ms|
      ensures Counted(o.milestones[j], es + [e])
    {
      assert Counted(ms[j], es);
      SettleCounts(ms[j], es, e, o.milestones[j]);
    }
  }

  lemma DisputeCounts(m: Milestone, es: seq<LedgerEntry>, x: LedgerEntry, y: LedgerEntry, after: Milestone)
    requires Counted(m, es) && IsRefund(x) && IsRecovery(y) && x.milestone == y.milestone
    requires if x.milestone == m.id then m.state == Settled && after.state != Settled && after.id == m.id &&
                                         after.basePrice == m.basePrice else after == m
    ensures Counted(after, es + [x] + [y])
  {
    CountSnoc(es, x, m.id, IsSettlement);
    CountSnoc(es, x, m.id, IsRefund);
    CountSnoc(es + [x], y, m.id, IsSettlement);
    CountSnoc(es + [x], y, m.id, IsRefund);
  }

  lemma BalancedDispute(b: Book, id: string, refund: int)
    requires Balanced(b) && Dispute(b.order, id, refund).Ok?
    ensures Balanced(Apply(b, DisputeStep(id, refund)))
  {
    var (o, x, y) := Dispute(b.order, id, refund).value;
    var ms, es := b.order.milestones, b.entries;
    var i := Find(ms, id);
    HeldUpdate(ms, i, o.milestones[i]);
    assert es + [x, y] == es + [x] + [y];
    CountSnoc(es, x, id, IsSettlement);
    CountSnoc(es + [x], y, id, IsSettlement);
    CountSnoc(es, x, id, IsRefund);
    CountSnoc(es + [x], y, id, IsRefund);
    CountSnoc(es, x, id, IsRecovery);
    CountSnoc(es + [x], y, id, IsRecovery);
    assert Counted(ms[i], es);
    forall j | 0 <= j < |ms|
      ensures Counted(o.milestones[j], es + [x] + [y])
    {
      assert Counted(ms[j], es);
      DisputeCounts(ms[j], es, x, y, o.milestones[j]);
    }
  }

  /** The other five steps move no money. */
  lemma ChangesSameMoney(o: Order, id: string, c: UsageCharge, cents: int)
    ensures Charge(o, id, c).Ok? ==> SameMoney(o.milestones, Charge(o, id, c).value.milestones)
    ensures Resolve(o, id).Ok? ==> SameMoney(o.milestones, Resolve(o, id).value.milestones)
    ensures TopUp(o, id, cents).Ok? ==> SameMoney(o.milestones, TopUp(o, id, cents).value.milestones)
  {
  }

  lemma OutagesSameMoney(o: Order)
    ensures SameMoney(o.milestones, Disconnected(o).milestones) && SameMoney(o.milestones, Resumed(o).milestones)
  {
  }

  lemma OtherSameMoney(b: Book, s: Step)
    requires !s.SettleStep? && !s.DisputeStep?
    ensures SameMoney(b.order.milestones, Apply(b, s).order.milestones) && Apply(b, s).entries == b.entries
  {
    OutagesSameMoney(b.order);
    match s
    case UsageStep(id, c) => ChangesSameMoney(b.order, id, c, 0);
    case ResolveStep(id) => ChangesSameMoney(b.order, id, UsageCharge("", 0, ""), 0);
    case TopUpStep(id, cents) => ChangesSameMoney(b.order, id, UsageCharge("", 0, ""), cents);
    case _ =>
  }

  lemma StepBalanced(b: Book, s: Step)
    requires Balanced(b)
    ensures Balanced(Apply(b, s))
  {
    match s
    case SettleStep(id, summary, anomalies) =>
      if Settle(b.order, id, summary).Ok? {
        BalancedSettle(b, id, summary);
        var (o, e) := Settle(b.order, id, summary).value;
        SettleSameMoney(o.milestones, id, anomalies);
        CarryOver(Book(o, b.rail, b.entries + [e]), AfterSettle(o, id, anomalies), Apply(b, s).rail);
      }
    case DisputeStep(id, refund) =>
      if Dispute(b.order, id, refund).Ok? {
        BalancedDispute(b, id, refund);
      }
    case _ =>
      OtherSameMoney(b, s);
      CarryOver(b, Apply(b, s).order, Apply(b, s).rail);
  }

  lemma {:induction false} RunBalanced(b: Book, steps: seq<Step>)
    requires Balanced(b)
    ensures Balanced(Run(b, steps))
  {
    if steps != [] {
      RunBalanced(b, steps[..|steps| - 1]);
      StepBalanced(Run(b, steps[..|steps| - 1]), steps[|steps| - 1]);
    }
  }

  lemma {:induction false} HeldNonNegative(ms: seq<Milestone>)
    requires forall i :: 0 <= i < |ms| ==> ms[i].basePrice >= 0
    ensures Held(ms) >= 0
  {
    if ms != [] {
      HeldNonNegative(ms[..|ms| - 1]);
    }
  }

  lemma {:induction false} NothingHeld(ms: seq<Milestone>)
    requires forall i :: 0 <= i < |ms| ==> ms[i].state != Settled
    ensures Held(ms) == 0
  {
    if ms != [] {
      NothingHeld(ms[..|ms| - 1]);
    }
  }

  /** In every run of all seven steps, each milestone has been settled once more than it has been
      disputed if it is settled now, and as often otherwise; refunds equal recoveries and never exceed
      what was paid out. */
  lemma LedgerBalances(b: Book, steps: seq<Step>)
    requires Fresh(b)
    ensures var r := Run(b, steps);
            && (forall i :: 0 <= i < |r.order.milestones| ==>
                  var m := r.order.milestones[i];
                  Settlements(r.entries, m.id) - Disputes(r.entries, m.id) == if m.state == Settled then 1 else 0)
            && Sum(r.entries, IsRefund) == Sum(r.entries, IsRecovery)
            && Sum(r.entries, IsRefund) <= Sum(r.entries, IsSettlement)
  {
    NothingHeld(b.order.milestones);
    RunBalanced(b, steps);
    var r := Run(b, steps);
    forall i | 0 <= i < |r.order.milestones|
      ensures Counted(r.order.milestones[i], r.entries)
    {
    }
    HeldNonNegative(r.order.milestones);
  }

  // ---- Runs without disputes ----

  ghost predicate DisputeFree(steps: seq<Step>) {
    forall i :: 0 <= i < |steps| ==> !steps[i].DisputeStep?
  }

  /** The first k milestones are settled, milestone k (if any) is under way and the others wait. */
  ghost predicate Stage(ms: seq<Milestone>, k: nat) {
    && k <= |ms| && Distinct(ms)
    && (forall j :: 0 <= j < k ==> ms[j].state == Settled)
    && (k < |ms| ==> Payable(ms[k]))
    && (forall j :: k < j < |ms| ==> ms[j].state == Pending)
  }

  /** The milestones are at stage k.  The order is completed exactly when all are settled, and then no longer
      holds a reservation; an order waiting for budget has a paused milestone only if that is overspent. */
  ghost predicate At(b: Book, k: nat) {
    var ms := b.order.milestones;
    && |ms| > 0 && Stage(ms, k)
    && b.order.status in {OrderStatus.Running, AwaitingBudget, AwaitingPaymentRail, Completed}
    && (b.order.status == Completed <==> k == |ms|)
    && (b.order.status == Completed ==> b.rail != Attached)
    && (b.order.status == AwaitingBudget && k < |ms| && ms[k].state == Paused ==> Spend(ms[k]) > ms[k].budget)
  }

  lemma {:induction false} NextAfter(ms: seq<Milestone>, id: string, k: nat, from: nat, found: bool)
    requires Distinct(ms) && k < |ms| && ms[k].id == id && from <= |ms| && (k < from ==> found) && from <= k + 1
    requires (forall j :: 0 <= j <= k ==> ms[j].state == Settled) &&
             (forall j :: k < j < |ms| ==> ms[j].state == Pending)
    ensures NextPending(ms, id, from, found) == k + 1
    decreases |ms| - from
  {
    if from <= k {
      NextAfter(ms, id, k, from + 1, found || from == k);
    }
  }

  lemma StageAdvances(ms: seq<Milestone>, k: nat, m: Milestone, anomalies: seq<string>)
    requires Stage(ms, k) && k < |ms| && m.id == ms[k].id && m.state == Settled
    ensures var ns := Advance(Reconciled(ms[k := m], m.id, anomalies), m.id);
            Stage(ns, k + 1) && |ns| == |ms| && (k + 1 < |ns| ==> ns[k + 1].state == MilestoneState.Running)
  {
    var ss := ms[k := m];
    FindDistinct(ss, m.id);
    NextAfter(Reconciled(ss, m.id, anomalies), m.id, k, 0, false);
  }

  lemma SettleMoves(b: Book, k: nat, id: string, summary: string, anomalies: seq<string>) returns (n: nat)
    requires At(b, k)
    ensures At(Apply(b, SettleStep(id, summary, anomalies)), n) && n >= k
  {
    n := k;
    if Settle(b.order, id, summary).Ok? {
      n := k + 1;
      var (o, e) := Settle(b.order, id, summary).value;
      assert Find(b.order.milestones, id) == k;
      StageAdvances(b.order.milestones, k, o.milestones[k], anomalies);
      assert k + 1 < |o.milestones| ==> o.milestones[k + 1].state == Pending;
    }
  }

  lemma TotalSnoc(cs: seq<UsageCharge>, c: UsageCharge)
    ensures Total(cs + [c]) == Total(cs) + c.amount
  {
  }

  /** Only the milestone under way takes charges, and one that leaves it within budget was not
      waiting for budget. */
  lemma UsageStays(b: Book, k: nat, id: string, c: UsageCharge)
    requires At(b, k)
    ensures At(Apply(b, UsageStep(id, c)), k)
    ensures var ms, ns := b.order.milestones, Apply(b, UsageStep(id, c)).order.milestones;
            && |ns| == |ms| && (forall j :: 0 <= j < |ms| && j != k ==> ns[j] == ms[j])
            && (Charge(b.order, id, c).Ok? ==> k < |ms| && ms[k].id == id && ns[k].charges == ms[k].charges + [c])
  {
    if Charge(b.order, id, c).Ok? {
      assert Find(b.order.milestones, id) == k;
    }
  }

  lemma TopUpStays(b: Book, k: nat, id: string, cents: int)
    requires At(b, k)
    ensures At(Apply(b, TopUpStep(id, cents)), k)
  {
  }

  lemma ResolveStays(b: Book, k: nat, id: string)
    requires At(b, k)
    ensures At(Apply(b, ResolveStep(id)), k)
  {
  }

  lemma RailStays(b: Book, k: nat)
    requires At(b, k)
    ensures At(Apply(b, Disconnect), k) && At(Apply(b, Recover), k)
  {
  }

  lemma StepMoves(b: Book, k: nat, s: Step) returns (n: nat)
    requires At(b, k) && !s.DisputeStep?
    ensures At(Apply(b, s), n) && n >= k
  {
    n := k;
    match s
    case SettleStep(id, summary, anomalies) => n := SettleMoves(b, k, id, summary, anomalies);
    case UsageStep(id, c) => UsageStays(b, k, id, c);
    case TopUpStep(id, cents) => TopUpStays(b, k, id, cents);
    case ResolveStep(id) => ResolveStays(b, k, id);
    case Disconnect => RailStays(b, k);
    case Recover => RailStays(b, k);
  }

  /** After an accepted dispute the milestones still are a settled prefix, one under way and a waiting suffix
      exactly if the order was completed and its last milestone is the disputed one. */
  lemma StageAfterDispute(b: Book, k: nat, id: string, refund: int)
    requires At(b, k) && Dispute(b.order, id, refund).Ok?
    ensures var ns := Apply(b, DisputeStep(id, refund)).order.milestones;
            (exists n :: Stage(ns, n)) <==>
            b.order.status == Completed && Find(b.order.milestones, id) == |b.order.milestones| - 1
  {
    var ms, i := b.order.milestones, Find(b.order.milestones, id);
    var ns := Apply(b, DisputeStep(id, refund)).order.milestones;
    assert i < k && ns == ms[i := ns[i]] && ns[i].state == Paused && ns[i].id == ms[i].id;
    if k == |ms| && i == |ms| - 1 {
      assert Stage(ns, i);
    } else {
      forall n ensures !Stage(ns, n) {
        OnlyAt(ns, n, i, if k < |ms| then k else |ms| - 1);
      }
    }
  }

  /** A paused milestone with one behind it that is not waiting fits nowhere. */
  lemma OnlyAt(ns: seq<Milestone>, n: nat, i: nat, j: nat)
    requires i < j < |ns| && ns[i].state == Paused && ns[j].state != Pending
    ensures !Stage(ns, n)
  {
  }

  /** In that case the status is wrong: it still says completed.  So right after an accepted dispute milestones and
      status do not agree. */
  lemma DisputeBreaks(b: Book, k: nat, id: string, refund: int, n: nat)
    requires At(b, k) && Dispute(b.order, id, refund).Ok?
    ensures var o := Apply(b, DisputeStep(id, refund)).order;
            && o.status == b.order.status && !AllSettled(o.milestones)
            && !At(Apply(b, DisputeStep(id, refund)), n)
  {
    var ms, i := b.order.milestones, Find(b.order.milestones, id);
    var ns := Apply(b, DisputeStep(id, refund)).order.milestones;
    assert i < k && ns[i].state == Paused;
    if i < |ms| - 1 {
      OnlyAt(ns, n, i, if k < |ms| then k else |ms| - 1);
    }
  }

  lemma {:induction false} RunMoves(b: Book, k: nat, steps: seq<Step>) returns (n: nat)
    requires At(b, k) && DisputeFree(steps)
    ensures At(Run(b, steps), n) && n >= k
  {
    if steps == [] {
      n := k;
    } else {
      var t := steps[..|steps| - 1];
      assert forall i :: 0 <= i < |t| ==> t[i] == steps[i];
      n := RunMoves(b, k, t);
      n := StepMoves(Run(b, t), n, steps[|steps| - 1]);
    }
  }

  /** In every run without disputes the milestones are a settled prefix, at most one under way, and a
      waiting suffix; the status tells completion; an order waiting for budget never reports an overage
      that is not positive. */
  lemma Lifecycle(b: Book, steps: seq<Step>) returns (k: nat)
    requires Fresh(b) && DisputeFree(steps)
    ensures At(Run(b, steps), k)
    ensures BudgetWallInfo(Run(b, steps).order).Wall? ==> BudgetWallInfo(Run(b, steps).order).overage > 0
  {
    k := RunMoves(b, 0, steps);
  }

  lemma {:induction false} RunAppend(b: Book, s: seq<Step>, t: seq<Step>)
    ensures Run(b, s + t) == Run(Run(b, s), t)
  {
    if t == [] {
      assert s + t == s;
    } else {
      RunAppend(b, s, t[..|t| - 1]);
      assert (s + t)[..|s + t| - 1] == s + t[..|t| - 1];
    }
  }

  /** Completion is final: whatever happens later, disconnects included, the order stays completed,
      all its milestones stay settled, and its reservation stays released. */
  lemma CompletionIsFinal(b: Book, steps: seq<Step>, later: seq<Step>)
    requires Fresh(b) && DisputeFree(steps) && DisputeFree(later)
    requires Run(b, steps).order.status == Completed
    ensures var r := Run(b, steps + later);
            r.order.status == Completed && AllSettled(r.order.milestones) && r.rail == Run(b, steps).rail &&
            r.rail == (if b.rail == Attached then Released else b.rail)
  {
    var k := Lifecycle(b, steps);
    RunAppend(b, steps, later);
    var n := RunMoves(Run(b, steps), k, later);
    RunLength(Run(b, steps), later);
    RailRuns(b, steps);
    RailRuns(Run(b, steps), later);
  }

  lemma {:induction false} RunLength(b: Book, steps: seq<Step>)
    ensures |Run(b, steps).order.milestones| == |b.order.milestones|
  {
    if steps != [] {
      RunLength(b, steps[..|steps| - 1]);
    }
  }

  /** A reservation is released at most once, and nothing attaches it again. */
  lemma {:induction false} RailRuns(b: Book, steps: seq<Step>)
    ensures b.rail != Attached ==> Run(b, steps).rail == b.rail
    ensures b.rail == Attached ==> Run(b, steps).rail in {Attached, Released}
  {
    if steps != [] {
      RailRuns(b, steps[..|steps| - 1]);
    }
  }

  // ---- Disconnect and recovery ----

  predicate NoPaused(ms: seq<Milestone>) {
    forall i :: 0 <= i < |ms| ==> ms[i].state != Paused
  }

  /** A disconnect followed by a recovery gives status and milestone states back exactly when the order
      was running with nothing paused.  A budget wall does not survive it. */
  lemma OutageRestores(o: Order)
    ensures var r := Resumed(Disconnected(o));
            (r.status == o.status && forall i :: 0 <= i < |o.milestones| ==>
             r.milestones[i].state == o.milestones[i].state)
            <==> (o.status == OrderStatus.Running && NoPaused(o.milestones))
  {
  }

  /** An outage changes nothing but status, states and flags. */
  lemma OutageKeepsMoney(o: Order)
    ensures SameMoney(o.milestones, Resumed(Disconnected(o)).milestones)
    ensures forall i :: 0 <= i < |o.milestones| ==>
              var m, n := o.milestones[i], Resumed(Disconnected(o)).milestones[i];
              n == m.(state := n.state, flags := n.flags)
  {
  }
}
