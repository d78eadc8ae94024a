/** The records of the disputes, beside the orders and the ledger: what is recorded, how a record is resolved, and
    what every run keeps between the three. */
module DisputeRecords {
  import opened Workflow
  import opened Platform
  import Life = OrderRuns
  import Lives = PlatformRuns
  import Effects = OrderEffects

  // ---- One call ----

  /** An accepted dispute is recorded, unresolved, with the order, the milestone and the refund it names. */
  lemma OpenMeans(s: State, n: nat, id: string, refund: int)
    requires n < |s.orders|
    ensures var t := DisputedAt(s, n, id, refund);
            if Dispute(s.orders[n], id, refund).Err? then t == s
            else && t.disputes == s.disputes + [DisputeRecord(n, id, refund, false)]
                 && t.orders == s.orders[n := Dispute(s.orders[n], id, refund).value.0]
                 && |t.entries| == |s.entries| + 2 && t.entries[..|s.entries|] == s.entries
                 && t.entries[|s.entries|].amount == t.entries[|s.entries| + 1].amount == refund
                 && t.desk == s.desk && t.rfqs == s.rfqs && t.bids == s.bids && t.credited == s.credited
  {
  }

  /** The milestone a record is about is under an open or frozen dispute. */
  ghost predicate Disputed(s: State, r: DisputeRecord) {
    r.order < |s.orders| && DisputedIn(s.orders[r.order].milestones, r.milestone)
  }

  ghost predicate DisputedIn(ms: seq<Milestone>, id: string) {
    exists i :: 0 <= i < |ms| && Effects.FirstWith(ms, id, i) && ms[i].dispute in {Frozen, Open}
  }

  lemma ResolvableIs(s: State, d: nat)
    requires d < |s.disputes|
    ensures Resolvable(s, d) <==> Disputed(s, s.disputes[d])
  {
    var r := s.disputes[d];
    if r.order < |s.orders| {
      var ms := s.orders[r.order].milestones;
      var i := Find(ms, r.milestone);
      assert i < |ms| ==> Effects.FirstWith(ms, r.milestone, i);
    }
  }

  /** Resolving goes by the state of the milestone and never by that of the record.  If it succeeds, this record and
      this milestone are resolved and nothing else is changed. */
  lemma ResolveMeans(s: State, d: nat)
    requires d < |s.disputes|
    ensures var t, r := ResolvedDispute(s, d), s.disputes[d];
            if !Disputed(s, r) then t == s
            else && t.disputes == s.disputes[d := r.(resolved := true)]
                 && t == s.(disputes := t.disputes, orders := t.orders) && |t.orders| == |s.orders|
                 && !Disputed(t, r) && forall n :: 0 <= n < |s.orders| && n != r.order ==> t.orders[n] == s.orders[n]
  {
    ResolvableIs(s, d);
    if Resolvable(s, d) {
      var t, r := ResolvedDispute(s, d), s.disputes[d];
      var ms, ns := s.orders[r.order].milestones, t.orders[r.order].milestones;
      var i := Find(ms, r.milestone);
      assert forall j :: 0 <= j < |ms| ==> ns[j].id == ms[j].id;
      assert Effects.FirstWith(ns, r.milestone, i) && ns[i].dispute == Resolved;
      forall j | 0 <= j < |ns| && Effects.FirstWith(ns, r.milestone, j) ensures j == i {
      }
    }
  }

  // ---- Records and refunds ----

  function Refunds(es: seq<LedgerEntry>): seq<LedgerEntry> {
    if es == [] then []
    else Refunds(es[..|es| - 1]) + if Life.IsRefund(es[|es| - 1]) then [es[|es| - 1]] else []
  }

  lemma RefundsSnoc(es: seq<LedgerEntry>, e: LedgerEntry)
    ensures Refunds(es + [e]) == Refunds(es) + if Life.IsRefund(e) then [e] else []
  {
    assert (es + [e])[..|es|] == es;
  }

  /** The records are, one by one, the refunds in the ledger. */
  ghost predicate Booked(s: State) {
    && |Refunds(s.entries)| == |s.disputes|
    && forall d :: 0 <= d < |s.disputes| ==>
         var r := s.disputes[d];
         Refunds(s.entries)[d] == LedgerEntry(BuyerReimbursement, r.order, r.milestone, r.refund)
  }

  lemma BookedSettle(s: State, n: nat, id: string, summary: string, anomalies: seq<string>)
    requires Booked(s)
    ensures Booked(SettledAt(s, n, id, summary, anomalies))
  {
    if n < |s.orders| && Settle(s.orders[n], id, summary).Ok? {
      RefundsSnoc(s.entries, Settle(s.orders[n], id, summary).value.1);
    }
  }

  lemma BookedDispute(s: State, n: nat, id: string, refund: int)
    requires Booked(s) && (n < |s.orders| ==> s.orders[n].id == n)
    ensures Booked(DisputedAt(s, n, id, refund))
  {
    if n < |s.orders| && Dispute(s.orders[n], id, refund).Ok? {
      var (_, x, y) := Dispute(s.orders[n], id, refund).value;
      RefundsSnoc(s.entries, x);
      RefundsSnoc(s.entries + [x], y);
    }
  }

  lemma OthersRecord(s: State, e: Event)
    requires !e.OpenDispute? && !e.ResolveDispute?
    ensures Apply(s, e).disputes == s.disputes
  {
  }

  /** An event leaves the records as they are, up to their resolution. */
  lemma RecordsKept(s: State, e: Event)
    ensures |s.disputes| <= |Apply(s, e).disputes|
    ensures !e.OpenDispute? ==> |s.disputes| == |Apply(s, e).disputes|
    ensures forall d :: 0 <= d < |s.disputes| ==>
              var r := Apply(s, e).disputes[d];
              r == s.disputes[d].(resolved := r.resolved) && (s.disputes[d].resolved ==> r.resolved)
  {
    if !e.OpenDispute? && !e.ResolveDispute? {
      OthersRecord(s, e);
    }
  }

  lemma BookedOther(s: State, e: Event)
    requires !e.SettleMilestone? && !e.OpenDispute?
    ensures Apply(s, e).entries == s.entries
  {
  }

  lemma BookedStep(s: State, e: Event)
    requires Booked(s) && Lives.Linked(s.orders, s.desk)
    ensures Booked(Apply(s, e))
  {
    match e
    case SettleMilestone(n, id, summary, anomalies) => BookedSettle(s, n, id, summary, anomalies);
    case OpenDispute(n, id, refund) => BookedDispute(s, n, id, refund);
    case _ =>
      RecordsKept(s, e);
      BookedOther(s, e);
  }

  // ---- Frozen milestones have an unresolved record ----

  predicate Unresolved(r: DisputeRecord, n: nat, id: string) { r.order == n && r.milestone == id && !r.resolved }

  ghost predicate HasUnresolved(rs: seq<DisputeRecord>, n: nat, id: string) {
    exists d :: 0 <= d < |rs| && Unresolved(rs[d], n, id)
  }

  /** The milestone is not disputed, or is the first with its id and has an unresolved record. */
  ghost predicate Known(rs: seq<DisputeRecord>, n: nat, ms: seq<Milestone>, i: nat)
    requires i < |ms|
  {
    ms[i].dispute in {Frozen, Open} ==> Effects.FirstWith(ms, ms[i].id, i) && HasUnresolved(rs, n, ms[i].id)
  }

  ghost predicate KnownAll(rs: seq<DisputeRecord>, n: nat, ms: seq<Milestone>) {
    forall i :: 0 <= i < |ms| ==> Known(rs, n, ms, i)
  }

  ghost predicate AllKnown(s: State) {
    forall n :: 0 <= n < |s.orders| ==> KnownAll(s.disputes, n, s.orders[n].milestones)
  }

  ghost predicate SameDisputes(ms: seq<Milestone>, ns: seq<Milestone>) {
    |ns| == |ms| && forall i :: 0 <= i < |ms| ==> ns[i].id == ms[i].id && ns[i].dispute == ms[i].dispute
  }

  lemma KnownSame(rs: seq<DisputeRecord>, n: nat, ms: seq<Milestone>, ns: seq<Milestone>)
    requires KnownAll(rs, n, ms) && SameDisputes(ms, ns)
    ensures KnownAll(rs, n, ns)
  {
    forall i | 0 <= i < |ns| ensures Known(rs, n, ns, i) {
      assert Known(rs, n, ms, i);
    }
  }

  lemma SettleSame(o: Order, id: string, summary: string, anomalies: seq<string>)
    requires Settle(o, id, summary).Ok?
    ensures SameDisputes(o.milestones, Life.AfterSettle(Settle(o, id, summary).value.0, id, anomalies).milestones)
  {
  }

  lemma ChangeSame(o: Order, id: string, c: UsageCharge, cents: int)
    ensures Charge(o, id, c).Ok? ==> SameDisputes(o.milestones, Charge(o, id, c).value.milestones)
    ensures TopUp(o, id, cents).Ok? ==> SameDisputes(o.milestones, TopUp(o, id, cents).value.milestones)
  {
  }

  lemma OutageSame(o: Order)
    ensures SameDisputes(o.milestones, Disconnected(o).milestones) && SameDisputes(o.milestones, Resumed(o).milestones)
  {
  }

  /** No step but a dispute and a resolution touches a dispute. */
  lemma StepSame(b: Life.Book, step: Life.Step)
    requires !step.DisputeStep? && !step.ResolveStep?
    ensures SameDisputes(b.order.milestones, Life.Apply(b, step).order.milestones)
  {
    match step
    case SettleStep(id, summary, anomalies) =>
      if Settle(b.order, id, summary).Ok? {
        SettleSame(b.order, id, summary, anomalies);
      }
    case UsageStep(id, c) => ChangeSame(b.order, id, c, 0);
    case TopUpStep(id, cents) => ChangeSame(b.order, id, UsageCharge("", 0, ""), cents);
    case _ => OutageSame(b.order);
  }

  lemma OrderSame(s: State, e: Event, n: nat)
    requires Lives.Linked(s.orders, s.desk) && n < |s.orders| && !e.OpenDispute? && !e.ResolveDispute?
    ensures |s.orders| <= |Apply(s, e).orders|
    ensures SameDisputes(s.orders[n].milestones, Apply(s, e).orders[n].milestones)
  {
    Lives.StepGrows(s, e);
    Lives.StepLives(s, e, n);
    var step := Lives.StepOn(s, e, n);
    if step.Some? {
      StepSame(Lives.BookOf(s, n), step.value);
    }
  }

  lemma KnownDispute(s: State, n: nat, id: string, refund: int)
    requires AllKnown(s)
    ensures AllKnown(DisputedAt(s, n, id, refund))
  {
    if n < |s.orders| && Dispute(s.orders[n], id, refund).Ok? {
      var t := DisputedAt(s, n, id, refund);
      var r := DisputeRecord(n, id, refund, false);
      assert t.disputes[|s.disputes|] == r;
      forall m | 0 <= m < |t.orders| ensures KnownAll(t.disputes, m, t.orders[m].milestones) {
        var ms, ns := s.orders[m].milestones, t.orders[m].milestones;
        assert KnownAll(s.disputes, m, ms);
        forall i | 0 <= i < |ns| ensures Known(t.disputes, m, ns, i) {
          assert Known(s.disputes, m, ms, i);
          assert forall d :: 0 <= d < |s.disputes| ==> t.disputes[d] == s.disputes[d];
          if m == n && i == Find(ms, id) {
            assert Unresolved(t.disputes[|s.disputes|], n, id);
          }
        }
      }
    }
  }

  lemma KnownResolve(s: State, d: nat)
    requires AllKnown(s)
    ensures AllKnown(ResolvedDispute(s, d))
  {
    if Resolvable(s, d) {
      var t, r := ResolvedDispute(s, d), s.disputes[d];
      forall m | 0 <= m < |t.orders| ensures KnownAll(t.disputes, m, t.orders[m].milestones) {
        var ms, ns := s.orders[m].milestones, t.orders[m].milestones;
        assert KnownAll(s.disputes, m, ms);
        forall i | 0 <= i < |ns| ensures Known(t.disputes, m, ns, i) {
          assert Known(s.disputes, m, ms, i);
          if ns[i].dispute in {Frozen, Open} {
            var k :| 0 <= k < |s.disputes| && Unresolved(s.disputes[k], m, ms[i].id);
            assert k != d;
            assert Unresolved(t.disputes[k], m, ns[i].id);
          }
        }
      }
    }
  }

  lemma KnownOthers(s: State, e: Event)
    requires AllKnown(s) && Lives.Linked(s.orders, s.desk) && !e.OpenDispute? && !e.ResolveDispute?
    ensures AllKnown(Apply(s, e))
  {
    var t := Apply(s, e);
    OthersRecord(s, e);
    forall n | 0 <= n < |t.orders| ensures KnownAll(t.disputes, n, t.orders[n].milestones) {
      if n < |s.orders| {
        OrderSame(s, e, n);
        KnownSame(s.disputes, n, s.orders[n].milestones, t.orders[n].milestones);
      } else {
        Undisputed(s, e, n);
      }
    }
  }

  lemma Undisputed(s: State, e: Event, n: nat)
    requires Lives.Linked(s.orders, s.desk) && |s.orders| <= n < |Apply(s, e).orders|
    ensures forall i :: 0 <= i < |Apply(s, e).orders[n].milestones| ==>
              Apply(s, e).orders[n].milestones[i].dispute == NoDispute
  {
    if e.PlaceOrder? {
      Lives.PlaceLives(s, e.input);
    } else if e.Award? {
      Lives.AwardLives(s, e.rfq, e.winner, e.funding, e.carrier, e.bufferBps, e.answer);
    } else if Lives.OnOrders(e) {
      Lives.SameCount(s, e);
      assert false;
    } else {
      Lives.OtherLives(s, e);
      assert false;
    }
  }

  // ---- Runs ----

  ghost predicate InOrder(s: State) { Lives.Linked(s.orders, s.desk) && Booked(s) && AllKnown(s) }

  lemma StepInOrder(s: State, e: Event)
    requires InOrder(s)
    ensures InOrder(Apply(s, e))
  {
    Lives.StepLinked(s, e);
    BookedStep(s, e);
    match e
    case OpenDispute(n, id, refund) => KnownDispute(s, n, id, refund);
    case ResolveDispute(d) => KnownResolve(s, d);
    case _ => KnownOthers(s, e);
  }

  lemma {:induction false} RunInOrder(s: State, events: seq<Event>)
    requires InOrder(s)
    ensures InOrder(Run(s, events))
  {
    if events != [] {
      RunInOrder(s, events[..|events| - 1]);
      StepInOrder(Run(s, events[..|events| - 1]), events[|events| - 1]);
    }
  }

  /** In every run the records are, one by one, the refunds in the ledger. */
  lemma RecordsAreRefunds(limits: map<string, int>, events: seq<Event>, d: nat)
    requires d < |Run(Start(limits), events).disputes|
    ensures var s := Run(Start(limits), events);
            && |Refunds(s.entries)| == |s.disputes|
            && Refunds(s.entries)[d] == LedgerEntry(BuyerReimbursement, s.disputes[d].order, s.disputes[d].milestone,
                                                    s.disputes[d].refund)
  {
    RunInOrder(Start(limits), events);
  }

  /** In every run a milestone under a frozen dispute has an unresolved record through which it can be resolved. */
  lemma FrozenResolvable(limits: map<string, int>, events: seq<Event>, n: nat, i: nat) returns (d: nat)
    requires var s := Run(Start(limits), events);
             n < |s.orders| && i < |s.orders[n].milestones| && s.orders[n].milestones[i].dispute == Frozen
    ensures var s := Run(Start(limits), events);
            && d < |s.disputes| && !s.disputes[d].resolved && Resolvable(s, d)
            && s.disputes[d].order == n && s.disputes[d].milestone == s.orders[n].milestones[i].id
  {
    var s := Run(Start(limits), events);
    RunInOrder(Start(limits), events);
    var ms := s.orders[n].milestones;
    assert KnownAll(s.disputes, n, ms) && Known(s.disputes, n, ms, i);
    d :| 0 <= d < |s.disputes| && Unresolved(s.disputes[d], n, ms[i].id);
    assert Effects.FirstWith(ms, s.disputes[d].milestone, i);
    ResolvableIs(s, d);
  }

  /** Records are never withdrawn, and what is resolved stays resolved. */
  lemma {:induction false} RecordsStay(s: State, events: seq<Event>, d: nat)
    requires d < |s.disputes|
    ensures d < |Run(s, events).disputes|
    ensures var r := Run(s, events).disputes[d];
            r == s.disputes[d].(resolved := r.resolved) && (s.disputes[d].resolved ==> r.resolved)
  {
    if events != [] {
      RecordsStay(s, events[..|events| - 1], d);
      RecordsKept(Run(s, events[..|events| - 1]), events[|events| - 1]);
    }
  }

  lemma DisputeElsewhere(s: State, n: nat, id: string, refund: int, r: DisputeRecord)
    requires r.order < |s.orders| && !Disputed(s, r) && (n != r.order || id != r.milestone)
    ensures !Disputed(DisputedAt(s, n, id, refund), r)
  {
    if n == r.order && Dispute(s.orders[n], id, refund).Ok? {
      var ms, ns := s.orders[n].milestones, DisputedAt(s, n, id, refund).orders[n].milestones;
      assert |ns| == |ms| && forall j :: 0 <= j < |ms| ==> ns[j].id == ms[j].id;
      forall j | 0 <= j < |ns| && Effects.FirstWith(ns, r.milestone, j) ensures ns[j].dispute !in {Frozen, Open} {
        assert Effects.FirstWith(ms, r.milestone, j) && ns[j] == ms[j];
      }
    }
  }

  lemma ResolvedElsewhere(s: State, d: nat, r: DisputeRecord)
    requires r.order < |s.orders| && !Disputed(s, r)
    ensures !Disputed(ResolvedDispute(s, d), r)
  {
    if Resolvable(s, d) && s.disputes[d].order == r.order {
      var ms, ns := s.orders[r.order].milestones, ResolvedDispute(s, d).orders[r.order].milestones;
      assert |ns| == |ms| && forall j :: 0 <= j < |ms| ==> ns[j].id == ms[j].id;
      forall j | 0 <= j < |ns| && Effects.FirstWith(ns, r.milestone, j) ensures ns[j].dispute !in {Frozen, Open} {
        assert Effects.FirstWith(ms, r.milestone, j);
      }
    }
  }

  lemma SameUndisputed(ms: seq<Milestone>, ns: seq<Milestone>, id: string)
    requires SameDisputes(ms, ns) && !DisputedIn(ms, id)
    ensures !DisputedIn(ns, id)
  {
    forall j | 0 <= j < |ns| && Effects.FirstWith(ns, id, j) ensures ns[j].dispute !in {Frozen, Open} {
      assert Effects.FirstWith(ms, id, j);
    }
  }

  predicate Disputes(e: Event, r: DisputeRecord) { e.OpenDispute? && e.order == r.order && e.id == r.milestone }

  lemma StaysUndisputed(s: State, e: Event, r: DisputeRecord)
    requires Lives.Linked(s.orders, s.desk) && r.order < |s.orders| && !Disputed(s, r) && !Disputes(e, r)
    ensures !Disputed(Apply(s, e), r)
  {
    match e
    case OpenDispute(n, id, refund) => DisputeElsewhere(s, n, id, refund, r);
    case ResolveDispute(d) => ResolvedElsewhere(s, d, r);
    case _ =>
      OrderSame(s, e, r.order);
      SameUndisputed(s.orders[r.order].milestones, Apply(s, e).orders[r.order].milestones, r.milestone);
  }

  lemma {:induction false} RunUndisputed(s: State, events: seq<Event>, r: DisputeRecord)
    requires Lives.Linked(s.orders, s.desk) && r.order < |s.orders| && !Disputed(s, r)
    requires forall i :: 0 <= i < |events| ==> !Disputes(events[i], r)
    ensures !Disputed(Run(s, events), r)
  {
    if events != [] {
      RunUndisputed(s, events[..|events| - 1], r);
      Lives.RunLinked(s, events[..|events| - 1]);
      StaysUndisputed(Run(s, events[..|events| - 1]), events[|events| - 1], r);
    }
  }

  lemma {:induction false} Unmoved(s: State, events: seq<Event>, d: nat)
    requires Lives.Linked(s.orders, s.desk) && d < |s.disputes| && s.disputes[d].order < |s.orders|
    requires !Disputed(s, s.disputes[d]) && forall i :: 0 <= i < |events| ==> !Disputes(events[i], s.disputes[d])
    ensures d < |Run(s, events).disputes| && Run(s, events).disputes[d] == s.disputes[d]
  {
    if events != [] {
      var past, e := events[..|events| - 1], events[|events| - 1];
      Unmoved(s, past, d);
      RunUndisputed(s, past, s.disputes[d]);
      var t := Run(s, past);
      RecordsKept(t, e);
      if e.ResolveDispute? {
        ResolvableIs(t, d);
      } else if !e.OpenDispute? {
        OthersRecord(t, e);
      }
    }
  }

  /** A milestone disputed twice has two records and can be resolved once: the other record stays as it is, and neither
      can be resolved, in every continuation in which that milestone is not disputed again. */
  lemma LeftUnresolved(s: State, d: nat, other: nat, later: seq<Event>)
    requires Lives.Linked(s.orders, s.desk)
    requires d < |s.disputes| && other < |s.disputes| && d != other && Disputed(s, s.disputes[d])
    requires s.disputes[other].order == s.disputes[d].order && s.disputes[other].milestone == s.disputes[d].milestone
    requires forall i :: 0 <= i < |later| ==> !Disputes(later[i], s.disputes[d])
    ensures var t := Run(ResolvedDispute(s, d), later);
            && d < |t.disputes| && other < |t.disputes| && t.disputes[other] == s.disputes[other]
            && t.disputes[d].resolved && !Resolvable(t, other) && !Resolvable(t, d)
  {
    ResolveMeans(s, d);
    var u := ResolvedDispute(s, d);
    assert Apply(s, ResolveDispute(d)) == u;
    Lives.StepLinked(s, ResolveDispute(d));
    Unmoved(u, later, other);
    Unmoved(u, later, d);
    RunUndisputed(u, later, u.disputes[d]);
    RunUndisputed(u, later, u.disputes[other]);
    var t := Run(u, later);
    ResolvableIs(t, other);
    ResolvableIs(t, d);
  }
}
