/** How many active settlement bindings a provider can have. */
module ActiveBindings {
  import opened Options
  import opened Settlement
  import opened SettlementRuns
  import Overlaps

  predicate Active(d: Desk, id: nat, org: string) {
    id < |d.bindings| && d.bindings[id].provider == org && d.bindings[id].status == ActiveBinding
  }

  /** Every provider has at most one active binding. */
  ghost predicate OneActive(d: Desk) {
    forall i, j, org :: Active(d, i, org) && Active(d, j, org) ==> i == j
  }

  /** The event verifies a binding while another one of the same provider is active. */
  ghost predicate Doubles(o: Office, e: Event) {
    && e.VerifyBinding? && e.id < |o.desk.bindings|
    && exists j :: j != e.id && Active(o.desk, j, o.desk.bindings[e.id].provider)
  }

  lemma BindingsKept(o: Office, e: Event)
    requires !e.RegisterBinding? && !e.VerifyBinding? && !e.SuspendBinding?
    ensures Apply(o, e).desk.bindings == o.desk.bindings
  {
  }

  /** After an event a binding is active exactly if it was, and has not been suspended, or has just been verified. */
  lemma ActiveAfter(o: Office, e: Event, id: nat, org: string)
    ensures Active(Apply(o, e).desk, id, org) <==>
            || (Active(o.desk, id, org) && !(e.SuspendBinding? && e.id == id))
            || (e.VerifyBinding? && e.id == id && id < |o.desk.bindings| && o.desk.bindings[id].provider == org)
  {
    if !e.RegisterBinding? && !e.VerifyBinding? && !e.SuspendBinding? {
      BindingsKept(o, e);
    }
  }

  /** On a desk with at most one active binding per provider, an event keeps that exactly if it does not verify a
      second one.  Registration refuses a provider with an active binding; verification does not look. */
  lemma OneActiveStep(o: Office, e: Event)
    requires OneActive(o.desk)
    ensures OneActive(Apply(o, e).desk) <==> !Doubles(o, e)
  {
    var d := Apply(o, e).desk;
    if Doubles(o, e) {
      var org := o.desk.bindings[e.id].provider;
      var j :| j != e.id && Active(o.desk, j, org);
      ActiveAfter(o, e, j, org);
      ActiveAfter(o, e, e.id, org);
    } else {
      forall i, j, org | Active(d, i, org) && Active(d, j, org) ensures i == j {
        ActiveAfter(o, e, i, org);
        ActiveAfter(o, e, j, org);
      }
    }
  }

  ghost predicate NeverDoubles(o: Office, events: seq<Event>) {
    if events == [] then true
    else
      var past := events[..|events| - 1];
      NeverDoubles(o, past) && !Doubles(Run(o, past), events[|events| - 1])
  }

  /** In every interleaved run no provider has two active bindings until a second one is verified, and exactly
      then it has. */
  lemma {:induction false} OneActiveUntilDoubled(events: seq<Event>, next: Event)
    requires NeverDoubles(OPENING, events)
    ensures OneActive(Run(OPENING, events).desk)
    ensures OneActive(Apply(Run(OPENING, events), next).desk) <==> !Doubles(Run(OPENING, events), next)
  {
    if events != [] {
      OneActiveUntilDoubled(events[..|events| - 1], events[|events| - 1]);
    }
    OneActiveStep(Run(OPENING, events), next);
  }

  function TwoRegistered(org: string): seq<Event> {
    [RegisterBinding(org)] + [RegisterBinding(org)] + [VerifyBinding(0)]
  }

  lemma OneOfTwoVerified(org: string)
    ensures Run(OPENING, TwoRegistered(org)).desk.bindings ==
            [Binding(org, ActiveBinding), Binding(org, PendingVerification)]
  {
    var none: seq<Event> := [];
    var one := none + [RegisterBinding(org)];
    Overlaps.RunSnoc(OPENING, none, RegisterBinding(org));
    Overlaps.RunSnoc(OPENING, one, RegisterBinding(org));
    Overlaps.RunSnoc(OPENING, one + [RegisterBinding(org)], VerifyBinding(0));
    assert one + [RegisterBinding(org)] + [VerifyBinding(0)] == TwoRegistered(org);
  }

  /** Register, register, verify the first, verify the second: two active bindings. */
  lemma TwoActive(org: string)
    ensures var d := Run(OPENING, TwoRegistered(org) + [VerifyBinding(1)]).desk;
            Active(d, 0, org) && Active(d, 1, org) && !OneActive(d)
  {
    OneOfTwoVerified(org);
    Overlaps.RunSnoc(OPENING, TwoRegistered(org), VerifyBinding(1));
    var d := Run(OPENING, TwoRegistered(org) + [VerifyBinding(1)]).desk;
    assert Active(d, 0, org) && Active(d, 1, org);
  }
}
