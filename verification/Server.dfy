/** The gateway's callback handler on the live objects. */
module CallbackServer {
  import opened Options
  import opened Callbacks
  import EventLedger
  import Jobs = CarrierService
  import MarketplaceApp

  class Server {
    const ledger: EventLedger.Ledger
    const carrier: Jobs.Service
    const app: MarketplaceApp.App

    constructor (l: EventLedger.Ledger, s: Jobs.Service, a: MarketplaceApp.App)
      ensures ledger == l && carrier == s && app == a
    {
      ledger, carrier, app := l, s, a;
    }

    ghost function View(): Gateway
      reads ledger, ledger.recorded, carrier, app
    {
      Gateway(ledger.Contents(), carrier.View(), app.View())
    }

    method MoveJob(id: string, to: Jobs.JobState, output: string, error: string, decision: string)
      returns (d: Option<string>)
      modifies carrier
      ensures Outcome(View(), d) == Move(old(View()), id, to, output, error, decision)
    {
      var job := FindJob(|carrier.jobs|, id);
      if job.None? {
        return None;
      }
      var r := carrier.TransitionJob(job.value, to, output, error);
      return if r.Ok? then Some(decision) else None;
    }

    method TargetOf(id: string) returns (target: Option<(nat, string)>)
      ensures target == Target(carrier.View(), id)
    {
      var job := FindJob(|carrier.jobs|, id);
      if job.None? || carrier.jobs[job.value].binding >= |carrier.bindings| {
        return None;
      }
      var j := carrier.jobs[job.value];
      return Some((carrier.bindings[j.binding].order, j.milestone));
    }

    method MilestoneIsReady(c: Callback) returns (d: Option<string>)
      modifies carrier, app
      ensures Outcome(View(), d) == Ready(old(View()), c)
    {
      var job := FindJob(|carrier.jobs|, c.job);
      if job.None? || c.refused {
        return None;
      }
      d := MoveJob(c.job, Jobs.Completed, c.text, "", CONTINUE);
      if d.None? {
        return;
      }
      var target := TargetOf(c.job);
      if target.None? {
        return None;
      }
      var entry := app.SettleMilestone(target.value.0, target.value.1, c.text, c.anomalies);
      return if entry.Some? then Some(CONTINUE) else None;
    }

    method RecordUsageFromCallback(c: Callback) returns (d: Option<string>)
      modifies app
      ensures Outcome(View(), d) == Usage(old(View()), c)
    {
      var target := TargetOf(c.job);
      if target.None? || c.usage.None? {
        return None;
      }
      var recorded := app.RecordUsageCharge(target.value.0, target.value.1, c.usage.value);
      return if recorded then Some(c.action) else None;
    }

    method Dispatch(c: Callback) returns (d: Option<string>)
      modifies carrier, app
      ensures Outcome(View(), d) == Act(old(View()), c)
    {
      match c.kind {
        case Started => d := MoveJob(c.job, Jobs.Running, "", "", CONTINUE);
        case Finished => d := MoveJob(c.job, Jobs.Completed, c.text, "", CONTINUE);
        case MilestoneReady => d := MilestoneIsReady(c);
        case Broken => d := MoveJob(c.job, Jobs.Failed, "", c.text, CONTINUE);
        case Heartbeat => d := if c.binding < |carrier.bindings| then Some(CONTINUE) else None;
        case PauseAsked => d := MoveJob(c.job, Jobs.Cancelled, "", "", PAUSE);
        case Continues => d := Some(CONTINUE);
        case UsageReported => d := RecordUsageFromCallback(c);
        case ArtifactReady =>
          var job := FindJob(|carrier.jobs|, c.job);
          d := if job.None? || c.refused then None else Some(c.action);
        case BudgetLow => d := Some(c.action);
        case Unknown => d := None;
      }
    }

    /** The ledger's checks; an accepted event is recorded without a decision. */
    method Admit(c: Callback) returns (answer: EventLedger.Answer)
      requires ledger.Valid()
      modifies ledger
      ensures ledger.Valid() && forall e :: e in ledger.recorded ==> e in old(ledger.recorded) || fresh(e)
      ensures var (h, a) := EventLedger.Recorded(old(ledger.Contents()), c.job, c.id, c.sequence, c.name, "");
              View() == old(View()).(ledger := h) && answer == a
    {
      answer := ledger.RecordEvent(c.job, c.id, c.sequence, c.name, "");
    }

    method Keep(id: string, decision: string)
      requires ledger.Valid()
      modifies ledger.recorded
      ensures ledger.Valid() && ledger.recorded == old(ledger.recorded)
      ensures View() == old(View()).(ledger := EventLedger.Updated(old(ledger.Contents()), id, decision))
    {
      ledger.UpdateDecision(id, decision);
    }

    /** An event that has been recorded is acted on, and the decision is kept with it. */
    method Decide(c: Callback) returns (d: Option<string>)
      requires ledger.Valid()
      modifies ledger.recorded, carrier, app
      ensures ledger.Valid()
      ensures Outcome(View(), d) == Decided(old(View()), c)
    {
      d := Dispatch(c);
      if d.Some? {
        Keep(c.id, d.value);
      }
    }

    method Proceed(c: Callback, answer: EventLedger.Answer) returns (reply: Reply)
      requires ledger.Valid()
      modifies ledger.recorded, carrier, app
      ensures ledger.Valid()
      ensures (View(), reply) == Proceeded(old(View()), c, answer)
    {
      match answer {
        case Replayed(entry) => return Replay(entry.decision);
        case OutOfOrder => return Conflict;
        case GapFound => return Conflict;
        case Appended(_) =>
          var d := Decide(c);
          return if d.Some? then Accepted(d.value) else Rejected;
      }
    }

    /** A callback with an event id passes the ledger first. */
    method HandleRecorded(c: Callback) returns (reply: Reply)
      requires ledger.Valid() && c.id != ""
      modifies ledger, ledger.recorded, carrier, app
      ensures ledger.Valid()
      ensures (View(), reply) == Handle(old(View()), c)
    {
      var answer := Admit(c);
      reply := Proceed(c, answer);
    }

    method HandleCarrierCallback(c: Callback) returns (reply: Reply)
      requires ledger.Valid()
      modifies ledger, ledger.recorded, carrier, app
      ensures ledger.Valid()
      ensures (View(), reply) == Handle(old(View()), c)
    {
      if c.id != "" {
        reply := HandleRecorded(c);
      } else {
        var d := Dispatch(c);
        reply := if d.Some? then Accepted(d.value) else Rejected;
      }
    }
  }
}
