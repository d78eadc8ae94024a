/** The append-only ledger of carrier callbacks.  Its index and its logs share the event objects, so a
    decision written through one is read through the other. */
module EventLedger {

  /** What is recorded of an event once and for all. */
  datatype Facts = Facts(number: nat, execution: string, id: string, sequence: int, kind: string)

  datatype Entry = Entry(facts: Facts, decision: string)

  // ---- The ledger as a value: everything recorded, in order ----

  /** The entries of one execution. */
  function LogOf(h: seq<Entry>, execution: string): seq<Entry> {
    if h == [] then []
    else
      var e := h[|h| - 1];
      LogOf(h[..|h| - 1], execution) + if e.facts.execution == execution then [e] else []
  }

  /** The sequence number of the last entry of a log. */
  function LastOf(log: seq<Entry>): int { if log == [] then 0 else log[|log| - 1].facts.sequence }

  function LastNumber(h: seq<Entry>, execution: string): int { LastOf(LogOf(h, execution)) }

  /** The first entry with the event id, or the length. */
  function IndexOf(h: seq<Entry>, id: string): (i: nat)
    ensures i <= |h|
    ensures i < |h| ==> h[i].facts.id == id
    ensures forall j :: 0 <= j < i ==> h[j].facts.id != id
  {
    if h == [] || h[0].facts.id == id then 0 else 1 + IndexOf(h[1..], id)
  }

  datatype Answer = Replayed(entry: Entry) | OutOfOrder | GapFound | Appended(entry: Entry)

  datatype Verdict = Refused(answer: Answer) | Next

  /** The checks before an event is accepted. */
  function Screened(h: seq<Entry>, execution: string, id: string, sequence: int): Verdict {
    var i, last := IndexOf(h, id), LastNumber(h, execution);
    if i < |h| then Refused(Replayed(h[i]))
    else if last > 0 && sequence <= last then Refused(OutOfOrder)
    else if last > 0 && sequence > last + 1 then Refused(GapFound)
    else Next
  }

  /** What a verdict comes to. */
  function Enacted(h: seq<Entry>, v: Verdict, execution: string, id: string, sequence: int, kind: string,
                   decision: string): (seq<Entry>, Answer) {
    match v
    case Refused(answer) => (h, answer)
    case Next =>
      var e := Entry(Facts(|h| + 1, execution, id, sequence, kind), decision);
      (h + [e], Appended(e))
  }

  function Recorded(h: seq<Entry>, execution: string, id: string, sequence: int, kind: string,
                    decision: string): (seq<Entry>, Answer) {
    Enacted(h, Screened(h, execution, id, sequence), execution, id, sequence, kind, decision)
  }

  function Updated(h: seq<Entry>, id: string, decision: string): seq<Entry> {
    var i := IndexOf(h, id);
    if i < |h| then h[i := h[i].(decision := decision)] else h
  }

  // ---- Runs ----

  datatype Op =
    | Record(execution: string, id: string, sequence: int, kind: string, decision: string)
    | UpdateDecision(id: string, decision: string)

  function Apply(h: seq<Entry>, op: Op): seq<Entry> {
    match op
    case Record(execution, id, sequence, kind, decision) => Recorded(h, execution, id, sequence, kind, decision).0
    case UpdateDecision(id, decision) => Updated(h, id, decision)
  }

  function Run(h: seq<Entry>, ops: seq<Op>): seq<Entry> {
    if ops == [] then h else Apply(Run(h, ops[..|ops| - 1]), ops[|ops| - 1])
  }

  /** After a positive sequence number comes the next one. */
  ghost predicate GapFree(log: seq<Entry>) {
    forall i :: 0 <= i < |log| - 1 && log[i].facts.sequence > 0 ==>
      log[i + 1].facts.sequence == log[i].facts.sequence + 1
  }

  ghost predicate Once(h: seq<Entry>) {
    forall i, j :: 0 <= i < j < |h| ==> h[i].facts.id != h[j].facts.id
  }

  ghost predicate Kept(h: seq<Entry>) {
    && Once(h)
    && (forall i :: 0 <= i < |h| ==> h[i].facts.number == i + 1)
    && (forall x :: GapFree(LogOf(h, x)))
  }

  ghost predicate SameFacts(a: seq<Entry>, b: seq<Entry>) {
    |a| == |b| && forall i :: 0 <= i < |a| ==> a[i].facts == b[i].facts
  }

  lemma {:induction false} LogSameFacts(a: seq<Entry>, b: seq<Entry>, execution: string)
    requires SameFacts(a, b)
    ensures SameFacts(LogOf(a, execution), LogOf(b, execution))
  {
    if a != [] {
      LogSameFacts(a[..|a| - 1], b[..|b| - 1], execution);
      assert a[|a| - 1].facts == b[|b| - 1].facts;
    }
  }

  /** A log stays gap-free exactly if what is added is next, or nothing positive came before. */
  lemma GapSnoc(log: seq<Entry>, e: Entry)
    requires GapFree(log)
    ensures GapFree(log + [e]) <==> (LastOf(log) > 0 ==> e.facts.sequence == LastOf(log) + 1)
  {
    var more := log + [e];
    if LastOf(log) > 0 && e.facts.sequence != LastOf(log) + 1 {
      assert more[|log| - 1].facts.sequence > 0 && more[(|log| - 1) + 1] == e;
    }
  }

  lemma KeptRecord(h: seq<Entry>, execution: string, id: string, sequence: int, kind: string, decision: string)
    requires Kept(h)
    ensures Kept(Recorded(h, execution, id, sequence, kind, decision).0)
  {
    var (after, answer) := Recorded(h, execution, id, sequence, kind, decision);
    if answer.Appended? {
      forall x ensures GapFree(LogOf(after, x)) {
        assert after[..|h|] == h;
        GapSnoc(LogOf(h, x), answer.entry);
      }
    }
  }

  lemma KeptUpdate(h: seq<Entry>, id: string, decision: string)
    requires Kept(h)
    ensures Kept(Updated(h, id, decision)) && SameFacts(h, Updated(h, id, decision))
  {
    var u := Updated(h, id, decision);
    assert SameFacts(h, u);
    forall x ensures GapFree(LogOf(u, x)) {
      assert GapFree(LogOf(h, x));
      LogSameFacts(h, u, x);
    }
  }

  /** After any sequence of calls every event id has been recorded once, and every execution's log goes
      up by one from its first positive sequence number on. */
  lemma {:induction false} LedgerKept(ops: seq<Op>)
    ensures Kept(Run([], ops))
  {
    if ops != [] {
      var h := Run([], ops[..|ops| - 1]);
      LedgerKept(ops[..|ops| - 1]);
      match ops[|ops| - 1]
      case Record(execution, id, sequence, kind, decision) => KeptRecord(h, execution, id, sequence, kind, decision);
      case UpdateDecision(id, decision) => KeptUpdate(h, id, decision);
    }
  }

  /** Spelled out: from a positive sequence number on, positions and numbers advance together. */
  lemma {:induction false} ConsecutiveFrom(log: seq<Entry>, i: nat, j: nat)
    requires GapFree(log) && i <= j < |log| && log[i].facts.sequence > 0
    ensures log[j].facts.sequence == log[i].facts.sequence + (j - i)
  {
    if i < j {
      ConsecutiveFrom(log, i, j - 1);
      assert log[(j - 1) + 1] == log[j];
    }
  }

  /** Nothing recorded is ever lost or rewritten, except for decisions. */
  lemma {:induction false} AppendOnly(h: seq<Entry>, ops: seq<Op>)
    ensures |h| <= |Run(h, ops)| && SameFacts(h, Run(h, ops)[..|h|])
  {
    if ops != [] {
      AppendOnly(h, ops[..|ops| - 1]);
    }
  }

  /** A replay answers with the entry as it stands, and changes nothing.  A number up to the last one is out of order,
      one beyond the next leaves a gap, and neither changes anything.  What is accepted is recorded as it came. */
  lemma RefusalKeeps(h: seq<Entry>, execution: string, id: string, sequence: int, kind: string, decision: string)
    ensures var (after, answer) := Recorded(h, execution, id, sequence, kind, decision);
            var known, last := exists i :: 0 <= i < |h| && h[i].facts.id == id, LastNumber(h, execution);
            && (answer.Appended? <==> after != h)
            && (answer.Replayed? <==> known)
            && (answer.Replayed? ==> answer.entry in h && answer.entry.facts.id == id)
            && (answer.OutOfOrder? <==> !known && last > 0 && sequence <= last)
            && (answer.GapFound? <==> !known && last > 0 && sequence > last + 1)
            && (answer.Appended? ==>
                  && after == h + [Entry(Facts(|h| + 1, execution, id, sequence, kind), decision)]
                  && answer.entry == after[|h|] && LastNumber(after, execution) == sequence)
  {
    var (after, answer) := Recorded(h, execution, id, sequence, kind, decision);
    if answer.Appended? {
      assert after[..|h|] == h;
    }
  }

  /** The last number of an execution is that of its latest entry. */
  lemma {:induction false} LastMeans(h: seq<Entry>, execution: string, i: nat)
    requires i < |h| && h[i].facts.execution == execution
    requires forall j :: i < j < |h| ==> h[j].facts.execution != execution
    ensures LastNumber(h, execution) == h[i].facts.sequence
  {
    if i < |h| - 1 {
      LastMeans(h[..|h| - 1], execution, i);
    }
  }

  /** A decision is written to the entry with the id, and nowhere else. */
  lemma UpdateMeans(h: seq<Entry>, id: string, decision: string, i: nat)
    requires Once(h) && i < |h|
    ensures var u := Updated(h, id, decision);
            |u| == |h| && u[i] == if h[i].facts.id == id then Entry(h[i].facts, decision) else h[i]
  {
  }

  // ---- The objects ----

  class ExecutionEvent {
    const facts: Facts
    var decision: string

    constructor (f: Facts, d: string)
      ensures facts == f && decision == d
    {
      facts, decision := f, d;
    }

    function Value(): Entry
      reads this
    {
      Entry(facts, decision)
    }
  }

  /** The objects of one execution. */
  function ObjectsOf(objects: seq<ExecutionEvent>, execution: string): seq<ExecutionEvent> {
    if objects == [] then []
    else
      var o := objects[|objects| - 1];
      ObjectsOf(objects[..|objects| - 1], execution) + if o.facts.execution == execution then [o] else []
  }

  function Values(objects: seq<ExecutionEvent>): (h: seq<Entry>)
    reads objects
    ensures |h| == |objects| && forall i :: 0 <= i < |h| ==> h[i] == objects[i].Value()
  {
    if objects == [] then [] else Values(objects[..|objects| - 1]) + [objects[|objects| - 1].Value()]
  }

  lemma {:induction false} ValuesOfLog(objects: seq<ExecutionEvent>, execution: string)
    ensures Values(ObjectsOf(objects, execution)) == LogOf(Values(objects), execution)
  {
    if objects != [] {
      var past := objects[..|objects| - 1];
      ValuesOfLog(past, execution);
      assert Values(objects)[..|objects| - 1] == Values(past);
      var log := ObjectsOf(past, execution);
      assert (log + [objects[|objects| - 1]])[..|log|] == log;
    }
  }

  lemma ValuesSnoc(objects: seq<ExecutionEvent>, o: ExecutionEvent)
    ensures Values(objects + [o]) == Values(objects) + [o.Value()]
  {
  }

  lemma ObjectsSnoc(objects: seq<ExecutionEvent>, o: ExecutionEvent, execution: string)
    ensures ObjectsOf(objects + [o], execution) ==
            ObjectsOf(objects, execution) + if o.facts.execution == execution then [o] else []
  {
  }

  /** The index holds each object once, under its own id. */
  ghost predicate Indexed(objects: seq<ExecutionEvent>, index: map<string, ExecutionEvent>) {
    && (forall i, j :: 0 <= i < j < |objects| ==> objects[i].facts.id != objects[j].facts.id)
    && (forall i :: 0 <= i < |objects| ==> objects[i].facts.id in index && index[objects[i].facts.id] == objects[i])
    && (forall id :: id in index ==> index[id] in objects && index[id].facts.id == id)
  }

  /** Each log holds the objects of its execution in order, and its last number is known. */
  ghost predicate Logged(objects: seq<ExecutionEvent>, logs: map<string, seq<ExecutionEvent>>, last: map<string, int>) {
    forall x :: LoggedAt(objects, logs, last, x)
  }

  ghost predicate LoggedAt(objects: seq<ExecutionEvent>, logs: map<string, seq<ExecutionEvent>>,
                           last: map<string, int>, x: string) {
    var log := ObjectsOf(objects, x);
    if log == [] then x !in logs && x !in last
    else x in logs && x in last && logs[x] == log && last[x] == log[|log| - 1].facts.sequence
  }

  lemma IndexedSnoc(objects: seq<ExecutionEvent>, index: map<string, ExecutionEvent>, o: ExecutionEvent)
    requires Indexed(objects, index) && o.facts.id !in index
    ensures Indexed(objects + [o], index[o.facts.id := o])
  {
  }

  lemma LoggedSnoc(objects: seq<ExecutionEvent>, logs: map<string, seq<ExecutionEvent>>, last: map<string, int>,
                   o: ExecutionEvent)
    requires Logged(objects, logs, last)
    ensures var x := o.facts.execution;
            var log := if x in logs then logs[x] else [];
            Logged(objects + [o], logs[x := log + [o]], last[x := o.facts.sequence])
  {
    var x := o.facts.execution;
    var log := if x in logs then logs[x] else [];
    var objects', logs', last' := objects + [o], logs[x := log + [o]], last[x := o.facts.sequence];
    forall y ensures LoggedAt(objects', logs', last', y) {
      assert LoggedAt(objects, logs, last, y);
      ObjectsSnoc(objects, o, y);
    }
  }

  class Ledger {
    var counter: nat
    var events: map<string, seq<ExecutionEvent>>
    var eventIndex: map<string, ExecutionEvent>
    var lastSequence: map<string, int>
    ghost var recorded: seq<ExecutionEvent>

    /** Logs and index hold the same objects. */
    ghost predicate Valid()
      reads this
    {
      counter == |recorded| && Indexed(recorded, eventIndex) && Logged(recorded, events, lastSequence)
    }

    ghost function Contents(): seq<Entry>
      reads this, recorded
    {
      Values(recorded)
    }

    constructor ()
      ensures Valid() && Contents() == [] && recorded == []
    {
      counter, events, eventIndex, lastSequence, recorded := 0, map[], map[], map[], [];
    }

    /** The map of last numbers agrees with the logs. */
    lemma LastAgrees(x: string)
      requires Valid()
      ensures (if x in lastSequence then lastSequence[x] else 0) == LastNumber(Contents(), x)
    {
      ValuesOfLog(recorded, x);
      assert LoggedAt(recorded, events, lastSequence, x);
    }

    lemma IndexAgrees(id: string)
      requires Valid()
      ensures id in eventIndex <==> IndexOf(Contents(), id) < |recorded|
      ensures id in eventIndex ==> recorded[IndexOf(Contents(), id)] == eventIndex[id]
    {
    }

    /** The checks before an event is accepted. */
    method Screen(execution: string, id: string, sequence: int) returns (answer: Verdict)
      requires Valid()
      ensures answer == Screened(Contents(), execution, id, sequence)
      ensures answer.Next? ==> id !in eventIndex
    {
      IndexAgrees(id);
      LastAgrees(execution);
      if id in eventIndex {
        return Refused(Replayed(eventIndex[id].Value()));
      }
      var last := if execution in lastSequence then lastSequence[execution] else 0;
      if last > 0 && sequence <= last {
        return Refused(OutOfOrder);
      }
      if last > 0 && sequence > last + 1 {
        return Refused(GapFound);
      }
      return Next;
    }

    /** An accepted event is appended. */
    method Enact(v: Verdict, execution: string, id: string, sequence: int, kind: string, decision: string)
      returns (answer: Answer)
      requires Valid() && (v.Next? ==> id !in eventIndex)
      modifies this
      ensures Valid()
      ensures (Contents(), answer) == Enacted(old(Contents()), v, execution, id, sequence, kind, decision)
      ensures old(recorded) <= recorded && forall i :: |old(recorded)| <= i < |recorded| ==> fresh(recorded[i])
    {
      if v.Refused? {
        return v.answer;
      }
      var facts := Facts(counter + 1, execution, id, sequence, kind);
      var event := AppendNew(facts, decision);
      return Appended(Entry(facts, decision));
    }

    method RecordEvent(execution: string, id: string, sequence: int, kind: string, decision: string)
      returns (answer: Answer)
      requires Valid()
      modifies this
      ensures Valid()
      ensures (Contents(), answer) == Recorded(old(Contents()), execution, id, sequence, kind, decision)
      ensures old(recorded) <= recorded && forall i :: |old(recorded)| <= i < |recorded| ==> fresh(recorded[i])
    {
      var screened := Screen(execution, id, sequence);
      answer := Enact(screened, execution, id, sequence, kind, decision);
    }

    /** The object goes into the log and into the index. */
    method Append(event: ExecutionEvent)
      requires Valid() && event.facts.id !in eventIndex
      modifies this
      ensures Valid() && recorded == old(recorded) + [event]
    {
      var x := event.facts.execution;
      var log := if x in events then events[x] else [];
      IndexedSnoc(recorded, eventIndex, event);
      LoggedSnoc(recorded, events, lastSequence, event);
      Enter(x, log + [event], event.facts.sequence);
      eventIndex := eventIndex[event.facts.id := event];
      counter, recorded := counter + 1, recorded + [event];
    }

    method AppendNew(facts: Facts, decision: string) returns (event: ExecutionEvent)
      requires Valid() && facts.id !in eventIndex
      modifies this
      ensures Valid() && fresh(event) && recorded == old(recorded) + [event] && event.Value() == Entry(facts, decision)
      ensures Contents() == old(Contents()) + [Entry(facts, decision)]
    {
      ghost var past := recorded;
      event := new ExecutionEvent(facts, decision);
      Append(event);
      ValuesSnoc(past, event);
      assert Values(past) == old(Contents());
    }

    method Enter(x: string, log: seq<ExecutionEvent>, sequence: int)
      modifies this`events, this`lastSequence
      ensures events == old(events)[x := log] && lastSequence == old(lastSequence)[x := sequence]
    {
      events, lastSequence := events[x := log], lastSequence[x := sequence];
    }

    method List(execution: string) returns (log: seq<Entry>)
      requires Valid()
      ensures log == LogOf(Contents(), execution)
    {
      var raw := if execution in events then events[execution] else [];
      log := [];
      for i := 0 to |raw|
        invariant log == Values(raw[..i])
      {
        log := log + [raw[i].Value()];
        assert raw[..i + 1][..i] == raw[..i];
      }
      assert raw[..|raw|] == raw;
      ValuesOfLog(recorded, execution);
      assert LoggedAt(recorded, events, lastSequence, execution);
    }

    method LastSequence(execution: string) returns (last: int)
      requires Valid()
      ensures last == LastNumber(Contents(), execution)
    {
      LastAgrees(execution);
      last := if execution in lastSequence then lastSequence[execution] else 0;
    }

    /** Written through the index, seen in the log. */
    method UpdateDecision(id: string, decision: string)
      requires Valid()
      modifies recorded
      ensures Valid() && recorded == old(recorded)
      ensures Contents() == Updated(old(Contents()), id, decision)
    {
      IndexAgrees(id);
      if id in eventIndex {
        eventIndex[id].decision := decision;
      }
    }
  }
}
