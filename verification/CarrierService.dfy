/** Carrier bindings, execution jobs and attempts. */
module CarrierService {
  import opened Options

  datatype JobState = Pending | Running | Completed | Failed | Cancelled

  /** A carrier bound to a milestone of an order; its id is its position. */
  datatype Binding = Binding(order: nat, milestone: string, carrier: string)

  datatype Progress = Progress(step: int, total: int, message: string)

  /** A job; its id is its position.  `started` and `finished` say whether the two times are set. */
  datatype Job = Job(
    binding: nat, milestone: string, state: JobState, input: string, output: string, error: string,
    progress: Option<Progress>, started: bool, finished: bool)

  datatype Attempt = Attempt(number: nat, execution: string, state: JobState, category: string, code: string,
                             ended: bool)

  datatype State = State(
    bindings: seq<Binding>, bindingIndex: map<(nat, string), nat>, jobs: seq<Job>, byBinding: map<nat, seq<nat>>,
    attempts: map<nat, seq<Attempt>>, keys: map<string, nat>)

  datatype Error = BindingExists | BindingNotFound | JobNotFound | InvalidTransition | NotRunning

  datatype Result<T> = Ok(value: T) | Err(error: Error)

  const EMPTY := State([], map[], [], map[], map[], map[])

  // ---- Calls ----

  function Allowed(from: JobState): seq<JobState> {
    match from
    case Pending => [Running, Cancelled]
    case Running => [Completed, Failed, Cancelled]
    case _ => []
  }

  predicate CanTransition(from: JobState, to: JobState) { to in Allowed(from) }

  predicate Terminal(state: JobState) { state == Completed || state == Failed || state == Cancelled }

  function Bind(s: State, order: nat, milestone: string, carrier: string): Result<State> {
    if (order, milestone) in s.bindingIndex then Err(BindingExists)
    else Ok(s.(bindings := s.bindings + [Binding(order, milestone, carrier)],
               bindingIndex := s.bindingIndex[(order, milestone) := |s.bindings|]))
  }

  function JobsOf(s: State, binding: nat): seq<nat> { if binding in s.byBinding then s.byBinding[binding] else [] }

  function AttemptsOf(s: State, job: nat): seq<Attempt> { if job in s.attempts then s.attempts[job] else [] }

  function NewJob(binding: nat, milestone: string, input: string): Job {
    Job(binding, milestone, Pending, input, "", "", None, false, false)
  }

  function WithJob(s: State, binding: nat, milestone: string, input: string): State {
    s.(jobs := s.jobs + [NewJob(binding, milestone, input)],
       byBinding := s.byBinding[binding := JobsOf(s, binding) + [|s.jobs|]])
  }

  /** The new state, the job, and whether the key had been used before; a plain creation has no key. */
  function CreateJobIdempotent(s: State, binding: nat, milestone: string, input: string, key: string):
    Result<(State, nat, bool)>
  {
    if key != "" && key in s.keys && s.keys[key] < |s.jobs| then Ok((s, s.keys[key], true))
    else if binding >= |s.bindings| then Err(BindingNotFound)
    else
      var t := WithJob(s, binding, milestone, input);
      Ok((if key == "" then t else t.(keys := t.keys[key := |s.jobs|]), |s.jobs|, false))
  }

  /** A job after an allowed transition. */
  function Moved(j: Job, to: JobState, output: string, error: string): Job {
    match to
    case Running => j.(state := to, started := true)
    case Completed => j.(state := to, finished := true, output := output)
    case Failed => j.(state := to, finished := true, error := error)
    case Cancelled => j.(state := to, finished := true)
    case Pending => j.(state := to)
  }

  /** Asking for the state a job is in already changes nothing. */
  function Transition(s: State, job: nat, to: JobState, output: string, error: string): Result<State> {
    if job >= |s.jobs| then Err(JobNotFound)
    else if CanTransition(s.jobs[job].state, to)
    then Ok(s.(jobs := s.jobs[job := Moved(s.jobs[job], to, output, error)]))
    else if s.jobs[job].state == to then Ok(s)
    else Err(InvalidTransition)
  }

  function UpdateProgress(s: State, job: nat, p: Progress): Result<State> {
    if job >= |s.jobs| then Err(JobNotFound)
    else if s.jobs[job].state != Running then Err(NotRunning)
    else Ok(s.(jobs := s.jobs[job := s.jobs[job].(progress := Some(p))]))
  }

  function CreateAttempt(s: State, job: nat, execution: string): Result<State> {
    if job >= |s.jobs| then Err(JobNotFound)
    else
      var tries := AttemptsOf(s, job);
      Ok(s.(attempts := s.attempts[job := tries + [Attempt(|tries| + 1, execution, Pending, "", "", false)]]))
  }

  /** Failing a job with a category marks its last attempt. */
  function FailTyped(s: State, job: nat, category: string, code: string, error: string): Result<State> {
    match Transition(s, job, Failed, "", error)
    case Err(e) => Err(e)
    case Ok(t) =>
      var tries := AttemptsOf(t, job);
      if tries == [] then Ok(t)
      else
        var n := |tries| - 1;
        var last := tries[n].(category := category, code := code, state := Failed, ended := true);
        Ok(t.(attempts := t.attempts[job := tries[n := last]]))
  }

  // ---- Runs ----

  datatype Op =
    | BindOp(order: nat, milestone: string, carrier: string)
    | CreateOp(binding: nat, milestone: string, input: string, key: string)
    | MoveOp(job: nat, to: JobState, output: string, error: string)
    | ProgressOp(job: nat, progress: Progress)
    | AttemptOp(job: nat, execution: string)
    | FailTypedOp(job: nat, category: string, code: string, error: string)

  function Or(r: Result<State>, s: State): State { if r.Ok? then r.value else s }

  function Apply(s: State, op: Op): State {
    match op
    case BindOp(order, milestone, carrier) => Or(Bind(s, order, milestone, carrier), s)
    case CreateOp(binding, milestone, input, key) => (
      match CreateJobIdempotent(s, binding, milestone, input, key) case Ok((t, _, _)) => t case Err(_) => s)
    case MoveOp(job, to, output, error) => Or(Transition(s, job, to, output, error), s)
    case ProgressOp(job, p) => Or(UpdateProgress(s, job, p), s)
    case AttemptOp(job, execution) => Or(CreateAttempt(s, job, execution), s)
    case FailTypedOp(job, category, code, error) => Or(FailTyped(s, job, category, code, error), s)
  }

  function Run(s: State, ops: seq<Op>): State {
    if ops == [] then s else Apply(Run(s, ops[..|ops| - 1]), ops[|ops| - 1])
  }

  // ---- What every run keeps ----

  /** The two times tell the state of a job. */
  predicate Timed(j: Job) {
    && (j.finished <==> Terminal(j.state))
    && (j.state == Pending ==> !j.started)
    && (j.state in {Running, Completed, Failed} ==> j.started)
  }

  /** The positions of a binding's jobs, in the order in which the jobs were created. */
  function Positions(jobs: seq<Job>, binding: nat): seq<nat> {
    if jobs == [] then []
    else
      var n := |jobs| - 1;
      Positions(jobs[..n], binding) + if jobs[n].binding == binding then [n] else []
  }

  ghost predicate Numbered(tries: seq<Attempt>) {
    forall i :: 0 <= i < |tries| ==> tries[i].number == i + 1
  }

  ghost predicate JobsTimed(s: State) {
    forall j :: 0 <= j < |s.jobs| ==> Timed(s.jobs[j]) && s.jobs[j].binding < |s.bindings|
  }

  ghost predicate JobsListed(s: State) {
    forall b: nat :: JobsOf(s, b) == Positions(s.jobs, b)
  }

  ghost predicate AttemptsNumbered(s: State) {
    forall j: nat :: Numbered(AttemptsOf(s, j)) && (j >= |s.jobs| ==> AttemptsOf(s, j) == [])
  }

  /** Every binding is indexed under its order and milestone, and nothing else is. */
  ghost predicate BindingsIndexed(s: State) {
    && (forall p :: p in s.bindingIndex ==> s.bindingIndex[p] < |s.bindings| &&
                                            KeyOf(s.bindings[s.bindingIndex[p]]) == p)
    && (forall b :: 0 <= b < |s.bindings| ==>
          KeyOf(s.bindings[b]) in s.bindingIndex && s.bindingIndex[KeyOf(s.bindings[b])] == b)
  }

  function KeyOf(b: Binding): (nat, string) { (b.order, b.milestone) }

  ghost predicate Sound(s: State) {
    && JobsTimed(s) && JobsListed(s) && AttemptsNumbered(s) && BindingsIndexed(s)
    && (forall k :: k in s.keys ==> k != "" && s.keys[k] < |s.jobs|)
  }

  lemma {:induction false} PositionsSame(a: seq<Job>, b: seq<Job>, binding: nat)
    requires |a| == |b| && forall j :: 0 <= j < |a| ==> a[j].binding == b[j].binding
    ensures Positions(a, binding) == Positions(b, binding)
  {
    if a != [] {
      PositionsSame(a[..|a| - 1], b[..|b| - 1], binding);
    }
  }

  lemma SoundBind(s: State, order: nat, milestone: string, carrier: string)
    requires Sound(s)
    ensures Sound(Or(Bind(s, order, milestone, carrier), s))
  {
    if Bind(s, order, milestone, carrier).Ok? {
      var t := Bind(s, order, milestone, carrier).value;
      assert forall b: nat :: JobsOf(t, b) == JobsOf(s, b);
      assert forall j: nat :: AttemptsOf(t, j) == AttemptsOf(s, j);
    }
  }

  lemma ListedWithJob(s: State, binding: nat, milestone: string, input: string)
    requires JobsListed(s)
    ensures JobsListed(WithJob(s, binding, milestone, input))
  {
  }

  lemma SoundWithJob(s: State, binding: nat, milestone: string, input: string)
    requires Sound(s) && binding < |s.bindings|
    ensures Sound(WithJob(s, binding, milestone, input))
  {
    var t := WithJob(s, binding, milestone, input);
    ListedWithJob(s, binding, milestone, input);
    assert forall j: nat :: AttemptsOf(t, j) == AttemptsOf(s, j);
    assert AttemptsNumbered(t);
    assert BindingsIndexed(t);
  }

  /** Rewriting one job keeps everything if the job stays well timed and with its binding. */
  lemma SoundRewrite(s: State, job: nat, j: Job)
    requires Sound(s) && job < |s.jobs| && Timed(j) && j.binding == s.jobs[job].binding
    ensures Sound(s.(jobs := s.jobs[job := j]))
  {
    var t := s.(jobs := s.jobs[job := j]);
    forall b: nat ensures JobsOf(t, b) == Positions(t.jobs, b) {
      assert JobsOf(s, b) == Positions(s.jobs, b);
      PositionsSame(s.jobs, t.jobs, b);
    }
    assert forall a: nat :: AttemptsOf(t, a) == AttemptsOf(s, a);
  }

  lemma MovedTimed(j: Job, to: JobState, output: string, error: string)
    requires Timed(j) && CanTransition(j.state, to)
    ensures Timed(Moved(j, to, output, error))
  {
  }

  lemma SoundTransition(s: State, job: nat, to: JobState, output: string, error: string)
    requires Sound(s)
    ensures Sound(Or(Transition(s, job, to, output, error), s))
  {
    if job < |s.jobs| && CanTransition(s.jobs[job].state, to) {
      MovedTimed(s.jobs[job], to, output, error);
      SoundRewrite(s, job, Moved(s.jobs[job], to, output, error));
    }
  }

  lemma SoundAttempts(s: State, job: nat, tries: seq<Attempt>)
    requires Sound(s) && job < |s.jobs| && Numbered(tries)
    ensures Sound(s.(attempts := s.attempts[job := tries]))
  {
    var t := s.(attempts := s.attempts[job := tries]);
    assert forall b: nat :: JobsOf(t, b) == JobsOf(s, b);
    assert forall j: nat :: AttemptsOf(t, j) == if j == job then tries else AttemptsOf(s, j);
  }

  lemma SoundFail(s: State, job: nat, category: string, code: string, error: string)
    requires Sound(s)
    ensures Sound(Or(FailTyped(s, job, category, code, error), s))
  {
    SoundTransition(s, job, Failed, "", error);
    if Transition(s, job, Failed, "", error).Ok? {
      var t := Transition(s, job, Failed, "", error).value;
      var tries := AttemptsOf(t, job);
      assert Numbered(tries);
      if tries != [] {
        var n := |tries| - 1;
        SoundAttempts(t, job,
                      tries[n := tries[n].(category := category, code := code, state := Failed, ended := true)]);
      }
    }
  }

  lemma SoundCreate(s: State, binding: nat, milestone: string, input: string, key: string)
    requires Sound(s)
    ensures Sound(Apply(s, CreateOp(binding, milestone, input, key)))
  {
    if binding < |s.bindings| {
      SoundWithJob(s, binding, milestone, input);
      if key != "" {
        SoundKey(WithJob(s, binding, milestone, input), key, |s.jobs|);
      }
    }
  }

  lemma SoundKey(s: State, key: string, job: nat)
    requires Sound(s) && key != "" && job < |s.jobs|
    ensures Sound(s.(keys := s.keys[key := job]))
  {
    var t := s.(keys := s.keys[key := job]);
    assert forall b: nat :: JobsOf(t, b) == JobsOf(s, b);
    assert forall j: nat :: AttemptsOf(t, j) == AttemptsOf(s, j);
  }

  lemma SoundStep(s: State, op: Op)
    requires Sound(s)
    ensures Sound(Apply(s, op))
  {
    match op
    case BindOp(order, milestone, carrier) => SoundBind(s, order, milestone, carrier);
    case CreateOp(binding, milestone, input, key) => SoundCreate(s, binding, milestone, input, key);
    case MoveOp(job, to, output, error) => SoundTransition(s, job, to, output, error);
    case ProgressOp(job, p) =>
      if job < |s.jobs| {
        SoundRewrite(s, job, s.jobs[job].(progress := Some(p)));
      }
    case AttemptOp(job, execution) =>
      if job < |s.jobs| {
        var tries := AttemptsOf(s, job);
        assert Numbered(tries);
        SoundAttempts(s, job, tries + [Attempt(|tries| + 1, execution, Pending, "", "", false)]);
      }
    case FailTypedOp(job, category, code, error) => SoundFail(s, job, category, code, error);
  }

  /** In every reachable state the times tell the states, every binding lists exactly its jobs in the
      order of their creation, keys lead to jobs, attempts are numbered, and the index of bindings is exact. */
  lemma {:induction false} AlwaysSound(ops: seq<Op>)
    ensures Sound(Run(EMPTY, ops))
  {
    if ops != [] {
      AlwaysSound(ops[..|ops| - 1]);
      SoundStep(Run(EMPTY, ops[..|ops| - 1]), ops[|ops| - 1]);
    } else {
      assert forall b: nat :: JobsOf(EMPTY, b) == [];
      assert forall j: nat :: AttemptsOf(EMPTY, j) == [];
    }
  }

  /** Jobs never change hands, and terminal jobs never change at all. */
  ghost predicate Preserves(s: State, t: State) {
    && |s.jobs| <= |t.jobs| && s.bindings <= t.bindings
    && (forall j :: 0 <= j < |s.jobs| ==>
          && t.jobs[j].binding == s.jobs[j].binding && t.jobs[j].milestone == s.jobs[j].milestone
          && (Terminal(s.jobs[j].state) ==> t.jobs[j] == s.jobs[j]))
    && (forall k :: k in s.keys && s.keys[k] < |s.jobs| ==> k in t.keys && t.keys[k] == s.keys[k])
  }

  lemma TransitionPreserves(s: State, job: nat, to: JobState, output: string, error: string)
    ensures Preserves(s, Or(Transition(s, job, to, output, error), s))
  {
  }

  lemma FailPreserves(s: State, job: nat, category: string, code: string, error: string)
    ensures Preserves(s, Or(FailTyped(s, job, category, code, error), s))
  {
  }

  lemma CreatePreserves(s: State, binding: nat, milestone: string, input: string, key: string)
    requires "" !in s.keys
    ensures var t := Apply(s, CreateOp(binding, milestone, input, key)); Preserves(s, t) && "" !in t.keys
  {
  }

  lemma OtherPreserves(s: State, op: Op)
    requires op.BindOp? || op.ProgressOp? || op.AttemptOp?
    ensures Preserves(s, Apply(s, op))
  {
  }

  lemma StepPreserves(s: State, op: Op)
    requires "" !in s.keys
    ensures Preserves(s, Apply(s, op)) && "" !in Apply(s, op).keys
  {
    match op
    case MoveOp(job, to, output, error) => TransitionPreserves(s, job, to, output, error);
    case FailTypedOp(job, category, code, error) => FailPreserves(s, job, category, code, error);
    case CreateOp(binding, milestone, input, key) => CreatePreserves(s, binding, milestone, input, key);
    case _ => OtherPreserves(s, op);
  }

  /** Whatever happens later, a terminal job stays exactly as it is, every job stays with its binding
      and milestone, and an idempotency key keeps leading to the job it was first used for. */
  lemma {:induction false} RunPreserves(s: State, ops: seq<Op>)
    requires "" !in s.keys
    ensures Preserves(s, Run(s, ops)) && "" !in Run(s, ops).keys
  {
    if ops != [] {
      RunPreserves(s, ops[..|ops| - 1]);
      StepPreserves(Run(s, ops[..|ops| - 1]), ops[|ops| - 1]);
    }
  }

  /** A key used once gives its job back ever after, whatever it is asked for, and makes no other. */
  lemma KeyForGood(s: State, binding: nat, milestone: string, input: string, key: string, later: seq<Op>,
                   binding': nat, milestone': string, input': string)
    requires Sound(s) && key != "" && CreateJobIdempotent(s, binding, milestone, input, key).Ok?
    ensures var (t, job, _) := CreateJobIdempotent(s, binding, milestone, input, key).value;
            var u := Run(t, later);
            CreateJobIdempotent(u, binding', milestone', input', key) == Ok((u, job, true))
  {
    var (t, job, _) := CreateJobIdempotent(s, binding, milestone, input, key).value;
    StepPreserves(s, CreateOp(binding, milestone, input, key));
    RunPreserves(t, later);
  }

  // ---- The service object ----

  class Service {
    var bindings: seq<Binding>
    var bindingIndex: map<(nat, string), nat>
    var jobs: seq<Job>
    var byBinding: map<nat, seq<nat>>
    var attempts: map<nat, seq<Attempt>>
    var keys: map<string, nat>

    function View(): State
      reads this
    {
      State(bindings, bindingIndex, jobs, byBinding, attempts, keys)
    }

    constructor ()
      ensures View() == EMPTY
    {
      bindings, bindingIndex, jobs, byBinding, attempts, keys := [], map[], [], map[], map[], map[];
    }

    static method MayMove(from: JobState, to: JobState) returns (may: bool)
      ensures may == CanTransition(from, to)
    {
      var allowed := Allowed(from);
      for i := 0 to |allowed|
        invariant to !in allowed[..i]
      {
        if allowed[i] == to {
          return true;
        }
        assert allowed[..i + 1] == allowed[..i] + [allowed[i]];
      }
      assert allowed[..|allowed|] == allowed;
      return false;
    }

    method BindCarrier(order: nat, milestone: string, carrier: string) returns (r: Result<nat>)
      modifies this
      ensures match Bind(old(View()), order, milestone, carrier)
              case Ok(s) => View() == s && r == Ok(|old(bindings)|)
              case Err(e) => View() == old(View()) && r == Err(e)
    {
      if (order, milestone) in bindingIndex {
        return Err(BindingExists);
      }
      bindings := bindings + [Binding(order, milestone, carrier)];
      bindingIndex := bindingIndex[(order, milestone) := |bindings| - 1];
      return Ok(|bindings| - 1);
    }

    method AddJob(binding: nat, milestone: string, input: string) returns (job: nat)
      modifies this
      ensures View() == WithJob(old(View()), binding, milestone, input) && job == |old(jobs)|
    {
      job := |jobs|;
      jobs := jobs + [NewJob(binding, milestone, input)];
      var list := if binding in byBinding then byBinding[binding] else [];
      byBinding := byBinding[binding := list + [job]];
    }

    method CreateJobOnce(binding: nat, milestone: string, input: string, key: string) returns (r: Result<(nat, bool)>)
      modifies this
      ensures match CreateJobIdempotent(old(View()), binding, milestone, input, key)
              case Ok((s, job, replay)) => View() == s && r == Ok((job, replay))
              case Err(e) => View() == old(View()) && r == Err(e)
    {
      if key != "" && key in keys && keys[key] < |jobs| {
        return Ok((keys[key], true));
      }
      if binding >= |bindings| {
        return Err(BindingNotFound);
      }
      var job := AddJob(binding, milestone, input);
      if key != "" {
        keys := keys[key := job];
      }
      return Ok((job, false));
    }

    method TransitionJob(job: nat, to: JobState, output: string, error: string) returns (r: Result<()>)
      modifies this
      ensures match Transition(old(View()), job, to, output, error)
              case Ok(s) => View() == s && r == Ok(())
              case Err(e) => View() == old(View()) && r == Err(e)
    {
      if job >= |jobs| {
        return Err(JobNotFound);
      }
      var may := MayMove(jobs[job].state, to);
      if !may {
        if jobs[job].state == to {
          return Ok(());
        }
        return Err(InvalidTransition);
      }
      var j := jobs[job].(state := to);
      match to {
        case Running => j := j.(started := true);
        case Completed => j := j.(finished := true, output := output);
        case Failed => j := j.(finished := true, error := error);
        case Cancelled => j := j.(finished := true);
        case Pending =>
      }
      jobs := jobs[job := j];
      return Ok(());
    }

    method SetProgress(job: nat, p: Progress) returns (r: Result<()>)
      modifies this
      ensures match UpdateProgress(old(View()), job, p)
              case Ok(s) => View() == s && r == Ok(())
              case Err(e) => View() == old(View()) && r == Err(e)
    {
      if job >= |jobs| {
        return Err(JobNotFound);
      }
      if jobs[job].state != Running {
        return Err(NotRunning);
      }
      jobs := jobs[job := jobs[job].(progress := Some(p))];
      return Ok(());
    }

    method StartAttempt(job: nat, execution: string) returns (r: Result<nat>)
      modifies this
      ensures match CreateAttempt(old(View()), job, execution)
              case Ok(s) => View() == s && r == Ok(|AttemptsOf(old(View()), job)| + 1)
              case Err(e) => View() == old(View()) && r == Err(e)
    {
      if job >= |jobs| {
        return Err(JobNotFound);
      }
      var list := if job in attempts then attempts[job] else [];
      attempts := attempts[job := list + [Attempt(|list| + 1, execution, Pending, "", "", false)]];
      return Ok(|list| + 1);
    }

    method FailJobTyped(job: nat, category: string, code: string, error: string) returns (r: Result<()>)
      modifies this
      ensures match FailTyped(old(View()), job, category, code, error)
              case Ok(s) => View() == s && r == Ok(())
              case Err(e) => View() == old(View()) && r == Err(e)
    {
      r := TransitionJob(job, Failed, "", error);
      if r.Err? {
        return;
      }
      if job in attempts && |attempts[job]| > 0 {
        var n := |attempts[job]| - 1;
        var last := attempts[job][n].(category := category, code := code, state := Failed, ended := true);
        attempts := attempts[job := attempts[job][n := last]];
      }
    }

    method ListJobs(binding: nat) returns (list: seq<Job>)
      ensures list == Fetched(jobs, JobsOf(View(), binding))
    {
      var ids := if binding in byBinding then byBinding[binding] else [];
      list := [];
      for i := 0 to |ids|
        invariant list == Fetched(jobs, ids[..i])
      {
        assert ids[..i + 1][..i] == ids[..i];
        if ids[i] < |jobs| {
          list := list + [jobs[ids[i]]];
        }
      }
      assert ids[..|ids|] == ids;
    }
  }

  // ---- What a listing shows ----

  function Fetched(jobs: seq<Job>, ids: seq<nat>): seq<Job> {
    if ids == [] then []
    else
      var id := ids[|ids| - 1];
      Fetched(jobs, ids[..|ids| - 1]) + if id < |jobs| then [jobs[id]] else []
  }

  /** The jobs of a binding, in the order of their creation. */
  function OfBinding(jobs: seq<Job>, binding: nat): seq<Job> {
    if jobs == [] then []
    else
      var j := jobs[|jobs| - 1];
      OfBinding(jobs[..|jobs| - 1], binding) + if j.binding == binding then [j] else []
  }

  lemma {:induction false} FetchedPositions(jobs: seq<Job>, n: nat, binding: nat)
    requires n <= |jobs|
    ensures Fetched(jobs, Positions(jobs[..n], binding)) == OfBinding(jobs[..n], binding)
  {
    if n > 0 {
      FetchedPositions(jobs, n - 1, binding);
      assert jobs[..n][..n - 1] == jobs[..n - 1];
      var ids := Positions(jobs[..n - 1], binding);
      assert (ids + [n - 1])[..|ids|] == ids;
      assert ids + [] == ids;
    }
  }

  /** In every reachable state a listing shows exactly the binding's jobs, in the order of their creation. */
  lemma ListingIsExact(ops: seq<Op>, binding: nat)
    ensures var s := Run(EMPTY, ops); Fetched(s.jobs, JobsOf(s, binding)) == OfBinding(s.jobs, binding)
  {
    var s := Run(EMPTY, ops);
    AlwaysSound(ops);
    assert JobsOf(s, binding) == Positions(s.jobs, binding);
    assert s.jobs[..|s.jobs|] == s.jobs;
    FetchedPositions(s.jobs, |s.jobs|, binding);
  }
}
