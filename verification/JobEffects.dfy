/** What each call does to bindings, jobs and attempts, said on their own fields. */
module JobEffects {
  import opened Options
  import opened CarrierService

  /** A milestone of an order is bound once; the binding keeps what it was made with. */
  lemma BindMeans(s: State, order: nat, milestone: string, carrier: string)
    ensures Bind(s, order, milestone, carrier).Err? <==> (order, milestone) in s.bindingIndex
    ensures Bind(s, order, milestone, carrier).Ok? ==>
              var t := Bind(s, order, milestone, carrier).value;
              && t.bindings == s.bindings + [Binding(order, milestone, carrier)]
              && t.bindingIndex == s.bindingIndex[(order, milestone) := |s.bindings|]
              && t.jobs == s.jobs && t.byBinding == s.byBinding && t.attempts == s.attempts && t.keys == s.keys
  {
  }

  /** A key that leads to a job gives it back; otherwise an existing binding gets a new job, which waits, with the
      milestone and input given. */
  lemma CreateMeans(s: State, binding: nat, milestone: string, input: string, key: string)
    requires "" !in s.keys
    ensures var r := CreateJobIdempotent(s, binding, milestone, input, key);
            if key in s.keys && s.keys[key] < |s.jobs| then r == Ok((s, s.keys[key], true))
            else r.Ok? <==> binding < |s.bindings|
    ensures !(key in s.keys && s.keys[key] < |s.jobs|) && binding < |s.bindings| ==>
              var (t, job, replay) := CreateJobIdempotent(s, binding, milestone, input, key).value;
              && job == |s.jobs| && !replay && |t.jobs| == |s.jobs| + 1 && t.jobs[..|s.jobs|] == s.jobs
              && t.jobs[job].binding == binding && t.jobs[job].milestone == milestone && t.jobs[job].input == input
              && t.jobs[job].state == Pending && !t.jobs[job].started && !t.jobs[job].finished
              && t.jobs[job].output == "" && t.jobs[job].error == "" && t.jobs[job].progress == None
              && t.bindings == s.bindings && t.attempts == s.attempts
              && t.keys == if key == "" then s.keys else s.keys[key := job]
  {
  }

  /** A transition is possible exactly where the table has it, and asking for the present state is harmless.  Starting
      sets the start, ending sets the end; a completion keeps the output, a failure the error, and nothing else
      changes. */
  lemma TransitionMeans(s: State, job: nat, to: JobState, output: string, error: string)
    requires job < |s.jobs|
    ensures var j, r := s.jobs[job], Transition(s, job, to, output, error);
            && (r.Ok? <==> j.state == to || CanTransition(j.state, to))
            && (r.Err? ==> r.error == InvalidTransition)
            && (r.Ok? && !CanTransition(j.state, to) ==> r.value == s)
    ensures CanTransition(s.jobs[job].state, to) ==>
              var j, t := s.jobs[job], Transition(s, job, to, output, error).value;
              && t == s.(jobs := t.jobs) && |t.jobs| == |s.jobs|
              && (forall k :: 0 <= k < |s.jobs| && k != job ==> t.jobs[k] == s.jobs[k])
              && t.jobs[job].state == to
              && t.jobs[job].started == (j.started || to == Running)
              && t.jobs[job].finished == (j.finished || to == Completed || to == Failed || to == Cancelled)
              && t.jobs[job].output == (if to == Completed then output else j.output)
              && t.jobs[job].error == (if to == Failed then error else j.error)
              && t.jobs[job].binding == j.binding && t.jobs[job].milestone == j.milestone
              && t.jobs[job].input == j.input && t.jobs[job].progress == j.progress
  {
  }

  lemma MissingJob(s: State, job: nat, to: JobState, p: Progress, text: string)
    requires job >= |s.jobs|
    ensures Transition(s, job, to, text, text) == Err(JobNotFound) && UpdateProgress(s, job, p) == Err(JobNotFound)
    ensures CreateAttempt(s, job, text) == Err(JobNotFound) && FailTyped(s, job, text, text, text) == Err(JobNotFound)
  {
  }

  /** Progress is kept exactly for a running job. */
  lemma ProgressMeans(s: State, job: nat, p: Progress)
    requires job < |s.jobs|
    ensures UpdateProgress(s, job, p).Ok? <==> s.jobs[job].state == Running
    ensures UpdateProgress(s, job, p).Ok? ==>
              UpdateProgress(s, job, p).value == s.(jobs := s.jobs[job := s.jobs[job].(progress := Some(p))])
  {
  }

  /** An attempt is added with the next number. */
  lemma AttemptMeans(s: State, job: nat, execution: string)
    requires job < |s.jobs|
    ensures CreateAttempt(s, job, execution).Ok?
    ensures var t, before := CreateAttempt(s, job, execution).value, if job in s.attempts then s.attempts[job] else [];
            && t == s.(attempts := t.attempts) && job in t.attempts && |t.attempts[job]| == |before| + 1
            && t.attempts[job][..|before|] == before
            && t.attempts[job][|before|] == Attempt(|before| + 1, execution, Pending, "", "", false)
            && forall k :: k != job ==> (k in t.attempts <==> k in s.attempts) &&
                                        (k in s.attempts ==> t.attempts[k] == s.attempts[k])
  {
  }

  /** A typed failure fails the job exactly as any failure does, and marks the last attempt, if there is one. */
  lemma FailTypedMeans(s: State, job: nat, category: string, code: string, error: string)
    requires job < |s.jobs|
    ensures FailTyped(s, job, category, code, error).Ok? <==>
            s.jobs[job].state == Running || s.jobs[job].state == Failed
    ensures FailTyped(s, job, category, code, error).Ok? ==>
              var t := FailTyped(s, job, category, code, error).value;
              var before, after := AttemptsOf(s, job), AttemptsOf(t, job);
              && |t.jobs| == |s.jobs| && t.jobs[job].state == Failed && |after| == |before|
              && (s.jobs[job].state == Running ==> t.jobs[job].error == error && t.jobs[job].finished)
              && (s.jobs[job].state == Failed ==> t.jobs == s.jobs)
              && (forall i :: 0 <= i < |before| - 1 ==> after[i] == before[i])
              && (before != [] ==> after[|before| - 1] == before[|before| - 1].(category := category, code := code,
                                                                               state := Failed, ended := true))
  {
  }
}
