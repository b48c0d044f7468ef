/**
 How the tool calls of one assistant message are run: one at a time, or prepared one at a time and
 then run together. Both executors poll the steering queue as they go, and a steering message cuts
 the remaining calls short.
 */
module ToolExecution {
  import opened Wrappers
  import opened Transcript
  import opened EventLog
  import opened MessageQueues
  import opened RunTrace

  const SKIPPED := "Skipped due to queued user message."

  const BLOCKED := "Tool execution was blocked"

  /** What the hook that runs before a tool decides. */
  datatype Before = Allows | Blocks(reason: string) | HookThrows(error: string)

  datatype Execution = Returns(content: string) | Throws(error: string)

  /** What the hook that runs after a tool may replace. */
  datatype Override = Override(content: Option<string>, isError: Option<bool>)

  /** Everything outside the loop's control about one tool call, up to the steering poll after it. */
  datatype CallScript = CallScript(
    found: bool,
    invalid: Option<string>,
    before: Before,
    execution: Execution,
    after: Option<Override>,
    env: seq<EnvAction>)

  /** A tool call with what will come of it. */
  datatype Job = Job(call: ToolCall, script: CallScript) {
    /** The call fails in preparation: an immediate error stands in for its result. */
    predicate Fails() { Prepare(call, script).Immediate? }

    /** The result the call gets when steering does not cut it short. */
    function Own(): Message {
      match Prepare(call, script)
      case Immediate(text) => ToolResult(call.id, call.name, text, true)
      case Prepared => Finalize(call, script)
    }

    /** The result the call gets when steering does. */
    function Skip(): Message { ToolResult(call.id, call.name, SKIPPED, true) }
  }

  datatype Preparation = Immediate(text: string) | Prepared

  /** The checks a call must pass before it runs, in the order they are made. */
  function Prepare(call: ToolCall, s: CallScript): Preparation {
    if !s.found then Immediate("Tool " + call.name + " not found")
    else if s.invalid.Some? then Immediate(s.invalid.value)
    else match s.before
      case Blocks(reason) => Immediate(if reason != "" then reason else BLOCKED)
      case HookThrows(error) => Immediate(error)
      case Allows => Prepared
  }

  /** The result of a prepared call, after the override the last hook may ask for. */
  function Finalize(call: ToolCall, s: CallScript): Message {
    var text := if s.execution.Returns? then s.execution.content else s.execution.error;
    var isError := s.execution.Throws?;
    match s.after
    case None => ToolResult(call.id, call.name, text, isError)
    case Some(o) =>
      ToolResult(call.id, call.name,
                 if o.content.Some? then o.content.value else text,
                 if o.isError.Some? then o.isError.value else isError)
  }

  /**
   The state an executor works on. `runnable` are the prepared calls a parallel turn is holding back;
   `failures` counts preparation failures; `reached` are the calls whose preparation began; `steering`
   is the batch that interrupted the turn, empty while nothing has, and `unreached` the calls it cut off.
   */
  datatype Work = Work(
    log: seq<Event>,
    queues: Queues,
    acts: seq<Act>,
    results: seq<Message>,
    runnable: seq<Job>,
    failures: nat,
    reached: seq<Job>,
    unreached: seq<Job>,
    steering: seq<Message>)

  function Emit(w: Work, result: Message): Work {
    w.(log := w.log + Outcome(result), results := w.results + [result])
  }

  function Announce(w: Work, call: ToolCall): Work { w.(log := w.log + [ToolStart(call)]) }

  /** One steering poll, after the queue activity `env`. */
  function Poll(w: Work, env: seq<EnvAction>): Work {
    var q := PerformAll(w.queues, env);
    w.(queues := q.(steering := Rest(q.steering)),
       acts := w.acts + [SteerPoll(env, Batch(q.steering))],
       steering := Batch(q.steering))
  }

  function SkipAll(w: Work, jobs: seq<Job>, emitStart: bool): (w': Work)
    ensures w' == w.(log := w'.log, results := w'.results)
  {
    if jobs == [] then w
    else
      var before, job := SkipAll(w, jobs[..|jobs| - 1], emitStart), jobs[|jobs| - 1];
      Emit(if emitStart then Announce(before, job.call) else before, job.Skip())
  }

  // ---------------------------------------------------------------------------------------------
  // The sequential executor
  // ---------------------------------------------------------------------------------------------

  /** One call run to its result, before the steering poll. */
  function RunOne(w: Work, job: Job): Work {
    Emit(Announce(w, job.call), job.Own())
      .(failures := w.failures + (if job.Fails() then 1 else 0), reached := w.reached + [job])
  }

  function SequentialStep(w: Work, job: Job, rest: seq<Job>): Work {
    var polled := Poll(RunOne(w, job), job.script.env);
    if polled.steering != [] then SkipAll(polled.(unreached := rest), rest, true) else polled
  }

  /** The work after the first `i` iterations; an interrupted turn stays as it is. */
  function SequentialAfter(w: Work, jobs: seq<Job>, i: nat): Work
    requires i <= |jobs|
  {
    if i == 0 then w
    else
      var before := SequentialAfter(w, jobs, i - 1);
      if before.steering != [] then before else SequentialStep(before, jobs[i - 1], jobs[i..])
  }

  // ---------------------------------------------------------------------------------------------
  // The parallel executor
  // ---------------------------------------------------------------------------------------------

  /** One call prepared: failed at once, or held back to run with the others. */
  function PrepareOne(w: Work, job: Job): Work {
    if job.Fails() then RunOne(w, job)
    else Announce(w, job.call).(runnable := w.runnable + [job], reached := w.reached + [job])
  }

  function PrepareStep(w: Work, job: Job, rest: seq<Job>): Work {
    var polled := Poll(PrepareOne(w, job), job.script.env);
    if polled.steering != []
    then SkipAll(SkipAll(polled.(unreached := rest), polled.runnable, false), rest, true)
    else polled
  }

  function PrepareAfter(w: Work, jobs: seq<Job>, i: nat): Work
    requires i <= |jobs|
  {
    if i == 0 then w
    else
      var before := PrepareAfter(w, jobs, i - 1);
      if before.steering != [] then before else PrepareStep(before, jobs[i - 1], jobs[i..])
  }

  /** The held-back calls finished one after the other, in the order they were prepared. */
  function FinishAll(w: Work, held: seq<Job>): (w': Work)
    ensures w' == w.(log := w'.log, results := w'.results)
  {
    if held == [] then w
    else
      var job := held[|held| - 1];
      Emit(FinishAll(w, held[..|held| - 1]), Finalize(job.call, job.script))
  }

  function Parallel(w: Work, jobs: seq<Job>, env: seq<EnvAction>): Work {
    var prepared := PrepareAfter(w, jobs, |jobs|);
    if prepared.steering != [] then prepared else Poll(FinishAll(prepared, prepared.runnable), env)
  }

  /** Both executors; `env` is the queue activity before the last poll of a parallel turn. */
  function Execute(w: Work, jobs: seq<Job>, sequential: bool, env: seq<EnvAction>): Work {
    if sequential then SequentialAfter(w, jobs, |jobs|) else Parallel(w, jobs, env)
  }

  /** The work an executor starts from. */
  predicate Idle(w: Work) {
    w.results == [] && w.runnable == [] && w.failures == 0 && w.reached == [] && w.unreached == [] && w.steering == []
  }

  // ---------------------------------------------------------------------------------------------
  // Results: one per call, and in which order
  // ---------------------------------------------------------------------------------------------

  function Calls(jobs: seq<Job>): seq<ToolCall> {
    if jobs == [] then [] else Calls(jobs[..|jobs| - 1]) + [jobs[|jobs| - 1].call]
  }

  function Owns(jobs: seq<Job>): seq<Message> {
    if jobs == [] then [] else Owns(jobs[..|jobs| - 1]) + [jobs[|jobs| - 1].Own()]
  }

  function Skips(jobs: seq<Job>): seq<Message> {
    if jobs == [] then [] else Skips(jobs[..|jobs| - 1]) + [jobs[|jobs| - 1].Skip()]
  }

  /** The calls whose preparation fails (or, with `failing` false, succeeds), in source order. */
  function Select(jobs: seq<Job>, failing: bool): seq<Job> {
    if jobs == [] then []
    else
      var job := jobs[|jobs| - 1];
      Select(jobs[..|jobs| - 1], failing) + if job.Fails() == failing then [job] else []
  }

  lemma OwnsSnoc(jobs: seq<Job>, job: Job)
    ensures Owns(jobs + [job]) == Owns(jobs) + [job.Own()]
    ensures Select(jobs + [job], true) == if job.Fails() then Select(jobs, true) + [job] else Select(jobs, true)
    ensures Select(jobs + [job], false) == if job.Fails() then Select(jobs, false) else Select(jobs, false) + [job]
  {
    assert (jobs + [job])[..|jobs + [job]| - 1] == jobs;
  }

  lemma Split(jobs: seq<Job>, i: nat)
    requires 0 < i <= |jobs|
    ensures jobs[..i] == jobs[..i - 1] + [jobs[i - 1]] && jobs == jobs[..i] + jobs[i..]
  {
  }

  lemma {:induction false} SkipAllResults(w: Work, jobs: seq<Job>, emitStart: bool)
    ensures SkipAll(w, jobs, emitStart).results == w.results + Skips(jobs)
  {
    if jobs != [] {
      SkipAllResults(w, jobs[..|jobs| - 1], emitStart);
    }
  }

  /** What a sequential turn has to show for the calls it reached. */
  ghost predicate SequentialShape(w: Work) {
    && w.failures == |Select(w.reached, true)|
    && w.results == (if w.steering == [] then Owns(w.reached) else Owns(w.reached) + Skips(w.unreached))
  }

  /** The same for the preparation phase of a parallel turn. */
  ghost predicate PrepareShape(w: Work) {
    && w.failures == |Select(w.reached, true)|
    && w.runnable == Select(w.reached, false)
    && w.results == (if w.steering == [] then Owns(Select(w.reached, true))
                     else Owns(Select(w.reached, true)) + Skips(Select(w.reached, false)) + Skips(w.unreached))
  }

  lemma IdleShapes(w: Work)
    requires Idle(w)
    ensures SequentialShape(w) && PrepareShape(w)
  {
  }

  /**
   Sequential results come in source order: each reached call's own result, then a skip for each call
   the interruption left unreached; without an interruption every call is reached. The failure count
   is the number of reached calls that failed in preparation.
   */
  lemma {:induction false} SequentialResults(w: Work, jobs: seq<Job>, i: nat)
    requires i <= |jobs| && Idle(w)
    ensures var w' := SequentialAfter(w, jobs, i);
            && SequentialShape(w')
            && (w'.steering == [] ==> w'.reached == jobs[..i] && w'.unreached == [])
            && (w'.steering != [] ==> w'.reached + w'.unreached == jobs)
  {
    hide SequentialShape, SequentialStep, Owns, Skips, Select;
    if i == 0 {
      IdleShapes(w);
      assert jobs[..0] == [];
    } else {
      SequentialResults(w, jobs, i - 1);
      var before := SequentialAfter(w, jobs, i - 1);
      if before.steering == [] {
        SequentialStepResults(before, jobs[i - 1], jobs[i..]);
        Split(jobs, i);
      }
    }
  }

  lemma SequentialStepResults(w: Work, job: Job, rest: seq<Job>)
    requires w.steering == [] && w.unreached == [] && SequentialShape(w)
    ensures var w' := SequentialStep(w, job, rest);
            && SequentialShape(w')
            && w'.reached == w.reached + [job]
            && w'.unreached == (if w'.steering == [] then [] else rest)
  {
    SkipAllResults(Poll(RunOne(w, job), job.script.env).(unreached := rest), rest, true);
    OwnsSnoc(w.reached, job);
  }

  lemma {:induction false} PrepareResults(w: Work, jobs: seq<Job>, i: nat)
    requires i <= |jobs| && Idle(w)
    ensures var w' := PrepareAfter(w, jobs, i);
            && PrepareShape(w')
            && (w'.steering == [] ==> w'.reached == jobs[..i] && w'.unreached == [])
            && (w'.steering != [] ==> w'.reached + w'.unreached == jobs)
  {
    hide PrepareShape, PrepareStep, Owns, Skips, Select;
    if i == 0 {
      IdleShapes(w);
      assert jobs[..0] == [];
    } else {
      PrepareResults(w, jobs, i - 1);
      var before := PrepareAfter(w, jobs, i - 1);
      if before.steering == [] {
        PrepareStepResults(before, jobs[i - 1], jobs[i..]);
        Split(jobs, i);
      }
    }
  }

  lemma PrepareStepResults(w: Work, job: Job, rest: seq<Job>)
    requires w.steering == [] && w.unreached == [] && PrepareShape(w)
    ensures var w' := PrepareStep(w, job, rest);
            && PrepareShape(w')
            && w'.reached == w.reached + [job]
            && w'.unreached == (if w'.steering == [] then [] else rest)
  {
    OwnsSnoc(w.reached, job);
    OwnsSnoc(Select(w.reached, true), job);
    var polled := Poll(PrepareOne(w, job), job.script.env).(unreached := rest);
    SkipAllResults(polled, polled.runnable, false);
    SkipAllResults(SkipAll(polled, polled.runnable, false), rest, true);
  }

  lemma {:induction false} FinishResults(w: Work, held: seq<Job>)
    requires forall i :: 0 <= i < |held| ==> !held[i].Fails()
    ensures FinishAll(w, held).results == w.results + Owns(held)
  {
    if held != [] {
      FinishResults(w, held[..|held| - 1]);
    }
  }

  /**
   Parallel results are a stable partition: the preparation failures, then the prepared calls, then the
   unreached ones, each part in source order. The prepared calls have their own results unless steering
   interrupted the preparation, when they are skipped like the unreached ones.
   */
  lemma ParallelResults(w: Work, jobs: seq<Job>, env: seq<EnvAction>)
    requires Idle(w)
    ensures var w' := Parallel(w, jobs, env);
            var failed, held := Select(w'.reached, true), Select(w'.reached, false);
            && w'.reached + w'.unreached == jobs
            && w'.failures == |failed|
            && w'.results == (if PrepareAfter(w, jobs, |jobs|).steering != []
                              then Owns(failed) + Skips(held) + Skips(w'.unreached)
                              else Owns(failed) + Owns(held))
  {
    PrepareResults(w, jobs, |jobs|);
    var prepared := PrepareAfter(w, jobs, |jobs|);
    if prepared.steering == [] {
      SelectAllFail(prepared.reached);
      FinishResults(prepared, prepared.runnable);
    }
  }

  /** The calls in the order a parallel turn answers them. */
  function ParallelOrder(reached: seq<Job>, unreached: seq<Job>): seq<Job> {
    Select(reached, true) + Select(reached, false) + unreached
  }

  lemma NoneSelected()
    ensures Select([], true) == [] && Select([], false) == []
  {
  }

  lemma PartitionsSnoc(jobs: seq<Job>, job: Job)
    requires multiset(Select(jobs, true)) + multiset(Select(jobs, false)) == multiset(jobs)
    ensures multiset(Select(jobs + [job], true)) + multiset(Select(jobs + [job], false)) == multiset(jobs + [job])
  {
    hide Select, Owns;
    OwnsSnoc(jobs, job);
  }

  lemma {:induction false} SelectPartitions(jobs: seq<Job>)
    ensures multiset(Select(jobs, true)) + multiset(Select(jobs, false)) == multiset(jobs)
  {
    hide Select;
    NoneSelected();
    if jobs != [] {
      var init, job := jobs[..|jobs| - 1], jobs[|jobs| - 1];
      SelectPartitions(init);
      PartitionsSnoc(init, job);
      assert jobs == init + [job];
    }
  }

  /** Every call is answered exactly once. */
  lemma ParallelOrderIsPermutation(reached: seq<Job>, unreached: seq<Job>)
    ensures multiset(ParallelOrder(reached, unreached)) == multiset(reached + unreached)
  {
    SelectPartitions(reached);
  }

  /**
   The results come in source order exactly when no reached call fails in preparation after an earlier
   call was prepared.
   */
  lemma ParallelSourceOrder(reached: seq<Job>, unreached: seq<Job>)
    ensures ParallelOrder(reached, unreached) == reached + unreached
       <==> forall i, j :: 0 <= i < j < |reached| && reached[j].Fails() ==> reached[i].Fails()
  {
    SelectAllFail(reached);
    if forall i, j :: 0 <= i < j < |reached| && reached[j].Fails() ==> reached[i].Fails() {
      NoInversion(reached);
    } else {
      var i, j :| 0 <= i < j < |reached| && reached[j].Fails() && !reached[i].Fails();
      var order := ParallelOrder(reached, unreached);
      if i < |Select(reached, true)| {
        assert order[i] != (reached + unreached)[i];
      } else {
        assert order[j] != (reached + unreached)[j];
      }
    }
  }

  lemma {:induction false} SelectAllFail(jobs: seq<Job>)
    ensures forall i :: 0 <= i < |Select(jobs, true)| ==> Select(jobs, true)[i].Fails()
    ensures forall i :: 0 <= i < |Select(jobs, false)| ==> !Select(jobs, false)[i].Fails()
    ensures |Select(jobs, true)| + |Select(jobs, false)| == |jobs|
  {
    if jobs != [] {
      SelectAllFail(jobs[..|jobs| - 1]);
    }
  }

  lemma {:induction false} NoInversion(jobs: seq<Job>)
    requires forall i, j :: 0 <= i < j < |jobs| && jobs[j].Fails() ==> jobs[i].Fails()
    ensures Select(jobs, true) + Select(jobs, false) == jobs
  {
    if jobs != [] {
      var init, job := jobs[..|jobs| - 1], jobs[|jobs| - 1];
      NoInversion(init);
      if job.Fails() {
        NoneHeld(init);
      }
    }
  }

  lemma {:induction false} NoneHeld(jobs: seq<Job>)
    requires forall i :: 0 <= i < |jobs| ==> jobs[i].Fails()
    ensures Select(jobs, false) == []
  {
    if jobs != [] {
      NoneHeld(jobs[..|jobs| - 1]);
    }
  }
}
