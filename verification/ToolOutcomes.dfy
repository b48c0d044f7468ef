/**
 What becomes of a tool call, told from its script alone: which calls are refused and with what text, what a tool that
 ran shows, and that a refused call never shows anything of a tool.
 */
module ToolOutcomes {
  import opened Wrappers
  import opened Transcript
  import opened EventLog
  import opened MessageQueues
  import opened RunTrace
  import opened ToolExecution

  /** The call is refused: no such tool, invalid arguments, or a hook that blocks it or throws. */
  predicate Refused(s: CallScript) { !s.found || s.invalid.Some? || s.before.Blocks? || s.before.HookThrows? }

  /** A result says why its call was refused: the first check that fails, in this order, has the word. */
  predicate SaysWhy(call: ToolCall, s: CallScript, text: string) {
    && (!s.found ==> text == "Tool " + call.name + " not found")
    && (s.found && s.invalid.Some? ==> s.invalid == Some(text))
    && (s.found && s.invalid.None? && s.before.Blocks? && s.before.reason == "" ==> text == "Tool execution was blocked")
    && (s.found && s.invalid.None? && s.before.Blocks? && s.before.reason != "" ==> text == s.before.reason)
    && (s.found && s.invalid.None? && s.before.HookThrows? ==> text == s.before.error)
  }

  /** A result shows what the tool came to, except where the last hook replaced a part of it. */
  predicate ShowsTool(s: CallScript, text: string, isError: bool) {
    && (s.after.Some? && s.after.value.content.Some? ==> s.after.value.content == Some(text))
    && (s.after.Some? && s.after.value.isError.Some? ==> s.after.value.isError == Some(isError))
    && (s.after.None? || s.after.value.content.None? ==>
          match s.execution case Returns(content) => text == content case Throws(error) => text == error)
    && (s.after.None? || s.after.value.isError.None? ==> (isError <==> s.execution.Throws?))
  }

  lemma FailsIff(job: Job)
    ensures job.Fails() <==> Refused(job.script)
  {
  }

  /** The result a reached call gets: keyed like the call, an error that says why, or what the tool shows. */
  predicate Reports(job: Job, result: Message) {
    && result.ToolResult? && result.callId == job.call.id && result.toolName == job.call.name
    && (Refused(job.script) ==> result.isError && SaysWhy(job.call, job.script, result.text))
    && (!Refused(job.script) ==> ShowsTool(job.script, result.text, result.isError))
  }

  lemma OwnReports(job: Job)
    ensures Reports(job, job.Own())
  {
  }

  /** The result a cut-off call gets. */
  predicate ReportsSkip(job: Job, result: Message) {
    result == ToolResult(job.call.id, job.call.name, "Skipped due to queued user message.", true)
  }

  lemma {:induction false} OwnsReport(jobs: seq<Job>)
    ensures |Owns(jobs)| == |Skips(jobs)| == |jobs|
    ensures forall k :: 0 <= k < |jobs| ==> Reports(jobs[k], Owns(jobs)[k]) && ReportsSkip(jobs[k], Skips(jobs)[k])
  {
    hide Reports;
    if jobs != [] {
      OwnsReport(jobs[..|jobs| - 1]);
      OwnReports(jobs[|jobs| - 1]);
    }
  }

  function CountRefused(jobs: seq<Job>): nat {
    if jobs == [] then 0
    else CountRefused(jobs[..|jobs| - 1]) + if Refused(jobs[|jobs| - 1].script) then 1 else 0
  }

  /** The refused calls (or, with `refused` false, the others), in source order. */
  function Sorted(jobs: seq<Job>, refused: bool): seq<Job> {
    if jobs == [] then []
    else
      var rest, job := Sorted(jobs[..|jobs| - 1], refused), jobs[|jobs| - 1];
      if Refused(job.script) == refused then rest + [job] else rest
  }

  lemma {:induction false} SelectSorts(jobs: seq<Job>)
    ensures Select(jobs, true) == Sorted(jobs, true) && Select(jobs, false) == Sorted(jobs, false)
    ensures |Sorted(jobs, true)| == CountRefused(jobs)
  {
    hide Refused;
    if jobs != [] {
      SelectSorts(jobs[..|jobs| - 1]);
      FailsIff(jobs[|jobs| - 1]);
    }
  }

  /** The results report the calls one by one, and then the cut-off ones as skipped. */
  ghost predicate ReportAll(results: seq<Message>, jobs: seq<Job>, skipped: seq<Job>) {
    && |results| == |jobs| + |skipped|
    && (forall k :: 0 <= k < |jobs| ==> Reports(jobs[k], results[k]))
    && (forall k :: 0 <= k < |skipped| ==> ReportsSkip(skipped[k], results[|jobs| + k]))
  }

  lemma ReportOwnsAndSkips(jobs: seq<Job>, skipped: seq<Job>)
    ensures ReportAll(Owns(jobs) + Skips(skipped), jobs, skipped)
  {
    hide Reports, ReportsSkip;
    OwnsReport(jobs);
    OwnsReport(skipped);
  }

  /** The failure count of a turn is the number of its reached calls that are refused. */
  lemma ExecuteCountsRefused(w: Work, jobs: seq<Job>, sequential: bool, env: seq<EnvAction>)
    requires Idle(w)
    ensures var w' := Execute(w, jobs, sequential, env);
            w'.failures == CountRefused(w'.reached) && w'.reached + w'.unreached == jobs
  {
    hide Owns, Skips, Select;
    var w' := Execute(w, jobs, sequential, env);
    if sequential {
      SequentialResults(w, jobs, |jobs|);
      assert jobs[..|jobs|] + [] == jobs;
    } else {
      ParallelResults(w, jobs, env);
    }
    SelectSorts(w'.reached);
  }

  /** Sequential results report the reached calls in source order, and then the cut-off ones as skipped. */
  lemma SequentialReports(w: Work, jobs: seq<Job>, env: seq<EnvAction>)
    requires Idle(w)
    ensures var w' := Execute(w, jobs, true, env);
            ReportAll(w'.results, w'.reached, w'.unreached)
  {
    hide Owns, Skips, Select, ReportAll;
    var w' := Execute(w, jobs, true, env);
    SequentialResults(w, jobs, |jobs|);
    ReportOwnsAndSkips(w'.reached, w'.unreached);
    NoSkips();
    assert Owns(w'.reached) + [] == Owns(w'.reached);
  }

  lemma NoSkips()
    ensures Skips([]) == []
  {
  }

  /**
   Parallel results report the refused calls first, in source order. If steering cut the preparation short, the others
   are all skipped; otherwise each reports what its tool came to.
   */
  lemma ParallelReports(w: Work, jobs: seq<Job>, env: seq<EnvAction>)
    requires Idle(w)
    ensures var w' := Execute(w, jobs, false, env);
            var refused, held := Sorted(w'.reached, true), Sorted(w'.reached, false);
            if PrepareAfter(w, jobs, |jobs|).steering != [] then ReportAll(w'.results, refused, held + w'.unreached)
            else ReportAll(w'.results, refused + held, []) && w'.unreached == []
  {
    hide Owns, Skips, Select, ReportAll, Sorted, PrepareAfter;
    var w' := Parallel(w, jobs, env);
    ParallelResults(w, jobs, env);
    SelectSorts(w'.reached);
    PreparedReachesAll(w, jobs, env);
    CutShortReports(Sorted(w'.reached, true), Sorted(w'.reached, false), w'.unreached);
    UninterruptedReports(Sorted(w'.reached, true), Sorted(w'.reached, false));
  }

  lemma CutShortReports(refused: seq<Job>, held: seq<Job>, unreached: seq<Job>)
    ensures ReportAll(Owns(refused) + Skips(held) + Skips(unreached), refused, held + unreached)
  {
    hide Owns, Skips, ReportAll;
    ReportOwnsAndSkips(refused, held + unreached);
    ResultsAppend(held, unreached);
    assert Owns(refused) + Skips(held) + Skips(unreached) == Owns(refused) + (Skips(held) + Skips(unreached));
  }

  lemma UninterruptedReports(refused: seq<Job>, held: seq<Job>)
    ensures ReportAll(Owns(refused) + Owns(held), refused + held, [])
  {
    hide Owns, Skips, ReportAll;
    ReportOwnsAndSkips(refused + held, []);
    ResultsAppend(refused, held);
    NoSkips();
    assert Owns(refused + held) + [] == Owns(refused + held);
  }

  lemma PreparedReachesAll(w: Work, jobs: seq<Job>, env: seq<EnvAction>)
    requires Idle(w)
    ensures PrepareAfter(w, jobs, |jobs|).steering == [] ==> Parallel(w, jobs, env).unreached == []
  {
    PrepareResults(w, jobs, |jobs|);
  }

  lemma {:induction false} ResultsAppend(a: seq<Job>, b: seq<Job>)
    ensures Owns(a + b) == Owns(a) + Owns(b) && Skips(a + b) == Skips(a) + Skips(b)
  {
    if b == [] {
      assert a + b == a;
    } else {
      assert (a + b)[..|a + b| - 1] == a + b[..|b| - 1];
      ResultsAppend(a, b[..|b| - 1]);
    }
  }

  // ---------------------------------------------------------------------------------------------
  // A refused call shows nothing of a tool
  // ---------------------------------------------------------------------------------------------

  /** The same call, but for what its tool and the hook after it would come to if it is refused anyway. */
  ghost predicate SameButUnrun(a: Job, b: Job) {
    a == b || (Refused(a.script) && a.call == b.call
               && a.script.(execution := b.script.execution, after := b.script.after) == b.script)
  }

  ghost predicate AllSameButUnrun(a: seq<Job>, b: seq<Job>) {
    |a| == |b| && forall k :: 0 <= k < |a| ==> SameButUnrun(a[k], b[k])
  }

  /** Nothing that anyone can see of two turns' work differs. */
  ghost predicate Indistinguishable(v: Work, w: Work) {
    && v.log == w.log && v.queues == w.queues && v.acts == w.acts && v.results == w.results
    && v.runnable == w.runnable && v.failures == w.failures && v.steering == w.steering
  }

  lemma RefusedShowsNoTool(a: Job, b: Job)
    requires SameButUnrun(a, b)
    ensures a.Own() == b.Own() && a.Skip() == b.Skip() && a.call == b.call && a.Fails() == b.Fails()
    ensures a.script.env == b.script.env && (!a.Fails() ==> a == b)
  {
  }

  lemma {:induction false} SkipsIndistinguishable(v: Work, w: Work, a: seq<Job>, b: seq<Job>, emitStart: bool)
    requires Indistinguishable(v, w) && AllSameButUnrun(a, b)
    ensures Indistinguishable(SkipAll(v, a, emitStart), SkipAll(w, b, emitStart))
  {
    hide SameButUnrun, Outcome;
    if a != [] {
      SkipsIndistinguishable(v, w, a[..|a| - 1], b[..|b| - 1], emitStart);
      RefusedShowsNoTool(a[|a| - 1], b[|b| - 1]);
    }
  }

  lemma SequentialStepIndistinguishable(v: Work, w: Work, a: Job, b: Job, restA: seq<Job>, restB: seq<Job>)
    requires Indistinguishable(v, w) && SameButUnrun(a, b) && AllSameButUnrun(restA, restB)
    ensures Indistinguishable(SequentialStep(v, a, restA), SequentialStep(w, b, restB))
  {
    hide SameButUnrun, Outcome, SkipAll, AllSameButUnrun, PerformAll, Batch, Rest;
    RefusedShowsNoTool(a, b);
    var v', w' := Poll(RunOne(v, a), a.script.env), Poll(RunOne(w, b), b.script.env);
    SkipsIndistinguishable(v'.(unreached := restA), w'.(unreached := restB), restA, restB, true);
  }

  lemma PrepareStepIndistinguishable(v: Work, w: Work, a: Job, b: Job, restA: seq<Job>, restB: seq<Job>)
    requires Indistinguishable(v, w) && SameButUnrun(a, b) && AllSameButUnrun(restA, restB)
    ensures Indistinguishable(PrepareStep(v, a, restA), PrepareStep(w, b, restB))
  {
    hide SameButUnrun, Outcome, SkipAll, PerformAll, Batch, Rest;
    RefusedShowsNoTool(a, b);
    var v', w' := Poll(PrepareOne(v, a), a.script.env).(unreached := restA), Poll(PrepareOne(w, b), b.script.env).(unreached := restB);
    SameIsSame(v'.runnable);
    SkipsIndistinguishable(v', w', v'.runnable, w'.runnable, false);
    SkipsIndistinguishable(SkipAll(v', v'.runnable, false), SkipAll(w', w'.runnable, false), restA, restB, true);
  }

  lemma SameIsSame(jobs: seq<Job>)
    ensures AllSameButUnrun(jobs, jobs)
  {
  }

  lemma {:induction false} SequentialIndistinguishable(w: Work, a: seq<Job>, b: seq<Job>, i: nat)
    requires AllSameButUnrun(a, b) && i <= |a|
    ensures Indistinguishable(SequentialAfter(w, a, i), SequentialAfter(w, b, i))
  {
    hide SameButUnrun, SequentialStep;
    if i > 0 {
      SequentialIndistinguishable(w, a, b, i - 1);
      SequentialStepIndistinguishable(SequentialAfter(w, a, i - 1), SequentialAfter(w, b, i - 1),
                                      a[i - 1], b[i - 1], a[i..], b[i..]);
    }
  }

  lemma {:induction false} PrepareIndistinguishable(w: Work, a: seq<Job>, b: seq<Job>, i: nat)
    requires AllSameButUnrun(a, b) && i <= |a|
    ensures Indistinguishable(PrepareAfter(w, a, i), PrepareAfter(w, b, i))
  {
    hide SameButUnrun, PrepareStep;
    if i > 0 {
      PrepareIndistinguishable(w, a, b, i - 1);
      PrepareStepIndistinguishable(PrepareAfter(w, a, i - 1), PrepareAfter(w, b, i - 1),
                                   a[i - 1], b[i - 1], a[i..], b[i..]);
    }
  }

  lemma {:induction false} FinishIndistinguishable(v: Work, w: Work, held: seq<Job>)
    requires Indistinguishable(v, w)
    ensures Indistinguishable(FinishAll(v, held), FinishAll(w, held))
  {
    hide Outcome;
    if held != [] {
      FinishIndistinguishable(v, w, held[..|held| - 1]);
    }
  }

  /**
   What the tool of a refused call would have returned, and what the hook after it would have made of that, never shows:
   not in the results, the log, the trace, the queues or the failure count of its turn.
   */
  lemma RefusedCallsAreNotRun(w: Work, a: seq<Job>, b: seq<Job>, sequential: bool, env: seq<EnvAction>)
    requires AllSameButUnrun(a, b)
    ensures Indistinguishable(Execute(w, a, sequential, env), Execute(w, b, sequential, env))
  {
    hide SequentialAfter, PrepareAfter, FinishAll, SameButUnrun;
    if sequential {
      SequentialIndistinguishable(w, a, b, |a|);
    } else {
      PrepareIndistinguishable(w, a, b, |a|);
      var x, y := PrepareAfter(w, a, |a|), PrepareAfter(w, b, |b|);
      FinishIndistinguishable(x, y, x.runnable);
    }
  }
}
