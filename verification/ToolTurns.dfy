/**
 What a locally executed tool turn does to the event log, the queues and the trace, whichever executor
 runs it and wherever steering interrupts it.
 */
module ToolTurns {
  import opened Transcript
  import opened EventLog
  import opened MessageQueues
  import opened RunTrace
  import opened ToolExecution

  function JobKeys(jobs: seq<Job>): multiset<Key> {
    if jobs == [] then multiset{} else JobKeys(jobs[..|jobs| - 1]) + multiset{jobs[|jobs| - 1].call.Key()}
  }

  /** The work stands in a turn whose log replays to `base` plus the results so far. */
  ghost predicate Stands(r: Replica, base: seq<Message>, w: Work, open: multiset<Key>) {
    InTurn(r, w.log, base + w.results, open)
  }

  lemma EmitStands(r: Replica, base: seq<Message>, w: Work, open: multiset<Key>, result: Message)
    requires Stands(r, base, w, open + multiset{result.Key()})
    ensures Stands(r, base, Emit(w, result), open)
    ensures Started(Emit(w, result).log) == Started(w.log)
  {
    InTurnOutcome(r, w.log, base + w.results, open + multiset{result.Key()}, result);
    assert open + multiset{result.Key()} - multiset{result.Key()} == open;
    assert base + w.results + [result] == base + (w.results + [result]);
  }

  lemma AnnounceStands(r: Replica, base: seq<Message>, w: Work, open: multiset<Key>, call: ToolCall)
    requires Stands(r, base, w, open)
    ensures Stands(r, base, Announce(w, call), open + multiset{call.Key()})
    ensures Started(Announce(w, call).log) == Started(w.log) + [call]
  {
    InTurnStart(r, w.log, base + w.results, open, call);
  }

  lemma {:induction false} SkipAllStands(r: Replica, base: seq<Message>, w: Work, jobs: seq<Job>, emitStart: bool,
                                         open: multiset<Key>)
    requires Stands(r, base, w, if emitStart then open else open + JobKeys(jobs))
    ensures Stands(r, base, SkipAll(w, jobs, emitStart), open)
    ensures Started(SkipAll(w, jobs, emitStart).log) == if emitStart then Started(w.log) + Calls(jobs) else Started(w.log)
  {
    hide Stands, Outcome;
    if jobs != [] {
      var init, job := jobs[..|jobs| - 1], jobs[|jobs| - 1];
      var key := job.call.Key();
      if emitStart {
        SkipAllStands(r, base, w, init, true, open);
        AnnounceStands(r, base, SkipAll(w, init, true), open, job.call);
        EmitStands(r, base, Announce(SkipAll(w, init, true), job.call), open, job.Skip());
      } else {
        assert open + JobKeys(jobs) == open + multiset{key} + JobKeys(init);
        SkipAllStands(r, base, w, init, false, open + multiset{key});
        EmitStands(r, base, SkipAll(w, init, false), open, job.Skip());
      }
    } else {
      assert Started(w.log) + Calls(jobs) == Started(w.log);
      assert open + JobKeys(jobs) == open;
    }
  }

  lemma RunOneStands(r: Replica, base: seq<Message>, w: Work, job: Job, open: multiset<Key>)
    requires Stands(r, base, w, open)
    ensures Stands(r, base, RunOne(w, job), open)
    ensures Started(RunOne(w, job).log) == Started(w.log) + [job.call]
  {
    AnnounceStands(r, base, w, open, job.call);
    EmitStands(r, base, Announce(w, job.call), open, job.Own());
  }

  lemma CallsSnoc(jobs: seq<Job>, job: Job)
    ensures Calls(jobs + [job]) == Calls(jobs) + [job.call]
    ensures JobKeys(jobs + [job]) == JobKeys(jobs) + multiset{job.call.Key()}
  {
    assert (jobs + [job])[..|jobs + [job]| - 1] == jobs;
  }

  lemma {:induction false} CallsAppend(a: seq<Job>, b: seq<Job>)
    ensures Calls(a + b) == Calls(a) + Calls(b)
  {
    if b == [] {
      assert a + b == a;
    } else {
      assert (a + b)[..|a + b| - 1] == a + b[..|b| - 1];
      CallsAppend(a, b[..|b| - 1]);
    }
  }

  /** The log of an executor: calls started in source order, and none open unless it is held back. */
  ghost predicate Logged(r: Replica, base: seq<Message>, before: Work, w: Work) {
    && Stands(r, base, w, if w.steering == [] then JobKeys(w.runnable) else multiset{})
    && Started(w.log) == Started(before.log) + Calls(w.reached + w.unreached)
  }

  /** An interruption ends the held-back calls without starting them again, and starts and ends the rest. */
  lemma CutStands(r: Replica, base: seq<Message>, w: Work, rest: seq<Job>)
    requires Stands(r, base, w, JobKeys(w.runnable))
    ensures var w' := SkipAll(SkipAll(w, w.runnable, false), rest, true);
            Stands(r, base, w', multiset{}) && Started(w'.log) == Started(w.log) + Calls(rest)
  {
    assert multiset{} + JobKeys(w.runnable) == JobKeys(w.runnable);
    SkipAllStands(r, base, w, w.runnable, false, multiset{});
    SkipAllStands(r, base, SkipAll(w, w.runnable, false), rest, true, multiset{});
  }

  lemma StartedSoFar(start: seq<ToolCall>, reached: seq<Job>, job: Job, rest: seq<Job>)
    ensures start + Calls(reached + []) + [job.call] == start + Calls(reached + [job] + [])
    ensures start + Calls(reached + []) + [job.call] + Calls(rest) == start + Calls(reached + [job] + rest)
  {
    assert reached + [] == reached && reached + [job] + [] == reached + [job];
    CallsSnoc(reached, job);
    CallsAppend(reached + [job], rest);
  }

  lemma SequentialStepLogged(r: Replica, base: seq<Message>, before: Work, w: Work, job: Job, rest: seq<Job>)
    requires w.steering == [] && w.unreached == [] && w.runnable == [] && Logged(r, base, before, w)
    ensures Logged(r, base, before, SequentialStep(w, job, rest))
    ensures var w' := SequentialStep(w, job, rest);
            w'.runnable == [] && (w'.steering == [] ==> w'.unreached == [])
  {
    RunOneStands(r, base, w, job, multiset{});
    StartedSoFar(Started(before.log), w.reached, job, rest);
    var polled := Poll(RunOne(w, job), job.script.env);
    if polled.steering != [] {
      CutStands(r, base, polled.(unreached := rest), rest);
    }
  }

  lemma PrepareOneStands(r: Replica, base: seq<Message>, w: Work, job: Job)
    requires Stands(r, base, w, JobKeys(w.runnable))
    ensures Stands(r, base, PrepareOne(w, job), JobKeys(PrepareOne(w, job).runnable))
    ensures Started(PrepareOne(w, job).log) == Started(w.log) + [job.call]
  {
    if job.Fails() {
      RunOneStands(r, base, w, job, JobKeys(w.runnable));
    } else {
      AnnounceStands(r, base, w, JobKeys(w.runnable), job.call);
      CallsSnoc(w.runnable, job);
    }
  }

  lemma PrepareStepLogged(r: Replica, base: seq<Message>, before: Work, w: Work, job: Job, rest: seq<Job>)
    requires w.steering == [] && w.unreached == [] && Logged(r, base, before, w)
    ensures Logged(r, base, before, PrepareStep(w, job, rest))
    ensures var w' := PrepareStep(w, job, rest);
            w'.steering == [] ==> w'.unreached == []
  {
    PrepareOneStands(r, base, w, job);
    StartedSoFar(Started(before.log), w.reached, job, rest);
    var polled := Poll(PrepareOne(w, job), job.script.env);
    if polled.steering != [] {
      CutStands(r, base, polled.(unreached := rest), rest);
    }
  }

  lemma IdleLogged(r: Replica, base: seq<Message>, w: Work)
    requires Idle(w) && Stands(r, base, w, multiset{})
    ensures Logged(r, base, w, w)
  {
    assert Started(w.log) + [] == Started(w.log);
  }

  lemma {:induction false} SequentialLogged(r: Replica, base: seq<Message>, w: Work, jobs: seq<Job>, i: nat)
    requires i <= |jobs| && Idle(w) && Stands(r, base, w, multiset{})
    ensures var w' := SequentialAfter(w, jobs, i);
            Logged(r, base, w, w') && w'.runnable == [] && (w'.steering == [] ==> w'.unreached == [])
  {
    hide Logged, SequentialStep, Stands;
    if i == 0 {
      IdleLogged(r, base, w);
    } else {
      SequentialLogged(r, base, w, jobs, i - 1);
      var before := SequentialAfter(w, jobs, i - 1);
      if before.steering == [] {
        SequentialStepLogged(r, base, w, before, jobs[i - 1], jobs[i..]);
        assert SequentialAfter(w, jobs, i) == SequentialStep(before, jobs[i - 1], jobs[i..]);
      }
    }
  }

  lemma {:induction false} PrepareLogged(r: Replica, base: seq<Message>, w: Work, jobs: seq<Job>, i: nat)
    requires i <= |jobs| && Idle(w) && Stands(r, base, w, multiset{})
    ensures var w' := PrepareAfter(w, jobs, i);
            Logged(r, base, w, w') && (w'.steering == [] ==> w'.unreached == [])
  {
    hide Logged, PrepareStep, Stands;
    if i == 0 {
      IdleLogged(r, base, w);
    } else {
      PrepareLogged(r, base, w, jobs, i - 1);
      var before := PrepareAfter(w, jobs, i - 1);
      if before.steering == [] {
        PrepareStepLogged(r, base, w, before, jobs[i - 1], jobs[i..]);
        assert PrepareAfter(w, jobs, i) == PrepareStep(before, jobs[i - 1], jobs[i..]);
      }
    }
  }

  lemma {:induction false} FinishAllStands(r: Replica, base: seq<Message>, w: Work, held: seq<Job>, open: multiset<Key>)
    requires Stands(r, base, w, open + JobKeys(held))
    ensures Stands(r, base, FinishAll(w, held), open)
    ensures Started(FinishAll(w, held).log) == Started(w.log)
  {
    if held == [] {
      assert open + JobKeys(held) == open;
    } else {
      var init, job := held[..|held| - 1], held[|held| - 1];
      assert open + JobKeys(held) == open + multiset{job.call.Key()} + JobKeys(init);
      FinishAllStands(r, base, w, init, open + multiset{job.call.Key()});
      EmitStands(r, base, FinishAll(w, init), open, Finalize(job.call, job.script));
    }
  }

  /**
   Whatever the executor, the calls' starts come in source order, one each; every start is matched by
   a later end; the results are appended to the replica in the order they are returned.
   */
  lemma ExecuteLogged(r: Replica, base: seq<Message>, w: Work, jobs: seq<Job>, sequential: bool, env: seq<EnvAction>)
    requires Idle(w) && Stands(r, base, w, multiset{})
    ensures var w' := Execute(w, jobs, sequential, env);
            Stands(r, base, w', multiset{}) && Started(w'.log) == Started(w.log) + Calls(jobs)
  {
    if sequential {
      SequentialLogged(r, base, w, jobs, |jobs|);
      SequentialResults(w, jobs, |jobs|);
      assert jobs[..|jobs|] == jobs && jobs + [] == jobs;
    } else {
      PrepareLogged(r, base, w, jobs, |jobs|);
      PrepareResults(w, jobs, |jobs|);
      assert jobs[..|jobs|] == jobs && jobs + [] == jobs;
      var prepared := PrepareAfter(w, jobs, |jobs|);
      if prepared.steering == [] {
        assert multiset{} + JobKeys(prepared.runnable) == JobKeys(prepared.runnable);
        FinishAllStands(r, base, prepared, prepared.runnable, multiset{});
      }
    }
  }

  // ---------------------------------------------------------------------------------------------
  // The results answer the calls
  // ---------------------------------------------------------------------------------------------

  /** `results` answer the calls of `jobs`, in some order. */
  ghost predicate Covers(results: seq<Message>, jobs: seq<Job>) {
    AllResults(results) && |results| == |jobs| && multiset(ResultKeys(results)) == JobKeys(jobs)
  }

  lemma {:induction false} OwnsCover(jobs: seq<Job>)
    ensures Covers(Owns(jobs), jobs) && Covers(Skips(jobs), jobs)
  {
    if jobs != [] {
      var init, job := jobs[..|jobs| - 1], jobs[|jobs| - 1];
      OwnsCover(init);
      assert ResultKeys(Owns(jobs)) == ResultKeys(Owns(init)) + [job.call.Key()];
      assert ResultKeys(Skips(jobs)) == ResultKeys(Skips(init)) + [job.call.Key()];
    }
  }

  lemma {:induction false} CallsCover(jobs: seq<Job>)
    ensures |Calls(jobs)| == |jobs| && multiset(CallKeys(Calls(jobs))) == JobKeys(jobs)
  {
    if jobs != [] {
      var init, job := jobs[..|jobs| - 1], jobs[|jobs| - 1];
      CallsCover(init);
      assert CallKeys(Calls(jobs)) == CallKeys(Calls(init)) + [job.call.Key()];
    }
  }

  lemma {:induction false} JobKeysAppend(a: seq<Job>, b: seq<Job>)
    ensures JobKeys(a + b) == JobKeys(a) + JobKeys(b)
  {
    if b == [] {
      assert a + b == a;
    } else {
      assert (a + b)[..|a + b| - 1] == a + b[..|b| - 1];
      JobKeysAppend(a, b[..|b| - 1]);
    }
  }

  lemma CoversAppend(x: seq<Message>, a: seq<Job>, y: seq<Message>, b: seq<Job>)
    requires Covers(x, a) && Covers(y, b)
    ensures Covers(x + y, a + b)
  {
    assert ResultKeys(x + y) == ResultKeys(x) + ResultKeys(y);
    JobKeysAppend(a, b);
  }

  lemma JobKeysSnoc(jobs: seq<Job>, job: Job)
    ensures JobKeys(jobs + [job]) == JobKeys(jobs) + multiset{job.call.Key()}
  {
    assert (jobs + [job])[..|jobs|] == jobs;
  }

  lemma SelectKeysSnoc(jobs: seq<Job>, job: Job)
    requires JobKeys(Select(jobs, true) + Select(jobs, false)) == JobKeys(jobs)
    requires |Select(jobs, true) + Select(jobs, false)| == |jobs|
    ensures JobKeys(Select(jobs + [job], true) + Select(jobs + [job], false)) == JobKeys(jobs + [job])
    ensures |Select(jobs + [job], true) + Select(jobs + [job], false)| == |jobs + [job]|
  {
    hide JobKeys, Select, Owns;
    var failed, held := Select(jobs, true), Select(jobs, false);
    OwnsSnoc(jobs, job);
    JobKeysSnoc(jobs, job);
    JobKeysSnoc(failed, job);
    JobKeysSnoc(held, job);
    JobKeysAppend(failed, held);
    JobKeysAppend(failed + [job], held);
    JobKeysAppend(failed, held + [job]);
  }

  lemma {:induction false} SelectKeys(jobs: seq<Job>)
    ensures JobKeys(Select(jobs, true) + Select(jobs, false)) == JobKeys(jobs)
    ensures |Select(jobs, true) + Select(jobs, false)| == |jobs|
  {
    if jobs != [] {
      var init, job := jobs[..|jobs| - 1], jobs[|jobs| - 1];
      SelectKeys(init);
      SelectKeysSnoc(init, job);
      assert jobs == init + [job];
    }
  }

  /** Both executors return exactly one result per call, under any interruption. */
  lemma ExecuteAnswers(w: Work, jobs: seq<Job>, sequential: bool, env: seq<EnvAction>)
    requires Idle(w)
    ensures Answers(Execute(w, jobs, sequential, env).results, Calls(jobs))
  {
    var w' := Execute(w, jobs, sequential, env);
    CallsCover(jobs);
    OwnsCover(jobs);
    if sequential {
      SequentialResults(w, jobs, |jobs|);
      assert jobs[..|jobs|] == jobs;
      if w'.steering != [] {
        OwnsCover(w'.reached);
        OwnsCover(w'.unreached);
        CoversAppend(Owns(w'.reached), w'.reached, Skips(w'.unreached), w'.unreached);
      }
    } else {
      ParallelResults(w, jobs, env);
      var failed, held := Select(w'.reached, true), Select(w'.reached, false);
      OwnsCover(failed);
      OwnsCover(held);
      OwnsCover(w'.unreached);
      SelectKeys(w'.reached);
      CoversAppend(Owns(failed), failed, Owns(held), held);
      CoversAppend(Owns(failed), failed, Skips(held), held);
      CoversAppend(Owns(failed) + Skips(held), failed + held, Skips(w'.unreached), w'.unreached);
      JobKeysAppend(failed + held, w'.unreached);
      JobKeysAppend(w'.reached, w'.unreached);
      ParallelKeys(w, jobs, env);
    }
  }

  lemma ParallelKeys(w: Work, jobs: seq<Job>, env: seq<EnvAction>)
    requires Idle(w)
    ensures PrepareAfter(w, jobs, |jobs|).steering == [] ==> Parallel(w, jobs, env).unreached == []
  {
    PrepareResults(w, jobs, |jobs|);
  }

  // ---------------------------------------------------------------------------------------------
  // Polls
  // ---------------------------------------------------------------------------------------------

  /** From `a` to `b` the trace only gained steering polls, all empty but perhaps the last: `batch`. */
  ghost predicate Polled(a: seq<Act>, b: seq<Act>, batch: seq<Message>) {
    && Streak(b) == Streak(a)
    && Count(b, IsAsk) == Count(a, IsAsk)
    && Count(b, IsExecution) == Count(a, IsExecution)
    && Count(b, IsFollowBatch) == Count(a, IsFollowBatch)
    && Count(b, IsSteerBatch) == Count(a, IsSteerBatch) + (if batch != [] then 1 else 0)
    && Batches(b) == Batches(a) + batch
    && (AsksWellPaired(a) ==> AsksWellPaired(b))
    && (FollowsOnlyWhenIdle(a) ==> FollowsOnlyWhenIdle(b))
  }

  /** The queues follow the trace, which only polled. */
  ghost predicate Drawn(l: Ledgers, a: seq<Act>, w: Work) {
    Fed(l, w.acts, w.queues) && Polled(a, w.acts, w.steering)
  }

  lemma PollDrawn(l: Ledgers, a: seq<Act>, w: Work, env: seq<EnvAction>)
    requires Drawn(l, a, w) && w.steering == []
    ensures Drawn(l, a, Poll(w, env))
  {
    hide Fed, Count, Streak, Batches, PerformAll;
    var q := PerformAll(w.queues, env);
    FedSteer(l, w.acts, w.queues, env, q);
    Snoc(w.acts, SteerPoll(env, Batch(q.steering)));
  }

  lemma SequentialStepDrawn(l: Ledgers, a: seq<Act>, w: Work, job: Job, rest: seq<Job>)
    requires w.steering == [] && Drawn(l, a, w)
    ensures Drawn(l, a, SequentialStep(w, job, rest))
  {
    PollDrawn(l, a, RunOne(w, job), job.script.env);
  }

  lemma PrepareStepDrawn(l: Ledgers, a: seq<Act>, w: Work, job: Job, rest: seq<Job>)
    requires w.steering == [] && Drawn(l, a, w)
    ensures Drawn(l, a, PrepareStep(w, job, rest))
  {
    PollDrawn(l, a, PrepareOne(w, job), job.script.env);
  }

  lemma {:induction false} SequentialDrawn(l: Ledgers, a: seq<Act>, w: Work, jobs: seq<Job>, i: nat)
    requires i <= |jobs| && w.steering == [] && Drawn(l, a, w)
    ensures Drawn(l, a, SequentialAfter(w, jobs, i))
  {
    hide Drawn, SequentialStep;
    if i > 0 {
      SequentialDrawn(l, a, w, jobs, i - 1);
      var before := SequentialAfter(w, jobs, i - 1);
      if before.steering == [] {
        SequentialStepDrawn(l, a, before, jobs[i - 1], jobs[i..]);
        assert SequentialAfter(w, jobs, i) == SequentialStep(before, jobs[i - 1], jobs[i..]);
      }
    }
  }

  lemma {:induction false} PrepareDrawn(l: Ledgers, a: seq<Act>, w: Work, jobs: seq<Job>, i: nat)
    requires i <= |jobs| && w.steering == [] && Drawn(l, a, w)
    ensures Drawn(l, a, PrepareAfter(w, jobs, i))
  {
    hide Drawn, PrepareStep;
    if i > 0 {
      PrepareDrawn(l, a, w, jobs, i - 1);
      var before := PrepareAfter(w, jobs, i - 1);
      if before.steering == [] {
        PrepareStepDrawn(l, a, before, jobs[i - 1], jobs[i..]);
        assert PrepareAfter(w, jobs, i) == PrepareStep(before, jobs[i - 1], jobs[i..]);
      }
    }
  }

  lemma ExecuteDrawn(l: Ledgers, w: Work, jobs: seq<Job>, sequential: bool, env: seq<EnvAction>)
    requires Idle(w) && Fed(l, w.acts, w.queues)
    ensures Drawn(l, w.acts, Execute(w, jobs, sequential, env))
  {
    assert Batches(w.acts) + [] == Batches(w.acts);
    if sequential {
      SequentialDrawn(l, w.acts, w, jobs, |jobs|);
    } else {
      PrepareDrawn(l, w.acts, w, jobs, |jobs|);
      var prepared := PrepareAfter(w, jobs, |jobs|);
      if prepared.steering == [] {
        PollDrawn(l, w.acts, FinishAll(prepared, prepared.runnable), env);
      }
    }
  }
}
