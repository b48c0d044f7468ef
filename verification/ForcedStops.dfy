/**
 The forced stop in terms of what comes in: which calls fail, and what the steering queue holds at each poll. Nothing
 here speaks of what the executors make of it.
 */
module ForcedStops {
  import opened Transcript
  import opened EventLog
  import opened MessageQueues
  import opened RunTrace
  import opened ToolExecution
  import opened AgentLoop
  import opened AgentLoopTheorems
  import opened AgentRuns

  /** The queues a poll sees: after the activity that precedes it. */
  function Seen(q: Queues, job: Job): Queues { PerformAll(q, job.script.env) }

  function Taken(q: Queues): Queues { q.(steering := Rest(q.steering)) }

  /** The queues after the polls that follow the first `i` calls. */
  function PolledQueues(q: Queues, jobs: seq<Job>, i: nat): Queues
    requires i <= |jobs|
  {
    if i == 0 then q else Taken(Seen(PolledQueues(q, jobs, i - 1), jobs[i - 1]))
  }

  /** Each of the polls that follow the first `i` calls finds an empty steering queue. */
  predicate Quiet(q: Queues, jobs: seq<Job>, i: nat)
    requires i <= |jobs|
  {
    i == 0 || (Quiet(q, jobs, i - 1) && Seen(PolledQueues(q, jobs, i - 1), jobs[i - 1]).steering.items == [])
  }

  predicate AllFail(jobs: seq<Job>) { forall i :: 0 <= i < |jobs| ==> jobs[i].Fails() }

  /** What the last poll of a turn finds, if none before it found anything. A parallel turn polls once more at its end. */
  function LastBatch(q: Queues, jobs: seq<Job>, sequential: bool, env: seq<EnvAction>): seq<Message>
    requires jobs != []
  {
    var seen := Seen(PolledQueues(q, jobs, |jobs| - 1), jobs[|jobs| - 1]);
    if sequential || Batch(seen.steering) != [] then Batch(seen.steering)
    else Batch(PerformAll(Taken(seen), env).steering)
  }

  lemma EmptyBatch(q: Queue)
    ensures Batch(q) == [] <==> q.items == []
  {
  }

  /** How far the work of a turn has come after `i` calls, told from the queues alone. */
  ghost predicate Follows(q: Queues, jobs: seq<Job>, i: nat, w: Work)
    requires i <= |jobs|
  {
    && (w.steering == [] <==> Quiet(q, jobs, i))
    && |w.reached| <= i
    && (i == 0 || Quiet(q, jobs, i - 1) ==>
          w.queues == PolledQueues(q, jobs, i)
          && (i > 0 ==> w.steering == Batch(Seen(PolledQueues(q, jobs, i - 1), jobs[i - 1]).steering)))
  }

  /** One more call and its poll, whatever the executor does with the calls themselves. */
  lemma FollowsStep(q: Queues, jobs: seq<Job>, i: nat, w: Work, w': Work)
    requires 0 < i <= |jobs| && Follows(q, jobs, i - 1, w)
    requires w.steering != [] ==> w' == w
    requires w.steering == [] ==>
               && w'.queues == Taken(Seen(w.queues, jobs[i - 1]))
               && w'.steering == Batch(Seen(w.queues, jobs[i - 1]).steering)
               && |w'.reached| <= |w.reached| + 1
    ensures Follows(q, jobs, i, w')
  {
    hide Batch, Seen, Taken;
    EmptyBatch(Seen(w.queues, jobs[i - 1]).steering);
  }

  lemma SequentialStepPolls(w: Work, job: Job, rest: seq<Job>)
    requires w.steering == []
    ensures var w' := SequentialStep(w, job, rest);
            && w'.queues == Taken(Seen(w.queues, job)) && w'.steering == Batch(Seen(w.queues, job).steering)
            && w'.reached == w.reached + [job]
  {
    hide PerformAll, Batch, Rest;
  }

  lemma PrepareStepPolls(w: Work, job: Job, rest: seq<Job>)
    requires w.steering == []
    ensures var w' := PrepareStep(w, job, rest);
            && w'.queues == Taken(Seen(w.queues, job)) && w'.steering == Batch(Seen(w.queues, job).steering)
            && w'.reached == w.reached + [job]
  {
    hide PerformAll, Batch, Rest;
  }

  lemma FollowsFromTheStart(w: Work, jobs: seq<Job>)
    requires Idle(w)
    ensures Follows(w.queues, jobs, 0, w)
  {
  }

  lemma {:induction false} SequentialFollows(w: Work, jobs: seq<Job>, i: nat)
    requires Idle(w) && i <= |jobs|
    ensures Follows(w.queues, jobs, i, SequentialAfter(w, jobs, i))
  {
    hide Follows, SequentialStep;
    if i == 0 {
      FollowsFromTheStart(w, jobs);
    } else {
      SequentialFollows(w, jobs, i - 1);
      var before := SequentialAfter(w, jobs, i - 1);
      if before.steering == [] {
        SequentialStepPolls(before, jobs[i - 1], jobs[i..]);
      }
      FollowsStep(w.queues, jobs, i, before, SequentialAfter(w, jobs, i));
    }
  }

  lemma {:induction false} PrepareFollows(w: Work, jobs: seq<Job>, i: nat)
    requires Idle(w) && i <= |jobs|
    ensures Follows(w.queues, jobs, i, PrepareAfter(w, jobs, i))
  {
    hide Follows, PrepareStep;
    if i == 0 {
      FollowsFromTheStart(w, jobs);
    } else {
      PrepareFollows(w, jobs, i - 1);
      var before := PrepareAfter(w, jobs, i - 1);
      if before.steering == [] {
        PrepareStepPolls(before, jobs[i - 1], jobs[i..]);
      }
      FollowsStep(w.queues, jobs, i, before, PrepareAfter(w, jobs, i));
    }
  }

  lemma {:induction false} AllSelectedIff(jobs: seq<Job>)
    ensures |Select(jobs, true)| <= |jobs| && (|Select(jobs, true)| == |jobs| <==> AllFail(jobs))
  {
    if jobs != [] {
      var init := jobs[..|jobs| - 1];
      AllSelectedIff(init);
      assert jobs == init + [jobs[|jobs| - 1]];
      assert forall i :: 0 <= i < |init| ==> init[i] == jobs[i];
    }
  }

  /** The end of the calls: `before` the last one, `w` after it. */
  lemma FailsIff(q: Queues, jobs: seq<Job>, before: Work, w: Work)
    requires jobs != [] && Follows(q, jobs, |jobs| - 1, before) && Follows(q, jobs, |jobs|, w)
    requires before.steering != [] ==> w == before
    requires before.steering == [] ==> w.reached == jobs
    requires w.failures == |Select(w.reached, true)|
    ensures w.failures == |jobs| <==> AllFail(jobs) && Quiet(q, jobs, |jobs| - 1)
    ensures w.failures == |jobs| ==>
              && w.queues == PolledQueues(q, jobs, |jobs|)
              && w.steering == Batch(Seen(PolledQueues(q, jobs, |jobs| - 1), jobs[|jobs| - 1]).steering)
  {
    hide Quiet, PolledQueues, AllFail, Batch, Seen, Select;
    AllSelectedIff(w.reached);
  }

  lemma SequentialEnd(w: Work, jobs: seq<Job>)
    requires Idle(w) && jobs != []
    ensures var before, w' := SequentialAfter(w, jobs, |jobs| - 1), SequentialAfter(w, jobs, |jobs|);
            && (before.steering != [] ==> w' == before)
            && (before.steering == [] ==> w'.reached == jobs)
            && w'.failures == |Select(w'.reached, true)|
  {
    hide SequentialStep, Select, Owns, Skips;
    var n, before := |jobs|, SequentialAfter(w, jobs, |jobs| - 1);
    SequentialResults(w, jobs, n - 1);
    SequentialResults(w, jobs, n);
    if before.steering == [] {
      SequentialStepPolls(before, jobs[n - 1], jobs[n..]);
      assert jobs[..n - 1] + [jobs[n - 1]] == jobs;
    }
  }

  lemma SequentialFailsIff(w: Work, jobs: seq<Job>)
    requires Idle(w) && jobs != []
    ensures var w' := SequentialAfter(w, jobs, |jobs|);
            && (w'.failures == |jobs| <==> AllFail(jobs) && Quiet(w.queues, jobs, |jobs| - 1))
            && (w'.failures == |jobs| ==>
                  w'.steering == Batch(Seen(PolledQueues(w.queues, jobs, |jobs| - 1), jobs[|jobs| - 1]).steering))
  {
    hide SequentialAfter, Quiet, PolledQueues, AllFail, Batch, Seen, Follows, Select;
    SequentialFollows(w, jobs, |jobs| - 1);
    SequentialFollows(w, jobs, |jobs|);
    SequentialEnd(w, jobs);
    FailsIff(w.queues, jobs, SequentialAfter(w, jobs, |jobs| - 1), SequentialAfter(w, jobs, |jobs|));
  }

  lemma PrepareEnd(w: Work, jobs: seq<Job>)
    requires Idle(w) && jobs != []
    ensures var before, w' := PrepareAfter(w, jobs, |jobs| - 1), PrepareAfter(w, jobs, |jobs|);
            && (before.steering != [] ==> w' == before)
            && (before.steering == [] ==> w'.reached == jobs)
            && w'.failures == |Select(w'.reached, true)|
  {
    hide PrepareStep, Select, Owns, Skips;
    var n, before := |jobs|, PrepareAfter(w, jobs, |jobs| - 1);
    PrepareResults(w, jobs, n - 1);
    PrepareResults(w, jobs, n);
    if before.steering == [] {
      PrepareStepPolls(before, jobs[n - 1], jobs[n..]);
      assert jobs[..n - 1] + [jobs[n - 1]] == jobs;
    }
  }

  lemma PrepareFailsIff(w: Work, jobs: seq<Job>)
    requires Idle(w) && jobs != []
    ensures var w' := PrepareAfter(w, jobs, |jobs|);
            && (w'.failures == |jobs| <==> AllFail(jobs) && Quiet(w.queues, jobs, |jobs| - 1))
            && (w'.failures == |jobs| ==>
                  && w'.queues == PolledQueues(w.queues, jobs, |jobs|)
                  && w'.steering == Batch(Seen(PolledQueues(w.queues, jobs, |jobs| - 1), jobs[|jobs| - 1]).steering))
  {
    hide PrepareAfter, Quiet, PolledQueues, AllFail, Batch, Seen, Follows, Select;
    PrepareFollows(w, jobs, |jobs| - 1);
    PrepareFollows(w, jobs, |jobs|);
    PrepareEnd(w, jobs);
    FailsIff(w.queues, jobs, PrepareAfter(w, jobs, |jobs| - 1), PrepareAfter(w, jobs, |jobs|));
  }

  lemma ParallelFailsIff(w: Work, jobs: seq<Job>, env: seq<EnvAction>)
    requires Idle(w) && jobs != []
    ensures var w' := Parallel(w, jobs, env);
            && (w'.failures == |jobs| <==> AllFail(jobs) && Quiet(w.queues, jobs, |jobs| - 1))
            && (w'.failures == |jobs| ==> w'.steering == LastBatch(w.queues, jobs, false, env))
  {
    hide PrepareAfter, Quiet, AllFail, Batch, Seen, PerformAll, Taken;
    PrepareFailsIff(w, jobs);
    LastPolledQueues(w.queues, jobs);
  }

  lemma LastPolledQueues(q: Queues, jobs: seq<Job>)
    requires jobs != []
    ensures PolledQueues(q, jobs, |jobs|) == Taken(Seen(PolledQueues(q, jobs, |jobs| - 1), jobs[|jobs| - 1]))
  {
  }

  /**
   A turn's calls are all reached and all fail exactly if each would fail and no poll before the last finds a steering
   message; the turn then returns what its last poll finds.
   */
  lemma ExecuteFailsIff(w: Work, jobs: seq<Job>, sequential: bool, env: seq<EnvAction>)
    requires Idle(w) && jobs != []
    ensures var w' := Execute(w, jobs, sequential, env);
            && (w'.failures == |jobs| <==> AllFail(jobs) && Quiet(w.queues, jobs, |jobs| - 1))
            && (w'.failures == |jobs| ==> w'.steering == LastBatch(w.queues, jobs, sequential, env))
  {
    hide SequentialAfter, Parallel, Quiet, AllFail, PolledQueues;
    if sequential {
      SequentialFailsIff(w, jobs);
    } else {
      ParallelFailsIff(w, jobs, env);
    }
  }

  /**
   The forced stop, from what comes in alone: a turn that did not fail, whose tools run locally, on a counter of two,
   each of whose calls fails in preparation, and no poll before its last finds a steering message. The run then loses
   what that last poll finds, and loses nothing if it finds nothing.
   */
  lemma StopsIff(o: Origin, c: Config, r: Run, t: TurnScript)
    requires Kept(o, c, r) && r.status.Running?
    ensures var jobs, r' := t.reply.Jobs(), TakeTurn(c, r, t);
            && (r'.status.Stopped? <==>
                  && !t.reply.Final().stop.Failed() && !c.externalTools && jobs != []
                  && r.failures == MAX_FAILURES - 1
                  && AllFail(jobs) && Quiet(r.queues, jobs, |jobs| - 1))
            && (r'.status.Stopped? ==> r'.status.lost == LastBatch(r.queues, jobs, c.sequential, t.toolsEnv))
  {
    hide TakeTurn, Kept, Execute, Quiet, AllFail, LastBatch;
    StopsExactlyAtTheCap(o, c, r, t);
    var jobs := t.reply.Jobs();
    if jobs != [] {
      ExecuteFailsIff(StartWork(Respond(Open(r), t.reply)), jobs, c.sequential, t.toolsEnv);
    }
  }
}
