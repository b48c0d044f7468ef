/** The order in which a parallel turn answers its calls, read off the results it returns. */
module ToolOrder {
  import opened Wrappers
  import opened Transcript
  import opened EventLog
  import opened MessageQueues
  import opened ToolExecution
  import opened ToolTurns

  /** The results are keyed, one by one, like the calls. */
  ghost predicate Keyed(results: seq<Message>, jobs: seq<Job>) {
    ResultKeys(results) == CallKeys(Calls(jobs))
  }

  lemma {:induction false} OwnsKeyed(jobs: seq<Job>)
    ensures Keyed(Owns(jobs), jobs) && Keyed(Skips(jobs), jobs)
    ensures |Calls(jobs)| == |jobs| && forall k :: 0 <= k < |jobs| ==> Calls(jobs)[k] == jobs[k].call
  {
    if jobs != [] {
      var init, job := jobs[..|jobs| - 1], jobs[|jobs| - 1];
      OwnsKeyed(init);
      assert CallKeys(Calls(jobs)) == CallKeys(Calls(init)) + [job.call.Key()];
      assert ResultKeys(Owns(jobs)) == ResultKeys(Owns(init)) + [job.call.Key()];
      assert ResultKeys(Skips(jobs)) == ResultKeys(Skips(init)) + [job.call.Key()];
    }
  }

  lemma KeyedAppend(x: seq<Message>, a: seq<Job>, y: seq<Message>, b: seq<Job>)
    requires Keyed(x, a) && Keyed(y, b)
    ensures Keyed(x + y, a + b)
  {
    hide Calls;
    CallsAppend(a, b);
    assert ResultKeys(x + y) == ResultKeys(x) + ResultKeys(y);
    assert CallKeys(Calls(a) + Calls(b)) == CallKeys(Calls(a)) + CallKeys(Calls(b));
  }

  /** What a parallel turn returns answers, position by position, the failed calls, the prepared ones and the unreached. */
  lemma ParallelAnswersInOrder(w: Work, jobs: seq<Job>, env: seq<EnvAction>)
    requires Idle(w)
    ensures var w' := Parallel(w, jobs, env);
            w'.reached + w'.unreached == jobs && Keyed(w'.results, ParallelOrder(w'.reached, w'.unreached))
  {
    hide Owns, Skips, Select, Keyed, PrepareAfter;
    var w' := Parallel(w, jobs, env);
    var failed, held := Select(w'.reached, true), Select(w'.reached, false);
    ParallelResults(w, jobs, env);
    ParallelKeys(w, jobs, env);
    OwnsKeyed(failed);
    OwnsKeyed(held);
    OwnsKeyed(w'.unreached);
    KeyedAppend(Owns(failed), failed, Owns(held), held);
    KeyedAppend(Owns(failed), failed, Skips(held), held);
    KeyedAppend(Owns(failed) + Skips(held), failed + held, Skips(w'.unreached), w'.unreached);
    assert failed + held + [] == failed + held;
  }

  ghost predicate DistinctKeys(jobs: seq<Job>) {
    forall j, k :: 0 <= j < k < |jobs| ==> jobs[j].call.Key() != jobs[k].call.Key()
  }

  /** No reached call fails in preparation after an earlier one was prepared. */
  ghost predicate NoneFailsLate(reached: seq<Job>) {
    forall i, j :: 0 <= i < j < |reached| && reached[j].Fails() ==> reached[i].Fails()
  }

  /** With distinct keys, only the source order has the source order's keys. */
  lemma SameKeysSameJobs(order: seq<Job>, jobs: seq<Job>)
    requires DistinctKeys(jobs) && multiset(order) == multiset(jobs) && CallKeys(Calls(order)) == CallKeys(Calls(jobs))
    ensures order == jobs
  {
    OwnsKeyed(order);
    OwnsKeyed(jobs);
    assert |order| == |CallKeys(Calls(order))| == |CallKeys(Calls(jobs))| == |jobs|;
    forall k | 0 <= k < |order| ensures order[k] == jobs[k] {
      assert order[k] in multiset(jobs);
      var m :| 0 <= m < |jobs| && jobs[m] == order[k];
      assert CallKeys(Calls(order))[k] == CallKeys(Calls(jobs))[k];
      assert jobs[m].call.Key() == jobs[k].call.Key();
    }
  }

  /**
   The results of a parallel turn come in source order whenever no reached call fails in preparation after an earlier
   one was prepared; and if its calls can be told apart by their keys, exactly then.
   */
  lemma ParallelResultsInSourceOrderIff(w: Work, jobs: seq<Job>, env: seq<EnvAction>)
    requires Idle(w)
    ensures var w' := Parallel(w, jobs, env);
            && (NoneFailsLate(w'.reached) ==> Keyed(w'.results, jobs))
            && (DistinctKeys(jobs) ==> (Keyed(w'.results, jobs) <==> NoneFailsLate(w'.reached)))
  {
    hide Parallel, ParallelOrder, Calls;
    var w' := Parallel(w, jobs, env);
    var order := ParallelOrder(w'.reached, w'.unreached);
    ParallelAnswersInOrder(w, jobs, env);
    ParallelOrderIsPermutation(w'.reached, w'.unreached);
    ParallelSourceOrder(w'.reached, w'.unreached);
    if DistinctKeys(jobs) && Keyed(w'.results, jobs) {
      SameKeysSameJobs(order, jobs);
    }
  }

  // ---------------------------------------------------------------------------------------------
  // A turn out of order
  // ---------------------------------------------------------------------------------------------

  const FINE := Job(ToolCall("1", "read", "{}"), CallScript(true, None, Allows, Returns("text"), None, []))

  const UNKNOWN := Job(ToolCall("2", "unknown", "{}"), CallScript(false, None, Allows, Returns(""), None, []))

  const QUIET := Work([], Queues(Queue([], OneAtATime), Queue([], OneAtATime)), [], [], [], 0, [], [], [])

  lemma QuietPreparation(w: Work, job: Job, rest: seq<Job>)
    requires w.steering == [] && w.queues.steering.items == [] && job.script.env == []
    ensures var w' := PrepareStep(w, job, rest);
            w'.steering == [] && w'.queues.steering.items == []
  {
    hide Outcome;
    var polled := Poll(PrepareOne(w, job), []);
    assert polled.steering == [] && polled.queues.steering.items == [];
  }

  /** A call that runs, then one to a tool that does not exist: the second is answered first. */
  lemma OutOfOrder()
    ensures Idle(QUIET) && ResultKeys(Parallel(QUIET, [FINE, UNKNOWN], []).results) == [("2", "unknown"), ("1", "read")]
    ensures !Keyed(Parallel(QUIET, [FINE, UNKNOWN], []).results, [FINE, UNKNOWN])
  {
    hide PrepareStep, FinishAll, Keyed;
    var jobs := [FINE, UNKNOWN];
    assert jobs[1..] == [UNKNOWN] && jobs[2..] == [] && jobs[..2] == jobs;
    assert PrepareAfter(QUIET, jobs, 0) == QUIET;
    QuietPreparation(QUIET, FINE, [UNKNOWN]);
    var first := PrepareStep(QUIET, FINE, [UNKNOWN]);
    assert PrepareAfter(QUIET, jobs, 1) == first;
    QuietPreparation(first, UNKNOWN, []);
    assert PrepareAfter(QUIET, jobs, 2) == PrepareStep(first, UNKNOWN, []);
    PrepareResults(QUIET, jobs, 2);
    ParallelAnswersInOrder(QUIET, jobs, []);
    ParallelResultsInSourceOrderIff(QUIET, jobs, []);
    var w' := Parallel(QUIET, jobs, []);
    assert w'.reached == jobs && w'.unreached == [];
    OrderOfTwo();
  }

  lemma TwoSelected()
    ensures Select([FINE, UNKNOWN], true) == [UNKNOWN] && Select([FINE, UNKNOWN], false) == [FINE]
  {
    hide Select, Owns;
    NoneSelected();
    OwnsSnoc([], FINE);
    OwnsSnoc([FINE], UNKNOWN);
    assert [] + [FINE] == [FINE] && [FINE] + [UNKNOWN] == [FINE, UNKNOWN] && [] + [UNKNOWN] == [UNKNOWN];
  }

  lemma OrderOfTwo()
    ensures ParallelOrder([FINE, UNKNOWN], []) == [UNKNOWN, FINE]
    ensures DistinctKeys([FINE, UNKNOWN]) && !NoneFailsLate([FINE, UNKNOWN])
    ensures forall results :: Keyed(results, [UNKNOWN, FINE]) ==> ResultKeys(results) == [("2", "unknown"), ("1", "read")]
  {
    hide Select, Calls;
    TwoSelected();
    KeysOfTwo();
    assert [FINE, UNKNOWN][1].Fails() && ![FINE, UNKNOWN][0].Fails();
  }

  lemma KeysOfTwo()
    ensures CallKeys(Calls([UNKNOWN, FINE])) == [("2", "unknown"), ("1", "read")]
  {
    hide Calls;
    OwnsKeyed([UNKNOWN, FINE]);
  }
}
