/**
 One turn from what comes in: which message it adds, when it runs tools, what it adds for them, and how it ends, told
 from the model's reply and the queues alone.
 */
module TurnLaws {
  import opened Wrappers
  import opened Transcript
  import opened EventLog
  import opened MessageQueues
  import opened RunTrace
  import opened ToolExecution
  import opened ToolOutcomes
  import opened ToolTurns
  import opened AgentLoop
  import opened AgentLoopTheorems
  import opened AgentRuns
  import opened ForcedStops

  /** The model call failed: it threw, or its message says so. */
  predicate Fails(reply: Reply) { reply.Throws? || reply.stop.Error? || reply.stop.Aborted? }

  /** The turn has something to do here: calls to run, or a pause to go on after. */
  predicate Works(c: Config, reply: Reply) {
    !c.externalTools && reply.Streams? && (reply.jobs != [] || reply.stop == PauseTurn)
  }

  /** The message of a reply: an empty one that says how the call failed, or the text, calls and reason of the stream. */
  predicate IsMessageOf(m: Message, reply: Reply) {
    && m.Assistant?
    && (reply.Throws? ==> m.text == "" && m.calls == [] && m.stop == if reply.aborted then Aborted else Error)
    && (reply.Streams? ==>
          && m.text == reply.text && m.stop == reply.stop
          && |m.calls| == |reply.jobs| && forall k :: 0 <= k < |m.calls| ==> m.calls[k] == reply.jobs[k].call)
  }

  lemma {:induction false} CallsAt(jobs: seq<Job>)
    ensures |Calls(jobs)| == |jobs| && forall k :: 0 <= k < |jobs| ==> Calls(jobs)[k] == jobs[k].call
  {
    if jobs != [] {
      CallsAt(jobs[..|jobs| - 1]);
    }
  }

  lemma FinalIsMessage(reply: Reply)
    ensures IsMessageOf(reply.Final(), reply)
  {
    hide Calls;
    if reply.Streams? {
      CallsAt(reply.jobs);
    }
  }

  /** The tool turn a working turn performs. */
  function WorkOf(c: Config, r: Run, t: TurnScript): Work {
    Execute(StartWork(Respond(Open(r), t.reply)), t.reply.Jobs(), c.sequential, t.toolsEnv)
  }

  /** What a turn adds to both copies of the conversation: what was pending, the reply, and, if it works, the results. */
  lemma TurnAdds(c: Config, r: Run, t: TurnScript) returns (m: Message, results: seq<Message>)
    requires r.status.Running?
    ensures IsMessageOf(m, t.reply)
    ensures !Fails(t.reply) && Works(c, t.reply) ==> results == WorkOf(c, r, t).results
    ensures Fails(t.reply) || !Works(c, t.reply) ==> results == []
    ensures var r' := TakeTurn(c, r, t);
            && r'.messages == r.messages + r.pending + [m] + results
            && (!r'.status.Stopped? ==> r'.added == r.added + r.pending + [m] + results)
            && (r'.status.Stopped? ==>
                  var stop := r'.added[|r'.added| - 1];
                  && r'.added == r.added + r.pending + [m] + results + [stop]
                  && stop.Assistant? && stop.calls == [] && stop.stop == Error)
  {
    hide Execute, ExternalEvents, Pairs, PerformAll, Batch, Rest;
    m, results := t.reply.Final(), if !Fails(t.reply) && Works(c, t.reply) then WorkOf(c, r, t).results else [];
    FinalIsMessage(t.reply);
    var asked := Respond(Open(r), t.reply);
    assert asked.messages + [] == asked.messages && asked.added + [] == asked.added;
    CloseAddsNothing(asked, m, [], [], false, t);
    CloseAddsNothing(asked.(log := asked.log + ExternalEvents(t.reply.Jobs())), m, [], [], false, t);
    var w := WorkOf(c, r, t);
    CloseAddsNothing(Collect(asked, w), m, w.results, w.steering, true, t);
    hide Close;
    assert asked.added + w.results + [] == asked.added + w.results;
    FailedReply(t.reply);
  }

  lemma FailedReply(reply: Reply)
    ensures reply.Final().stop.Failed() <==> Fails(reply)
  {
  }

  lemma CloseAddsNothing(r: Run, m: Message, results: seq<Message>, steering: seq<Message>, more: bool, t: TurnScript)
    requires r.status.Running?
    ensures var r' := Close(r, m, results, steering, more, t);
            r'.messages == r.messages && r'.added == r.added && !r'.status.Stopped?
  {
    hide PerformAll, Batch, Rest;
  }

  /**
   How a turn ends, exactly: it fails if the model call did; it is stopped as `StopsIff` says; it completes the run if it
   has nothing to do here, no steering message waits, and then no follow-up; and otherwise the run goes on.
   */
  lemma TurnEndsIff(o: Origin, c: Config, r: Run, t: TurnScript)
    requires Kept(o, c, r) && r.status.Running?
    ensures var r', jobs := TakeTurn(c, r, t), t.reply.Jobs();
            var steered := PerformAll(r.queues, t.turnEnv);
            && (r'.status.Failed? <==> Fails(t.reply))
            && (r'.status.Stopped? <==>
                  && !Fails(t.reply) && Works(c, t.reply) && jobs != [] && r.failures == MAX_FAILURES - 1
                  && (forall k :: 0 <= k < |jobs| ==> Refused(jobs[k].script)) && Quiet(r.queues, jobs, |jobs| - 1))
            && (r'.status.Completed? <==>
                  && !Fails(t.reply) && !Works(c, t.reply)
                  && steered.steering.items == [] && PerformAll(steered, t.followEnv).followUp.items == [])
  {
    hide Execute, ExternalEvents, Pairs, PerformAll, Kept, Quiet, AllFail, Batch, Rest;
    StopsIff(o, c, r, t);
    AllRefused(t.reply.Jobs());
    FailedReply(t.reply);
    var asked, m, jobs := Respond(Open(r), t.reply), t.reply.Final(), t.reply.Jobs();
    var w := WorkOf(c, r, t);
    CloseStatus(asked, m, [], [], t);
    CloseStatus(asked.(log := asked.log + ExternalEvents(jobs)), m, [], [], t);
    BusyClose(Collect(asked, w), m, w.results, w.steering, t);
    hide Close;
  }

  lemma AllRefused(jobs: seq<Job>)
    ensures AllFail(jobs) <==> forall k :: 0 <= k < |jobs| ==> Refused(jobs[k].script)
  {
    hide Refused;
    forall k | 0 <= k < |jobs| ensures jobs[k].Fails() <==> Refused(jobs[k].script) {
      ToolOutcomes.FailsIff(jobs[k]);
    }
  }

  lemma CloseStatus(r: Run, m: Message, results: seq<Message>, steering: seq<Message>, t: TurnScript)
    requires r.status.Running? && steering == []
    ensures var r' := Close(r, m, results, steering, false, t);
            var steered := PerformAll(r.queues, t.turnEnv);
            && (r'.status.Running? || r'.status.Completed?)
            && (r'.status.Completed? <==>
                  steered.steering.items == [] && PerformAll(steered, t.followEnv).followUp.items == [])
  {
    hide PerformAll;
    var steered := PerformAll(r.queues, t.turnEnv);
    EmptyBatch(steered.steering);
    RestOfNothing(steered.steering);
    assert steered.steering.items == [] ==> steered.(steering := Rest(steered.steering)) == steered;
    EmptyBatch(PerformAll(steered, t.followEnv).followUp);
  }

  lemma RestOfNothing(q: Queue)
    ensures q.items == [] ==> Rest(q) == q
  {
  }

  /** A turn is counted as a tool turn exactly if it works, with as many results as it had calls. */
  lemma TurnIsCountedIff(c: Config, r: Run, t: TurnScript)
    requires r.status.Running?
    ensures var works := !Fails(t.reply) && Works(c, t.reply);
            && Count(TakeTurn(c, r, t).acts, IsExecution) == Count(r.acts, IsExecution) + (if works then 1 else 0)
            && (works ==> Executed(|t.reply.Jobs()|, WorkOf(c, r, t).failures) in TakeTurn(c, r, t).acts)
  {
    hide Execute, ExternalEvents, Pairs, PerformAll, Batch, Rest, Count;
    FailedReply(t.reply);
    var asked, m, jobs := Respond(Open(r), t.reply), t.reply.Final(), t.reply.Jobs();
    var w := WorkOf(c, r, t);
    OneResultPerCall(StartWork(asked), jobs, c.sequential, t.toolsEnv);
    CountSnoc(r.acts, Asked(Open(r).messages), IsExecution);
    CloseCounts(asked, m, [], [], false, t);
    CloseCounts(asked.(log := asked.log + ExternalEvents(jobs)), m, [], [], false, t);
    WorkCounts(asked, jobs, c.sequential, t.toolsEnv);
    CountSnoc(w.acts, Executed(|w.results|, w.failures), IsExecution);
    CloseCounts(Collect(asked, w), m, w.results, w.steering, true, t);
    CountSnoc(Collect(asked, w).acts, ForceStop(w.steering), IsExecution);
    CloseKeepsActs(Collect(asked, w), m, w.results, w.steering, true, t);
    hide Close;
    assert Collect(asked, w).acts[|w.acts|] == Executed(|w.results|, w.failures);
    assert Halt(Collect(asked, w), m, w.results, w.steering).acts[|w.acts|] == Executed(|w.results|, w.failures);
  }

  lemma CloseKeepsActs(r: Run, m: Message, results: seq<Message>, steering: seq<Message>, more: bool, t: TurnScript)
    ensures forall a :: a in r.acts ==> a in Close(r, m, results, steering, more, t).acts
  {
    hide PerformAll, Batch, Rest;
  }

  lemma CloseCounts(r: Run, m: Message, results: seq<Message>, steering: seq<Message>, more: bool, t: TurnScript)
    ensures Count(Close(r, m, results, steering, more, t).acts, IsExecution) == Count(r.acts, IsExecution)
  {
    hide PerformAll, Batch, Rest, Count;
    var q := PerformAll(r.queues, t.turnEnv);
    CountSnoc(r.acts, SteerPoll(t.turnEnv, Batch(q.steering)), IsExecution);
    var steered := Steered(r.(log := r.log + [TurnEnd(m, results)]), steering, t.turnEnv);
    CountSnoc(steered.acts, FollowPoll(t.followEnv, Batch(PerformAll(steered.queues, t.followEnv).followUp)), IsExecution);
  }

  lemma PollCounts(w: Work, env: seq<EnvAction>)
    ensures Count(Poll(w, env).acts, IsExecution) == Count(w.acts, IsExecution)
  {
    hide PerformAll, Batch, Rest, Count;
    CountSnoc(w.acts, SteerPoll(env, Poll(w, env).steering), IsExecution);
  }

  lemma StepCounts(w: Work, job: Job, rest: seq<Job>)
    ensures Count(SequentialStep(w, job, rest).acts, IsExecution) == Count(w.acts, IsExecution)
    ensures Count(PrepareStep(w, job, rest).acts, IsExecution) == Count(w.acts, IsExecution)
  {
    hide Poll, Count;
    PollCounts(RunOne(w, job), job.script.env);
    PollCounts(PrepareOne(w, job), job.script.env);
  }

  lemma {:induction false} AfterCounts(w: Work, jobs: seq<Job>, i: nat)
    requires i <= |jobs|
    ensures Count(SequentialAfter(w, jobs, i).acts, IsExecution) == Count(w.acts, IsExecution)
    ensures Count(PrepareAfter(w, jobs, i).acts, IsExecution) == Count(w.acts, IsExecution)
  {
    hide SequentialStep, PrepareStep, Count;
    if i > 0 {
      AfterCounts(w, jobs, i - 1);
      StepCounts(SequentialAfter(w, jobs, i - 1), jobs[i - 1], jobs[i..]);
      StepCounts(PrepareAfter(w, jobs, i - 1), jobs[i - 1], jobs[i..]);
    }
  }

  lemma WorkCounts(r: Run, jobs: seq<Job>, sequential: bool, env: seq<EnvAction>)
    ensures Count(Execute(StartWork(r), jobs, sequential, env).acts, IsExecution) == Count(r.acts, IsExecution)
  {
    hide SequentialAfter, PrepareAfter, Poll, Count;
    AfterCounts(StartWork(r), jobs, |jobs|);
    var prepared := PrepareAfter(StartWork(r), jobs, |jobs|);
    PollCounts(FinishAll(prepared, prepared.runnable), env);
  }

  // ---------------------------------------------------------------------------------------------
  // What is shown of a reply
  // ---------------------------------------------------------------------------------------------

  /** The messages, whole or partial, that a log shows one after the other before it ends them. */
  function Shown(log: seq<Event>): seq<Message> {
    if log == [] then []
    else
      var init, e := Shown(log[..|log| - 1]), log[|log| - 1];
      if e.MessageStart? || e.MessageUpdate? then init + [e.message] else init
  }

  lemma ShownSnoc(log: seq<Event>, e: Event)
    ensures Shown(log + [e]) == if e.MessageStart? || e.MessageUpdate? then Shown(log) + [e.message] else Shown(log)
  {
    assert (log + [e])[..|log|] == log;
  }

  lemma {:induction false} UpdatesShown(log: seq<Event>, partials: seq<Message>)
    ensures Shown(log + Updates(partials)) == Shown(log) + partials
  {
    hide Shown;
    if partials == [] {
      assert log + Updates(partials) == log;
    } else {
      var init, m := partials[..|partials| - 1], partials[|partials| - 1];
      UpdatesShown(log, init);
      ShownSnoc(log + Updates(init), MessageUpdate(m));
      assert log + Updates(partials) == log + Updates(init) + [MessageUpdate(m)];
      assert Shown(log) + init + [m] == Shown(log) + partials;
    }
  }

  /** Of a streamed reply each partial message is shown, once and in order; of any other only the message itself. */
  lemma ReplyIsShown(r: Run, reply: Reply)
    ensures Shown(Respond(r, reply).log)
         == Shown(r.log) + if reply.Throws? || reply.partials == [] then [reply.Final()] else reply.partials
  {
    hide Shown, Updates;
    if reply.Throws? || reply.partials == [] {
      ShownSnoc(r.log, MessageStart(reply.Final()));
      ShownSnoc(r.log + [MessageStart(reply.Final())], MessageEnd(reply.Final()));
      assert r.log + Pair(reply.Final()) == r.log + [MessageStart(reply.Final())] + [MessageEnd(reply.Final())];
    } else {
      var first, rest := reply.partials[0], reply.partials[1..];
      ShownSnoc(r.log, MessageStart(first));
      UpdatesShown(r.log + [MessageStart(first)], rest);
      ShownSnoc(r.log + [MessageStart(first)] + Updates(rest), MessageEnd(reply.Final()));
      assert r.log + reply.Events() == r.log + [MessageStart(first)] + Updates(rest) + [MessageEnd(reply.Final())];
      assert Shown(r.log) + [first] + rest == Shown(r.log) + reply.partials;
    }
  }
}
