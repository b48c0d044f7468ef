/**
 What the event stream says, and what a reader may rely on: how each field of the agent's copy is told from the events,
 that every end of a turn carries what was said in the turn, and every end of a tool call what its result says.
 */
module LogLaws {
  import opened Wrappers
  import opened Transcript
  import opened EventLog
  import opened MessageQueues
  import opened RunTrace
  import opened ToolExecution
  import opened AgentLoop
  import opened AgentLoopTheorems
  import opened AgentRuns

  // ---------------------------------------------------------------------------------------------
  // The copy, field by field
  // ---------------------------------------------------------------------------------------------

  /** The messages whose end a log announces, in order. */
  function EndedMessages(log: seq<Event>): seq<Message> {
    if log == [] then []
    else
      var init, e := EndedMessages(log[..|log| - 1]), log[|log| - 1];
      if e.MessageEnd? then init + [e.message] else init
  }

  predicate Starts(e: Event, id: string) { e.ToolStart? && e.call.id == id }

  predicate Stops(e: Event, id: string) { e.ToolEnd? && e.key.0 == id }

  /** A call of that id was started, or was pending before, and none has ended since. */
  ghost predicate IsPending(r: Replica, log: seq<Event>, id: string) {
    || (exists k :: 0 <= k < |log| && Starts(log[k], id) && forall j :: k < j < |log| ==> !Stops(log[j], id))
    || (id in r.pendingToolCalls && forall j :: 0 <= j < |log| ==> !Stops(log[j], id))
  }

  predicate Tells(e: Event) { e.MessageStart? || e.MessageUpdate? || e.MessageEnd? || e.AgentEnd? }

  /** The message being streamed: that of the last event that speaks of one, unless it ended it. */
  function Streaming(log: seq<Event>, before: Option<Message>): Option<Message> {
    if log == [] then before
    else
      var e := log[|log| - 1];
      if e.MessageStart? || e.MessageUpdate? then Some(e.message)
      else if e.MessageEnd? || e.AgentEnd? then None
      else Streaming(log[..|log| - 1], before)
  }

  lemma PendingSnoc(r: Replica, log: seq<Event>, e: Event, id: string)
    ensures IsPending(r, log + [e], id) <==> Starts(e, id) || (IsPending(r, log, id) && !Stops(e, id))
  {
    hide Starts, Stops;
    var all := log + [e];
    StartsOrStops(e, id);
    assert all[|log|] == e && forall j :: 0 <= j < |log| ==> all[j] == log[j];
    if Starts(e, id) {
      assert Starts(all[|log|], id);
    }
    if IsPending(r, log, id) && !Stops(e, id) {
      if k :| 0 <= k < |log| && Starts(log[k], id) && forall j :: k < j < |log| ==> !Stops(log[j], id) {
        assert Starts(all[k], id);
      }
    }
    if IsPending(r, all, id) {
      if k :| 0 <= k < |all| && Starts(all[k], id) && forall j :: k < j < |all| ==> !Stops(all[j], id) {
        if k < |log| {
          assert Starts(log[k], id) && !Stops(all[|log|], id);
          assert forall j :: k < j < |log| ==> !Stops(all[j], id) && all[j] == log[j];
        }
      } else {
        assert !Stops(all[|log|], id);
        assert forall j :: 0 <= j < |log| ==> !Stops(all[j], id) && all[j] == log[j];
      }
    }
  }

  lemma StartsOrStops(e: Event, id: string)
    ensures !(Starts(e, id) && Stops(e, id))
  {
  }

  /**
   What the agent's copy holds after any log: the messages that ended, in order, after those it had; the message that
   is being streamed; the calls that are pending; and whether the end of the run was announced.
   */
  lemma {:induction false} CopyMeaning(r: Replica, log: seq<Event>)
    ensures var now := Replay(r, log);
            && now.messages == r.messages + EndedMessages(log)
            && now.streamMessage == Streaming(log, r.streamMessage)
            && (forall id :: id in now.pendingToolCalls <==> IsPending(r, log, id))
            && now.isStreaming == (r.isStreaming && forall k :: 0 <= k < |log| ==> !log[k].AgentEnd?)
  {
    hide IsPending;
    if log == [] {
      assert r.messages + [] == r.messages;
      forall id ensures id in r.pendingToolCalls <==> IsPending(r, [], id) {
        PendingAtFirst(r, id);
      }
    } else {
      var init, e := log[..|log| - 1], log[|log| - 1];
      assert log == init + [e];
      CopyMeaning(r, init);
      forall id ensures id in Replay(r, log).pendingToolCalls <==> IsPending(r, log, id) {
        PendingSnoc(r, init, e, id);
      }
      assert forall k :: 0 <= k < |init| ==> log[k] == init[k];
    }
  }

  lemma PendingAtFirst(r: Replica, id: string)
    ensures IsPending(r, [], id) <==> id in r.pendingToolCalls
  {
  }

  // ---------------------------------------------------------------------------------------------
  // What was said in a turn
  // ---------------------------------------------------------------------------------------------

  /** The last assistant message a reader has heard to its end, and the tool results since. */
  datatype Said = Said(message: Option<Message>, results: seq<Message>)

  function Hear(s: Said, e: Event): Said {
    if !e.MessageEnd? then s
    else if e.message.Assistant? then Said(Some(e.message), [])
    else if e.message.ToolResult? then s.(results := s.results + [e.message])
    else s
  }

  function Heard(log: seq<Event>): Said {
    if log == [] then Said(None, []) else Hear(Heard(log[..|log| - 1]), log[|log| - 1])
  }

  /** Every end of a turn carries the message last heard and the results since, no more and no less. */
  ghost predicate TurnEndsTell(log: seq<Event>) {
    forall k :: 0 <= k < |log| && log[k].TurnEnd? ==> Heard(log[..k]) == Said(Some(log[k].message), log[k].results)
  }

  /** Every end of a tool call is followed at once by its result, and says of it whether it is an error. */
  ghost predicate ToolEndsTell(log: seq<Event>) {
    forall k :: 0 <= k < |log| && log[k].ToolEnd? ==>
      && k + 2 < |log| && log[k + 1].MessageStart? && log[k + 2] == MessageEnd(log[k + 1].message)
      && log[k + 1].message.ToolResult? && log[k + 1].message.Key() == log[k].key
      && log[k + 1].message.isError == log[k].isError
  }

  ghost predicate Truthful(local: bool, log: seq<Event>) { TurnEndsTell(log) && (local ==> ToolEndsTell(log)) }

  lemma HeardSnoc(log: seq<Event>, e: Event)
    ensures Heard(log + [e]) == Hear(Heard(log), e)
  {
    assert (log + [e])[..|log|] == log;
  }

  /** One more event that ends no tool call. */
  lemma TruthfulSnoc(local: bool, log: seq<Event>, e: Event)
    requires Truthful(local, log) && !e.ToolEnd?
    requires e.TurnEnd? ==> Heard(log) == Said(Some(e.message), e.results)
    ensures Truthful(local, log + [e])
  {
    hide Heard;
    var all := log + [e];
    forall k | 0 <= k < |all| && all[k].TurnEnd? ensures Heard(all[..k]) == Said(Some(all[k].message), all[k].results) {
      assert all[..k] == if k < |log| then log[..k] else log;
    }
  }

  lemma TruthfulPair(local: bool, log: seq<Event>, m: Message)
    requires Truthful(local, log)
    ensures Truthful(local, log + Pair(m)) && Heard(log + Pair(m)) == Hear(Heard(log), MessageEnd(m))
  {
    hide Truthful, Heard;
    TruthfulSnoc(local, log, MessageStart(m));
    TruthfulSnoc(local, log + [MessageStart(m)], MessageEnd(m));
    HeardSnoc(log, MessageStart(m));
    HeardSnoc(log + [MessageStart(m)], MessageEnd(m));
    assert log + Pair(m) == log + [MessageStart(m)] + [MessageEnd(m)];
  }

  lemma {:induction false} TruthfulPairs(local: bool, log: seq<Event>, ms: seq<Message>)
    requires Truthful(local, log)
    ensures Truthful(local, log + Pairs(ms))
  {
    hide Truthful, Pair, Pairs, Heard;
    PairsLast(ms);
    if ms == [] {
      assert log + Pairs(ms) == log;
    } else {
      TruthfulPairs(local, log, ms[..|ms| - 1]);
      TruthfulPair(local, log + Pairs(ms[..|ms| - 1]), ms[|ms| - 1]);
      assert log + Pairs(ms) == log + Pairs(ms[..|ms| - 1]) + Pair(ms[|ms| - 1]);
    }
  }

  lemma PairsLast(ms: seq<Message>)
    ensures Pairs(ms) == if ms == [] then [] else Pairs(ms[..|ms| - 1]) + Pair(ms[|ms| - 1])
  {
  }

  /** A tool call ends and its result follows. */
  lemma TruthfulOutcome(local: bool, log: seq<Event>, result: Message)
    requires Truthful(local, log) && result.ToolResult?
    ensures Truthful(local, log + Outcome(result))
    ensures Heard(log + Outcome(result)) == Heard(log).(results := Heard(log).results + [result])
  {
    var ended := log + [ToolEnd(result.Key(), result.isError)];
    var all := log + Outcome(result);
    assert all == ended + [MessageStart(result)] + [MessageEnd(result)];
    HeardSnoc(log, ToolEnd(result.Key(), result.isError));
    HeardSnoc(ended, MessageStart(result));
    HeardSnoc(ended + [MessageStart(result)], MessageEnd(result));
    hide Heard;
    forall k | 0 <= k < |all| && all[k].TurnEnd? ensures Heard(all[..k]) == Said(Some(all[k].message), all[k].results) {
      assert k < |log| && all[k] == log[k] && all[..k] == log[..k];
    }
    if local {
      OutcomeTells(log, result);
    }
  }

  lemma OutcomeTells(log: seq<Event>, result: Message)
    requires ToolEndsTell(log) && result.ToolResult?
    ensures ToolEndsTell(log + Outcome(result))
  {
    var all := log + Outcome(result);
    forall k | 0 <= k < |all| && all[k].ToolEnd?
      ensures && k + 2 < |all| && all[k + 1].MessageStart? && all[k + 2] == MessageEnd(all[k + 1].message)
              && all[k + 1].message.ToolResult? && all[k + 1].message.Key() == all[k].key
              && all[k + 1].message.isError == all[k].isError
    {
      if k < |log| {
        assert all[k] == log[k] && all[k + 1] == log[k + 1] && all[k + 2] == log[k + 2];
      }
    }
  }

  lemma {:induction false} UpdatesTell(local: bool, log: seq<Event>, updates: seq<Message>)
    requires Truthful(local, log)
    ensures Truthful(local, log + Updates(updates)) && Heard(log + Updates(updates)) == Heard(log)
  {
    hide Truthful, Heard;
    if updates == [] {
      assert log + Updates(updates) == log;
    } else {
      var init, m := updates[..|updates| - 1], updates[|updates| - 1];
      UpdatesTell(local, log, init);
      TruthfulSnoc(local, log + Updates(init), MessageUpdate(m));
      HeardSnoc(log + Updates(init), MessageUpdate(m));
      assert log + Updates(updates) == log + Updates(init) + [MessageUpdate(m)];
    }
  }

  lemma ReplyTells(local: bool, log: seq<Event>, reply: Reply)
    requires Truthful(local, log)
    ensures Truthful(local, log + reply.Events()) && Heard(log + reply.Events()) == Said(Some(reply.Final()), [])
  {
    hide Truthful, Heard, Pair, Updates;
    if reply.Throws? || reply.partials == [] {
      TruthfulPair(local, log, reply.Final());
    } else {
      var begun := log + [MessageStart(reply.partials[0])];
      TruthfulSnoc(local, log, MessageStart(reply.partials[0]));
      UpdatesTell(local, begun, reply.partials[1..]);
      TruthfulSnoc(local, begun + Updates(reply.partials[1..]), MessageEnd(reply.Final()));
      HeardSnoc(begun + Updates(reply.partials[1..]), MessageEnd(reply.Final()));
      assert log + reply.Events() == begun + Updates(reply.partials[1..]) + [MessageEnd(reply.Final())];
    }
  }

  // ---------------------------------------------------------------------------------------------
  // Tool turns
  // ---------------------------------------------------------------------------------------------

  /** The log of the work is truthful, and a reader has heard the turn's message and the results so far. */
  ghost predicate Working(w: Work, m: Message) { Truthful(true, w.log) && Heard(w.log) == Said(Some(m), w.results) }

  lemma EmitTells(w: Work, m: Message, result: Message)
    requires Working(w, m) && result.ToolResult?
    ensures Working(Emit(w, result), m)
  {
    hide Truthful, Heard, Outcome;
    TruthfulOutcome(true, w.log, result);
  }

  lemma AnnounceTells(w: Work, m: Message, call: ToolCall)
    requires Working(w, m)
    ensures Working(Announce(w, call), m)
  {
    hide Truthful, Heard;
    TruthfulSnoc(true, w.log, ToolStart(call));
    HeardSnoc(w.log, ToolStart(call));
  }

  lemma {:induction false} SkipAllTells(w: Work, m: Message, jobs: seq<Job>, emitStart: bool)
    requires Working(w, m)
    ensures Working(SkipAll(w, jobs, emitStart), m)
  {
    hide Working, Emit, Announce;
    if jobs != [] {
      var before, job := SkipAll(w, jobs[..|jobs| - 1], emitStart), jobs[|jobs| - 1];
      SkipAllTells(w, m, jobs[..|jobs| - 1], emitStart);
      AnnounceTells(before, m, job.call);
      EmitTells(if emitStart then Announce(before, job.call) else before, m, job.Skip());
    }
  }

  /** What is not log or results does not matter. */
  lemma SameLog(w: Work, w': Work, m: Message)
    requires Working(w, m) && w'.log == w.log && w'.results == w.results
    ensures Working(w', m)
  {
  }

  lemma RunOneTells(w: Work, m: Message, job: Job)
    requires Working(w, m)
    ensures Working(RunOne(w, job), m)
  {
    hide Working, Emit, Announce;
    AnnounceTells(w, m, job.call);
    EmitTells(Announce(w, job.call), m, job.Own());
    SameLog(Emit(Announce(w, job.call), job.Own()), RunOne(w, job), m);
  }

  lemma PrepareOneTells(w: Work, m: Message, job: Job)
    requires Working(w, m)
    ensures Working(PrepareOne(w, job), m)
  {
    hide Working, RunOne, Announce;
    RunOneTells(w, m, job);
    AnnounceTells(w, m, job.call);
    if !job.Fails() {
      SameLog(Announce(w, job.call), PrepareOne(w, job), m);
    }
  }

  lemma SequentialStepTells(w: Work, m: Message, job: Job, rest: seq<Job>)
    requires Working(w, m)
    ensures Working(SequentialStep(w, job, rest), m)
  {
    hide Working, RunOne, SkipAll, PerformAll, Batch, Rest;
    RunOneTells(w, m, job);
    var polled := Poll(RunOne(w, job), job.script.env);
    SameLog(RunOne(w, job), polled, m);
    SameLog(polled, polled.(unreached := rest), m);
    SkipAllTells(polled.(unreached := rest), m, rest, true);
  }

  lemma PrepareStepTells(w: Work, m: Message, job: Job, rest: seq<Job>)
    requires Working(w, m)
    ensures Working(PrepareStep(w, job, rest), m)
  {
    hide Working, PrepareOne, SkipAll, PerformAll, Batch, Rest;
    PrepareOneTells(w, m, job);
    var polled := Poll(PrepareOne(w, job), job.script.env);
    SameLog(PrepareOne(w, job), polled, m);
    SameLog(polled, polled.(unreached := rest), m);
    SkipAllTells(polled.(unreached := rest), m, polled.runnable, false);
    SkipAllTells(SkipAll(polled.(unreached := rest), polled.runnable, false), m, rest, true);
  }

  lemma {:induction false} SequentialTells(w: Work, m: Message, jobs: seq<Job>, i: nat)
    requires i <= |jobs| && Working(w, m)
    ensures Working(SequentialAfter(w, jobs, i), m)
  {
    hide Working, SequentialStep;
    if i > 0 {
      SequentialTells(w, m, jobs, i - 1);
      SequentialStepTells(SequentialAfter(w, jobs, i - 1), m, jobs[i - 1], jobs[i..]);
    }
  }

  lemma {:induction false} PrepareTells(w: Work, m: Message, jobs: seq<Job>, i: nat)
    requires i <= |jobs| && Working(w, m)
    ensures Working(PrepareAfter(w, jobs, i), m)
  {
    hide Working, PrepareStep;
    if i > 0 {
      PrepareTells(w, m, jobs, i - 1);
      PrepareStepTells(PrepareAfter(w, jobs, i - 1), m, jobs[i - 1], jobs[i..]);
    }
  }

  lemma {:induction false} FinishTells(w: Work, m: Message, held: seq<Job>)
    requires Working(w, m)
    ensures Working(FinishAll(w, held), m)
  {
    hide Working, Emit;
    if held != [] {
      var job := held[|held| - 1];
      FinishTells(w, m, held[..|held| - 1]);
      EmitTells(FinishAll(w, held[..|held| - 1]), m, Finalize(job.call, job.script));
    }
  }

  lemma ExecuteTells(w: Work, m: Message, jobs: seq<Job>, sequential: bool, env: seq<EnvAction>)
    requires Working(w, m)
    ensures Working(Execute(w, jobs, sequential, env), m)
  {
    hide Working, SequentialAfter, PrepareAfter, PerformAll, Batch, Rest;
    if sequential {
      SequentialTells(w, m, jobs, |jobs|);
    } else {
      PrepareTells(w, m, jobs, |jobs|);
      var prepared := PrepareAfter(w, jobs, |jobs|);
      FinishTells(prepared, m, prepared.runnable);
      SameLog(FinishAll(prepared, prepared.runnable), Poll(FinishAll(prepared, prepared.runnable), env), m);
    }
  }

  // ---------------------------------------------------------------------------------------------
  // Every turn, every run
  // ---------------------------------------------------------------------------------------------

  /** Announcing tools that the provider has run: their ends say what it said of them, and nothing else is said. */
  lemma {:induction false} ExternalTells(log: seq<Event>, jobs: seq<Job>)
    requires TurnEndsTell(log)
    ensures TurnEndsTell(log + ExternalEvents(jobs)) && Heard(log + ExternalEvents(jobs)) == Heard(log)
    ensures |ExternalEvents(jobs)| == 2 * |jobs|
    ensures forall k :: 0 <= k < |jobs| ==>
              && ExternalEvents(jobs)[2 * k] == ToolStart(jobs[k].call)
              && ExternalEvents(jobs)[2 * k + 1] == ToolEnd((jobs[k].call.id, jobs[k].call.name), jobs[k].script.execution.Throws?)
  {
    hide Heard;
    if jobs == [] {
      assert log + ExternalEvents(jobs) == log;
    } else {
      var init, job := jobs[..|jobs| - 1], jobs[|jobs| - 1];
      var start, end := ToolStart(job.call), ToolEnd(job.call.Key(), job.script.execution.Throws?);
      ExternalTells(log, init);
      var before := log + ExternalEvents(init);
      HeardSnoc(before, start);
      HeardSnoc(before + [start], end);
      SilentSnoc(before, start);
      SilentSnoc(before + [start], end);
      assert log + ExternalEvents(jobs) == before + [start] + [end];
    }
  }

  lemma SilentSnoc(log: seq<Event>, e: Event)
    requires TurnEndsTell(log) && !e.TurnEnd?
    ensures TurnEndsTell(log + [e])
  {
    hide Heard;
    var all := log + [e];
    forall k | 0 <= k < |all| && all[k].TurnEnd? ensures Heard(all[..k]) == Said(Some(all[k].message), all[k].results) {
      assert all[..k] == log[..k] && all[k] == log[k];
    }
  }

  lemma OpenTells(local: bool, r: Run)
    requires Truthful(local, r.log)
    ensures Truthful(local, Open(r).log)
  {
    hide Truthful, Pairs;
    TruthfulSnoc(local, r.log, TurnStart);
    TruthfulPairs(local, if r.firstTurn then r.log else r.log + [TurnStart], r.pending);
  }

  lemma CloseTells(local: bool, r: Run, m: Message, results: seq<Message>, steering: seq<Message>, more: bool, t: TurnScript)
    requires Truthful(local, r.log) && Heard(r.log) == Said(Some(m), results)
    ensures Truthful(local, Close(r, m, results, steering, more, t).log)
  {
    hide Truthful, Heard, PerformAll, Batch, Rest;
    TruthfulSnoc(local, r.log, TurnEnd(m, results));
    TruthfulSnoc(local, r.log + [TurnEnd(m, results)], AgentEnd(r.added));
  }

  lemma FailTells(local: bool, r: Run, m: Message)
    requires Truthful(local, r.log) && Heard(r.log) == Said(Some(m), [])
    ensures Truthful(local, Fail(r, m).log)
  {
    hide Truthful, Heard;
    TruthfulSnoc(local, r.log, TurnEnd(m, []));
    TruthfulSnoc(local, r.log + [TurnEnd(m, [])], AgentEnd(r.added));
  }

  lemma HaltTells(local: bool, r: Run, m: Message, results: seq<Message>, lost: seq<Message>)
    requires Truthful(local, r.log) && Heard(r.log) == Said(Some(m), results)
    ensures Truthful(local, Halt(r, m, results, lost).log)
  {
    hide Truthful, Heard, Pair;
    var stop, ended := StopMessage(), r.log + [TurnEnd(m, results)];
    TruthfulSnoc(local, r.log, TurnEnd(m, results));
    TruthfulPair(local, ended, stop);
    TruthfulSnoc(local, ended + Pair(stop), TurnEnd(stop, []));
    TruthfulSnoc(local, ended + Pair(stop) + [TurnEnd(stop, [])], AgentEnd(r.added + [stop]));
  }

  lemma ConcludeTells(c: Config, r: Run, t: TurnScript)
    requires Truthful(!c.externalTools, r.log) && Heard(r.log) == Said(Some(t.reply.Final()), [])
    ensures Truthful(!c.externalTools, Conclude(c, r, t).log)
  {
    hide Truthful, Heard, Close, Halt, Fail, Execute, ExternalEvents;
    var m, jobs := t.reply.Final(), t.reply.Jobs();
    if m.stop.Failed() {
      FailTells(!c.externalTools, r, m);
    } else if jobs == [] && m.stop != PauseTurn {
      CloseTells(!c.externalTools, r, m, [], [], false, t);
    } else if c.externalTools {
      ExternalTruthful(r.log, jobs);
      CloseTells(false, r.(log := r.log + ExternalEvents(jobs)), m, [], [], false, t);
    } else {
      StartsWorking(r, m);
      ExecuteTells(StartWork(r), m, jobs, c.sequential, t.toolsEnv);
      var w := Execute(StartWork(r), jobs, c.sequential, t.toolsEnv);
      WorkingMeans(w, m);
      CloseTells(true, Collect(r, w), m, w.results, w.steering, true, t);
      HaltTells(true, Collect(r, w), m, w.results, w.steering);
    }
  }

  lemma ExternalTruthful(log: seq<Event>, jobs: seq<Job>)
    requires Truthful(false, log)
    ensures Truthful(false, log + ExternalEvents(jobs)) && Heard(log + ExternalEvents(jobs)) == Heard(log)
  {
    hide Heard, ExternalEvents, TurnEndsTell;
    ExternalTells(log, jobs);
  }

  lemma StartsWorking(r: Run, m: Message)
    requires Truthful(true, r.log) && Heard(r.log) == Said(Some(m), [])
    ensures Working(StartWork(r), m)
  {
  }

  lemma WorkingMeans(w: Work, m: Message)
    requires Working(w, m)
    ensures Truthful(true, w.log) && Heard(w.log) == Said(Some(m), w.results)
  {
  }

  lemma BeginTells(l: Launch, local: bool)
    ensures Truthful(local, l.Start().log)
  {
    hide Pairs, PerformAll, Batch, Rest;
    TruthfulPairs(local, [AgentStart, TurnStart], l.origin.prompts);
  }

  /**
   In every run each end of a turn carries the model's message and exactly the tool results that came since; and if tools
   run locally, each end of a tool call is followed by its result and says of it whether it is an error.
   */
  lemma {:induction false} LogIsTruthful(l: Launch, c: Config, turns: seq<TurnScript>, n: nat)
    requires n <= |turns|
    ensures Truthful(!c.externalTools, RunOf(l, c, turns, n).log)
  {
    hide Truthful, Begin, Conclude, Open, Respond, Heard;
    if n == 0 {
      BeginTells(l, !c.externalTools);
    } else {
      LogIsTruthful(l, c, turns, n - 1);
      var r := RunOf(l, c, turns, n - 1);
      if r.status.Running? {
        TakeTurnTells(c, r, turns[n - 1]);
      }
    }
  }

  lemma TakeTurnTells(c: Config, r: Run, t: TurnScript)
    requires Truthful(!c.externalTools, r.log)
    ensures Truthful(!c.externalTools, TakeTurn(c, r, t).log)
  {
    hide Truthful, Conclude, Open, Heard;
    OpenTells(!c.externalTools, r);
    ReplyTells(!c.externalTools, Open(r).log, t.reply);
    ConcludeTells(c, Respond(Open(r), t.reply), t);
  }
}
