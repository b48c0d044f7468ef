/**
 What every run of the agent loop keeps and what every ended run has done, for all replies, tool
 outcomes and queue activity.
 */
module AgentLoopTheorems {
  import opened Wrappers
  import opened Transcript
  import opened EventLog
  import opened MessageQueues
  import opened RunTrace
  import opened ToolExecution
  import opened ToolTurns
  import opened AgentLoop

  /** Where a run starts: its context and prompts, the replica following its log, the queues' ledgers. */
  datatype Origin = Origin(context: seq<Message>, prompts: seq<Message>, replica: Replica, ledgers: Ledgers)

  // ---------------------------------------------------------------------------------------------
  // The event log and the two copies of the conversation
  // ---------------------------------------------------------------------------------------------

  ghost predicate LogBetween(o: Origin, log: seq<Event>, added: seq<Message>) {
    && Parse(log) == Between
    && Replay(o.replica, log)
       == o.replica.(messages := o.replica.messages + added, streamMessage := None, pendingToolCalls := {})
  }

  ghost predicate LogInTurn(o: Origin, r: Run) { InTurn(o.replica, r.log, r.added, multiset{}) }

  /** At a turn head the two copies agree, and the replica is one `added` ahead of where it started. */
  ghost predicate LogAtHead(o: Origin, r: Run) {
    && r.messages == o.context + r.added
    && if r.firstTurn then LogInTurn(o, r) else LogBetween(o, r.log, r.added)
  }

  /** The whole log is a sentence of the grammar, and the replica ends with exactly what the run added. */
  ghost predicate LogEnded(o: Origin, r: Run) {
    && Parse(r.log) == Closed(r.status.Stopped?)
    && Replay(o.replica, r.log) == Replica(o.replica.messages + r.added, None, {}, false)
    && |r.log| > 0 && r.log[|r.log| - 1] == AgentEnd(r.added)
  }

  ghost predicate LogKept(o: Origin, r: Run) {
    match r.status
    case Running => LogAtHead(o, r)
    case Stopped(_) => LogEnded(o, r) && r.messages + [StopMessage()] == o.context + r.added
    case _ => LogEnded(o, r) && r.messages == o.context + r.added
  }

  lemma EndTurn(o: Origin, log: seq<Event>, added: seq<Message>, m: Message, results: seq<Message>)
    requires InTurn(o.replica, log, added, multiset{})
    ensures LogBetween(o, log + [TurnEnd(m, results)], added)
  {
    Extend(o.replica, log, TurnEnd(m, results));
    assert Replay(o.replica, log).pendingToolCalls == {};
  }

  lemma EndRun(o: Origin, log: seq<Event>, added: seq<Message>)
    requires LogBetween(o, log, added)
    ensures Parse(log + [AgentEnd(added)]) == Closed(false)
    ensures Replay(o.replica, log + [AgentEnd(added)]) == Replica(o.replica.messages + added, None, {}, false)
  {
    Extend(o.replica, log, AgentEnd(added));
  }

  lemma OpenLog(o: Origin, r: Run)
    requires LogAtHead(o, r)
    ensures LogInTurn(o, Open(r)) && Open(r).messages == o.context + Open(r).added
  {
    var log := if r.firstTurn then r.log else r.log + [TurnStart];
    Extend(o.replica, r.log, TurnStart);
    InTurnPairs(o.replica, log, r.added, multiset{}, r.pending);
    assert o.context + r.added + r.pending == o.context + (r.added + r.pending);
  }

  lemma RespondLog(o: Origin, r: Run, reply: Reply)
    requires LogInTurn(o, r) && r.messages == o.context + r.added
    ensures LogInTurn(o, Respond(r, reply)) && Respond(r, reply).messages == o.context + Respond(r, reply).added
  {
    hide InTurn, Parse, Replay;
    InTurnPair(o.replica, r.log, r.added, multiset{}, reply.Final());
    if reply.Streams? && reply.partials != [] {
      InTurnStream(o.replica, r.log, r.added, multiset{}, reply.partials[0], reply.partials[1..], reply.Final());
      assert r.log + reply.Events()
          == r.log + [MessageStart(reply.partials[0])] + Updates(reply.partials[1..]) + [MessageEnd(reply.Final())];
    }
    assert o.context + r.added + [reply.Final()] == o.context + (r.added + [reply.Final()]);
  }

  lemma {:induction false} ExternalLog(o: Origin, log: seq<Event>, added: seq<Message>, jobs: seq<Job>)
    requires InTurn(o.replica, log, added, multiset{})
    ensures InTurn(o.replica, log + ExternalEvents(jobs), added, multiset{})
    ensures Started(log + ExternalEvents(jobs)) == Started(log) + Calls(jobs)
  {
    if jobs == [] {
      assert log + ExternalEvents(jobs) == log && Started(log) + Calls(jobs) == Started(log);
    } else {
      var init, job := jobs[..|jobs| - 1], jobs[|jobs| - 1];
      var before := log + ExternalEvents(init);
      ExternalLog(o, log, added, init);
      InTurnStart(o.replica, before, added, multiset{}, job.call);
      var key, isError := job.call.Key(), job.script.execution.Throws?;
      InTurnEnd(o.replica, before + [ToolStart(job.call)], added, multiset{} + multiset{key}, key, isError);
      assert multiset{} + multiset{key} - multiset{key} == multiset{};
      assert log + ExternalEvents(jobs) == before + [ToolStart(job.call)] + [ToolEnd(key, isError)];
    }
  }

  lemma CloseLog(o: Origin, r: Run, m: Message, results: seq<Message>, steering: seq<Message>, more: bool, t: TurnScript)
    requires LogInTurn(o, r) && r.messages == o.context + r.added && !r.firstTurn && r.status.Running?
    ensures LogKept(o, Close(r, m, results, steering, more, t))
  {
    EndTurn(o, r.log, r.added, m, results);
    EndRun(o, r.log + [TurnEnd(m, results)], r.added);
  }

  lemma FailLog(o: Origin, r: Run, m: Message)
    requires LogInTurn(o, r) && r.messages == o.context + r.added
    ensures LogKept(o, Fail(r, m))
  {
    EndTurn(o, r.log, r.added, m, []);
    EndRun(o, r.log + [TurnEnd(m, [])], r.added);
  }

  /** The extra message and turn end of a forced stop, and the end of the run. */
  lemma ForcedTail(o: Origin, log: seq<Event>, added: seq<Message>, stop: Message)
    requires LogBetween(o, log, added)
    ensures var whole := log + Pair(stop) + [TurnEnd(stop, [])] + [AgentEnd(added + [stop])];
            && Parse(whole) == Closed(true)
            && Replay(o.replica, whole) == o.replica.(messages := o.replica.messages + (added + [stop]),
                                                      streamMessage := None, pendingToolCalls := {}, isStreaming := false)
  {
    hide Parse, Replay;
    Extend(o.replica, log, MessageStart(stop));
    Extend(o.replica, log + [MessageStart(stop)], MessageEnd(stop));
    assert log + Pair(stop) == log + [MessageStart(stop)] + [MessageEnd(stop)];
    Extend(o.replica, log + Pair(stop), TurnEnd(stop, []));
    Extend(o.replica, log + Pair(stop) + [TurnEnd(stop, [])], AgentEnd(added + [stop]));
    assert o.replica.messages + added + [stop] == o.replica.messages + (added + [stop]);
  }

  lemma HaltLog(o: Origin, r: Run, m: Message, results: seq<Message>, lost: seq<Message>)
    requires LogInTurn(o, r) && r.messages == o.context + r.added
    ensures LogKept(o, Halt(r, m, results, lost))
  {
    hide Parse, Replay, InTurn, LogBetween, Pair;
    var stop := StopMessage();
    EndTurn(o, r.log, r.added, m, results);
    ForcedTail(o, r.log + [TurnEnd(m, results)], r.added, stop);
    assert o.context + r.added + [stop] == o.context + (r.added + [stop]);
  }

  lemma CollectLog(o: Origin, r: Run, c: Config, jobs: seq<Job>, env: seq<EnvAction>)
    requires LogInTurn(o, r) && r.messages == o.context + r.added
    ensures var r' := Collect(r, Execute(StartWork(r), jobs, c.sequential, env));
            LogInTurn(o, r') && r'.messages == o.context + r'.added
  {
    var w := StartWork(r);
    assert r.added + [] == r.added;
    ExecuteLogged(o.replica, r.added, w, jobs, c.sequential, env);
    var w' := Execute(w, jobs, c.sequential, env);
    assert o.context + r.added + w'.results == o.context + (r.added + w'.results);
  }

  lemma ConcludeLog(o: Origin, c: Config, r: Run, t: TurnScript)
    requires LogInTurn(o, r) && r.messages == o.context + r.added && !r.firstTurn && r.status.Running?
    ensures LogKept(o, Conclude(c, r, t))
  {
    var m, jobs := t.reply.Final(), t.reply.Jobs();
    if m.stop.Failed() {
      FailLog(o, r, m);
    } else if jobs == [] && m.stop != PauseTurn {
      CloseLog(o, r, m, [], [], false, t);
    } else if c.externalTools {
      ExternalLog(o, r.log, r.added, jobs);
      CloseLog(o, r.(log := r.log + ExternalEvents(jobs)), m, [], [], false, t);
    } else {
      CollectLog(o, r, c, jobs, t.toolsEnv);
      var w := Execute(StartWork(r), jobs, c.sequential, t.toolsEnv);
      var collected := Collect(r, w);
      if collected.failures >= MAX_FAILURES {
        HaltLog(o, collected, m, w.results, w.steering);
      } else {
        CloseLog(o, collected, m, w.results, w.steering, true, t);
      }
    }
  }

  // ---------------------------------------------------------------------------------------------
  // The queues, and what reaches the transcript from outside
  // ---------------------------------------------------------------------------------------------

  /** Everything that comes from outside the loop is a user or custom message. */
  ghost predicate OutsideIsUserSide(o: Origin, acts: seq<Act>) {
    AllUserSide(o.prompts) && AllUserSide(Batches(acts))
  }

  /**
   The messages from outside that the run added are its prompts and then every batch a poll handed out,
   each once and in order, except for the `held` ones.
   */
  ghost predicate Injected(o: Origin, r: Run, held: seq<Message>) {
    OutsideIsUserSide(o, r.acts) ==> FromOutside(r.added) + held == o.prompts + Batches(r.acts)
  }

  /** The tools run locally, and the context the run started from is well paired. */
  ghost predicate PairingApplies(o: Origin, c: Config, acts: seq<Act>) {
    !c.externalTools && WellPaired(o.context) && OutsideIsUserSide(o, acts)
  }

  ghost predicate Paired(o: Origin, c: Config, r: Run, ms: seq<Message>) {
    PairingApplies(o, c, r.acts) ==> WellPaired(ms) && AsksWellPaired(r.acts)
  }

  lemma Narrow(a: seq<Message>, b: seq<Message>)
    requires AllUserSide(a + b)
    ensures AllUserSide(a) && AllUserSide(b)
  {
    assert forall i :: 0 <= i < |a| ==> a[i] == (a + b)[i];
    assert forall i :: 0 <= i < |b| ==> b[i] == (a + b)[|a| + i];
  }

  // ---------------------------------------------------------------------------------------------
  // Counting model calls and failures
  // ---------------------------------------------------------------------------------------------

  /** What pays for model calls after the first. */
  function Paid(acts: seq<Act>): nat {
    Count(acts, IsExecution) + Count(acts, IsSteerBatch) + Count(acts, IsFollowBatch)
  }

  /** The counter is the trace's streak, follow-ups were polled for only when idle, calls are paid for. */
  ghost predicate Counted(r: Run, free: nat) {
    && r.failures == Streak(r.acts)
    && FollowsOnlyWhenIdle(r.acts)
    && Count(r.acts, IsAsk) <= free + Paid(r.acts)
  }

  /** Everything about queues, counters and pairing in one place, with `held` not yet injected. */
  ghost predicate Sound(o: Origin, c: Config, r: Run, held: seq<Message>, ms: seq<Message>, free: nat) {
    && Fed(o.ledgers, r.acts, r.queues)
    && Injected(o, r, held)
    && Paired(o, c, r, ms)
    && Counted(r, free)
  }

  ghost predicate SoundKept(o: Origin, c: Config, r: Run) {
    match r.status
    case Running => Sound(o, c, r, r.pending, r.messages, 0) && r.failures < MAX_FAILURES
    case Completed => Sound(o, c, r, [], r.messages, 1) && r.failures < MAX_FAILURES
    case Failed =>
      && |r.messages| > 0
      && Sound(o, c, r, [], r.messages[..|r.messages| - 1], 1) && r.failures < MAX_FAILURES
    case Stopped(lost) => Sound(o, c, r, lost, r.messages, 1) && r.failures == MAX_FAILURES
  }

  lemma OpenSound(o: Origin, c: Config, r: Run)
    requires Sound(o, c, r, r.pending, r.messages, 0)
    ensures Sound(o, c, Open(r), [], Open(r).messages, 0)
  {
    var r' := Open(r);
    if OutsideIsUserSide(o, r.acts) {
      var outside := o.prompts + Batches(r.acts);
      assert AllUserSide(FromOutside(r.added) + r.pending);
      Narrow(FromOutside(r.added), r.pending);
      FromOutsideAppend(r.added, r.pending);
      FromOutsideAll(r.pending);
      assert FromOutside(r'.added) + [] == outside;
      if PairingApplies(o, c, r.acts) {
        UserSideIsWellPaired(r.pending);
        WellPairedAppend(r.messages, r.pending);
      }
    }
  }

  lemma AddedFromLoop(added: seq<Message>, ms: seq<Message>)
    requires forall i :: 0 <= i < |ms| ==> !ms[i].UserSide()
    ensures FromOutside(added + ms) == FromOutside(added)
  {
    FromOutsideAppend(added, ms);
    FromOutsideNone(ms);
    assert FromOutside(added) + [] == FromOutside(added);
  }

  lemma RespondSound(o: Origin, c: Config, r: Run, reply: Reply)
    requires Sound(o, c, r, [], r.messages, 0)
    ensures Sound(o, c, Respond(r, reply), [], r.messages, 1)
  {
    Snoc(r.acts, Asked(r.messages));
    assert Batches(r.acts) + [] == Batches(r.acts);
    FedOther(o.ledgers, r.acts, r.queues, Asked(r.messages));
    AddedFromLoop(r.added, [reply.Final()]);
  }

  lemma CollectSound(o: Origin, c: Config, r: Run, before: seq<Message>, m: Message, w: Work)
    requires Sound(o, c, r, [], before, 1) && r.messages == before + [m] && r.failures < MAX_FAILURES
    requires m.Assistant? && Answers(w.results, m.calls) && Drawn(o.ledgers, r.acts, w)
    ensures var r' := Collect(r, w);
            Sound(o, c, r', w.steering, r'.messages, 0) && r'.failures <= MAX_FAILURES
  {
    var r' := Collect(r, w);
    var executed := Executed(|w.results|, w.failures);
    Snoc(w.acts, executed);
    FedOther(o.ledgers, w.acts, w.queues, executed);
    assert Batches(r'.acts) == Batches(r.acts) + w.steering by {
      assert Batches(w.acts) + [] == Batches(w.acts);
    }
    AddedFromLoop(r.added, w.results);
    InjectedMore(o, r, r', w.steering);
    PairedMore(o, c, r, r', before);
    if PairingApplies(o, c, r'.acts) {
      AnsweredTurnIsWellPaired(before, m, w.results);
    }
  }

  lemma HaltSound(o: Origin, c: Config, r: Run, m: Message, results: seq<Message>, lost: seq<Message>)
    requires Sound(o, c, r, lost, r.messages, 0)
    ensures Sound(o, c, Halt(r, m, results, lost), lost, r.messages, 1)
  {
    Snoc(r.acts, ForceStop(lost));
    assert Batches(r.acts) + [] == Batches(r.acts);
    FedOther(o.ledgers, r.acts, r.queues, ForceStop(lost));
    AddedFromLoop(r.added, [StopMessage()]);
  }

  lemma PollSound(o: Origin, c: Config, r: Run, env: seq<EnvAction>, free: nat)
    requires Sound(o, c, r, [], r.messages, free)
    ensures var r' := Steered(r, [], env);
            && Sound(o, c, r', r'.pending, r'.messages, free)
            && (r'.pending != [] && free > 0 ==> Counted(r', free - 1))
  {
    var q := PerformAll(r.queues, env);
    var poll := SteerPoll(env, Batch(q.steering));
    FedSteer(o.ledgers, r.acts, r.queues, env, q);
    Snoc(r.acts, poll);
    InjectedMore(o, r, Steered(r, [], env), Batch(q.steering));
    PairedMore(o, c, r, Steered(r, [], env), r.messages);
  }

  lemma InjectedMore(o: Origin, r: Run, r': Run, batch: seq<Message>)
    requires Injected(o, r, []) && FromOutside(r'.added) == FromOutside(r.added)
    requires Batches(r'.acts) == Batches(r.acts) + batch
    ensures Injected(o, r', batch)
  {
    if OutsideIsUserSide(o, r'.acts) {
      Narrow(Batches(r.acts), batch);
      assert FromOutside(r.added) + [] == FromOutside(r.added);
      assert o.prompts + Batches(r.acts) + batch == o.prompts + (Batches(r.acts) + batch);
    }
  }

  lemma PairedMore(o: Origin, c: Config, r: Run, r': Run, ms: seq<Message>)
    requires Paired(o, c, r, ms) && Batches(r.acts) <= Batches(r'.acts)
    requires AsksWellPaired(r.acts) ==> AsksWellPaired(r'.acts)
    ensures Paired(o, c, r', ms)
  {
    if PairingApplies(o, c, r'.acts) {
      Narrow(Batches(r.acts), Batches(r'.acts)[|Batches(r.acts)|..]);
      assert Batches(r.acts) + Batches(r'.acts)[|Batches(r.acts)|..] == Batches(r'.acts);
    }
  }

  lemma FollowSound(o: Origin, c: Config, r: Run, env: seq<EnvAction>)
    requires Sound(o, c, r, [], r.messages, 1) && r.status.Running? && r.failures < MAX_FAILURES
    requires |r.acts| > 0 && r.acts[|r.acts| - 1].SteerPoll? && r.acts[|r.acts| - 1].batch == []
    ensures SoundKept(o, c, Followed(r, env))
  {
    var q := PerformAll(r.queues, env);
    var poll := FollowPoll(env, Batch(q.followUp));
    FedFollow(o.ledgers, r.acts, r.queues, env, q);
    Snoc(r.acts, poll);
    InjectedMore(o, r, Followed(r, env), Batch(q.followUp));
    PairedMore(o, c, r, Followed(r, env), r.messages);
  }

  lemma CloseSound(o: Origin, c: Config, r: Run, m: Message, results: seq<Message>, steering: seq<Message>, more: bool, t: TurnScript)
    requires Sound(o, c, r, steering, r.messages, if more then 0 else 1)
    requires r.status.Running? && r.failures < MAX_FAILURES && r.pending == [] && (steering != [] ==> more)
    ensures SoundKept(o, c, Close(r, m, results, steering, more, t))
  {
    var ended := r.(log := r.log + [TurnEnd(m, results)]);
    assert Sound(o, c, ended, steering, ended.messages, if more then 0 else 1);
    if steering == [] {
      PollSound(o, c, ended, t.turnEnv, if more then 0 else 1);
      var steered := Steered(ended, [], t.turnEnv);
      if !more && steered.pending == [] {
        FollowSound(o, c, steered, t.followEnv);
      }
    }
  }

  lemma ConcludeSound(o: Origin, c: Config, r: Run, before: seq<Message>, t: TurnScript)
    requires Sound(o, c, r, [], before, 1) && r.messages == before + [t.reply.Final()]
    requires r.status.Running? && r.failures < MAX_FAILURES && r.pending == []
    ensures SoundKept(o, c, Conclude(c, r, t))
  {
    hide Close, Execute, ExternalEvents, Fed;
    var m, jobs := t.reply.Final(), t.reply.Jobs();
    if m.stop.Failed() {
      assert r.messages[..|r.messages| - 1] == before;
    } else if jobs == [] && m.stop != PauseTurn {
      PairedWithoutCalls(o, c, r, before, m);
      CloseSound(o, c, r, m, [], [], false, t);
    } else if c.externalTools {
      var announced := r.(log := r.log + ExternalEvents(jobs));
      assert Sound(o, c, announced, [], announced.messages, 1);
      CloseSound(o, c, announced, m, [], [], false, t);
    } else {
      var w := Execute(StartWork(r), jobs, c.sequential, t.toolsEnv);
      ExecuteDrawn(o.ledgers, StartWork(r), jobs, c.sequential, t.toolsEnv);
      ExecuteAnswers(StartWork(r), jobs, c.sequential, t.toolsEnv);
      CollectSound(o, c, r, before, m, w);
      var collected := Collect(r, w);
      if collected.failures >= MAX_FAILURES {
        HaltSound(o, c, collected, m, w.results, w.steering);
      } else {
        CloseSound(o, c, collected, m, w.results, w.steering, true, t);
      }
    }
  }

  lemma PairedWithoutCalls(o: Origin, c: Config, r: Run, before: seq<Message>, m: Message)
    requires Paired(o, c, r, before) && r.messages == before + [m] && m.Assistant? && m.calls == []
    ensures Paired(o, c, r, r.messages)
  {
    if PairingApplies(o, c, r.acts) {
      assert ResultKeys([]) == CallKeys([]);
      AnsweredTurnIsWellPaired(before, m, []);
      assert before + [m] + [] == r.messages;
    }
  }

  // ---------------------------------------------------------------------------------------------
  // Every turn, every run
  // ---------------------------------------------------------------------------------------------

  ghost predicate Kept(o: Origin, c: Config, r: Run) {
    LogKept(o, r) && SoundKept(o, c, r)
  }

  /** The replica is the agent's state when the run starts; the ledgers account for the queues. */
  ghost predicate Starts(o: Origin, queues: Queues) {
    && o.replica.streamMessage == None && o.replica.pendingToolCalls == {} && o.replica.isStreaming
    && AccountsBoth(o.ledgers, queues)
  }

  lemma BeginLog(o: Origin, queues: Queues, skipPoll: bool, env: seq<EnvAction>)
    requires Starts(o, queues)
    ensures LogAtHead(o, Begin(o.context, o.prompts, queues, skipPoll, env))
  {
    Extend(o.replica, [], AgentStart);
    Extend(o.replica, [AgentStart], TurnStart);
    assert [] + [AgentStart] == [AgentStart] && [AgentStart] + [TurnStart] == [AgentStart, TurnStart];
    assert o.replica.messages + [] == o.replica.messages && [] + o.prompts == o.prompts;
    InTurnPairs(o.replica, [AgentStart, TurnStart], [], multiset{}, o.prompts);
  }

  lemma EmptyTraceFed(o: Origin, queues: Queues)
    requires Starts(o, queues)
    ensures Fed(o.ledgers, [], queues)
  {
    hide Survivors;
    assert Delivered(o.ledgers.steering) + [] == Delivered(o.ledgers.steering);
    assert Delivered(o.ledgers.followUp) + [] == Delivered(o.ledgers.followUp);
  }

  lemma BeginFed(o: Origin, queues: Queues, skipPoll: bool, env: seq<EnvAction>)
    requires Starts(o, queues)
    ensures var r := Begin(o.context, o.prompts, queues, skipPoll, env);
            Fed(o.ledgers, r.acts, r.queues)
  {
    hide Fed, Starts, Survivors, PerformAll, Batch, Rest, Pairs;
    EmptyTraceFed(o, queues);
    FedSteer(o.ledgers, [], queues, env, PerformAll(queues, env));
    assert forall a: Act :: [] + [a] == [a];
  }

  lemma BeginCounted(context: seq<Message>, prompts: seq<Message>, queues: Queues, skipPoll: bool, env: seq<EnvAction>)
    ensures var r := Begin(context, prompts, queues, skipPoll, env);
            Counted(r, 0) && AsksWellPaired(r.acts) && Batches(r.acts) == r.pending
  {
    hide PerformAll, Batch, Rest, Pairs, WellPaired;
    var r := Begin(context, prompts, queues, skipPoll, env);
    assert [] + [r.acts[0]] == r.acts;
    FoldsSnoc([], r.acts[0]);
    CountSnoc([], r.acts[0], IsAsk);
  }

  lemma BeginSound(o: Origin, c: Config, queues: Queues, skipPoll: bool, env: seq<EnvAction>)
    requires Starts(o, queues)
    ensures SoundKept(o, c, Begin(o.context, o.prompts, queues, skipPoll, env))
  {
    BeginFed(o, queues, skipPoll, env);
    BeginCounted(o.context, o.prompts, queues, skipPoll, env);
    hide Fed, Counted, Streak, Batches, WellPaired, PerformAll;
    if AllUserSide(o.prompts) {
      FromOutsideAll(o.prompts);
      UserSideIsWellPaired(o.prompts);
      if WellPaired(o.context) {
        WellPairedAppend(o.context, o.prompts);
      }
    }
  }

  lemma BeginKept(o: Origin, c: Config, queues: Queues, skipPoll: bool, env: seq<EnvAction>)
    requires Starts(o, queues)
    ensures Kept(o, c, Begin(o.context, o.prompts, queues, skipPoll, env))
  {
    BeginLog(o, queues, skipPoll, env);
    BeginSound(o, c, queues, skipPoll, env);
  }

  /** One turn keeps everything, whatever the model, the tools and the queues do. */
  lemma TakeTurnKept(o: Origin, c: Config, r: Run, t: TurnScript)
    requires Kept(o, c, r) && r.status.Running?
    ensures Kept(o, c, TakeTurn(c, r, t))
  {
    OpenLog(o, r);
    RespondLog(o, Open(r), t.reply);
    ConcludeLog(o, c, Respond(Open(r), t.reply), t);
    OpenSound(o, c, r);
    RespondSound(o, c, Open(r), t.reply);
    ConcludeSound(o, c, Respond(Open(r), t.reply), Open(r).messages, t);
  }

  lemma {:induction false} RunKept(o: Origin, c: Config, start: Run, turns: seq<TurnScript>, n: nat)
    requires n <= |turns| && Kept(o, c, start)
    ensures Kept(o, c, RunAfter(c, start, turns, n))
  {
    hide Kept, TakeTurn;
    if n > 0 {
      RunKept(o, c, start, turns, n - 1);
      var r := RunAfter(c, start, turns, n - 1);
      if r.status.Running? {
        TakeTurnKept(o, c, r, turns[n - 1]);
      }
    }
  }
}
