/**
 The agent and its loop in the form the program has them: an object whose queues and state are updated
 in place, and a nested loop that pushes to shared message arrays and to the event stream.
 */
module AgentRuntime {
  import opened Wrappers
  import opened Transcript
  import opened EventLog
  import opened MessageQueues
  import opened RunTrace
  import opened ToolExecution
  import opened AgentLoop
  import opened AgentLoopTheorems
  import opened AgentRuns
  import opened AgentLife

  datatype RunError = AlreadyProcessing | NoModel | NoMessages | LastIsAssistant

  /** What a prompt may be given. */
  datatype Input = Text(text: string) | One(message: Message) | Several(messages: seq<Message>) {
    function Prompts(): seq<Message> {
      match this
      case Text(text) => [User(text)]
      case One(message) => [message]
      case Several(messages) => messages
    }
  }

  /** The arrays a run mutates: the loop's context, the messages it adds, and the event stream. */
  class RunBuffers {
    var messages: seq<Message>
    var newMessages: seq<Message>
    var stream: seq<Event>
    ghost var acts: seq<Act>

    constructor (context: seq<Message>, prompts: seq<Message>)
      ensures messages == context + prompts && newMessages == prompts && stream == [] && acts == []
    {
      messages, newMessages, stream, acts := context + prompts, prompts, [], [];
    }

    method Push(e: Event)
      modifies `stream
      ensures stream == old(stream) + [e]
    {
      stream := stream + [e];
    }

    method EmitPair(m: Message)
      modifies `stream
      ensures stream == old(stream) + Pair(m)
    {
      stream := stream + [MessageStart(m)];
      stream := stream + [MessageEnd(m)];
    }

    method EmitOutcome(result: Message)
      requires result.ToolResult?
      modifies `stream
      ensures stream == old(stream) + Outcome(result)
    {
      Push(ToolEnd(result.Key(), result.isError));
      EmitPair(result);
    }
  }

  class Agent {
    const hasModel: bool
    var messages: seq<Message>
    var streamMessage: Option<Message>
    var pendingToolCalls: set<string>
    var isStreaming: bool
    var steeringQueue: seq<Entry>
    var followUpQueue: seq<Entry>
    var steeringMode: Mode
    var followUpMode: Mode
    ghost var ledgers: MessageQueues.Ledgers

    function State(): Replica
      reads this
    {
      Replica(messages, streamMessage, pendingToolCalls, isStreaming)
    }

    function Queued(): Queues
      reads this
    {
      Queues(Queue(steeringQueue, steeringMode), Queue(followUpQueue, followUpMode))
    }

    /** The ledgers account for both queues; between runs nothing is being streamed. */
    ghost predicate Valid()
      reads this
    {
      && AccountsBoth(ledgers, Queued())
      && (!isStreaming ==> streamMessage == None && pendingToolCalls == {})
    }

    /** Without a mode of its own, a queue hands out one message at a time. */
    constructor (initial: seq<Message>, model: bool, steering: Option<Mode>, followUp: Option<Mode>)
      ensures Valid() && hasModel == model && messages == initial && !isStreaming && ledgers == EMPTY_LEDGERS
      ensures Queued() == Queues(Queue([], if steering.Some? then steering.value else OneAtATime),
                                 Queue([], if followUp.Some? then followUp.value else OneAtATime))
    {
      hasModel := model;
      messages, streamMessage, pendingToolCalls, isStreaming := initial, None, {}, false;
      steeringQueue, followUpQueue := [], [];
      steeringMode := if steering.Some? then steering.value else OneAtATime;
      followUpMode := if followUp.Some? then followUp.value else OneAtATime;
      ledgers := EMPTY_LEDGERS;
    }

    // -------------------------------------------------------------------------------------------
    // The queues
    // -------------------------------------------------------------------------------------------

    method Steer(e: Entry)
      requires Valid()
      modifies `steeringQueue, `ledgers
      ensures Valid() && Queued() == Perform(old(Queued()), EnvAction.Steer(e)) && ledgers == Note(old(ledgers), EnvAction.Steer(e))
      ensures steeringQueue == old(steeringQueue) + [e]
    {
      NoteAccounts(ledgers, Queued(), EnvAction.Steer(e));
      steeringQueue := steeringQueue + [e];
      ledgers := Note(ledgers, EnvAction.Steer(e));
    }

    method FollowUp(e: Entry)
      requires Valid()
      modifies `followUpQueue, `ledgers
      ensures Valid() && Queued() == Perform(old(Queued()), EnvAction.FollowUp(e)) && ledgers == Note(old(ledgers), EnvAction.FollowUp(e))
      ensures followUpQueue == old(followUpQueue) + [e]
    {
      NoteAccounts(ledgers, Queued(), EnvAction.FollowUp(e));
      followUpQueue := followUpQueue + [e];
      ledgers := Note(ledgers, EnvAction.FollowUp(e));
    }

    method ClearSteeringQueue()
      requires Valid()
      modifies `steeringQueue, `ledgers
      ensures Valid() && Queued() == Perform(old(Queued()), ClearSteering) && ledgers == Note(old(ledgers), ClearSteering)
      ensures steeringQueue == []
    {
      NoteAccounts(ledgers, Queued(), ClearSteering);
      steeringQueue := [];
      ledgers := Note(ledgers, ClearSteering);
    }

    method ClearFollowUpQueue()
      requires Valid()
      modifies `followUpQueue, `ledgers
      ensures Valid() && Queued() == Perform(old(Queued()), ClearFollowUp) && ledgers == Note(old(ledgers), ClearFollowUp)
      ensures followUpQueue == []
    {
      NoteAccounts(ledgers, Queued(), ClearFollowUp);
      followUpQueue := [];
      ledgers := Note(ledgers, ClearFollowUp);
    }

    method ClearAllQueues()
      requires Valid()
      modifies `steeringQueue, `followUpQueue, `ledgers
      ensures Valid() && Queued() == Perform(old(Queued()), ClearAll) && ledgers == Note(old(ledgers), ClearAll)
      ensures steeringQueue == followUpQueue == []
    {
      NoteAccounts(ledgers, Queued(), ClearAll);
      steeringQueue := [];
      followUpQueue := [];
      ledgers := Note(ledgers, ClearAll);
    }

    /** Hands back what the user typed and leaves the system's messages queued, both in order. */
    method DrainUserMessages() returns (steering: seq<Message>, followUp: seq<Message>)
      requires Valid()
      modifies `steeringQueue, `followUpQueue, `ledgers
      ensures Valid() && Queued() == Perform(old(Queued()), DrainUser) && ledgers == Note(old(ledgers), DrainUser)
      ensures steering == Messages(UserOnly(old(steeringQueue))) && followUp == Messages(UserOnly(old(followUpQueue)))
      ensures steeringQueue == SystemOnly(old(steeringQueue)) && followUpQueue == SystemOnly(old(followUpQueue))
    {
      NoteAccounts(ledgers, Queued(), DrainUser);
      steering := Messages(UserOnly(steeringQueue));
      followUp := Messages(UserOnly(followUpQueue));
      steeringQueue := SystemOnly(steeringQueue);
      followUpQueue := SystemOnly(followUpQueue);
      ledgers := Note(ledgers, DrainUser);
    }

    /** One step of the rest of the program on the queues. */
    method Apply(a: EnvAction)
      requires Valid()
      modifies `steeringQueue, `followUpQueue, `steeringMode, `followUpMode, `ledgers
      ensures Valid() && Queued() == Perform(old(Queued()), a) && ledgers == Note(old(ledgers), a)
    {
      match a
      case Steer(e) => Steer(e);
      case FollowUp(e) => FollowUp(e);
      case ClearSteering => ClearSteeringQueue();
      case ClearFollowUp => ClearFollowUpQueue();
      case ClearAll => ClearAllQueues();
      case DrainUser => var _, _ := DrainUserMessages();
      case SetSteeringMode(m) => steeringMode := m;
      case SetFollowUpMode(m) => followUpMode := m;
    }

    /** What happens to the queues while a run waits. */
    method ApplyAll(env: seq<EnvAction>)
      requires Valid()
      modifies `steeringQueue, `followUpQueue, `steeringMode, `followUpMode, `ledgers
      ensures Valid() && Queued() == PerformAll(old(Queued()), env) && ledgers == NoteAll(old(ledgers), env)
    {
      for i := 0 to |env|
        invariant Valid() && Queued() == PerformAll(old(Queued()), env[..i]) && ledgers == NoteAll(old(ledgers), env[..i])
      {
        assert env[..i + 1][..i] == env[..i];
        Apply(env[i]);
      }
      assert env[..|env|] == env;
    }

    method DequeueSteeringMessages() returns (batch: seq<Message>)
      requires Valid()
      modifies `steeringQueue, `ledgers
      ensures Valid() && batch == Batch(old(Queued()).steering)
      ensures Queued() == old(Queued()).(steering := Rest(old(Queued()).steering))
      ensures ledgers == old(ledgers).(steering := Deliver(old(ledgers).steering, |batch|))
      ensures old(steeringQueue) == [] ==> batch == [] && steeringQueue == []
      ensures steeringMode.OneAtATime? && old(steeringQueue) != [] ==>
                batch == [old(steeringQueue)[0].message] && steeringQueue == old(steeringQueue)[1..]
      ensures steeringMode.All? ==>
                && |batch| == |old(steeringQueue)| && steeringQueue == []
                && forall k :: 0 <= k < |batch| ==> batch[k] == old(steeringQueue)[k].message
    {
      DeliverAccounts(ledgers.steering, Queued().steering);
      if steeringMode == OneAtATime {
        if |steeringQueue| > 0 {
          var first := steeringQueue[0];
          steeringQueue := steeringQueue[1..];
          batch := [first.message];
        } else {
          batch := [];
        }
      } else {
        batch := Messages(steeringQueue);
        steeringQueue := [];
      }
      ledgers := ledgers.(steering := Deliver(ledgers.steering, |batch|));
    }

    method DequeueFollowUpMessages() returns (batch: seq<Message>)
      requires Valid()
      modifies `followUpQueue, `ledgers
      ensures Valid() && batch == Batch(old(Queued()).followUp)
      ensures Queued() == old(Queued()).(followUp := Rest(old(Queued()).followUp))
      ensures ledgers == old(ledgers).(followUp := Deliver(old(ledgers).followUp, |batch|))
      ensures old(followUpQueue) == [] ==> batch == [] && followUpQueue == []
      ensures followUpMode.OneAtATime? && old(followUpQueue) != [] ==>
                batch == [old(followUpQueue)[0].message] && followUpQueue == old(followUpQueue)[1..]
      ensures followUpMode.All? ==>
                && |batch| == |old(followUpQueue)| && followUpQueue == []
                && forall k :: 0 <= k < |batch| ==> batch[k] == old(followUpQueue)[k].message
    {
      DeliverAccounts(ledgers.followUp, Queued().followUp);
      if followUpMode == OneAtATime {
        if |followUpQueue| > 0 {
          var first := followUpQueue[0];
          followUpQueue := followUpQueue[1..];
          batch := [first.message];
        } else {
          batch := [];
        }
      } else {
        batch := Messages(followUpQueue);
        followUpQueue := [];
      }
      ledgers := ledgers.(followUp := Deliver(ledgers.followUp, |batch|));
    }

    // -------------------------------------------------------------------------------------------
    // Runs
    // -------------------------------------------------------------------------------------------

    /** What a run launched now starts from. */
    ghost function LaunchNow(prompts: seq<Message>, skipPoll: bool, env: seq<EnvAction>): Launch
      reads this
    {
      Launch(Origin(messages, prompts, Replica(messages, None, pendingToolCalls, true), ledgers), Queued(), skipPoll, env)
    }

    /** The state a run leaves: its messages appended, the queues and their ledgers where its trace took them. */
    ghost predicate Left(l: Launch, c: Config, turns: seq<TurnScript>)
      reads this
    {
      var r := RunOf(l, c, turns, |turns|);
      && messages == l.origin.replica.messages + r.added
      && Queued() == r.queues && ledgers == LedgersAfter(l.origin.ledgers, r.acts)
      && isStreaming == r.status.Running?
    }

    /** Folds the event stream into the agent's state, one event at a time. */
    method Fold(stream: seq<Event>)
      modifies `messages, `streamMessage, `pendingToolCalls, `isStreaming
      ensures State() == Replay(old(State()), stream)
    {
      for i := 0 to |stream|
        invariant State() == Replay(old(State()), stream[..i])
      {
        assert stream[..i + 1][..i] == stream[..i];
        match stream[i] {
          case MessageStart(m) => streamMessage := Some(m);
          case MessageUpdate(m) => streamMessage := Some(m);
          case MessageEnd(m) =>
            streamMessage := None;
            messages := messages + [m];
          case ToolStart(call) => pendingToolCalls := pendingToolCalls + {call.id};
          case ToolEnd(key, _) => pendingToolCalls := pendingToolCalls - {key.0};
          case AgentEnd(_) =>
            isStreaming := false;
            streamMessage := None;
          case _ =>
        }
      }
      assert stream[..|stream|] == stream;
    }

    /** A run and the folding of its events. */
    method RunAndFold(prompts: seq<Message>, skipPoll: bool, c: Config, env: seq<EnvAction>, turns: seq<TurnScript>)
      requires Valid() && !isStreaming
      modifies this
      ensures Valid() && Left(old(LaunchNow(prompts, skipPoll, env)), c, turns)
    {
      hide RunAfter, Begin, Replay, LedgersAfter, Kept, AccountsBoth;
      ghost var launch := LaunchNow(prompts, skipPoll, env);
      isStreaming := true;
      streamMessage := None;
      var buf := new RunBuffers(messages, prompts);
      StartStream(buf, prompts);
      var status := RunLoop(this, buf, c, turns, skipPoll, env, messages, prompts, launch.origin.ledgers);
      RunOfKept(launch, c, turns, |turns|);
      CopiesAgree(launch, c, turns, |turns|);
      Fold(buf.stream);
      if !status.Running? {
        isStreaming := false;
        streamMessage := None;
        pendingToolCalls := {};
      }
    }

    /** No run is started without a model. */
    method StartRun(prompts: seq<Message>, skipPoll: bool, c: Config, env: seq<EnvAction>, turns: seq<TurnScript>)
      returns (result: Result<(), RunError>)
      requires Valid() && !isStreaming
      modifies this
      ensures Valid()
      ensures if hasModel then result == Success(()) && Left(old(LaunchNow(prompts, skipPoll, env)), c, turns)
              else result == Failure(NoModel) && State() == old(State()) && Queued() == old(Queued()) && ledgers == old(ledgers)
    {
      hide RunOf, LedgersAfter, AccountsBoth;
      if !hasModel {
        return Failure(NoModel);
      }
      RunAndFold(prompts, skipPoll, c, env, turns);
      result := Success(());
    }

    method Prompt(input: Input, c: Config, env: seq<EnvAction>, turns: seq<TurnScript>)
      returns (result: Result<(), RunError>)
      requires Valid()
      modifies this
      ensures Valid()
      ensures result.Failure? ==> State() == old(State()) && Queued() == old(Queued()) && ledgers == old(ledgers)
      ensures if old(isStreaming) then result == Failure(AlreadyProcessing)
              else if !hasModel then result == Failure(NoModel)
              else
                && result == Success(())
                && Left(old(LaunchNow(match input case Text(text) => [User(text)] case One(m) => [m] case Several(ms) => ms, false, env)),
                        c, turns)
    {
      if isStreaming {
        return Failure(AlreadyProcessing);
      }
      if !hasModel {
        return Failure(NoModel);
      }
      result := StartRun(input.Prompts(), false, c, env, turns);
    }

    /**
     Resumes: from the last message if it asks for an answer, else from what is queued, steering before
     follow-ups. A dequeued steering batch becomes the prompt and the run's first poll is skipped. Without a model the run is refused only
     after that, and the batch is gone.
     */
    method Continue(c: Config, env: seq<EnvAction>, turns: seq<TurnScript>) returns (result: Result<(), RunError>)
      requires Valid()
      modifies this
      ensures Valid()
      ensures result.Failure? ==> State() == old(State())
      ensures result.Failure? && result.error != NoModel ==> Queued() == old(Queued()) && ledgers == old(ledgers)
      ensures old(isStreaming) ==> result == Failure(AlreadyProcessing)
      ensures !old(isStreaming) ==>
                match Continuation(old(LaunchNow([], false, env)))
                case Some(launch) =>
                  if hasModel then result == Success(()) && Left(launch, c, turns)
                  else result == Failure(NoModel) && Queued() == launch.queues && ledgers == launch.origin.ledgers
                case None => result == Failure(if old(messages) == [] then NoMessages else LastIsAssistant)
    {
      hide RunOf, LedgersAfter, AccountsBoth, Batch, Rest, Deliver;
      NothingTaken(Queued().steering, ledgers.steering);
      NothingTaken(Queued().followUp, ledgers.followUp);
      if isStreaming {
        return Failure(AlreadyProcessing);
      }
      if |messages| == 0 {
        return Failure(NoMessages);
      }
      if messages[|messages| - 1].Assistant? {
        var queuedSteering := DequeueSteeringMessages();
        if |queuedSteering| > 0 {
          result := StartRun(queuedSteering, true, c, env, turns);
          return;
        }
        var queuedFollowUp := DequeueFollowUpMessages();
        if |queuedFollowUp| > 0 {
          result := StartRun(queuedFollowUp, false, c, env, turns);
          return;
        }
        return Failure(LastIsAssistant);
      }
      result := StartRun([], false, c, env, turns);
    }
  }

  lemma NothingTaken(q: Queue, l: Ledger)
    ensures Batch(q) == [] ==> Rest(q) == q && Deliver(l, |Batch(q)|) == l
  {
  }

  /** The agent is where its life has taken it. */
  ghost predicate Lives(agent: Agent, a: Life)
    reads agent
  {
    && agent.Valid() && !agent.isStreaming && agent.hasModel
    && agent.messages == a.messages && agent.Queued() == a.queues && agent.ledgers == AgentLife.Ledgers(a)
  }

  /** One episode: the queues are used while the agent is idle, then it is prompted or resumed. */
  method LiveThrough(agent: Agent, e: Episode, ghost a: Life)
    requires Lives(agent, a) && Ends(a, e)
    modifies agent
    ensures Lives(agent, Live(a, e))
  {
    hide RunOf, Kept, PerformAll, NoteAll, AccountsBoth, LedgersAfter;
    ghost var idled := Idled(a, e.idle);
    agent.ApplyAll(e.idle);
    PollSnoc(EMPTY_LEDGERS, a.acts, SteerPoll(e.idle, []));
    LiveLedgers(a, e);
    match e.cause {
      case Prompted(messages) =>
        assert agent.LaunchNow(messages, false, e.env) == Base(idled, messages, e.env);
        var _ := agent.Prompt(Several(messages), e.config, e.env, e.turns);
      case Continued =>
        assert agent.LaunchNow([], false, e.env) == Base(idled, [], e.env);
        var _ := agent.Continue(e.config, e.env, e.turns);
    }
  }

  /** The ledgers of a life that goes on are those its next run leaves. */
  lemma LiveLedgers(a: Life, e: Episode)
    requires AccountsBoth(AgentLife.Ledgers(a), a.queues)
    ensures var launch := LaunchOf(Idled(a, e.idle), e);
            launch.Some? ==>
              AgentLife.Ledgers(Live(a, e))
              == LedgersAfter(launch.value.origin.ledgers, RunOf(launch.value, e.config, e.turns, |e.turns|).acts)
  {
    hide RunOf, AccountsBoth, LedgersAfter, PerformAll, Batch, Rest, Batches;
    var idled := Idled(a, e.idle);
    if LaunchOf(idled, e).Some? {
      var l := LaunchOf(idled, e).value;
      TracesAppend(EMPTY_LEDGERS, idled.acts + Resumption(idled, e), RunOf(l, e.config, e.turns, |e.turns|).acts);
      LaunchLedgers(idled, e);
    }
  }

  // ---------------------------------------------------------------------------------------------
  // Tool execution
  // ---------------------------------------------------------------------------------------------

  /** The agent's ledgers are the run's starting ledgers carried along its trace. */
  ghost predicate Tracked(agent: Agent, buf: RunBuffers, before: MessageQueues.Ledgers)
    reads agent, buf`acts
  {
    agent.Valid() && agent.ledgers == LedgersAfter(before, buf.acts)
  }

  /** The hook the loop polls for steering messages, after the queue activity `env`. */
  method GetSteeringMessages(agent: Agent, buf: RunBuffers, env: seq<EnvAction>, skip: bool, ghost before: MessageQueues.Ledgers)
    returns (batch: seq<Message>)
    requires Tracked(agent, buf, before)
    modifies agent`steeringQueue, agent`followUpQueue, agent`steeringMode, agent`followUpMode, agent`ledgers, buf`acts
    ensures Tracked(agent, buf, before)
    ensures var q := PerformAll(old(agent.Queued()), env);
            && batch == (if skip then [] else Batch(q.steering))
            && agent.Queued() == (if skip then q else q.(steering := Rest(q.steering)))
    ensures buf.acts == old(buf.acts) + [SteerPoll(env, batch)]
  {
    agent.ApplyAll(env);
    if skip {
      batch := [];
    } else {
      batch := agent.DequeueSteeringMessages();
    }
    PollSnoc(before, buf.acts, SteerPoll(env, batch));
    buf.acts := buf.acts + [SteerPoll(env, batch)];
  }

  method GetFollowUpMessages(agent: Agent, buf: RunBuffers, env: seq<EnvAction>, ghost before: MessageQueues.Ledgers)
    returns (batch: seq<Message>)
    requires Tracked(agent, buf, before)
    modifies agent`steeringQueue, agent`followUpQueue, agent`steeringMode, agent`followUpMode, agent`ledgers, buf`acts
    ensures Tracked(agent, buf, before)
    ensures var q := PerformAll(old(agent.Queued()), env);
            batch == Batch(q.followUp) && agent.Queued() == q.(followUp := Rest(q.followUp))
    ensures buf.acts == old(buf.acts) + [FollowPoll(env, batch)]
  {
    agent.ApplyAll(env);
    batch := agent.DequeueFollowUpMessages();
    PollSnoc(before, buf.acts, FollowPoll(env, batch));
    buf.acts := buf.acts + [FollowPoll(env, batch)];
  }

  /** The mutable state shows what the specification's work value says. */
  ghost predicate Shows(agent: Agent, buf: RunBuffers, w: Work)
    reads agent, buf
  {
    buf.stream == w.log && agent.Queued() == w.queues && buf.acts == w.acts
  }

  method SkipToolCalls(agent: Agent, buf: RunBuffers, jobs: seq<Job>, emitStart: bool, results: seq<Message>, ghost w: Work)
    returns (all: seq<Message>, ghost w': Work)
    requires Shows(agent, buf, w) && results == w.results
    modifies buf`stream
    ensures w' == SkipAll(w, jobs, emitStart) && Shows(agent, buf, w') && all == w'.results
  {
    all, w' := results, w;
    for i := 0 to |jobs|
      invariant w' == SkipAll(w, jobs[..i], emitStart) && Shows(agent, buf, w') && all == w'.results
    {
      assert jobs[..i + 1][..i] == jobs[..i];
      if emitStart {
        buf.Push(ToolStart(jobs[i].call));
      }
      buf.EmitOutcome(jobs[i].Skip());
      all := all + [jobs[i].Skip()];
      w' := SkipAll(w, jobs[..i + 1], emitStart);
    }
    assert jobs[..|jobs|] == jobs;
  }

  /** One call from its announcement to its result, whether it fails in preparation or runs. */
  method RunToolCall(agent: Agent, buf: RunBuffers, job: Job, results: seq<Message>, failures: nat, ghost w: Work)
    returns (all: seq<Message>, failed: nat, ghost w': Work)
    requires Shows(agent, buf, w) && results == w.results && failures == w.failures
    modifies buf`stream
    ensures w' == RunOne(w, job) && Shows(agent, buf, w') && all == w'.results && failed == w'.failures
  {
    buf.Push(ToolStart(job.call));
    failed := if job.Fails() then failures + 1 else failures;
    buf.EmitOutcome(job.Own());
    all := results + [job.Own()];
    w' := RunOne(w, job);
  }

  method PollForSteering(agent: Agent, buf: RunBuffers, env: seq<EnvAction>, ghost before: MessageQueues.Ledgers, ghost w: Work)
    returns (steering: seq<Message>, ghost w': Work)
    requires Tracked(agent, buf, before) && Shows(agent, buf, w)
    modifies agent`steeringQueue, agent`followUpQueue, agent`steeringMode, agent`followUpMode, agent`ledgers
    modifies buf`acts
    ensures Tracked(agent, buf, before)
    ensures w' == Poll(w, env) && Shows(agent, buf, w') && steering == w'.steering
  {
    steering := GetSteeringMessages(agent, buf, env, false, before);
    w' := Poll(w, env);
  }

  method ExecuteToolCallsSequential(agent: Agent, buf: RunBuffers, jobs: seq<Job>, ghost before: MessageQueues.Ledgers, ghost start: Work)
    returns (results: seq<Message>, steering: seq<Message>, failures: nat, ghost w: Work)
    requires Tracked(agent, buf, before) && Idle(start) && Shows(agent, buf, start)
    modifies agent`steeringQueue, agent`followUpQueue, agent`steeringMode, agent`followUpMode, agent`ledgers
    modifies buf`stream, buf`acts
    ensures Tracked(agent, buf, before)
    ensures w == SequentialAfter(start, jobs, |jobs|) && Shows(agent, buf, w)
    ensures results == w.results && steering == w.steering && failures == w.failures
  {
    hide Poll, RunOne, SkipAll, Tracked;
    results, steering, failures, w := [], [], 0, start;
    for index := 0 to |jobs|
      invariant Tracked(agent, buf, before)
      invariant w == SequentialAfter(start, jobs, index) && Shows(agent, buf, w)
      invariant results == w.results && steering == w.steering == [] && failures == w.failures
    {
      results, failures, w := RunToolCall(agent, buf, jobs[index], results, failures, w);
      PollKeeps(w, jobs[index].script.env);
      steering, w := PollForSteering(agent, buf, jobs[index].script.env, before, w);
      if |steering| > 0 {
        results, w := SkipToolCalls(agent, buf, jobs[index + 1..], true, results, w.(unreached := jobs[index + 1..]));
        assert w == SequentialAfter(start, jobs, index + 1);
        SequentialStays(start, jobs, index + 1);
        return;
      }
    }
  }

  lemma {:induction false} SequentialStays(start: Work, jobs: seq<Job>, i: nat)
    requires i <= |jobs| && SequentialAfter(start, jobs, i).steering != []
    ensures SequentialAfter(start, jobs, |jobs|) == SequentialAfter(start, jobs, i)
    decreases |jobs| - i
  {
    if i < |jobs| {
      SequentialStays(start, jobs, i + 1);
    }
  }

  lemma {:induction false} PrepareStays(start: Work, jobs: seq<Job>, i: nat)
    requires i <= |jobs| && PrepareAfter(start, jobs, i).steering != []
    ensures PrepareAfter(start, jobs, |jobs|) == PrepareAfter(start, jobs, i)
    decreases |jobs| - i
  {
    if i < |jobs| {
      PrepareStays(start, jobs, i + 1);
    }
  }

  method PrepareToolCall(agent: Agent, buf: RunBuffers, job: Job, results: seq<Message>, runnable: seq<Job>,
                         failures: nat, ghost w: Work)
    returns (all: seq<Message>, held: seq<Job>, failed: nat, ghost w': Work)
    requires Shows(agent, buf, w) && results == w.results && runnable == w.runnable && failures == w.failures
    modifies buf`stream
    ensures w' == PrepareOne(w, job) && Shows(agent, buf, w')
    ensures all == w'.results && held == w'.runnable && failed == w'.failures
  {
    all, held, failed := results, runnable, failures;
    if job.Fails() {
      all, failed, w' := RunToolCall(agent, buf, job, results, failures, w);
    } else {
      buf.Push(ToolStart(job.call));
      held := held + [job];
      w' := PrepareOne(w, job);
    }
  }

  method FinalizeToolCalls(agent: Agent, buf: RunBuffers, runnable: seq<Job>, results: seq<Message>, ghost w: Work)
    returns (all: seq<Message>, ghost w': Work)
    requires Shows(agent, buf, w) && results == w.results
    modifies buf`stream
    ensures w' == FinishAll(w, runnable) && Shows(agent, buf, w') && all == w'.results
  {
    all, w' := results, w;
    for j := 0 to |runnable|
      invariant w' == FinishAll(w, runnable[..j]) && Shows(agent, buf, w') && all == w'.results
    {
      assert runnable[..j + 1][..j] == runnable[..j];
      var result := Finalize(runnable[j].call, runnable[j].script);
      buf.EmitOutcome(result);
      all := all + [result];
      w' := FinishAll(w, runnable[..j + 1]);
    }
    assert runnable[..|runnable|] == runnable;
  }

  method ExecuteToolCallsParallel(agent: Agent, buf: RunBuffers, jobs: seq<Job>, env: seq<EnvAction>,
                                  ghost before: MessageQueues.Ledgers, ghost start: Work)
    returns (results: seq<Message>, steering: seq<Message>, failures: nat, ghost w: Work)
    requires Tracked(agent, buf, before) && Idle(start) && Shows(agent, buf, start)
    modifies agent`steeringQueue, agent`followUpQueue, agent`steeringMode, agent`followUpMode, agent`ledgers
    modifies buf`stream, buf`acts
    ensures Tracked(agent, buf, before)
    ensures w == Parallel(start, jobs, env) && Shows(agent, buf, w)
    ensures results == w.results && steering == w.steering && failures == w.failures
  {
    hide Poll, PrepareOne, SkipAll, FinishAll, Tracked;
    results, steering, failures, w := [], [], 0, start;
    var runnable: seq<Job> := [];
    for index := 0 to |jobs|
      invariant Tracked(agent, buf, before)
      invariant w == PrepareAfter(start, jobs, index) && Shows(agent, buf, w)
      invariant results == w.results && runnable == w.runnable && steering == w.steering == [] && failures == w.failures
    {
      results, runnable, failures, w := PrepareToolCall(agent, buf, jobs[index], results, runnable, failures, w);
      PollKeeps(w, jobs[index].script.env);
      steering, w := PollForSteering(agent, buf, jobs[index].script.env, before, w);
      if |steering| > 0 {
        results, w := SkipToolCalls(agent, buf, runnable, false, results, w.(unreached := jobs[index + 1..]));
        results, w := SkipToolCalls(agent, buf, jobs[index + 1..], true, results, w);
        assert w == PrepareAfter(start, jobs, index + 1);
        PrepareStays(start, jobs, index + 1);
        return;
      }
    }
    results, w := FinalizeToolCalls(agent, buf, runnable, results, w);
    PollKeeps(w, env);
    steering, w := PollForSteering(agent, buf, env, before, w);
  }

  lemma PollKeeps(w: Work, env: seq<EnvAction>)
    ensures var w' := Poll(w, env);
            w'.results == w.results && w'.runnable == w.runnable && w'.failures == w.failures
  {
  }

  // ---------------------------------------------------------------------------------------------
  // The loop
  // ---------------------------------------------------------------------------------------------

  /** The mutable state shows what the specification's run value says. */
  ghost predicate ShowsRun(agent: Agent, buf: RunBuffers, r: Run)
    reads agent, buf
  {
    && buf.messages == r.messages && buf.newMessages == r.added && buf.stream == r.log
    && agent.Queued() == r.queues && buf.acts == r.acts
  }

  /** Messages injected at a turn head are announced and join both arrays one by one. */
  method InjectPending(agent: Agent, buf: RunBuffers, pending: seq<Message>, firstTurn: bool, ghost r: Run)
    requires ShowsRun(agent, buf, r) && pending == r.pending && firstTurn == r.firstTurn
    modifies buf`messages, buf`newMessages, buf`stream
    ensures ShowsRun(agent, buf, Open(r))
  {
    if !firstTurn {
      buf.Push(TurnStart);
    }
    ghost var opening := buf.stream;
    for i := 0 to |pending|
      invariant buf.stream == opening + Pairs(pending[..i])
      invariant buf.messages == r.messages + pending[..i] && buf.newMessages == r.added + pending[..i]
    {
      assert pending[..i + 1][..i] == pending[..i];
      buf.EmitPair(pending[i]);
      buf.messages := buf.messages + [pending[i]];
      buf.newMessages := buf.newMessages + [pending[i]];
    }
    assert pending[..|pending|] == pending;
  }

  /** The stream's partial messages take turns in the last slot of the context until the final one replaces them. */
  method StreamAssistantResponse(buf: RunBuffers, reply: Reply) returns (message: Message)
    requires reply.Streams?
    modifies buf`messages, buf`stream
    ensures message == reply.Final()
    ensures buf.messages == old(buf.messages) + [message] && buf.stream == old(buf.stream) + reply.Events()
  {
    hide Updates, Pair;
    NoUpdates(reply.partials);
    var addedPartial := false;
    for i := 0 to |reply.partials|
      invariant addedPartial == (i > 0)
      invariant buf.messages == (if i == 0 then old(buf.messages) else old(buf.messages) + [reply.partials[i - 1]])
      invariant buf.stream == (if i == 0 then old(buf.stream)
                               else old(buf.stream) + [MessageStart(reply.partials[0])] + Updates(reply.partials[1..i]))
    {
      if !addedPartial {
        buf.messages := buf.messages + [reply.partials[i]];
        addedPartial := true;
        buf.Push(MessageStart(reply.partials[i]));
      } else {
        buf.messages := buf.messages[|buf.messages| - 1 := reply.partials[i]];
        buf.Push(MessageUpdate(reply.partials[i]));
        OneMoreUpdate(reply.partials, i);
      }
    }
    message := reply.Final();
    if addedPartial {
      buf.messages := buf.messages[|buf.messages| - 1 := message];
      assert reply.partials[1..|reply.partials|] == reply.partials[1..];
    } else {
      buf.messages := buf.messages + [message];
      buf.Push(MessageStart(message));
    }
    buf.Push(MessageEnd(message));
    RepliesInEvents(reply, old(buf.stream));
  }

  lemma NoUpdates(partials: seq<Message>)
    ensures |partials| > 0 ==> Updates(partials[1..1]) == []
  {
  }

  lemma OneMoreUpdate(partials: seq<Message>, i: nat)
    requires 0 < i < |partials|
    ensures Updates(partials[1..i + 1]) == Updates(partials[1..i]) + [MessageUpdate(partials[i])]
  {
  }

  lemma RepliesInEvents(reply: Reply, log: seq<Event>)
    requires reply.Streams?
    ensures log + reply.Events()
         == if reply.partials == [] then log + [MessageStart(reply.Final())] + [MessageEnd(reply.Final())]
            else log + [MessageStart(reply.partials[0])] + Updates(reply.partials[1..]) + [MessageEnd(reply.Final())]
  {
  }

  /** One model call; a call that throws before its stream starts becomes an error message. */
  method AskModel(agent: Agent, buf: RunBuffers, reply: Reply, ghost before: MessageQueues.Ledgers, ghost r: Run) returns (message: Message)
    requires ShowsRun(agent, buf, r) && Tracked(agent, buf, before)
    modifies buf`messages, buf`newMessages, buf`stream, buf`acts
    ensures ShowsRun(agent, buf, Respond(r, reply)) && Tracked(agent, buf, before)
    ensures message == reply.Final()
  {
    PollSnoc(before, buf.acts, Asked(buf.messages));
    buf.acts := buf.acts + [Asked(buf.messages)];
    match reply {
      case Streams(_, _, _, _) =>
        message := StreamAssistantResponse(buf, reply);
      case Throws(aborted) =>
        message := Assistant("", [], if aborted then Aborted else Error);
        buf.EmitPair(message);
        buf.messages := buf.messages + [message];
    }
    buf.newMessages := buf.newMessages + [message];
  }

  method AnnounceExternalTools(agent: Agent, buf: RunBuffers, jobs: seq<Job>, ghost r: Run)
    requires ShowsRun(agent, buf, r)
    modifies buf`stream
    ensures ShowsRun(agent, buf, r.(log := r.log + ExternalEvents(jobs)))
  {
    for i := 0 to |jobs|
      invariant buf.stream == r.log + ExternalEvents(jobs[..i])
    {
      assert jobs[..i + 1][..i] == jobs[..i];
      buf.Push(ToolStart(jobs[i].call));
      buf.Push(ToolEnd(jobs[i].call.Key(), jobs[i].script.execution.Throws?));
    }
    assert jobs[..|jobs|] == jobs;
  }

  method ExecuteToolCalls(agent: Agent, buf: RunBuffers, jobs: seq<Job>, sequential: bool, env: seq<EnvAction>,
                          ghost before: MessageQueues.Ledgers, ghost start: Work)
    returns (results: seq<Message>, steering: seq<Message>, failures: nat, ghost w: Work)
    requires Tracked(agent, buf, before) && Idle(start) && Shows(agent, buf, start)
    modifies agent`steeringQueue, agent`followUpQueue, agent`steeringMode, agent`followUpMode, agent`ledgers
    modifies buf`stream, buf`acts
    ensures Tracked(agent, buf, before)
    ensures w == Execute(start, jobs, sequential, env) && Shows(agent, buf, w)
    ensures results == w.results && steering == w.steering && failures == w.failures
  {
    if sequential {
      results, steering, failures, w := ExecuteToolCallsSequential(agent, buf, jobs, before, start);
    } else {
      results, steering, failures, w := ExecuteToolCallsParallel(agent, buf, jobs, env, before, start);
    }
  }

  /** A turn's tools: run them, add the results to both arrays, and move the failure counter. */
  method RunTools(agent: Agent, buf: RunBuffers, c: Config, t: TurnScript, failures: nat, ghost before: MessageQueues.Ledgers, ghost r: Run)
    returns (results: seq<Message>, steering: seq<Message>, failed: nat, ghost r': Run)
    requires ShowsRun(agent, buf, r) && Tracked(agent, buf, before) && failures == r.failures
    modifies agent`steeringQueue, agent`followUpQueue, agent`steeringMode, agent`followUpMode, agent`ledgers
    modifies buf`messages, buf`newMessages, buf`stream, buf`acts
    ensures var w := Execute(StartWork(r), t.reply.Jobs(), c.sequential, t.toolsEnv);
            r' == Collect(r, w) && results == w.results && steering == w.steering && failed == r'.failures
    ensures ShowsRun(agent, buf, r') && Tracked(agent, buf, before)
  {
    hide Execute, LedgersAfter, SteerBatches, FollowBatches, AccountsBoth;
    var preparationErrors: nat;
    ghost var w;
    results, steering, preparationErrors, w :=
      ExecuteToolCalls(agent, buf, t.reply.Jobs(), c.sequential, t.toolsEnv, before, StartWork(r));
    for i := 0 to |results|
      invariant buf.messages == r.messages + results[..i] && buf.newMessages == r.added + results[..i]
      invariant Shows(agent, buf, w) && Tracked(agent, buf, before)
    {
      buf.messages := buf.messages + [results[i]];
      buf.newMessages := buf.newMessages + [results[i]];
    }
    assert results[..|results|] == results;
    failed := failures;
    if |results| > 0 && preparationErrors == |results| {
      failed := failed + 1;
    } else if preparationErrors == 0 {
      failed := 0;
    }
    PollSnoc(before, buf.acts, Executed(|results|, preparationErrors));
    buf.acts := buf.acts + [Executed(|results|, preparationErrors)];
    r' := Collect(r, w);
  }

  method ForceStopRun(agent: Agent, buf: RunBuffers, message: Message, results: seq<Message>, ghost lost: seq<Message>,
                      ghost before: MessageQueues.Ledgers, ghost r: Run)
    requires ShowsRun(agent, buf, r) && Tracked(agent, buf, before)
    modifies buf`newMessages, buf`stream, buf`acts
    ensures ShowsRun(agent, buf, Halt(r, message, results, lost)) && Tracked(agent, buf, before)
  {
    buf.Push(TurnEnd(message, results));
    buf.EmitPair(StopMessage());
    buf.newMessages := buf.newMessages + [StopMessage()];
    buf.Push(TurnEnd(StopMessage(), []));
    buf.Push(AgentEnd(buf.newMessages));
    PollSnoc(before, buf.acts, RunTrace.ForceStop(lost));
    buf.acts := buf.acts + [RunTrace.ForceStop(lost)];
  }

  /** The spec's view of the loop's variables at a turn head. */
  ghost predicate AtHead(agent: Agent, buf: RunBuffers, r: Run, pending: seq<Message>, failures: nat, firstTurn: bool)
    reads agent, buf
  {
    && ShowsRun(agent, buf, r) && r.status.Running?
    && pending == r.pending && failures == r.failures && firstTurn == r.firstTurn
  }

  /** The steering poll that ends a turn, unless the tools already brought messages back. */
  method EndTurn(agent: Agent, buf: RunBuffers, message: Message, results: seq<Message>, steering: seq<Message>,
                 env: seq<EnvAction>, ghost before: MessageQueues.Ledgers, ghost r: Run)
    returns (pending: seq<Message>)
    requires ShowsRun(agent, buf, r) && Tracked(agent, buf, before)
    modifies agent`steeringQueue, agent`followUpQueue, agent`steeringMode, agent`followUpMode, agent`ledgers
    modifies buf`stream, buf`acts
    ensures var r' := Steered(r.(log := r.log + [TurnEnd(message, results)]), steering, env);
            ShowsRun(agent, buf, r') && pending == r'.pending
    ensures Tracked(agent, buf, before)
  {
    buf.Push(TurnEnd(message, results));
    if |steering| > 0 {
      pending := steering;
    } else {
      pending := GetSteeringMessages(agent, buf, env, false, before);
    }
  }

  /** One pass through the inner loop's body. */
  method TakeOneTurn(agent: Agent, buf: RunBuffers, c: Config, t: TurnScript, pending: seq<Message>, failures: nat,
                     firstTurn: bool, ghost before: MessageQueues.Ledgers, ghost r: Run)
    returns (status: Status, hasMoreToolCalls: bool, nextPending: seq<Message>, nextFailures: nat, ghost r': Run)
    requires AtHead(agent, buf, r, pending, failures, firstTurn) && Tracked(agent, buf, before)
    modifies agent`steeringQueue, agent`followUpQueue, agent`steeringMode, agent`followUpMode, agent`ledgers
    modifies buf`messages, buf`newMessages, buf`stream, buf`acts
    ensures Tracked(agent, buf, before) && ShowsRun(agent, buf, r') && status == r'.status
    ensures status.Running? ==> AtHead(agent, buf, r', nextPending, nextFailures, false)
    ensures TakeTurn(c, r, t)
         == if !status.Running? || hasMoreToolCalls || nextPending != [] then r' else Followed(r', t.followEnv)
  {
    hide Execute, ExternalEvents, Tracked;
    InjectPending(agent, buf, pending, firstTurn, r);
    r' := Open(r);
    var message := AskModel(agent, buf, t.reply, before, r');
    r' := Respond(r', t.reply);
    var toolCalls := t.reply.Jobs();
    nextFailures, nextPending := failures, [];
    hasMoreToolCalls := toolCalls != [] || message.stop == PauseTurn;
    if message.stop.Failed() {
      buf.Push(EventLog.TurnEnd(message, []));
      buf.Push(AgentEnd(buf.newMessages));
      r', status := Fail(r', message), Failed;
      return;
    }
    var results: seq<Message>, steering: seq<Message> := [], [];
    if hasMoreToolCalls && c.externalTools {
      AnnounceExternalTools(agent, buf, toolCalls, r');
      r' := r'.(log := r'.log + ExternalEvents(toolCalls));
      hasMoreToolCalls := false;
    } else if hasMoreToolCalls {
      results, steering, nextFailures, r' := RunTools(agent, buf, c, t, failures, before, r');
      if nextFailures >= MAX_FAILURES {
        ForceStopRun(agent, buf, message, results, steering, before, r');
        status := Stopped(steering);
        r' := Halt(r', message, results, steering);
        return;
      }
    }
    nextPending := EndTurn(agent, buf, message, results, steering, t.turnEnv, before, r');
    r' := Steered(r'.(log := r'.log + [TurnEnd(message, results)]), steering, t.turnEnv);
    status := Running;
  }

  /** A run announces itself, its first turn and its prompts before the loop begins. */
  method StartStream(buf: RunBuffers, prompts: seq<Message>)
    requires buf.stream == []
    modifies buf`stream
    ensures buf.stream == [AgentStart, EventLog.TurnStart] + Pairs(prompts)
  {
    buf.Push(AgentStart);
    buf.Push(EventLog.TurnStart);
    for i := 0 to |prompts|
      invariant buf.stream == [AgentStart, EventLog.TurnStart] + Pairs(prompts[..i])
    {
      assert prompts[..i + 1][..i] == prompts[..i];
      buf.EmitPair(prompts[i]);
    }
    assert prompts[..|prompts|] == prompts;
  }

  method BeginPoll(agent: Agent, buf: RunBuffers, skipPoll: bool, env: seq<EnvAction>,
                   ghost context: seq<Message>, ghost prompts: seq<Message>, ghost before: MessageQueues.Ledgers)
    returns (pending: seq<Message>)
    requires agent.Valid() && agent.ledgers == before && buf.acts == []
    requires buf.messages == context + prompts && buf.newMessages == prompts
    requires buf.stream == [AgentStart, EventLog.TurnStart] + Pairs(prompts)
    modifies agent`steeringQueue, agent`followUpQueue, agent`steeringMode, agent`followUpMode, agent`ledgers, buf`acts
    ensures AtHead(agent, buf, Begin(context, prompts, old(agent.Queued()), skipPoll, env), pending, 0, true)
    ensures Tracked(agent, buf, before)
  {
    pending := GetSteeringMessages(agent, buf, env, skipPoll, before);
    assert [] + buf.acts == buf.acts;
  }

  lemma StartOfRun(c: Config, start: Run, turns: seq<TurnScript>)
    ensures RunAfter(c, start, turns, 0) == start
  {
  }

  lemma NextTurn(c: Config, start: Run, turns: seq<TurnScript>, k: nat)
    requires k < |turns| && RunAfter(c, start, turns, k).status.Running?
    ensures RunAfter(c, start, turns, k + 1) == TakeTurn(c, RunAfter(c, start, turns, k), turns[k])
  {
  }

  lemma {:induction false} EndedRunStays(c: Config, start: Run, turns: seq<TurnScript>, k: nat)
    requires k <= |turns| && !RunAfter(c, start, turns, k).status.Running?
    ensures RunAfter(c, start, turns, |turns|) == RunAfter(c, start, turns, k)
    decreases |turns| - k
  {
    hide TakeTurn;
    if k < |turns| {
      EndedRunStays(c, start, turns, k + 1);
    }
  }

  /**
   The inner loop: turns go on while there are tool results to return or messages to inject. A finite
   script stands for any prefix of a run: when it is used up first, the run is still going.
   */
  method DriveTurns(agent: Agent, buf: RunBuffers, c: Config, turns: seq<TurnScript>, first: nat, injected: seq<Message>,
                    counter: nat, atStart: bool, ghost start: Run, ghost before: MessageQueues.Ledgers)
    returns (status: Status, idle: bool, k: nat, failures: nat, ghost r: Run)
    requires first <= |turns| && Tracked(agent, buf, before)
    requires AtHead(agent, buf, RunAfter(c, start, turns, first), injected, counter, atStart)
    modifies agent`steeringQueue, agent`followUpQueue, agent`steeringMode, agent`followUpMode, agent`ledgers
    modifies buf`messages, buf`newMessages, buf`stream, buf`acts
    ensures Tracked(agent, buf, before) && k <= |turns|
    ensures !idle ==> ShowsRun(agent, buf, RunAfter(c, start, turns, |turns|)) && status == RunAfter(c, start, turns, |turns|).status
    ensures idle ==>
              && first < k && AtHead(agent, buf, r, [], failures, false)
              && RunAfter(c, start, turns, k) == Followed(r, turns[k - 1].followEnv)
  {
    hide TakeTurn, RunAfter, Tracked, Followed;
    var pending, firstTurn, hasMoreToolCalls := injected, atStart, true;
    k, failures, r := first, counter, RunAfter(c, start, turns, first);
    while hasMoreToolCalls || pending != []
      invariant first <= k <= |turns| && Tracked(agent, buf, before) && (k == first ==> hasMoreToolCalls)
      invariant AtHead(agent, buf, r, pending, failures, firstTurn) && (k > first ==> !firstTurn)
      invariant if hasMoreToolCalls || pending != [] then r == RunAfter(c, start, turns, k)
                else k > 0 && RunAfter(c, start, turns, k) == Followed(r, turns[k - 1].followEnv)
      decreases |turns| - k
    {
      if k == |turns| {
        return Running, false, k, failures, r;
      }
      NextTurn(c, start, turns, k);
      status, hasMoreToolCalls, pending, failures, r :=
        TakeOneTurn(agent, buf, c, turns[k], pending, failures, firstTurn, before, r);
      firstTurn, k := false, k + 1;
      if !status.Running? {
        EndedRunStays(c, start, turns, k);
        return status, false, k, failures, r;
      }
    }
    status, idle := Running, true;
  }

  /** With nothing left to do: follow-ups to inject, or the end of the run. */
  method FollowUpOrEnd(agent: Agent, buf: RunBuffers, env: seq<EnvAction>, failures: nat, ghost before: MessageQueues.Ledgers, ghost r: Run)
    returns (pending: seq<Message>)
    requires AtHead(agent, buf, r, [], failures, false) && Tracked(agent, buf, before)
    modifies agent`steeringQueue, agent`followUpQueue, agent`steeringMode, agent`followUpMode, agent`ledgers
    modifies buf`stream, buf`acts
    ensures Tracked(agent, buf, before)
    ensures pending != [] ==> AtHead(agent, buf, Followed(r, env), pending, failures, false)
    ensures pending == [] ==> ShowsRun(agent, buf, Followed(r, env)) && Followed(r, env).status == Completed
  {
    pending := GetFollowUpMessages(agent, buf, env, before);
    if |pending| == 0 {
      buf.Push(AgentEnd(buf.newMessages));
    }
  }

  /** The outer loop: when the agent would stop, follow-ups start the inner loop again. */
  method RunLoop(agent: Agent, buf: RunBuffers, c: Config, turns: seq<TurnScript>, skipPoll: bool, env: seq<EnvAction>,
                 ghost context: seq<Message>, ghost prompts: seq<Message>, ghost before: MessageQueues.Ledgers)
    returns (status: Status)
    requires agent.Valid() && agent.ledgers == before && buf.acts == []
    requires buf.messages == context + prompts && buf.newMessages == prompts
    requires buf.stream == [AgentStart, EventLog.TurnStart] + Pairs(prompts)
    modifies agent`steeringQueue, agent`followUpQueue, agent`steeringMode, agent`followUpMode, agent`ledgers
    modifies buf`messages, buf`newMessages, buf`stream, buf`acts
    ensures var start := Begin(context, prompts, old(agent.Queued()), skipPoll, env);
            var r := RunAfter(c, start, turns, |turns|);
            ShowsRun(agent, buf, r) && status == r.status
    ensures Tracked(agent, buf, before)
  {
    ghost var start := Begin(context, prompts, agent.Queued(), skipPoll, env);
    var pending := BeginPoll(agent, buf, skipPoll, env, context, prompts, before);
    var failures, firstTurn, k := 0, true, 0;
    hide Begin, TakeTurn, RunAfter, Tracked, Followed;
    StartOfRun(c, start, turns);
    while true
      invariant k <= |turns| && Tracked(agent, buf, before)
      invariant AtHead(agent, buf, RunAfter(c, start, turns, k), pending, failures, firstTurn)
      decreases |turns| - k
    {
      var idle: bool;
      ghost var r;
      status, idle, k, failures, r := DriveTurns(agent, buf, c, turns, k, pending, failures, firstTurn, start, before);
      if !idle {
        return;
      }
      firstTurn := false;
      pending := FollowUpOrEnd(agent, buf, turns[k - 1].followEnv, failures, before, r);
      if |pending| == 0 {
        EndedRunStays(c, start, turns, k);
        return Completed;
      }
    }
  }
}
