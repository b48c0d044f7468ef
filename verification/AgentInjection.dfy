/**
 How messages from outside reach the model, told from the transcripts it is handed: whatever a poll returns stands at
 the end of the very next transcript, once and in order, after the loop's own messages of the turn before. Nothing is
 assumed about what the messages are.
 */
module AgentInjection {
  import opened Wrappers
  import opened Transcript
  import EventLog
  import opened MessageQueues
  import opened RunTrace
  import opened ToolExecution
  import opened ToolTurns
  import opened AgentLoop
  import opened AgentLoopTheorems
  import opened AgentRuns

  /** The batches polled since the model was last asked, in order. */
  function Since(acts: seq<Act>): seq<Message> {
    if acts == [] then []
    else
      var a := acts[|acts| - 1];
      match a
      case Asked(_) => []
      case SteerPoll(_, batch) => Since(acts[..|acts| - 1]) + batch
      case FollowPoll(_, batch) => Since(acts[..|acts| - 1]) + batch
      case _ => Since(acts[..|acts| - 1])
  }

  /** How many tool results came since then. */
  function ResultsSince(acts: seq<Act>): nat {
    if acts == [] then 0
    else
      var a := acts[|acts| - 1];
      match a
      case Asked(_) => 0
      case Executed(results, _) => ResultsSince(acts[..|acts| - 1]) + results
      case _ => ResultsSince(acts[..|acts| - 1])
  }

  /** The transcript last handed to the model, if it was asked at all. */
  function LastAsked(acts: seq<Act>): Option<seq<Message>> {
    if acts == [] then None
    else if acts[|acts| - 1].Asked? then Some(acts[|acts| - 1].transcript)
    else LastAsked(acts[..|acts| - 1])
  }

  /**
   `ms` is what the loop itself makes of the last transcript: at first the starting transcript, afterwards the last
   transcript, the model's message, and as many tool results as came since.
   */
  ghost predicate Own(start: seq<Message>, acts: seq<Act>, ms: seq<Message>) {
    match LastAsked(acts)
    case None => ms == start && ResultsSince(acts) == 0
    case Some(last) =>
      && |ms| == |last| + 1 + ResultsSince(acts) && last <= ms
      && ms[|last|].Assistant? && AllResults(ms[|last| + 1..])
  }

  /** `ms` is the loop's own transcript followed by the batches polled since the model was last asked. */
  ghost predicate Extends(start: seq<Message>, acts: seq<Act>, ms: seq<Message>) {
    && |Since(acts)| <= |ms|
    && ms[|ms| - |Since(acts)|..] == Since(acts)
    && Own(start, acts, ms[..|ms| - |Since(acts)|])
  }

  /** Every transcript handed to the model extends the one before in this way. */
  ghost predicate Chained(start: seq<Message>, acts: seq<Act>) {
    forall i :: 0 <= i < |acts| && acts[i].Asked? ==> Extends(start, acts[..i], acts[i].transcript)
  }

  lemma ChainedSnoc(start: seq<Message>, acts: seq<Act>, a: Act)
    requires Chained(start, acts) && (a.Asked? ==> Extends(start, acts, a.transcript))
    ensures Chained(start, acts + [a])
  {
    hide Extends;
    var all := acts + [a];
    forall i | 0 <= i < |all| && all[i].Asked? ensures Extends(start, all[..i], all[i].transcript) {
      assert all[..i] == if i < |acts| then acts[..i] else acts;
    }
  }

  lemma SinceSnoc(acts: seq<Act>, a: Act)
    ensures Since(acts + [a])
         == if a.Asked? then [] else if a.SteerPoll? || a.FollowPoll? then Since(acts) + a.batch else Since(acts)
    ensures ResultsSince(acts + [a])
         == if a.Asked? then 0 else if a.Executed? then ResultsSince(acts) + a.results else ResultsSince(acts)
    ensures LastAsked(acts + [a]) == if a.Asked? then Some(a.transcript) else LastAsked(acts)
  {
    assert (acts + [a])[..|acts|] == acts;
  }

  lemma {:induction false} SinceIsSuffix(acts: seq<Act>)
    ensures |Since(acts)| <= |Batches(acts)| && Batches(acts)[|Batches(acts)| - |Since(acts)|..] == Since(acts)
  {
    if acts != [] {
      SinceIsSuffix(acts[..|acts| - 1]);
    }
  }

  /** From `a` to `b` there were only steering polls, and together they returned `batch`. */
  ghost predicate OnlyPolled(start: seq<Message>, a: seq<Act>, b: seq<Act>, batch: seq<Message>) {
    && Since(b) == Since(a) + batch && ResultsSince(b) == ResultsSince(a) && LastAsked(b) == LastAsked(a)
    && (Chained(start, a) ==> Chained(start, b))
  }

  lemma PollOnly(start: seq<Message>, a: seq<Act>, w: Work, env: seq<EnvAction>)
    requires OnlyPolled(start, a, w.acts, [])
    ensures OnlyPolled(start, a, Poll(w, env).acts, Poll(w, env).steering)
  {
    hide PerformAll, Batch, Rest, Since, ResultsSince, LastAsked, Chained;
    var batch := Poll(w, env).steering;
    SinceSnoc(w.acts, SteerPoll(env, batch));
    if Chained(start, a) {
      ChainedSnoc(start, w.acts, SteerPoll(env, batch));
    }
  }

  lemma SequentialStepOnly(start: seq<Message>, a: seq<Act>, w: Work, job: Job, rest: seq<Job>)
    requires OnlyPolled(start, a, w.acts, [])
    ensures OnlyPolled(start, a, SequentialStep(w, job, rest).acts, SequentialStep(w, job, rest).steering)
  {
    hide OnlyPolled, Poll;
    PollOnly(start, a, RunOne(w, job), job.script.env);
  }

  lemma PrepareStepOnly(start: seq<Message>, a: seq<Act>, w: Work, job: Job, rest: seq<Job>)
    requires OnlyPolled(start, a, w.acts, [])
    ensures OnlyPolled(start, a, PrepareStep(w, job, rest).acts, PrepareStep(w, job, rest).steering)
  {
    hide OnlyPolled, Poll;
    PollOnly(start, a, PrepareOne(w, job), job.script.env);
  }

  lemma NothingPolled(start: seq<Message>, a: seq<Act>)
    ensures OnlyPolled(start, a, a, [])
  {
  }

  lemma {:induction false} SequentialOnly(start: seq<Message>, w: Work, jobs: seq<Job>, i: nat)
    requires i <= |jobs| && w.steering == []
    ensures var w' := SequentialAfter(w, jobs, i); OnlyPolled(start, w.acts, w'.acts, w'.steering)
  {
    hide OnlyPolled, SequentialStep;
    if i == 0 {
      NothingPolled(start, w.acts);
    } else {
      SequentialOnly(start, w, jobs, i - 1);
      var before := SequentialAfter(w, jobs, i - 1);
      if before.steering == [] {
        SequentialStepOnly(start, w.acts, before, jobs[i - 1], jobs[i..]);
      }
    }
  }

  lemma {:induction false} PrepareOnly(start: seq<Message>, w: Work, jobs: seq<Job>, i: nat)
    requires i <= |jobs| && w.steering == []
    ensures var w' := PrepareAfter(w, jobs, i); OnlyPolled(start, w.acts, w'.acts, w'.steering)
  {
    hide OnlyPolled, PrepareStep;
    if i == 0 {
      NothingPolled(start, w.acts);
    } else {
      PrepareOnly(start, w, jobs, i - 1);
      var before := PrepareAfter(w, jobs, i - 1);
      if before.steering == [] {
        PrepareStepOnly(start, w.acts, before, jobs[i - 1], jobs[i..]);
      }
    }
  }

  lemma ExecuteOnly(start: seq<Message>, w: Work, jobs: seq<Job>, sequential: bool, env: seq<EnvAction>)
    requires w.steering == []
    ensures var w' := Execute(w, jobs, sequential, env); OnlyPolled(start, w.acts, w'.acts, w'.steering)
  {
    hide OnlyPolled, Poll, SequentialAfter, PrepareAfter;
    SequentialOnly(start, w, jobs, |jobs|);
    PrepareOnly(start, w, jobs, |jobs|);
    var prepared := PrepareAfter(w, jobs, |jobs|);
    if prepared.steering == [] {
      PollOnly(start, w.acts, FinishAll(prepared, prepared.runnable), env);
    }
  }

  // ---------------------------------------------------------------------------------------------
  // Every turn, every run
  // ---------------------------------------------------------------------------------------------

  /** The loop's context is its own transcript, and `held` are the batches polled since the model was last asked. */
  ghost predicate Holds(start: seq<Message>, r: Run, held: seq<Message>) {
    Chained(start, r.acts) && Own(start, r.acts, r.messages) && Since(r.acts) == held
  }

  ghost predicate Delivers(start: seq<Message>, r: Run) {
    match r.status
    case Running => Holds(start, r, r.pending)
    case Completed => Holds(start, r, [])
    case Failed => Holds(start, r, [])
    case Stopped(lost) => Holds(start, r, lost)
  }

  lemma AskHolds(start: seq<Message>, r: Run, reply: Reply)
    requires Holds(start, r, r.pending)
    ensures Holds(start, Respond(Open(r), reply), [])
  {
    hide Chained, Own, Since, LastAsked, ResultsSince;
    var asked := Open(r).messages;
    assert asked[|asked| - |r.pending|..] == r.pending && asked[..|asked| - |r.pending|] == r.messages;
    assert Extends(start, r.acts, asked);
    ChainedSnoc(start, r.acts, Asked(asked));
    SinceSnoc(r.acts, Asked(asked));
    OwnAfterAsk(start, r.acts, asked, reply.Final());
  }

  lemma OwnAfterAsk(start: seq<Message>, acts: seq<Act>, asked: seq<Message>, m: Message)
    requires m.Assistant?
    ensures Own(start, acts + [Asked(asked)], asked + [m])
  {
    SinceSnoc(acts, Asked(asked));
    assert (asked + [m])[|asked| + 1..] == [];
  }

  lemma OwnMore(start: seq<Message>, acts: seq<Act>, acts': seq<Act>, ms: seq<Message>, results: seq<Message>)
    requires Own(start, acts, ms) && LastAsked(acts') == LastAsked(acts) && LastAsked(acts).Some?
    requires ResultsSince(acts') == ResultsSince(acts) + |results| && AllResults(results)
    ensures Own(start, acts', ms + results)
  {
    var last := LastAsked(acts).value;
    assert (ms + results)[|last| + 1..] == ms[|last| + 1..] + results;
  }

  lemma CollectHolds(start: seq<Message>, r: Run, jobs: seq<Job>, sequential: bool, env: seq<EnvAction>)
    requires Holds(start, r, []) && LastAsked(r.acts).Some?
    ensures var w := Execute(StartWork(r), jobs, sequential, env); Holds(start, Collect(r, w), w.steering)
  {
    hide Chained, Own, Since, LastAsked, ResultsSince, Execute;
    var w := Execute(StartWork(r), jobs, sequential, env);
    ExecuteOnly(start, StartWork(r), jobs, sequential, env);
    ExecuteAnswers(StartWork(r), jobs, sequential, env);
    SinceSnoc(w.acts, Executed(|w.results|, w.failures));
    ChainedSnoc(start, w.acts, Executed(|w.results|, w.failures));
    OwnMore(start, r.acts, Collect(r, w).acts, r.messages, w.results);
  }

  /** An act that neither asks nor executes adds at most its batch to what is held. */
  lemma ActHolds(start: seq<Message>, r: Run, r': Run, held: seq<Message>, a: Act)
    requires Holds(start, r, held) && r'.messages == r.messages && r'.acts == r.acts + [a] && !a.Asked? && !a.Executed?
    ensures Holds(start, r', if a.ForceStop? then held else held + a.batch)
  {
    hide Chained, Since, LastAsked, ResultsSince;
    SinceSnoc(r.acts, a);
    ChainedSnoc(start, r.acts, a);
  }

  lemma HaltHolds(start: seq<Message>, r: Run, m: Message, results: seq<Message>, lost: seq<Message>)
    requires Holds(start, r, lost)
    ensures Delivers(start, Halt(r, m, results, lost))
  {
    hide Holds;
    ActHolds(start, r, Halt(r, m, results, lost), lost, ForceStop(lost));
  }

  lemma SteeredHolds(start: seq<Message>, r: Run, steering: seq<Message>, env: seq<EnvAction>)
    requires Holds(start, r, steering)
    ensures var r' := Steered(r, steering, env); Holds(start, r', r'.pending) && r'.status == r.status
  {
    hide Chained, Own, Since, PerformAll, Batch, Rest;
    if steering == [] {
      var q := PerformAll(r.queues, env);
      ActHolds(start, r, Steered(r, steering, env), [], SteerPoll(env, Batch(q.steering)));
      assert [] + Batch(q.steering) == Batch(q.steering);
    }
  }

  lemma FollowedHolds(start: seq<Message>, r: Run, env: seq<EnvAction>)
    requires Holds(start, r, []) && r.status.Running? && r.pending == []
    ensures Delivers(start, Followed(r, env))
  {
    hide Chained, Own, Since, PerformAll, Batch, Rest;
    var q := PerformAll(r.queues, env);
    var polled := r.(queues := q.(followUp := Rest(q.followUp)), acts := r.acts + [FollowPoll(env, Batch(q.followUp))]);
    ActHolds(start, r, polled, [], FollowPoll(env, Batch(q.followUp)));
    assert [] + Batch(q.followUp) == Batch(q.followUp);
  }

  lemma CloseHolds(start: seq<Message>, r: Run, m: Message, results: seq<Message>, steering: seq<Message>, more: bool, t: TurnScript)
    requires Holds(start, r, steering) && r.status.Running?
    ensures Delivers(start, Close(r, m, results, steering, more, t))
  {
    hide Chained, Own, Since, Steered, Followed;
    var ended := r.(log := r.log + [EventLog.TurnEnd(m, results)]);
    SteeredHolds(start, ended, steering, t.turnEnv);
    var steered := Steered(ended, steering, t.turnEnv);
    if steered.pending == [] {
      FollowedHolds(start, steered, t.followEnv);
    }
  }

  lemma AskedLast(r: Run, reply: Reply)
    ensures LastAsked(Respond(r, reply).acts).Some?
  {
    SinceSnoc(r.acts, Asked(r.messages));
  }

  lemma TakeTurnDelivers(start: seq<Message>, c: Config, r: Run, t: TurnScript)
    requires Delivers(start, r) && r.status.Running?
    ensures Delivers(start, TakeTurn(c, r, t))
  {
    hide Holds, Close, Halt, Execute, Collect, ExternalEvents, LastAsked;
    var asked, m, jobs := Respond(Open(r), t.reply), t.reply.Final(), t.reply.Jobs();
    AskHolds(start, r, t.reply);
    AskedLast(Open(r), t.reply);
    LogsDoNotMatter(start, asked, [], asked.log + ExternalEvents(jobs));
    FailHolds(start, asked, m);
    CloseHolds(start, asked, m, [], [], false, t);
    CloseHolds(start, asked.(log := asked.log + ExternalEvents(jobs)), m, [], [], false, t);
    CollectHolds(start, asked, jobs, c.sequential, t.toolsEnv);
    var w := Execute(StartWork(asked), jobs, c.sequential, t.toolsEnv);
    CollectStillRunning(asked, w);
    CloseHolds(start, Collect(asked, w), m, w.results, w.steering, true, t);
    HaltHolds(start, Collect(asked, w), m, w.results, w.steering);
  }

  lemma LogsDoNotMatter(start: seq<Message>, r: Run, held: seq<Message>, log: seq<EventLog.Event>)
    requires Holds(start, r, held)
    ensures Holds(start, r.(log := log), held)
  {
  }

  lemma FailHolds(start: seq<Message>, r: Run, m: Message)
    requires Holds(start, r, [])
    ensures Delivers(start, Fail(r, m))
  {
  }

  lemma BeginDelivers(l: Launch)
    ensures Delivers(l.origin.context + l.origin.prompts, l.Start())
  {
    hide PerformAll, Batch, Rest;
    var poll := l.Start().acts[0];
    SinceSnoc([], poll);
    assert [] + l.Start().acts == l.Start().acts && [] + poll.batch == poll.batch;
  }

  /**
   In every run, whatever its messages are: the first transcript handed to the model is the context, the prompts and the
   first batch; each further one is the one before, the model's message and its tool results, and then exactly the
   batches polled in between. A running run holds what it has polled since, a completed or failed one holds nothing, and
   a stopped one loses exactly that.
   */
  lemma {:induction false} BatchesReachTheModel(l: Launch, c: Config, turns: seq<TurnScript>, n: nat)
    requires n <= |turns|
    ensures Delivers(l.origin.context + l.origin.prompts, RunOf(l, c, turns, n))
  {
    hide TakeTurn, Delivers;
    if n == 0 {
      BeginDelivers(l);
    } else {
      BatchesReachTheModel(l, c, turns, n - 1);
      var r := RunOf(l, c, turns, n - 1);
      if r.status.Running? {
        TakeTurnDelivers(l.origin.context + l.origin.prompts, c, r, turns[n - 1]);
      }
    }
  }
}
