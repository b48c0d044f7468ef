/**
 One run of the agent loop, as a function of what the outside world answers: the model's replies, the
 fate of each tool call, and the queue activity before every poll.
 */
module AgentLoop {
  import opened Transcript
  import opened EventLog
  import opened MessageQueues
  import opened RunTrace
  import opened ToolExecution

  /** Turns in a row, with every tool call failing in preparation, after which a run is stopped. */
  const MAX_FAILURES: nat := 3

  const STOPPED := "Agent stopped: 3 consecutive turns with all tool calls failing."

  datatype Config = Config(externalTools: bool, sequential: bool)

  /**
   A model call: it throws before its stream starts, or streams. A stream may announce partial messages
   (the first opens the message, the others update it) before the final one.
   */
  datatype Reply =
    | Throws(aborted: bool)
    | Streams(partials: seq<Message>, text: string, jobs: seq<Job>, stop: StopReason)
  {
    function Final(): Message {
      match this
      case Throws(aborted) => Assistant("", [], if aborted then Aborted else Error)
      case Streams(_, text, jobs, stop) => Assistant(text, Calls(jobs), stop)
    }

    function Jobs(): seq<Job> { if Streams? then jobs else [] }

    function Events(): seq<Event> {
      if Throws? || partials == [] then Pair(Final())
      else [MessageStart(partials[0])] + Updates(partials[1..]) + [MessageEnd(Final())]
    }
  }

  /** All that one turn needs from outside: a reply, and the queue activity before each later poll. */
  datatype TurnScript = TurnScript(reply: Reply, toolsEnv: seq<EnvAction>, turnEnv: seq<EnvAction>, followEnv: seq<EnvAction>)

  datatype Status = Running | Completed | Failed | Stopped(lost: seq<Message>)

  /**
   A run between two turns. `messages` is the loop's own context, `added` the messages it has contributed,
   `log` its event stream, `acts` its trace.
   */
  datatype Run = Run(
    messages: seq<Message>,
    added: seq<Message>,
    log: seq<Event>,
    queues: Queues,
    acts: seq<Act>,
    pending: seq<Message>,
    failures: nat,
    firstTurn: bool,
    status: Status)

  /** A run about to take its first turn. A resumed run skips its first poll of the steering queue. */
  function Begin(context: seq<Message>, prompts: seq<Message>, queues: Queues, skipPoll: bool, env: seq<EnvAction>): Run {
    var q := PerformAll(queues, env);
    var batch := if skipPoll then [] else Batch(q.steering);
    Run(context + prompts, prompts, [AgentStart, TurnStart] + Pairs(prompts),
        if skipPoll then q else q.(steering := Rest(q.steering)),
        [SteerPoll(env, batch)], batch, 0, true, Running)
  }

  /** The head of a turn: messages waiting to be injected go in before the model is asked. */
  function Open(r: Run): Run {
    r.(log := (if r.firstTurn then r.log else r.log + [TurnStart]) + Pairs(r.pending),
       messages := r.messages + r.pending,
       added := r.added + r.pending,
       pending := [],
       firstTurn := false)
  }

  function Respond(r: Run, reply: Reply): Run {
    r.(acts := r.acts + [Asked(r.messages)],
       log := r.log + reply.Events(),
       messages := r.messages + [reply.Final()],
       added := r.added + [reply.Final()])
  }

  function Fail(r: Run, m: Message): Run {
    r.(log := r.log + [TurnEnd(m, [])] + [AgentEnd(r.added)], status := Failed)
  }

  /** Tool calls the provider has already run are only announced. */
  function ExternalEvents(jobs: seq<Job>): seq<Event> {
    if jobs == [] then []
    else
      var job := jobs[|jobs| - 1];
      ExternalEvents(jobs[..|jobs| - 1])
      + [ToolStart(job.call)] + [ToolEnd(job.call.Key(), job.script.execution.Throws?)]
  }

  function NextFailures(failures: nat, results: nat, failed: nat): nat {
    if results > 0 && failed == results then failures + 1
    else if failed == 0 then 0
    else failures
  }

  function StartWork(r: Run): Work { Work(r.log, r.queues, r.acts, [], [], 0, [], [], []) }

  /** The tool results of a turn join both copies of the conversation, and the failure counter moves. */
  function Collect(r: Run, w: Work): Run {
    r.(log := w.log,
       queues := w.queues,
       acts := w.acts + [Executed(|w.results|, w.failures)],
       messages := r.messages + w.results,
       added := r.added + w.results,
       failures := NextFailures(r.failures, |w.results|, w.failures))
  }

  function StopMessage(): Message { Assistant(STOPPED, [], Error) }

  /** The forced stop: its message joins what the run added but not the loop's context. */
  function Halt(r: Run, m: Message, results: seq<Message>, lost: seq<Message>): Run {
    var added := r.added + [StopMessage()];
    r.(log := r.log + [TurnEnd(m, results)] + Pair(StopMessage()) + [TurnEnd(StopMessage(), [])] + [AgentEnd(added)],
       added := added,
       acts := r.acts + [ForceStop(lost)],
       status := Stopped(lost))
  }

  /** The steering poll at the end of a turn, unless the tools already brought steering messages back. */
  function Steered(r: Run, steering: seq<Message>, env: seq<EnvAction>): Run {
    if steering != [] then r.(pending := steering)
    else
      var q := PerformAll(r.queues, env);
      r.(queues := q.(steering := Rest(q.steering)),
         acts := r.acts + [SteerPoll(env, Batch(q.steering))],
         pending := Batch(q.steering))
  }

  /** With nothing left to do, the follow-up queue decides whether the run goes on. */
  function Followed(r: Run, env: seq<EnvAction>): Run {
    var q := PerformAll(r.queues, env);
    var batch := Batch(q.followUp);
    var polled := r.(queues := q.(followUp := Rest(q.followUp)), acts := r.acts + [FollowPoll(env, batch)]);
    if batch != [] then polled.(pending := batch)
    else polled.(log := polled.log + [AgentEnd(polled.added)], status := Completed)
  }

  function Close(r: Run, m: Message, results: seq<Message>, steering: seq<Message>, more: bool, t: TurnScript): Run {
    var steered := Steered(r.(log := r.log + [TurnEnd(m, results)]), steering, t.turnEnv);
    if more || steered.pending != [] then steered else Followed(steered, t.followEnv)
  }

  /** What follows the model's message: fail, run the tools, or end the turn. */
  function Conclude(c: Config, r: Run, t: TurnScript): Run {
    var m, jobs := t.reply.Final(), t.reply.Jobs();
    if m.stop.Failed() then Fail(r, m)
    else if jobs == [] && m.stop != PauseTurn then Close(r, m, [], [], false, t)
    else if c.externalTools then Close(r.(log := r.log + ExternalEvents(jobs)), m, [], [], false, t)
    else
      var w := Execute(StartWork(r), jobs, c.sequential, t.toolsEnv);
      var collected := Collect(r, w);
      if collected.failures >= MAX_FAILURES then Halt(collected, m, w.results, w.steering)
      else Close(collected, m, w.results, w.steering, true, t)
  }

  function TakeTurn(c: Config, r: Run, t: TurnScript): Run {
    Conclude(c, Respond(Open(r), t.reply), t)
  }

  /** The run after at most `n` turns: a run that has ended takes no more. */
  function RunAfter(c: Config, start: Run, turns: seq<TurnScript>, n: nat): Run
    requires n <= |turns|
  {
    if n == 0 then start
    else
      var r := RunAfter(c, start, turns, n - 1);
      if r.status.Running? then TakeTurn(c, r, turns[n - 1]) else r
  }
}
