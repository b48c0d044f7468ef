/**
 How many messages each poll of a run hands out, told from the ledgers and the modes the queues were put in: in
 one-at-a-time mode one message if any is waiting, otherwise all that are waiting.
 */
module PollLaws {
  import opened Transcript
  import opened EventLog
  import opened MessageQueues
  import opened RunTrace
  import opened ToolExecution
  import opened AgentLoop
  import opened AgentLoopTheorems
  import opened AgentRuns

  /** The modes of the two queues. */
  datatype Modes = Modes(steering: Mode, followUp: Mode)

  function ModesOf(q: Queues): Modes { Modes(q.steering.mode, q.followUp.mode) }

  /** The modes after some queue activity: those set last, or else those from before. */
  function Switched(m: Modes, env: seq<EnvAction>): Modes {
    if env == [] then m
    else
      var before := Switched(m, env[..|env| - 1]);
      match env[|env| - 1]
      case SetSteeringMode(mode) => before.(steering := mode)
      case SetFollowUpMode(mode) => before.(followUp := mode)
      case _ => before
  }

  function ModesAfter(m: Modes, acts: seq<Act>): Modes {
    if acts == [] then m
    else
      var before, a := ModesAfter(m, acts[..|acts| - 1]), acts[|acts| - 1];
      if a.SteerPoll? || a.FollowPoll? then Switched(before, a.env) else before
  }

  /** How many messages a poll owes: by the ledger, so without looking at the queue. */
  function Due(l: Ledger, mode: Mode): nat {
    match mode
    case All => Waiting(l)
    case OneAtATime => if Waiting(l) > 0 then 1 else 0
  }

  /** A poll hands out what is due once the activity before it has been taken into account. */
  predicate Pays(l: Ledgers, m: Modes, a: Act) {
    match a
    case SteerPoll(env, batch) => |batch| == Due(NoteAll(l, env).steering, Switched(m, env).steering)
    case FollowPoll(env, batch) => |batch| == Due(NoteAll(l, env).followUp, Switched(m, env).followUp)
    case _ => true
  }

  ghost predicate AllPay(l: Ledgers, m: Modes, acts: seq<Act>, from: nat) {
    forall i :: from <= i < |acts| ==> Pays(LedgersAfter(l, acts[..i]), ModesAfter(m, acts[..i]), acts[i])
  }

  /** The queues are where the trace left them, in the modes it left them in, and its polls paid what was due. */
  ghost predicate Paying(l: Ledgers, m: Modes, from: nat, acts: seq<Act>, q: Queues) {
    Fed(l, acts, q) && ModesOf(q) == ModesAfter(m, acts) && AllPay(l, m, acts, from)
  }

  lemma {:induction false} PerformSwitches(q: Queues, env: seq<EnvAction>)
    ensures ModesOf(PerformAll(q, env)) == Switched(ModesOf(q), env)
  {
    if env != [] {
      PerformSwitches(q, env[..|env| - 1]);
    }
  }

  lemma AllPaySnoc(l: Ledgers, m: Modes, acts: seq<Act>, from: nat, a: Act)
    requires AllPay(l, m, acts, from) && (|acts| >= from ==> Pays(LedgersAfter(l, acts), ModesAfter(m, acts), a))
    ensures AllPay(l, m, acts + [a], from)
  {
    hide Pays, LedgersAfter, ModesAfter;
    var all := acts + [a];
    forall i | from <= i < |all| ensures Pays(LedgersAfter(l, all[..i]), ModesAfter(m, all[..i]), all[i]) {
      assert all[..i] == if i < |acts| then acts[..i] else acts;
    }
  }

  lemma ModesSnoc(m: Modes, acts: seq<Act>, a: Act)
    ensures ModesAfter(m, acts + [a])
         == if a.SteerPoll? || a.FollowPoll? then Switched(ModesAfter(m, acts), a.env) else ModesAfter(m, acts)
  {
    assert (acts + [a])[..|acts|] == acts;
  }

  lemma BatchIsDue(l: Ledger, q: Queue)
    requires Accounts(l, q)
    ensures |Batch(q)| == Due(l, q.mode)
  {
  }

  lemma FedAccounts(l: Ledgers, acts: seq<Act>, q: Queues)
    requires Fed(l, acts, q)
    ensures AccountsBoth(LedgersAfter(l, acts), q)
  {
  }

  lemma SteerPays(l: Ledgers, m: Modes, from: nat, acts: seq<Act>, q: Queues, env: seq<EnvAction>)
    requires Paying(l, m, from, acts, q)
    ensures var q' := PerformAll(q, env);
            Paying(l, m, from, acts + [SteerPoll(env, Batch(q'.steering))], q'.(steering := Rest(q'.steering)))
  {
    hide Fed, PerformAll, Batch, LedgersAfter, ModesAfter, Switched, AllPay, Accounts, Due;
    var q', now := PerformAll(q, env), LedgersAfter(l, acts);
    FedAccounts(l, acts, q);
    NoteAllAccounts(now, q, env);
    PerformSwitches(q, env);
    BatchIsDue(NoteAll(now, env).steering, q'.steering);
    FedSteer(l, acts, q, env, q');
    AllPaySnoc(l, m, acts, from, SteerPoll(env, Batch(q'.steering)));
    ModesSnoc(m, acts, SteerPoll(env, Batch(q'.steering)));
  }

  lemma FollowPays(l: Ledgers, m: Modes, from: nat, acts: seq<Act>, q: Queues, env: seq<EnvAction>)
    requires Paying(l, m, from, acts, q)
    ensures var q' := PerformAll(q, env);
            Paying(l, m, from, acts + [FollowPoll(env, Batch(q'.followUp))], q'.(followUp := Rest(q'.followUp)))
  {
    hide Fed, PerformAll, Batch, LedgersAfter, ModesAfter, Switched, AllPay, Accounts, Due;
    var q', now := PerformAll(q, env), LedgersAfter(l, acts);
    FedAccounts(l, acts, q);
    NoteAllAccounts(now, q, env);
    PerformSwitches(q, env);
    BatchIsDue(NoteAll(now, env).followUp, q'.followUp);
    FedFollow(l, acts, q, env, q');
    AllPaySnoc(l, m, acts, from, FollowPoll(env, Batch(q'.followUp)));
    ModesSnoc(m, acts, FollowPoll(env, Batch(q'.followUp)));
  }

  lemma OtherPays(l: Ledgers, m: Modes, from: nat, acts: seq<Act>, q: Queues, a: Act)
    requires Paying(l, m, from, acts, q) && !a.SteerPoll? && !a.FollowPoll?
    ensures Paying(l, m, from, acts + [a], q)
  {
    hide Fed, LedgersAfter, ModesAfter, AllPay;
    FedOther(l, acts, q, a);
    AllPaySnoc(l, m, acts, from, a);
    ModesSnoc(m, acts, a);
  }

  // ---------------------------------------------------------------------------------------------
  // Every turn, every run
  // ---------------------------------------------------------------------------------------------

  lemma PollPays(l: Ledgers, m: Modes, from: nat, w: Work, env: seq<EnvAction>)
    requires Paying(l, m, from, w.acts, w.queues)
    ensures Paying(l, m, from, Poll(w, env).acts, Poll(w, env).queues)
  {
    hide Paying, PerformAll, Batch, Rest;
    SteerPays(l, m, from, w.acts, w.queues, env);
  }

  lemma SequentialStepPays(l: Ledgers, m: Modes, from: nat, w: Work, job: Job, rest: seq<Job>)
    requires Paying(l, m, from, w.acts, w.queues)
    ensures var w' := SequentialStep(w, job, rest); Paying(l, m, from, w'.acts, w'.queues)
  {
    hide Paying, Poll;
    PollPays(l, m, from, RunOne(w, job), job.script.env);
  }

  lemma PrepareStepPays(l: Ledgers, m: Modes, from: nat, w: Work, job: Job, rest: seq<Job>)
    requires Paying(l, m, from, w.acts, w.queues)
    ensures var w' := PrepareStep(w, job, rest); Paying(l, m, from, w'.acts, w'.queues)
  {
    hide Paying, Poll;
    PollPays(l, m, from, PrepareOne(w, job), job.script.env);
  }

  lemma {:induction false} SequentialPays(l: Ledgers, m: Modes, from: nat, w: Work, jobs: seq<Job>, i: nat)
    requires i <= |jobs| && Paying(l, m, from, w.acts, w.queues)
    ensures var w' := SequentialAfter(w, jobs, i); Paying(l, m, from, w'.acts, w'.queues)
  {
    hide Paying, SequentialStep;
    if i > 0 {
      SequentialPays(l, m, from, w, jobs, i - 1);
      var before := SequentialAfter(w, jobs, i - 1);
      if before.steering == [] {
        SequentialStepPays(l, m, from, before, jobs[i - 1], jobs[i..]);
      }
    }
  }

  lemma {:induction false} PreparePays(l: Ledgers, m: Modes, from: nat, w: Work, jobs: seq<Job>, i: nat)
    requires i <= |jobs| && Paying(l, m, from, w.acts, w.queues)
    ensures var w' := PrepareAfter(w, jobs, i); Paying(l, m, from, w'.acts, w'.queues)
  {
    hide Paying, PrepareStep;
    if i > 0 {
      PreparePays(l, m, from, w, jobs, i - 1);
      var before := PrepareAfter(w, jobs, i - 1);
      if before.steering == [] {
        PrepareStepPays(l, m, from, before, jobs[i - 1], jobs[i..]);
      }
    }
  }

  lemma ExecutePays(l: Ledgers, m: Modes, from: nat, w: Work, jobs: seq<Job>, sequential: bool, env: seq<EnvAction>)
    requires Paying(l, m, from, w.acts, w.queues)
    ensures var w' := Execute(w, jobs, sequential, env); Paying(l, m, from, w'.acts, w'.queues)
  {
    hide Paying, Poll, SequentialAfter, PrepareAfter;
    SequentialPays(l, m, from, w, jobs, |jobs|);
    PreparePays(l, m, from, w, jobs, |jobs|);
    var prepared := PrepareAfter(w, jobs, |jobs|);
    PollPays(l, m, from, FinishAll(prepared, prepared.runnable), env);
  }

  ghost predicate RunPays(l: Ledgers, m: Modes, from: nat, r: Run) { Paying(l, m, from, r.acts, r.queues) }

  lemma ClosePays(l: Ledgers, m: Modes, from: nat, r: Run, message: Message, results: seq<Message>,
                  steering: seq<Message>, more: bool, t: TurnScript)
    requires RunPays(l, m, from, r)
    ensures RunPays(l, m, from, Close(r, message, results, steering, more, t))
  {
    hide Paying, PerformAll, Batch, Rest;
    var steered := Steered(r.(log := r.log + [TurnEnd(message, results)]), steering, t.turnEnv);
    SteerPays(l, m, from, r.acts, r.queues, t.turnEnv);
    FollowPays(l, m, from, steered.acts, steered.queues, t.followEnv);
  }

  lemma RespondPays(l: Ledgers, m: Modes, from: nat, r: Run, reply: Reply)
    requires RunPays(l, m, from, r)
    ensures RunPays(l, m, from, Respond(Open(r), reply))
  {
    hide Paying;
    OtherPays(l, m, from, r.acts, r.queues, Asked(Open(r).messages));
  }

  lemma CollectPays(l: Ledgers, m: Modes, from: nat, r: Run, jobs: seq<Job>, sequential: bool, env: seq<EnvAction>)
    requires RunPays(l, m, from, r)
    ensures RunPays(l, m, from, Collect(r, Execute(StartWork(r), jobs, sequential, env)))
  {
    hide Paying, Execute;
    var w := Execute(StartWork(r), jobs, sequential, env);
    ExecutePays(l, m, from, StartWork(r), jobs, sequential, env);
    OtherPays(l, m, from, w.acts, w.queues, Executed(|w.results|, w.failures));
  }

  lemma HaltPays(l: Ledgers, m: Modes, from: nat, r: Run, message: Message, results: seq<Message>, lost: seq<Message>)
    requires RunPays(l, m, from, r)
    ensures RunPays(l, m, from, Halt(r, message, results, lost))
  {
    hide Paying;
    OtherPays(l, m, from, r.acts, r.queues, ForceStop(lost));
  }

  lemma TakeTurnPays(l: Ledgers, m: Modes, from: nat, c: Config, r: Run, t: TurnScript)
    requires RunPays(l, m, from, r)
    ensures RunPays(l, m, from, TakeTurn(c, r, t))
  {
    hide Paying, Close, Halt, Execute, Collect, ExternalEvents, Open;
    var asked, message, jobs := Respond(Open(r), t.reply), t.reply.Final(), t.reply.Jobs();
    RespondPays(l, m, from, r, t.reply);
    ClosePays(l, m, from, asked, message, [], [], false, t);
    ClosePays(l, m, from, asked.(log := asked.log + ExternalEvents(jobs)), message, [], [], false, t);
    CollectPays(l, m, from, asked, jobs, c.sequential, t.toolsEnv);
    var w := Execute(StartWork(asked), jobs, c.sequential, t.toolsEnv);
    ClosePays(l, m, from, Collect(asked, w), message, w.results, w.steering, true, t);
    HaltPays(l, m, from, Collect(asked, w), message, w.results, w.steering);
  }

  /** A run's first poll is skipped or not. */
  function FirstPaid(l: Launch): nat { if l.skipPoll then 1 else 0 }

  lemma BeginPays(l: Launch)
    requires l.Valid()
    ensures RunPays(l.origin.ledgers, ModesOf(l.queues), FirstPaid(l), l.Start())
    ensures l.skipPoll ==> l.Start().acts == [SteerPoll(l.env, [])] && l.Start().pending == []
  {
    hide Fed, PerformAll, Batch, Rest, LedgersAfter, Switched, Pays;
    EmptyTraceFed(l.origin, l.queues);
    assert Paying(l.origin.ledgers, ModesOf(l.queues), FirstPaid(l), [], l.queues);
    assert forall a: Act :: [] + [a] == [a];
    if l.skipPoll {
      FedSteer(l.origin.ledgers, [], l.queues, l.env, PerformAll(l.queues, l.env));
      PerformSwitches(l.queues, l.env);
      ModesSnoc(ModesOf(l.queues), [], SteerPoll(l.env, []));
    } else {
      SteerPays(l.origin.ledgers, ModesOf(l.queues), 0, [], l.queues, l.env);
    }
  }

  /**
   In every run each poll, but for a skipped first one, hands out exactly what is due: in one-at-a-time mode one message
   if any is waiting, in the other mode all that are waiting.
   */
  lemma {:induction false} PollsPayWhatIsDue(l: Launch, c: Config, turns: seq<TurnScript>, n: nat)
    requires l.Valid() && n <= |turns|
    ensures RunPays(l.origin.ledgers, ModesOf(l.queues), FirstPaid(l), RunOf(l, c, turns, n))
  {
    hide TakeTurn, RunPays, Starts;
    if n == 0 {
      BeginPays(l);
    } else {
      PollsPayWhatIsDue(l, c, turns, n - 1);
      TakeTurnPays(l.origin.ledgers, ModesOf(l.queues), FirstPaid(l), c, RunOf(l, c, turns, n - 1), turns[n - 1]);
    }
  }

  /** While a queue stays in one-at-a-time mode, no poll of it hands out more than one message. */
  lemma OneAtATimeStays(l: Ledgers, m: Modes, acts: seq<Act>, from: nat, i: nat)
    requires AllPay(l, m, acts, from) && from <= i < |acts| && (acts[i].SteerPoll? || acts[i].FollowPoll?)
    ensures var now := Switched(ModesAfter(m, acts[..i]), acts[i].env);
            (if acts[i].SteerPoll? then now.steering else now.followUp).OneAtATime? ==> |acts[i].batch| <= 1
  {
    assert Pays(LedgersAfter(l, acts[..i]), ModesAfter(m, acts[..i]), acts[i]);
  }

  /** While it is in the other mode, a poll leaves nothing waiting. */
  lemma AllLeavesNothing(l: Ledgers, m: Modes, acts: seq<Act>, from: nat, i: nat)
    requires AllPay(l, m, acts, from) && from <= i < |acts| && (acts[i].SteerPoll? || acts[i].FollowPoll?)
    ensures var now, after := Switched(ModesAfter(m, acts[..i]), acts[i].env), LedgersAfter(l, acts[..i + 1]);
            && (acts[i].SteerPoll? && now.steering.All? ==> Waiting(after.steering) == 0)
            && (acts[i].FollowPoll? && now.followUp.All? ==> Waiting(after.followUp) == 0)
  {
    assert Pays(LedgersAfter(l, acts[..i]), ModesAfter(m, acts[..i]), acts[i]);
    assert acts[..i + 1] == acts[..i] + [acts[i]];
    PollSnoc(l, acts[..i], acts[i]);
  }
}
