/**
 The priority path of the batcher as an observer of its log sees it, call by call; and what the batcher has accepted,
 told from the calls made to it.
 */
module PriorityPath {
  import opened Wrappers
  import opened MessageBatcher

  /** What an observer has seen of one priority call. */
  datatype Sight = Nothing | Tried(second: bool) | Failed | Over(delivered: bool) | Wrong

  /**
   A first attempt; if that fails, and only then, a second one; then one outcome, and a bad one only after the second
   attempt. Anything else is wrong.
   */
  function Watch(v: Sight, r: Record, i: nat): Sight {
    if r.sender != Priority(i) then v
    else
      match (v, r)
      case (Nothing, Attempt(_, false)) => Tried(false)
      case (Tried(false), Refused(_)) => Failed
      case (Failed, Attempt(_, true)) => Tried(true)
      case (Tried(second), Resolved(_, ok)) => if ok || second then Over(ok) else Wrong
      case _ => Wrong
  }

  function Watched(log: seq<Record>, i: nat): Sight {
    if log == [] then Nothing else Watch(Watched(log[..|log| - 1], i), log[|log| - 1], i)
  }

  /** What the log must show of a call at a stage. */
  predicate Shows(stage: CallStage, v: Sight) {
    match stage
    case Waiting(_) => v == Nothing
    case Active(Sending(second)) => v == Tried(second)
    case Active(Backoff) => v == Failed
    case Active(Finishing) => false
    case Returned => v.Over?
  }

  ghost predicate AllShown(s: State) {
    forall i: nat :: if i < |s.calls| then Shows(s.calls[i].stage, Watched(s.log, i)) else Watched(s.log, i) == Nothing
  }

  lemma WatchedSnoc(log: seq<Record>, r: Record, i: nat)
    ensures Watched(log + [r], i) == Watch(Watched(log, i), r, i)
  {
    assert (log + [r])[..|log|] == log;
  }

  /** A step that writes at most one record, of a sender other than a priority call, moves no call. */
  lemma OthersUnseen(s: State, s': State)
    requires AllShown(s) && s'.calls == s.calls
    requires s'.log == s.log || (|s'.log| == |s.log| + 1 && s'.log[..|s.log|] == s.log && s'.log[|s.log|].sender.Buffered?)
    ensures AllShown(s')
  {
    hide Shows;
    forall i: nat ensures Watched(s'.log, i) == Watched(s.log, i) {
      if s'.log != s.log {
        WatchedSnoc(s.log, s'.log[|s.log|], i);
        assert s'.log == s.log + [s'.log[|s.log|]];
      }
    }
  }

  /** A step of call `i` that writes one record of it. */
  lemma CallShown(s: State, s': State, i: nat, stage: CallStage, r: Record)
    requires AllShown(s) && i < |s.calls| && r.sender == Priority(i)
    requires s'.calls == s.calls[i := s.calls[i].(stage := stage)] && s'.log == s.log + [r]
    requires Shows(stage, Watch(Watched(s.log, i), r, i))
    ensures AllShown(s')
  {
    hide Shows;
    forall j: nat ensures Watched(s'.log, j) == if j == i then Watch(Watched(s.log, i), r, i) else Watched(s.log, j) {
      WatchedSnoc(s.log, r, j);
    }
    forall j: nat
      ensures if j < |s'.calls| then Shows(s'.calls[j].stage, Watched(s'.log, j)) else Watched(s'.log, j) == Nothing
    {
    }
  }

  lemma FlushShown(s: State)
    requires AllShown(s)
    ensures AllShown(Flush(s))
  {
    hide AllShown;
    OthersUnseen(s, Flush(s));
  }

  lemma NewCallShown(s: State, s': State, c: Call)
    requires AllShown(s) && s'.log == s.log && s'.calls == s.calls + [c] && c.stage.Waiting?
    ensures AllShown(s')
  {
    assert Watched(s.log, |s.calls|) == Nothing;
  }

  lemma ResumeShown(s: State, i: nat)
    requires AllShown(s)
    ensures AllShown(Next(s, CallResumes(i))) && AllShown(Next(s, CallRetryDelay(i)))
  {
    if i < |s.calls| {
      var stage := s.calls[i].stage;
      assert Shows(stage, Watched(s.log, i));
      hide AllShown, MayResume, Flush, SettleFlight;
      if MayResume(s, s.calls[i]) {
        ResumableWaits(s, s.calls[i]);
        CallShown(s, Next(s, CallResumes(i)), i, Active(Sending(false)), Attempt(Priority(i), false));
      }
      if stage == Active(Backoff) {
        CallShown(s, Next(s, CallRetryDelay(i)), i, Active(Sending(true)), Attempt(Priority(i), true));
      }
    }
  }

  lemma ResumableWaits(s: State, c: Call)
    requires MayResume(s, c)
    ensures c.stage.Waiting?
  {
  }

  lemma SettleShown(s: State, i: nat, ok: bool)
    requires AllShown(s)
    ensures AllShown(Next(s, CallSettles(i, ok)))
  {
    if i < |s.calls| && s.calls[i].stage.Active? && s.calls[i].stage.stage.Sending? {
      var second, s' := s.calls[i].stage.stage.second, Next(s, CallSettles(i, ok));
      assert Shows(s.calls[i].stage, Watched(s.log, i));
      hide AllShown, MayResume, Flush, SettleFlight;
      if !ok && !second {
        CallShown(s, s', i, Active(Backoff), Refused(Priority(i)));
      } else {
        CallShown(s, s', i, Returned, Resolved(Priority(i), ok));
      }
    }
  }

  lemma FlightShown(s: State, ok: bool)
    requires AllShown(s)
    ensures AllShown(Next(s, Settle(ok))) && AllShown(Next(s, RetryDelay)) && AllShown(Next(s, FlushReturns))
  {
    hide AllShown;
    OthersUnseen(s, Next(s, Settle(ok)));
    OthersUnseen(s, Next(s, RetryDelay));
    OthersUnseen(s, Next(s, FlushReturns));
  }

  lemma EntryShown(s: State, e: FormattedEvent)
    requires AllShown(s)
    ensures AllShown(Next(s, Enqueue(e))) && AllShown(Next(s, EnqueueImmediate(e))) && AllShown(Next(s, Destroy))
  {
    hide AllShown, Flush;
    var pushed := s.(buffer := s.buffer + [e], accepted := s.accepted + [e]);
    var stopped := s.(destroyed := true, timer := false);
    OthersUnseen(s, pushed);
    OthersUnseen(s, stopped);
    FlushShown(s);
    FlushShown(pushed);
    FlushShown(stopped);
    FlushKeepsCalls(s);
    var s' := Next(s, EnqueueImmediate(e));
    if !s.destroyed {
      NewCallShown(Flush(s), s', s'.calls[|s.calls|]);
    }
  }

  lemma FlushKeepsCalls(s: State)
    ensures Flush(s).calls == s.calls
  {
  }

  lemma TimerShown(s: State)
    requires AllShown(s)
    ensures AllShown(Next(s, Start)) && AllShown(Next(s, Stop)) && AllShown(Next(s, Tick))
  {
    hide AllShown, Flush;
    FlushShown(s);
    OthersUnseen(s, Next(s, Start));
    OthersUnseen(s, Next(s, Stop));
  }

  lemma NextShown(s: State, step: Step)
    requires AllShown(s)
    ensures AllShown(Next(s, step))
  {
    hide AllShown, Next;
    match step
    case Start => TimerShown(s);
    case Stop => TimerShown(s);
    case Tick => TimerShown(s);
    case Enqueue(e) => EntryShown(s, e);
    case EnqueueImmediate(e) => EntryShown(s, e);
    case Destroy => EntryShown(s, "");
    case Settle(ok) => FlightShown(s, ok);
    case RetryDelay => FlightShown(s, true);
    case FlushReturns => FlightShown(s, true);
    case CallResumes(i) => ResumeShown(s, i);
    case CallRetryDelay(i) => ResumeShown(s, i);
    case CallSettles(i, ok) => SettleShown(s, i, ok);
  }

  /**
   In every interleaving each priority call is attempted once; if that fails, and only then, once more after a delay;
   and has one outcome, which is bad only after the second attempt. The log shows each call exactly as far as it is.
   */
  lemma {:induction false} PriorityIsRetriedOnce(maxBatchSize: nat, steps: seq<Step>)
    ensures AllShown(Run(Init(maxBatchSize), steps))
  {
    if steps == [] {
      assert AllShown(Init(maxBatchSize));
    } else {
      PriorityIsRetriedOnce(maxBatchSize, steps[..|steps| - 1]);
      NextShown(Run(Init(maxBatchSize), steps[..|steps| - 1]), steps[|steps| - 1]);
    }
  }

  /** A call that may resume, or has, can always return: four steps of its own away, whatever its sends come to. */
  lemma PriorityCanReturn(s: State, i: nat, first: bool, second: bool)
    requires i < |s.calls| && (s.calls[i].stage.Waiting? ==> MayResume(s, s.calls[i]))
    requires s.calls[i].stage.Active? ==> !s.calls[i].stage.stage.Finishing?
    ensures var s' := Run(s, [CallResumes(i), CallSettles(i, first), CallRetryDelay(i), CallSettles(i, second)]);
            i < |s'.calls| && s'.calls[i].stage == Returned
  {
    hide Run, MayResume, Flush, SettleFlight;
    RunFour(s, CallResumes(i), CallSettles(i, first), CallRetryDelay(i), CallSettles(i, second));
    var s1 := Next(s, CallResumes(i));
    var s2 := Next(s1, CallSettles(i, first));
    var s3 := Next(s2, CallRetryDelay(i));
    var s4 := Next(s3, CallSettles(i, second));
    hide Next;
    CallMoves(s, i, first);
    CallMoves(s1, i, first);
    CallMoves(s2, i, first);
    CallMoves(s3, i, second);
  }

  lemma CallMoves(s: State, i: nat, ok: bool)
    requires i < |s.calls|
    ensures var s', c := Next(s, CallResumes(i)), s.calls[i];
            i < |s'.calls| && s'.calls[i].stage == if MayResume(s, c) then Active(Sending(false)) else c.stage
    ensures MayResume(s, s.calls[i]) ==> s.calls[i].stage.Waiting?
    ensures var s', stage := Next(s, CallSettles(i, ok)), s.calls[i].stage;
            i < |s'.calls| && s'.calls[i].stage ==
              if stage == Active(Sending(false)) && !ok then Active(Backoff)
              else if stage.Active? && stage.stage.Sending? then Returned else stage
    ensures var s', stage := Next(s, CallRetryDelay(i)), s.calls[i].stage;
            i < |s'.calls| && s'.calls[i].stage == if stage == Active(Backoff) then Active(Sending(true)) else stage
  {
    ResumableOnly(s, s.calls[i]);
    hide MayResume;
  }

  lemma ResumableOnly(s: State, c: Call)
    ensures MayResume(s, c) ==> c.stage.Waiting?
  {
  }

  // ---------------------------------------------------------------------------------------------
  // Told from the calls made to the batcher
  // ---------------------------------------------------------------------------------------------

  /** The events enqueued, and those of the priority calls, before the batcher was destroyed. */
  function Offered(steps: seq<Step>): seq<FormattedEvent> {
    if steps == [] then []
    else
      var init, step := steps[..|steps| - 1], steps[|steps| - 1];
      if step.Enqueue? && Destroy !in init then Offered(init) + [step.event] else Offered(init)
  }

  function Urgent(steps: seq<Step>): seq<FormattedEvent> {
    if steps == [] then []
    else
      var init, step := steps[..|steps| - 1], steps[|steps| - 1];
      if step.EnqueueImmediate? && Destroy !in init then Urgent(init) + [step.event] else Urgent(init)
  }

  /** The timer runs if it was started and since then neither stopped nor the batcher destroyed for the first time. */
  function TimerRuns(steps: seq<Step>): bool {
    if steps == [] then false
    else
      var init, step := steps[..|steps| - 1], steps[|steps| - 1];
      if step.Start? then true
      else if step.Stop? || (step.Destroy? && Destroy !in init) then false
      else TimerRuns(init)
  }

  function Events(calls: seq<Call>): seq<FormattedEvent> {
    if calls == [] then [] else Events(calls[..|calls| - 1]) + [calls[|calls| - 1].event]
  }

  ghost predicate Told(s: State, steps: seq<Step>) {
    && s.accepted == Offered(steps) && Events(s.calls) == Urgent(steps)
    && (s.destroyed <==> Destroy in steps) && s.timer == TimerRuns(steps)
  }

  lemma {:induction false} SameEvents(a: seq<Call>, b: seq<Call>)
    requires |a| == |b| && forall i :: 0 <= i < |a| ==> a[i].event == b[i].event
    ensures Events(a) == Events(b)
  {
    if a != [] {
      SameEvents(a[..|a| - 1], b[..|b| - 1]);
    }
  }

  /** What one step does to the four, whatever else it does. */
  ghost predicate Does(s: State, step: Step, s': State) {
    && s'.destroyed == (s.destroyed || step.Destroy?)
    && s'.timer == (if step.Start? then true else if step.Stop? || (step.Destroy? && !s.destroyed) then false else s.timer)
    && s'.accepted == (if step.Enqueue? && !s.destroyed then s.accepted + [step.event] else s.accepted)
    && (if step.EnqueueImmediate? && !s.destroyed
        then |s'.calls| == |s.calls| + 1 && s'.calls[..|s.calls|] == s.calls && s'.calls[|s.calls|].event == step.event
        else |s'.calls| == |s.calls| && forall i :: 0 <= i < |s.calls| ==> s'.calls[i].event == s.calls[i].event)
  }

  lemma ResumeDoes(s: State, i: nat)
    ensures Does(s, CallResumes(i), Next(s, CallResumes(i)))
  {
    hide MayResume, Flush, SettleFlight;
  }

  lemma RetryDoes(s: State, i: nat)
    ensures Does(s, CallRetryDelay(i), Next(s, CallRetryDelay(i)))
  {
    hide MayResume, Flush, SettleFlight;
  }

  lemma OutcomeDoes(s: State, i: nat, ok: bool)
    ensures Does(s, CallSettles(i, ok), Next(s, CallSettles(i, ok)))
  {
    hide MayResume, Flush, SettleFlight;
  }

  lemma StepTold(s: State, step: Step)
    ensures Does(s, step, Next(s, step))
  {
    hide MayResume, Flush, SettleFlight;
    FlushTold(s);
    FlushTold(s.(destroyed := true, timer := false));
    match step
    case Enqueue(e) => FlushTold(s.(buffer := s.buffer + [e], accepted := s.accepted + [e]));
    case Settle(ok) => SettleTold(s, ok);
    case CallResumes(i) => ResumeDoes(s, i);
    case CallSettles(i, ok) => OutcomeDoes(s, i, ok);
    case CallRetryDelay(i) => RetryDoes(s, i);
    case _ =>
  }

  lemma FlushTold(s: State)
    ensures var s' := Flush(s);
            s'.destroyed == s.destroyed && s'.timer == s.timer && s'.accepted == s.accepted && s'.calls == s.calls
  {
  }

  lemma SettleTold(s: State, ok: bool)
    ensures var s' := SettleFlight(s, ok);
            s'.destroyed == s.destroyed && s'.timer == s.timer && s'.accepted == s.accepted && s'.calls == s.calls
  {
  }

  /**
   In every interleaving: what was accepted is what was enqueued before the batcher was destroyed, in order, and so for
   the priority calls; and the timer runs exactly if it was started last, even after the batcher was destroyed.
   */
  lemma {:induction false} AcceptedIsOffered(maxBatchSize: nat, steps: seq<Step>)
    ensures Told(Run(Init(maxBatchSize), steps), steps)
  {
    hide Next;
    if steps != [] {
      var init, step := steps[..|steps| - 1], steps[|steps| - 1];
      var s, s' := Run(Init(maxBatchSize), init), Run(Init(maxBatchSize), steps);
      AcceptedIsOffered(maxBatchSize, init);
      StepTold(s, step);
      assert steps == init + [step];
      if |s'.calls| == |s.calls| {
        SameEvents(s.calls, s'.calls);
      } else {
        assert s'.calls[..|s'.calls| - 1] == s.calls;
      }
    }
  }
}
