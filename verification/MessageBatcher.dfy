/**
 The message batcher as a machine of atomic steps: what runs between two suspension points of its
 asynchronous methods is one step, and any other step may come in between.
 */
module MessageBatcher {
  import opened Wrappers

  type FormattedEvent = string

  /** A buffered batch, by its number, or a priority event, by the number of its call. */
  datatype Sender = Buffered(batch: nat) | Priority(call: nat)

  /** An attempt begins; a first attempt fails; a send comes to its outcome, delivered or dropped. */
  datatype Record =
    | Attempt(sender: Sender, second: bool)
    | Refused(sender: Sender)
    | Resolved(sender: Sender, delivered: bool)

  /** Where a send stands: in its first or second attempt, waiting to retry, or settled and about to return. */
  datatype Stage = Sending(second: bool) | Backoff | Finishing

  /** Where a priority call stands: waiting for the flush it may have started, or sending. */
  datatype CallStage = Waiting(flush: Option<nat>) | Active(stage: Stage) | Returned

  /**
   A call of the priority path. What was known when it was made: how many events had been accepted and how
   many batches taken once it had tried to flush, and whether a flush was in flight.
   */
  datatype Call = Call(event: FormattedEvent, stage: CallStage, accepted: nat, barrier: nat, quiet: bool)

  /**
   The batcher's fields, the suspended methods (`flight` for the flush, `calls` for the priority path), and
   what an observer has seen: accepted events, batches taken, events delivered, and every attempt.
   */
  datatype State = State(
    maxBatchSize: nat,
    buffer: seq<FormattedEvent>,
    timer: bool,
    flushing: bool,
    destroyed: bool,
    flight: Option<Stage>,
    calls: seq<Call>,
    accepted: seq<FormattedEvent>,
    taken: seq<seq<FormattedEvent>>,
    delivered: seq<FormattedEvent>,
    log: seq<Record>)

  datatype Step =
    | Start
    | Stop
    | Tick
    | Enqueue(event: FormattedEvent)
    | EnqueueImmediate(event: FormattedEvent)
    | Destroy
    | Settle(ok: bool)
    | RetryDelay
    | FlushReturns
    | CallResumes(call: nat)
    | CallSettles(call: nat, ok: bool)
    | CallRetryDelay(call: nat)

  function Init(maxBatchSize: nat): State {
    State(maxBatchSize, [], false, false, false, None, [], [], [], [], [])
  }

  /** The part of a flush that runs at once: take the whole buffer and begin the first attempt. */
  function Flush(s: State): State {
    if s.buffer == [] || s.flushing then s
    else s.(flushing := true, buffer := [], flight := Some(Sending(false)),
            taken := s.taken + [s.buffer],
            log := s.log + [Attempt(Buffered(|s.taken|), false)])
  }

  function AfterSettle(stage: Stage, ok: bool): Stage {
    if stage == Sending(false) && !ok then Backoff else Finishing
  }

  function SettleFlight(s: State, ok: bool): State {
    match s.flight
    case Some(Sending(second)) =>
      var current := |s.taken| - 1;
      var settled := s.(flight := Some(AfterSettle(Sending(second), ok)));
      if current < 0 then settled
      else if !ok && !second then settled.(log := s.log + [Refused(Buffered(current))])
      else settled.(log := s.log + [Resolved(Buffered(current), ok)],
                    delivered := if ok then s.delivered + s.taken[current] else s.delivered)
    case _ => s
  }

  function SetStage(s: State, i: nat, stage: CallStage): State
    requires i < |s.calls|
  {
    s.(calls := s.calls[i := s.calls[i].(stage := stage)])
  }

  /** The flush a call waits for has returned, or it waits for none. */
  predicate MayResume(s: State, c: Call) {
    c.stage.Waiting? && (c.stage.flush.None? || s.flight.None? || c.stage.flush.value + 1 < |s.taken|)
  }

  function Next(s: State, step: Step): State {
    match step
    case Start => s.(timer := true)
    case Stop => s.(timer := false)
    case Tick => if s.timer then Flush(s) else s
    case Enqueue(e) =>
      if s.destroyed then s
      else
        var pushed := s.(buffer := s.buffer + [e], accepted := s.accepted + [e]);
        if |pushed.buffer| >= s.maxBatchSize then Flush(pushed) else pushed
    case EnqueueImmediate(e) =>
      if s.destroyed then s
      else
        var flushed := Flush(s);
        var waits := if |flushed.taken| > |s.taken| then Some(|s.taken|) else None;
        flushed.(calls := s.calls + [Call(e, Waiting(waits), |s.accepted|, |flushed.taken|, !s.flushing)])
    case Destroy => if s.destroyed then s else Flush(s.(destroyed := true, timer := false))
    case Settle(ok) => SettleFlight(s, ok)
    case RetryDelay =>
      if s.flight == Some(Backoff) && |s.taken| > 0
      then s.(flight := Some(Sending(true)), log := s.log + [Attempt(Buffered(|s.taken| - 1), true)])
      else s
    case FlushReturns => if s.flight == Some(Finishing) then s.(flight := None, flushing := false) else s
    case CallResumes(i) =>
      if i < |s.calls| && MayResume(s, s.calls[i])
      then SetStage(s, i, Active(Sending(false))).(log := s.log + [Attempt(Priority(i), false)])
      else s
    case CallSettles(i, ok) =>
      if i < |s.calls| && s.calls[i].stage.Active? && s.calls[i].stage.stage.Sending?
      then
        var stage := s.calls[i].stage.stage;
        if !ok && !stage.second then SetStage(s, i, Active(Backoff)).(log := s.log + [Refused(Priority(i))])
        else SetStage(s, i, Returned).(log := s.log + [Resolved(Priority(i), ok)])
      else s
    case CallRetryDelay(i) =>
      if i < |s.calls| && s.calls[i].stage == Active(Backoff)
      then SetStage(s, i, Active(Sending(true))).(log := s.log + [Attempt(Priority(i), true)])
      else s
  }

  function Run(s: State, steps: seq<Step>): State {
    if steps == [] then s else Next(Run(s, steps[..|steps| - 1]), steps[|steps| - 1])
  }

  // ---------------------------------------------------------------------------------------------
  // Reading the log of attempts
  // ---------------------------------------------------------------------------------------------

  /** The buffered batches as an observer of the log sees them. */
  datatype View = View(begun: nat, active: Option<bool>, refused: bool, outcomes: seq<bool>, ordered: bool)

  /**
   Batches are attempted in order, one at a time: a first attempt; if that fails, and only then, a second one; then
   an outcome. A batch is dropped only after its second attempt. Anything else is out of order.
   */
  function Observe(v: View, r: Record): View {
    match r
    case Attempt(Buffered(b), false) =>
      v.(begun := v.begun + 1, active := Some(false), ordered := v.ordered && v.active == None && b == v.begun)
    case Refused(Buffered(b)) =>
      v.(refused := true, ordered := v.ordered && v.active == Some(false) && !v.refused && b + 1 == v.begun)
    case Attempt(Buffered(b), true) =>
      v.(active := Some(true), refused := false,
         ordered := v.ordered && v.active == Some(false) && v.refused && b + 1 == v.begun)
    case Resolved(Buffered(b), ok) =>
      v.(active := None, outcomes := v.outcomes + [ok],
         ordered := v.ordered && v.active.Some? && !v.refused && b + 1 == v.begun && (ok || v.active == Some(true)))
    case _ => v
  }

  function Scan(log: seq<Record>): View {
    if log == [] then View(0, None, false, [], true)
    else Observe(Scan(log[..|log| - 1]), log[|log| - 1])
  }

  function Flat(batches: seq<seq<FormattedEvent>>): seq<FormattedEvent> {
    if batches == [] then [] else Flat(batches[..|batches| - 1]) + batches[|batches| - 1]
  }

  /** What is delivered: the accepted events less the batches that were dropped whole. */
  function Kept(batches: seq<seq<FormattedEvent>>, outcomes: seq<bool>): seq<FormattedEvent>
    requires |outcomes| <= |batches|
  {
    if outcomes == [] then []
    else
      var i := |outcomes| - 1;
      if outcomes[i] then Kept(batches, outcomes[..i]) + batches[i] else Kept(batches, outcomes[..i])
  }

  // ---------------------------------------------------------------------------------------------
  // What every step keeps
  // ---------------------------------------------------------------------------------------------

  /** No event is lost or reordered between acceptance and the batches, and flushes exclude each other. */
  ghost predicate Conserved(s: State) {
    && s.accepted == Flat(s.taken) + s.buffer
    && (s.flushing <==> s.flight.Some?)
    && (forall b :: 0 <= b < |s.taken| ==> s.taken[b] != [])
    && (s.flight.Some? ==> |s.taken| > 0)
  }

  /** The log is ordered and agrees with the batcher's fields. */
  ghost predicate Logged(s: State) {
    var v := Scan(s.log);
    && v.ordered && v.begun == |s.taken|
    && v.active == (if s.flight == Some(Backoff) then Some(false)
                    else if s.flight.Some? && s.flight.value.Sending? then Some(s.flight.value.second) else None)
    && (v.refused <==> s.flight == Some(Backoff))
    && |v.outcomes| == |s.taken| - (if v.active.Some? then 1 else 0)
    && s.delivered == Kept(s.taken, v.outcomes)
  }

  /** The batches a call must not overtake have their outcome. */
  ghost predicate Cleared(s: State, c: Call, seen: seq<Record>) { c.barrier <= |Scan(seen).outcomes| }

  /** A call made while no flush was in flight waits until everything accepted before it has its outcome. */
  ghost predicate Guarded(s: State, i: nat)
    requires i < |s.calls|
  {
    var c := s.calls[i];
    && c.barrier <= |s.taken| && c.accepted <= |s.accepted|
    && (c.stage.Waiting? && c.stage.flush.Some? ==> c.barrier == c.stage.flush.value + 1)
    && (c.quiet ==>
          && Flat(s.taken[..c.barrier]) == s.accepted[..c.accepted]
          && (c.stage == Waiting(None) ==> Cleared(s, c, s.log))
          && forall k :: 0 <= k < |s.log| && s.log[k] == Attempt(Priority(i), false) ==> Cleared(s, c, s.log[..k]))
  }

  ghost predicate Inv(s: State) {
    && Conserved(s) && Logged(s)
    && (forall i :: 0 <= i < |s.calls| ==> Guarded(s, i))
    && SendersKnown(s)
  }

  lemma ScanSnoc(log: seq<Record>, r: Record)
    ensures Scan(log + [r]) == Observe(Scan(log), r)
  {
    assert (log + [r])[..|log + [r]| - 1] == log;
  }

  lemma FlatSnoc(batches: seq<seq<FormattedEvent>>, b: seq<FormattedEvent>)
    ensures Flat(batches + [b]) == Flat(batches) + b
  {
    assert (batches + [b])[..|batches + [b]| - 1] == batches;
  }

  lemma {:induction false} KeptPrefix(batches: seq<seq<FormattedEvent>>, b: seq<FormattedEvent>, outcomes: seq<bool>)
    requires |outcomes| <= |batches|
    ensures Kept(batches + [b], outcomes) == Kept(batches, outcomes)
  {
    if outcomes != [] {
      KeptPrefix(batches, b, outcomes[..|outcomes| - 1]);
    }
  }

  lemma KeptSnoc(batches: seq<seq<FormattedEvent>>, outcomes: seq<bool>, ok: bool)
    requires |outcomes| < |batches|
    ensures Kept(batches, outcomes + [ok])
         == if ok then Kept(batches, outcomes) + batches[|outcomes|] else Kept(batches, outcomes)
  {
    assert (outcomes + [ok])[..|outcomes|] == outcomes;
  }

  lemma FlushConserves(s: State)
    requires Conserved(s)
    ensures Conserved(Flush(s))
  {
    FlatSnoc(s.taken, s.buffer);
  }

  lemma FlushLogs(s: State)
    requires Conserved(s) && Logged(s)
    ensures Logged(Flush(s))
  {
    ScanSnoc(s.log, Attempt(Buffered(|s.taken|), false));
    KeptPrefix(s.taken, s.buffer, Scan(s.log).outcomes);
  }

  lemma SettleLogs(s: State, ok: bool)
    requires Conserved(s) && Logged(s)
    ensures Logged(SettleFlight(s, ok))
  {
    if s.flight.Some? && s.flight.value.Sending? {
      ScanSnoc(s.log, Resolved(Buffered(|s.taken| - 1), ok));
      ScanSnoc(s.log, Refused(Buffered(|s.taken| - 1)));
      KeptSnoc(s.taken, Scan(s.log).outcomes, ok);
    }
  }

  /** Records of the priority path leave the buffered view alone. */
  lemma PriorityUnseen(log: seq<Record>, r: Record)
    requires r.sender.Priority?
    ensures Scan(log + [r]) == Scan(log)
  {
    ScanSnoc(log, r);
  }

  lemma EnqueueConserves(s: State, e: FormattedEvent)
    requires Conserved(s)
    ensures Conserved(Next(s, Enqueue(e)))
  {
    hide Flush;
    var pushed := s.(buffer := s.buffer + [e], accepted := s.accepted + [e]);
    assert pushed.accepted == Flat(s.taken) + pushed.buffer;
    FlushConserves(pushed);
  }

  /** Steps of the priority path do not touch what is conserved. */
  lemma CallsConserve(s: State, i: nat, ok: bool)
    requires Conserved(s)
    ensures Conserved(Next(s, CallResumes(i))) && Conserved(Next(s, CallSettles(i, ok))) && Conserved(Next(s, CallRetryDelay(i)))
  {
    hide Flush, MayResume, Flat;
  }

  lemma NextConserves(s: State, step: Step)
    requires Conserved(s)
    ensures Conserved(Next(s, step))
  {
    hide Flush, MayResume, Flat;
    match step
    case Tick => FlushConserves(s);
    case Enqueue(e) => EnqueueConserves(s, e);
    case EnqueueImmediate(e) => FlushConserves(s);
    case Destroy => FlushConserves(s.(destroyed := true, timer := false));
    case CallResumes(i) => CallsConserve(s, i, true);
    case CallSettles(i, ok) => CallsConserve(s, i, ok);
    case CallRetryDelay(i) => CallsConserve(s, i, true);
    case _ =>
  }

  lemma EnqueueLogs(s: State, e: FormattedEvent)
    requires Conserved(s) && Logged(s)
    ensures Logged(Next(s, Enqueue(e)))
  {
    var pushed := s.(buffer := s.buffer + [e], accepted := s.accepted + [e]);
    assert Flat(s.taken) + s.buffer + [e] == Flat(s.taken) + (s.buffer + [e]);
    assert Conserved(pushed) && Logged(pushed);
    FlushLogs(pushed);
  }

  lemma RetryLogs(s: State)
    requires Conserved(s) && Logged(s)
    ensures Logged(Next(s, RetryDelay)) && Logged(Next(s, FlushReturns))
  {
    if |s.taken| > 0 {
      ScanSnoc(s.log, Attempt(Buffered(|s.taken| - 1), true));
    }
  }

  lemma PriorityLogs(s: State, s': State, r: Record)
    requires Logged(s) && s'.taken == s.taken && s'.flight == s.flight && s'.delivered == s.delivered
    requires s'.log == s.log || (s'.log == s.log + [r] && r.sender.Priority?)
    ensures Logged(s')
  {
    if s'.log == s.log + [r] {
      PriorityUnseen(s.log, r);
    }
  }

  lemma CallResumesLogs(s: State, i: nat)
    requires Logged(s)
    ensures Logged(Next(s, CallResumes(i))) && Logged(Next(s, CallRetryDelay(i)))
  {
    hide Logged, MayResume, Flush, SettleFlight, AfterSettle;
    PriorityLogs(s, Next(s, CallResumes(i)), Attempt(Priority(i), false));
    PriorityLogs(s, Next(s, CallRetryDelay(i)), Attempt(Priority(i), true));
  }

  lemma CallSettlesLogs(s: State, i: nat, ok: bool)
    requires Logged(s)
    ensures Logged(Next(s, CallSettles(i, ok)))
  {
    hide Logged, MayResume, Flush, SettleFlight, AfterSettle;
    var s' := Next(s, CallSettles(i, ok));
    if s'.log == s.log + [Refused(Priority(i))] {
      PriorityLogs(s, s', Refused(Priority(i)));
    } else {
      PriorityLogs(s, s', Resolved(Priority(i), ok));
    }
  }

  lemma NextLogs(s: State, step: Step)
    requires Conserved(s) && Logged(s)
    ensures Logged(Next(s, step))
  {
    match step
    case Start =>
    case Stop =>
    case Tick => FlushLogs(s);
    case Enqueue(e) => EnqueueLogs(s, e);
    case EnqueueImmediate(e) =>
      hide Flush, Scan, Observe, Kept;
      FlushLogs(s);
    case Destroy => FlushLogs(s.(destroyed := true, timer := false));
    case Settle(ok) => SettleLogs(s, ok);
    case RetryDelay => RetryLogs(s);
    case FlushReturns => RetryLogs(s);
    case CallResumes(i) => CallResumesLogs(s, i);
    case CallSettles(i, ok) => CallSettlesLogs(s, i, ok);
    case CallRetryDelay(i) => CallResumesLogs(s, i);
  }

  /** Steps only ever add: to the log, the batches, the accepted events and the calls. */
  ghost predicate Grows(s: State, s': State) {
    && s.log <= s'.log && |s'.log| <= |s.log| + 1
    && s.taken <= s'.taken && s.accepted <= s'.accepted && |s.calls| <= |s'.calls|
    && forall i :: 0 <= i < |s.calls| ==>
         && s'.calls[i].(stage := s.calls[i].stage) == s.calls[i]
         && (s'.calls[i].stage.Waiting? ==> s'.calls[i].stage == s.calls[i].stage)
  }

  /** What a step adds to the log, if it is a priority event's first attempt, is a call that may resume. */
  ghost predicate ResumesOnly(s: State, s': State) {
    forall i :: 0 <= i < |s.calls| && |s'.log| > |s.log| && s'.log[|s.log|] == Attempt(Priority(i), false) ==>
      MayResume(s, s.calls[i])
  }

  /** One call moves on, with at most one record. */
  lemma StageGrows(s: State, s': State, i: nat, stage: CallStage, r: Record)
    requires i < |s.calls| && !stage.Waiting? && s'.calls == s.calls[i := s.calls[i].(stage := stage)]
    requires s'.taken == s.taken && s'.accepted == s.accepted && (s'.log == s.log || s'.log == s.log + [r])
    requires r.sender == Priority(i) && (r == Attempt(Priority(i), false) ==> MayResume(s, s.calls[i]))
    ensures Grows(s, s') && ResumesOnly(s, s')
  {
    hide MayResume;
  }

  lemma NothingGrows(s: State)
    ensures Grows(s, s) && ResumesOnly(s, s)
  {
  }

  lemma CallsGrow(s: State, i: nat, ok: bool)
    ensures Grows(s, Next(s, CallResumes(i))) && ResumesOnly(s, Next(s, CallResumes(i)))
    ensures Grows(s, Next(s, CallSettles(i, ok))) && ResumesOnly(s, Next(s, CallSettles(i, ok)))
    ensures Grows(s, Next(s, CallRetryDelay(i))) && ResumesOnly(s, Next(s, CallRetryDelay(i)))
  {
    hide MayResume, Grows, ResumesOnly;
    NothingGrows(s);
    if i < |s.calls| {
      if MayResume(s, s.calls[i]) {
        StageGrows(s, Next(s, CallResumes(i)), i, Active(Sending(false)), Attempt(Priority(i), false));
      }
      if s.calls[i].stage == Active(Backoff) {
        StageGrows(s, Next(s, CallRetryDelay(i)), i, Active(Sending(true)), Attempt(Priority(i), true));
      }
      if s.calls[i].stage.Active? && s.calls[i].stage.stage.Sending? {
        var stage := if !ok && !s.calls[i].stage.stage.second then Active(Backoff) else Returned;
        StageGrows(s, Next(s, CallSettles(i, ok)), i, stage,
                   if stage.Active? then Refused(Priority(i)) else Resolved(Priority(i), ok));
      }
    }
  }

  lemma NextGrows(s: State, step: Step)
    ensures Grows(s, Next(s, step))
    ensures forall i :: 0 <= i < |s.calls| && |Next(s, step).log| > |s.log| && Next(s, step).log[|s.log|] == Attempt(Priority(i), false) ==>
              MayResume(s, s.calls[i])
  {
    hide MayResume;
    match step
    case CallResumes(j) => CallsGrow(s, j, true);
    case CallSettles(j, ok) => CallsGrow(s, j, ok);
    case CallRetryDelay(j) => CallsGrow(s, j, true);
    case _ =>
  }

  lemma OutcomesGrow(log: seq<Record>, log': seq<Record>)
    requires log <= log' && |log'| <= |log| + 1
    ensures |Scan(log).outcomes| <= |Scan(log').outcomes|
  {
    if |log'| > |log| {
      assert log' == log + [log'[|log|]];
      ScanSnoc(log, log'[|log|]);
    } else {
      assert log' == log;
    }
  }

  /** When a call may resume, everything it must not overtake has its outcome. */
  lemma ResumesCleared(s: State, i: nat)
    requires Conserved(s) && Logged(s) && i < |s.calls| && Guarded(s, i) && s.calls[i].quiet && MayResume(s, s.calls[i])
    ensures Cleared(s, s.calls[i], s.log)
  {
  }

  lemma StaysGuarded(s: State, s': State, i: nat)
    requires Conserved(s) && Logged(s) && i < |s.calls| && Guarded(s, i) && Grows(s, s')
    requires |s'.log| > |s.log| && s'.log[|s.log|] == Attempt(Priority(i), false) ==> MayResume(s, s.calls[i])
    ensures Guarded(s', i)
  {
    var c, c' := s.calls[i], s'.calls[i];
    assert s'.taken[..c.barrier] == s.taken[..c.barrier];
    assert s'.accepted[..c.accepted] == s.accepted[..c.accepted];
    OutcomesGrow(s.log, s'.log);
    if c.quiet {
      forall k | 0 <= k < |s'.log| && s'.log[k] == Attempt(Priority(i), false)
        ensures Cleared(s', c', s'.log[..k])
      {
        if k < |s.log| {
          assert s'.log[..k] == s.log[..k] && s.log[k] == s'.log[k];
        } else {
          assert s'.log[..k] == s.log;
          ResumesCleared(s, i);
        }
      }
    }
  }

  ghost predicate SendersKnown(s: State) {
    forall k :: 0 <= k < |s.log| && s.log[k].sender.Priority? ==> s.log[k].sender.call < |s.calls|
  }

  lemma NewCallGuarded(s: State, e: FormattedEvent)
    requires Conserved(s) && Logged(s) && SendersKnown(s) && !s.destroyed
    ensures var s' := Next(s, EnqueueImmediate(e));
            |s'.calls| == |s.calls| + 1 && Guarded(s', |s.calls|)
  {
    var s', i := Next(s, EnqueueImmediate(e)), |s.calls|;
    FlushConserves(s);
    FlushLogs(s);
    assert s'.taken[..|s'.taken|] == s'.taken && s'.accepted[..|s.accepted|] == s.accepted;
    assert Flat(s'.taken) + [] == Flat(s'.taken);
    assert forall k :: 0 <= k < |s'.log| ==> s'.log[k] != Attempt(Priority(i), false);
  }

  lemma OnlyCallsAddCalls(s: State, step: Step)
    ensures |Next(s, step).calls| > |s.calls| ==>
              step.EnqueueImmediate? && !s.destroyed && |Next(s, step).calls| == |s.calls| + 1
  {
  }

  lemma NextKeepsInv(s: State, step: Step)
    requires Inv(s)
    ensures Inv(Next(s, step))
  {
    hide Next, Conserved, Logged, Guarded, SendersKnown;
    var s' := Next(s, step);
    OnlyCallsAddCalls(s, step);
    NextConserves(s, step);
    NextLogs(s, step);
    NextGrows(s, step);
    forall i | 0 <= i < |s'.calls| ensures Guarded(s', i) {
      if i < |s.calls| {
        StaysGuarded(s, s', i);
      } else {
        NewCallGuarded(s, step.event);
      }
    }
    NextSenders(s, step);
  }

  lemma NextSenders(s: State, step: Step)
    requires SendersKnown(s)
    ensures SendersKnown(Next(s, step))
  {
  }

  lemma {:induction false} RunKeepsInv(s: State, steps: seq<Step>)
    requires Inv(s)
    ensures Inv(Run(s, steps))
  {
    if steps != [] {
      RunKeepsInv(s, steps[..|steps| - 1]);
      NextKeepsInv(Run(s, steps[..|steps| - 1]), steps[|steps| - 1]);
    }
  }

  lemma InitInv(maxBatchSize: nat)
    ensures Inv(Init(maxBatchSize))
  {
  }

  // ---------------------------------------------------------------------------------------------
  // The guarantees, over every interleaving
  // ---------------------------------------------------------------------------------------------

  /**
   Order and conservation: after any steps, the accepted events are the batches taken so far followed by
   the buffer; the batches are attempted in order, one at a time, each at most twice; and the delivered
   events are the accepted ones less the batches dropped whole.
   */
  lemma EventsAreConserved(maxBatchSize: nat, steps: seq<Step>)
    ensures var s := Run(Init(maxBatchSize), steps);
            var v := Scan(s.log);
            && s.accepted == Flat(s.taken) + s.buffer
            && v.ordered && v.begun == |s.taken| && |s.taken| - 1 <= |v.outcomes| <= |s.taken|
            && s.delivered == Kept(s.taken, v.outcomes)
  {
    InitInv(maxBatchSize);
    RunKeepsInv(Init(maxBatchSize), steps);
  }

  /** Every event accepted so far is in a batch that has its outcome. */
  ghost predicate Settled(s: State) { |Scan(s.log).outcomes| == |s.taken| && s.buffer == [] }

  lemma DestroyedStep(s: State, step: Step)
    requires s.destroyed
    ensures var s' := Next(s, step);
            && s'.destroyed && s'.accepted == s.accepted
            && (s.buffer == [] ==> s'.buffer == [] && s'.taken == s.taken)
            && (!s.timer && step != Start ==> !s'.timer && s'.buffer == s.buffer)
  {
    hide MayResume;
  }

  /** Once destroyed, nothing is accepted, and an empty buffer stays empty. */
  lemma {:induction false} DestroyedStaysEmpty(s: State, steps: seq<Step>)
    requires s.destroyed && s.buffer == []
    ensures var s' := Run(s, steps);
            s'.destroyed && s'.buffer == [] && s'.accepted == s.accepted && s'.taken == s.taken
  {
    if steps != [] {
      hide Next;
      var init := steps[..|steps| - 1];
      DestroyedStaysEmpty(s, init);
      DestroyedStep(Run(s, init), steps[|steps| - 1]);
    }
  }

  /** Without a restarted timer, what a destroyed batcher holds stays where it is. */
  lemma {:induction false} DestroyedWithoutTimer(s: State, steps: seq<Step>)
    requires s.destroyed && !s.timer && Start !in steps
    ensures var s' := Run(s, steps);
            s'.destroyed && !s'.timer && s'.buffer == s.buffer
  {
    if steps != [] {
      hide Next;
      var init := steps[..|steps| - 1];
      assert steps == init + [steps[|steps| - 1]];
      DestroyedWithoutTimer(s, init);
      DestroyedStep(Run(s, init), steps[|steps| - 1]);
    }
  }

  /**
   Shutdown: destroying empties the buffer for good exactly when no flush is in flight or there is nothing
   to flush; otherwise the buffered events are stranded unless the timer is started again.
   */
  lemma ShutdownEmptiesUnlessFlushing(s: State, steps: seq<Step>)
    requires Inv(s) && !s.destroyed && Start !in steps
    ensures Run(Next(s, Destroy), steps).buffer == [] <==> !s.flushing || s.buffer == []
  {
    DestroyedWithoutTimer(Next(s, Destroy), steps);
  }

  /**
   Whatever happens after a batcher is destroyed with no flush in flight: nothing more is accepted, everything
   accepted is in batches attempted in order, what is delivered is that less whole dropped batches, and once the last
   flush has returned every accepted event has its outcome: sent, or dropped after two attempts.
   */
  lemma ShutdownSettles(s: State, steps: seq<Step>)
    requires Inv(s) && !s.destroyed && !s.flushing
    ensures var s' := Run(Next(s, Destroy), steps);
            && s'.buffer == [] && s'.accepted == s.accepted == Flat(s'.taken)
            && Scan(s'.log).ordered && Scan(s'.log).begun == |s'.taken|
            && |Scan(s'.log).outcomes| <= |s'.taken| && s'.delivered == Kept(s'.taken, Scan(s'.log).outcomes)
            && (s'.flight == None ==> Settled(s'))
  {
    var d := Next(s, Destroy);
    assert d.destroyed && d.buffer == [] && d.accepted == s.accepted;
    hide Next, Run, Flush, Guarded;
    NextKeepsInv(s, Destroy);
    RunKeepsInv(d, steps);
    DestroyedStaysEmpty(d, steps);
    assert Flat(Run(d, steps).taken) + [] == Flat(Run(d, steps).taken);
  }

  /** And it can always come to that: four steps end the last flush. */
  lemma ShutdownCanSettle(s: State, first: bool, second: bool)
    requires Inv(s) && !s.destroyed && !s.flushing
    ensures Settled(Run(Next(s, Destroy), [Settle(first), RetryDelay, Settle(second), FlushReturns]))
  {
    var steps := [Settle(first), RetryDelay, Settle(second), FlushReturns];
    NextKeepsInv(s, Destroy);
    FlightHasBatch(Next(s, Destroy));
    FlightEnds(Next(s, Destroy), first, second);
    ShutdownSettles(s, steps);
  }

  /** A flight after a send settles, after the delay before the second attempt, and after the flush returns. */
  function SettledStage(f: Option<Stage>, ok: bool): Option<Stage> {
    if f.Some? && f.value.Sending? then Some(AfterSettle(f.value, ok)) else f
  }

  function RetriedStage(f: Option<Stage>): Option<Stage> { if f == Some(Backoff) then Some(Sending(true)) else f }

  function ReturnedStage(f: Option<Stage>): Option<Stage> { if f == Some(Finishing) then None else f }

  lemma StagesEnd(f: Option<Stage>, first: bool, second: bool)
    ensures ReturnedStage(SettledStage(RetriedStage(SettledStage(f, first)), second)) == None
  {
  }

  /** Four steps end any flight, whatever stage it is in and whatever its sends come to. */
  lemma FlightEnds(s: State, first: bool, second: bool)
    requires s.flight == None || |s.taken| > 0
    ensures Run(s, [Settle(first), RetryDelay, Settle(second), FlushReturns]).flight == None
  {
    hide Next, Run, SettledStage, RetriedStage, ReturnedStage;
    RunFour(s, Settle(first), RetryDelay, Settle(second), FlushReturns);
    var s1 := Next(s, Settle(first));
    var s2 := Next(s1, RetryDelay);
    FlightStages(s, first);
    FlightStages(s1, first);
    FlightStages(s2, second);
    FlightStages(Next(s2, Settle(second)), second);
    StagesEnd(s.flight, first, second);
  }

  lemma FlightStages(s: State, ok: bool)
    requires s.flight == None || |s.taken| > 0
    ensures Next(s, Settle(ok)).taken == s.taken && Next(s, Settle(ok)).flight == SettledStage(s.flight, ok)
    ensures Next(s, RetryDelay).taken == s.taken && Next(s, RetryDelay).flight == RetriedStage(s.flight)
    ensures Next(s, FlushReturns).flight == ReturnedStage(s.flight)
    ensures s.flight == None ==> Next(s, Settle(ok)).flight == None && Next(s, RetryDelay).flight == None
  {
  }

  lemma RunOne(s: State, step: Step)
    ensures Run(s, [step]) == Next(s, step)
  {
    assert [step][..0] == [];
  }

  lemma RunFour(s: State, a: Step, b: Step, c: Step, d: Step)
    ensures Run(s, [a, b, c, d]) == Next(Next(Next(Next(s, a), b), c), d)
  {
    hide Next;
    assert [a, b, c, d][..3] == [a, b, c] && [a, b, c][..2] == [a, b] && [a, b][..1] == [a] && [a][..0] == [];
    assert Run(s, [a]) == Next(s, a);
    assert Run(s, [a, b]) == Next(Next(s, a), b);
    assert Run(s, [a, b, c]) == Next(Next(Next(s, a), b), c);
  }

  /** At position `k` the log shows call `i`'s first attempt after the outcome of every event in `events`. */
  ghost predicate FirstAttemptComesAfter(s: State, i: nat, events: seq<FormattedEvent>) {
    forall k :: 0 <= k < |s.log| && s.log[k] == Attempt(Priority(i), false) ==>
      |Scan(s.log[..k]).outcomes| <= |s.taken| && events <= Flat(s.taken[..|Scan(s.log[..k]).outcomes|])
  }

  lemma {:induction false} FlatGrows(batches: seq<seq<FormattedEvent>>, m: nat, n: nat)
    requires m <= n <= |batches|
    ensures Flat(batches[..m]) <= Flat(batches[..n])
  {
    if m < n {
      assert batches[..n][..n - 1] == batches[..n - 1];
      FlatGrows(batches, m, n - 1);
    }
  }

  lemma {:induction false} RunGrows(s: State, steps: seq<Step>)
    ensures s.taken <= Run(s, steps).taken && s.accepted <= Run(s, steps).accepted
    ensures s.log <= Run(s, steps).log && |s.calls| <= |Run(s, steps).calls|
    ensures forall i :: 0 <= i < |s.calls| ==> Run(s, steps).calls[i].(stage := s.calls[i].stage) == s.calls[i]
  {
    if steps != [] {
      RunGrows(s, steps[..|steps| - 1]);
      NextGrows(Run(s, steps[..|steps| - 1]), steps[|steps| - 1]);
    }
  }

  lemma {:induction false} PrefixOutcomes(log: seq<Record>, k: nat)
    requires k <= |log|
    ensures |Scan(log[..k]).outcomes| <= |Scan(log).outcomes|
  {
    if k < |log| {
      var init := log[..|log| - 1];
      assert init[..k] == log[..k];
      PrefixOutcomes(init, k);
      OutcomesGrow(init, log);
    } else {
      assert log[..k] == log;
    }
  }

  /**
   Priority: when no flush is in flight at the call, every event accepted before it has its outcome before
   the priority event's first attempt, whatever happens in between.
   */
  lemma PriorityWaitsItsTurn(s: State, e: FormattedEvent, steps: seq<Step>)
    requires Inv(s) && !s.destroyed && !s.flushing
    ensures FirstAttemptComesAfter(Run(Next(s, EnqueueImmediate(e)), steps), |s.calls|, s.accepted)
  {
    var i, called := |s.calls|, Next(s, EnqueueImmediate(e));
    NextKeepsInv(s, EnqueueImmediate(e));
    RunKeepsInv(called, steps);
    RunGrows(called, steps);
    var s' := Run(called, steps);
    var c := s'.calls[i];
    assert c.quiet && c.accepted == |s.accepted|;
    assert Guarded(s', i);
    assert s'.accepted[..c.accepted] == s.accepted by {
      assert called.accepted == s.accepted && called.accepted <= s'.accepted;
    }
    forall k | 0 <= k < |s'.log| && s'.log[k] == Attempt(Priority(i), false)
      ensures |Scan(s'.log[..k]).outcomes| <= |s'.taken| && s.accepted <= Flat(s'.taken[..|Scan(s'.log[..k]).outcomes|])
    {
      PrefixOutcomes(s'.log, k);
      FlatGrows(s'.taken, c.barrier, |Scan(s'.log[..k]).outcomes|);
    }
  }

  /** If everything accepted before the call already has its outcome, the order holds even during a flush. */
  lemma SettledBeforeTheCall(s: State, e: FormattedEvent, steps: seq<Step>)
    requires Inv(s) && !s.destroyed && Settled(s)
    ensures FirstAttemptComesAfter(Run(Next(s, EnqueueImmediate(e)), steps), |s.calls|, s.accepted)
  {
    var i, called := |s.calls|, Next(s, EnqueueImmediate(e));
    NextKeepsInv(s, EnqueueImmediate(e));
    RunKeepsInv(called, steps);
    RunGrows(called, steps);
    var s' := Run(called, steps);
    assert called.log == s.log && called.taken == s.taken;
    assert s'.taken[..|s.taken|] == s.taken && Flat(s.taken) + [] == s.accepted;
    assert forall j :: 0 <= j < |s.log| ==> s'.log[j] == s.log[j] && s.log[j] != Attempt(Priority(i), false);
    forall k | 0 <= k < |s'.log| && s'.log[k] == Attempt(Priority(i), false)
      ensures |Scan(s'.log[..k]).outcomes| <= |s'.taken| && s.accepted <= Flat(s'.taken[..|Scan(s'.log[..k]).outcomes|])
    {
      assert s'.log[..k][..|s.log|] == s.log;
      PrefixOutcomes(s'.log[..k], |s.log|);
      PrefixOutcomes(s'.log, k);
      FlatGrows(s'.taken, |s.taken|, |Scan(s'.log[..k]).outcomes|);
    }
  }

  lemma {:induction false} FlatShorter(batches: seq<seq<FormattedEvent>>, n: nat)
    requires n <= |batches| && forall b :: 0 <= b < |batches| ==> batches[b] != []
    ensures |Flat(batches[..n])| <= |Flat(batches)|
    ensures n < |batches| ==> |Flat(batches[..n])| < |Flat(batches)|
  {
    if n < |batches| {
      var init := batches[..|batches| - 1];
      assert init[..n] == batches[..n];
      FlatShorter(init, n);
    } else {
      assert batches[..n] == batches;
    }
  }

  /** During a flush, with something accepted still open, the priority event can be sent first. */
  lemma PriorityCanOvertake(s: State, e: FormattedEvent)
    requires Inv(s) && !s.destroyed && s.flushing && !Settled(s)
    ensures !FirstAttemptComesAfter(Run(Next(s, EnqueueImmediate(e)), [CallResumes(|s.calls|)]), |s.calls|, s.accepted)
  {
    var i, called := |s.calls|, Next(s, EnqueueImmediate(e));
    RunOne(called, CallResumes(i));
    var s' := Next(called, CallResumes(i));
    var k := |s.log|;
    assert s'.log == s.log + [Attempt(Priority(i), false)] && s'.log[..k] == s.log && s'.taken == s.taken;
    FlatShorter(s.taken, |Scan(s.log).outcomes|);
    assert |Flat(s.taken[..|Scan(s.log).outcomes|])| < |s.accepted|;
    assert s'.log[k] == Attempt(Priority(i), false);
  }

  /**
   The exact guarantee of the priority path: over all that may happen next, the priority event comes after
   every event accepted before it if and only if, at the call, no flush is in flight or none of those
   events is open.
   */
  lemma PriorityOrderIsExact(s: State, e: FormattedEvent)
    requires Inv(s) && !s.destroyed
    ensures (forall steps :: FirstAttemptComesAfter(Run(Next(s, EnqueueImmediate(e)), steps), |s.calls|, s.accepted))
       <==> !s.flushing || Settled(s)
  {
    if !s.flushing || Settled(s) {
      forall steps ensures FirstAttemptComesAfter(Run(Next(s, EnqueueImmediate(e)), steps), |s.calls|, s.accepted) {
        if !s.flushing {
          PriorityWaitsItsTurn(s, e, steps);
        } else {
          SettledBeforeTheCall(s, e, steps);
        }
      }
    } else {
      PriorityCanOvertake(s, e);
    }
  }

  // ---------------------------------------------------------------------------------------------
  // Capacity and timer
  // ---------------------------------------------------------------------------------------------

  /**
   Accepting an event takes a batch exactly when the buffer is then at capacity and no flush is in flight; so
   right after it the buffer is below capacity, or a flush is in flight.
   */
  lemma EnqueueFlushesAtCapacity(s: State, e: FormattedEvent)
    requires Inv(s) && !s.destroyed
    ensures var s' := Next(s, Enqueue(e));
            && (s'.taken != s.taken <==> !s.flushing && |s.buffer| + 1 >= s.maxBatchSize)
            && (s'.taken != s.taken ==> s'.taken == s.taken + [s.buffer + [e]] && s'.buffer == [])
            && (s'.flushing || |s'.buffer| < s.maxBatchSize)
  {
    hide Scan, Kept, Flat, Guarded;
    var pushed := s.(buffer := s.buffer + [e], accepted := s.accepted + [e]);
    assert Next(s, Enqueue(e)) == if |pushed.buffer| >= s.maxBatchSize then Flush(pushed) else pushed;
  }

  /** A buffer can stay at capacity with no flush in flight: events that come during a flush wait for the next one. */
  lemma BufferCanStayFull(a: FormattedEvent, b: FormattedEvent)
    ensures var s := Run(Init(1), [Enqueue(a), Enqueue(b), Settle(true), FlushReturns]);
            !s.flushing && s.buffer == [b] && |s.buffer| >= s.maxBatchSize
  {
    RunFour(Init(1), Enqueue(a), Enqueue(b), Settle(true), FlushReturns);
    assert [] + [a] == [a] && [] + [b] == [b];
    var s1 := Next(Init(1), Enqueue(a));
    assert s1.taken == [[a]] && s1.flight == Some(Sending(false)) && s1.buffer == [];
    var s2 := Next(s1, Enqueue(b));
    assert s2.buffer == [b] && s2.taken == s1.taken && s2.flight == s1.flight;
  }

  /**
   While the timer runs, nothing stays in the buffer: whatever happens between an event's acceptance and a tick that
   finds no flush in flight, that tick has everything accepted so far in batches, and there it stays.
   */
  lemma TickTakesEverything(s: State, steps: seq<Step>, more: seq<Step>)
    requires Inv(s) && Run(s, steps).timer && Run(s, steps).flight == None
    ensures var ticked := Next(Run(s, steps), Tick);
            && ticked.buffer == [] && s.accepted <= ticked.accepted == Flat(ticked.taken)
            && s.accepted <= Flat(Run(ticked, more).taken)
  {
    hide Next, Run, Guarded, Logged;
    var ticked := Next(Run(s, steps), Tick);
    RunKeepsInv(s, steps);
    RunGrows(s, steps);
    TickEmpties(Run(s, steps));
    NextKeepsInv(Run(s, steps), Tick);
    assert Flat(ticked.taken) + [] == Flat(ticked.taken);
    RunGrows(ticked, more);
    var taken := Run(ticked, more).taken;
    FlatGrows(taken, |ticked.taken|, |taken|);
    assert taken[..|ticked.taken|] == ticked.taken && taken[..|taken|] == taken;
  }

  /** And such a tick can always come: from any reachable state with the timer running, five steps away. */
  lemma TimerEmptiesBuffer(s: State, first: bool, second: bool)
    requires Inv(s) && s.timer
    ensures var four := [Settle(first), RetryDelay, Settle(second), FlushReturns];
            && Run(s, four).timer && Run(s, four).flight == None
            && Run(s, four).accepted == s.accepted
            && Next(Run(s, four), Tick).buffer == []
  {
    FlightHasBatch(s);
    FlightEnds(s, first, second);
    RunKeepsInv(s, [Settle(first), RetryDelay, Settle(second), FlushReturns]);
    RunFour(s, Settle(first), RetryDelay, Settle(second), FlushReturns);
    var s1 := Next(s, Settle(first));
    var s2 := Next(s1, RetryDelay);
    var s3 := Next(s2, Settle(second));
    SendingKeepsTimer(s, first);
    SendingKeepsTimer(s1, first);
    SendingKeepsTimer(s2, second);
    SendingKeepsTimer(s3, second);
    TickEmpties(Run(s, [Settle(first), RetryDelay, Settle(second), FlushReturns]));
    hide Run, Next, Guarded, Logged;
  }

  lemma SendingKeepsTimer(s: State, ok: bool)
    ensures Next(s, Settle(ok)).timer == s.timer && Next(s, Settle(ok)).accepted == s.accepted
    ensures Next(s, RetryDelay).timer == s.timer && Next(s, RetryDelay).accepted == s.accepted
    ensures Next(s, FlushReturns).timer == s.timer && Next(s, FlushReturns).accepted == s.accepted
  {
  }

  lemma TickEmpties(s: State)
    requires Inv(s) && s.timer && s.flight == None
    ensures Next(s, Tick).buffer == [] && Next(s, Tick).accepted == s.accepted
  {
  }

  // ---------------------------------------------------------------------------------------------
  // The batcher itself
  // ---------------------------------------------------------------------------------------------

  lemma FlightHasBatch(s: State)
    requires Inv(s)
    ensures s.flight.Some? ==> |s.taken| > 0
  {
  }

  /**
   The batcher with its fields. Each method is what runs between two suspension points: the synchronous
   methods whole, and of the asynchronous ones the part up to their first `await` and each continuation.
   */
  class Batcher {
    const maxBatchSize: nat
    var buffer: seq<FormattedEvent>
    var timer: bool
    var flushing: bool
    var destroyed: bool

    // The suspended methods.
    var flight: Option<Stage>
    var flushes: nat
    var calls: seq<Call>

    // What an observer has seen.
    var accepted: seq<FormattedEvent>
    ghost var taken: seq<seq<FormattedEvent>>
    ghost var delivered: seq<FormattedEvent>
    ghost var log: seq<Record>

    ghost function Shown(): State
      reads this
    {
      State(maxBatchSize, buffer, timer, flushing, destroyed, flight, calls, accepted, taken, delivered, log)
    }

    ghost predicate Valid()
      reads this
    {
      Inv(Shown()) && flushes == |taken|
    }

    constructor (maxBatchSize: nat)
      ensures Valid() && Shown() == Init(maxBatchSize)
    {
      this.maxBatchSize := maxBatchSize;
      buffer, timer, flushing, destroyed := [], false, false, false;
      flight, flushes, calls := None, 0, [];
      accepted, taken, delivered, log := [], [], [], [];
      new;
      InitInv(maxBatchSize);
    }

    method Start()
      requires Valid()
      modifies this
      ensures Valid() && Shown() == Next(old(Shown()), Step.Start)
    {
      hide Inv, MayResume;
      NextKeepsInv(Shown(), Step.Start);
      if timer {
        return;
      }
      timer := true;
    }

    method Stop()
      requires Valid()
      modifies this
      ensures Valid() && Shown() == Next(old(Shown()), Step.Stop)
    {
      hide Inv, MayResume;
      NextKeepsInv(Shown(), Step.Stop);
      if timer {
        timer := false;
      }
    }

    /** Takes the whole buffer as one batch, unless it is empty or a flush is in flight. */
    method FlushNow()
      requires flushes == |taken|
      modifies this
      ensures Shown() == Flush(old(Shown())) && flushes == |taken|
    {
      if |buffer| == 0 || flushing {
        return;
      }
      flushing := true;
      ghost var batch := buffer;
      buffer := [];
      flight := Some(Sending(false));
      log := log + [Attempt(Buffered(|taken|), false)];
      taken := taken + [batch];
      flushes := flushes + 1;
    }

    method TimerFires()
      requires Valid()
      modifies this
      ensures Valid() && Shown() == Next(old(Shown()), Step.Tick)
    {
      hide Inv, MayResume;
      NextKeepsInv(Shown(), Step.Tick);
      if timer {
        FlushNow();
      }
    }

    method Enqueue(e: FormattedEvent)
      requires Valid()
      modifies this
      ensures Valid() && Shown() == Next(old(Shown()), Step.Enqueue(e))
    {
      hide Inv, MayResume;
      NextKeepsInv(Shown(), Step.Enqueue(e));
      if destroyed {
        return;
      }
      buffer := buffer + [e];
      accepted := accepted + [e];
      if |buffer| >= maxBatchSize {
        FlushNow();
      }
    }

    method EnqueueImmediate(e: FormattedEvent)
      requires Valid()
      modifies this
      ensures Valid() && Shown() == Next(old(Shown()), Step.EnqueueImmediate(e))
    {
      hide Inv, MayResume;
      NextKeepsInv(Shown(), Step.EnqueueImmediate(e));
      if destroyed {
        return;
      }
      var before, quiet := flushes, !flushing;
      FlushNow();
      var waits := if flushes > before then Some(before) else None;
      calls := calls + [Call(e, Waiting(waits), |accepted|, flushes, quiet)];
    }

    method Destroy()
      requires Valid()
      modifies this
      ensures Valid() && Shown() == Next(old(Shown()), Step.Destroy)
    {
      hide Inv, MayResume;
      NextKeepsInv(Shown(), Step.Destroy);
      if destroyed {
        return;
      }
      destroyed := true;
      timer := false;
      FlushNow();
    }

    /** The flush's pending send settles: done, or the first failure, which is retried after a delay. */
    method Settle(ok: bool)
      requires Valid()
      modifies this
      ensures Valid() && Shown() == Next(old(Shown()), Step.Settle(ok))
    {
      FlightHasBatch(Shown());
      hide Inv, MayResume;
      NextKeepsInv(Shown(), Step.Settle(ok));
      if flight.None? || !flight.value.Sending? {
        return;
      }
      var second := flight.value.second;
      flight := Some(AfterSettle(Sending(second), ok));
      if !ok && !second {
        log := log + [Refused(Buffered(|taken| - 1))];
      } else {
        log := log + [Resolved(Buffered(|taken| - 1), ok)];
        if ok {
          delivered := delivered + taken[|taken| - 1];
        }
      }
    }

    method RetryDelay()
      requires Valid()
      modifies this
      ensures Valid() && Shown() == Next(old(Shown()), Step.RetryDelay)
    {
      FlightHasBatch(Shown());
      hide Inv, MayResume;
      NextKeepsInv(Shown(), Step.RetryDelay);
      if flight == Some(Backoff) {
        flight := Some(Sending(true));
        log := log + [Attempt(Buffered(|taken| - 1), true)];
      }
    }

    method FlushReturns()
      requires Valid()
      modifies this
      ensures Valid() && Shown() == Next(old(Shown()), Step.FlushReturns)
    {
      hide Inv, MayResume;
      NextKeepsInv(Shown(), Step.FlushReturns);
      if flight == Some(Finishing) {
        flight := None;
        flushing := false;
      }
    }

    /** The priority path goes on once the flush it started, if any, has returned. */
    method CallResumes(i: nat)
      requires Valid()
      modifies this
      ensures Valid() && Shown() == Next(old(Shown()), Step.CallResumes(i))
    {
      hide Inv;
      NextKeepsInv(Shown(), Step.CallResumes(i));
      if i < |calls| && calls[i].stage.Waiting? {
        var flush := calls[i].stage.flush;
        if flush.None? || flight.None? || flush.value + 1 < flushes {
          calls := calls[i := calls[i].(stage := Active(Sending(false)))];
          log := log + [Attempt(Priority(i), false)];
        }
      }
    }

    method CallSettles(i: nat, ok: bool)
      requires Valid()
      modifies this
      ensures Valid() && Shown() == Next(old(Shown()), Step.CallSettles(i, ok))
    {
      hide Inv, MayResume;
      NextKeepsInv(Shown(), Step.CallSettles(i, ok));
      if i < |calls| && calls[i].stage.Active? && calls[i].stage.stage.Sending? {
        if !ok && !calls[i].stage.stage.second {
          calls := calls[i := calls[i].(stage := Active(Backoff))];
          log := log + [Refused(Priority(i))];
        } else {
          calls := calls[i := calls[i].(stage := Returned)];
          log := log + [Resolved(Priority(i), ok)];
        }
      }
    }

    method CallRetryDelay(i: nat)
      requires Valid()
      modifies this
      ensures Valid() && Shown() == Next(old(Shown()), Step.CallRetryDelay(i))
    {
      hide Inv, MayResume;
      NextKeepsInv(Shown(), Step.CallRetryDelay(i));
      if i < |calls| && calls[i].stage == Active(Backoff) {
        calls := calls[i := calls[i].(stage := Active(Sending(true)))];
        log := log + [Attempt(Priority(i), true)];
      }
    }
  }
}
