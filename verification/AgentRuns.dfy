/**
 The guarantees of the agent loop, one by one, over all runs: any context, prompts, replies, tool
 outcomes and queue activity, after any number of turns.
 */
module AgentRuns {
  import opened Wrappers
  import opened Transcript
  import opened EventLog
  import opened MessageQueues
  import opened RunTrace
  import opened ToolExecution
  import opened ToolTurns
  import opened AgentLoop
  import opened AgentLoopTheorems

  /** How a run is started: by a prompt, or (skipping the first poll) from a drained steering batch. */
  datatype Launch = Launch(origin: Origin, queues: Queues, skipPoll: bool, env: seq<EnvAction>) {
    ghost predicate Valid() { Starts(origin, queues) }

    function Start(): Run { Begin(origin.context, origin.prompts, queues, skipPoll, env) }
  }

  function RunOf(l: Launch, c: Config, turns: seq<TurnScript>, n: nat): Run
    requires n <= |turns|
  {
    RunAfter(c, l.Start(), turns, n)
  }

  lemma RunOfKept(l: Launch, c: Config, turns: seq<TurnScript>, n: nat)
    requires l.Valid() && n <= |turns|
    ensures Kept(l.origin, c, RunOf(l, c, turns, n))
  {
    BeginKept(l.origin, c, l.queues, l.skipPoll, l.env);
    RunKept(l.origin, c, l.Start(), turns, n);
  }

  /**
   Pairing: every transcript handed to the model is well paired, and so is the transcript the run
   leaves, except that the last message of a failed run may be unanswered.
   */
  lemma TranscriptsAreWellPaired(l: Launch, c: Config, turns: seq<TurnScript>, n: nat)
    requires l.Valid() && n <= |turns| && PairingApplies(l.origin, c, RunOf(l, c, turns, n).acts)
    ensures var r := RunOf(l, c, turns, n);
            && (forall i :: 0 <= i < |r.acts| && r.acts[i].Asked? ==> WellPaired(r.acts[i].transcript))
            && (!r.status.Failed? ==> WellPaired(r.messages))
            && (r.status.Failed? ==> |r.messages| > 0 && WellPaired(r.messages[..|r.messages| - 1]))
  {
    RunOfKept(l, c, turns, n);
  }

  /**
   Agreement of the copies: the loop's context is where it started plus what the run added, and the
   replica that replays the log ends with exactly those messages appended. Only the stop message of a
   forced stop is missing from the loop's context.
   */
  lemma CopiesAgree(l: Launch, c: Config, turns: seq<TurnScript>, n: nat)
    requires l.Valid() && n <= |turns|
    ensures var r := RunOf(l, c, turns, n);
            var copy := Replay(l.origin.replica, r.log);
            && copy.messages == l.origin.replica.messages + r.added
            && copy.streamMessage == None && copy.pendingToolCalls == {}
            && copy.isStreaming == r.status.Running?
            && l.origin.context + r.added == r.messages + if r.status.Stopped? then [StopMessage()] else []
  {
    RunOfKept(l, c, turns, n);
    var r := RunOf(l, c, turns, n);
    assert r.messages + [] == r.messages;
    if r.status.Running? && r.firstTurn {
      assert Replay(l.origin.replica, r.log).pendingToolCalls == {};
    }
  }

  /**
   Grammar: the log of an ended run is one complete sentence that ends with the announcement of what the
   run added; the trailing message of a forced stop is the one exception to the turn structure.
   */
  lemma LogIsGrammatical(l: Launch, c: Config, turns: seq<TurnScript>, n: nat)
    requires l.Valid() && n <= |turns|
    ensures var r := RunOf(l, c, turns, n);
            && (!r.status.Running? ==> Parse(r.log) == Closed(r.status.Stopped?))
            && (!r.status.Running? ==> |r.log| > 0 && r.log[|r.log| - 1] == AgentEnd(r.added))
            && (r.status.Running? ==> Parse(r.log) == if r.firstTurn then Turn(multiset{}) else Between)
  {
    RunOfKept(l, c, turns, n);
  }

  /**
   Queue conservation: on each queue, the arrivals never cleared or drained are, in order, the messages
   handed out earlier, the batches this run polled, and those still queued.
   */
  lemma QueuesAreFifo(l: Launch, c: Config, turns: seq<TurnScript>, n: nat)
    requires l.Valid() && n <= |turns|
    ensures var r := RunOf(l, c, turns, n);
            var before, after := l.origin.ledgers, LedgersAfter(l.origin.ledgers, r.acts);
            && Messages(Survivors(after.steering.arrivals))
               == Delivered(before.steering) + SteerBatches(r.acts) + Messages(r.queues.steering.items)
            && Messages(Survivors(after.followUp.arrivals))
               == Delivered(before.followUp) + FollowBatches(r.acts) + Messages(r.queues.followUp.items)
  {
    RunOfKept(l, c, turns, n);
    FedIsFifo(l.origin.ledgers, RunOf(l, c, turns, n).acts, RunOf(l, c, turns, n).queues);
  }

  /**
   Delivery: what the run added from outside is its prompts followed by every batch it polled, each
   message once and in order. A running run still holds the last batch; an ended one holds nothing, with
   the one exception of a batch that a forced stop leaves behind.
   */
  lemma PolledMessagesAreInjected(l: Launch, c: Config, turns: seq<TurnScript>, n: nat)
    requires l.Valid() && n <= |turns| && OutsideIsUserSide(l.origin, RunOf(l, c, turns, n).acts)
    ensures var r := RunOf(l, c, turns, n);
            var all := l.origin.prompts + Batches(r.acts);
            && (r.status.Running? ==> FromOutside(r.added) + r.pending == all)
            && (!r.status.Running? ==> (FromOutside(r.added) == all <==> !(r.status.Stopped? && r.status.lost != [])))
            && (r.status.Stopped? ==> FromOutside(r.added) + r.status.lost == all)
  {
    RunOfKept(l, c, turns, n);
    var r := RunOf(l, c, turns, n);
    assert FromOutside(r.added) + [] == FromOutside(r.added);
    if r.status.Stopped? && r.status.lost != [] {
      assert |FromOutside(r.added) + r.status.lost| > |FromOutside(r.added)|;
    }
  }

  /**
   The failure cap: at every turn head the counter is below the cap and counts the turns, since the last
   turn without a preparation failure, in which every call failed in preparation. Only the run whose
   count reaches the cap is stopped.
   */
  lemma FailureCapIsExact(l: Launch, c: Config, turns: seq<TurnScript>, n: nat) returns (since: nat)
    requires l.Valid() && n <= |turns|
    ensures var r := RunOf(l, c, turns, n);
            && since <= |r.acts| && (since > 0 ==> IsClean(r.acts[since - 1]))
            && (forall i :: since <= i < |r.acts| ==> !IsClean(r.acts[i]))
            && r.failures == Count(r.acts[since..], IsAllFailed)
            && r.failures <= MAX_FAILURES && (r.status.Stopped? <==> r.failures == MAX_FAILURES)
  {
    RunOfKept(l, c, turns, n);
    since := StreakMeaning(RunOf(l, c, turns, n).acts);
  }

  /**
   The turn bound: after its first model call, a run pays for every further one with a tool turn, a
   steering batch or a follow-up batch; and it looks for follow-ups only straight after a steering poll
   that returned nothing.
   */
  lemma ModelCallsArePaidFor(l: Launch, c: Config, turns: seq<TurnScript>, n: nat)
    requires l.Valid() && n <= |turns|
    ensures var r := RunOf(l, c, turns, n);
            && Count(r.acts, IsAsk)
               <= 1 + Count(r.acts, IsExecution) + Count(r.acts, IsSteerBatch) + Count(r.acts, IsFollowBatch)
            && FollowsOnlyWhenIdle(r.acts)
  {
    RunOfKept(l, c, turns, n);
  }

  /** Termination: a run that has not ended after `n` turns has paid for `n` further model calls. */
  lemma RunsEndWithoutMoreToDo(l: Launch, c: Config, turns: seq<TurnScript>, n: nat)
    requires l.Valid() && n <= |turns| && Paid(RunOf(l, c, turns, n).acts) < n
    ensures !RunOf(l, c, turns, n).status.Running?
  {
    RunOfKept(l, c, turns, n);
    AsksPerTurn(l, c, turns, n);
  }

  lemma BeginAsksNothing(l: Launch)
    ensures Count(l.Start().acts, IsAsk) == 0
  {
    CountSnoc([], l.Start().acts[0], IsAsk);
    assert [] + l.Start().acts == l.Start().acts;
  }

  lemma {:induction false} AsksPerTurn(l: Launch, c: Config, turns: seq<TurnScript>, n: nat)
    requires l.Valid() && n <= |turns|
    ensures RunOf(l, c, turns, n).status.Running? ==> Count(RunOf(l, c, turns, n).acts, IsAsk) == n
  {
    hide TakeTurn, Kept, Count, Begin;
    if n == 0 {
      BeginAsksNothing(l);
    } else {
      AsksPerTurn(l, c, turns, n - 1);
      var r := RunOf(l, c, turns, n - 1);
      if r.status.Running? {
        RunOfKept(l, c, turns, n - 1);
        TakeTurnAsksOnce(l.origin, c, r, turns[n - 1]);
      }
    }
  }

  lemma CloseAsks(r: Run, m: Message, results: seq<Message>, steering: seq<Message>, more: bool, t: TurnScript)
    ensures Count(Close(r, m, results, steering, more, t).acts, IsAsk) == Count(r.acts, IsAsk)
  {
    hide PerformAll, Batch, Rest, Count;
    var ended := r.(log := r.log + [TurnEnd(m, results)]);
    var steered := Steered(ended, steering, t.turnEnv);
    if steering == [] {
      Snoc(r.acts, SteerPoll(t.turnEnv, steered.pending));
    }
    Snoc(steered.acts, FollowPoll(t.followEnv, Batch(PerformAll(steered.queues, t.followEnv).followUp)));
  }

  lemma ToolTurnAsks(o: Origin, r: Run, w: Work, m: Message, t: TurnScript)
    requires Drawn(o.ledgers, r.acts, w)
    ensures Count(Halt(Collect(r, w), m, w.results, w.steering).acts, IsAsk) == Count(r.acts, IsAsk)
    ensures Count(Close(Collect(r, w), m, w.results, w.steering, true, t).acts, IsAsk) == Count(r.acts, IsAsk)
  {
    Snoc(w.acts, Executed(|w.results|, w.failures));
    Snoc(Collect(r, w).acts, ForceStop(w.steering));
    CloseAsks(Collect(r, w), m, w.results, w.steering, true, t);
  }

  lemma ConcludeAsks(o: Origin, c: Config, r: Run, t: TurnScript)
    requires Fed(o.ledgers, r.acts, r.queues)
    ensures Count(Conclude(c, r, t).acts, IsAsk) == Count(r.acts, IsAsk)
  {
    hide Close, Collect, Halt, Execute, Count;
    var m, jobs := t.reply.Final(), t.reply.Jobs();
    if !m.stop.Failed() {
      if jobs == [] && m.stop != PauseTurn {
        CloseAsks(r, m, [], [], false, t);
      } else if c.externalTools {
        CloseAsks(r.(log := r.log + ExternalEvents(jobs)), m, [], [], false, t);
      } else {
        ExecuteDrawn(o.ledgers, StartWork(r), jobs, c.sequential, t.toolsEnv);
        ToolTurnAsks(o, r, Execute(StartWork(r), jobs, c.sequential, t.toolsEnv), m, t);
      }
    }
  }

  lemma TakeTurnAsksOnce(o: Origin, c: Config, r: Run, t: TurnScript)
    requires Kept(o, c, r) && r.status.Running?
    ensures Count(TakeTurn(c, r, t).acts, IsAsk) == Count(r.acts, IsAsk) + 1
  {
    OpenSound(o, c, r);
    RespondSound(o, c, Open(r), t.reply);
    Snoc(r.acts, Asked(Open(r).messages));
    hide Conclude;
    ConcludeAsks(o, c, Respond(Open(r), t.reply), t);
  }

  // ---------------------------------------------------------------------------------------------
  // Tool events
  // ---------------------------------------------------------------------------------------------

  function OpenCalls(p: Phase): multiset<Key> {
    match p
    case Turn(open) => open
    case InMessage(open) => open
    case _ => multiset{}
  }

  /** The keys of the calls whose end a log announces, in order. */
  function Ended(log: seq<Event>): seq<Key> {
    if log == [] then []
    else
      var e := log[|log| - 1];
      if e.ToolEnd? then Ended(log[..|log| - 1]) + [e.key] else Ended(log[..|log| - 1])
  }

  /**
   In any log the grammar accepts so far, the calls started are the calls ended plus the open ones, and
   the replica tracks no call that is not open. Prefixes are accepted too, so the same holds of them and
   each end follows a start of its own, even when call ids repeat.
   */
  lemma {:induction false} StartsMatchEnds(r: Replica, log: seq<Event>)
    requires Parse(log) != Bad && r.pendingToolCalls == {}
    ensures multiset(CallKeys(Started(log))) == multiset(Ended(log)) + OpenCalls(Parse(log))
    ensures forall id :: id in Replay(r, log).pendingToolCalls ==> exists key :: key in OpenCalls(Parse(log)) && key.0 == id
  {
    if log == [] {
      assert CallKeys(Started(log)) == [];
    } else {
      hide Advance, Absorb, OpenCalls, Started, Ended;
      var init, e := log[..|log| - 1], log[|log| - 1];
      BadStaysBad(init, e);
      StartsMatchEnds(r, init);
      StartsMatchEndsStep(r, init, e);
      assert init + [e] == log;
    }
  }

  lemma BadStaysBad(log: seq<Event>, e: Event)
    requires Parse(log + [e]) != Bad
    ensures Parse(log) != Bad
  {
    assert (log + [e])[..|log + [e]| - 1] == log;
  }

  lemma {:induction false} PrefixesParse(log: seq<Event>, k: nat)
    requires Parse(log) != Bad && k <= |log|
    ensures Parse(log[..k]) != Bad
  {
    if k < |log| {
      var init := log[..|log| - 1];
      assert init + [log[|log| - 1]] == log;
      BadStaysBad(init, log[|log| - 1]);
      PrefixesParse(init, k);
      assert log[..k] == init[..k];
    } else {
      assert log[..k] == log;
    }
  }

  /** At every turn end of an accepted log, no started call is still pending and all of them have ended. */
  lemma NothingPendingAtTurnEnds(r: Replica, log: seq<Event>, k: nat)
    requires Parse(log) != Bad && r.pendingToolCalls == {} && k < |log| && log[k].TurnEnd?
    ensures Replay(r, log[..k + 1]).pendingToolCalls == {}
    ensures multiset(CallKeys(Started(log[..k + 1]))) == multiset(Ended(log[..k + 1]))
  {
    PrefixesParse(log, k + 1);
    assert log[..k + 1] == log[..k] + [log[k]];
    Extend(r, log[..k], log[k]);
    StartsMatchEnds(r, log[..k + 1]);
    assert OpenCalls(Parse(log[..k + 1])) == multiset{};
  }

  lemma StartsMatchEndsStep(r: Replica, log: seq<Event>, e: Event)
    requires Parse(log + [e]) != Bad
    requires multiset(CallKeys(Started(log))) == multiset(Ended(log)) + OpenCalls(Parse(log))
    requires forall id :: id in Replay(r, log).pendingToolCalls ==> exists key :: key in OpenCalls(Parse(log)) && key.0 == id
    ensures multiset(CallKeys(Started(log + [e]))) == multiset(Ended(log + [e])) + OpenCalls(Parse(log + [e]))
    ensures forall id :: id in Replay(r, log + [e]).pendingToolCalls ==>
              exists key :: key in OpenCalls(Parse(log + [e])) && key.0 == id
  {
    Extend(r, log, e);
    PendingStep(Replay(r, log), Parse(log), e);
    MatchedStep(log, e);
  }

  lemma OpenStep(p: Phase, e: Event)
    requires Advance(p, e) != Bad
    ensures e.ToolStart? ==> OpenCalls(Advance(p, e)) == OpenCalls(p) + multiset{e.call.Key()}
    ensures e.ToolEnd? ==> e.key in OpenCalls(p) && OpenCalls(Advance(p, e)) == OpenCalls(p) - multiset{e.key}
    ensures !e.ToolStart? && !e.ToolEnd? ==> OpenCalls(Advance(p, e)) == OpenCalls(p)
  {
  }

  lemma MatchedStep(log: seq<Event>, e: Event)
    requires Advance(Parse(log), e) != Bad
    requires multiset(CallKeys(Started(log))) == multiset(Ended(log)) + OpenCalls(Parse(log))
    ensures multiset(CallKeys(Started(log + [e]))) == multiset(Ended(log + [e])) + OpenCalls(Advance(Parse(log), e))
  {
    hide Advance, Parse, OpenCalls;
    OpenStep(Parse(log), e);
    assert (log + [e])[..|log + [e]| - 1] == log;
    if e.ToolStart? {
      assert CallKeys(Started(log + [e])) == CallKeys(Started(log)) + [e.call.Key()];
    }
  }

  lemma PendingStep(r: Replica, p: Phase, e: Event)
    requires Advance(p, e) != Bad
    requires forall id :: id in r.pendingToolCalls ==> exists key :: key in OpenCalls(p) && key.0 == id
    ensures forall id :: id in Absorb(r, e).pendingToolCalls ==> exists key :: key in OpenCalls(Advance(p, e)) && key.0 == id
  {
    forall id | id in Absorb(r, e).pendingToolCalls
      ensures exists key :: key in OpenCalls(Advance(p, e)) && key.0 == id
    {
      if e.ToolStart? && id == e.call.id {
        assert e.call.Key() in OpenCalls(Advance(p, e)) && e.call.Key().0 == id;
      } else {
        var key :| key in OpenCalls(p) && key.0 == id;
        assert key in OpenCalls(Advance(p, e));
      }
    }
  }

  /** A turn whose tools run starts each of its calls exactly once, in source order. */
  lemma TurnStartsItsCalls(o: Origin, c: Config, r: Run, t: TurnScript)
    requires Kept(o, c, r) && r.status.Running?
    ensures Started(TakeTurn(c, r, t).log)
         == if t.reply.Final().stop.Failed() then Started(r.log) else Started(r.log) + Calls(t.reply.Jobs())
  {
    OpenLog(o, r);
    RespondLog(o, Open(r), t.reply);
    var asked := Respond(Open(r), t.reply);
    OpeningStartsNothing(o, r, t.reply);
    ConcludeStarts(o, c, asked, t);
  }

  lemma OpeningStartsNothing(o: Origin, r: Run, reply: Reply)
    requires LogAtHead(o, r)
    ensures Started(Respond(Open(r), reply).log) == Started(r.log)
  {
    OpenLog(o, r);
    Extend(o.replica, r.log, TurnStart);
    InTurnPairs(o.replica, if r.firstTurn then r.log else r.log + [TurnStart], r.added, multiset{}, r.pending);
    var opening := Open(r);
    InTurnPair(o.replica, opening.log, opening.added, multiset{}, reply.Final());
    if reply.Streams? && reply.partials != [] {
      InTurnStream(o.replica, opening.log, opening.added, multiset{}, reply.partials[0], reply.partials[1..], reply.Final());
      assert opening.log + reply.Events()
          == opening.log + [MessageStart(reply.partials[0])] + Updates(reply.partials[1..]) + [MessageEnd(reply.Final())];
    }
  }

  lemma CloseStarts(r: Run, m: Message, results: seq<Message>, steering: seq<Message>, more: bool, t: TurnScript)
    ensures Started(Close(r, m, results, steering, more, t).log) == Started(r.log)
  {
    hide PerformAll, Batch, Rest, Started;
    StartedSnoc(r.log, TurnEnd(m, results));
    StartedSnoc(r.log + [TurnEnd(m, results)], AgentEnd(r.added));
  }

  lemma FailStarts(r: Run, m: Message)
    ensures Started(Fail(r, m).log) == Started(r.log)
  {
    StartedSnoc(r.log, TurnEnd(m, []));
    StartedSnoc(r.log + [TurnEnd(m, [])], AgentEnd(r.added));
  }

  lemma HaltStarts(r: Run, m: Message, results: seq<Message>, lost: seq<Message>)
    ensures Started(Halt(r, m, results, lost).log) == Started(r.log)
  {
    hide Started;
    var stop := StopMessage();
    var ended := r.log + [TurnEnd(m, results)];
    StartedSnoc(r.log, TurnEnd(m, results));
    StartedSnoc(ended, MessageStart(stop));
    StartedSnoc(ended + [MessageStart(stop)], MessageEnd(stop));
    assert ended + Pair(stop) == ended + [MessageStart(stop)] + [MessageEnd(stop)];
    StartedSnoc(ended + Pair(stop), TurnEnd(stop, []));
    StartedSnoc(ended + Pair(stop) + [TurnEnd(stop, [])], AgentEnd(r.added + [stop]));
  }

  lemma StartedSnoc(log: seq<Event>, e: Event)
    ensures Started(log + [e]) == if e.ToolStart? then Started(log) + [e.call] else Started(log)
  {
    assert (log + [e])[..|log + [e]| - 1] == log;
  }

  lemma ConcludeStarts(o: Origin, c: Config, r: Run, t: TurnScript)
    requires LogInTurn(o, r)
    ensures Started(Conclude(c, r, t).log)
         == if t.reply.Final().stop.Failed() then Started(r.log) else Started(r.log) + Calls(t.reply.Jobs())
  {
    hide Close, Halt, Fail, Started, Execute;
    var m, jobs := t.reply.Final(), t.reply.Jobs();
    if m.stop.Failed() {
      FailStarts(r, m);
    } else if jobs == [] && m.stop != PauseTurn {
      CloseStarts(r, m, [], [], false, t);
      assert Started(r.log) + [] == Started(r.log);
    } else if c.externalTools {
      ExternalLog(o, r.log, r.added, jobs);
      CloseStarts(r.(log := r.log + ExternalEvents(jobs)), m, [], [], false, t);
    } else {
      assert r.added + [] == r.added;
      ExecuteLogged(o.replica, r.added, StartWork(r), jobs, c.sequential, t.toolsEnv);
      var w := Execute(StartWork(r), jobs, c.sequential, t.toolsEnv);
      CloseStarts(Collect(r, w), m, w.results, w.steering, true, t);
      HaltStarts(Collect(r, w), m, w.results, w.steering);
    }
  }

  // ---------------------------------------------------------------------------------------------
  // The failure cap
  // ---------------------------------------------------------------------------------------------

  /** The two tool turns prepare alike: they differ at most in what the tools that ran came to. */
  ghost predicate SamePreparation(a: seq<Job>, b: seq<Job>) {
    && |a| == |b|
    && forall i :: 0 <= i < |a| ==> a[i].Fails() == b[i].Fails() && a[i].script.env == b[i].script.env
  }

  ghost predicate Alike(v: Work, w: Work) {
    && v.queues == w.queues && v.acts == w.acts && v.failures == w.failures && v.steering == w.steering
    && |v.results| == |w.results| && |v.runnable| == |w.runnable|
  }

  lemma {:induction false} SkipAllAlike(v: Work, w: Work, a: seq<Job>, b: seq<Job>, emitStart: bool)
    requires Alike(v, w) && |a| == |b|
    ensures Alike(SkipAll(v, a, emitStart), SkipAll(w, b, emitStart))
  {
    if a != [] {
      SkipAllAlike(v, w, a[..|a| - 1], b[..|b| - 1], emitStart);
    }
  }

  lemma {:induction false} FinishAllAlike(v: Work, w: Work, a: seq<Job>, b: seq<Job>)
    requires Alike(v, w) && |a| == |b|
    ensures Alike(FinishAll(v, a), FinishAll(w, b))
  {
    if a != [] {
      FinishAllAlike(v, w, a[..|a| - 1], b[..|b| - 1]);
    }
  }

  lemma {:induction false} SequentialAlike(w: Work, a: seq<Job>, b: seq<Job>, i: nat)
    requires SamePreparation(a, b) && i <= |a|
    ensures Alike(SequentialAfter(w, a, i), SequentialAfter(w, b, i))
  {
    if i > 0 {
      SequentialAlike(w, a, b, i - 1);
      var v', w' := SequentialAfter(w, a, i - 1), SequentialAfter(w, b, i - 1);
      var v'', w'' := Poll(RunOne(v', a[i - 1]), a[i - 1].script.env), Poll(RunOne(w', b[i - 1]), b[i - 1].script.env);
      SkipAllAlike(v''.(unreached := a[i..]), w''.(unreached := b[i..]), a[i..], b[i..], true);
    }
  }

  lemma {:induction false} PrepareAlike(w: Work, a: seq<Job>, b: seq<Job>, i: nat)
    requires SamePreparation(a, b) && i <= |a|
    ensures Alike(PrepareAfter(w, a, i), PrepareAfter(w, b, i))
  {
    if i > 0 {
      PrepareAlike(w, a, b, i - 1);
      var v', w' := PrepareAfter(w, a, i - 1), PrepareAfter(w, b, i - 1);
      PrepareStepAlike(v', w', a[i - 1], b[i - 1], a[i..], b[i..]);
    }
  }

  lemma PrepareStepAlike(v: Work, w: Work, a: Job, b: Job, restA: seq<Job>, restB: seq<Job>)
    requires Alike(v, w) && |restA| == |restB| && a.Fails() == b.Fails() && a.script.env == b.script.env
    ensures Alike(PrepareStep(v, a, restA), PrepareStep(w, b, restB))
  {
    var v', w' := Poll(PrepareOne(v, a), a.script.env).(unreached := restA), Poll(PrepareOne(w, b), b.script.env).(unreached := restB);
    SkipAllAlike(v', w', v'.runnable, w'.runnable, false);
    SkipAllAlike(SkipAll(v', v'.runnable, false), SkipAll(w', w'.runnable, false), restA, restB, true);
  }

  /**
   The failure counter, the trace and the queues do not depend on what the tools that ran came to: only
   on how many calls there were and which of them failed in preparation.
   */
  lemma OutcomesDoNotCount(r: Run, a: seq<Job>, b: seq<Job>, sequential: bool, env: seq<EnvAction>)
    requires SamePreparation(a, b)
    ensures var x, y := Collect(r, Execute(StartWork(r), a, sequential, env)), Collect(r, Execute(StartWork(r), b, sequential, env));
            x.failures == y.failures && x.acts == y.acts && x.queues == y.queues
  {
    var w := StartWork(r);
    if sequential {
      SequentialAlike(w, a, b, |a|);
    } else {
      PrepareAlike(w, a, b, |a|);
      var x, y := PrepareAfter(w, a, |a|), PrepareAfter(w, b, |b|);
      FinishAllAlike(x, y, x.runnable, y.runnable);
    }
  }

  /**
   A turn is forcibly stopped exactly when it runs tools locally, the two turns before it on the counter
   failed too, and every one of its calls fails in preparation. It leaves behind what its polls returned.
   */
  lemma StopsExactlyAtTheCap(o: Origin, c: Config, r: Run, t: TurnScript)
    requires Kept(o, c, r) && r.status.Running?
    ensures var w := Execute(StartWork(Respond(Open(r), t.reply)), t.reply.Jobs(), c.sequential, t.toolsEnv);
            && (TakeTurn(c, r, t).status.Stopped?
                <==> !t.reply.Final().stop.Failed() && !c.externalTools && t.reply.Jobs() != []
                     && r.failures == MAX_FAILURES - 1 && w.failures == |t.reply.Jobs()|)
            && (TakeTurn(c, r, t).status.Stopped? ==> TakeTurn(c, r, t).status.lost == w.steering)
  {
    hide Execute, Close, Kept, Answers, JobKeys, ExternalEvents, Pairs;
    var asked, jobs := Respond(Open(r), t.reply), t.reply.Jobs();
    var w := Execute(StartWork(asked), jobs, c.sequential, t.toolsEnv);
    OneResultPerCall(StartWork(asked), jobs, c.sequential, t.toolsEnv);
    BelowTheCap(o, c, r);
    CloseNeverStops(asked, t.reply.Final(), [], [], false, t);
    CloseNeverStops(asked.(log := asked.log + ExternalEvents(jobs)), t.reply.Final(), [], [], false, t);
    CloseNeverStops(Collect(asked, w), t.reply.Final(), w.results, w.steering, true, t);
  }

  lemma OneResultPerCall(w: Work, jobs: seq<Job>, sequential: bool, env: seq<EnvAction>)
    requires Idle(w)
    ensures |Execute(w, jobs, sequential, env).results| == |jobs|
  {
    ExecuteAnswers(w, jobs, sequential, env);
    CallsCover(jobs);
  }

  lemma BelowTheCap(o: Origin, c: Config, r: Run)
    requires Kept(o, c, r) && r.status.Running?
    ensures r.failures < MAX_FAILURES
  {
  }

  lemma CloseNeverStops(r: Run, m: Message, results: seq<Message>, steering: seq<Message>, more: bool, t: TurnScript)
    requires r.status.Running?
    ensures !Close(r, m, results, steering, more, t).status.Stopped?
  {
  }

  /** A forced stop can lose a steering message: one that is waiting when the last failing call is polled. */
  lemma ForcedStopCanLoseSteering(o: Origin, c: Config, r: Run, t: TurnScript, job: Job, e: Entry)
    requires Kept(o, c, r) && r.status.Running? && r.failures == MAX_FAILURES - 1 && !c.externalTools
    requires t.reply.Streams? && t.reply.jobs == [job] && t.reply.stop == ToolUse && job.Fails()
    requires PerformAll(r.queues, job.script.env).steering.items == [e]
    ensures TakeTurn(c, r, t).status == Stopped([e.message])
  {
    var asked := Respond(Open(r), t.reply);
    SoleFailingCall(StartWork(asked), job, c.sequential, t.toolsEnv, e);
    StopsExactlyAtTheCap(o, c, r, t);
  }

  lemma SoleFailingCall(w: Work, job: Job, sequential: bool, env: seq<EnvAction>, e: Entry)
    requires Idle(w) && job.Fails() && PerformAll(w.queues, job.script.env).steering.items == [e]
    ensures var w' := Execute(w, [job], sequential, env);
            w'.failures == 1 && w'.steering == [e.message]
  {
    var polled := Poll(RunOne(w, job), job.script.env);
    assert polled.steering == [e.message];
    assert [job][1..] == [];
    assert SequentialAfter(w, [job], 0) == w && PrepareAfter(w, [job], 0) == w;
    assert SequentialAfter(w, [job], 1) == SequentialStep(w, job, []);
    assert PrepareAfter(w, [job], 1) == PrepareStep(w, job, []);
  }

  // ---------------------------------------------------------------------------------------------
  // Why runs end
  // ---------------------------------------------------------------------------------------------

  /** A failed run ends with the message that failed. */
  ghost predicate FailedForAReason(r: Run) {
    |r.messages| > 0 && r.messages[|r.messages| - 1].Assistant? && r.messages[|r.messages| - 1].stop.Failed()
  }

  /**
   A completed run ends with a message that asks for nothing more (unless the provider runs the tools), straight
   after two polls that returned nothing, and leaves no follow-up queued.
   */
  ghost predicate CompletedForAReason(c: Config, r: Run) {
    && |r.messages| > 0 && r.messages[|r.messages| - 1].Assistant?
    && (var m := r.messages[|r.messages| - 1];
        !m.stop.Failed() && (c.externalTools || (m.calls == [] && m.stop != PauseTurn)))
    && r.queues.followUp.items == []
    && |r.acts| >= 2
    && r.acts[|r.acts| - 1].FollowPoll? && r.acts[|r.acts| - 1].batch == []
    && r.acts[|r.acts| - 2].SteerPoll? && r.acts[|r.acts| - 2].batch == []
  }

  lemma IdleClose(c: Config, r: Run, m: Message, t: TurnScript)
    requires r.status.Running? && |r.messages| > 0 && r.messages[|r.messages| - 1] == m && m.Assistant?
    requires !m.stop.Failed() && (c.externalTools || (m.calls == [] && m.stop != PauseTurn))
    ensures var r' := Close(r, m, [], [], false, t);
            !r'.status.Failed? && (r'.status.Completed? ==> CompletedForAReason(c, r'))
  {
    hide PerformAll;
  }

  lemma BusyClose(r: Run, m: Message, results: seq<Message>, steering: seq<Message>, t: TurnScript)
    requires r.status.Running?
    ensures Close(r, m, results, steering, true, t).status.Running?
  {
    hide PerformAll;
  }

  lemma TurnEndsForAReason(c: Config, r: Run, t: TurnScript)
    requires r.status.Running?
    ensures var r' := TakeTurn(c, r, t);
            && (r'.status.Failed? ==> FailedForAReason(r'))
            && (r'.status.Completed? ==> CompletedForAReason(c, r'))
  {
    hide Execute, Close, ExternalEvents, Pairs, CompletedForAReason, Collect;
    var asked, m, jobs := Respond(Open(r), t.reply), t.reply.Final(), t.reply.Jobs();
    if !m.stop.Failed() {
      var w := Execute(StartWork(asked), jobs, c.sequential, t.toolsEnv);
      CollectStillRunning(asked, w);
      BusyClose(Collect(asked, w), m, w.results, w.steering, t);
      if c.externalTools || (jobs == [] && m.stop != PauseTurn) {
        NoJobsNoCalls(jobs);
        IdleClose(c, asked, m, t);
        IdleClose(c, asked.(log := asked.log + ExternalEvents(jobs)), m, t);
      }
    }
  }

  lemma CollectStillRunning(r: Run, w: Work)
    ensures Collect(r, w).status == r.status
  {
  }

  lemma NoJobsNoCalls(jobs: seq<Job>)
    ensures jobs == [] ==> Calls(jobs) == []
  {
  }

  /** Every run that ends without being stopped has a reason to. */
  lemma {:induction false} EndsForAReason(l: Launch, c: Config, turns: seq<TurnScript>, n: nat)
    requires n <= |turns|
    ensures var r := RunOf(l, c, turns, n);
            && (r.status.Failed? ==> FailedForAReason(r))
            && (r.status.Completed? ==> CompletedForAReason(c, r))
  {
    hide TakeTurn, CompletedForAReason, FailedForAReason;
    if n > 0 {
      EndsForAReason(l, c, turns, n - 1);
      var r := RunOf(l, c, turns, n - 1);
      if r.status.Running? {
        TurnEndsForAReason(c, r, turns[n - 1]);
      }
    }
  }

  // ---------------------------------------------------------------------------------------------
  // When a forced stop loses messages
  // ---------------------------------------------------------------------------------------------

  const WAIT := User("wait")

  /** A call to a tool that does not exist, with the queue activity before the poll that follows it. */
  function UnknownTool(env: seq<EnvAction>): Job {
    Job(ToolCall("1", "unknown", "{}"), CallScript(false, None, Allows, Returns(""), None, env))
  }

  function FailingTurn(env: seq<EnvAction>): TurnScript {
    TurnScript(Streams([], "", [UnknownTool(env)], ToolUse), [], [], [])
  }

  /** Three turns with one failing call each; a steering message arrives during the third. */
  function LosingTurns(): seq<TurnScript> {
    [FailingTurn([]), FailingTurn([]), FailingTurn([Steer(Entry(WAIT, true))])]
  }

  const LOSING_LAUNCH := Launch(
    Origin([], [User("go")], Replica([], None, {}, true), EMPTY_LEDGERS),
    Queues(Queue([], OneAtATime), Queue([], OneAtATime)), false, [])

  lemma QuietFailingCall(w: Work, job: Job, sequential: bool)
    requires Idle(w) && job.Fails() && job.script.env == [] && w.queues.steering.items == []
    ensures var w' := Execute(w, [job], sequential, []);
            w'.failures == 1 && |w'.results| == 1 && w'.steering == [] && w'.queues.steering.items == []
  {
    hide Outcome;
    var polled := Poll(RunOne(w, job), []);
    assert polled.steering == [] && polled.queues.steering.items == [];
    assert [job][1..] == [];
    assert SequentialAfter(w, [job], 0) == w && PrepareAfter(w, [job], 0) == w;
    assert SequentialAfter(w, [job], 1) == SequentialStep(w, job, []);
    assert PrepareAfter(w, [job], 1) == PrepareStep(w, job, []);
  }

  lemma FailingTurnCounts(c: Config, r: Run)
    requires !c.externalTools && r.status.Running? && r.failures + 1 < MAX_FAILURES && r.queues.steering.items == []
    ensures var r' := TakeTurn(c, r, FailingTurn([]));
            r'.status.Running? && r'.failures == r.failures + 1 && r'.queues.steering.items == []
  {
    hide Execute, Pairs;
    QuietFailingCall(StartWork(Respond(Open(r), FailingTurn([]).reply)), UnknownTool([]), c.sequential);
  }

  /** With local tools there is a run that ends with a polled steering message undelivered. */
  lemma LosingRun(c: Config)
    requires !c.externalTools
    ensures LOSING_LAUNCH.Valid() && RunOf(LOSING_LAUNCH, c, LosingTurns(), 3).status == Stopped([WAIT])
  {
    hide TakeTurn, Kept, AccountsBoth;
    assert LOSING_LAUNCH.Valid() by { EmptyAccounts(); }
    var l, turns := LOSING_LAUNCH, LosingTurns();
    var start := l.Start();
    assert RunOf(l, c, turns, 0) == start && start.queues.steering.items == [];
    FailingTurnCounts(c, start);
    var first := TakeTurn(c, start, turns[0]);
    assert RunOf(l, c, turns, 1) == first;
    FailingTurnCounts(c, first);
    var second := TakeTurn(c, first, turns[1]);
    assert RunOf(l, c, turns, 2) == second;
    RunOfKept(l, c, turns, 2);
    var e := Entry(WAIT, true);
    assert [Steer(e)][..0] == [];
    assert PerformAll(second.queues, [Steer(e)]).steering.items == [e];
    ForcedStopCanLoseSteering(l.origin, c, second, turns[2], UnknownTool([Steer(e)]), e);
    assert RunOf(l, c, turns, 3) == TakeTurn(c, second, turns[2]);
  }

  lemma EmptyAccounts()
    ensures AccountsBoth(EMPTY_LEDGERS, Queues(Queue([], OneAtATime), Queue([], OneAtATime)))
  {
  }

  lemma {:induction false} ExternalRunsAreNotStopped(l: Launch, c: Config, turns: seq<TurnScript>, n: nat)
    requires l.Valid() && c.externalTools && n <= |turns|
    ensures !RunOf(l, c, turns, n).status.Stopped?
  {
    hide TakeTurn, Kept, Execute;
    if n > 0 {
      ExternalRunsAreNotStopped(l, c, turns, n - 1);
      var r := RunOf(l, c, turns, n - 1);
      RunOfKept(l, c, turns, n - 1);
      if r.status.Running? {
        StopsExactlyAtTheCap(l.origin, c, r, turns[n - 1]);
      }
    }
  }

  /** A polled message can be lost exactly when tools run locally. */
  lemma SteeringCanBeLostIff(c: Config)
    ensures (exists l: Launch, turns :: l.Valid() && RunOf(l, c, turns, |turns|).status.Stopped? &&
                                        RunOf(l, c, turns, |turns|).status.lost != [])
       <==> !c.externalTools
  {
    hide RunAfter, Starts;
    if c.externalTools {
      forall l: Launch, turns | l.Valid() ensures !RunOf(l, c, turns, |turns|).status.Stopped? {
        ExternalRunsAreNotStopped(l, c, turns, |turns|);
      }
    } else {
      LosingRun(c);
      assert RunOf(LOSING_LAUNCH, c, LosingTurns(), |LosingTurns()|).status.lost == [WAIT];
    }
  }
}
