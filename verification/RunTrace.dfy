/**
 The trace of one run: what it asked the model, what each poll returned, what each tool turn came
 to. The properties of whole runs are stated on traces, apart from the loop's control variables.
 */
module RunTrace {
  import opened Transcript
  import opened MessageQueues

  datatype Act =
    | Asked(transcript: seq<Message>)                           // one model call, with the transcript handed to it
    | SteerPoll(env: seq<EnvAction>, batch: seq<Message>)       // queue activity before the poll, and its batch
    | FollowPoll(env: seq<EnvAction>, batch: seq<Message>)
    | Executed(results: nat, failures: nat)                     // one locally executed tool or pause turn
    | ForceStop(lost: seq<Message>)                             // the failure cap fired, with the batch it left behind

  predicate IsAsk(a: Act) { a.Asked? }

  predicate IsExecution(a: Act) { a.Executed? }

  predicate IsSteerBatch(a: Act) { a.SteerPoll? && a.batch != [] }

  predicate IsFollowBatch(a: Act) { a.FollowPoll? && a.batch != [] }

  /** Every call of the turn failed before it ran. */
  predicate IsAllFailed(a: Act) { a.Executed? && a.results > 0 && a.failures == a.results }

  /** No call of the turn failed before it ran; a pause turn without calls is one of these. */
  predicate IsClean(a: Act) { a.Executed? && a.failures == 0 }

  function Count(acts: seq<Act>, p: Act -> bool): nat {
    if acts == [] then 0
    else Count(acts[..|acts| - 1], p) + if p(acts[|acts| - 1]) then 1 else 0
  }

  /** The failure counter as the loop keeps it: incremented, reset or left alone by each tool turn. */
  function Streak(acts: seq<Act>): nat {
    if acts == [] then 0
    else
      var a := acts[|acts| - 1];
      if IsAllFailed(a) then Streak(acts[..|acts| - 1]) + 1
      else if IsClean(a) then 0
      else Streak(acts[..|acts| - 1])
  }

  /** The messages polls handed out, steering and follow-up together, in order. */
  function Batches(acts: seq<Act>): seq<Message> {
    if acts == [] then []
    else
      var a := acts[|acts| - 1];
      Batches(acts[..|acts| - 1]) + if a.SteerPoll? || a.FollowPoll? then a.batch else []
  }

  function SteerBatches(acts: seq<Act>): seq<Message> {
    if acts == [] then []
    else
      var a := acts[|acts| - 1];
      SteerBatches(acts[..|acts| - 1]) + if a.SteerPoll? then a.batch else []
  }

  function FollowBatches(acts: seq<Act>): seq<Message> {
    if acts == [] then []
    else
      var a := acts[|acts| - 1];
      FollowBatches(acts[..|acts| - 1]) + if a.FollowPoll? then a.batch else []
  }

  function LedgersAfter(l: Ledgers, acts: seq<Act>): Ledgers {
    if acts == [] then l
    else
      var l', a := LedgersAfter(l, acts[..|acts| - 1]), acts[|acts| - 1];
      match a
      case SteerPoll(env, batch) =>
        var noted := NoteAll(l', env);
        noted.(steering := Deliver(noted.steering, |batch|))
      case FollowPoll(env, batch) =>
        var noted := NoteAll(l', env);
        noted.(followUp := Deliver(noted.followUp, |batch|))
      case _ => l'
  }

  /** Every transcript handed to the model is well paired. */
  ghost predicate AsksWellPaired(acts: seq<Act>) {
    forall i :: 0 <= i < |acts| && acts[i].Asked? ==> WellPaired(acts[i].transcript)
  }

  /** A follow-up is polled for only straight after a steering poll that returned nothing. */
  ghost predicate FollowsOnlyWhenIdle(acts: seq<Act>) {
    forall i :: 0 <= i < |acts| && acts[i].FollowPoll? ==>
      i > 0 && acts[i - 1].SteerPoll? && acts[i - 1].batch == []
  }

  lemma CountSnoc(acts: seq<Act>, a: Act, p: Act -> bool)
    ensures Count(acts + [a], p) == Count(acts, p) + if p(a) then 1 else 0
  {
    assert (acts + [a])[..|acts + [a]| - 1] == acts;
  }

  lemma FoldsSnoc(acts: seq<Act>, a: Act)
    ensures Streak(acts + [a]) == if IsAllFailed(a) then Streak(acts) + 1 else if IsClean(a) then 0 else Streak(acts)
    ensures Batches(acts + [a]) == Batches(acts) + if a.SteerPoll? || a.FollowPoll? then a.batch else []
  {
    assert (acts + [a])[..|acts + [a]| - 1] == acts;
  }

  /** What one more act does to everything read off a trace. */
  lemma Snoc(acts: seq<Act>, a: Act)
    ensures Streak(acts + [a]) == if IsAllFailed(a) then Streak(acts) + 1 else if IsClean(a) then 0 else Streak(acts)
    ensures Batches(acts + [a]) == Batches(acts) + if a.SteerPoll? || a.FollowPoll? then a.batch else []
    ensures forall p: Act -> bool :: Count(acts + [a], p) == Count(acts, p) + if p(a) then 1 else 0
    ensures AsksWellPaired(acts) && (a.Asked? ==> WellPaired(a.transcript)) ==> AsksWellPaired(acts + [a])
    ensures FollowsOnlyWhenIdle(acts)
         && (a.FollowPoll? ==> |acts| > 0 && acts[|acts| - 1].SteerPoll? && acts[|acts| - 1].batch == [])
         ==> FollowsOnlyWhenIdle(acts + [a])
  {
    hide Count, Streak, Batches, WellPaired;
    FoldsSnoc(acts, a);
    forall p: Act -> bool { CountSnoc(acts, a, p); }
  }

  /**
   What the failure counter means: the number of turns in which every call failed before running,
   counted since the last turn in which none did.
   */
  lemma {:induction false} StreakMeaning(acts: seq<Act>) returns (since: nat)
    ensures since <= |acts|
    ensures since > 0 ==> IsClean(acts[since - 1])
    ensures forall i :: since <= i < |acts| ==> !IsClean(acts[i])
    ensures Streak(acts) == Count(acts[since..], IsAllFailed)
  {
    if acts == [] {
      since := 0;
    } else {
      var init, a := acts[..|acts| - 1], acts[|acts| - 1];
      if IsClean(a) {
        since := |acts|;
      } else {
        since := StreakMeaning(init);
        assert acts[since..][..|acts[since..]| - 1] == init[since..];
      }
    }
  }

  // ---------------------------------------------------------------------------------------------
  // Traces and queues
  // ---------------------------------------------------------------------------------------------

  /** The ledger `now` accounts for queue `q` and has handed out `batches` beyond what `before` had. */
  ghost predicate Handed(before: Ledger, now: Ledger, batches: seq<Message>, q: Queue) {
    && before.delivered <= |Survivors(before.arrivals)|
    && Accounts(now, q)
    && Delivered(now) == Delivered(before) + batches
  }

  /**
   The queues `q` are what is left after the trace `acts`: both ledgers account for them, and each
   ledger has handed out what it had before plus the batches of the trace.
   */
  ghost predicate Fed(l: Ledgers, acts: seq<Act>, q: Queues) {
    var now := LedgersAfter(l, acts);
    && Handed(l.steering, now.steering, SteerBatches(acts), q.steering)
    && Handed(l.followUp, now.followUp, FollowBatches(acts), q.followUp)
  }

  lemma HandedPoll(before: Ledger, now: Ledger, batches: seq<Message>, q: Queue)
    requires Handed(before, now, batches, q)
    ensures Handed(before, Deliver(now, |Batch(q)|), batches + Batch(q), Rest(q))
  {
    hide Survivors;
    DeliverAccounts(now, q);
    assert Delivered(before) + batches + Batch(q) == Delivered(before) + (batches + Batch(q));
  }

  lemma PollSnoc(l: Ledgers, acts: seq<Act>, a: Act)
    ensures SteerBatches(acts + [a]) == SteerBatches(acts) + if a.SteerPoll? then a.batch else []
    ensures FollowBatches(acts + [a]) == FollowBatches(acts) + if a.FollowPoll? then a.batch else []
    ensures a.SteerPoll? ==> (
              var noted := NoteAll(LedgersAfter(l, acts), a.env);
              LedgersAfter(l, acts + [a]) == noted.(steering := Deliver(noted.steering, |a.batch|)))
    ensures a.FollowPoll? ==> (
              var noted := NoteAll(LedgersAfter(l, acts), a.env);
              LedgersAfter(l, acts + [a]) == noted.(followUp := Deliver(noted.followUp, |a.batch|)))
    ensures !a.SteerPoll? && !a.FollowPoll? ==> LedgersAfter(l, acts + [a]) == LedgersAfter(l, acts)
  {
    assert (acts + [a])[..|acts + [a]| - 1] == acts;
  }

  /** A steering poll hands out the front of the queue; a skipped one returns nothing without looking. */
  lemma FedSteer(l: Ledgers, acts: seq<Act>, q: Queues, env: seq<EnvAction>, q': Queues)
    requires Fed(l, acts, q) && q' == PerformAll(q, env)
    ensures Fed(l, acts + [SteerPoll(env, Batch(q'.steering))], q'.(steering := Rest(q'.steering)))
    ensures Fed(l, acts + [SteerPoll(env, [])], q')
  {
    hide Survivors, PerformAll, NoteAll, LedgersAfter, SteerBatches, FollowBatches, Messages;
    var now := LedgersAfter(l, acts);
    NoteAllAccounts(now, q, env);
    var noted := NoteAll(now, env);
    HandedPoll(l.steering, noted.steering, SteerBatches(acts), q'.steering);
    PollSnoc(l, acts, SteerPoll(env, Batch(q'.steering)));
    PollSnoc(l, acts, SteerPoll(env, []));
  }

  lemma FedFollow(l: Ledgers, acts: seq<Act>, q: Queues, env: seq<EnvAction>, q': Queues)
    requires Fed(l, acts, q) && q' == PerformAll(q, env)
    ensures Fed(l, acts + [FollowPoll(env, Batch(q'.followUp))], q'.(followUp := Rest(q'.followUp)))
  {
    hide Survivors, PerformAll, NoteAll, LedgersAfter, SteerBatches, FollowBatches, Messages;
    var now := LedgersAfter(l, acts);
    NoteAllAccounts(now, q, env);
    var noted := NoteAll(now, env);
    HandedPoll(l.followUp, noted.followUp, FollowBatches(acts), q'.followUp);
    PollSnoc(l, acts, FollowPoll(env, Batch(q'.followUp)));
  }

  lemma FedOther(l: Ledgers, acts: seq<Act>, q: Queues, a: Act)
    requires Fed(l, acts, q) && !a.SteerPoll? && !a.FollowPoll?
    ensures Fed(l, acts + [a], q)
  {
    PollSnoc(l, acts, a);
  }

  /**
   First in, first out, exactly once: the arrivals that were not withdrawn are, in order, the ones
   handed out before, the batches of the trace, and the ones still queued.
   */
  lemma FedIsFifo(l: Ledgers, acts: seq<Act>, q: Queues)
    requires Fed(l, acts, q)
    ensures Messages(Survivors(LedgersAfter(l, acts).steering.arrivals))
         == Delivered(l.steering) + SteerBatches(acts) + Messages(q.steering.items)
    ensures Messages(Survivors(LedgersAfter(l, acts).followUp.arrivals))
         == Delivered(l.followUp) + FollowBatches(acts) + Messages(q.followUp.items)
  {
    var s, f := LedgersAfter(l, acts).steering, LedgersAfter(l, acts).followUp;
    assert Messages(Survivors(s.arrivals)) == Delivered(s) + Messages(q.steering.items);
    assert Messages(Survivors(f.arrivals)) == Delivered(f) + Messages(q.followUp.items);
  }
}
