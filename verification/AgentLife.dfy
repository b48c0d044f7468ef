/**
 An agent's whole life: runs started by prompts or by resuming, one after the other, with the queues in use
 throughout. Every run starts from the transcript and the queues the last one left.
 */
module AgentLife {
  import opened Wrappers
  import opened Transcript
  import opened EventLog
  import opened MessageQueues
  import opened RunTrace
  import opened AgentLoop
  import opened AgentLoopTheorems
  import opened AgentRuns
  import opened AgentInjection

  /** The launch that takes a batch off a queue and prompts with it. */
  function Resumed(l: Launch, batch: seq<Message>, steering: bool): Launch {
    var q, ledgers := l.queues, l.origin.ledgers;
    if steering
    then Launch(l.origin.(prompts := batch, ledgers := ledgers.(steering := Deliver(ledgers.steering, |batch|))),
                q.(steering := Rest(q.steering)), true, l.env)
    else Launch(l.origin.(prompts := batch, ledgers := ledgers.(followUp := Deliver(ledgers.followUp, |batch|))),
                q.(followUp := Rest(q.followUp)), false, l.env)
  }

  /**
   What resuming launches: the last message again if it is not the agent's own, else what is queued, steering
   before follow-ups; nothing if there is nothing to go on with.
   */
  function Continuation(l: Launch): Option<Launch> {
    var context := l.origin.context;
    if context == [] then None
    else if !context[|context| - 1].Assistant? then Some(l)
    else if Batch(l.queues.steering) != [] then Some(Resumed(l, Batch(l.queues.steering), true))
    else if Batch(l.queues.followUp) != [] then Some(Resumed(l, Batch(l.queues.followUp), false))
    else None
  }

  /** What a poll of a queue takes off its front, and leaves, told from its entries and its mode. */
  ghost predicate TakesFrom(q: Queue, batch: seq<Message>, left: seq<Entry>) {
    match q.mode
    case OneAtATime => q.items != [] && batch == [q.items[0].message] && left == q.items[1..]
    case All => |batch| == |q.items| && left == [] && forall k :: 0 <= k < |batch| ==> batch[k] == q.items[k].message
  }

  /**
   Steering is resumed from before follow-ups, and a queue that is not resumed from is left alone: with the agent's own
   message last, a steering message waiting becomes the prompt, without a first poll; only if there is none does a
   follow-up; and only if there is none of either is there nothing to go on with.
   */
  lemma SteeringComesFirst(l: Launch)
    requires l.origin.context != [] && l.origin.context[|l.origin.context| - 1].Assistant?
    ensures l.queues.steering.items != [] ==>
              Continuation(l).Some? &&
              var next := Continuation(l).value;
              && TakesFrom(l.queues.steering, next.origin.prompts, next.queues.steering.items)
              && next.queues.followUp == l.queues.followUp && next.skipPoll
    ensures l.queues.steering.items == [] && l.queues.followUp.items != [] ==>
              Continuation(l).Some? &&
              var next := Continuation(l).value;
              && TakesFrom(l.queues.followUp, next.origin.prompts, next.queues.followUp.items)
              && next.queues.steering == l.queues.steering && !next.skipPoll
    ensures l.queues.steering.items == [] && l.queues.followUp.items == [] ==> Continuation(l).None?
  {
  }

  /** Without messages there is nothing to resume; with another's message last, that is what is resumed from. */
  lemma ResumesFromTheLast(l: Launch)
    ensures l.origin.context == [] ==> Continuation(l).None?
    ensures l.origin.context != [] && !l.origin.context[|l.origin.context| - 1].Assistant? ==> Continuation(l) == Some(l)
  {
  }

  datatype Cause = Prompted(messages: seq<Message>) | Continued

  /** Queue activity while the agent is idle, then a run. */
  datatype Episode = Episode(idle: seq<EnvAction>, cause: Cause, config: Config, env: seq<EnvAction>, turns: seq<TurnScript>)

  /**
   The agent between two runs. `acts` is the trace of its life so far; `typed` are the prompts it was given, `given`
   the messages from outside that its runs injected, in order, and `lost` those that forced stops left behind.
   */
  datatype Life = Life(
    messages: seq<Message>,
    queues: Queues,
    acts: seq<Act>,
    typed: seq<Message>,
    given: seq<Message>,
    lost: seq<Message>)

  function Born(messages: seq<Message>, steering: Mode, followUp: Mode): Life {
    Life(messages, Queues(Queue([], steering), Queue([], followUp)), [], [], [], [])
  }

  function Ledgers(a: Life): MessageQueues.Ledgers { LedgersAfter(EMPTY_LEDGERS, a.acts) }

  /** What a prompt would launch from here. */
  function Base(a: Life, prompts: seq<Message>, env: seq<EnvAction>): Launch {
    Launch(Origin(a.messages, prompts, Replica(a.messages, None, {}, true), Ledgers(a)), a.queues, false, env)
  }

  function LaunchOf(a: Life, e: Episode): Option<Launch> {
    match e.cause
    case Prompted(messages) => Some(Base(a, messages, e.env))
    case Continued => Continuation(Base(a, [], e.env))
  }

  /** Idle time is a steering poll that takes nothing. */
  function Idled(a: Life, idle: seq<EnvAction>): Life {
    a.(queues := PerformAll(a.queues, idle), acts := a.acts + [SteerPoll(idle, [])])
  }

  /** Resuming from a queue is a poll of that queue. */
  function Resumption(a: Life, e: Episode): seq<Act> {
    if e.cause.Prompted? || a.messages == [] || !a.messages[|a.messages| - 1].Assistant? then []
    else if Batch(a.queues.steering) != [] then [SteerPoll([], Batch(a.queues.steering))]
    else if Batch(a.queues.followUp) != [] then [FollowPoll([], Batch(a.queues.followUp))]
    else []
  }

  function LostBy(r: Run): seq<Message> { if r.status.Stopped? then r.status.lost else [] }

  /** What was injected of all that was to be: everything but what was lost at its end. */
  function Injected(all: seq<Message>, lost: seq<Message>): seq<Message> {
    if |lost| <= |all| then all[..|all| - |lost|] else []
  }

  function Live(a: Life, e: Episode): Life {
    var idled := Idled(a, e.idle);
    match LaunchOf(idled, e)
    case None => idled
    case Some(l) =>
      var r := RunOf(l, e.config, e.turns, |e.turns|);
      var all := l.origin.prompts + Batches(r.acts);
      Life(idled.messages + r.added,
           r.queues,
           idled.acts + Resumption(idled, e) + r.acts,
           if e.cause.Prompted? then a.typed + e.cause.messages else a.typed,
           a.given + Injected(all, LostBy(r)),
           a.lost + LostBy(r))
  }

  function LifeAfter(a: Life, es: seq<Episode>): Life {
    if es == [] then a else Live(LifeAfter(a, es[..|es| - 1]), es[|es| - 1])
  }

  // ---------------------------------------------------------------------------------------------
  // Traces of several runs
  // ---------------------------------------------------------------------------------------------

  lemma {:induction false} PollsAppend(a: seq<Act>, b: seq<Act>)
    ensures SteerBatches(a + b) == SteerBatches(a) + SteerBatches(b)
    ensures FollowBatches(a + b) == FollowBatches(a) + FollowBatches(b)
  {
    if b == [] {
      assert a + b == a;
    } else {
      assert (a + b)[..|a + b| - 1] == a + b[..|b| - 1];
      PollsAppend(a, b[..|b| - 1]);
    }
  }

  lemma {:induction false} TracesAppend(l: MessageQueues.Ledgers, a: seq<Act>, b: seq<Act>)
    ensures SteerBatches(a + b) == SteerBatches(a) + SteerBatches(b)
    ensures FollowBatches(a + b) == FollowBatches(a) + FollowBatches(b)
    ensures LedgersAfter(l, a + b) == LedgersAfter(LedgersAfter(l, a), b)
  {
    hide NoteAll, Deliver, SteerBatches, FollowBatches;
    PollsAppend(a, b);
    if b == [] {
      assert a + b == a;
    } else {
      assert (a + b)[..|a + b| - 1] == a + b[..|b| - 1];
      TracesAppend(l, a, b[..|b| - 1]);
    }
  }

  lemma FedAppend(l: MessageQueues.Ledgers, a: seq<Act>, q: Queues, b: seq<Act>, q': Queues)
    requires Fed(l, a, q) && Fed(LedgersAfter(l, a), b, q')
    ensures Fed(l, a + b, q')
  {
    hide Accounts, Delivered, LedgersAfter, SteerBatches, FollowBatches;
    TracesAppend(l, a, b);
  }

  lemma {:induction false} BatchesAppend(a: seq<Act>, b: seq<Act>)
    ensures Batches(a + b) == Batches(a) + Batches(b)
  {
    if b == [] {
      assert a + b == a;
    } else {
      assert (a + b)[..|a + b| - 1] == a + b[..|b| - 1];
      BatchesAppend(a, b[..|b| - 1]);
    }
  }

  lemma {:induction false} BatchesDivide(acts: seq<Act>)
    ensures multiset(Batches(acts)) == multiset(SteerBatches(acts)) + multiset(FollowBatches(acts))
  {
    if acts != [] {
      BatchesDivide(acts[..|acts| - 1]);
    }
  }

  // ---------------------------------------------------------------------------------------------
  // Conservation over a life
  // ---------------------------------------------------------------------------------------------

  /** The run of the episode, if it launches one, comes to its end. */
  ghost predicate Ends(a: Life, e: Episode) {
    var launch := LaunchOf(Idled(a, e.idle), e);
    launch.Some? ==> !RunOf(launch.value, e.config, e.turns, |e.turns|).status.Running?
  }

  ghost predicate AllEnd(a: Life, es: seq<Episode>) {
    forall i :: 0 <= i < |es| ==> Ends(LifeAfter(a, es[..i]), es[i])
  }

  /** All that came from outside is user or custom messages. */
  ghost predicate Ordinary(a: Life) { AllUserSide(a.typed) && AllUserSide(Batches(a.acts)) }

  ghost predicate Balanced(a: Life) {
    multiset(a.given) + multiset(a.lost)
    == multiset(a.typed) + (multiset(SteerBatches(a.acts)) + multiset(FollowBatches(a.acts)))
  }

  ghost predicate LifeKept(a: Life, initial: seq<Message>) {
    && Fed(EMPTY_LEDGERS, a.acts, a.queues)
    && Balanced(a)
    && (Ordinary(a) ==> FromOutside(a.messages) == FromOutside(initial) + a.given)
  }

  lemma FedIsAccounted(l: MessageQueues.Ledgers, acts: seq<Act>, q: Queues)
    requires Fed(l, acts, q)
    ensures AccountsBoth(LedgersAfter(l, acts), q)
  {
  }

  /** Taking a batch to resume from it is, for the ledgers, a poll. */
  lemma LaunchLedgers(a: Life, e: Episode)
    requires LaunchOf(a, e).Some?
    ensures LaunchOf(a, e).value.origin.ledgers == LedgersAfter(EMPTY_LEDGERS, a.acts + Resumption(a, e))
  {
    hide Batch, Rest, LedgersAfter;
    assert NoteAll(Ledgers(a), []) == Ledgers(a);
    PollSnoc(EMPTY_LEDGERS, a.acts, SteerPoll([], Batch(a.queues.steering)));
    PollSnoc(EMPTY_LEDGERS, a.acts, FollowPoll([], Batch(a.queues.followUp)));
    assert a.acts + [] == a.acts;
  }

  /** The launch of an episode starts from the ledgers of the life before it, its own resumption included. */
  lemma LaunchFed(a: Life, e: Episode)
    requires Fed(EMPTY_LEDGERS, a.acts, a.queues) && LaunchOf(a, e).Some?
    ensures var l, acts := LaunchOf(a, e).value, a.acts + Resumption(a, e);
            && Fed(EMPTY_LEDGERS, acts, l.queues) && l.origin.ledgers == LedgersAfter(EMPTY_LEDGERS, acts)
            && l.Valid() && l.origin.context == l.origin.replica.messages == a.messages
            && l.origin.prompts == if e.cause.Prompted? then e.cause.messages else Batches(Resumption(a, e))
  {
    hide Fed, Batch, Rest, AccountsBoth, LedgersAfter;
    var l, acts := LaunchOf(a, e).value, a.acts + Resumption(a, e);
    assert PerformAll(a.queues, []) == a.queues;
    LaunchLedgers(a, e);
    FedSteer(EMPTY_LEDGERS, a.acts, a.queues, [], a.queues);
    FedFollow(EMPTY_LEDGERS, a.acts, a.queues, [], a.queues);
    FoldsSnoc([], SteerPoll([], Batch(a.queues.steering)));
    FoldsSnoc([], FollowPoll([], Batch(a.queues.followUp)));
    assert forall x: Act :: [] + [x] == [x];
    assert a.acts + [] == a.acts;
    FedIsAccounted(EMPTY_LEDGERS, acts, l.queues);
  }

  lemma RunFed(l: Launch, c: Config, turns: seq<TurnScript>)
    requires l.Valid()
    ensures Fed(l.origin.ledgers, RunOf(l, c, turns, |turns|).acts, RunOf(l, c, turns, |turns|).queues)
  {
    hide Fed;
    RunOfKept(l, c, turns, |turns|);
  }

  lemma LiveFed(a: Life, e: Episode)
    requires Fed(EMPTY_LEDGERS, a.acts, a.queues)
    ensures Fed(EMPTY_LEDGERS, Live(a, e).acts, Live(a, e).queues)
  {
    hide Fed, LaunchOf, Resumption, PerformAll, RunOf;
    var idled := Idled(a, e.idle);
    FedSteer(EMPTY_LEDGERS, a.acts, a.queues, e.idle, PerformAll(a.queues, e.idle));
    if LaunchOf(idled, e).Some? {
      LaunchFed(idled, e);
      var l := LaunchOf(idled, e).value;
      RunFed(l, e.config, e.turns);
      FedAppend(EMPTY_LEDGERS, idled.acts + Resumption(idled, e), l.queues,
                RunOf(l, e.config, e.turns, |e.turns|).acts, RunOf(l, e.config, e.turns, |e.turns|).queues);
    }
  }

  lemma UserSideAppend(a: seq<Message>, b: seq<Message>)
    ensures AllUserSide(a + b) <==> AllUserSide(a) && AllUserSide(b)
  {
    if AllUserSide(a + b) {
      Narrow(a, b);
    }
  }

  /** What a run loses is the end of what it was launched with and polled. */
  lemma RunLoses(l: Launch, c: Config, turns: seq<TurnScript>)
    requires !RunOf(l, c, turns, |turns|).status.Running?
    ensures var r := RunOf(l, c, turns, |turns|);
            var all := l.origin.prompts + Batches(r.acts);
            all == Injected(all, LostBy(r)) + LostBy(r)
  {
    hide RunOf, Batches, Since, Chained, Own;
    var r := RunOf(l, c, turns, |turns|);
    BatchesReachTheModel(l, c, turns, |turns|);
    SinceIsSuffix(r.acts);
    var all := l.origin.prompts + Batches(r.acts);
    assert all[|all| - |LostBy(r)|..] == LostBy(r);
  }

  /** And what it injects is, if ordinary, what its messages have from outside. */
  lemma RunInjects(l: Launch, c: Config, turns: seq<TurnScript>)
    requires l.Valid() && !RunOf(l, c, turns, |turns|).status.Running?
    requires OutsideIsUserSide(l.origin, RunOf(l, c, turns, |turns|).acts)
    ensures var r := RunOf(l, c, turns, |turns|);
            Injected(l.origin.prompts + Batches(r.acts), LostBy(r)) == FromOutside(r.added)
  {
    hide RunOf, Batches, FromOutside;
    PolledMessagesAreInjected(l, c, turns, |turns|);
    var r := RunOf(l, c, turns, |turns|);
    var all := l.origin.prompts + Batches(r.acts);
    assert FromOutside(r.added) + [] == FromOutside(r.added);
    assert all == FromOutside(r.added) + LostBy(r);
  }

  /** The parts of an episode's trace. */
  lemma LiveTraces(a: Life, e: Episode, resumption: seq<Act>, acts: seq<Act>)
    ensures var all := Idled(a, e.idle).acts + resumption + acts;
            && Batches(all) == Batches(a.acts) + Batches(resumption) + Batches(acts)
            && multiset(SteerBatches(all)) + multiset(FollowBatches(all))
               == multiset(SteerBatches(a.acts)) + multiset(FollowBatches(a.acts))
                  + (multiset(Batches(resumption)) + multiset(Batches(acts)))
  {
    hide Batches, SteerBatches, FollowBatches;
    var idle := Idled(a, e.idle).acts;
    FoldsSnoc(a.acts, SteerPoll(e.idle, []));
    BatchesAppend(idle, resumption);
    BatchesAppend(idle + resumption, acts);
    BatchesDivide(idle + resumption + acts);
    BatchesDivide(a.acts);
    assert Batches(a.acts) + [] == Batches(a.acts);
  }

  /** If all that came from outside by the end of an episode is ordinary, so was what its run was given. */
  lemma LiveOrdinary(a: Life, e: Episode)
    requires Fed(EMPTY_LEDGERS, a.acts, a.queues) && Ordinary(Live(a, e))
    ensures Ordinary(a)
    ensures LaunchOf(Idled(a, e.idle), e).Some? ==>
              var l := LaunchOf(Idled(a, e.idle), e).value;
              OutsideIsUserSide(l.origin, RunOf(l, e.config, e.turns, |e.turns|).acts)
  {
    hide Fed, LaunchOf, Resumption, RunOf, Batches, SteerBatches, FollowBatches, PerformAll;
    var idled := Idled(a, e.idle);
    IdledBalances(a, e);
    IdledFed(a, e.idle);
    if LaunchOf(idled, e).Some? {
      LaunchFed(idled, e);
      var l := LaunchOf(idled, e).value;
      var r := RunOf(l, e.config, e.turns, |e.turns|);
      LiveTraces(a, e, Resumption(idled, e), r.acts);
      UserSideAppend(Batches(a.acts) + Batches(Resumption(idled, e)), Batches(r.acts));
      UserSideAppend(Batches(a.acts), Batches(Resumption(idled, e)));
      if e.cause.Prompted? {
        UserSideAppend(a.typed, e.cause.messages);
      }
      assert Live(a, e).acts == idled.acts + Resumption(idled, e) + r.acts;
    }
  }

  lemma LiveGives(a: Life, e: Episode, initial: seq<Message>)
    requires LifeKept(a, initial) && Ends(a, e) && Ordinary(Live(a, e))
    ensures FromOutside(Live(a, e).messages) == FromOutside(initial) + Live(a, e).given
  {
    hide Fed, LaunchOf, Resumption, RunOf, Batches, SteerBatches, FollowBatches, FromOutside, PerformAll, Injected;
    var idled := Idled(a, e.idle);
    LiveOrdinary(a, e);
    IdledFed(a, e.idle);
    if LaunchOf(idled, e).Some? {
      LaunchFed(idled, e);
      var l := LaunchOf(idled, e).value;
      var r := RunOf(l, e.config, e.turns, |e.turns|);
      RunInjects(l, e.config, e.turns);
      FromOutsideAppend(a.messages, r.added);
    }
  }

  lemma LiveBalanced(a: Life, e: Episode)
    requires Fed(EMPTY_LEDGERS, a.acts, a.queues) && Balanced(a) && Ends(a, e)
    ensures Balanced(Live(a, e))
  {
    hide Fed, LaunchOf, Resumption, RunOf, Batches, SteerBatches, FollowBatches, PerformAll, Injected, Balanced, Ordinary;
    var idled := Idled(a, e.idle);
    IdledBalances(a, e);
    IdledFed(a, e.idle);
    if LaunchOf(idled, e).Some? {
      LaunchFed(idled, e);
      var l := LaunchOf(idled, e).value;
      RunLoses(l, e.config, e.turns);
      LiveBalances(a, e, l, RunOf(l, e.config, e.turns, |e.turns|));
    }
  }

  lemma IdledBalances(a: Life, e: Episode)
    ensures Balanced(a) ==> Balanced(Idled(a, e.idle))
    ensures Ordinary(Idled(a, e.idle)) ==> Ordinary(a)
  {
    hide Batches, SteerBatches, FollowBatches, PerformAll;
    LiveTraces(a, e, [], []);
    BatchesNone();
    var acts := Idled(a, e.idle).acts;
    assert acts + [] + [] == acts;
    assert Batches(a.acts) + [] + [] == Batches(a.acts);
  }

  lemma BatchesNone()
    ensures Batches([]) == []
  {
  }

  lemma NoResumption(a: Life, e: Episode)
    requires e.cause.Prompted?
    ensures Resumption(a, e) == []
  {
  }

  lemma IdledFed(a: Life, idle: seq<EnvAction>)
    requires Fed(EMPTY_LEDGERS, a.acts, a.queues)
    ensures Fed(EMPTY_LEDGERS, Idled(a, idle).acts, Idled(a, idle).queues)
  {
    hide Fed, PerformAll;
    FedSteer(EMPTY_LEDGERS, a.acts, a.queues, idle, PerformAll(a.queues, idle));
  }

  lemma LiveBalances(a: Life, e: Episode, l: Launch, r: Run)
    requires Balanced(a) && LaunchOf(Idled(a, e.idle), e) == Some(l) && r == RunOf(l, e.config, e.turns, |e.turns|)
    requires l.origin.prompts == if e.cause.Prompted? then e.cause.messages else Batches(Resumption(Idled(a, e.idle), e))
    requires var all := l.origin.prompts + Batches(r.acts); all == Injected(all, LostBy(r)) + LostBy(r)
    ensures Balanced(Live(a, e))
  {
    hide LaunchOf, Resumption, RunOf, Batches, SteerBatches, FollowBatches, PerformAll, Injected;
    var idled := Idled(a, e.idle);
    LiveTraces(a, e, Resumption(idled, e), r.acts);
    if e.cause.Prompted? {
      NoResumption(idled, e);
      BatchesNone();
    }
    var all := l.origin.prompts + Batches(r.acts);
    var injected := Injected(all, LostBy(r));
    assert multiset(all) == multiset(injected) + multiset(LostBy(r));
    var a' := Live(a, e);
    assert multiset(a'.given) == multiset(a.given) + multiset(injected);
    assert multiset(a'.lost) == multiset(a.lost) + multiset(LostBy(r));
    assert multiset(all) == multiset(l.origin.prompts) + multiset(Batches(r.acts));
    assert multiset(a'.typed) + multiset(Batches(Resumption(idled, e))) == multiset(a.typed) + multiset(l.origin.prompts);
    assert a'.acts == idled.acts + Resumption(idled, e) + r.acts;
    Books(multiset(a.given), multiset(a.lost), multiset(a.typed),
          multiset(SteerBatches(a.acts)) + multiset(FollowBatches(a.acts)),
          multiset(injected), multiset(LostBy(r)), multiset(l.origin.prompts), multiset(Batches(r.acts)),
          multiset(a'.typed), multiset(Batches(Resumption(idled, e))));
  }

  /** Balanced books stay balanced when an episode's entries balance. */
  lemma Books(given: multiset<Message>, lost: multiset<Message>, typed: multiset<Message>, polled: multiset<Message>,
              moreGiven: multiset<Message>, moreLost: multiset<Message>, prompts: multiset<Message>,
              batches: multiset<Message>, typed': multiset<Message>, resumed: multiset<Message>)
    requires given + lost == typed + polled && moreGiven + moreLost == prompts + batches
    requires typed' + resumed == typed + prompts
    ensures (given + moreGiven) + (lost + moreLost) == typed' + (polled + (resumed + batches))
  {
    assert (given + moreGiven) + (lost + moreLost) == (given + lost) + (moreGiven + moreLost);
    assert typed' + (polled + (resumed + batches)) == (typed' + resumed) + (polled + batches);
    assert (typed + polled) + (prompts + batches) == (typed + prompts) + (polled + batches);
  }

  lemma LiveKept(a: Life, e: Episode, initial: seq<Message>)
    requires LifeKept(a, initial) && Ends(a, e)
    ensures LifeKept(Live(a, e), initial)
  {
    hide Fed, Live, Balanced, Ordinary, FromOutside, Ends;
    LiveFed(a, e);
    LiveBalanced(a, e);
    if Ordinary(Live(a, e)) {
      LiveGives(a, e, initial);
    }
  }

  lemma BornKept(initial: seq<Message>, steering: Mode, followUp: Mode)
    ensures LifeKept(Born(initial, steering, followUp), initial)
  {
    assert FromOutside(initial) + [] == FromOutside(initial);
  }

  lemma {:induction false} LifeIsKept(a: Life, es: seq<Episode>, initial: seq<Message>)
    requires LifeKept(a, initial) && AllEnd(a, es)
    ensures LifeKept(LifeAfter(a, es), initial)
  {
    hide LifeKept, Live, Ends;
    if es != [] {
      var init := es[..|es| - 1];
      assert forall i :: 0 <= i < |init| ==> init[i] == es[i] && init[..i] == es[..i];
      LifeIsKept(a, init, initial);
      assert Ends(LifeAfter(a, es[..|es| - 1]), es[|es| - 1]);
      LiveKept(LifeAfter(a, init), es[|es| - 1], initial);
    }
  }

  /**
   Over an agent's whole life, on each queue: the arrivals never cleared or drained are, in order, the batches its
   runs and resumptions took and what is still queued. The messages its runs injected, together with those that forced
   stops lost, are the prompts typed and the batches taken, each exactly once; and where messages from outside can be
   told from the loop's own, those in its transcript are, in order, the ones injected.
   */
  lemma MessagesAreConserved(initial: seq<Message>, steering: Mode, followUp: Mode, es: seq<Episode>)
    requires AllEnd(Born(initial, steering, followUp), es)
    ensures var a := LifeAfter(Born(initial, steering, followUp), es);
            && Messages(Survivors(Ledgers(a).steering.arrivals)) == SteerBatches(a.acts) + Messages(a.queues.steering.items)
            && Messages(Survivors(Ledgers(a).followUp.arrivals)) == FollowBatches(a.acts) + Messages(a.queues.followUp.items)
            && multiset(a.given) + multiset(a.lost)
               == multiset(a.typed) + (multiset(SteerBatches(a.acts)) + multiset(FollowBatches(a.acts)))
            && (Ordinary(a) ==> FromOutside(a.messages) == FromOutside(initial) + a.given)
  {
    hide AllEnd, LifeAfter, Fed, Ordinary, SteerBatches, FollowBatches, LedgersAfter, FromOutside, Survivors;
    var born := Born(initial, steering, followUp);
    BornKept(initial, steering, followUp);
    LifeIsKept(born, es, initial);
    var a := LifeAfter(born, es);
    FedIsFifo(EMPTY_LEDGERS, a.acts, a.queues);
    NothingDelivered();
  }

  lemma NothingDelivered()
    ensures Delivered(EMPTY_LEDGERS.steering) == [] && Delivered(EMPTY_LEDGERS.followUp) == []
  {
  }

  // ---------------------------------------------------------------------------------------------
  // Pairing over a life
  // ---------------------------------------------------------------------------------------------

  /** The run failed with a message that had already asked for tools. */
  ghost predicate Broken(r: Run) {
    r.status.Failed? && |r.messages| > 0 && r.messages[|r.messages| - 1].Assistant? && r.messages[|r.messages| - 1].calls != []
  }

  lemma {:induction false} WellPairedSuffix(a: seq<Message>, b: seq<Message>)
    requires WellPaired(a) && WellPaired(a + b)
    ensures WellPaired(b)
  {
    hide Answers;
    if a == [] {
      assert a + b == b;
    } else if a[0].Assistant? {
      var n := |a[0].calls|;
      assert (a + b)[1 + n..] == a[1 + n..] + b;
      WellPairedSuffix(a[1 + n..], b);
    } else {
      assert (a + b)[1..] == a[1..] + b;
      WellPairedSuffix(a[1..], b);
    }
  }

  /**
   A run with local tools, started from a well-paired transcript, leaves the agent's transcript well paired exactly
   unless it failed with a message that had asked for tools.
   */
  lemma RunLeavesPairedIff(l: Launch, c: Config, turns: seq<TurnScript>)
    requires l.Valid() && !RunOf(l, c, turns, |turns|).status.Running?
    requires PairingApplies(l.origin, c, RunOf(l, c, turns, |turns|).acts)
    ensures var r := RunOf(l, c, turns, |turns|);
            WellPaired(l.origin.context + r.added) <==> !Broken(r)
  {
    hide RunOf, WellPaired, Answers;
    var r := RunOf(l, c, turns, |turns|);
    TranscriptsAreWellPaired(l, c, turns, |turns|);
    CopiesAgree(l, c, turns, |turns|);
    EndsForAReason(l, c, turns, |turns|);
    NoCallsAnswered();
    if r.status.Stopped? {
      AnsweredTurnIsWellPaired(r.messages, StopMessage(), []);
      assert r.messages + [StopMessage()] + [] == l.origin.context + r.added;
    } else {
      assert r.messages + [] == r.messages;
      if r.status.Failed? {
        FailedPairing(r.messages);
      }
    }
  }

  lemma NoCallsAnswered()
    ensures Answers([], [])
  {
    assert ResultKeys([]) == [] && CallKeys([]) == [];
  }

  lemma FailedPairing(ms: seq<Message>)
    requires |ms| > 0 && ms[|ms| - 1].Assistant? && WellPaired(ms[..|ms| - 1])
    ensures WellPaired(ms) <==> ms[|ms| - 1].calls == []
  {
    hide WellPaired, Answers;
    var init, m := ms[..|ms| - 1], ms[|ms| - 1];
    assert ms == init + [m];
    SoleAssistant(m);
    if m.calls == [] {
      WellPairedAppend(init, [m]);
    } else if WellPaired(ms) {
      WellPairedSuffix(init, [m]);
    }
  }

  lemma SoleAssistant(m: Message)
    requires m.Assistant?
    ensures WellPaired([m]) <==> m.calls == []
  {
    NoCallsAnswered();
    assert [m][1..] == [];
  }

  /** The episode's run has local tools and is not broken. */
  ghost predicate Whole(a: Life, e: Episode) {
    var launch := LaunchOf(Idled(a, e.idle), e);
    launch.Some? ==> !e.config.externalTools && !Broken(RunOf(launch.value, e.config, e.turns, |e.turns|))
  }

  ghost predicate PairedLife(a: Life) { WellPaired(a.messages) && AsksWellPaired(a.acts) }

  lemma AsksAppend(a: seq<Act>, b: seq<Act>)
    requires AsksWellPaired(a) && AsksWellPaired(b)
    ensures AsksWellPaired(a + b)
  {
    hide WellPaired;
  }

  lemma LivePaired(a: Life, e: Episode)
    requires Fed(EMPTY_LEDGERS, a.acts, a.queues) && PairedLife(a)
    requires Ends(a, e) && Whole(a, e) && Ordinary(Live(a, e))
    ensures PairedLife(Live(a, e))
  {
    hide Fed, LaunchOf, RunOf, WellPaired, Broken, Ordinary, PerformAll, OutsideIsUserSide;
    var idled := Idled(a, e.idle);
    LiveOrdinary(a, e);
    IdledFed(a, e.idle);
    AsksAppend(a.acts, [SteerPoll(e.idle, [])]);
    if LaunchOf(idled, e).Some? {
      LaunchFed(idled, e);
      var l := LaunchOf(idled, e).value;
      RunLeavesPairedIff(l, e.config, e.turns);
      TranscriptsAreWellPaired(l, e.config, e.turns, |e.turns|);
      AsksAppend(idled.acts, Resumption(idled, e));
      AsksAppend(idled.acts + Resumption(idled, e), RunOf(l, e.config, e.turns, |e.turns|).acts);
    }
  }

  /**
   As long as tools run locally and no run fails with a message that had asked for tools, every transcript handed to
   the model in an agent's whole life is well paired, and so is the transcript it keeps.
   */
  lemma {:induction false} TranscriptsStayPaired(a: Life, es: seq<Episode>, initial: seq<Message>)
    requires LifeKept(a, initial) && PairedLife(a) && AllEnd(a, es) && Ordinary(LifeAfter(a, es))
    requires forall i :: 0 <= i < |es| ==> Whole(LifeAfter(a, es[..i]), es[i])
    ensures PairedLife(LifeAfter(a, es))
  {
    hide LifeKept, PairedLife, Live, Ends, Ordinary, Whole;
    if es != [] {
      var init, e := es[..|es| - 1], es[|es| - 1];
      assert forall i :: 0 <= i < |init| ==> init[i] == es[i] && init[..i] == es[..i];
      LifeIsKept(a, init, initial);
      assert Ends(LifeAfter(a, init), e) && Whole(LifeAfter(a, init), e);
      KeptIsFed(LifeAfter(a, init), initial);
      LiveOrdinary(LifeAfter(a, init), e);
      TranscriptsStayPaired(a, init, initial);
      LivePaired(LifeAfter(a, init), e);
    }
  }

  lemma KeptIsFed(a: Life, initial: seq<Message>)
    requires LifeKept(a, initial)
    ensures Fed(EMPTY_LEDGERS, a.acts, a.queues)
  {
  }
}
