/**
 The event stream of one agent run, its grammar, and the copy of the conversation that the
 agent rebuilds from it.

 Two readers of a log are defined independently of the loop that writes it: `Parse`, an
 automaton for the grammar of complete runs, and `Replay`, the fold the agent performs.
 */
module EventLog {
  import opened Wrappers
  import opened Transcript

  datatype Event =
    | AgentStart
    | AgentEnd(messages: seq<Message>)
    | TurnStart
    | TurnEnd(message: Message, results: seq<Message>)
    | MessageStart(message: Message)
    | MessageUpdate(message: Message)
    | MessageEnd(message: Message)
    | ToolStart(call: ToolCall)
    | ToolEnd(key: Key, isError: bool)

  /**
   Grammar states. `open` holds the tool calls that have started and not ended. `Extra`,
   `ExtraMessage` and `ExtraEnd` are the trailing message pair and turn end after the last turn of a
   forcibly stopped run.
   */
  datatype Phase =
    | Fresh
    | Between
    | Turn(open: multiset<Key>)
    | InMessage(open: multiset<Key>)
    | ExtraMessage
    | Extra
    | ExtraEnd
    | Closed(forced: bool)
    | Bad

  function Advance(p: Phase, e: Event): Phase {
    match (p, e)
    case (Fresh, AgentStart) => Between
    case (Between, TurnStart) => Turn(multiset{})
    case (Between, AgentEnd(_)) => Closed(false)
    case (Between, MessageStart(_)) => ExtraMessage
    case (Turn(open), MessageStart(_)) => InMessage(open)
    case (Turn(open), ToolStart(call)) => Turn(open + multiset{call.Key()})
    case (Turn(open), ToolEnd(key, _)) => if key in open then Turn(open - multiset{key}) else Bad
    case (Turn(open), TurnEnd(_, _)) => if open == multiset{} then Between else Bad
    case (InMessage(open), MessageUpdate(_)) => p
    case (InMessage(open), MessageEnd(_)) => Turn(open)
    case (ExtraMessage, MessageEnd(_)) => Extra
    case (Extra, TurnEnd(_, _)) => ExtraEnd
    case (ExtraEnd, AgentEnd(_)) => Closed(true)
    case _ => Bad
  }

  function Parse(log: seq<Event>): Phase {
    if log == [] then Fresh else Advance(Parse(log[..|log| - 1]), log[|log| - 1])
  }

  /** The part of the agent's state that it rebuilds from events. */
  datatype Replica = Replica(
    messages: seq<Message>,
    streamMessage: Option<Message>,
    pendingToolCalls: set<string>,
    isStreaming: bool)

  function Absorb(r: Replica, e: Event): Replica {
    match e
    case MessageStart(m) => r.(streamMessage := Some(m))
    case MessageUpdate(m) => r.(streamMessage := Some(m))
    case MessageEnd(m) => r.(streamMessage := None, messages := r.messages + [m])
    case ToolStart(call) => r.(pendingToolCalls := r.pendingToolCalls + {call.id})
    case ToolEnd(key, _) => r.(pendingToolCalls := r.pendingToolCalls - {key.0})
    case AgentEnd(_) => r.(isStreaming := false, streamMessage := None)
    case _ => r
  }

  function Replay(r: Replica, log: seq<Event>): Replica {
    if log == [] then r else Absorb(Replay(r, log[..|log| - 1]), log[|log| - 1])
  }

  /** The tool calls whose start a log announces, in order. */
  function Started(log: seq<Event>): seq<ToolCall> {
    if log == [] then []
    else
      var e := log[|log| - 1];
      if e.ToolStart? then Started(log[..|log| - 1]) + [e.call] else Started(log[..|log| - 1])
  }

  lemma Extend(r: Replica, log: seq<Event>, e: Event)
    ensures Parse(log + [e]) == Advance(Parse(log), e)
    ensures Replay(r, log + [e]) == Absorb(Replay(r, log), e)
    ensures Started(log + [e]) == if e.ToolStart? then Started(log) + [e.call] else Started(log)
  {
    assert (log + [e])[..|log + [e]| - 1] == log;
  }

  function Pair(m: Message): seq<Event> { [MessageStart(m), MessageEnd(m)] }

  function Pairs(ms: seq<Message>): seq<Event> {
    if ms == [] then [] else Pairs(ms[..|ms| - 1]) + Pair(ms[|ms| - 1])
  }

  function Updates(ms: seq<Message>): seq<Event> {
    seq(|ms|, i requires 0 <= i < |ms| => MessageUpdate(ms[i]))
  }

  function Outcome(result: Message): seq<Event> {
    [ToolEnd(result.Key(), result.ToolResult? && result.isError)] + Pair(result)
  }

  /**
   The log stands inside a turn with the calls in `open` running, and a replica that replays it has
   appended exactly `added` to its messages and is tracking no call beyond the open ones.
   */
  ghost predicate InTurn(r: Replica, log: seq<Event>, added: seq<Message>, open: multiset<Key>) {
    var now := Replay(r, log);
    && Parse(log) == Turn(open)
    && now.messages == r.messages + added
    && now.streamMessage == None
    && now.isStreaming == r.isStreaming
    && forall id :: id in now.pendingToolCalls ==> exists key :: key in open && key.0 == id
  }

  lemma InTurnPair(r: Replica, log: seq<Event>, added: seq<Message>, open: multiset<Key>, m: Message)
    requires InTurn(r, log, added, open)
    ensures InTurn(r, log + Pair(m), added + [m], open)
    ensures Started(log + Pair(m)) == Started(log)
  {
    Extend(r, log, MessageStart(m));
    Extend(r, log + [MessageStart(m)], MessageEnd(m));
    assert log + Pair(m) == log + [MessageStart(m)] + [MessageEnd(m)];
  }

  lemma {:induction false} InTurnPairs(r: Replica, log: seq<Event>, added: seq<Message>, open: multiset<Key>, ms: seq<Message>)
    requires InTurn(r, log, added, open)
    ensures InTurn(r, log + Pairs(ms), added + ms, open)
    ensures Started(log + Pairs(ms)) == Started(log)
  {
    if ms == [] {
      assert log + Pairs(ms) == log && added + ms == added;
    } else {
      var init, m := ms[..|ms| - 1], ms[|ms| - 1];
      InTurnPairs(r, log, added, open, init);
      InTurnPair(r, log + Pairs(init), added + init, open, m);
      assert log + Pairs(ms) == log + Pairs(init) + Pair(m);
      assert added + ms == added + init + [m];
    }
  }

  lemma InTurnStart(r: Replica, log: seq<Event>, added: seq<Message>, open: multiset<Key>, call: ToolCall)
    requires InTurn(r, log, added, open)
    ensures InTurn(r, log + [ToolStart(call)], added, open + multiset{call.Key()})
    ensures Started(log + [ToolStart(call)]) == Started(log) + [call]
  {
    hide Parse, Replay, Started;
    Extend(r, log, ToolStart(call));
    var open' := open + multiset{call.Key()};
    assert call.Key() in open';
    forall id | id in Replay(r, log + [ToolStart(call)]).pendingToolCalls
      ensures exists key :: key in open' && key.0 == id
    {
      if id == call.id {
        assert call.Key() in open' && call.Key().0 == id;
      } else {
        var key :| key in open && key.0 == id;
        assert key in open';
      }
    }
  }

  lemma InTurnEnd(r: Replica, log: seq<Event>, added: seq<Message>, open: multiset<Key>, key: Key, isError: bool)
    requires InTurn(r, log, added, open) && key in open
    ensures InTurn(r, log + [ToolEnd(key, isError)], added, open - multiset{key})
    ensures Started(log + [ToolEnd(key, isError)]) == Started(log)
  {
    Extend(r, log, ToolEnd(key, isError));
    var open' := open - multiset{key};
    forall id | id in Replay(r, log + [ToolEnd(key, isError)]).pendingToolCalls
      ensures exists k :: k in open' && k.0 == id
    {
      var k :| k in open && k.0 == id;
      assert k != key;
      assert k in open';
    }
  }

  lemma InTurnOutcome(r: Replica, log: seq<Event>, added: seq<Message>, open: multiset<Key>, result: Message)
    requires InTurn(r, log, added, open) && result.Key() in open
    ensures InTurn(r, log + Outcome(result), added + [result], open - multiset{result.Key()})
    ensures Started(log + Outcome(result)) == Started(log)
  {
    var isError := result.ToolResult? && result.isError;
    InTurnEnd(r, log, added, open, result.Key(), isError);
    InTurnPair(r, log + [ToolEnd(result.Key(), isError)], added, open - multiset{result.Key()}, result);
    assert log + Outcome(result) == log + [ToolEnd(result.Key(), isError)] + Pair(result);
  }

  /** A streamed assistant message: its start, any number of updates, its end. */
  lemma InTurnStream(r: Replica, log: seq<Event>, added: seq<Message>, open: multiset<Key>,
                     first: Message, updates: seq<Message>, final: Message)
    requires InTurn(r, log, added, open)
    ensures InTurn(r, log + [MessageStart(first)] + Updates(updates) + [MessageEnd(final)], added + [final], open)
    ensures Started(log + [MessageStart(first)] + Updates(updates) + [MessageEnd(final)]) == Started(log)
  {
    var begun := log + [MessageStart(first)];
    Extend(r, log, MessageStart(first));
    UpdatesKeepOpen(r, begun, open, updates);
    Extend(r, begun + Updates(updates), MessageEnd(final));
  }

  lemma {:induction false} UpdatesKeepOpen(r: Replica, log: seq<Event>, open: multiset<Key>, updates: seq<Message>)
    requires Parse(log) == InMessage(open)
    ensures Parse(log + Updates(updates)) == InMessage(open)
    ensures Replay(r, log + Updates(updates)).(streamMessage := None) == Replay(r, log).(streamMessage := None)
    ensures Started(log + Updates(updates)) == Started(log)
  {
    if updates == [] {
      assert log + Updates(updates) == log;
    } else {
      var init, m := updates[..|updates| - 1], updates[|updates| - 1];
      UpdatesKeepOpen(r, log, open, init);
      Extend(r, log + Updates(init), MessageUpdate(m));
      assert log + Updates(updates) == log + Updates(init) + [MessageUpdate(m)];
    }
  }

  lemma {:induction false} ReplayAppend(r: Replica, a: seq<Event>, b: seq<Event>)
    ensures Replay(r, a + b) == Replay(Replay(r, a), b)
  {
    if b == [] {
      assert a + b == a;
    } else {
      assert (a + b)[..|a + b| - 1] == a + b[..|b| - 1];
      ReplayAppend(r, a, b[..|b| - 1]);
    }
  }
}
