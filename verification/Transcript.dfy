/**
 The messages an agent conversation is made of, and what it means for a transcript to be
 well paired: every assistant message is followed at once by one contiguous block of tool
 results that answers exactly its tool calls.
 */
module Transcript {
  datatype ToolCall = ToolCall(id: string, name: string, args: string) {
    /** What a tool result repeats of the call it answers. */
    function Key(): Key { (id, name) }
  }

  type Key = (string, string)

  datatype StopReason = Stop | Length | ToolUse | PauseTurn | Error | Aborted {
    predicate Failed() { Error? || Aborted? }
  }

  datatype Message =
    | User(text: string)
    | Custom(text: string)
    | Assistant(text: string, calls: seq<ToolCall>, stop: StopReason)
    | ToolResult(callId: string, toolName: string, text: string, isError: bool)
  {
    /** Messages that come from the outside: prompts, steering and follow-ups. */
    predicate UserSide() { User? || Custom? }

    function Key(): Key { if ToolResult? then (callId, toolName) else ("", "") }
  }

  function CallKeys(calls: seq<ToolCall>): seq<Key> {
    seq(|calls|, i requires 0 <= i < |calls| => calls[i].Key())
  }

  function ResultKeys(results: seq<Message>): seq<Key> {
    seq(|results|, i requires 0 <= i < |results| => results[i].Key())
  }

  ghost predicate AllUserSide(ms: seq<Message>) {
    forall i :: 0 <= i < |ms| ==> ms[i].UserSide()
  }

  ghost predicate AllResults(ms: seq<Message>) {
    forall i :: 0 <= i < |ms| ==> ms[i].ToolResult?
  }

  /** The results answer the calls one to one, in some order. */
  ghost predicate Answers(results: seq<Message>, calls: seq<ToolCall>) {
    && |results| == |calls|
    && AllResults(results)
    && multiset(ResultKeys(results)) == multiset(CallKeys(calls))
  }

  ghost predicate WellPaired(ms: seq<Message>) {
    if ms == [] then true
    else match ms[0]
      case Assistant(_, calls, _) =>
        && |calls| < |ms|
        && Answers(ms[1..1 + |calls|], calls)
        && WellPaired(ms[1 + |calls|..])
      case ToolResult(_, _, _, _) => false
      case _ => WellPaired(ms[1..])
  }

  lemma Unfolded(ms: seq<Message>)
    requires ms != []
    ensures ms[0].Assistant? ==>
              (WellPaired(ms) <==>
                 && |ms[0].calls| < |ms| && Answers(ms[1..1 + |ms[0].calls|], ms[0].calls)
                 && WellPaired(ms[1 + |ms[0].calls|..]))
    ensures !ms[0].Assistant? ==> (WellPaired(ms) <==> !ms[0].ToolResult? && WellPaired(ms[1..]))
  {
    hide Answers;
  }

  lemma {:induction false} WellPairedAppend(a: seq<Message>, b: seq<Message>)
    requires WellPaired(a) && WellPaired(b)
    ensures WellPaired(a + b)
  {
    hide Answers, WellPaired;
    if a == [] {
      assert a + b == b;
    } else {
      Unfolded(a);
      Unfolded(a + b);
      if a[0].Assistant? {
        var n := |a[0].calls|;
        assert (a + b)[1..1 + n] == a[1..1 + n];
        assert (a + b)[1 + n..] == a[1 + n..] + b;
        WellPairedAppend(a[1 + n..], b);
      } else {
        assert (a + b)[1..] == a[1..] + b;
        WellPairedAppend(a[1..], b);
      }
    }
  }

  lemma {:induction false} UserSideIsWellPaired(ms: seq<Message>)
    requires AllUserSide(ms)
    ensures WellPaired(ms)
  {
    if ms != [] {
      assert ms[0].UserSide();
      assert forall i :: 0 <= i < |ms[1..]| ==> ms[1..][i] == ms[i + 1];
      UserSideIsWellPaired(ms[1..]);
    }
  }

  /** One answered assistant message, placed after a well-paired transcript, keeps it well paired. */
  lemma AnsweredTurnIsWellPaired(ms: seq<Message>, m: Message, results: seq<Message>)
    requires WellPaired(ms) && m.Assistant? && Answers(results, m.calls)
    ensures WellPaired(ms + [m] + results)
  {
    hide Answers, WellPaired;
    OneResultEach(results, m.calls);
    var turn := [m] + results;
    Unfolded(turn);
    NothingIsWellPaired();
    assert turn[1..1 + |m.calls|] == results;
    assert turn[1 + |m.calls|..] == [];
    WellPairedAppend(ms, turn);
    assert ms + [m] + results == ms + turn;
  }

  lemma OneResultEach(results: seq<Message>, calls: seq<ToolCall>)
    requires Answers(results, calls)
    ensures |results| == |calls|
  {
  }

  lemma NothingIsWellPaired()
    ensures WellPaired([])
  {
  }

  /** The messages of a transcript that came from the outside, in order. */
  function FromOutside(ms: seq<Message>): seq<Message> {
    if ms == [] then []
    else
      var m := ms[|ms| - 1];
      FromOutside(ms[..|ms| - 1]) + if m.UserSide() then [m] else []
  }

  lemma {:induction false} FromOutsideAppend(a: seq<Message>, b: seq<Message>)
    ensures FromOutside(a + b) == FromOutside(a) + FromOutside(b)
  {
    if b == [] {
      assert a + b == a;
    } else {
      assert (a + b)[..|a + b| - 1] == a + b[..|b| - 1];
      FromOutsideAppend(a, b[..|b| - 1]);
    }
  }

  lemma {:induction false} FromOutsideAll(ms: seq<Message>)
    requires AllUserSide(ms)
    ensures FromOutside(ms) == ms
  {
    if ms != [] {
      FromOutsideAll(ms[..|ms| - 1]);
      assert ms == ms[..|ms| - 1] + [ms[|ms| - 1]];
    }
  }

  lemma {:induction false} FromOutsideNone(ms: seq<Message>)
    requires forall i :: 0 <= i < |ms| ==> !ms[i].UserSide()
    ensures FromOutside(ms) == []
  {
    if ms != [] {
      FromOutsideNone(ms[..|ms| - 1]);
    }
  }
}
