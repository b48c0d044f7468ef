/**
 Reading a proxied model response: lines framed from text chunks, and a message rebuilt from the events on
 them. The line format is the subset of section 9.2 of the WHATWG HTML standard that the proxy uses: lines
 that begin with "data: ".
 */
module ProxyStream {
  import opened Wrappers
  import opened Strings

  // ---------------------------------------------------------------------------------------------
  // Lines
  // ---------------------------------------------------------------------------------------------

  /** Splits at every line feed; there is always a last part, possibly empty. */
  function Split(text: string): (parts: seq<string>)
    ensures |parts| > 0
  {
    if text == [] then [""]
    else
      var parts, c := Split(text[..|text| - 1]), text[|text| - 1];
      if c == '\n' then parts + [""]
      else parts[..|parts| - 1] + [parts[|parts| - 1] + [c]]
  }

  function Lines(text: string): seq<string> { Split(text)[..|Split(text)| - 1] }

  function Remainder(text: string): string { Split(text)[|Split(text)| - 1] }

  function Concat(chunks: seq<string>): string {
    if chunks == [] then "" else Concat(chunks[..|chunks| - 1]) + chunks[|chunks| - 1]
  }

  function Join(parts: seq<string>): string {
    if parts == [] then ""
    else if |parts| == 1 then parts[0]
    else Join(parts[..|parts| - 1]) + "\n" + parts[|parts| - 1]
  }

  /** The parts are the text between its line feeds: joined by line feeds they are the text, and they hold none. */
  lemma {:induction false} SplitMeaning(text: string)
    ensures Join(Split(text)) == text
    ensures forall k :: 0 <= k < |Split(text)| ==> '\n' !in Split(text)[k]
  {
    if text != [] {
      var init, c := text[..|text| - 1], text[|text| - 1];
      SplitMeaning(init);
      assert text == init + [c];
      JoinLast(Split(init), c);
    }
  }

  lemma JoinLast(parts: seq<string>, c: char)
    requires parts != []
    ensures Join(parts + [""]) == Join(parts) + "\n"
    ensures Join(parts[..|parts| - 1] + [parts[|parts| - 1] + [c]]) == Join(parts) + [c]
  {
    var init, last := parts[..|parts| - 1], parts[|parts| - 1];
    assert (parts + [""])[..|parts|] == parts;
    assert (init + [last + [c]])[..|init|] == init;
    if init != [] {
      assert Join(init) + "\n" + (last + [c]) == Join(init) + "\n" + last + [c];
    }
  }

  lemma OneMoreChar(text: string, c: char)
    ensures Lines(text + [c]) == if c == '\n' then Lines(text) + [Remainder(text)] else Lines(text)
    ensures Remainder(text + [c]) == if c == '\n' then "" else Remainder(text) + [c]
  {
    assert (text + [c])[..|text + [c]| - 1] == text;
    var parts := Split(text);
    assert parts[..|parts| - 1] + [parts[|parts| - 1]] == parts;
  }

  lemma {:induction false} RemainderIsOneLine(text: string)
    ensures Lines(Remainder(text)) == [] && Remainder(Remainder(text)) == Remainder(text)
  {
    if text != [] {
      var init, c := text[..|text| - 1], text[|text| - 1];
      assert init + [c] == text;
      RemainderIsOneLine(init);
      OneMoreChar(init, c);
      OneMoreChar(Remainder(init), c);
    }
  }

  /** What one read contributes: the lines it completes, and the text it leaves for the next one. */
  lemma {:induction false} OneMoreChunk(text: string, chunk: string)
    ensures Lines(text + chunk) == Lines(text) + Lines(Remainder(text) + chunk)
    ensures Remainder(text + chunk) == Remainder(Remainder(text) + chunk)
  {
    hide Split, Lines, Remainder;
    if chunk == [] {
      assert text + chunk == text && Remainder(text) + chunk == Remainder(text);
      RemainderIsOneLine(text);
    } else {
      var init, c := chunk[..|chunk| - 1], chunk[|chunk| - 1];
      OneMoreChunk(text, init);
      OneMoreChar(text + init, c);
      OneMoreChar(Remainder(text) + init, c);
      assert text + chunk == text + init + [c] && Remainder(text) + chunk == Remainder(text) + init + [c];
    }
  }

  // ---------------------------------------------------------------------------------------------
  // Events on lines
  // ---------------------------------------------------------------------------------------------

  datatype ProxyEvent =
    | Start
    | TextStart(index: nat)
    | TextDelta(index: nat, delta: string)
    | TextEnd(index: nat, signature: Option<string>)
    | ThinkingStart(index: nat)
    | ThinkingDelta(index: nat, delta: string)
    | ThinkingEnd(index: nat, signature: Option<string>)
    | ToolCallStart(index: nat, id: string, name: string)
    | ToolCallDelta(index: nat, delta: string)
    | ToolCallEnd(index: nat)
    | Done(reason: string)
    | Failed(reason: string, message: Option<string>)
    | Unknown(name: string)

  /** The arguments of a tool call: none yet, or whatever the streaming parser makes of the text so far. */
  datatype Arguments = NoArguments | StreamingParse(text: string)

  datatype Block =
    | Text(text: string, signature: Option<string>)
    | Thinking(thinking: string, signature: Option<string>)
    | ToolCall(id: string, name: string, arguments: Arguments, partialJson: Option<string>)

  datatype Partial = Partial(content: map<nat, Block>, stopReason: string, errorMessage: Option<string>)

  /** What a consumer is told: the event, and for the end of a text or thinking block its full content. */
  datatype Output = Output(event: ProxyEvent, content: Option<string>) | Error(reason: string)

  /** Adding a delta to a property that was deleted prepends the word for its absence. */
  function Append(partialJson: Option<string>, delta: string): string {
    (if partialJson.Some? then partialJson.value else "undefined") + delta
  }

  /** One event applied to the message: an error, or the new message with what to tell the consumer. */
  function Process(p: Partial, e: ProxyEvent): Result<(Partial, Option<Output>), string> {
    match e
    case Start => Success((p, Some(Output(e, None))))
    case TextStart(i) => Success((p.(content := p.content[i := Text("", None)]), Some(Output(e, None))))
    case TextDelta(i, delta) =>
      if i in p.content && p.content[i].Text?
      then Success((p.(content := p.content[i := p.content[i].(text := p.content[i].text + delta)]), Some(Output(e, None))))
      else Failure("Received text_delta for non-text content")
    case TextEnd(i, signature) =>
      if i in p.content && p.content[i].Text?
      then Success((p.(content := p.content[i := Text(p.content[i].text, signature)]), Some(Output(e, Some(p.content[i].text)))))
      else Failure("Received text_end for non-text content")
    case ThinkingStart(i) => Success((p.(content := p.content[i := Thinking("", None)]), Some(Output(e, None))))
    case ThinkingDelta(i, delta) =>
      if i in p.content && p.content[i].Thinking?
      then Success((p.(content := p.content[i := p.content[i].(thinking := p.content[i].thinking + delta)]), Some(Output(e, None))))
      else Failure("Received thinking_delta for non-thinking content")
    case ThinkingEnd(i, signature) =>
      if i in p.content && p.content[i].Thinking?
      then Success((p.(content := p.content[i := Thinking(p.content[i].thinking, signature)]), Some(Output(e, Some(p.content[i].thinking)))))
      else Failure("Received thinking_end for non-thinking content")
    case ToolCallStart(i, id, name) =>
      Success((p.(content := p.content[i := ToolCall(id, name, NoArguments, Some(""))]), Some(Output(e, None))))
    case ToolCallDelta(i, delta) =>
      if i in p.content && p.content[i].ToolCall?
      then
        var text := Append(p.content[i].partialJson, delta);
        Success((p.(content := p.content[i := p.content[i].(partialJson := Some(text), arguments := StreamingParse(text))]),
                 Some(Output(e, None))))
      else Failure("Received toolcall_delta for non-toolCall content")
    case ToolCallEnd(i) =>
      if i in p.content && p.content[i].ToolCall?
      then Success((p.(content := p.content[i := p.content[i].(partialJson := None)]), Some(Output(e, None))))
      else Success((p, None))
    case Done(reason) => Success((p.(stopReason := reason), Some(Output(e, None))))
    case Failed(reason, message) => Success((p.(stopReason := reason, errorMessage := message), Some(Output(e, None))))
    case Unknown(_) => Success((p, None))
  }

  predicate Addresses(e: ProxyEvent, i: nat) {
    !e.Start? && !e.Done? && !e.Failed? && !e.Unknown? && e.index == i
  }

  predicate Begins(e: ProxyEvent, i: nat) {
    (e.TextStart? || e.ThinkingStart? || e.ToolCallStart?) && e.index == i
  }

  predicate IsDelta(e: ProxyEvent, i: nat) {
    (e.TextDelta? || e.ThinkingDelta? || e.ToolCallDelta?) && e.index == i
  }

  const EMPTY := Partial(map[], "stop", None)

  /** The message after a sequence of events, or the first error. */
  function Rebuild(events: seq<ProxyEvent>): Result<Partial, string> {
    if events == [] then Success(EMPTY)
    else
      match Rebuild(events[..|events| - 1])
      case Failure(error) => Failure(error)
      case Success(p) =>
        match Process(p, events[|events| - 1])
        case Failure(error) => Failure(error)
        case Success(r) => Success(r.0)
  }

  /** The deltas of one index, concatenated in order. */
  function DeltaText(events: seq<ProxyEvent>, i: nat): string {
    if events == [] then ""
    else
      var e := events[|events| - 1];
      if IsDelta(e, i) then DeltaText(events[..|events| - 1], i) + e.delta else DeltaText(events[..|events| - 1], i)
  }

  /** The signature that the last end of index `i` carried, if it had an end and that carried one. */
  function LastSignature(events: seq<ProxyEvent>, i: nat): Option<string> {
    if events == [] then None
    else
      var e := events[|events| - 1];
      if (e.TextEnd? || e.ThinkingEnd?) && e.index == i then e.signature else LastSignature(events[..|events| - 1], i)
  }

  /** The last end of the tool call at index `i`. */
  function LastEnd(events: seq<ProxyEvent>, i: nat): (at: Option<nat>)
    ensures at.Some? ==> at.value < |events| && events[at.value] == ToolCallEnd(i)
    ensures forall k :: 0 <= k < |events| && events[k] == ToolCallEnd(i) ==> at.Some? && k <= at.value
  {
    if events == [] then None
    else if events[|events| - 1] == ToolCallEnd(i) then Some(|events| - 1)
    else LastEnd(events[..|events| - 1], i)
  }

  /** The last end of the tool call at index `i` that one of its deltas follows. */
  function Cut(events: seq<ProxyEvent>, i: nat): (at: Option<nat>)
    ensures at.Some? ==> at.value < |events|
  {
    if events == [] then None
    else
      var init := events[..|events| - 1];
      if IsDelta(events[|events| - 1], i) && LastEnd(init, i).Some? then LastEnd(init, i) else Cut(init, i)
  }

  /** The text a tool call has accumulated: after a cut, the word for absence and the deltas since then. */
  function Accumulated(events: seq<ProxyEvent>, i: nat): string { TextSince(events, Cut(events, i), i) }

  function TextSince(events: seq<ProxyEvent>, cut: Option<nat>, i: nat): string
    requires cut.Some? ==> cut.value < |events|
  {
    if cut.None? then DeltaText(events, i) else "undefined" + DeltaText(events[cut.value + 1..], i)
  }

  ghost predicate HasDelta(events: seq<ProxyEvent>, i: nat) {
    exists k :: 0 <= k < |events| && IsDelta(events[k], i)
  }

  /** What the block begun by `start` holds after the events `rest`, none of which begins it again. */
  ghost predicate IsRebuilt(b: Block, start: ProxyEvent, rest: seq<ProxyEvent>, i: nat) {
    match start
    case TextStart(_) => b.Text? && b.text == DeltaText(rest, i) && b.signature == LastSignature(rest, i)
    case ThinkingStart(_) => b.Thinking? && b.thinking == DeltaText(rest, i) && b.signature == LastSignature(rest, i)
    case ToolCallStart(_, id, name) =>
      && b.ToolCall? && b.id == id && b.name == name
      && b.arguments == (if HasDelta(rest, i) then StreamingParse(Accumulated(rest, i)) else NoArguments)
      && b.partialJson == (if LastEnd(rest, i) != Cut(rest, i) then None else Some(Accumulated(rest, i)))
    case _ => false
  }

  /** An event changes no index but its own. */
  lemma OtherIndicesUntouched(p: Partial, e: ProxyEvent, i: nat)
    requires !Addresses(e, i) && Process(p, e).Success?
    ensures var p' := Process(p, e).value.0;
            (i in p'.content <==> i in p.content) && (i in p.content ==> p'.content[i] == p.content[i])
  {
  }

  lemma DeltaTextSnoc(events: seq<ProxyEvent>, e: ProxyEvent, i: nat)
    ensures DeltaText(events + [e], i) == if IsDelta(e, i) then DeltaText(events, i) + e.delta else DeltaText(events, i)
    ensures LastSignature(events + [e], i)
         == if (e.TextEnd? || e.ThinkingEnd?) && e.index == i then e.signature else LastSignature(events, i)
    ensures HasDelta(events + [e], i) <==> HasDelta(events, i) || IsDelta(e, i)
  {
    var all := events + [e];
    assert all[..|all| - 1] == events;
    if HasDelta(events, i) {
      var k :| 0 <= k < |events| && IsDelta(events[k], i);
      assert IsDelta(all[k], i);
    }
    if IsDelta(e, i) {
      assert IsDelta(all[|events|], i);
    }
  }

  lemma CutSnoc(events: seq<ProxyEvent>, e: ProxyEvent, i: nat)
    ensures LastEnd(events + [e], i) == if e == ToolCallEnd(i) then Some(|events|) else LastEnd(events, i)
    ensures Cut(events + [e], i) == if IsDelta(e, i) && LastEnd(events, i).Some? then LastEnd(events, i) else Cut(events, i)
  {
    assert (events + [e])[..|events|] == events;
  }

  lemma DeltaTextStep(a: seq<ProxyEvent>, init: seq<ProxyEvent>, e: ProxyEvent, i: nat)
    requires DeltaText(a + init, i) == DeltaText(a, i) + DeltaText(init, i)
    ensures DeltaText(a + init + [e], i) == DeltaText(a, i) + DeltaText(init + [e], i)
  {
    hide DeltaText, LastSignature, HasDelta;
    DeltaTextSnoc(a + init, e, i);
    DeltaTextSnoc(init, e, i);
  }

  lemma {:induction false} DeltaTextAppend(a: seq<ProxyEvent>, b: seq<ProxyEvent>, i: nat)
    ensures DeltaText(a + b, i) == DeltaText(a, i) + DeltaText(b, i)
  {
    hide IsDelta;
    if b == [] {
      assert a + b == a;
    } else {
      var init, e := b[..|b| - 1], b[|b| - 1];
      DeltaTextAppend(a, init, i);
      DeltaTextStep(a, init, e, i);
      assert b == init + [e] && a + b == a + init + [e];
    }
  }

  lemma {:induction false} NoDeltaNoText(events: seq<ProxyEvent>, i: nat)
    requires forall k :: 0 <= k < |events| ==> !IsDelta(events[k], i)
    ensures DeltaText(events, i) == ""
  {
    if events != [] {
      NoDeltaNoText(events[..|events| - 1], i);
    }
  }

  /** What a cut is, both ways: the last of the call's ends that a delta of its own follows. */
  lemma {:induction false} CutMeaning(events: seq<ProxyEvent>, i: nat)
    ensures match Cut(events, i)
            case Some(c) =>
              && c < |events| && events[c] == ToolCallEnd(i)
              && (exists k :: c < k < |events| && IsDelta(events[k], i))
              && (forall j, k :: c < j < k < |events| && events[j] == ToolCallEnd(i) ==> !IsDelta(events[k], i))
            case None =>
              forall j, k :: 0 <= j < k < |events| && events[j] == ToolCallEnd(i) ==> !IsDelta(events[k], i)
    ensures Cut(events, i).Some? ==> LastEnd(events, i).Some? && Cut(events, i).value <= LastEnd(events, i).value
  {
    hide LastEnd;
    if events != [] {
      var init, e := events[..|events| - 1], events[|events| - 1];
      assert events == init + [e];
      CutMeaning(init, i);
      CutSnoc(init, e, i);
      if IsDelta(e, i) && LastEnd(init, i).Some? {
        assert IsDelta(events[|init|], i);
      } else if Cut(init, i).Some? {
        var k :| Cut(init, i).value < k < |init| && IsDelta(init[k], i);
        assert IsDelta(events[k], i);
      }
    }
  }

  /** After an end without a delta since, nothing has been accumulated for the next delta to follow. */
  lemma AfterLastEnd(events: seq<ProxyEvent>, i: nat)
    requires LastEnd(events, i).Some? && LastEnd(events, i) != Cut(events, i)
    ensures TextSince(events, LastEnd(events, i), i) == "undefined"
  {
    hide DeltaText, LastEnd, Cut;
    CutMeaning(events, i);
    var c := LastEnd(events, i).value;
    NoDeltaNoText(events[c + 1..], i);
  }

  lemma TextSinceSnoc(events: seq<ProxyEvent>, e: ProxyEvent, cut: Option<nat>, i: nat)
    requires cut.Some? ==> cut.value < |events|
    ensures TextSince(events + [e], cut, i)
         == if IsDelta(e, i) then TextSince(events, cut, i) + e.delta else TextSince(events, cut, i)
  {
    hide DeltaText, LastSignature, HasDelta;
    if cut.None? {
      DeltaTextSnoc(events, e, i);
    } else {
      DeltaTextSnoc(events[cut.value + 1..], e, i);
      assert (events + [e])[cut.value + 1..] == events[cut.value + 1..] + [e];
    }
  }

  lemma AccumulatedSnoc(events: seq<ProxyEvent>, e: ProxyEvent, i: nat)
    ensures Accumulated(events + [e], i)
         == if !IsDelta(e, i) then Accumulated(events, i)
            else if LastEnd(events, i) != Cut(events, i) then "undefined" + e.delta
            else Accumulated(events, i) + e.delta
  {
    hide TextSince, LastEnd, Cut, IsDelta;
    CutOrNot(events, i);
    CutSnoc(events, e, i);
    TextSinceSnoc(events, e, Cut(events, i), i);
    if LastEnd(events, i) != Cut(events, i) {
      TextSinceSnoc(events, e, LastEnd(events, i), i);
      AfterLastEnd(events, i);
    }
  }

  lemma CutOrNot(events: seq<ProxyEvent>, i: nat)
    ensures LastEnd(events, i).None? ==> Cut(events, i).None?
  {
    CutMeaning(events, i);
  }

  lemma OneMoreEvent(p: Partial, start: ProxyEvent, rest: seq<ProxyEvent>, e: ProxyEvent, i: nat)
    requires i in p.content && IsRebuilt(p.content[i], start, rest, i) && Begins(start, i)
    requires Process(p, e).Success? && !Begins(e, i)
    ensures var p' := Process(p, e).value.0;
            i in p'.content && IsRebuilt(p'.content[i], start, rest + [e], i)
  {
    hide DeltaText, LastSignature, LastEnd, Cut, Accumulated, HasDelta;
    DeltaTextSnoc(rest, e, i);
    CutSnoc(rest, e, i);
    CutMeaning(rest, i);
    AccumulatedSnoc(rest, e, i);
    if !Addresses(e, i) {
      OtherIndicesUntouched(p, e, i);
    }
  }

  lemma RebuildLast(events: seq<ProxyEvent>)
    requires events != [] && Rebuild(events).Success?
    ensures var init := events[..|events| - 1];
            && Rebuild(init).Success? && Process(Rebuild(init).value, events[|events| - 1]).Success?
            && Rebuild(events).value == Process(Rebuild(init).value, events[|events| - 1]).value.0
  {
  }

  lemma BegunBlock(p: Partial, e: ProxyEvent, i: nat)
    requires Begins(e, i)
    ensures Process(p, e).Success? && i in Process(p, e).value.0.content
    ensures IsRebuilt(Process(p, e).value.0.content[i], e, [], i)
  {
  }

  lemma WasThere(p: Partial, e: ProxyEvent, i: nat)
    requires !Begins(e, i) && Process(p, e).Success? && i in Process(p, e).value.0.content
    ensures i in p.content
  {
  }

  /**
   Incremental reconstruction: in the message rebuilt from an accepted event sequence, each block is what
   its last start event began and its own deltas since then filled in, however the indices interleave.
   */
  lemma {:induction false} BlocksAreRebuilt(events: seq<ProxyEvent>, i: nat) returns (start: nat)
    requires Rebuild(events).Success? && i in Rebuild(events).value.content
    ensures start < |events| && Begins(events[start], i)
    ensures forall k :: start < k < |events| ==> !Begins(events[k], i)
    ensures IsRebuilt(Rebuild(events).value.content[i], events[start], events[start + 1..], i)
  {
    hide Process, IsRebuilt, Begins, Rebuild;
    NothingToBeginWith();
    if events != [] {
      var init, e := events[..|events| - 1], events[|events| - 1];
      RebuildLast(events);
      var p := Rebuild(init).value;
      if Begins(e, i) {
        start := |events| - 1;
        BegunBlock(p, e, i);
        assert events[start + 1..] == [];
      } else {
        WasThere(p, e, i);
        start := BlocksAreRebuilt(init, i);
        OneMoreEvent(p, events[start], init[start + 1..], e, i);
        assert events[start + 1..] == init[start + 1..] + [e];
      }
    }
  }

  lemma NothingToBeginWith()
    ensures Rebuild([]) == Success(EMPTY)
  {
  }

  /** What the arguments of a call are made of when no delta is missing or foreign. */
  ghost function Faithful(rest: seq<ProxyEvent>, i: nat): Arguments {
    if HasDelta(rest, i) then StreamingParse(DeltaText(rest, i)) else NoArguments
  }

  /**
   A tool call's arguments are parsed from its own deltas, in every accepted sequence, exactly unless a delta
   follows an end of the call; but if the deltas before the last such end happen to spell "undefined", they are even
   then.
   */
  lemma ArgumentsAreFaithfulIff(events: seq<ProxyEvent>, i: nat) returns (start: nat)
    requires Rebuild(events).Success? && i in Rebuild(events).value.content && Rebuild(events).value.content[i].ToolCall?
    ensures start < |events| && Begins(events[start], i) && forall k :: start < k < |events| ==> !Begins(events[k], i)
    ensures var rest := events[start + 1..];
            Rebuild(events).value.content[i].arguments == Faithful(rest, i) <==>
            match Cut(rest, i)
            case None => true
            case Some(c) => DeltaText(rest[..c], i) == "undefined"
  {
    hide Process, Rebuild, DeltaText, LastEnd, Cut;
    start := BlocksAreRebuilt(events, i);
    var rest := events[start + 1..];
    CutMeaning(rest, i);
    if Cut(rest, i).Some? {
      var c := Cut(rest, i).value;
      TextAround(rest, c, i);
      SamePrefix("undefined", DeltaText(rest[..c], i), DeltaText(rest[c + 1..], i));
    }
  }

  lemma TextAround(events: seq<ProxyEvent>, c: nat, i: nat)
    requires c < |events| && !IsDelta(events[c], i)
    ensures DeltaText(events, i) == DeltaText(events[..c], i) + DeltaText(events[c + 1..], i)
  {
    assert events == events[..c] + [events[c]] + events[c + 1..];
    DeltaTextAppend(events[..c] + [events[c]], events[c + 1..], i);
    DeltaTextSnoc(events[..c], events[c], i);
  }

  lemma SamePrefix(a: string, b: string, s: string)
    ensures a + s == b + s <==> a == b
  {
    if a + s == b + s {
      assert |a| == |b|;
      assert a == (a + s)[..|a|] && b == (b + s)[..|b|];
    }
  }

  /** A call, one delta, its end and another delta: the first delta is gone, and "undefined" stands in for it. */
  function LateDelta(first: string, second: string): seq<ProxyEvent> {
    [ToolCallStart(0, "1", "f"), ToolCallDelta(0, first), ToolCallEnd(0), ToolCallDelta(0, second)]
  }

  lemma LateDeltaIsCorrupted(first: string, second: string)
    ensures var r := Rebuild(LateDelta(first, second));
            && r.Success? && 0 in r.value.content && r.value.content[0].ToolCall?
            && r.value.content[0].arguments == StreamingParse("undefined" + second)
            && (r.value.content[0].arguments == StreamingParse(first + second) <==> first == "undefined")
  {
    var events := LateDelta(first, second);
    assert events[..3][..2][..1][..0] == [];
    assert events[..3] == [events[0], events[1], events[2]] && events[..3][..2] == [events[0], events[1]];
    assert [events[0], events[1]][..1] == [events[0]] && [events[0]][..0] == [];
    var one := Process(EMPTY, events[0]).value.0;
    var two := Process(one, events[1]).value.0;
    var three := Process(two, events[2]).value.0;
    assert Rebuild([events[0]]) == Success(one);
    assert Rebuild([events[0], events[1]]) == Success(two);
    assert Rebuild(events[..3]) == Success(three);
    SamePrefix("undefined", first, second);
  }

  /** The end of a text or thinking block reports all of its deltas. */
  lemma EndReportsTheWholeBlock(events: seq<ProxyEvent>, end: ProxyEvent) returns (start: nat)
    requires (end.TextEnd? || end.ThinkingEnd?) && Rebuild(events + [end]).Success?
    ensures start < |events| && Begins(events[start], end.index)
    ensures forall k :: start < k < |events| ==> !Begins(events[k], end.index)
    ensures Rebuild(events).Success?
    ensures Process(Rebuild(events).value, end).Success?
    ensures Process(Rebuild(events).value, end).value.1 == Some(Output(end, Some(DeltaText(events[start + 1..], end.index))))
  {
    var all := events + [end];
    assert all[..|all| - 1] == events;
    start := BlocksAreRebuilt(events, end.index);
  }

  /** The reason of the last event that ends the message, and the error of the last that failed it. */
  function LastReason(events: seq<ProxyEvent>): string {
    if events == [] then "stop"
    else
      var e := events[|events| - 1];
      if e.Done? || e.Failed? then e.reason else LastReason(events[..|events| - 1])
  }

  function LastError(events: seq<ProxyEvent>): Option<string> {
    if events == [] then None
    else
      var e := events[|events| - 1];
      if e.Failed? then e.message else LastError(events[..|events| - 1])
  }

  lemma {:induction false} EndingIsTheLast(events: seq<ProxyEvent>)
    requires Rebuild(events).Success?
    ensures Rebuild(events).value.stopReason == LastReason(events) && Rebuild(events).value.errorMessage == LastError(events)
  {
    if events != [] {
      EndingIsTheLast(events[..|events| - 1]);
    }
  }

  // ---------------------------------------------------------------------------------------------
  // The reading loop
  // ---------------------------------------------------------------------------------------------

  const PREFIX := "data: "

  /** The data of a line, or nothing for the lines that are passed over. */
  function DataOf(line: string): string {
    if PREFIX <= line then Trim(line[|PREFIX|..]) else ""
  }

  /** The reader's state: the message, what the consumer was told, and the error that ended the reading. */
  datatype Reading = Reading(partial: Partial, outputs: seq<Output>, error: Option<string>)

  const BEGUN := Reading(EMPTY, [], None)

  /** One line: the decoder stands for the JSON parser, which may throw. */
  function ReadLine(r: Reading, line: string, decode: string -> Result<ProxyEvent, string>): Reading {
    if r.error.Some? || DataOf(line) == "" then r
    else
      match decode(DataOf(line))
      case Failure(error) => r.(error := Some(error))
      case Success(e) =>
        match Process(r.partial, e)
        case Failure(error) => r.(error := Some(error))
        case Success((p, output)) => Reading(p, r.outputs + (if output.Some? then [output.value] else []), None)
  }

  function ReadLines(r: Reading, lines: seq<string>, decode: string -> Result<ProxyEvent, string>): Reading {
    if lines == [] then r
    else ReadLine(ReadLines(r, lines[..|lines| - 1], decode), lines[|lines| - 1], decode)
  }

  /**
   How the reading stops, if no line stops it: the stream is complete, the request was aborted (noticed before the
   next chunk is looked at, or at the end), or a read, or the request itself, throws.
   */
  datatype Ending = Complete | Aborted | Throws(error: string, aborted: bool)

  const ABORTED := "Request aborted by user"

  function Mark(r: Reading, reason: string, error: string): Reading {
    Reading(r.partial.(stopReason := reason, errorMessage := Some(error)), r.outputs + [Error(reason)], Some(error))
  }

  /** The end of the stream: an error becomes the last output and marks the message. */
  function Finish(r: Reading, ending: Ending): Reading {
    if r.error.Some? then Mark(r, "error", r.error.value)
    else
      match ending
      case Complete => r
      case Aborted => Mark(r, "aborted", ABORTED)
      case Throws(error, aborted) => Mark(r, if aborted then "aborted" else "error", error)
  }

  lemma {:induction false} ReadLinesAppend(r: Reading, a: seq<string>, b: seq<string>, decode: string -> Result<ProxyEvent, string>)
    ensures ReadLines(r, a + b, decode) == ReadLines(ReadLines(r, a, decode), b, decode)
  {
    if b == [] {
      assert a + b == a;
    } else {
      assert (a + b)[..|a + b| - 1] == a + b[..|b| - 1];
      ReadLinesAppend(r, a, b[..|b| - 1], decode);
    }
  }

  lemma {:induction false} ErrorStays(r: Reading, lines: seq<string>, decode: string -> Result<ProxyEvent, string>)
    requires r.error.Some?
    ensures ReadLines(r, lines, decode) == r
  {
    if lines != [] {
      ErrorStays(r, lines[..|lines| - 1], decode);
    }
  }

  /** What the message and the consumer get from a text: all of it but what follows the last line feed. */
  function ReadText(text: string, ending: Ending, decode: string -> Result<ProxyEvent, string>): Reading {
    Finish(ReadLines(BEGUN, Lines(text), decode), ending)
  }

  /** The processing of one event, on the message it updates in place. */
  class MessageBuilder {
    var content: map<nat, Block>
    var stopReason: string
    var errorMessage: Option<string>

    function Shown(): Partial
      reads this
    {
      Partial(content, stopReason, errorMessage)
    }

    constructor ()
      ensures Shown() == EMPTY
    {
      content, stopReason, errorMessage := map[], "stop", None;
    }

    method ProcessProxyEvent(e: ProxyEvent) returns (r: Result<Option<Output>, string>)
      modifies this
      ensures match Process(old(Shown()), e)
              case Failure(error) => r == Failure(error) && Shown() == old(Shown())
              case Success((p, output)) => r == Success(output) && Shown() == p
    {
      if e.ToolCallStart? || e.ToolCallDelta? || e.ToolCallEnd? {
        r := ProcessToolCall(e);
        return;
      }
      r := Success(Some(Output(e, None)));
      match e
      case Start =>
      case TextStart(i) => content := content[i := Text("", None)];
      case TextDelta(i, delta) =>
        if i !in content || !content[i].Text? { return Failure("Received text_delta for non-text content"); }
        content := content[i := content[i].(text := content[i].text + delta)];
      case TextEnd(i, signature) =>
        if i !in content || !content[i].Text? { return Failure("Received text_end for non-text content"); }
        content := content[i := Text(content[i].text, signature)];
        r := Success(Some(Output(e, Some(content[i].text))));
      case ThinkingStart(i) => content := content[i := Thinking("", None)];
      case ThinkingDelta(i, delta) =>
        if i !in content || !content[i].Thinking? { return Failure("Received thinking_delta for non-thinking content"); }
        content := content[i := content[i].(thinking := content[i].thinking + delta)];
      case ThinkingEnd(i, signature) =>
        if i !in content || !content[i].Thinking? { return Failure("Received thinking_end for non-thinking content"); }
        content := content[i := Thinking(content[i].thinking, signature)];
        r := Success(Some(Output(e, Some(content[i].thinking))));
      case Done(reason) => stopReason := reason;
      case Failed(reason, message) =>
        stopReason := reason;
        errorMessage := message;
      case Unknown(_) => r := Success(None);
    }

    method ProcessToolCall(e: ProxyEvent) returns (r: Result<Option<Output>, string>)
      requires e.ToolCallStart? || e.ToolCallDelta? || e.ToolCallEnd?
      modifies this
      ensures match Process(old(Shown()), e)
              case Failure(error) => r == Failure(error) && Shown() == old(Shown())
              case Success((p, output)) => r == Success(output) && Shown() == p
    {
      r := Success(Some(Output(e, None)));
      match e
      case ToolCallStart(i, id, name) => content := content[i := ToolCall(id, name, NoArguments, Some(""))];
      case ToolCallDelta(i, delta) =>
        if i !in content || !content[i].ToolCall? { return Failure("Received toolcall_delta for non-toolCall content"); }
        var text := Append(content[i].partialJson, delta);
        content := content[i := content[i].(partialJson := Some(text), arguments := StreamingParse(text))];
      case ToolCallEnd(i) =>
        if i !in content || !content[i].ToolCall? { return Success(None); }
        content := content[i := content[i].(partialJson := None)];
    }
  }

  /** Reads the chunks up to the ending one by one, carrying the unfinished line over from each to the next. */
  method StreamProxy(chunks: seq<string>, ending: Ending, decode: string -> Result<ProxyEvent, string>)
    returns (partial: Partial, outputs: seq<Output>)
    ensures var r := ReadText(Concat(chunks), ending, decode);
            partial == r.partial && outputs == r.outputs
  {
    var builder := new MessageBuilder();
    outputs := [];
    var buffer := "";
    ghost var r := BEGUN;
    for c := 0 to |chunks|
      invariant r == ReadLines(BEGUN, Lines(Concat(chunks[..c])), decode) && r.error.None?
      invariant buffer == Remainder(Concat(chunks[..c]))
      invariant builder.Shown() == r.partial && outputs == r.outputs
    {
      hide Lines, Remainder, Split, ReadLines, ReadLine;
      assert chunks[..c + 1][..c] == chunks[..c];
      OneMoreChunk(Concat(chunks[..c]), chunks[c]);
      var text := buffer + chunks[c];
      var lines := Lines(text);
      buffer := Remainder(text);
      var error;
      outputs, error, r := ProcessLines(builder, lines, outputs, decode, r);
      ReadLinesAppend(BEGUN, Lines(Concat(chunks[..c])), lines, decode);
      if error.Some? {
        FailedEarly(chunks, c + 1, decode);
        partial := builder.Shown().(stopReason := "error", errorMessage := error);
        outputs := outputs + [Error("error")];
        return;
      }
    }
    assert chunks[..|chunks|] == chunks;
    match ending {
      case Complete =>
        partial := builder.Shown();
      case Aborted =>
        partial := builder.Shown().(stopReason := "aborted", errorMessage := Some(ABORTED));
        outputs := outputs + [Error("aborted")];
      case Throws(error, aborted) =>
        var reason := if aborted then "aborted" else "error";
        partial := builder.Shown().(stopReason := reason, errorMessage := Some(error));
        outputs := outputs + [Error(reason)];
    }
  }

  /** The lines of one read; an exception leaves the rest of them unread. */
  method ProcessLines(builder: MessageBuilder, lines: seq<string>, outputs: seq<Output>,
                      decode: string -> Result<ProxyEvent, string>, ghost start: Reading)
    returns (all: seq<Output>, error: Option<string>, ghost r: Reading)
    requires builder.Shown() == start.partial && outputs == start.outputs && start.error.None?
    modifies builder
    ensures r == ReadLines(start, lines, decode)
    ensures builder.Shown() == r.partial && all == r.outputs && error == r.error
  {
    all, error, r := outputs, None, start;
    for l := 0 to |lines|
      invariant r == ReadLines(start, lines[..l], decode)
      invariant builder.Shown() == r.partial && all == r.outputs && error == r.error == None
    {
      assert lines[..l + 1][..l] == lines[..l];
      var data := DataOf(lines[l]);
      if data != "" {
        var decoded := decode(data);
        if decoded.Failure? {
          error := Some(decoded.error);
        } else {
          var result := builder.ProcessProxyEvent(decoded.value);
          if result.Failure? {
            error := Some(result.error);
          } else if result.value.Some? {
            all := all + [result.value.value];
          }
        }
      }
      r := ReadLine(r, lines[l], decode);
      if error.Some? {
        assert lines == lines[..l + 1] + lines[l + 1..];
        ReadLinesAppend(start, lines[..l + 1], lines[l + 1..], decode);
        ErrorStays(r, lines[l + 1..], decode);
        return;
      }
    }
    assert lines[..|lines|] == lines;
  }

  lemma {:induction false} ConcatSplit(chunks: seq<string>, c: nat)
    requires c <= |chunks|
    ensures Concat(chunks) == Concat(chunks[..c]) + Concat(chunks[c..])
  {
    if c < |chunks| {
      var init := chunks[..|chunks| - 1];
      ConcatSplit(init, c);
      assert init[..c] == chunks[..c] && init[c..] == chunks[c..][..|chunks[c..]| - 1];
    } else {
      assert chunks[..c] == chunks && chunks[c..] == [];
    }
  }

  /** An error in the lines of the first chunks is the error of the whole. */
  lemma FailedEarly(chunks: seq<string>, c: nat, decode: string -> Result<ProxyEvent, string>)
    requires c <= |chunks| && ReadLines(BEGUN, Lines(Concat(chunks[..c])), decode).error.Some?
    ensures ReadLines(BEGUN, Lines(Concat(chunks)), decode) == ReadLines(BEGUN, Lines(Concat(chunks[..c])), decode)
  {
    hide Lines, Remainder, Split, ReadLines;
    var first, rest := Concat(chunks[..c]), Concat(chunks[c..]);
    ConcatSplit(chunks, c);
    OneMoreChunk(first, rest);
    ReadLinesAppend(BEGUN, Lines(first), Lines(Remainder(first) + rest), decode);
    ErrorStays(ReadLines(BEGUN, Lines(first), decode), Lines(Remainder(first) + rest), decode);
  }

  /** The events a sequence of lines carries. */
  function Decoded(lines: seq<string>, decode: string -> Result<ProxyEvent, string>): seq<ProxyEvent> {
    if lines == [] then []
    else
      var events, data := Decoded(lines[..|lines| - 1], decode), DataOf(lines[|lines| - 1]);
      if data != "" && decode(data).Success? then events + [decode(data).value] else events
  }

  /**
   Whatever the chunk boundaries were, a text read without error leaves the message rebuilt from the events on
   its complete lines.
   */
  lemma {:induction false} ReadingRebuilds(lines: seq<string>, decode: string -> Result<ProxyEvent, string>)
    requires ReadLines(BEGUN, lines, decode).error.None?
    ensures Rebuild(Decoded(lines, decode)) == Success(ReadLines(BEGUN, lines, decode).partial)
  {
    hide Process, Rebuild, DataOf;
    NothingToBeginWith();
    if lines != [] {
      var init, data := lines[..|lines| - 1], DataOf(lines[|lines| - 1]);
      ReadingRebuilds(init, decode);
      if data != "" {
        RebuildSnoc(Decoded(init, decode), decode(data).value);
      }
    }
  }

  lemma RebuildSnoc(events: seq<ProxyEvent>, e: ProxyEvent)
    requires Rebuild(events).Success? && Process(Rebuild(events).value, e).Success?
    ensures Rebuild(events + [e]) == Success(Process(Rebuild(events).value, e).value.0)
  {
    hide Process;
    assert (events + [e])[..|events|] == events;
  }
}
