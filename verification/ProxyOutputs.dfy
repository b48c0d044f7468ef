/**
 What the consumer of a proxied stream is told, and which event sequences are accepted, by a reader that knows only
 which event last began each index.
 */
module ProxyOutputs {
  import opened Wrappers
  import opened Strings
  import opened ProxyStream

  /** The event that began index `i` last. */
  function LastBegin(events: seq<ProxyEvent>, i: nat): Option<ProxyEvent> {
    if events == [] then None
    else if Begins(events[|events| - 1], i) then Some(events[|events| - 1])
    else LastBegin(events[..|events| - 1], i)
  }

  function BeganAs(events: seq<ProxyEvent>, i: nat): Option<Kind> {
    match LastBegin(events, i)
    case Some(TextStart(_)) => Some(TextKind)
    case Some(ThinkingStart(_)) => Some(ThinkingKind)
    case Some(ToolCallStart(_, _, _)) => Some(ToolKind)
    case _ => None
  }

  datatype Kind = TextKind | ThinkingKind | ToolKind

  /** Deltas and ends of text and thinking, and deltas of tool calls, need an index begun as such. */
  predicate Meets(events: seq<ProxyEvent>, e: ProxyEvent) {
    match e
    case TextDelta(i, _) => BeganAs(events, i) == Some(TextKind)
    case TextEnd(i, _) => BeganAs(events, i) == Some(TextKind)
    case ThinkingDelta(i, _) => BeganAs(events, i) == Some(ThinkingKind)
    case ThinkingEnd(i, _) => BeganAs(events, i) == Some(ThinkingKind)
    case ToolCallDelta(i, _) => BeganAs(events, i) == Some(ToolKind)
    case _ => true
  }

  predicate AllMeet(events: seq<ProxyEvent>) {
    forall k :: 0 <= k < |events| ==> Meets(events[..k], events[k])
  }

  function KindOf(b: Block): Kind { if b.Text? then TextKind else if b.Thinking? then ThinkingKind else ToolKind }

  /** The message's blocks are those begun, of the kinds they were begun as. */
  ghost predicate Matches(p: Partial, events: seq<ProxyEvent>) {
    forall i: nat :: BeganAs(events, i) == if i in p.content then Some(KindOf(p.content[i])) else None
  }

  lemma BeganSnoc(events: seq<ProxyEvent>, e: ProxyEvent, i: nat)
    ensures BeganAs(events + [e], i)
         == if !Begins(e, i) then BeganAs(events, i)
            else if e.TextStart? then Some(TextKind) else if e.ThinkingStart? then Some(ThinkingKind) else Some(ToolKind)
  {
    assert (events + [e])[..|events|] == events;
  }

  lemma ProcessMatches(p: Partial, events: seq<ProxyEvent>, e: ProxyEvent)
    requires Matches(p, events)
    ensures Process(p, e).Success? <==> Meets(events, e)
    ensures Process(p, e).Success? ==> Matches(Process(p, e).value.0, events + [e])
  {
    hide LastBegin, BeganAs, Process;
    MeetsIff(p, events, e);
    if Process(p, e).Success? {
      forall i: nat ensures BeganAs(events + [e], i) ==
          if i in Process(p, e).value.0.content then Some(KindOf(Process(p, e).value.0.content[i])) else None
      {
        BeganSnoc(events, e, i);
        assert BeganAs(events, i) == if i in p.content then Some(KindOf(p.content[i])) else None;
        KindsAfter(p, e, i);
      }
    }
  }

  lemma MeetsIff(p: Partial, events: seq<ProxyEvent>, e: ProxyEvent)
    requires Matches(p, events)
    ensures Process(p, e).Success? <==> Meets(events, e)
  {
    hide LastBegin, BeganAs;
    if e.TextDelta? || e.TextEnd? || e.ThinkingDelta? || e.ThinkingEnd? || e.ToolCallDelta? {
      assert BeganAs(events, e.index) == if e.index in p.content then Some(KindOf(p.content[e.index])) else None;
    }
  }

  /** An event begins a block, or leaves all blocks of their kinds. */
  lemma KindsAfter(p: Partial, e: ProxyEvent, i: nat)
    requires Process(p, e).Success?
    ensures var p' := Process(p, e).value.0;
            if Begins(e, i)
            then i in p'.content && KindOf(p'.content[i]) ==
                   if e.TextStart? then TextKind else if e.ThinkingStart? then ThinkingKind else ToolKind
            else (i in p'.content <==> i in p.content) && (i in p.content ==> KindOf(p'.content[i]) == KindOf(p.content[i]))
  {
  }

  lemma AllMeetSnoc(events: seq<ProxyEvent>, e: ProxyEvent)
    ensures AllMeet(events + [e]) <==> AllMeet(events) && Meets(events, e)
  {
    hide Meets;
    var all := events + [e];
    if AllMeet(all) {
      assert all[..|events|] == events && Meets(all[..|events|], all[|events|]);
      forall k | 0 <= k < |events| ensures Meets(events[..k], events[k]) {
        assert all[..k] == events[..k] && Meets(all[..k], all[k]);
      }
    }
    if AllMeet(events) && Meets(events, e) {
      forall k | 0 <= k < |all| ensures Meets(all[..k], all[k]) {
        assert all[..k] == if k < |events| then events[..k] else events;
      }
    }
  }

  /**
   A sequence of events is accepted exactly if each delta and end meets an index begun as its kind; the message then
   has exactly the blocks begun, of the kinds they were begun as.
   */
  lemma {:induction false} AcceptedIff(events: seq<ProxyEvent>)
    ensures Rebuild(events).Success? <==> AllMeet(events)
    ensures Rebuild(events).Success? ==> Matches(Rebuild(events).value, events)
  {
    hide Process, Meets, LastBegin;
    if events == [] {
      NothingMatches();
    } else {
      var init, e := events[..|events| - 1], events[|events| - 1];
      assert events == init + [e];
      AcceptedIff(init);
      AllMeetSnoc(init, e);
      if Rebuild(init).Success? {
        ProcessMatches(Rebuild(init).value, init, e);
      }
    }
  }

  lemma NothingMatches()
    ensures Rebuild([]) == Success(EMPTY) && Matches(EMPTY, []) && AllMeet([])
  {
  }

  // ---------------------------------------------------------------------------------------------
  // What the consumer is told
  // ---------------------------------------------------------------------------------------------

  /** Whether an event is passed on: not if its type is unknown, nor an end of a tool call that meets none. */
  predicate PassedOn(events: seq<ProxyEvent>, e: ProxyEvent) {
    !e.Unknown? && (e.ToolCallEnd? ==> BeganAs(events, e.index) == Some(ToolKind))
  }

  function Passed(events: seq<ProxyEvent>): seq<ProxyEvent> {
    if events == [] then []
    else
      var init, e := events[..|events| - 1], events[|events| - 1];
      if PassedOn(init, e) then Passed(init) + [e] else Passed(init)
  }

  /** Telling a consumer of an event: only ends of text and thinking come with content. */
  predicate Tells(o: Output, e: ProxyEvent) {
    o.Output? && o.event == e && (o.content.Some? <==> e.TextEnd? || e.ThinkingEnd?)
  }

  ghost predicate TellsAll(outputs: seq<Output>, events: seq<ProxyEvent>) {
    |outputs| == |events| && forall k :: 0 <= k < |events| ==> Tells(outputs[k], events[k])
  }

  lemma ProcessTells(p: Partial, events: seq<ProxyEvent>, e: ProxyEvent)
    requires Matches(p, events) && Process(p, e).Success?
    ensures Process(p, e).value.1.Some? <==> PassedOn(events, e)
    ensures Process(p, e).value.1.Some? ==> Tells(Process(p, e).value.1.value, e)
  {
    hide LastBegin, BeganAs;
    if e.ToolCallEnd? {
      assert BeganAs(events, e.index) == if e.index in p.content then Some(KindOf(p.content[e.index])) else None;
    }
  }

  /** The reading so far, without an error: the message is rebuilt, and each event passed on was told once, in order. */
  ghost predicate Faithfully(r: Reading, events: seq<ProxyEvent>) {
    r.error.None? && Rebuild(events) == Success(r.partial) && TellsAll(r.outputs, Passed(events))
  }

  lemma ReadLineTells(r: Reading, events: seq<ProxyEvent>, line: string, decode: string -> Result<ProxyEvent, string>)
    requires Faithfully(r, events) && ReadLine(r, line, decode).error.None?
    ensures Faithfully(ReadLine(r, line, decode),
                       if DataOf(line) != "" && decode(DataOf(line)).Success? then events + [decode(DataOf(line)).value] else events)
  {
    hide Process, DataOf, Tells;
    if DataOf(line) != "" {
      var e := decode(DataOf(line)).value;
      AcceptedIff(events);
      ProcessTells(r.partial, events, e);
      RebuildSnoc(events, e);
      assert (events + [e])[..|events|] == events;
    }
  }

  /** In every reading without an error, each decoded event that is passed on was told exactly once, in order. */
  lemma {:induction false} ReadingTells(lines: seq<string>, decode: string -> Result<ProxyEvent, string>)
    requires ReadLines(BEGUN, lines, decode).error.None?
    ensures Faithfully(ReadLines(BEGUN, lines, decode), Decoded(lines, decode))
  {
    hide Faithfully, DataOf, ReadLine;
    if lines == [] {
      NothingTold();
    } else {
      var init, line := lines[..|lines| - 1], lines[|lines| - 1];
      ErrorsStay(ReadLines(BEGUN, init, decode), line, decode);
      ReadingTells(init, decode);
      ReadLineTells(ReadLines(BEGUN, init, decode), Decoded(init, decode), line, decode);
    }
  }

  lemma ErrorsStay(r: Reading, line: string, decode: string -> Result<ProxyEvent, string>)
    ensures ReadLine(r, line, decode).error.None? ==> r.error.None?
  {
  }

  lemma NothingTold()
    ensures Faithfully(BEGUN, [])
  {
  }

  /** A line that stops the reading: its data cannot be decoded, or its event meets no index begun as its kind. */
  predicate Stops(events: seq<ProxyEvent>, line: string, decode: string -> Result<ProxyEvent, string>) {
    DataOf(line) != "" && (decode(DataOf(line)).Success? ==> !Meets(events, decode(DataOf(line)).value))
  }

  /** A reading with an error stopped at the first line that stops it, and has told what came before. */
  lemma {:induction false} ReadingStops(lines: seq<string>, decode: string -> Result<ProxyEvent, string>) returns (k: nat)
    requires ReadLines(BEGUN, lines, decode).error.Some?
    ensures k < |lines| && Stops(Decoded(lines[..k], decode), lines[k], decode)
    ensures var r := ReadLines(BEGUN, lines, decode); Faithfully(r.(error := None), Decoded(lines[..k], decode))
  {
    hide Faithfully, DataOf, Process, Meets, LastBegin;
    var init, line := lines[..|lines| - 1], lines[|lines| - 1];
    var before := ReadLines(BEGUN, init, decode);
    if before.error.Some? {
      k := ReadingStops(init, decode);
      assert init[..k] == lines[..k];
    } else {
      k := |init|;
      ReadingTells(init, decode);
      var events := Decoded(init, decode);
      RebuiltSoFar(before, events);
      AcceptedIff(events);
      if decode(DataOf(line)).Success? {
        ProcessMatches(before.partial, events, decode(DataOf(line)).value);
      }
    }
  }

  lemma RebuiltSoFar(r: Reading, events: seq<ProxyEvent>)
    requires Faithfully(r, events)
    ensures Rebuild(events) == Success(r.partial) && r.error.None?
  {
  }

  /**
   What the consumer of a text is told, however it was cut into chunks and however the reading ends: each event that is
   passed on, once and in order, of all the complete lines, or of those before the first that stops the reading; and
   then an error, exactly if a line stopped it or it did not come to its end.
   */
  lemma TextIsTold(text: string, ending: Ending, decode: string -> Result<ProxyEvent, string>)
    returns (k: nat, events: seq<ProxyEvent>)
    ensures k <= |Lines(text)| && events == Decoded(Lines(text)[..k], decode)
    ensures k < |Lines(text)| ==> Stops(events, Lines(text)[k], decode)
    ensures var outputs := ReadText(text, ending, decode).outputs;
            if k == |Lines(text)| && ending.Complete? then TellsAll(outputs, Passed(events))
            else && |outputs| == |Passed(events)| + 1 && TellsAll(outputs[..|Passed(events)|], Passed(events))
                 && outputs[|Passed(events)|]
                    == Error(if k == |Lines(text)| && (ending.Aborted? || ending.aborted) then "aborted" else "error")
  {
    hide Lines, Decoded, ReadLines, Process, DataOf, Passed, Tells, Stops;
    var r := ReadLines(BEGUN, Lines(text), decode);
    if r.error.Some? {
      k := ReadingStops(Lines(text), decode);
    } else {
      k := |Lines(text)|;
      ReadingTells(Lines(text), decode);
      assert Lines(text)[..k] == Lines(text);
    }
    events := Decoded(Lines(text)[..k], decode);
    assert TellsAll(r.outputs, Passed(events));
    assert (r.outputs + [Error("")])[..|r.outputs|] == r.outputs;
  }

  /** A line carries data exactly if it begins with the prefix and something else than white space follows. */
  lemma DataMeaning(line: string)
    ensures DataOf(line) != "" <==> "data: " <= line && !Blank(line[6..])
  {
    if PREFIX <= line {
      var rest := line[|PREFIX|..];
      TrimMeaning(rest);
      var a: string, b: string :| Blank(a) && Blank(b) && rest == a + Trim(rest) + b;
      if Blank(rest) {
        TrimBlank(rest);
      } else {
        var c :| c in rest && !IsSpace(c);
        assert c in Trim(rest);
      }
    }
  }

  /** And what it carries is what stands between the white space. */
  lemma DataIsOnly(before: string, data: string, after: string)
    requires Blank(before) && Blank(after) && Bare(data)
    ensures DataOf("data: " + before + data + after) == data
  {
    var line := "data: " + before + data + after;
    assert line[6..] == before + data + after;
    assert line[..6] == "data: ";
    TrimIsOnly(before, data, after);
  }
}
