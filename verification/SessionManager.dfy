/**
 The life of one managed session: a background process is started, reports events, may block on a question,
 and ends or is cancelled, with all of these interleaved at the suspension points of the methods involved.
 */
module SessionManager {
  import opened Wrappers

  const MAX_EVENTS: nat := 50

  /** Interface methods that expect no answer; a notification is one of them. */
  const FIRE_AND_FORGET := {"notify", "setStatus", "setWidget", "setTitle", "set_editor_text"}

  datatype Status = Starting | Running | Blocked | Completed | Errored | Cancelled {
    predicate Active() { Starting? || Running? || Blocked? }
  }

  datatype Tokens = Tokens(input: Option<real>, output: Option<real>, cacheRead: Option<real>, cacheWrite: Option<real>)

  /** What the process reports. */
  datatype Event =
    | CostUpdate(total: Option<real>, tokens: Option<Tokens>)
    | Notification(id: string, message: string)
    | UIRequest(id: string, name: string)
    | Other

  // ---------------------------------------------------------------------------------------------
  // Reading notifications
  // ---------------------------------------------------------------------------------------------

  const TERMINAL_PREFIXES :=
    ["auto-mode stopped", "step-mode stopped", "auto-mode complete", "no active milestone", "auto-mode idle"]

  const BLOCKED_MARK := "blocked:"

  /**
   A character in lower case, as far as the texts looked for can tell: besides the capital letters, only the Kelvin
   sign becomes one of their letters. Every other character stands for its own lower case, which makes none of those
   texts appear or disappear.
   */
  function LowerChar(c: char): char {
    if 'A' <= c <= 'Z' then c + 32 as char else if c == '\U{212A}' then 'k' else c
  }

  function Lower(text: string): string { seq(|text|, i requires 0 <= i < |text| => LowerChar(text[i])) }

  predicate IsTerminal(message: string) {
    exists k :: 0 <= k < |TERMINAL_PREFIXES| && TERMINAL_PREFIXES[k] <= Lower(message)
  }

  predicate Contains(text: string, part: string) {
    exists k :: 0 <= k <= |text| - |part| && part <= text[k..]
  }

  predicate IsBlocked(message: string) { Contains(Lower(message), BLOCKED_MARK) }

  lemma LowerTwice(text: string)
    ensures Lower(Lower(text)) == Lower(text)
  {
  }

  /** How a notification is read does not depend on the case of its letters. */
  lemma CaseDoesNotMatter(a: string, b: string)
    requires Lower(a) == Lower(b)
    ensures (IsTerminal(a) <==> IsTerminal(b)) && (IsBlocked(a) <==> IsBlocked(b))
    ensures (IsTerminal(Lower(a)) <==> IsTerminal(a)) && (IsBlocked(Lower(a)) <==> IsBlocked(a))
  {
    LowerTwice(a);
  }

  /** A letter loses its case and keeps its place in the alphabet. */
  lemma LettersInLower(c: char)
    ensures 'A' <= c <= 'Z' ==> 'a' <= LowerChar(c) <= 'z' && LowerChar(c) - 'a' == c - 'A'
    ensures 'a' <= c <= 'z' ==> LowerChar(c) == c
  {
  }

  /** A message is terminal if it begins, in any case, with one of these; and blocked if it says so anywhere. */
  lemma NotificationsMean(message: string)
    ensures IsTerminal(message) <==>
            || "auto-mode stopped" <= Lower(message) || "step-mode stopped" <= Lower(message)
            || "auto-mode complete" <= Lower(message) || "no active milestone" <= Lower(message)
            || "auto-mode idle" <= Lower(message)
    ensures IsBlocked(message) <==> exists a: string, b: string :: Lower(message) == a + "blocked:" + b
  {
    var text := Lower(message);
    assert TERMINAL_PREFIXES[0] == "auto-mode stopped" && TERMINAL_PREFIXES[1] == "step-mode stopped";
    assert TERMINAL_PREFIXES[2] == "auto-mode complete" && TERMINAL_PREFIXES[3] == "no active milestone";
    assert TERMINAL_PREFIXES[4] == "auto-mode idle";
    if k :| 0 <= k <= |text| - |BLOCKED_MARK| && BLOCKED_MARK <= text[k..] {
      assert text == text[..k] + "blocked:" + text[k..][8..];
    }
    if a: string, b: string :| text == a + "blocked:" + b {
      assert text[|a|..] == "blocked:" + b;
      assert BLOCKED_MARK <= text[|a|..];
    }
  }

  const STOPPED := "auto-mode stopped"

  lemma StoppedFinishes()
    ensures IsTerminal(STOPPED) && !IsBlocked(STOPPED)
  {
    assert Lower(STOPPED) == STOPPED == TERMINAL_PREFIXES[0];
    forall k | 0 <= k <= |STOPPED| - |BLOCKED_MARK| ensures !(BLOCKED_MARK <= STOPPED[k..]) {
      assert BLOCKED_MARK[7] == ':' && STOPPED[k..][7] == STOPPED[k + 7];
    }
  }

  datatype Blocker = Blocker(id: string, name: string)

  datatype Cost = Cost(total: real, input: real, output: real, cacheRead: real, cacheWrite: real)

  datatype ResolveError = NoPendingBlocker | SendFailed

  const NO_COST := Cost(0.0, 0.0, 0.0, 0.0, 0.0)

  /** How far the call that starts the session has got. */
  datatype Phase = Launching | Prompting | Returned | Threw {
    predicate Over() { Returned? || Threw? }
  }

  /** `received` is what an observer of the event callback has seen; `cancels` counts cancellations under way. */
  datatype Session = Session(
    status: Status,
    events: seq<Event>,
    blocker: Option<Blocker>,
    cost: Cost,
    subscribed: bool,
    phase: Phase,
    cancels: nat,
    received: seq<Event>)

  const CREATED := Session(Starting, [], None, NO_COST, false, Launching, 0, [])

  datatype Step =
    | InitSucceeds
    | InitFails
    | PromptSucceeds
    | PromptFails
    | Receive(event: Event)
    | Resolve
    | BeginCancel
    | FinishCancel
    | Cleanup

  function Max(a: real, b: real): real { if a < b then b else a }

  function OrZero(v: Option<real>): real { if v.Some? then v.value else 0.0 }

  function AddCost(c: Cost, e: Event): Cost {
    if !e.CostUpdate? then c
    else
      var total := Max(c.total, OrZero(e.total));
      match e.tokens
      case None => c.(total := total)
      case Some(t) =>
        Cost(total, Max(c.input, OrZero(t.input)), Max(c.output, OrZero(t.output)),
             Max(c.cacheRead, OrZero(t.cacheRead)), Max(c.cacheWrite, OrZero(t.cacheWrite)))
  }

  function Trim(events: seq<Event>): seq<Event> {
    if |events| > MAX_EVENTS then events[|events| - MAX_EVENTS..] else events
  }

  function HandleEvent(s: Session, e: Event): Session {
    var noted := s.(events := Trim(s.events + [e]), cost := AddCost(s.cost, e), received := s.received + [e]);
    match e
    case Notification(id, message) =>
      if !IsTerminal(message) then noted
      else if IsBlocked(message) then noted.(status := Blocked, blocker := Some(Blocker(id, "notify")))
      else noted.(status := Completed, subscribed := false)
    case UIRequest(id, name) =>
      if name in FIRE_AND_FORGET then noted
      else noted.(status := Blocked, blocker := Some(Blocker(id, name)))
    case _ => noted
  }

  function Next(s: Session, step: Step): Session {
    match step
    case InitSucceeds => if s.phase.Launching? then s.(status := Running, subscribed := true, phase := Prompting) else s
    case InitFails => if s.phase.Launching? then s.(status := Errored, phase := Threw) else s
    case PromptSucceeds => if s.phase.Prompting? then s.(phase := Returned) else s
    case PromptFails => if s.phase.Prompting? then s.(status := Errored, phase := Threw) else s
    case Receive(e) => if s.subscribed then HandleEvent(s, e) else s
    case Resolve =>
      if s.blocker.None? then s
      else s.(blocker := None, status := if s.status.Blocked? then Running else s.status)
    case BeginCancel => s.(cancels := s.cancels + 1)
    case FinishCancel =>
      if s.cancels == 0 then s else s.(status := Cancelled, subscribed := false, cancels := s.cancels - 1)
    case Cleanup => s.(subscribed := false, status := if s.status.Active() then Cancelled else s.status)
  }

  function Run(s: Session, steps: seq<Step>): Session {
    if steps == [] then s else Next(Run(s, steps[..|steps| - 1]), steps[|steps| - 1])
  }

  // ---------------------------------------------------------------------------------------------
  // Cost
  // ---------------------------------------------------------------------------------------------

  /** The five counters an event reports, as far as it does. */
  function Reported(e: Event, counter: nat): Option<real> {
    if !e.CostUpdate? then None
    else if counter == 0 then e.total
    else if e.tokens.None? then None
    else if counter == 1 then e.tokens.value.input
    else if counter == 2 then e.tokens.value.output
    else if counter == 3 then e.tokens.value.cacheRead
    else e.tokens.value.cacheWrite
  }

  function Counter(c: Cost, counter: nat): real {
    if counter == 0 then c.total
    else if counter == 1 then c.input
    else if counter == 2 then c.output
    else if counter == 3 then c.cacheRead
    else c.cacheWrite
  }

  /** `m` is the greatest of zero and all values of a counter that the events report. */
  ghost predicate IsMaximum(m: real, events: seq<Event>, counter: nat) {
    && m >= 0.0
    && (forall k :: 0 <= k < |events| && Reported(events[k], counter).Some? ==> Reported(events[k], counter).value <= m)
    && (m == 0.0 || exists k :: 0 <= k < |events| && Reported(events[k], counter) == Some(m))
  }

  ghost predicate CostIsMaximum(c: Cost, events: seq<Event>) {
    forall counter: nat :: IsMaximum(Counter(c, counter), events, counter)
  }

  lemma AddCostIsMaximum(c: Cost, events: seq<Event>, e: Event)
    requires CostIsMaximum(c, events)
    ensures CostIsMaximum(AddCost(c, e), events + [e])
  {
    forall counter: nat ensures IsMaximum(Counter(AddCost(c, e), counter), events + [e], counter) {
      var m, all := Counter(AddCost(c, e), counter), events + [e];
      assert IsMaximum(Counter(c, counter), events, counter);
      assert m == Max(Counter(c, counter), OrZero(Reported(e, counter)));
      if m == Counter(c, counter) && m != 0.0 {
        var k :| 0 <= k < |events| && Reported(events[k], counter) == Some(m);
        assert Reported(all[k], counter) == Some(m);
      } else if m != 0.0 {
        assert Reported(all[|events|], counter) == Some(m);
      }
    }
  }

  /** Cost depends only on which events were reported, not on their order or on repetitions. */
  lemma CostIgnoresOrder(c: Cost, d: Cost, events: seq<Event>, others: seq<Event>)
    requires CostIsMaximum(c, events) && CostIsMaximum(d, others)
    requires forall e :: e in events <==> e in others
    ensures c == d
  {
    forall counter: nat ensures Counter(c, counter) == Counter(d, counter) {
      assert IsMaximum(Counter(c, counter), events, counter) && IsMaximum(Counter(d, counter), others, counter);
      NotGreater(Counter(c, counter), Counter(d, counter), events, others, counter);
      NotGreater(Counter(d, counter), Counter(c, counter), others, events, counter);
    }
    assert Counter(c, 0) == Counter(d, 0) && Counter(c, 1) == Counter(d, 1) && Counter(c, 2) == Counter(d, 2);
    assert Counter(c, 3) == Counter(d, 3) && Counter(c, 4) == Counter(d, 4);
  }

  lemma NotGreater(m: real, n: real, events: seq<Event>, others: seq<Event>, counter: nat)
    requires IsMaximum(m, events, counter) && IsMaximum(n, others, counter)
    requires forall e :: e in events ==> e in others
    ensures m <= n
  {
    if m != 0.0 {
      var k :| 0 <= k < |events| && Reported(events[k], counter) == Some(m);
      assert events[k] in others;
      var j :| 0 <= j < |others| && others[j] == events[k];
      assert Reported(others[j], counter).Some?;
    }
  }

  // ---------------------------------------------------------------------------------------------
  // What every step keeps
  // ---------------------------------------------------------------------------------------------

  /** The blocker an event raises: a terminal notification that reports a block, or a request that wants an answer. */
  function Raised(e: Event): Option<Blocker> {
    match e
    case Notification(id, message) => if IsTerminal(message) && IsBlocked(message) then Some(Blocker(id, "notify")) else None
    case UIRequest(id, name) => if name in FIRE_AND_FORGET then None else Some(Blocker(id, name))
    case _ => None
  }

  /** Requests under these names expect no answer; all others do. */
  lemma AnswerExpectedIff(id: string, name: string)
    ensures Raised(UIRequest(id, name)) ==
            if name == "notify" || name == "setStatus" || name == "setWidget" || name == "setTitle" || name == "set_editor_text"
            then None else Some(Blocker(id, name))
  {
  }

  /** A notification raises a blocker, or finishes, only if it is terminal: the first if it says that it is blocked. */
  lemma NotificationsDo(id: string, message: string)
    ensures var e := Notification(id, message);
            && (Raised(e).Some? <==> IsTerminal(message) && IsBlocked(message))
            && (Raised(e).Some? ==> Raised(e).value.id == id && Raised(e).value.name == "notify")
            && (Finishes(e) <==> IsTerminal(message) && !IsBlocked(message))
  {
  }

  function LastRaised(events: seq<Event>): Option<Blocker> {
    if events == [] then None
    else
      var raised := Raised(events[|events| - 1]);
      if raised.Some? then raised else LastRaised(events[..|events| - 1])
  }

  predicate Finishes(e: Event) { e.Notification? && IsTerminal(e.message) && !IsBlocked(e.message) }

  ghost predicate Inv(s: Session) {
    && (s.status.Blocked? ==> s.blocker.Some?)
    && (s.blocker.Some? ==> s.blocker == LastRaised(s.received))
    && (s.status.Completed? ==> s.received != [] && Finishes(s.received[|s.received| - 1]))
    && s.events == Trim(s.received)
    && CostIsMaximum(s.cost, s.received)
    && (s.subscribed ==> !s.phase.Launching? && !s.status.Completed? && !s.status.Cancelled?)
  }

  lemma NextKeepsInv(s: Session, step: Step)
    requires Inv(s)
    ensures Inv(Next(s, step))
  {
    hide CostIsMaximum, Trim, LastRaised, AddCost, HandleEvent;
    if step.Receive? && s.subscribed {
      HandleKeepsInv(s, step.event);
    }
  }

  lemma HandleKeepsInv(s: Session, e: Event)
    requires Inv(s) && s.subscribed
    ensures Inv(HandleEvent(s, e))
  {
    hide CostIsMaximum, Trim, AddCost;
    AddCostIsMaximum(s.cost, s.received, e);
    TrimSnoc(s.received, e);
    assert (s.received + [e])[..|s.received|] == s.received;
  }

  lemma TrimSnoc(events: seq<Event>, e: Event)
    ensures Trim(Trim(events) + [e]) == Trim(events + [e])
  {
  }

  /**
   Over all interleavings: a blocked session has a pending blocker, a pending blocker is the one raised last, a
   completed session has heard a terminal notification last, the event buffer holds the last events received, fifty
   at most, and each cost counter is the greatest of zero and all values reported.
   */
  lemma {:induction false} RunKeepsInv(steps: seq<Step>)
    ensures Inv(Run(CREATED, steps))
  {
    if steps != [] {
      RunKeepsInv(steps[..|steps| - 1]);
      NextKeepsInv(Run(CREATED, steps[..|steps| - 1]), steps[|steps| - 1]);
    }
  }

  /** The buffer holds the last fifty events received, or all of them if there are no more, oldest first. */
  lemma BufferHoldsTheLastFifty(steps: seq<Step>)
    ensures var s := Run(CREATED, steps);
            && |s.events| == (if |s.received| < 50 then |s.received| else 50)
            && s.received[|s.received| - |s.events|..] == s.events
  {
    RunKeepsInv(steps);
  }

  // ---------------------------------------------------------------------------------------------
  // What changes a session
  // ---------------------------------------------------------------------------------------------

  predicate Hears(s: Session, step: Step) { step.Receive? && s.subscribed }

  /**
   What makes a session running, blocked, completed, in error or cancelled, and that nothing else changes its status:
   the handshake or the answer to its blocker; an event that raises a blocker; one that finishes; a failed handshake or
   prompt; the end of a cancellation, or a cleanup while it is active.
   */
  lemma StatusChangesIff(s: Session, step: Step)
    ensures var s' := Next(s, step);
            var running := (step.InitSucceeds? && s.phase.Launching?) || (step.Resolve? && s.status.Blocked? && s.blocker.Some?);
            var blocked := Hears(s, step) && Raised(step.event).Some?;
            var completed := Hears(s, step) && Finishes(step.event);
            var errored := (step.InitFails? && s.phase.Launching?) || (step.PromptFails? && s.phase.Prompting?);
            var cancelled := (step.FinishCancel? && s.cancels > 0) || (step.Cleanup? && s.status in {Starting, Running, Blocked});
            && (running ==> s'.status == Running) && (blocked ==> s'.status == Blocked)
            && (completed ==> s'.status == Completed) && (errored ==> s'.status == Errored)
            && (cancelled ==> s'.status == Cancelled)
            && (!running && !blocked && !completed && !errored && !cancelled ==> s'.status == s.status)
  {
  }

  /** What sets and clears the blocker, and what starts and ends the listening. */
  lemma BlockerChangesIff(s: Session, step: Step)
    ensures var s' := Next(s, step);
            && (Hears(s, step) && Raised(step.event).Some? ==> s'.blocker == Raised(step.event))
            && (step.Resolve? ==> s'.blocker == None)
            && (!(Hears(s, step) && Raised(step.event).Some?) && !step.Resolve? ==> s'.blocker == s.blocker)
    ensures var s' := Next(s, step);
            var starts := step.InitSucceeds? && s.phase.Launching?;
            var ends := (Hears(s, step) && Finishes(step.event)) || (step.FinishCancel? && s.cancels > 0) || step.Cleanup?;
            s'.subscribed == (starts || (s.subscribed && !ends))
    ensures Next(s, step).received == if Hears(s, step) then s.received + [step.event] else s.received
  {
  }

  /** How far the starting call has got, and how many cancellations are under way. */
  lemma PhaseChangesIff(s: Session, step: Step)
    ensures Next(s, step).phase ==
            if s.phase.Launching? && step.InitSucceeds? then Prompting
            else if s.phase.Prompting? && step.PromptSucceeds? then Returned
            else if (s.phase.Launching? && step.InitFails?) || (s.phase.Prompting? && step.PromptFails?) then Threw
            else s.phase
    ensures Next(s, step).cancels ==
            if step.BeginCancel? then s.cancels + 1 else if step.FinishCancel? && s.cancels > 0 then s.cancels - 1 else s.cancels
  {
  }

  // ---------------------------------------------------------------------------------------------
  // Terminal states
  // ---------------------------------------------------------------------------------------------

  /** Once the starting call is over, a completed session can only become cancelled, and a cancelled one stays so. */
  lemma {:induction false} TerminalAfterStart(s: Session, steps: seq<Step>)
    requires Inv(s) && s.phase.Over() && (s.status.Completed? || s.status.Cancelled?)
    ensures var s' := Run(s, steps);
            && s'.phase.Over() && Inv(s')
            && (s'.status == s.status || s'.status == Cancelled)
  {
    if steps != [] {
      TerminalAfterStart(s, steps[..|steps| - 1]);
      NextKeepsInv(Run(s, steps[..|steps| - 1]), steps[|steps| - 1]);
    }
  }

  lemma RunOne(s: Session, step: Step)
    ensures Run(s, [step]) == Next(s, step)
  {
    assert [step][..0] == [];
  }

  /** Cancelling is final exactly when the call that starts the session is over; before that, it can be undone. */
  lemma CancelledIsFinalIff(s: Session)
    requires Inv(s) && s.status.Cancelled?
    ensures (forall steps :: Run(s, steps).status == Cancelled) <==> s.phase.Over()
  {
    if s.phase.Over() {
      forall steps ensures Run(s, steps).status == Cancelled {
        TerminalAfterStart(s, steps);
      }
    } else if s.phase.Launching? {
      RunOne(s, InitSucceeds);
      assert Run(s, [InitSucceeds]).status == Running;
    } else {
      RunOne(s, PromptFails);
      assert Run(s, [PromptFails]).status == Errored;
    }
  }

  /** An error is final exactly when the session no longer listens to events, apart from a cancellation. */
  lemma ErrorIsFinalIff(s: Session)
    requires Inv(s) && s.status.Errored? && s.phase.Over()
    ensures (forall steps :: Run(s, steps).status in {Errored, Cancelled}) <==> !s.subscribed
  {
    if s.subscribed {
      var e := Notification("", STOPPED);
      StoppedFinishes();
      RunOne(s, Receive(e));
      assert Run(s, [Receive(e)]).status == Completed;
    } else {
      forall steps ensures Run(s, steps).status in {Errored, Cancelled} {
        ErrorStays(s, steps);
      }
    }
  }

  lemma {:induction false} ErrorStays(s: Session, steps: seq<Step>)
    requires Inv(s) && s.phase.Over() && !s.subscribed && s.status in {Errored, Cancelled}
    ensures var s' := Run(s, steps);
            s'.phase.Over() && !s'.subscribed && s'.status in {Errored, Cancelled}
  {
    if steps != [] {
      ErrorStays(s, steps[..|steps| - 1]);
    }
  }

  /** A failed prompt leaves the session listening. */
  lemma FailedPromptKeepsListening()
    ensures var s := Run(CREATED, [InitSucceeds, PromptFails]);
            s.status == Errored && s.phase.Over() && s.subscribed
  {
    var steps := [InitSucceeds, PromptFails];
    assert steps[..1] == [InitSucceeds] && steps[..1][..0] == [];
    RunOne(CREATED, InitSucceeds);
  }

  // ---------------------------------------------------------------------------------------------
  // The session object
  // ---------------------------------------------------------------------------------------------

  class ManagedSession {
    var status: Status
    var events: seq<Event>
    var blocker: Option<Blocker>
    var cost: Cost
    var subscribed: bool
    var phase: Phase
    var cancels: nat
    ghost var received: seq<Event>

    ghost function Shown(): Session
      reads this
    {
      Session(status, events, blocker, cost, subscribed, phase, cancels, received)
    }

    ghost predicate Valid()
      reads this
    {
      Inv(Shown())
    }

    constructor ()
      ensures Valid() && Shown() == CREATED
    {
      status, events, blocker, cost, subscribed := Starting, [], None, NO_COST, false;
      phase, cancels, received := Launching, 0, [];
      new;
      RunKeepsInv([]);
    }

    /** The continuations of the starting call: after the handshake, and after the first prompt. */
    method StartContinues(ok: bool)
      requires Valid()
      modifies this
      ensures Valid()
      ensures Shown() == (if old(phase).Launching? then Next(old(Shown()), if ok then InitSucceeds else InitFails)
                          else Next(old(Shown()), if ok then PromptSucceeds else PromptFails))
    {
      if phase.Launching? {
        NextKeepsInv(Shown(), if ok then InitSucceeds else InitFails);
        if ok {
          status, subscribed, phase := Running, true, Prompting;
        } else {
          status, phase := Errored, Threw;
        }
      } else if phase.Prompting? {
        NextKeepsInv(Shown(), if ok then PromptSucceeds else PromptFails);
        if ok {
          phase := Returned;
        } else {
          status, phase := Errored, Threw;
        }
      }
    }

    method HandleEvent(e: Event)
      requires Valid()
      modifies this
      ensures Valid() && Shown() == Next(old(Shown()), Receive(e))
    {
      hide CostIsMaximum, Inv;
      NextKeepsInv(Shown(), Receive(e));
      if !subscribed {
        return;
      }
      received := received + [e];
      events := events + [e];
      if |events| > MAX_EVENTS {
        events := events[|events| - MAX_EVENTS..];
      }
      cost := AddCost(cost, e);
      match e {
        case Notification(id, message) =>
          if IsTerminal(message) {
            if IsBlocked(message) {
              status, blocker := Blocked, Some(Blocker(id, "notify"));
            } else {
              status, subscribed := Completed, false;
            }
          }
        case UIRequest(id, name) =>
          if name !in FIRE_AND_FORGET {
            status, blocker := Blocked, Some(Blocker(id, name));
          }
        case _ =>
      }
    }

    /** Answers the pending blocker, if there is one; `sends` says whether the answer can be sent. */
    method ResolveBlocker(sends: bool) returns (answered: Result<string, ResolveError>)
      requires Valid()
      modifies this
      ensures Valid()
      ensures Shown() == if sends then Next(old(Shown()), Resolve) else old(Shown())
      ensures answered == if old(blocker).None? then Failure(NoPendingBlocker)
                          else if sends then Success(old(blocker).value.id) else Failure(SendFailed)
    {
      NextKeepsInv(Shown(), Resolve);
      if blocker.None? {
        return Failure(NoPendingBlocker);
      }
      if !sends {
        return Failure(SendFailed);
      }
      answered := Success(blocker.value.id);
      blocker := None;
      if status.Blocked? {
        status := Running;
      }
    }

    method BeginCancel()
      requires Valid()
      modifies this
      ensures Valid() && Shown() == Next(old(Shown()), Step.BeginCancel)
    {
      NextKeepsInv(Shown(), Step.BeginCancel);
      cancels := cancels + 1;
    }

    method FinishCancel()
      requires Valid()
      modifies this
      ensures Valid() && Shown() == Next(old(Shown()), Step.FinishCancel)
    {
      NextKeepsInv(Shown(), Step.FinishCancel);
      if cancels > 0 {
        status, subscribed, cancels := Cancelled, false, cancels - 1;
      }
    }

    method Cleanup()
      requires Valid()
      modifies this
      ensures Valid() && Shown() == Next(old(Shown()), Step.Cleanup)
    {
      NextKeepsInv(Shown(), Step.Cleanup);
      subscribed := false;
      if status.Active() {
        status := Cancelled;
      }
    }
  }
}
