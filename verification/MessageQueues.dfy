/**
 The agent's steering and follow-up queues, and a ledger that accounts for every message that was
 ever enqueued without looking at the queues themselves.
 */
module MessageQueues {
  import opened Transcript

  datatype Entry = Entry(message: Message, fromUser: bool)

  datatype Mode = All | OneAtATime

  datatype Queue = Queue(items: seq<Entry>, mode: Mode)

  datatype Queues = Queues(steering: Queue, followUp: Queue)

  /** What the rest of the program may do to the queues while a run waits. */
  datatype EnvAction =
    | Steer(entry: Entry)
    | FollowUp(entry: Entry)
    | ClearSteering
    | ClearFollowUp
    | ClearAll
    | DrainUser
    | SetSteeringMode(mode: Mode)
    | SetFollowUpMode(mode: Mode)

  function Messages(entries: seq<Entry>): seq<Message> {
    seq(|entries|, i requires 0 <= i < |entries| => entries[i].message)
  }

  /** The entries of system origin, in order: what draining the user's messages leaves. */
  function SystemOnly(entries: seq<Entry>): seq<Entry> {
    if entries == [] then []
    else
      var e := entries[|entries| - 1];
      SystemOnly(entries[..|entries| - 1]) + if e.fromUser then [] else [e]
  }

  function UserOnly(entries: seq<Entry>): seq<Entry> {
    if entries == [] then []
    else
      var e := entries[|entries| - 1];
      UserOnly(entries[..|entries| - 1]) + if e.fromUser then [e] else []
  }

  /** Draining hands back or keeps every entry, and divides them by origin. */
  lemma {:induction false} DrainPartitions(entries: seq<Entry>)
    ensures multiset(UserOnly(entries)) + multiset(SystemOnly(entries)) == multiset(entries)
    ensures forall e :: e in UserOnly(entries) <==> e in entries && e.fromUser
    ensures forall e :: e in SystemOnly(entries) <==> e in entries && !e.fromUser
  {
    if entries != [] {
      var init, e := entries[..|entries| - 1], entries[|entries| - 1];
      assert entries == init + [e];
      DrainPartitions(init);
    }
  }

  lemma OriginSnoc(entries: seq<Entry>, e: Entry)
    ensures UserOnly(entries + [e]) == if e.fromUser then UserOnly(entries) + [e] else UserOnly(entries)
    ensures SystemOnly(entries + [e]) == if e.fromUser then SystemOnly(entries) else SystemOnly(entries) + [e]
  {
    assert (entries + [e])[..|entries|] == entries;
  }

  lemma NoneOfEither()
    ensures UserOnly([]) == [] && SystemOnly([]) == []
  {
  }

  /** And it keeps both parts in order: each is read off the entries one after the other. */
  lemma {:induction false} DrainKeepsOrder(a: seq<Entry>, b: seq<Entry>)
    ensures UserOnly(a + b) == UserOnly(a) + UserOnly(b) && SystemOnly(a + b) == SystemOnly(a) + SystemOnly(b)
  {
    hide UserOnly, SystemOnly;
    NoneOfEither();
    if b == [] {
      assert a + b == a;
    } else {
      var init, e := b[..|b| - 1], b[|b| - 1];
      assert a + b == a + init + [e] && b == init + [e];
      DrainKeepsOrder(a, init);
      OriginSnoc(a + init, e);
      OriginSnoc(init, e);
    }
  }

  lemma DrainedOne(e: Entry)
    ensures UserOnly([e]) == (if e.fromUser then [e] else []) && SystemOnly([e]) == if e.fromUser then [] else [e]
  {
    hide UserOnly, SystemOnly;
    NoneOfEither();
    OriginSnoc([], e);
    assert [] + [e] == [e];
  }

  function Perform(q: Queues, a: EnvAction): Queues {
    match a
    case Steer(e) => q.(steering := q.steering.(items := q.steering.items + [e]))
    case FollowUp(e) => q.(followUp := q.followUp.(items := q.followUp.items + [e]))
    case ClearSteering => q.(steering := q.steering.(items := []))
    case ClearFollowUp => q.(followUp := q.followUp.(items := []))
    case ClearAll => Queues(q.steering.(items := []), q.followUp.(items := []))
    case DrainUser =>
      Queues(q.steering.(items := SystemOnly(q.steering.items)), q.followUp.(items := SystemOnly(q.followUp.items)))
    case SetSteeringMode(m) => q.(steering := q.steering.(mode := m))
    case SetFollowUpMode(m) => q.(followUp := q.followUp.(mode := m))
  }

  function PerformAll(q: Queues, actions: seq<EnvAction>): Queues {
    if actions == [] then q
    else Perform(PerformAll(q, actions[..|actions| - 1]), actions[|actions| - 1])
  }

  /** How many entries one poll takes from the front of a queue. */
  function BatchSize(q: Queue): nat {
    if q.mode.OneAtATime? && |q.items| > 0 then 1 else |q.items|
  }

  function Batch(q: Queue): seq<Message> { Messages(q.items[..BatchSize(q)]) }

  function Rest(q: Queue): Queue { q.(items := q.items[BatchSize(q)..]) }

  /** In one-at-a-time mode a poll hands out the first message, if there is one, and keeps the tail in order. */
  lemma OneAtATimePolls(q: Queue)
    requires q.mode.OneAtATime?
    ensures q.items == [] ==> Batch(q) == [] && Rest(q).items == []
    ensures q.items != [] ==> Batch(q) == [q.items[0].message] && Rest(q).items == q.items[1..]
    ensures Rest(q).mode == q.mode
  {
  }

  /** In the other mode it hands out every message in order and leaves nothing. */
  lemma AllPolls(q: Queue)
    requires q.mode.All?
    ensures Rest(q) == Queue([], All)
    ensures |Batch(q)| == |q.items| && forall k :: 0 <= k < |q.items| ==> Batch(q)[k] == q.items[k].message
  {
  }

  // ---------------------------------------------------------------------------------------------
  // The ledger
  // ---------------------------------------------------------------------------------------------

  /** One message that was enqueued, and whether it was later cleared or drained. */
  datatype Arrival = Arrival(entry: Entry, withdrawn: bool)

  /** Every arrival on one queue in order, and how many of those not withdrawn a poll has handed out. */
  datatype Ledger = Ledger(arrivals: seq<Arrival>, delivered: nat)

  datatype Ledgers = Ledgers(steering: Ledger, followUp: Ledger)

  const EMPTY_LEDGERS := Ledgers(Ledger([], 0), Ledger([], 0))

  function Survivors(arrivals: seq<Arrival>): seq<Entry> {
    if arrivals == [] then []
    else
      var a := arrivals[|arrivals| - 1];
      Survivors(arrivals[..|arrivals| - 1]) + if a.withdrawn then [] else [a.entry]
  }

  function Waiting(l: Ledger): nat {
    if l.delivered <= |Survivors(l.arrivals)| then |Survivors(l.arrivals)| - l.delivered else 0
  }

  /** Withdraws the last `n` arrivals still standing: all of them, or only those typed by the user. */
  function Withdraw(arrivals: seq<Arrival>, n: nat, onlyUser: bool): seq<Arrival> {
    if arrivals == [] || n == 0 then arrivals
    else
      var init, a := arrivals[..|arrivals| - 1], arrivals[|arrivals| - 1];
      if a.withdrawn then Withdraw(init, n, onlyUser) + [a]
      else Withdraw(init, n - 1, onlyUser) + [a.(withdrawn := !onlyUser || a.entry.fromUser)]
  }

  function Put(l: Ledger, e: Entry): Ledger { l.(arrivals := l.arrivals + [Arrival(e, false)]) }

  function Drop(l: Ledger, onlyUser: bool): Ledger {
    l.(arrivals := Withdraw(l.arrivals, Waiting(l), onlyUser))
  }

  function Note(l: Ledgers, a: EnvAction): Ledgers {
    match a
    case Steer(e) => l.(steering := Put(l.steering, e))
    case FollowUp(e) => l.(followUp := Put(l.followUp, e))
    case ClearSteering => l.(steering := Drop(l.steering, false))
    case ClearFollowUp => l.(followUp := Drop(l.followUp, false))
    case ClearAll => Ledgers(Drop(l.steering, false), Drop(l.followUp, false))
    case DrainUser => Ledgers(Drop(l.steering, true), Drop(l.followUp, true))
    case SetSteeringMode(_) => l
    case SetFollowUpMode(_) => l
  }

  function NoteAll(l: Ledgers, actions: seq<EnvAction>): Ledgers {
    if actions == [] then l
    else Note(NoteAll(l, actions[..|actions| - 1]), actions[|actions| - 1])
  }

  function Deliver(l: Ledger, n: nat): Ledger { l.(delivered := l.delivered + n) }

  /** The messages the ledger says were handed out. */
  function Delivered(l: Ledger): seq<Message>
    requires l.delivered <= |Survivors(l.arrivals)|
  {
    Messages(Survivors(l.arrivals)[..l.delivered])
  }

  /** The queue holds exactly the arrivals that were neither withdrawn nor handed out. */
  ghost predicate Accounts(l: Ledger, q: Queue) {
    && l.delivered <= |Survivors(l.arrivals)|
    && q.items == Survivors(l.arrivals)[l.delivered..]
  }

  ghost predicate AccountsBoth(l: Ledgers, q: Queues) {
    Accounts(l.steering, q.steering) && Accounts(l.followUp, q.followUp)
  }

  function Remaining(entries: seq<Entry>, onlyUser: bool): seq<Entry> {
    if onlyUser then SystemOnly(entries) else []
  }

  lemma SurvivorsSnoc(arrivals: seq<Arrival>, a: Arrival)
    ensures Survivors(arrivals + [a]) == Survivors(arrivals) + if a.withdrawn then [] else [a.entry]
  {
    assert (arrivals + [a])[..|arrivals + [a]| - 1] == arrivals;
  }

  /** The last arrival of what remains goes, stays or is withdrawn. */
  lemma RemainingSnoc(back: seq<Entry>, e: Entry, onlyUser: bool)
    ensures Remaining(back + [e], onlyUser)
         == if !onlyUser || e.fromUser then Remaining(back, onlyUser) else Remaining(back, onlyUser) + [e]
  {
    hide SystemOnly;
    OriginSnoc(back, e);
  }

  lemma WithdrawSnoc(init: seq<Arrival>, a: Arrival, n: nat, onlyUser: bool)
    requires n > 0
    ensures Withdraw(init + [a], n, onlyUser)
         == if a.withdrawn then Withdraw(init, n, onlyUser) + [a]
            else Withdraw(init, n - 1, onlyUser) + [a.(withdrawn := !onlyUser || a.entry.fromUser)]
  {
    assert (init + [a])[..|init|] == init;
  }

  lemma NothingToWithdraw(arrivals: seq<Arrival>, onlyUser: bool)
    ensures Withdraw(arrivals, 0, onlyUser) == arrivals && Remaining([], onlyUser) == [] && Survivors([]) == []
  {
  }

  lemma {:induction false} WithdrawKeepsFront(arrivals: seq<Arrival>, front: seq<Entry>, back: seq<Entry>, onlyUser: bool)
    requires Survivors(arrivals) == front + back
    ensures |Withdraw(arrivals, |back|, onlyUser)| == |arrivals|
    ensures Survivors(Withdraw(arrivals, |back|, onlyUser)) == front + Remaining(back, onlyUser)
  {
    hide Survivors, Withdraw, Remaining;
    NothingToWithdraw(arrivals, onlyUser);
    if back != [] {
      var init, a := arrivals[..|arrivals| - 1], arrivals[|arrivals| - 1];
      assert arrivals == init + [a];
      SurvivorsSnoc(init, a);
      WithdrawSnoc(init, a, |back|, onlyUser);
      if a.withdrawn {
        WithdrawKeepsFront(init, front, back, onlyUser);
        SurvivorsSnoc(Withdraw(init, |back|, onlyUser), a);
      } else {
        var back', e := back[..|back| - 1], back[|back| - 1];
        assert back == back' + [e];
        assert Survivors(init) + [a.entry] == front + back' + [e];
        LastOf(Survivors(init), a.entry, front + back', e);
        WithdrawKeepsFront(init, front, back', onlyUser);
        RemainingSnoc(back', e, onlyUser);
        SurvivorsSnoc(Withdraw(init, |back'|, onlyUser), a.(withdrawn := !onlyUser || a.entry.fromUser));
      }
    }
  }

  lemma LastOf(s: seq<Entry>, d: Entry, t: seq<Entry>, e: Entry)
    requires s + [d] == t + [e]
    ensures s == t && d == e
  {
    assert (s + [d])[|s|] == d && (t + [e])[|t|] == e;
    assert s == (s + [d])[..|s|] && t == (t + [e])[..|t|];
  }

  lemma PutAccounts(l: Ledger, q: Queue, e: Entry)
    requires Accounts(l, q)
    ensures Accounts(Put(l, e), q.(items := q.items + [e]))
    ensures Delivered(Put(l, e)) == Delivered(l)
  {
    var l' := Put(l, e);
    assert l'.arrivals[..|l'.arrivals| - 1] == l.arrivals;
    assert Survivors(l'.arrivals)[..l.delivered] == Survivors(l.arrivals)[..l.delivered];
  }

  lemma DropAccounts(l: Ledger, q: Queue, onlyUser: bool)
    requires Accounts(l, q)
    ensures Accounts(Drop(l, onlyUser), q.(items := Remaining(q.items, onlyUser)))
    ensures Delivered(Drop(l, onlyUser)) == Delivered(l)
  {
    WithdrawKeepsFront(l.arrivals, Survivors(l.arrivals)[..l.delivered], q.items, onlyUser);
    assert Survivors(Drop(l, onlyUser).arrivals)[..l.delivered] == Survivors(l.arrivals)[..l.delivered];
  }

  lemma NoteAccounts(l: Ledgers, q: Queues, a: EnvAction)
    requires AccountsBoth(l, q)
    ensures AccountsBoth(Note(l, a), Perform(q, a))
    ensures Delivered(Note(l, a).steering) == Delivered(l.steering)
    ensures Delivered(Note(l, a).followUp) == Delivered(l.followUp)
  {
    match a
    case Steer(e) => PutAccounts(l.steering, q.steering, e);
    case FollowUp(e) => PutAccounts(l.followUp, q.followUp, e);
    case ClearSteering => DropAccounts(l.steering, q.steering, false);
    case ClearFollowUp => DropAccounts(l.followUp, q.followUp, false);
    case ClearAll =>
      DropAccounts(l.steering, q.steering, false);
      DropAccounts(l.followUp, q.followUp, false);
    case DrainUser =>
      DropAccounts(l.steering, q.steering, true);
      DropAccounts(l.followUp, q.followUp, true);
    case SetSteeringMode(_) =>
    case SetFollowUpMode(_) =>
  }

  lemma {:induction false} NoteAllAccounts(l: Ledgers, q: Queues, actions: seq<EnvAction>)
    requires AccountsBoth(l, q)
    ensures AccountsBoth(NoteAll(l, actions), PerformAll(q, actions))
    ensures Delivered(NoteAll(l, actions).steering) == Delivered(l.steering)
    ensures Delivered(NoteAll(l, actions).followUp) == Delivered(l.followUp)
  {
    if actions != [] {
      var init, a := actions[..|actions| - 1], actions[|actions| - 1];
      NoteAllAccounts(l, q, init);
      NoteAccounts(NoteAll(l, init), PerformAll(q, init), a);
    }
  }

  /** A poll hands out the oldest waiting arrivals, and the ledger agrees which. */
  lemma DeliverAccounts(l: Ledger, q: Queue)
    requires Accounts(l, q)
    ensures Accounts(Deliver(l, BatchSize(q)), Rest(q))
    ensures Delivered(Deliver(l, BatchSize(q))) == Delivered(l) + Batch(q)
  {
    var n, all := BatchSize(q), Survivors(l.arrivals);
    assert all[..l.delivered + n] == all[..l.delivered] + q.items[..n];
  }

  /** Without clearing or draining, nothing is ever withdrawn: the survivors are all arrivals. */
  lemma {:induction false} NothingWithdrawn(arrivals: seq<Arrival>)
    requires forall i :: 0 <= i < |arrivals| ==> !arrivals[i].withdrawn
    ensures |Survivors(arrivals)| == |arrivals|
    ensures forall i :: 0 <= i < |arrivals| ==> Survivors(arrivals)[i] == arrivals[i].entry
  {
    if arrivals != [] {
      NothingWithdrawn(arrivals[..|arrivals| - 1]);
    }
  }
}
