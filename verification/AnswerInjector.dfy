/**
 Answers to a process's questions taken from a prepared file: select requests are answered at once when the
 question is known, and otherwise deferred until its metadata arrives or half a second has passed. Metadata,
 requests and timers may interleave in any way, and several requests may carry the same title.
 */
module AnswerInjector {
  import opened Wrappers
  import opened Strings

  datatype Answer = One(value: string) | Many(values: seq<string>)

  datatype Entry = Entry(key: string, answer: Answer)

  datatype Strategy = FirstOption | Cancel

  /** The answer file; `lower` is the language's mapping of a text to lower case. */
  datatype Config = Config(questions: Option<seq<Entry>>, strategy: Strategy, lower: string -> string)

  datatype Meta = Meta(id: string, allowMultiple: bool)

  datatype Question = Question(title: string, meta: Meta)

  datatype Request = Request(id: string, title: string, options: Option<seq<string>>)

  datatype Outcome =
    | Chosen(value: string)
    | ChosenMany(values: seq<string>)
    | Cancelled
    | FirstOffered(value: string)
  {
    predicate FromFile() { Chosen? || ChosenMany? }
  }

  /** Requests are numbered in the order of their arrival. */
  datatype Reply = Reply(number: nat, request: Request, outcome: Outcome)

  datatype Deferral = Deferral(title: string, number: nat, request: Request)

  /**
   `deferred` is the insertion-ordered table of deferred requests by title; `timers` holds the request each live
   timer will answer. The last four fields record what an observer has seen: the requests, the replies, the
   requests returned to the caller, and those that were taken off the table without a reply.
   */
  datatype State = State(
    metas: map<string, Meta>,
    deferred: seq<Deferral>,
    timers: map<nat, Request>,
    used: set<string>,
    answered: nat,
    defaulted: nat,
    seen: seq<Request>,
    sent: seq<Reply>,
    handedBack: set<nat>,
    lost: set<nat>)

  const INITIAL := State(map[], [], map[], {}, 0, 0, [], [], {}, {})

  datatype Step =
    | Observe(questions: seq<Question>)
    | Select(request: Request)
    | Fire(number: nat)

  // ---------------------------------------------------------------------------------------------
  // Looking up an answer
  // ---------------------------------------------------------------------------------------------

  predicate Separates(c: char) { c == '-' || IsSpace(c) }

  /** Each run of hyphens and white space becomes one underscore. */
  function Collapse(s: string): string {
    if s == [] then []
    else
      var init, c := s[..|s| - 1], s[|s| - 1];
      if !Separates(c) then Collapse(init) + [c]
      else if init != [] && Separates(init[|init| - 1]) then Collapse(init)
      else Collapse(init) + "_"
  }

  const CONFIRM := "_confirm"

  function DropConfirm(s: string): string {
    if |CONFIRM| <= |s| && s[|s| - |CONFIRM|..] == CONFIRM then s[..|s| - |CONFIRM|] else s
  }

  /** The common form of a question's id. */
  function Normalize(lower: string -> string, id: string): string { DropConfirm(Collapse(lower(Trim(id)))) }

  lemma {:induction false} CollapsedHasNoSeparators(s: string)
    ensures forall c :: c in Collapse(s) ==> !Separates(c)
  {
    if s != [] {
      CollapsedHasNoSeparators(s[..|s| - 1]);
    }
  }

  lemma {:induction false} NothingToCollapse(s: string)
    requires forall c :: c in s ==> !Separates(c)
    ensures Collapse(s) == s
  {
    if s != [] {
      assert s[|s| - 1] in s;
      NothingToCollapse(s[..|s| - 1]);
    }
  }

  /** Whether a text begins or ends a run of separators. */
  predicate EndsRun(s: string) { s != [] && Separates(s[|s| - 1]) }

  lemma {:induction false} CollapseContinues(a: string, b: string, s: string)
    requires Collapse(a) == Collapse(b) && EndsRun(a) == EndsRun(b)
    ensures Collapse(a + s) == Collapse(b + s) && EndsRun(a + s) == EndsRun(b + s)
  {
    if s == [] {
      assert a + s == a && b + s == b;
    } else {
      var init := s[..|s| - 1];
      assert (a + s)[..|a + s| - 1] == a + init && (b + s)[..|b + s| - 1] == b + init;
      CollapseContinues(a, b, init);
    }
  }

  /** Any two non-empty runs of hyphens and white space count the same, wherever they stand. */
  lemma SeparatorsAreAlike(before: string, run: string, other: string, after: string)
    requires run != [] && other != []
    requires (forall c :: c in run ==> Separates(c)) && (forall c :: c in other ==> Separates(c))
    ensures Collapse(before + run + after) == Collapse(before + other + after)
  {
    RunCollapses(before, run);
    RunCollapses(before, other);
    CollapseContinues(before + run, before + other, after);
  }

  lemma {:induction false} RunCollapses(before: string, run: string)
    requires run != [] && forall c :: c in run ==> Separates(c)
    ensures EndsRun(before + run)
    ensures Collapse(before + run) == if EndsRun(before) then Collapse(before) else Collapse(before) + "_"
  {
    var init, c := run[..|run| - 1], run[|run| - 1];
    assert (before + run)[..|before + run| - 1] == before + init;
    assert c in run;
    if init == [] {
      assert before + init == before;
    } else {
      RunCollapses(before, init);
    }
  }

  /** In a common form neither hyphens nor white space occur, and collapsing it again changes nothing. */
  lemma NormalizedIsCollapsed(lower: string -> string, id: string)
    ensures forall c :: c in Normalize(lower, id) ==> !Separates(c)
    ensures Collapse(Normalize(lower, id)) == Normalize(lower, id)
  {
    CollapsedHasNoSeparators(lower(Trim(id)));
    NothingToCollapse(Normalize(lower, id));
  }

  predicate Exact(key: string, id: string, lower: string -> string) {
    Normalize(lower, key) == Normalize(lower, id)
  }

  predicate Related(key: string, id: string, lower: string -> string) {
    Normalize(lower, key) + "_" <= Normalize(lower, id) || Normalize(lower, id) + "_" <= Normalize(lower, key)
  }

  predicate Matches(key: string, id: string, lower: string -> string, exact: bool) {
    if exact then Exact(key, id, lower) else Related(key, id, lower)
  }

  function FirstMatch(entries: seq<Entry>, id: string, lower: string -> string, exact: bool): Option<Entry> {
    if entries == [] then None
    else
      var earlier := FirstMatch(entries[..|entries| - 1], id, lower, exact);
      if earlier.Some? then earlier
      else if Matches(entries[|entries| - 1].key, id, lower, exact) then Some(entries[|entries| - 1])
      else None
  }

  /** Nothing is found if and only if no key matches; what is found matches, and is the first that does. */
  lemma {:induction false} FirstMatchMeaning(entries: seq<Entry>, id: string, lower: string -> string, exact: bool)
    ensures match FirstMatch(entries, id, lower, exact)
            case None => forall k :: 0 <= k < |entries| ==> !Matches(entries[k].key, id, lower, exact)
            case Some(e) =>
              exists k :: && 0 <= k < |entries| && e == entries[k] && Matches(entries[k].key, id, lower, exact)
                          && forall j :: 0 <= j < k ==> !Matches(entries[j].key, id, lower, exact)
  {
    hide Matches;
    if entries != [] {
      var init := entries[..|entries| - 1];
      assert forall k :: 0 <= k < |init| ==> init[k] == entries[k];
      FirstMatchMeaning(init, id, lower, exact);
    }
  }

  lemma FirstMatchSnoc(entries: seq<Entry>, k: nat, id: string, lower: string -> string, exact: bool)
    requires k < |entries|
    ensures FirstMatch(entries[..k + 1], id, lower, exact)
         == if FirstMatch(entries[..k], id, lower, exact).Some? then FirstMatch(entries[..k], id, lower, exact)
            else if Matches(entries[k].key, id, lower, exact) then Some(entries[k])
            else None
  {
    hide Matches;
    assert entries[..k + 1][..k] == entries[..k];
  }

  function Find(cfg: Config, id: string): Option<Entry> {
    if cfg.questions.None? then None
    else
      var exact := FirstMatch(cfg.questions.value, id, cfg.lower, true);
      if exact.Some? then exact else FirstMatch(cfg.questions.value, id, cfg.lower, false)
  }

  /** The two passes over the answer file: an exact match anywhere wins over a related key. */
  method FindConfiguredQuestionAnswer(cfg: Config, id: string) returns (found: Option<Entry>)
    ensures found == Find(cfg, id)
  {
    hide FirstMatch, Normalize;
    if cfg.questions.None? {
      return None;
    }
    var entries := cfg.questions.value;
    NothingToMatch(id, cfg.lower);
    for k := 0 to |entries|
      invariant FirstMatch(entries[..k], id, cfg.lower, true).None?
    {
      FirstMatchSnoc(entries, k, id, cfg.lower, true);
      if Normalize(cfg.lower, entries[k].key) == Normalize(cfg.lower, id) {
        FirstMatchOfPrefix(entries, k + 1, id, cfg.lower, true);
        return Some(entries[k]);
      }
    }
    assert entries[..|entries|] == entries;
    for k := 0 to |entries|
      invariant FirstMatch(entries[..k], id, cfg.lower, false).None?
    {
      FirstMatchSnoc(entries, k, id, cfg.lower, false);
      var key, wanted := Normalize(cfg.lower, entries[k].key), Normalize(cfg.lower, id);
      if key + "_" <= wanted || wanted + "_" <= key {
        FirstMatchOfPrefix(entries, k + 1, id, cfg.lower, false);
        return Some(entries[k]);
      }
    }
    return None;
  }

  lemma NothingToMatch(id: string, lower: string -> string)
    ensures forall exact :: FirstMatch([], id, lower, exact) == None
  {
  }

  lemma {:induction false} FirstMatchOfPrefix(
      entries: seq<Entry>, k: nat, id: string, lower: string -> string, exact: bool)
    requires k <= |entries| && FirstMatch(entries[..k], id, lower, exact).Some?
    ensures FirstMatch(entries, id, lower, exact) == FirstMatch(entries[..k], id, lower, exact)
    decreases |entries|
  {
    hide Matches;
    if k < |entries| {
      assert entries[..|entries| - 1][..k] == entries[..k];
      FirstMatchOfPrefix(entries[..|entries| - 1], k, id, lower, exact);
    } else {
      assert entries[..k] == entries;
    }
  }

  /** A key that agrees with the question's id is preferred to every other, wherever it stands in the file. */
  lemma ExactMatchWins(cfg: Config, id: string, e: Entry)
    requires cfg.questions.Some? && e in cfg.questions.value && Exact(e.key, id, cfg.lower)
    ensures Find(cfg, id).Some? && Exact(Find(cfg, id).value.key, id, cfg.lower)
  {
    var k :| 0 <= k < |cfg.questions.value| && cfg.questions.value[k] == e;
    FirstMatchMeaning(cfg.questions.value, id, cfg.lower, true);
    assert Matches(cfg.questions.value[k].key, id, cfg.lower, true);
  }

  // ---------------------------------------------------------------------------------------------
  // Answering one request
  // ---------------------------------------------------------------------------------------------

  predicate Offered(r: Request, value: string) { r.options.Some? && value in r.options.value }

  /** The configured answer to a request, if there is one and the request offers it. */
  function Pick(cfg: Config, meta: Meta, r: Request): Option<Outcome> {
    var found := Find(cfg, meta.id);
    if found.None? then None
    else if meta.allowMultiple then
      var values := if found.value.answer.Many? then found.value.answer.values else [found.value.answer.value];
      if forall v :: v in values ==> Offered(r, v) then Some(ChosenMany(values)) else None
    else if found.value.answer.One? then
      if Offered(r, found.value.answer.value) then Some(Chosen(found.value.answer.value)) else None
    else if found.value.answer.values == [] then None
    else if Offered(r, found.value.answer.values[0]) then Some(Chosen(found.value.answer.values[0]))
    else None
  }

  /** Answers a request whose question is known; `direct` says whether somebody acts on a refusal. */
  function Process(cfg: Config, s: State, n: nat, r: Request, direct: bool): State {
    if r.title !in s.metas then s
    else
      var picked := Pick(cfg, s.metas[r.title], r);
      if picked.Some? then
        s.(sent := s.sent + [Reply(n, r, picked.value)], answered := s.answered + 1,
           used := s.used + {Find(cfg, s.metas[r.title].id).value.key})
      else if cfg.strategy.Cancel? then
        s.(sent := s.sent + [Reply(n, r, Cancelled)], defaulted := s.defaulted + 1)
      else if direct then
        s.(handedBack := s.handedBack + {n}, defaulted := s.defaulted + 1)
      else
        s.(lost := s.lost + {n}, defaulted := s.defaulted + 1)
  }

  function Without(ds: seq<Deferral>, title: string): (r: seq<Deferral>)
    ensures forall d :: d in r <==> d in ds && d.title != title
  {
    if ds == [] then []
    else if ds[0].title == title then Without(ds[1..], title)
    else [ds[0]] + Without(ds[1..], title)
  }

  /** A title that is already there keeps its place in the table. */
  function Put(ds: seq<Deferral>, d: Deferral): (r: seq<Deferral>)
    ensures forall e :: e in r ==> e == d || e in ds
    ensures forall e :: e in ds && e.title != d.title ==> e in r
    ensures d in r
  {
    if ds == [] then [d]
    else if ds[0].title == d.title then [d] + ds[1..]
    else [ds[0]] + Put(ds[1..], d)
  }

  predicate DistinctTitles(ds: seq<Deferral>) {
    forall i, j :: 0 <= i < j < |ds| ==> ds[i].title != ds[j].title
  }

  function Learn(metas: map<string, Meta>, qs: seq<Question>): map<string, Meta> {
    if qs == [] then metas
    else Learn(metas, qs[..|qs| - 1])[qs[|qs| - 1].title := qs[|qs| - 1].meta]
  }

  function Resolve(cfg: Config, s: State, d: Deferral): State {
    if d.title !in s.metas then s
    else Process(cfg, s.(timers := s.timers - {d.number}, deferred := Without(s.deferred, d.title)),
                 d.number, d.request, false)
  }

  function ResolveAll(cfg: Config, s: State, ds: seq<Deferral>): State {
    if ds == [] then s else Resolve(cfg, ResolveAll(cfg, s, ds[..|ds| - 1]), ds[|ds| - 1])
  }

  function Default(cfg: Config, r: Request): Outcome {
    if cfg.strategy.Cancel? then Cancelled
    else FirstOffered(if r.options.Some? && r.options.value != [] then r.options.value[0] else "")
  }

  function Next(cfg: Config, s: State, step: Step): State {
    match step
    case Observe(qs) => ResolveAll(cfg, s.(metas := Learn(s.metas, qs)), s.deferred)
    case Select(r) =>
      var n, noted := |s.seen|, s.(seen := s.seen + [r]);
      if r.title in s.metas then Process(cfg, noted, n, r, true)
      else noted.(timers := s.timers[n := r], deferred := Put(s.deferred, Deferral(r.title, n, r)))
    case Fire(n) =>
      if n !in s.timers then s
      else
        var r := s.timers[n];
        s.(timers := s.timers - {n}, deferred := Without(s.deferred, r.title), defaulted := s.defaulted + 1,
           sent := s.sent + [Reply(n, r, Default(cfg, r))])
  }

  function Run(cfg: Config, s: State, steps: seq<Step>): State {
    if steps == [] then s else Next(cfg, Run(cfg, s, steps[..|steps| - 1]), steps[|steps| - 1])
  }

  // ---------------------------------------------------------------------------------------------
  // What becomes of each request
  // ---------------------------------------------------------------------------------------------

  ghost predicate Replied(s: State, n: nat) { exists k :: 0 <= k < |s.sent| && s.sent[k].number == n }

  /** In how many ways request `n` has been dealt with, a live timer being one. */
  ghost function Fates(s: State, n: nat): nat {
    (if n in s.timers then 1 else 0) + (if Replied(s, n) then 1 else 0)
    + (if n in s.handedBack then 1 else 0) + (if n in s.lost then 1 else 0)
  }

  function FromFile(sent: seq<Reply>): nat {
    if sent == [] then 0
    else FromFile(sent[..|sent| - 1]) + if sent[|sent| - 1].outcome.FromFile() then 1 else 0
  }

  /** A configured answer is among the options offered; anything else is what the strategy prescribes. */
  predicate Proper(cfg: Config, reply: Reply) {
    match reply.outcome
    case Chosen(v) => Offered(reply.request, v)
    case ChosenMany(vs) => forall v :: v in vs ==> Offered(reply.request, v)
    case Cancelled => cfg.strategy.Cancel?
    case FirstOffered(v) =>
      && cfg.strategy.FirstOption?
      && v == match reply.request.options case Some(options) => (if options == [] then "" else options[0]) case None => ""
  }

  ghost predicate Sends(cfg: Config, s: State) {
    && (forall k :: 0 <= k < |s.sent| ==>
          s.sent[k].number < |s.seen| && s.sent[k].request == s.seen[s.sent[k].number] && Proper(cfg, s.sent[k]))
    && (forall j, k :: 0 <= j < k < |s.sent| ==> s.sent[j].number != s.sent[k].number)
  }

  ghost predicate Table(s: State) {
    && (forall n :: n in s.timers ==> n < |s.seen| && s.timers[n] == s.seen[n])
    && DistinctTitles(s.deferred)
    && (forall d :: d in s.deferred ==> d.number in s.timers && s.timers[d.number] == d.request && d.title == d.request.title)
  }

  /** Every request has one fate, but for those in `loose`, which have none at the moment. */
  ghost predicate Ledger(s: State, loose: set<nat>) {
    && (forall n :: n in s.handedBack || n in s.lost || n in loose ==> n < |s.seen|)
    && (forall n: nat :: n < |s.seen| ==> Fates(s, n) == if n in loose then 0 else 1)
  }

  ghost predicate Sums(cfg: Config, s: State, loose: set<nat>) {
    && s.answered + s.defaulted + |s.timers| + |loose| == |s.seen|
    && s.answered == FromFile(s.sent)
    && s.answered + s.defaulted == |s.sent| + |s.handedBack| + |s.lost|
    && (cfg.strategy.Cancel? ==> s.handedBack == {} && s.lost == {})
  }

  ghost predicate Accounted(cfg: Config, s: State, loose: set<nat>) {
    Sends(cfg, s) && Table(s) && Ledger(s, loose) && Sums(cfg, s, loose)
  }

  ghost predicate Inv(cfg: Config, s: State) {
    && Accounted(cfg, s, {})
    && (forall d :: d in s.deferred ==> d.title !in s.metas)
  }

  lemma WithoutDistinct(ds: seq<Deferral>, title: string)
    requires DistinctTitles(ds)
    ensures DistinctTitles(Without(ds, title))
  {
    if ds != [] {
      WithoutDistinct(ds[1..], title);
      forall d | d in Without(ds[1..], title) ensures d.title != ds[0].title {
        var k :| 0 <= k < |ds[1..]| && ds[1..][k] == d;
        assert ds[k + 1] == d;
      }
    }
  }

  lemma PutDistinct(ds: seq<Deferral>, d: Deferral)
    requires DistinctTitles(ds)
    ensures DistinctTitles(Put(ds, d))
    ensures forall e :: e in Put(ds, d) && e != d ==> e.title != d.title
  {
    if ds != [] {
      assert forall e :: e in ds[1..] ==> e.title != ds[0].title by {
        forall e | e in ds[1..] ensures e.title != ds[0].title {
          var k :| 0 <= k < |ds[1..]| && ds[1..][k] == e;
          assert ds[k + 1] == e;
        }
      }
      if ds[0].title != d.title {
        PutDistinct(ds[1..], d);
      }
    }
  }

  lemma RepliedSnoc(s: State, t: State, reply: Reply)
    requires t.sent == s.sent + [reply]
    ensures forall n: nat :: Replied(t, n) <==> Replied(s, n) || n == reply.number
  {
    forall n: nat ensures Replied(t, n) <==> Replied(s, n) || n == reply.number {
      if Replied(s, n) {
        var k :| 0 <= k < |s.sent| && s.sent[k].number == n;
        assert t.sent[k].number == n;
      }
      if n == reply.number {
        assert t.sent[|s.sent|].number == n;
      }
    }
  }

  lemma ArriveKeeps(cfg: Config, s: State, r: Request)
    requires Accounted(cfg, s, {})
    ensures Accounted(cfg, s.(seen := s.seen + [r]), {|s.seen|})
  {
    var t := s.(seen := s.seen + [r]);
    forall n: nat | n < |t.seen| ensures Fates(t, n) == if n in {|s.seen|} then 0 else 1 {
      assert Replied(t, n) <==> Replied(s, n);
      assert n < |s.seen| ==> Fates(s, n) == 1;
    }
  }

  lemma ArmKeeps(cfg: Config, s: State, n: nat)
    requires Accounted(cfg, s, {n})
    ensures var r := s.seen[n];
            Accounted(cfg, s.(timers := s.timers[n := r], deferred := Put(s.deferred, Deferral(r.title, n, r))), {})
  {
    hide Fates, Sends, FromFile, Table;
    assert n in {n};
    var r := s.seen[n];
    var t := s.(timers := s.timers[n := r], deferred := Put(s.deferred, Deferral(r.title, n, r)));
    ArmLedger(s, t, n);
    ArmTable(s, n);
    assert t.timers.Keys == s.timers.Keys + {n};
    SendsOnly(cfg, s, t);
    hide Ledger;
  }

  lemma ArmTable(s: State, n: nat)
    requires Table(s) && n < |s.seen| && n !in s.timers
    ensures var r := s.seen[n];
            Table(s.(timers := s.timers[n := r], deferred := Put(s.deferred, Deferral(r.title, n, r))))
  {
    PutDistinct(s.deferred, Deferral(s.seen[n].title, n, s.seen[n]));
  }

  lemma SendsOnly(cfg: Config, s: State, t: State)
    requires Sends(cfg, s) && s.sent == t.sent && s.seen <= t.seen
    ensures Sends(cfg, t)
  {
  }

  lemma ArmLedger(s: State, t: State, n: nat)
    requires Ledger(s, {n}) && t.timers.Keys == s.timers.Keys + {n}
    requires (t.sent, t.handedBack, t.lost, t.seen) == (s.sent, s.handedBack, s.lost, s.seen)
    ensures Ledger(t, {}) && n !in s.timers
  {
    assert n in {n} && Fates(s, n) == 0;
    forall m: nat | m < |t.seen| ensures Fates(t, m) == 1 {
      assert Replied(t, m) <==> Replied(s, m);
      assert Fates(s, m) == if m in {n} then 0 else 1;
    }
  }

  lemma DisarmKeeps(cfg: Config, s: State, n: nat)
    requires Accounted(cfg, s, {}) && n in s.timers
    ensures var title := s.timers[n].title;
            Accounted(cfg, s.(timers := s.timers - {n}, deferred := Without(s.deferred, title)), {n})
  {
    var t := s.(timers := s.timers - {n}, deferred := Without(s.deferred, s.timers[n].title));
    WithoutDistinct(s.deferred, s.timers[n].title);
    assert t.timers.Keys == s.timers.Keys - {n};
    forall m: nat | m < |t.seen| ensures Fates(t, m) == if m in {n} then 0 else 1 {
      assert Replied(t, m) <==> Replied(s, m);
      assert Fates(s, m) == 1;
    }
  }

  lemma SendLedger(s: State, t: State, reply: Reply)
    requires Ledger(s, {reply.number}) && t.sent == s.sent + [reply]
    requires (t.timers, t.handedBack, t.lost, t.seen) == (s.timers, s.handedBack, s.lost, s.seen)
    ensures Ledger(t, {})
    ensures forall k :: 0 <= k < |s.sent| ==> s.sent[k].number != reply.number
  {
    RepliedSnoc(s, t, reply);
    assert Fates(s, reply.number) == 0;
    forall k | 0 <= k < |s.sent| ensures s.sent[k].number != reply.number {
      assert s.sent[k].number == reply.number ==> Replied(s, reply.number);
    }
    forall m: nat | m < |t.seen| ensures Fates(t, m) == 1 {
      assert Fates(s, m) == if m in {reply.number} then 0 else 1;
    }
  }

  lemma SendSums(cfg: Config, s: State, t: State, reply: Reply)
    requires Sums(cfg, s, {reply.number}) && t.sent == s.sent + [reply]
    requires (t.timers, t.handedBack, t.lost, t.seen) == (s.timers, s.handedBack, s.lost, s.seen)
    requires (t.answered, t.defaulted) == if reply.outcome.FromFile() then (s.answered + 1, s.defaulted)
                                          else (s.answered, s.defaulted + 1)
    ensures Sums(cfg, t, {})
  {
    assert t.sent[..|t.sent| - 1] == s.sent;
  }

  /** `t` is `s` after one more reply, its counters brought up to date. */
  lemma SendKeeps(cfg: Config, s: State, t: State, reply: Reply)
    requires Accounted(cfg, s, {reply.number}) && Proper(cfg, reply) && t.sent == s.sent + [reply]
    requires reply.number < |s.seen| ==> reply.request == s.seen[reply.number]
    requires (t.timers, t.handedBack, t.lost, t.seen) == (s.timers, s.handedBack, s.lost, s.seen)
    requires t.deferred == s.deferred
    requires (t.answered, t.defaulted) == if reply.outcome.FromFile() then (s.answered + 1, s.defaulted)
                                          else (s.answered, s.defaulted + 1)
    ensures Accounted(cfg, t, {})
  {
    hide Sums, Proper;
    SendSums(cfg, s, t, reply);
    SendLedger(s, t, reply);
    assert reply.number in {reply.number};
    hide Ledger;
  }

  lemma RefuseLedger(s: State, t: State, n: nat)
    requires Ledger(s, {n}) && (t.sent, t.timers, t.seen) == (s.sent, s.timers, s.seen)
    requires (t.handedBack == s.handedBack + {n} && t.lost == s.lost)
             || (t.handedBack == s.handedBack && t.lost == s.lost + {n})
    ensures Ledger(t, {}) && n !in s.handedBack && n !in s.lost
  {
    assert n in {n} && Fates(s, n) == 0;
    forall m: nat | m < |t.seen| ensures Fates(t, m) == 1 {
      assert Replied(t, m) <==> Replied(s, m);
      assert Fates(s, m) == if m in {n} then 0 else 1;
    }
  }

  lemma HandBackKeeps(cfg: Config, s: State, n: nat)
    requires Accounted(cfg, s, {n}) && cfg.strategy.FirstOption?
    ensures Accounted(cfg, s.(handedBack := s.handedBack + {n}, defaulted := s.defaulted + 1), {})
  {
    hide FromFile, Fates, Sends;
    var t := s.(handedBack := s.handedBack + {n}, defaulted := s.defaulted + 1);
    RefuseLedger(s, t, n);
    SendsOnly(cfg, s, t);
    hide Ledger;
  }

  lemma LoseKeeps(cfg: Config, s: State, n: nat)
    requires Accounted(cfg, s, {n}) && cfg.strategy.FirstOption?
    ensures Accounted(cfg, s.(lost := s.lost + {n}, defaulted := s.defaulted + 1), {})
  {
    hide FromFile, Fates, Sends;
    var t := s.(lost := s.lost + {n}, defaulted := s.defaulted + 1);
    RefuseLedger(s, t, n);
    SendsOnly(cfg, s, t);
    hide Ledger;
  }

  lemma ProcessKeeps(cfg: Config, s: State, n: nat, r: Request, direct: bool)
    requires Accounted(cfg, s, {n}) && r.title in s.metas && (n < |s.seen| ==> s.seen[n] == r)
    ensures Accounted(cfg, Process(cfg, s, n, r, direct), {})
  {
    hide Accounted, Find;
    var t := Process(cfg, s, n, r, direct);
    var picked := Pick(cfg, s.metas[r.title], r);
    if picked.Some? {
      SendKeeps(cfg, s, t, Reply(n, r, picked.value));
    } else if cfg.strategy.Cancel? {
      SendKeeps(cfg, s, t, Reply(n, r, Cancelled));
    } else {
      HandBackKeeps(cfg, s, n);
      LoseKeeps(cfg, s, n);
    }
  }

  /** What is left while deferred requests are resolved: those without metadata, and those still to come. */
  ghost predicate Remaining(s: State, ds: seq<Deferral>, k: nat)
    requires k <= |ds|
  {
    && (forall j :: k <= j < |ds| ==> ds[j] in s.deferred)
    && (forall d :: d in s.deferred ==> d in ds && (d.title !in s.metas || d in ds[k..]))
  }

  lemma ResolveAccounted(cfg: Config, s: State, d: Deferral)
    requires Accounted(cfg, s, {}) && d in s.deferred && d.title in s.metas
    ensures Accounted(cfg, Resolve(cfg, s, d), {})
  {
    hide Process, Sends, Ledger, Sums;
    DisarmKeeps(cfg, s, d.number);
    ProcessKeeps(cfg, s.(timers := s.timers - {d.number}, deferred := Without(s.deferred, d.title)),
                 d.number, d.request, false);
  }

  lemma ProcessKeepsTable(cfg: Config, s: State, n: nat, r: Request, direct: bool)
    ensures var t := Process(cfg, s, n, r, direct);
            t.deferred == s.deferred && t.timers == s.timers && t.metas == s.metas && t.seen == s.seen
  {
  }

  lemma ResolveKeeps(cfg: Config, s: State, ds: seq<Deferral>, k: nat)
    requires k < |ds| && Accounted(cfg, s, {}) && DistinctTitles(ds) && Remaining(s, ds, k)
    ensures var t := Resolve(cfg, s, ds[k]);
            Accounted(cfg, t, {}) && Remaining(t, ds, k + 1) && t.metas == s.metas && t.seen == s.seen
  {
    hide Process, Accounted;
    var d, t := ds[k], Resolve(cfg, s, ds[k]);
    assert d in s.deferred;
    assert ds[k..] == [d] + ds[k + 1..];
    if d.title in s.metas {
      ResolveAccounted(cfg, s, d);
      ProcessKeepsTable(cfg, s.(timers := s.timers - {d.number}, deferred := Without(s.deferred, d.title)),
                        d.number, d.request, false);
    }
  }

  lemma {:induction false} ResolveAllKeeps(cfg: Config, s: State, ds: seq<Deferral>, k: nat)
    requires Accounted(cfg, s, {}) && s.deferred == ds && k <= |ds|
    ensures var t := ResolveAll(cfg, s, ds[..k]);
            Accounted(cfg, t, {}) && Remaining(t, ds, k) && t.metas == s.metas && t.seen == s.seen
  {
    hide Accounted, Resolve, Remaining;
    TitlesAreDistinct(cfg, s);
    if k > 0 {
      assert ds[..k][..k - 1] == ds[..k - 1];
      ResolveAllKeeps(cfg, s, ds, k - 1);
      ResolveKeeps(cfg, ResolveAll(cfg, s, ds[..k - 1]), ds, k - 1);
    } else {
      AllRemain(s);
    }
  }

  lemma AllRemain(s: State)
    ensures Remaining(s, s.deferred, 0)
  {
    assert s.deferred[0..] == s.deferred;
  }

  lemma ObserveKeeps(cfg: Config, s: State, qs: seq<Question>)
    requires Inv(cfg, s)
    ensures Inv(cfg, Next(cfg, s, Observe(qs)))
    ensures Next(cfg, s, Observe(qs)).seen == s.seen
  {
    hide Accounted, ResolveAll;
    var t := s.(metas := Learn(s.metas, qs));
    MetasDoNotMatter(cfg, s, t.metas);
    TitlesAreDistinct(cfg, s);
    ResolveAllKeeps(cfg, t, s.deferred, |s.deferred|);
    assert s.deferred[..|s.deferred|] == s.deferred;
  }

  lemma TitlesAreDistinct(cfg: Config, s: State)
    requires Accounted(cfg, s, {})
    ensures DistinctTitles(s.deferred)
  {
  }

  lemma SelectKeeps(cfg: Config, s: State, r: Request)
    requires Inv(cfg, s)
    ensures Inv(cfg, Next(cfg, s, Select(r)))
  {
    hide Accounted, Process;
    var t := s.(seen := s.seen + [r]);
    ArriveKeeps(cfg, s, r);
    if r.title in s.metas {
      ProcessKeeps(cfg, t, |s.seen|, r, true);
      ProcessKeepsTable(cfg, t, |s.seen|, r, true);
    } else {
      ArmKeeps(cfg, t, |s.seen|);
    }
  }

  lemma FireKeeps(cfg: Config, s: State, n: nat)
    requires Inv(cfg, s)
    ensures Inv(cfg, Next(cfg, s, Fire(n)))
  {
    hide Sums, Ledger, Sends;
    if n in s.timers {
      DisarmKeeps(cfg, s, n);
      var t := s.(timers := s.timers - {n}, deferred := Without(s.deferred, s.timers[n].title));
      SendKeeps(cfg, t, Next(cfg, s, Fire(n)), Reply(n, s.timers[n], Default(cfg, s.timers[n])));
    }
  }

  lemma NextKeepsInv(cfg: Config, s: State, step: Step)
    requires Inv(cfg, s)
    ensures Inv(cfg, Next(cfg, s, step))
  {
    hide Inv, Next;
    match step
    case Observe(qs) => ObserveKeeps(cfg, s, qs);
    case Select(r) => SelectKeeps(cfg, s, r);
    case Fire(n) => FireKeeps(cfg, s, n);
  }

  lemma MetasDoNotMatter(cfg: Config, s: State, metas: map<string, Meta>)
    requires Accounted(cfg, s, {})
    ensures Accounted(cfg, s.(metas := metas), {})
  {
    var t := s.(metas := metas);
    forall n: nat ensures Fates(t, n) == Fates(s, n) {
      assert Replied(t, n) <==> Replied(s, n);
    }
  }

  lemma {:induction false} RunKeepsInv(cfg: Config, s: State, steps: seq<Step>)
    requires Inv(cfg, s)
    ensures Inv(cfg, Run(cfg, s, steps))
  {
    if steps != [] {
      RunKeepsInv(cfg, s, steps[..|steps| - 1]);
      NextKeepsInv(cfg, Run(cfg, s, steps[..|steps| - 1]), steps[|steps| - 1]);
    }
  }

  // ---------------------------------------------------------------------------------------------
  // Over all interleavings
  // ---------------------------------------------------------------------------------------------

  /**
   Answered, defaulted and still-timed requests add up to the requests seen; no request gets two replies; every
   request is either still timed, replied to, returned to the caller or lost, and only one of these; every reply
   is to a request that was made, with an answer that it offers or with what the strategy prescribes.
   */
  lemma AnswersAddUp(cfg: Config, steps: seq<Step>)
    ensures var s := Run(cfg, INITIAL, steps);
            && s.answered + s.defaulted + |s.timers| == |s.seen|
            && s.answered == FromFile(s.sent)
            && (forall j, k :: 0 <= j < k < |s.sent| ==> s.sent[j].number != s.sent[k].number)
            && (forall n: nat :: n < |s.seen| ==> Fates(s, n) == 1)
            && (forall reply :: reply in s.sent ==>
                  reply.number < |s.seen| && reply.request == s.seen[reply.number] && Proper(cfg, reply))
  {
    InitialInv(cfg);
    RunKeepsInv(cfg, INITIAL, steps);
  }

  lemma InitialInv(cfg: Config)
    ensures Inv(cfg, INITIAL)
  {
  }

  /** When giving up means cancelling, every request has exactly one reply as soon as no timer is live. */
  lemma CancelAnswersAll(cfg: Config, steps: seq<Step>)
    requires cfg.strategy.Cancel?
    ensures var s := Run(cfg, INITIAL, steps);
            && (forall n: nat :: n < |s.seen| ==> (Replied(s, n) <==> n !in s.timers))
            && |s.sent| + |s.timers| == |s.seen|
  {
    AnswersAddUp(cfg, steps);
    InitialInv(cfg);
    RunKeepsInv(cfg, INITIAL, steps);
    var s := Run(cfg, INITIAL, steps);
    forall n: nat | n < |s.seen| ensures Replied(s, n) <==> n !in s.timers {
      assert Fates(s, n) == 1;
    }
  }

  function Firings(ns: seq<nat>): seq<Step> {
    if ns == [] then [] else Firings(ns[..|ns| - 1]) + [Fire(ns[|ns| - 1])]
  }

  /** Timers firing, in any order and whatever else is deferred, disarm exactly themselves and reply to each. */
  lemma {:induction false} FiringSettles(cfg: Config, s: State, ns: seq<nat>)
    requires Inv(cfg, s)
    ensures var t := Run(cfg, s, Firings(ns));
            && Inv(cfg, t) && t.seen == s.seen
            && (forall n :: n in t.timers <==> n in s.timers && n !in ns)
            && (forall n :: n in s.timers && n in ns ==> Reply(n, s.seen[n], Default(cfg, s.seen[n])) in t.sent)
            && (forall reply :: reply in s.sent ==> reply in t.sent)
  {
    hide Accounted, Default, Next;
    if ns != [] {
      var rest, n := ns[..|ns| - 1], ns[|ns| - 1];
      FiringSettles(cfg, s, rest);
      var t := Run(cfg, s, Firings(rest));
      assert Firings(ns)[..|Firings(ns)| - 1] == Firings(rest);
      assert forall m :: m in ns <==> m in rest || m == n;
      FireKeeps(cfg, t, n);
      FireReplies(cfg, t, n);
    }
  }

  lemma FireReplies(cfg: Config, s: State, n: nat)
    requires Inv(cfg, s)
    ensures var t := Next(cfg, s, Fire(n));
            && t.seen == s.seen && t.timers.Keys == s.timers.Keys - {n}
            && (n in s.timers ==> Reply(n, s.seen[n], Default(cfg, s.seen[n])) in t.sent)
            && (forall reply :: reply in s.sent ==> reply in t.sent)
  {
    if n in s.timers {
      assert Next(cfg, s, Fire(n)).sent[|s.sent|] == Reply(n, s.seen[n], Default(cfg, s.seen[n]));
    }
  }

  /** What has been written stays written, and nothing is written about a request that has been dealt with. */
  lemma {:induction false} RepliesAreFinal(cfg: Config, s: State, steps: seq<Step>, n: nat)
    requires Inv(cfg, s)
    ensures var t := Run(cfg, s, steps); s.sent <= t.sent && s.seen <= t.seen && s.lost <= t.lost && s.handedBack <= t.handedBack
    ensures n < |s.seen| && n !in s.timers ==> (Replied(Run(cfg, s, steps), n) <==> Replied(s, n))
  {
    RunGrows(cfg, s, steps);
    RunKeepsInv(cfg, s, steps);
    var t := Run(cfg, s, steps);
    if n < |s.seen| && n !in s.timers {
      assert Fates(s, n) == 1 && Fates(t, n) == 1;
      if Replied(s, n) {
        var k :| 0 <= k < |s.sent| && s.sent[k].number == n;
        assert t.sent[k].number == n;
      }
    }
  }

  ghost predicate Grown(s: State, t: State) {
    s.sent <= t.sent && s.seen <= t.seen && s.lost <= t.lost && s.handedBack <= t.handedBack
  }

  lemma ResolveGrows(cfg: Config, s: State, d: Deferral)
    ensures Grown(s, Resolve(cfg, s, d)) && Resolve(cfg, s, d).metas == s.metas
  {
  }

  lemma {:induction false} ResolveAllGrows(cfg: Config, s: State, ds: seq<Deferral>)
    ensures Grown(s, ResolveAll(cfg, s, ds)) && ResolveAll(cfg, s, ds).metas == s.metas
  {
    hide Resolve;
    if ds != [] {
      ResolveAllGrows(cfg, s, ds[..|ds| - 1]);
      ResolveGrows(cfg, ResolveAll(cfg, s, ds[..|ds| - 1]), ds[|ds| - 1]);
    }
  }

  lemma {:induction false} RunGrows(cfg: Config, s: State, steps: seq<Step>)
    ensures Grown(s, Run(cfg, s, steps))
  {
    if steps != [] {
      var t, step := Run(cfg, s, steps[..|steps| - 1]), steps[|steps| - 1];
      RunGrows(cfg, s, steps[..|steps| - 1]);
      if step.Observe? {
        ResolveAllGrows(cfg, t.(metas := Learn(t.metas, step.questions)), t.deferred);
      }
    }
  }

  // ---------------------------------------------------------------------------------------------
  // Metadata that arrives late
  // ---------------------------------------------------------------------------------------------

  /** What becomes of a deferred request when its metadata arrives. */
  ghost predicate Settled(cfg: Config, metas: map<string, Meta>, d: Deferral, t: State)
    requires d.title in metas
  {
    var picked := Pick(cfg, metas[d.title], d.request);
    && d.number !in t.timers
    && (picked.Some? ==> Reply(d.number, d.request, picked.value) in t.sent)
    && (picked.None? && cfg.strategy.Cancel? ==> Reply(d.number, d.request, Cancelled) in t.sent)
    && (picked.None? && cfg.strategy.FirstOption? <==> d.number in t.lost)
  }

  lemma ResolveSettles(cfg: Config, s: State, d: Deferral)
    requires Accounted(cfg, s, {}) && d in s.deferred && d.title in s.metas
    ensures Settled(cfg, s.metas, d, Resolve(cfg, s, d))
  {
    hide Sends, Sums, Find, Pick;
    assert d.number in s.timers && d.title == d.request.title;
    assert Fates(s, d.number) == 1;
    var t := Resolve(cfg, s, d);
    assert t.sent != s.sent ==> t.sent[|t.sent| - 1] in t.sent;
  }

  lemma ResolveLeaves(cfg: Config, s: State, d: Deferral, n: nat)
    requires Accounted(cfg, s, {}) && d in s.deferred && d.number != n
    ensures var t := Resolve(cfg, s, d);
            && (n in t.timers <==> n in s.timers) && (n in t.lost <==> n in s.lost)
            && (forall reply :: reply in s.sent ==> reply in t.sent)
  {
  }

  /** `n` is the number of one of the deferred requests whose titles are known. */
  ghost predicate Reached(ds: seq<Deferral>, metas: map<string, Meta>, n: nat) {
    exists d :: d in ds && d.title in metas && d.number == n
  }

  lemma ReachedSnoc(ds: seq<Deferral>, d: Deferral, metas: map<string, Meta>, n: nat)
    ensures Reached(ds + [d], metas, n) <==> Reached(ds, metas, n) || (d.title in metas && d.number == n)
  {
    assert d in ds + [d];
    if e :| e in ds && e.title in metas && e.number == n {
      assert e in ds + [d];
    }
  }

  lemma NumbersAreDistinct(cfg: Config, s: State, i: nat, j: nat)
    requires Accounted(cfg, s, {}) && i < j < |s.deferred|
    ensures s.deferred[i].number != s.deferred[j].number
  {
    assert s.deferred[i] in s.deferred && s.deferred[j] in s.deferred;
  }

  ghost predicate SettledUpTo(cfg: Config, s: State, t: State, ds: seq<Deferral>) {
    && (forall d :: d in ds && d.title in s.metas ==> Settled(cfg, s.metas, d, t))
    && (forall n :: n in t.timers <==> n in s.timers && !Reached(ds, s.metas, n))
    && (forall n :: n in t.lost ==> n in s.lost || Reached(ds, s.metas, n))
  }

  lemma SettledStep(cfg: Config, s: State, t: State, k: nat)
    requires Accounted(cfg, s, {}) && Accounted(cfg, t, {}) && t.metas == s.metas
    requires k < |s.deferred| && s.deferred[k] in t.deferred && SettledUpTo(cfg, s, t, s.deferred[..k])
    ensures SettledUpTo(cfg, s, Resolve(cfg, t, s.deferred[k]), s.deferred[..k] + [s.deferred[k]])
  {
    hide Accounted, Pick, Resolve, Reached;
    var d, ds, u := s.deferred[k], s.deferred[..k], Resolve(cfg, t, s.deferred[k]);
    forall n: nat ensures Reached(ds + [d], s.metas, n) <==> Reached(ds, s.metas, n) || (d.title in s.metas && d.number == n) {
      ReachedSnoc(ds, d, s.metas, n);
    }
    if d.title in s.metas {
      ResolveSettles(cfg, t, d);
      forall n: nat | n != d.number
        ensures (n in u.timers <==> n in t.timers) && (n in u.lost <==> n in t.lost)
      {
        ResolveLeaves(cfg, t, d, n);
      }
      forall e | e in ds && e.title in s.metas ensures Settled(cfg, s.metas, e, u) {
        var j :| 0 <= j < k && ds[j] == e;
        NumbersAreDistinct(cfg, s, j, k);
        ResolveLeaves(cfg, t, d, e.number);
      }
    } else {
      ResolveOfUnknown(cfg, t, d);
    }
  }

  lemma ResolveOfUnknown(cfg: Config, s: State, d: Deferral)
    requires d.title !in s.metas
    ensures Resolve(cfg, s, d) == s
  {
  }

  lemma {:induction false} ResolveAllSettles(cfg: Config, s: State, k: nat)
    requires Accounted(cfg, s, {}) && k <= |s.deferred|
    ensures SettledUpTo(cfg, s, ResolveAll(cfg, s, s.deferred[..k]), s.deferred[..k])
  {
    hide Accounted, Resolve, Settled;
    if k > 0 {
      ResolveAllSettles(cfg, s, k - 1);
      TitlesAreDistinct(cfg, s);
      ResolveAllKeeps(cfg, s, s.deferred, k - 1);
      assert s.deferred[..k][..k - 1] == s.deferred[..k - 1];
      assert s.deferred[..k] == s.deferred[..k - 1] + [s.deferred[k - 1]];
      SettledStep(cfg, s, ResolveAll(cfg, s, s.deferred[..k - 1]), k - 1);
    }
  }

  /** `n` is the number of a deferred request that becomes known but has no valid configured answer. */
  ghost predicate Forsaken(cfg: Config, ds: seq<Deferral>, metas: map<string, Meta>, n: nat) {
    exists d :: d in ds && d.title in metas && d.number == n && Pick(cfg, metas[d.title], d.request).None?
  }

  /**
   Metadata settles exactly the deferred requests whose titles it makes known: each gets its configured answer,
   or else is cancelled, or else, when giving up means taking the first option, is lost without any reply.
   */
  lemma MetadataSettlesDeferred(cfg: Config, s: State, qs: seq<Question>)
    requires Inv(cfg, s)
    ensures var metas, t := Learn(s.metas, qs), Next(cfg, s, Observe(qs));
            && (forall d :: d in s.deferred && d.title in metas ==> Settled(cfg, metas, d, t))
            && (forall n :: n in t.timers <==> n in s.timers && !Reached(s.deferred, metas, n))
            && (forall n :: n in t.lost <==>
                  n in s.lost || (cfg.strategy.FirstOption? && Forsaken(cfg, s.deferred, metas, n)))
  {
    hide Accounted, ResolveAll, Pick;
    var u := s.(metas := Learn(s.metas, qs));
    var t := Next(cfg, s, Observe(qs));
    MetasDoNotMatter(cfg, s, u.metas);
    assert s.deferred[..|s.deferred|] == s.deferred;
    ResolveAllSettles(cfg, u, |s.deferred|);
    ResolveAllGrows(cfg, u, s.deferred);
    forall n | n in t.lost && n !in s.lost ensures cfg.strategy.FirstOption? && Forsaken(cfg, s.deferred, u.metas, n) {
      var d :| d in s.deferred && d.title in u.metas && d.number == n;
      assert Settled(cfg, u.metas, d, t);
    }
  }

  /** Requests are never lost exactly when giving up means cancelling. */
  lemma NothingIsLostIff(cfg: Config)
    ensures (forall steps :: Run(cfg, INITIAL, steps).lost == {}) <==> cfg.strategy.Cancel?
  {
    if cfg.strategy.Cancel? {
      forall steps ensures Run(cfg, INITIAL, steps).lost == {} {
        InitialInv(cfg);
        RunKeepsInv(cfg, INITIAL, steps);
      }
    } else {
      CanBeLost(cfg);
    }
  }

  /** A select request without options that comes before the metadata of its question. */
  lemma CanBeLost(cfg: Config)
    requires cfg.strategy.FirstOption?
    ensures exists steps :: Run(cfg, INITIAL, steps).lost != {}
  {
    hide Find, Inv, ResolveAll;
    var r, qs := Request("1", "t", None), [Question("t", Meta("q", false))];
    var steps := [Select(r), Observe(qs)];
    var s := Run(cfg, INITIAL, [Select(r)]);
    RunOne(cfg, INITIAL, Select(r));
    assert steps[..1] == [Select(r)];
    InitialInv(cfg);
    NextKeepsInv(cfg, INITIAL, Select(r));
    MetadataSettlesDeferred(cfg, s, qs);
    assert qs[..0] == [];
    assert Put([], Deferral("t", 0, r)) == [Deferral("t", 0, r)];
    assert Deferral("t", 0, r) in s.deferred;
    assert Forsaken(cfg, s.deferred, Learn(s.metas, qs), 0);
    assert 0 in Run(cfg, INITIAL, steps).lost;
  }

  lemma RunOne(cfg: Config, s: State, step: Step)
    ensures Run(cfg, s, [step]) == Next(cfg, s, step)
  {
    assert [step][..0] == [];
  }

  /**
   A request whose place in the table was taken, by a newer one or by a timer for the same title, is never given
   a configured answer: metadata no longer reaches it, and its own timer gives it the default.
   */
  lemma {:induction false} OvershadowedIsDefaulted(cfg: Config, s: State, n: nat, steps: seq<Step>)
    requires Inv(cfg, s) && n in s.timers && forall d :: d in s.deferred ==> d.number != n
    ensures var t := Run(cfg, s, steps);
            || (n in t.timers && t.timers[n] == s.timers[n] && forall d :: d in t.deferred ==> d.number != n)
            || Reply(n, s.timers[n], Default(cfg, s.timers[n])) in t.sent
  {
    if steps != [] {
      var rest, step := steps[..|steps| - 1], steps[|steps| - 1];
      OvershadowedIsDefaulted(cfg, s, n, rest);
      RunKeepsInv(cfg, s, rest);
      OvershadowedStep(cfg, Run(cfg, s, rest), n, s.timers[n], step);
    }
  }

  lemma OvershadowedStep(cfg: Config, s: State, n: nat, r: Request, step: Step)
    requires Inv(cfg, s)
    requires (n in s.timers && s.timers[n] == r && forall d :: d in s.deferred ==> d.number != n)
             || Reply(n, r, Default(cfg, r)) in s.sent
    ensures var t := Next(cfg, s, step);
            || (n in t.timers && t.timers[n] == r && forall d :: d in t.deferred ==> d.number != n)
            || Reply(n, r, Default(cfg, r)) in t.sent
  {
    hide Default, Find, Accounted, Run, ResolveAll;
    var t := Next(cfg, s, step);
    RunGrows(cfg, s, [step]);
    RunOne(cfg, s, step);
    if Reply(n, r, Default(cfg, r)) !in s.sent {
      match step
      case Observe(qs) => {
        MetadataSettlesDeferred(cfg, s, qs);
        ObserveDefersNothing(cfg, s, qs);
        TimersMatch(cfg, s, n);
        ObserveKeeps(cfg, s, qs);
        TimersMatch(cfg, t, n);
      }
      case Select(r') => {
        TimersMatch(cfg, s, n);
        ProcessKeepsTable(cfg, s.(seen := s.seen + [r']), |s.seen|, r', true);
      }
      case Fire(m) => {
        TimersMatch(cfg, s, n);
        FireReplies(cfg, s, m);
      }
    }
  }

  lemma TimersMatch(cfg: Config, s: State, n: nat)
    requires Inv(cfg, s)
    ensures n in s.timers ==> n < |s.seen| && s.timers[n] == s.seen[n]
  {
  }

  lemma ObserveDefersNothing(cfg: Config, s: State, qs: seq<Question>)
    requires Inv(cfg, s)
    ensures forall d :: d in Next(cfg, s, Observe(qs)).deferred ==> d in s.deferred
  {
    hide Accounted, ResolveAll;
    var t := s.(metas := Learn(s.metas, qs));
    MetasDoNotMatter(cfg, s, t.metas);
    ResolveAllKeeps(cfg, t, s.deferred, |s.deferred|);
    assert s.deferred[..|s.deferred|] == s.deferred;
  }

  // ---------------------------------------------------------------------------------------------
  // Which answers were used
  // ---------------------------------------------------------------------------------------------

  /** The reply carries the answer that the file gives under a key. */
  predicate Carries(outcome: Outcome, answer: Answer) {
    match outcome
    case Chosen(v) => if answer.One? then v == answer.value else answer.values != [] && v == answer.values[0]
    case ChosenMany(vs) => vs == if answer.Many? then answer.values else [answer.value]
    case _ => false
  }

  ghost predicate Backed(cfg: Config, reply: Reply, key: string) {
    cfg.questions.Some? && exists e :: e in cfg.questions.value && e.key == key && Carries(reply.outcome, e.answer)
  }

  ghost predicate BackedByUsed(cfg: Config, reply: Reply, used: set<string>) {
    exists key :: key in used && Backed(cfg, reply, key)
  }

  ghost predicate CarriedBySent(cfg: Config, key: string, sent: seq<Reply>) {
    exists reply :: reply in sent && Backed(cfg, reply, key)
  }

  ghost predicate UsedIsExact(cfg: Config, s: State) {
    && (forall key :: key in s.used ==> CarriedBySent(cfg, key, s.sent))
    && (forall reply :: reply in s.sent && reply.outcome.FromFile() ==> BackedByUsed(cfg, reply, s.used))
  }

  lemma FindIsInFile(cfg: Config, id: string)
    ensures Find(cfg, id).Some? ==> cfg.questions.Some? && Find(cfg, id).value in cfg.questions.value
  {
    hide FirstMatch, Matches;
    if cfg.questions.Some? {
      FirstMatchMeaning(cfg.questions.value, id, cfg.lower, true);
      FirstMatchMeaning(cfg.questions.value, id, cfg.lower, false);
    }
  }

  lemma PickIsBacked(cfg: Config, meta: Meta, r: Request, n: nat)
    requires Pick(cfg, meta, r).Some?
    ensures Find(cfg, meta.id).Some?
    ensures Pick(cfg, meta, r).value.FromFile()
    ensures Backed(cfg, Reply(n, r, Pick(cfg, meta, r).value), Find(cfg, meta.id).value.key)
  {
    hide Find;
    FindIsInFile(cfg, meta.id);
    assert Carries(Pick(cfg, meta, r).value, Find(cfg, meta.id).value.answer);
  }

  /** One more reply, with its key if it is from the file. */
  lemma SendKeepsUsed(cfg: Config, s: State, t: State, reply: Reply, key: string)
    requires UsedIsExact(cfg, s) && t.sent == s.sent + [reply]
    requires if reply.outcome.FromFile() then Backed(cfg, reply, key) && t.used == s.used + {key} else t.used == s.used
    ensures UsedIsExact(cfg, t)
  {
    hide Backed;
    assert reply in t.sent;
    forall k | k in t.used ensures CarriedBySent(cfg, k, t.sent) {
      if k in s.used {
        assert CarriedBySent(cfg, k, s.sent);
        var r :| r in s.sent && Backed(cfg, r, k);
        assert r in t.sent;
      }
    }
    forall r | r in t.sent && r.outcome.FromFile() ensures BackedByUsed(cfg, r, t.used) {
      if r in s.sent {
        assert BackedByUsed(cfg, r, s.used);
      } else {
        assert key in t.used && Backed(cfg, reply, key);
      }
    }
  }

  lemma ProcessKeepsUsed(cfg: Config, s: State, n: nat, r: Request, direct: bool)
    requires UsedIsExact(cfg, s)
    ensures UsedIsExact(cfg, Process(cfg, s, n, r, direct))
  {
    hide Find, Pick;
    if r.title in s.metas {
      var t, picked := Process(cfg, s, n, r, direct), Pick(cfg, s.metas[r.title], r);
      if picked.Some? {
        PickIsBacked(cfg, s.metas[r.title], r, n);
        SendKeepsUsed(cfg, s, t, Reply(n, r, picked.value), Find(cfg, s.metas[r.title].id).value.key);
      } else if cfg.strategy.Cancel? {
        SendKeepsUsed(cfg, s, t, Reply(n, r, Cancelled), "");
      }
    }
  }

  lemma {:induction false} ResolveAllKeepsUsed(cfg: Config, s: State, ds: seq<Deferral>)
    requires UsedIsExact(cfg, s)
    ensures UsedIsExact(cfg, ResolveAll(cfg, s, ds))
  {
    hide Process;
    if ds != [] {
      var t, d := ResolveAll(cfg, s, ds[..|ds| - 1]), ds[|ds| - 1];
      ResolveAllKeepsUsed(cfg, s, ds[..|ds| - 1]);
      var cleared := t.(timers := t.timers - {d.number}, deferred := Without(t.deferred, d.title));
      ProcessKeepsUsed(cfg, cleared, d.number, d.request, false);
    }
  }

  lemma NextKeepsUsed(cfg: Config, s: State, step: Step)
    requires UsedIsExact(cfg, s)
    ensures UsedIsExact(cfg, Next(cfg, s, step))
  {
    hide Process, Backed, CarriedBySent, BackedByUsed;
    match step
    case Observe(qs) => ResolveAllKeepsUsed(cfg, s.(metas := Learn(s.metas, qs)), s.deferred);
    case Select(r) => ProcessKeepsUsed(cfg, s.(seen := s.seen + [r]), |s.seen|, r, true);
    case Fire(n) => {
      if n in s.timers {
        SendKeepsUsed(cfg, s, Next(cfg, s, step), Reply(n, s.timers[n], Default(cfg, s.timers[n])), "");
      }
    }
  }

  /**
   The keys recorded as used are exactly right in every interleaving: each used key has an answer in the file that
   was sent, and each reply from the file carries the answer of a used key.
   */
  lemma {:induction false} UsedKeysAreExact(cfg: Config, steps: seq<Step>)
    ensures UsedIsExact(cfg, Run(cfg, INITIAL, steps))
  {
    hide Next;
    if steps != [] {
      UsedKeysAreExact(cfg, steps[..|steps| - 1]);
      NextKeepsUsed(cfg, Run(cfg, INITIAL, steps[..|steps| - 1]), steps[|steps| - 1]);
    }
  }

  // ---------------------------------------------------------------------------------------------
  // The injector object
  // ---------------------------------------------------------------------------------------------

  class Injector {
    const cfg: Config
    var metas: map<string, Meta>
    var deferred: seq<Deferral>
    var timers: map<nat, Request>
    var asked: nat
    var used: set<string>
    var answered: nat
    var defaulted: nat
    var sent: seq<Reply>
    ghost var seen: seq<Request>
    ghost var handedBack: set<nat>
    ghost var lost: set<nat>

    ghost function Shown(): State
      reads this
    {
      State(metas, deferred, timers, used, answered, defaulted, seen, sent, handedBack, lost)
    }

    ghost predicate Valid()
      reads this
    {
      asked == |seen| && Inv(cfg, Shown())
    }

    constructor (cfg: Config)
      ensures Valid() && Shown() == INITIAL && this.cfg == cfg
    {
      this.cfg := cfg;
      metas, deferred, timers, asked, used := map[], [], map[], 0, {};
      answered, defaulted, sent := 0, 0, [];
      seen, handedBack, lost := [], {}, {};
      new;
      InitialInv(cfg);
    }

    method ProcessWithMeta(n: nat, r: Request, ghost direct: bool) returns (handled: bool)
      modifies this
      ensures Shown() == Process(cfg, old(Shown()), n, r, direct) && asked == old(asked)
      ensures handled <==> r.title in metas && (Pick(cfg, metas[r.title], r).Some? || cfg.strategy.Cancel?)
    {
      hide Find, FirstMatch, Inv, Without, Put;
      if r.title !in metas {
        return false;
      }
      var meta := metas[r.title];
      var found := FindConfiguredQuestionAnswer(cfg, meta.id);
      if found.Some? {
        var answer := found.value.answer;
        if meta.allowMultiple {
          var values := if answer.Many? then answer.values else [answer.value];
          if forall v :: v in values ==> Offered(r, v) {
            sent, used, answered := sent + [Reply(n, r, ChosenMany(values))], used + {found.value.key}, answered + 1;
            return true;
          }
        } else if answer.One? || answer.values != [] {
          var value := if answer.Many? then answer.values[0] else answer.value;
          if Offered(r, value) {
            sent, used, answered := sent + [Reply(n, r, Chosen(value))], used + {found.value.key}, answered + 1;
            return true;
          }
        }
      }
      defaulted := defaulted + 1;
      if cfg.strategy.Cancel? {
        sent := sent + [Reply(n, r, Cancelled)];
        return true;
      }
      if direct {
        handedBack := handedBack + {n};
      } else {
        lost := lost + {n};
      }
      return false;
    }

    method Remember(qs: seq<Question>)
      modifies `metas
      ensures metas == Learn(old(metas), qs)
    {
      for k := 0 to |qs|
        invariant metas == Learn(old(metas), qs[..k])
      {
        assert qs[..k + 1][..k] == qs[..k];
        metas := metas[qs[k].title := qs[k].meta];
      }
      assert qs[..|qs|] == qs;
    }

    /** New metadata is recorded, and the deferred requests it concerns are processed in table order. */
    method ObserveEvent(qs: seq<Question>)
      requires Valid()
      modifies this
      ensures Valid() && Shown() == Next(cfg, old(Shown()), Observe(qs))
    {
      hide Inv, Process, Learn;
      ObserveKeeps(cfg, Shown(), qs);
      Remember(qs);
      ghost var learned := Shown();
      var snapshot := deferred;
      for k := 0 to |snapshot|
        invariant Shown() == ResolveAll(cfg, learned, snapshot[..k])
        invariant asked == |learned.seen| && Shown().metas == learned.metas && Shown().seen == learned.seen
      {
        assert snapshot[..k + 1][..k] == snapshot[..k];
        var d := snapshot[k];
        if d.title in metas {
          timers := timers - {d.number};
          deferred := Without(deferred, d.title);
          ProcessKeepsTable(cfg, Shown(), d.number, d.request, false);
          var _ := ProcessWithMeta(d.number, d.request, false);
        }
      }
      assert snapshot[..|snapshot|] == snapshot;
    }

    /**
     Offers a request to the injector. Only select requests are its business; a refusal tells the caller to answer
     by other means, and it is refused exactly when its question is known, has no valid configured answer, and
     giving up means taking the first option.
     */
    method TryHandle(name: string, r: Request) returns (handled: bool)
      requires Valid()
      modifies this
      ensures Valid()
      ensures Shown() == (if name == "select" then Next(cfg, old(Shown()), Select(r)) else old(Shown()))
      ensures handled <==> name == "select" &&
                           !(r.title in old(metas) && Pick(cfg, old(metas)[r.title], r).None? && cfg.strategy.FirstOption?)
    {
      hide Process, Accounted, Pick;
      if name != "select" {
        return false;
      }
      ghost var before := Shown();
      SelectKeeps(cfg, before, r);
      var n := asked;
      seen, asked := seen + [r], asked + 1;
      if r.title in metas {
        ghost var noted := Shown();
        ProcessKeepsTable(cfg, noted, n, r, true);
        handled := ProcessWithMeta(n, r, true);
      } else {
        timers := timers[n := r];
        deferred := Put(deferred, Deferral(r.title, n, r));
        handled := true;
      }
    }

    /** The timer of request `n` fires, if it is still live. */
    method Fire(n: nat)
      requires Valid()
      modifies this
      ensures Valid() && Shown() == Next(cfg, old(Shown()), Step.Fire(n))
    {
      hide Inv, Without;
      FireKeeps(cfg, Shown(), n);
      if n in timers {
        var r := timers[n];
        timers := timers - {n};
        deferred := Without(deferred, r.title);
        defaulted := defaulted + 1;
        sent := sent + [Reply(n, r, Default(cfg, r))];
      }
    }
  }
}
