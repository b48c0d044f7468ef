/**
 Which answer a request gets, told from the answer file, the question and the options alone, and in which order replies
 are written.
 */
module AnswerChoice {
  import opened Wrappers
  import opened Strings
  import opened AnswerInjector

  // ---------------------------------------------------------------------------------------------
  // The configured answer
  // ---------------------------------------------------------------------------------------------

  /** The entry of the file that a question's id finds: the first that agrees with it, or else the first related. */
  ghost predicate Finds(cfg: Config, id: string, e: Entry) {
    cfg.questions.Some? &&
    var entries := cfg.questions.value;
    exists k :: && 0 <= k < |entries| && entries[k] == e
                && if exists j :: 0 <= j < |entries| && Exact(entries[j].key, id, cfg.lower)
                   then Exact(e.key, id, cfg.lower) && forall j :: 0 <= j < k ==> !Exact(entries[j].key, id, cfg.lower)
                   else Related(e.key, id, cfg.lower) && forall j :: 0 <= j < k ==> !Related(entries[j].key, id, cfg.lower)
  }

  lemma FindMeaning(cfg: Config, id: string, e: Entry)
    ensures Find(cfg, id) == Some(e) <==> Finds(cfg, id, e)
  {
    hide Exact, Related;
    if cfg.questions.Some? {
      var entries := cfg.questions.value;
      FirstMatchMeaning(entries, id, cfg.lower, true);
      FirstMatchMeaning(entries, id, cfg.lower, false);
      forall k | 0 <= k < |entries|
        ensures Matches(entries[k].key, id, cfg.lower, true) == Exact(entries[k].key, id, cfg.lower)
        ensures Matches(entries[k].key, id, cfg.lower, false) == Related(entries[k].key, id, cfg.lower)
      {
      }
      if Finds(cfg, id, e) {
        OnlyOneFound(cfg, id, e);
      }
    }
  }

  lemma OnlyOneFound(cfg: Config, id: string, e: Entry)
    requires Finds(cfg, id, e)
    ensures Find(cfg, id) == Some(e)
  {
    hide Exact, Related, FirstMatch;
    var entries := cfg.questions.value;
    FirstMatchMeaning(entries, id, cfg.lower, true);
    FirstMatchMeaning(entries, id, cfg.lower, false);
    assert forall k :: 0 <= k < |entries| ==>
      && Matches(entries[k].key, id, cfg.lower, true) == Exact(entries[k].key, id, cfg.lower)
      && Matches(entries[k].key, id, cfg.lower, false) == Related(entries[k].key, id, cfg.lower);
  }

  /** A key is related to an id if one of their common forms continues the other after an underscore. */
  lemma RelatedMeaning(key: string, id: string, lower: string -> string)
    ensures Related(key, id, lower) <==>
            exists rest: string :: || Normalize(lower, id) == Normalize(lower, key) + "_" + rest
                                   || Normalize(lower, key) == Normalize(lower, id) + "_" + rest
  {
    var a, b := Normalize(lower, id), Normalize(lower, key);
    if b + "_" <= a {
      assert a == b + "_" + a[|b| + 1..];
    }
    if a + "_" <= b {
      assert b == a + "_" + b[|a| + 1..];
    }
  }

  /** The suffix that marks a confirmation is dropped once, and nothing else is. */
  lemma ConfirmMeaning(s: string)
    ensures DropConfirm(s + "_confirm") == s
    ensures (forall t: string :: s != t + "_confirm") ==> DropConfirm(s) == s
  {
    var marked := s + "_confirm";
    assert marked[|marked| - 8..] == "_confirm" && marked[..|marked| - 8] == s;
    if |s| >= 8 && s[|s| - 8..] == "_confirm" {
      assert s == s[..|s| - 8] + "_confirm";
    }
  }

  /** White space around an id makes no difference. */
  lemma SpaceAroundDoesNotMatter(lower: string -> string, before: string, id: string, after: string)
    requires Blank(before) && Blank(after)
    ensures Normalize(lower, before + id + after) == Normalize(lower, id)
  {
    TrimMeaning(id);
    var a: string, b: string :| Blank(a) && Blank(b) && id == a + Trim(id) + b;
    assert before + id + after == (before + a) + Trim(id) + (b + after);
    TrimIsOnly(before + a, Trim(id), b + after);
  }

  predicate AllOffered(r: Request, o: Outcome) {
    match o
    case Chosen(v) => Offered(r, v)
    case ChosenMany(vs) => forall v :: v in vs ==> Offered(r, v)
    case _ => false
  }

  /** The answer of the entry found, in the form the question wants, with nothing in it that is not offered. */
  ghost predicate IsAnswer(cfg: Config, meta: Meta, r: Request, o: Outcome) {
    && (exists e :: Finds(cfg, meta.id, e) && Carries(o, e.answer))
    && (if meta.allowMultiple then o.ChosenMany? else o.Chosen?)
    && AllOffered(r, o)
  }

  /** The configured answer is given exactly if there is one and all of it is offered. */
  lemma PickMeaning(cfg: Config, meta: Meta, r: Request, o: Outcome)
    ensures Pick(cfg, meta, r) == Some(o) <==> IsAnswer(cfg, meta, r, o)
  {
    hide Find, Finds, Offered;
    var found := Find(cfg, meta.id);
    if found.Some? {
      FindMeaning(cfg, meta.id, found.value);
    }
    if e :| Finds(cfg, meta.id, e) && Carries(o, e.answer) {
      FindMeaning(cfg, meta.id, e);
    }
  }

  lemma NoAnswer(cfg: Config, meta: Meta, r: Request)
    ensures Pick(cfg, meta, r).None? <==> forall o :: !IsAnswer(cfg, meta, r, o)
  {
    hide Pick, IsAnswer;
    forall o ensures Pick(cfg, meta, r) == Some(o) <==> IsAnswer(cfg, meta, r, o) {
      PickMeaning(cfg, meta, r, o);
    }
  }

  /**
   What a select request comes to when it arrives. With its question known: the configured answer, if it has one; else a
   cancellation, or, if giving up means taking the first option, a refusal that goes back to the caller. Otherwise it
   waits for a timer of its own, with the place of its title in the table.
   */
  lemma SelectComesTo(cfg: Config, s: State, r: Request)
    requires Inv(cfg, s)
    ensures var t, n := Next(cfg, s, Select(r)), |s.seen|;
            && t.seen == s.seen + [r] && t.metas == s.metas && t.lost == s.lost
            && (r.title in s.metas ==> t.timers == s.timers && t.deferred == s.deferred)
            && (forall o :: r.title in s.metas && IsAnswer(cfg, s.metas[r.title], r, o) ==>
                  t.sent == s.sent + [Reply(n, r, o)] && t.handedBack == s.handedBack)
            && (r.title in s.metas && (forall o :: !IsAnswer(cfg, s.metas[r.title], r, o)) ==>
                  if cfg.strategy.Cancel? then t.sent == s.sent + [Reply(n, r, Cancelled)] && t.handedBack == s.handedBack
                  else t.sent == s.sent && t.handedBack == s.handedBack + {n})
            && (r.title !in s.metas ==>
                  && t.sent == s.sent && t.handedBack == s.handedBack && t.timers == s.timers[n := r]
                  && Deferral(r.title, n, r) in t.deferred
                  && forall d :: d in t.deferred && d.title == r.title ==> d.number == n)
  {
    hide Inv, IsAnswer, Find, Pick;
    if r.title in s.metas {
      NoAnswer(cfg, s.metas[r.title], r);
      forall o ensures Pick(cfg, s.metas[r.title], r) == Some(o) <==> IsAnswer(cfg, s.metas[r.title], r, o) {
        PickMeaning(cfg, s.metas[r.title], r, o);
      }
    } else {
      TitlesOf(cfg, s);
      PutDistinct(s.deferred, Deferral(r.title, |s.seen|, r));
    }
  }

  lemma TitlesOf(cfg: Config, s: State)
    requires Inv(cfg, s)
    ensures DistinctTitles(s.deferred)
  {
  }

  lemma {:induction false} LearnsNothing(metas: map<string, Meta>, qs: seq<Question>, title: string)
    requires forall k :: 0 <= k < |qs| ==> qs[k].title != title
    ensures (title in Learn(metas, qs) <==> title in metas) && (title in metas ==> Learn(metas, qs)[title] == metas[title])
  {
    if qs != [] {
      LearnsNothing(metas, qs[..|qs| - 1], title);
    }
  }

  /** The last question with a title decides its metadata, and other titles keep theirs. */
  lemma {:induction false} LearnsTheLast(metas: map<string, Meta>, qs: seq<Question>, k: nat)
    requires k < |qs| && forall j :: k < j < |qs| ==> qs[j].title != qs[k].title
    ensures qs[k].title in Learn(metas, qs) && Learn(metas, qs)[qs[k].title] == qs[k].meta
  {
    if k < |qs| - 1 {
      LearnsTheLast(metas, qs[..|qs| - 1], k);
    }
  }

  // ---------------------------------------------------------------------------------------------
  // The table of deferred requests
  // ---------------------------------------------------------------------------------------------

  lemma Tail(ds: seq<Deferral>, k: nat)
    requires 0 < k < |ds|
    ensures [ds[0]] + ds[1..][..k - 1] == ds[..k] && ds[1..][k..] == ds[k + 1..]
    ensures forall j :: 0 <= j < |ds| - 1 ==> ds[1..][j] == ds[j + 1]
  {
  }

  lemma PutFirst(ds: seq<Deferral>, d: Deferral)
    requires ds != []
    ensures Put(ds, d) == if ds[0].title == d.title then [d] + ds[1..] else [ds[0]] + Put(ds[1..], d)
  {
  }

  /** A title that is in the table keeps its place, and a new one goes to the end. */
  lemma {:induction false} PutKeepsPlace(ds: seq<Deferral>, d: Deferral, k: nat)
    requires k < |ds| && ds[k].title == d.title && forall j :: 0 <= j < k ==> ds[j].title != d.title
    ensures Put(ds, d) == ds[..k] + [d] + ds[k + 1..]
  {
    hide Put;
    PutFirst(ds, d);
    if k > 0 {
      Tail(ds, k);
      PutKeepsPlace(ds[1..], d, k - 1);
      assert [ds[0]] + (ds[1..][..k - 1] + [d] + ds[k + 1..]) == [ds[0]] + ds[1..][..k - 1] + [d] + ds[k + 1..];
    }
  }

  lemma {:induction false} PutGoesLast(ds: seq<Deferral>, d: Deferral)
    requires forall j :: 0 <= j < |ds| ==> ds[j].title != d.title
    ensures Put(ds, d) == ds + [d]
  {
    if ds != [] {
      assert forall j :: 0 <= j < |ds| - 1 ==> ds[1..][j] == ds[j + 1];
      PutGoesLast(ds[1..], d);
    }
  }

  lemma {:induction false} WithoutAppend(a: seq<Deferral>, b: seq<Deferral>, title: string)
    ensures Without(a + b, title) == Without(a, title) + Without(b, title)
  {
    if a == [] {
      assert a + b == b;
    } else {
      assert (a + b)[1..] == a[1..] + b;
      WithoutAppend(a[1..], b, title);
    }
  }

  lemma WithoutTheLast(before: seq<Deferral>, d: Deferral)
    requires Without(before, d.title) == before
    ensures Without(before + [d], d.title) == before
  {
    WithoutOne(d);
    hide Without;
    WithoutAppend(before, [d], d.title);
    assert before + [] == before;
  }

  /** Taking a title out of the table leaves the others in their order. */
  lemma WithoutKeepsOrder(before: seq<Deferral>, d: Deferral, after: seq<Deferral>)
    requires Without(before, d.title) == before && Without(after, d.title) == after
    ensures Without(before + [d] + after, d.title) == before + after
  {
    hide Without;
    WithoutTheLast(before, d);
    WithoutAppend(before + [d], after, d.title);
  }

  lemma WithoutOne(d: Deferral)
    ensures Without([d], d.title) == []
  {
  }

  lemma {:induction false} WithoutNothing(ds: seq<Deferral>, title: string)
    requires forall j :: 0 <= j < |ds| ==> ds[j].title != title
    ensures Without(ds, title) == ds
  {
    hide Without;
    if ds == [] {
      WithoutNone(title);
    } else {
      var init, d := ds[..|ds| - 1], ds[|ds| - 1];
      WithoutNothing(init, title);
      WithoutOther(d, title);
      WithoutAppend(init, [d], title);
      assert init + [d] == ds;
    }
  }

  lemma WithoutNone(title: string)
    ensures Without([], title) == []
  {
  }

  lemma WithoutOther(d: Deferral, title: string)
    requires d.title != title
    ensures Without([d], title) == [d]
  {
  }

  /** The replies late metadata brings about, in the order of the table. */
  function Replies(cfg: Config, metas: map<string, Meta>, ds: seq<Deferral>): seq<Reply> {
    if ds == [] then []
    else
      var earlier, d := Replies(cfg, metas, ds[..|ds| - 1]), ds[|ds| - 1];
      if d.title !in metas then earlier
      else
        match Pick(cfg, metas[d.title], d.request)
        case Some(o) => earlier + [Reply(d.number, d.request, o)]
        case None => if cfg.strategy.Cancel? then earlier + [Reply(d.number, d.request, Cancelled)] else earlier
  }

  lemma {:induction false} ResolveAllReplies(cfg: Config, s: State, ds: seq<Deferral>)
    requires forall k :: 0 <= k < |ds| ==> ds[k].title == ds[k].request.title
    ensures ResolveAll(cfg, s, ds).sent == s.sent + Replies(cfg, s.metas, ds) && ResolveAll(cfg, s, ds).metas == s.metas
  {
    hide Pick, Without;
    if ds != [] {
      ResolveAllReplies(cfg, s, ds[..|ds| - 1]);
    }
  }

  /** Late metadata answers the deferred requests in the order in which they stand in the table. */
  lemma ObserveRepliesInOrder(cfg: Config, s: State, qs: seq<Question>)
    requires Inv(cfg, s)
    ensures Next(cfg, s, Observe(qs)).sent == s.sent + Replies(cfg, Learn(s.metas, qs), s.deferred)
  {
    hide ResolveAll, Replies;
    TitlesOfRequests(cfg, s);
    ResolveAllReplies(cfg, s.(metas := Learn(s.metas, qs)), s.deferred);
  }

  lemma TitlesOfRequests(cfg: Config, s: State)
    requires Inv(cfg, s)
    ensures forall k :: 0 <= k < |s.deferred| ==> s.deferred[k].title == s.deferred[k].request.title
  {
    assert forall k :: 0 <= k < |s.deferred| ==> s.deferred[k] in s.deferred;
  }
}
