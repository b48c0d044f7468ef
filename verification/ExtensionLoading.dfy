/**
 What the ordering promises to whoever loads the extensions: which warnings are given and when, that no path
 is dropped unless two declare one id, and that the order of the input paths does not matter.
 */
module ExtensionLoading {
  import opened DependencyGraph
  import opened ExtensionSort

  /** No two paths declare the same id. */
  ghost predicate DistinctIds(paths: seq<Path>, manifests: map<Path, Manifest>) {
    forall p, q :: p in paths && q in paths && p in manifests && q in manifests && p != q ==>
      manifests[p].id != manifests[q].id
  }

  /** With distinct ids every extension keeps its own path, whatever the order of the paths. */
  lemma SameMap(paths: seq<Path>, others: seq<Path>, manifests: map<Path, Manifest>)
    requires DistinctIds(paths, manifests) && multiset(paths) == multiset(others)
    ensures IdToPath(paths, manifests) == IdToPath(others, manifests)
  {
    var m, m' := IdToPath(paths, manifests), IdToPath(others, manifests);
    assert forall p :: p in paths <==> p in multiset(paths);
    assert forall p :: p in others <==> p in multiset(others);
    assert forall p :: p in paths <==> p in others;
    forall id | id in m ensures id in m' && m'[id] == m[id] {
      assert m[id] in others;
      assert manifests[m[id]].id in m';
    }
    forall id | id in m' ensures id in m {
      assert manifests[m'[id]].id in m;
    }
  }

  /**
   With distinct ids, what is loaded after the extensions without a manifest does not depend on the order
   in which the paths are given, and neither do the cycle warnings.
   */
  lemma InputOrderDoesNotMatter(paths: seq<Path>, others: seq<Path>, manifests: map<Path, Manifest>)
    requires DistinctIds(paths, manifests) && multiset(paths) == multiset(others)
    ensures SortedSection(IdToPath(paths, manifests), manifests) == SortedSection(IdToPath(others, manifests), manifests)
    ensures CycleSection(IdToPath(paths, manifests), manifests) == CycleSection(IdToPath(others, manifests), manifests)
  {
    hide SortedSection, CycleSection;
    SameMap(paths, others, manifests);
  }

  // ---------------------------------------------------------------------------------------------
  // Warnings
  // ---------------------------------------------------------------------------------------------

  lemma {:induction false} CycleWarningsExact(id: Id, deps: seq<Id>, left: set<Id>, x: Id, d: Id)
    ensures Cycle(x, d) in CycleWarnings(id, deps, left) <==> x == id && d in deps && d != id && d in left
  {
    if deps != [] {
      assert deps == deps[..|deps| - 1] + [deps[|deps| - 1]];
      CycleWarningsExact(id, deps[..|deps| - 1], left, x, d);
    }
  }

  lemma {:induction false} AllCyclesExact(
      order: seq<Id>, left: set<Id>, idToPath: map<Id, Path>, manifests: map<Path, Manifest>, x: Id, d: Id)
    requires forall k :: 0 <= k < |order| ==> order[k] in idToPath && idToPath[order[k]] in manifests
    ensures Cycle(x, d) in AllCycles(order, left, idToPath, manifests) <==>
            x in order && d in manifests[idToPath[x]].deps && d != x && d in left
  {
    if order != [] {
      var id, init := order[|order| - 1], order[..|order| - 1];
      assert order == init + [id];
      AllCyclesExact(init, left, idToPath, manifests, x, d);
      CycleWarningsExact(id, manifests[idToPath[id]].deps, left, x, d);
    }
  }

  lemma {:induction false} MissingWarningsExact(id: Id, deps: seq<Id>, ids: set<Id>, x: Id, d: Id)
    ensures Missing(x, d) in MissingWarnings(id, deps, ids) <==> x == id && d in deps && d != id && d !in ids
  {
    if deps != [] {
      assert deps == deps[..|deps| - 1] + [deps[|deps| - 1]];
      MissingWarningsExact(id, deps[..|deps| - 1], ids, x, d);
    }
  }

  lemma {:induction false} AllMissingExact(
      order: seq<Id>, idToPath: map<Id, Path>, manifests: map<Path, Manifest>, x: Id, d: Id)
    requires forall k :: 0 <= k < |order| ==> order[k] in idToPath && idToPath[order[k]] in manifests
    ensures Missing(x, d) in AllMissing(order, idToPath, manifests) <==>
            x in order && d in manifests[idToPath[x]].deps && d != x && d !in idToPath
  {
    if order != [] {
      var id, init := order[|order| - 1], order[..|order| - 1];
      assert order == init + [id];
      AllMissingExact(init, idToPath, manifests, x, d);
      MissingWarningsExact(id, manifests[idToPath[id]].deps, idToPath.Keys, x, d);
    }
  }

  /** A dependency is reported missing exactly when an extension that loads declares it and nothing provides it. */
  lemma MissingIsWarnedIff(paths: seq<Path>, manifests: map<Path, Manifest>, x: Id, d: Id)
    ensures var m := IdToPath(paths, manifests);
            Missing(x, d) in MissingSection(paths, manifests) <==>
            x in m && d in manifests[m[x]].deps && d != x && d !in m
  {
    var order := IdOrder(paths, manifests);
    assert forall k :: 0 <= k < |order| ==> order[k] in Elements(order);
    assert x in order <==> x in Elements(order);
    AllMissingExact(order, IdToPath(paths, manifests), manifests, x, d);
  }

  /**
   Two extensions are reported as a cycle exactly when the first declares the second and a cycle of at least two
   can be reached from either of them.
   */
  lemma CycleIsWarnedIff(idToPath: map<Id, Path>, manifests: map<Path, Manifest>, x: Id, d: Id)
    requires forall id :: id in idToPath ==> idToPath[id] in manifests
    ensures var g := GraphOf(idToPath, manifests);
            Cycle(x, d) in CycleSection(idToPath, manifests) <==>
            x in g.ids && d in g.ids && d in manifests[idToPath[x]].deps && d != x && ReachesCycle(g, x) && ReachesCycle(g, d)
  {
    hide Ascending, LeftOver, GraphOf, AllCycles, ReachesCycle;
    var g := GraphOf(idToPath, manifests);
    GraphIds(idToPath, manifests);
    LeftOverInside(g);
    SectionDomain(idToPath, manifests);
    AllCyclesExact(Ascending(LeftOver(g)), LeftOver(g), idToPath, manifests, x, d);
    if x in g.ids { LeftOverIffReachesCycle(g, x); }
    if d in g.ids { LeftOverIffReachesCycle(g, d); }
  }

  /** Every left-over extension is warned about: it depends on another one that is left over. */
  lemma LeftOverIsWarned(idToPath: map<Id, Path>, manifests: map<Path, Manifest>, x: Id)
    requires forall id :: id in idToPath ==> idToPath[id] in manifests
    requires x in LeftOver(GraphOf(idToPath, manifests))
    ensures exists d :: Cycle(x, d) in CycleSection(idToPath, manifests)
  {
    hide Ascending, LeftOver, AllCycles;
    var g := GraphOf(idToPath, manifests);
    LeftOverInside(g);
    var d := LeftOverDependency(g, x);
    SectionDomain(idToPath, manifests);
    AllCyclesExact(Ascending(LeftOver(g)), LeftOver(g), idToPath, manifests, x, d);
    assert Cycle(x, d) in CycleSection(idToPath, manifests);
  }

  /** There are cycle warnings exactly when some extension can reach a cycle. */
  lemma CyclesAreWarnedIff(idToPath: map<Id, Path>, manifests: map<Path, Manifest>)
    requires forall id :: id in idToPath ==> idToPath[id] in manifests
    ensures var g := GraphOf(idToPath, manifests);
            CycleSection(idToPath, manifests) == [] <==> forall x :: x in g.ids ==> !ReachesCycle(g, x)
  {
    hide Ascending, GraphOf, ReachesCycle, LeftOver;
    var g := GraphOf(idToPath, manifests);
    LeftOverInside(g);
    if x :| x in g.ids && ReachesCycle(g, x) {
      LeftOverIffReachesCycle(g, x);
      LeftOverIsWarned(idToPath, manifests, x);
    } else {
      AcyclicIsEmittedWhole(g);
      assert Ascending(LeftOver(g)) == [];
    }
  }

  // ---------------------------------------------------------------------------------------------
  // No path is dropped
  // ---------------------------------------------------------------------------------------------

  /** No id is declared at two places in the list of paths. */
  ghost predicate DeclaredOnce(paths: seq<Path>, manifests: map<Path, Manifest>) {
    forall i, j :: 0 <= i < j < |paths| && paths[i] in manifests && paths[j] in manifests ==>
      manifests[paths[i]].id != manifests[paths[j]].id
  }

  ghost function Loaded(paths: seq<Path>, manifests: map<Path, Manifest>): seq<Path> {
    WithoutManifest(paths, manifests) + SortedSection(IdToPath(paths, manifests), manifests)
  }

  lemma {:induction false} PathsOfConcat(a: seq<Id>, b: seq<Id>, idToPath: map<Id, Path>)
    requires forall k :: 0 <= k < |a + b| ==> (a + b)[k] in idToPath
    ensures (forall k :: 0 <= k < |a| ==> a[k] in idToPath) && (forall k :: 0 <= k < |b| ==> b[k] in idToPath)
    ensures PathsOf(a + b, idToPath) == PathsOf(a, idToPath) + PathsOf(b, idToPath)
  {
    assert forall k :: 0 <= k < |a| ==> (a + b)[k] == a[k];
    assert forall k :: 0 <= k < |b| ==> (a + b)[|a| + k] == b[k];
    if b == [] {
      assert a + b == a;
    } else {
      var init := b[..|b| - 1];
      assert (a + b)[..|a + b| - 1] == a + init;
      PathsOfConcat(a, init, idToPath);
    }
  }

  lemma PathsOfSplit(before: seq<Id>, x: Id, after: seq<Id>, idToPath: map<Id, Path>)
    requires forall k :: 0 <= k < |before + [x] + after| ==> (before + [x] + after)[k] in idToPath
    ensures x in idToPath && forall k :: 0 <= k < |before + after| ==> (before + after)[k] in idToPath
    ensures multiset(PathsOf(before + [x] + after, idToPath)) ==
            multiset(PathsOf(before + after, idToPath)) + multiset{idToPath[x]}
  {
    var all := before + [x] + after;
    assert all[|before|] == x;
    forall k | 0 <= k < |before + after| ensures (before + after)[k] in idToPath {
      assert (before + after)[k] == all[if k < |before| then k else k + 1];
    }
    PathsOfConcat(before + [x], after, idToPath);
    assert (before + [x])[..|before + [x]| - 1] == before;
    PathsOfConcat(before, after, idToPath);
  }

  lemma SameButOne(init: seq<Id>, x: Id, before: seq<Id>, after: seq<Id>)
    requires multiset(init + [x]) == multiset(before + [x] + after)
    ensures multiset(init) == multiset(before + after)
  {
    assert multiset(init) == multiset(init + [x]) - multiset{x};
    assert multiset(before + after) == multiset(before + [x] + after) - multiset{x};
  }

  /** Which paths stand for some ids does not depend on the order of the ids. */
  lemma {:induction false} PathsOfPermutation(a: seq<Id>, b: seq<Id>, idToPath: map<Id, Path>)
    requires forall k :: 0 <= k < |a| ==> a[k] in idToPath
    requires forall k :: 0 <= k < |b| ==> b[k] in idToPath
    requires multiset(a) == multiset(b)
    ensures multiset(PathsOf(a, idToPath)) == multiset(PathsOf(b, idToPath))
  {
    if a == [] {
      assert |multiset(a)| == |a| && |multiset(b)| == |b|;
    } else {
      var x, init := a[|a| - 1], a[..|a| - 1];
      assert a == init + [x];
      assert x in multiset(b);
      var k :| 0 <= k < |b| && b[k] == x;
      var before, after := b[..k], b[k + 1..];
      assert b == before + [x] + after;
      SameButOne(init, x, before, after);
      PathsOfSplit(before, x, after, idToPath);
      PathsOfPermutation(init, before + after, idToPath);
    }
  }

  lemma DistinctPermutation(a: seq<Id>, b: seq<Id>)
    requires Distinct(a) && Distinct(b) && forall x :: x in a <==> x in b
    ensures multiset(a) == multiset(b)
  {
    forall x ensures multiset(a)[x] == multiset(b)[x] {
      OccursOnce(a, x);
      OccursOnce(b, x);
    }
  }

  lemma {:induction false} OccursOnce(s: seq<Id>, x: Id)
    requires Distinct(s)
    ensures multiset(s)[x] == if x in s then 1 else 0
  {
    if s != [] {
      assert s == s[..|s| - 1] + [s[|s| - 1]];
      OccursOnce(s[..|s| - 1], x);
    }
  }

  /** The sorted section holds the path of every id once. */
  lemma SectionIsPermutation(order: seq<Id>, idToPath: map<Id, Path>, manifests: map<Path, Manifest>)
    requires forall x :: x in idToPath ==> idToPath[x] in manifests
    requires Distinct(order) && forall x :: x in order <==> x in idToPath
    ensures multiset(PathsOf(order, idToPath)) == multiset(SortedSection(idToPath, manifests))
  {
    hide Greedy, GraphOf;
    var g := GraphOf(idToPath, manifests);
    GraphIds(idToPath, manifests);
    SectionDomain(idToPath, manifests);
    EmittedAndLeftOver(g);
    var all := Order(g) + Ascending(LeftOver(g));
    DistinctPermutation(order, all);
    PathsOfPermutation(order, all, idToPath);
    PathsOfConcat(Order(g), Ascending(LeftOver(g)), idToPath);
  }

  lemma EmittedAndLeftOver(g: Graph)
    requires g.Valid()
    ensures var all := Order(g) + Ascending(LeftOver(g));
            Distinct(all) && forall x :: x in all <==> x in g.ids
  {
    hide Ascending, Greedy;
    GreedyIsTopological(g, []);
    AscendingIsDistinct(LeftOver(g));
    assert forall x :: x in Elements(Order(g)) <==> x in Order(g);
    assert forall k :: 0 <= k < |Ascending(LeftOver(g))| ==> Ascending(LeftOver(g))[k] in LeftOver(g);
  }

  lemma {:induction false} AscendingIsDistinct(s: set<Id>)
    ensures Distinct(Ascending(s))
  {
    if s != {} {
      AscendingIsDistinct(s - {Least(s)});
      assert Least(s) !in Ascending(s - {Least(s)});
    }
  }

  lemma IdsHavePaths(paths: seq<Path>, manifests: map<Path, Manifest>)
    ensures var order := IdOrder(paths, manifests);
            forall k :: 0 <= k < |order| ==> order[k] in IdToPath(paths, manifests)
  {
    var order := IdOrder(paths, manifests);
    assert forall k :: 0 <= k < |order| ==> order[k] in Elements(order);
  }

  /** No more is loaded than was given, and less unless every id is declared once. */
  lemma {:induction false} IdsAndRestCount(paths: seq<Path>, manifests: map<Path, Manifest>)
    ensures var n := |IdOrder(paths, manifests)| + |WithoutManifest(paths, manifests)|;
            n <= |paths| && (n == |paths| ==> DeclaredOnce(paths, manifests))
  {
    if paths != [] {
      var p, init := paths[|paths| - 1], paths[..|paths| - 1];
      assert paths == init + [p];
      IdsAndRestCount(init, manifests);
      LastDeclaredOnce(init, p, manifests);
    }
  }

  lemma {:induction false} IdsAndRest(paths: seq<Path>, manifests: map<Path, Manifest>)
    requires DeclaredOnce(paths, manifests)
    ensures var order, m := IdOrder(paths, manifests), IdToPath(paths, manifests);
            && (forall k :: 0 <= k < |order| ==> order[k] in m)
            && multiset(WithoutManifest(paths, manifests) + PathsOf(order, m)) == multiset(paths)
  {
    hide DeclaredOnce;
    IdsHavePaths(paths, manifests);
    if paths != [] {
      var p, init := paths[|paths| - 1], paths[..|paths| - 1];
      assert paths == init + [p];
      LastDeclaredOnce(init, p, manifests);
      IdsAndRest(init, manifests);
      LastPath(init, p, manifests);
    }
  }

  lemma LastDeclaredOnce(init: seq<Path>, p: Path, manifests: map<Path, Manifest>)
    ensures DeclaredOnce(init + [p], manifests) <==>
            DeclaredOnce(init, manifests) && (p in manifests ==> manifests[p].id !in IdOrder(init, manifests))
  {
    var paths := init + [p];
    IdIsDeclared(init, manifests);
    if DeclaredOnce(paths, manifests) {
      forall i, j | 0 <= i < j < |init| && init[i] in manifests && init[j] in manifests
        ensures manifests[init[i]].id != manifests[init[j]].id
      {
        assert paths[i] == init[i] && paths[j] == init[j];
      }
      forall i | 0 <= i < |init| && init[i] in manifests && p in manifests
        ensures manifests[init[i]].id != manifests[p].id
      {
        assert paths[i] == init[i] && paths[|init|] == p;
      }
    }
  }

  lemma IdIsDeclared(paths: seq<Path>, manifests: map<Path, Manifest>)
    ensures forall id :: id in IdOrder(paths, manifests) <==>
              exists i :: 0 <= i < |paths| && paths[i] in manifests && manifests[paths[i]].id == id
  {
    var order, m := IdOrder(paths, manifests), IdToPath(paths, manifests);
    forall id ensures id in order <==> exists i :: 0 <= i < |paths| && paths[i] in manifests && manifests[paths[i]].id == id {
      assert id in order <==> id in Elements(order);
      if id in order {
        assert m[id] in paths;
      }
    }
  }

  lemma LastPath(init: seq<Path>, p: Path, manifests: map<Path, Manifest>)
    requires forall k :: 0 <= k < |IdOrder(init, manifests)| ==> IdOrder(init, manifests)[k] in IdToPath(init, manifests)
    requires forall k :: 0 <= k < |IdOrder(init + [p], manifests)| ==>
               IdOrder(init + [p], manifests)[k] in IdToPath(init + [p], manifests)
    requires p in manifests ==> manifests[p].id !in IdOrder(init, manifests)
    ensures multiset(WithoutManifest(init + [p], manifests) + PathsOf(IdOrder(init + [p], manifests), IdToPath(init + [p], manifests)))
         == multiset(WithoutManifest(init, manifests) + PathsOf(IdOrder(init, manifests), IdToPath(init, manifests)) + [p])
  {
    hide PathsOf;
    var paths := init + [p];
    assert paths[..|paths| - 1] == init;
    var order, rest := IdOrder(init, manifests), WithoutManifest(init, manifests);
    var m, m' := IdToPath(init, manifests), IdToPath(paths, manifests);
    if p in manifests {
      var id := manifests[p].id;
      PathsOfSame(order, m, m');
      PathsOfOneMore(order, id, m');
      assert rest + (PathsOf(order, m) + [p]) == rest + PathsOf(order, m) + [p];
    } else {
      OneMoreInside(rest, PathsOf(order, m), p);
    }
  }

  lemma PathsOfOneMore(order: seq<Id>, id: Id, m: map<Id, Path>)
    requires id in m && forall k :: 0 <= k < |order| ==> order[k] in m
    ensures PathsOf(order + [id], m) == PathsOf(order, m) + [m[id]]
  {
    assert (order + [id])[..|order|] == order;
  }

  lemma OneMoreInside(a: seq<Path>, b: seq<Path>, p: Path)
    ensures multiset(a + [p] + b) == multiset(a + b + [p])
  {
  }

  lemma {:induction false} PathsOfSame(order: seq<Id>, m: map<Id, Path>, m': map<Id, Path>)
    requires forall k :: 0 <= k < |order| ==> order[k] in m && order[k] in m' && m[order[k]] == m'[order[k]]
    ensures PathsOf(order, m) == PathsOf(order, m')
  {
    if order != [] {
      PathsOfSame(order[..|order| - 1], m, m');
    }
  }

  lemma {:induction false} PathsOfLength(order: seq<Id>, m: map<Id, Path>)
    requires forall k :: 0 <= k < |order| ==> order[k] in m
    ensures |PathsOf(order, m)| == |order|
  {
    if order != [] {
      PathsOfLength(order[..|order| - 1], m);
    }
  }

  /** What is loaded is a permutation of the paths given exactly when no id is declared twice. */
  lemma NoPathIsDroppedIff(paths: seq<Path>, manifests: map<Path, Manifest>)
    ensures multiset(Loaded(paths, manifests)) == multiset(paths) <==> DeclaredOnce(paths, manifests)
  {
    hide SortedSection;
    var order, m := IdOrder(paths, manifests), IdToPath(paths, manifests);
    IdsHavePaths(paths, manifests);
    IdsAndRestCount(paths, manifests);
    if DeclaredOnce(paths, manifests) { IdsAndRest(paths, manifests); }
    assert forall x :: x in order <==> x in Elements(order);
    SectionIsPermutation(order, m, manifests);
    PathsOfLength(order, m);
    assert |multiset(PathsOf(order, m))| == |multiset(SortedSection(m, manifests))|;
    if multiset(Loaded(paths, manifests)) == multiset(paths) {
      assert |multiset(Loaded(paths, manifests))| == |multiset(paths)|;
    }
  }

  // ---------------------------------------------------------------------------------------------
  // What a cycle warning does not say
  // ---------------------------------------------------------------------------------------------

  const A := Id([97])
  const B := Id([98])
  const C := Id([99])

  /** Two extensions that need each other, and a third that needs one of them. */
  const TWO_AND_ONE := Graph({A, B, C}, map[A := [B], B := [A], C := [A]])

  /**
   The warning calls its two extensions a dependency cycle, and the header calls what is appended at the end cycle
   participants; but an extension that only depends on a cycle is left over and warned about just the same.
   */
  lemma LeftOverNeedNotBeOnCycle()
    ensures TWO_AND_ONE.Valid() && C in LeftOver(TWO_AND_ONE) && !OnCycle(TWO_AND_ONE, C)
    ensures forall p :: Walk(TWO_AND_ONE, p) && |p| > 1 ==> p[|p| - 1] != C
  {
    var g := TWO_AND_ONE;
    assert g.Valid();
    var p := [C, A, B, A];
    assert Walk(g, p);
    assert ClosesCycle(g, C, p, 1, 3);
    LeftOverIffReachesCycle(g, C);
    forall p | Walk(g, p) && |p| > 1 ensures p[|p| - 1] != C {
      assert p[|p| - 2] in g.ids && p[|p| - 2 + 1] in g.edges[p[|p| - 2]];
    }
  }

  /** A walk of at least two dependencies leads from `x` back to it. */
  ghost predicate OnCycle(g: Graph, x: Id)
    requires g.Valid()
  {
    exists p :: Walk(g, p) && |p| > 2 && p[0] == x && p[|p| - 1] == x
  }

  lemma OnCycleReachesCycle(g: Graph, x: Id)
    requires g.Valid() && OnCycle(g, x)
    ensures ReachesCycle(g, x)
  {
    var p :| Walk(g, p) && |p| > 2 && p[0] == x && p[|p| - 1] == x;
    assert ClosesCycle(g, x, p, 0, |p| - 1);
  }

  /**
   What is left over contains every cycle participant, and it is exactly the participants if and only if no extension
   outside all cycles depends, directly or not, on one.
   */
  lemma LeftOverAreParticipantsIff(g: Graph)
    requires g.Valid()
    ensures forall x :: x in g.ids && OnCycle(g, x) ==> x in LeftOver(g)
    ensures (forall x :: x in LeftOver(g) ==> OnCycle(g, x)) <==>
            (forall x :: x in g.ids && !OnCycle(g, x) ==> !ReachesCycle(g, x))
  {
    hide LeftOver, OnCycle, ReachesCycle;
    LeftOverInside(g);
    forall x | x in g.ids ensures x in LeftOver(g) <==> ReachesCycle(g, x) {
      LeftOverIffReachesCycle(g, x);
    }
    forall x | x in g.ids && OnCycle(g, x) ensures ReachesCycle(g, x) {
      OnCycleReachesCycle(g, x);
    }
  }

  // ---------------------------------------------------------------------------------------------
  // Which path stands for an id, and in what order things come
  // ---------------------------------------------------------------------------------------------

  predicate Declares(manifests: map<Path, Manifest>, p: Path, id: Id) { p in manifests && manifests[p].id == id }

  /** The last path that declares an id stands for it. */
  lemma {:induction false} LastPathWins(paths: seq<Path>, manifests: map<Path, Manifest>, id: Id) returns (at: nat)
    requires id in IdToPath(paths, manifests)
    ensures at < |paths| && Declares(manifests, paths[at], id) && IdToPath(paths, manifests)[id] == paths[at]
    ensures forall j :: at < j < |paths| ==> !Declares(manifests, paths[j], id)
  {
    var init, p := paths[..|paths| - 1], paths[|paths| - 1];
    if Declares(manifests, p, id) {
      at := |paths| - 1;
    } else {
      at := LastPathWins(init, manifests, id);
    }
  }

  /** Where an id is first declared. */
  function FirstAt(paths: seq<Path>, manifests: map<Path, Manifest>, id: Id): nat {
    if paths == [] || Declares(manifests, paths[0], id) then 0 else 1 + FirstAt(paths[1..], manifests, id)
  }

  lemma {:induction false} FirstAtPrefix(init: seq<Path>, p: Path, manifests: map<Path, Manifest>, id: Id)
    ensures FirstAt(init, manifests, id) <= |init|
    ensures (exists i :: 0 <= i < |init| && Declares(manifests, init[i], id)) <==> FirstAt(init, manifests, id) < |init|
    ensures FirstAt(init, manifests, id) < |init| ==> FirstAt(init + [p], manifests, id) == FirstAt(init, manifests, id)
    ensures FirstAt(init, manifests, id) == |init| && Declares(manifests, p, id) ==> FirstAt(init + [p], manifests, id) == |init|
  {
    if init != [] {
      assert (init + [p])[1..] == init[1..] + [p];
      FirstAtPrefix(init[1..], p, manifests, id);
      if i :| 0 <= i < |init[1..]| && Declares(manifests, init[1..][i], id) {
        assert init[i + 1] == init[1..][i];
      }
      assert forall i :: 0 < i < |init| ==> init[i] == init[1..][i - 1];
    }
  }

  /** The ids come in the order in which they are first declared. */
  lemma {:induction false} IdsInOrderOfAppearance(paths: seq<Path>, manifests: map<Path, Manifest>, j: nat, k: nat)
    requires j < k < |IdOrder(paths, manifests)|
    ensures FirstAt(paths, manifests, IdOrder(paths, manifests)[j]) < FirstAt(paths, manifests, IdOrder(paths, manifests)[k])
  {
    var init, p := paths[..|paths| - 1], paths[|paths| - 1];
    var before, order := IdOrder(init, manifests), IdOrder(paths, manifests);
    assert paths == init + [p];
    IdIsDeclared(init, manifests);
    assert order[j] == before[j] && before[j] in before;
    FirstAtPrefix(init, p, manifests, order[j]);
    FirstAtPrefix(init, p, manifests, order[k]);
    if k < |before| {
      assert before[k] in before;
      IdsInOrderOfAppearance(init, manifests, j, k);
    } else {
      assert order[k] !in before;
    }
  }

  /** Paths without a manifest keep their order: they are read off one after the other. */
  lemma {:induction false} UnmanifestedInOrder(a: seq<Path>, b: seq<Path>, manifests: map<Path, Manifest>)
    ensures WithoutManifest(a + b, manifests) == WithoutManifest(a, manifests) + WithoutManifest(b, manifests)
    ensures |b| == 1 ==> WithoutManifest(b, manifests) == if b[0] in manifests then [] else b
  {
    if b == [] {
      assert a + b == a;
    } else {
      assert (a + b)[..|a + b| - 1] == a + b[..|b| - 1];
      UnmanifestedInOrder(a, b[..|b| - 1], manifests);
      if |b| == 1 {
        assert b[..0] == [];
      }
    }
  }

  /** The warnings of one extension follow its declarations, one for each that counts. */
  lemma {:induction false} WarningsFollowDeclarations(id: Id, a: seq<Id>, b: seq<Id>, ids: set<Id>)
    ensures MissingWarnings(id, a + b, ids) == MissingWarnings(id, a, ids) + MissingWarnings(id, b, ids)
    ensures CycleWarnings(id, a + b, ids) == CycleWarnings(id, a, ids) + CycleWarnings(id, b, ids)
    ensures |b| == 1 ==> MissingWarnings(id, b, ids) == if b[0] != id && b[0] !in ids then [Missing(id, b[0])] else []
    ensures |b| == 1 ==> CycleWarnings(id, b, ids) == if b[0] != id && b[0] in ids then [Cycle(id, b[0])] else []
  {
    if b == [] {
      assert a + b == a;
    } else {
      assert (a + b)[..|a + b| - 1] == a + b[..|b| - 1];
      WarningsFollowDeclarations(id, a, b[..|b| - 1], ids);
      if |b| == 1 {
        assert b[..0] == [];
      }
    }
  }

  /** And the extensions' warnings follow the extensions. */
  lemma {:induction false} WarningsFollowExtensions(
      a: seq<Id>, b: seq<Id>, left: set<Id>, idToPath: map<Id, Path>, manifests: map<Path, Manifest>)
    requires forall k :: 0 <= k < |a| ==> a[k] in idToPath && idToPath[a[k]] in manifests
    requires forall k :: 0 <= k < |b| ==> b[k] in idToPath && idToPath[b[k]] in manifests
    ensures AllMissing(a + b, idToPath, manifests) == AllMissing(a, idToPath, manifests) + AllMissing(b, idToPath, manifests)
    ensures AllCycles(a + b, left, idToPath, manifests)
         == AllCycles(a, left, idToPath, manifests) + AllCycles(b, left, idToPath, manifests)
  {
    hide MissingWarnings, CycleWarnings;
    if b == [] {
      assert a + b == a;
    } else {
      assert (a + b)[..|a + b| - 1] == a + b[..|b| - 1];
      WarningsFollowExtensions(a, b[..|b| - 1], left, idToPath, manifests);
    }
  }

  lemma {:induction false} PathsOfAt(order: seq<Id>, m: map<Id, Path>, k: nat)
    requires k < |order| && forall j :: 0 <= j < |order| ==> order[j] in m
    ensures |PathsOf(order, m)| == |order| && PathsOf(order, m)[k] == m[order[k]]
  {
    PathsOfLength(order, m);
    if k < |order| - 1 {
      PathsOfAt(order[..|order| - 1], m, k);
      PathsOfLength(order[..|order| - 1], m);
    } else {
      PathsOfLength(order[..|order| - 1], m);
    }
  }

  /** Where the paths of the emitted extensions stand in what is loaded. */
  lemma LoadedAt(paths: seq<Path>, manifests: map<Path, Manifest>, k: nat)
    requires k < |Order(GraphOf(IdToPath(paths, manifests), manifests))|
    ensures var m, n := IdToPath(paths, manifests), |WithoutManifest(paths, manifests)|;
            var order := Order(GraphOf(m, manifests));
            && order[k] in m && n + k < |Loaded(paths, manifests)| && Loaded(paths, manifests)[n + k] == m[order[k]]
  {
    hide Order, Ascending, LeftOver, GraphOf, PathsOf, IdToPath, WithoutManifest;
    var m := IdToPath(paths, manifests);
    var order := Order(GraphOf(m, manifests));
    SectionDomain(m, manifests);
    PathsOfAt(order, m, k);
  }

  lemma DependencyComesBefore(g: Graph, k: nat, d: Id) returns (j: nat)
    requires g.Valid() && k < |Order(g)| && Order(g)[k] in g.edges && d in g.edges[Order(g)[k]]
    ensures j < k && Order(g)[j] == d
  {
    hide Greedy;
    StartTopological(g);
    GreedyIsTopological(g, []);
    var order := Order(g);
    var i :| 0 <= i < |g.edges[order[k]]| && g.edges[order[k]][i] == d;
    assert d in order[..k];
    j :| 0 <= j < k && order[..k][j] == d;
  }

  /**
   In what is loaded, the path of each emitted extension comes after the paths of all the installed extensions it
   depends on, and after every path without a manifest.
   */
  lemma DependenciesLoadFirst(paths: seq<Path>, manifests: map<Path, Manifest>, k: nat, d: Id) returns (j: nat)
    requires var g := GraphOf(IdToPath(paths, manifests), manifests);
             k < |Order(g)| && Order(g)[k] in g.edges && d in g.edges[Order(g)[k]]
    ensures var m, loaded := IdToPath(paths, manifests), Loaded(paths, manifests);
            var order, n := Order(GraphOf(m, manifests)), |WithoutManifest(paths, manifests)|;
            && j < k && n + k < |loaded| && d in m && order[k] in m
            && loaded[n + j] == m[d] && loaded[n + k] == m[order[k]]
            && loaded[..n] == WithoutManifest(paths, manifests)
  {
    j := DependencyComesBefore(GraphOf(IdToPath(paths, manifests), manifests), k, d);
    hide Order, GraphOf, IdToPath, WithoutManifest, SortedSection;
    LoadedAt(paths, manifests, j);
    LoadedAt(paths, manifests, k);
  }

  // ---------------------------------------------------------------------------------------------
  // Two independent extensions
  // ---------------------------------------------------------------------------------------------

  const TWO := map["/a" := Manifest(A, []), "/b" := Manifest(B, [])]

  const INDEPENDENT := Graph({A, B}, map[A := [], B := []])

  lemma APrecedesB()
    ensures !Precedes(B.text, A.text) && !Precedes(A.text, A.text) && !Precedes(B.text, B.text)
  {
  }

  /** The only sequence of the two that is no later than [A, B] is that one itself. */
  lemma NoneEarlier(order: seq<Id>)
    requires Distinct(order) && (forall k :: 0 <= k < |order| ==> order[k] in {A, B}) && NoLater(order, [A, B])
    ensures order == [A, B]
  {
    APrecedesB();
    forall k | 0 <= k < |order| && k < 2 && order[..k] == [A, B][..k]
      ensures !Precedes(order[k].text, [A, B][k].text)
    {
      assert k == 1 ==> order[..k][0] == order[0] && [A, B][..k][0] == A;
    }
    assert [A, B] <= order;
    assert order[0] == A && order[1] == B;
    DistinctFits(order, {A, B});
  }

  lemma {:induction false} DistinctFits(order: seq<Id>, ids: set<Id>)
    requires Distinct(order) && forall k :: 0 <= k < |order| ==> order[k] in ids
    ensures |order| <= |ids|
  {
    if order != [] {
      var last := order[|order| - 1];
      DistinctFits(order[..|order| - 1], ids - {last});
    }
  }

  lemma IndependentOrder()
    ensures INDEPENDENT.Valid() && Order(INDEPENDENT) == [A, B] && LeftOver(INDEPENDENT) == {}
  {
    hide Greedy, NoLater;
    var g := INDEPENDENT;
    assert Topological(g, [A, B]);
    OrderIsLeast(g, [A, B]);
    StartTopological(g);
    GreedyIsTopological(g, []);
    NoneEarlier(Order(g));
    assert Elements([A, B]) == {A, B};
  }

  /** Without dependencies the extension that comes first in the alphabet loads first, whatever order they are given in. */
  lemma AlphabetDecides()
    ensures Loaded(["/a", "/b"], TWO) == ["/a", "/b"] && Loaded(["/b", "/a"], TWO) == ["/a", "/b"]
  {
    hide SortedSection, IdToPath, WithoutManifest;
    MapOfTwo("/a", "/b");
    MapOfTwo("/b", "/a");
    SectionOfTwo();
  }

  const TWO_PATHS := map[A := "/a", B := "/b"]

  lemma MapOfTwo(p: Path, q: Path)
    requires p in TWO && q in TWO && p != q
    ensures WithoutManifest([p, q], TWO) == [] && IdToPath([p, q], TWO) == TWO_PATHS
  {
    assert [p, q][..1] == [p] && [p][..0] == [];
    assert WithoutManifest([p], TWO) == [];
    assert IdToPath([p], TWO) == map[TWO[p].id := p];
  }

  lemma SectionOfTwo()
    ensures SortedSection(TWO_PATHS, TWO) == ["/a", "/b"]
  {
    hide Greedy, LeftOver, Ascending, GraphOf, Order, PathsOf;
    SameGraph();
    IndependentOrder();
    NothingAscending();
    SectionDomain(TWO_PATHS, TWO);
    PathsOfTwo();
  }

  lemma PathsOfTwo()
    ensures PathsOf([A, B], TWO_PATHS) == ["/a", "/b"] && PathsOf([], TWO_PATHS) == []
  {
    assert [A, B][..1] == [A] && [A][..0] == [];
    assert PathsOf([A], TWO_PATHS) == ["/a"];
  }

  lemma NothingAscending()
    ensures Ascending({}) == []
  {
  }

  lemma SameGraph()
    ensures GraphOf(TWO_PATHS, TWO) == INDEPENDENT
  {
    hide Installed;
    NothingInstalled(A);
    NothingInstalled(B);
    assert GraphOf(TWO_PATHS, TWO).edges == INDEPENDENT.edges;
  }

  lemma NothingInstalled(id: Id)
    ensures forall ids :: Installed(id, [], ids) == []
  {
  }
}
