/**
 Dependency-first ordering of extensions: Kahn's algorithm with an alphabetical ready list, missing
 dependencies skipped with a warning, and whatever is left over appended alphabetically.
 */
module ExtensionSort {
  import opened DependencyGraph

  type Path = string

  /** An extension's manifest: its id and the ids it declares as dependencies, in order. */
  datatype Manifest = Manifest(id: Id, deps: seq<Id>)

  datatype Warning = Missing(declaring: Id, missing: Id) | Cycle(declaring: Id, other: Id)

  // ---------------------------------------------------------------------------------------------
  // From paths to the graph
  // ---------------------------------------------------------------------------------------------

  /** The declared dependencies that make edges: neither the extension itself nor a missing one. */
  function Installed(id: Id, deps: seq<Id>, ids: set<Id>): (r: seq<Id>)
    ensures forall d :: d in r <==> d in deps && d != id && d in ids
  {
    if deps == [] then []
    else
      var d, init := deps[|deps| - 1], Installed(id, deps[..|deps| - 1], ids);
      assert deps == deps[..|deps| - 1] + [d];
      if d != id && d in ids then init + [d] else init
  }

  function GraphOf(idToPath: map<Id, Path>, manifests: map<Path, Manifest>): (g: Graph)
    requires forall id :: id in idToPath ==> idToPath[id] in manifests
    ensures g.Valid()
  {
    Graph(idToPath.Keys, map id | id in idToPath :: Installed(id, manifests[idToPath[id]].deps, idToPath.Keys))
  }

  /** Later paths win: the last path whose manifest declares an id stands for it. */
  function IdToPath(paths: seq<Path>, manifests: map<Path, Manifest>): (m: map<Id, Path>)
    ensures forall id :: id in m ==> m[id] in manifests && manifests[m[id]].id == id && m[id] in paths
    ensures forall p :: p in paths && p in manifests ==> manifests[p].id in m
  {
    if paths == [] then map[]
    else
      var p, m := paths[|paths| - 1], IdToPath(paths[..|paths| - 1], manifests);
      assert paths == paths[..|paths| - 1] + [p];
      if p in manifests then m[manifests[p].id := p] else m
  }

  function WithoutManifest(paths: seq<Path>, manifests: map<Path, Manifest>): seq<Path> {
    if paths == [] then []
    else
      var p, init := paths[|paths| - 1], WithoutManifest(paths[..|paths| - 1], manifests);
      if p in manifests then init else init + [p]
  }

  /** The ids in the order their first path appears: the iteration order of the map. */
  function IdOrder(paths: seq<Path>, manifests: map<Path, Manifest>): (ids: seq<Id>)
    ensures Elements(ids) == IdToPath(paths, manifests).Keys
    ensures Distinct(ids)
  {
    if paths == [] then []
    else
      var p, init := paths[|paths| - 1], IdOrder(paths[..|paths| - 1], manifests);
      if p in manifests && manifests[p].id !in init then
        assert Elements(init + [manifests[p].id]) == Elements(init) + {manifests[p].id};
        init + [manifests[p].id]
      else init
  }

  function PathsOf(order: seq<Id>, idToPath: map<Id, Path>): seq<Path>
    requires forall k :: 0 <= k < |order| ==> order[k] in idToPath
  {
    if order == [] then [] else PathsOf(order[..|order| - 1], idToPath) + [idToPath[order[|order| - 1]]]
  }

  /** One warning for each declaration of a dependency that is not installed. */
  function MissingWarnings(id: Id, deps: seq<Id>, ids: set<Id>): seq<Warning> {
    if deps == [] then []
    else
      var d, init := deps[|deps| - 1], MissingWarnings(id, deps[..|deps| - 1], ids);
      if d != id && d !in ids then init + [Missing(id, d)] else init
  }

  /** One warning for each declaration of a dependency that is itself left over. */
  function CycleWarnings(id: Id, deps: seq<Id>, left: set<Id>): seq<Warning> {
    if deps == [] then []
    else
      var d, init := deps[|deps| - 1], CycleWarnings(id, deps[..|deps| - 1], left);
      if d != id && d in left then init + [Cycle(id, d)] else init
  }

  function AllMissing(order: seq<Id>, idToPath: map<Id, Path>, manifests: map<Path, Manifest>): seq<Warning>
    requires forall k :: 0 <= k < |order| ==> order[k] in idToPath && idToPath[order[k]] in manifests
  {
    if order == [] then []
    else
      var id := order[|order| - 1];
      AllMissing(order[..|order| - 1], idToPath, manifests)
      + MissingWarnings(id, manifests[idToPath[id]].deps, idToPath.Keys)
  }

  function AllCycles(order: seq<Id>, left: set<Id>, idToPath: map<Id, Path>, manifests: map<Path, Manifest>): seq<Warning>
    requires forall k :: 0 <= k < |order| ==> order[k] in idToPath && idToPath[order[k]] in manifests
  {
    if order == [] then []
    else
      var id := order[|order| - 1];
      AllCycles(order[..|order| - 1], left, idToPath, manifests) + CycleWarnings(id, manifests[idToPath[id]].deps, left)
  }

  // ---------------------------------------------------------------------------------------------
  // The algorithm
  // ---------------------------------------------------------------------------------------------

  lemma {:induction false} InsertAt(r: seq<Id>, x: Id, i: nat)
    requires i <= |r| && (forall k :: 0 <= k < i ==> !Less(x, r[k])) && (i < |r| ==> Less(x, r[i]))
    ensures Insert(r, x) == r[..i] + [x] + r[i..]
  {
    if i > 0 {
      assert forall k :: 0 <= k < i - 1 ==> r[1..][k] == r[k + 1];
      InsertAt(r[1..], x, i - 1);
    }
  }

  /** Splices an id into the ready list before the first greater one. */
  method InsertReady(ready: seq<Id>, x: Id) returns (r: seq<Id>)
    ensures r == Insert(ready, x)
    ensures exists i :: && 0 <= i <= |ready| && r == ready[..i] + [x] + ready[i..]
                        && (forall k :: 0 <= k < i ==> !Precedes(x.text, ready[k].text))
                        && (i < |ready| ==> Precedes(x.text, ready[i].text))
  {
    var insertIdx := 0;
    while insertIdx < |ready| && !Less(x, ready[insertIdx])
      invariant insertIdx <= |ready| && forall k :: 0 <= k < insertIdx ==> !Less(x, ready[k])
    {
      insertIdx := insertIdx + 1;
    }
    InsertAt(ready, x, insertIdx);
    forall k | 0 <= k < |ready| ensures Less(x, ready[k]) <==> Precedes(x.text, ready[k].text) {
      BeforeMeaning(x.text, ready[k].text);
    }
    r := ready[..insertIdx] + [x] + ready[insertIdx..];
  }

  /** The alphabetical sort of a list of distinct ids. */
  method SortIds(ids: seq<Id>) returns (sorted: seq<Id>)
    requires Distinct(ids)
    ensures sorted == Ascending(Elements(ids))
    ensures forall j, k :: 0 <= j < k < |sorted| ==> Precedes(sorted[j].text, sorted[k].text)
  {
    sorted := [];
    assert Elements(ids[..0]) == {};
    for i := 0 to |ids|
      invariant sorted == Ascending(Elements(ids[..i]))
    {
      assert ids[..i + 1] == ids[..i] + [ids[i]];
      assert Elements(ids[..i + 1]) == Elements(ids[..i]) + {ids[i]};
      InsertAscending(Elements(ids[..i]), ids[i]);
      sorted := InsertReady(sorted, ids[i]);
    }
    assert ids[..|ids|] == ids;
    forall j, k | 0 <= j < k < |sorted| ensures Precedes(sorted[j].text, sorted[k].text) {
      AscendingByCodeUnits(Elements(ids), j, k);
    }
  }

  /** How often `x` occurs in `s`. */
  function Times(s: seq<Id>, x: Id): nat { multiset(s)[x] }

  lemma TimesSnoc(s: seq<Id>, y: Id, x: Id)
    ensures Times(s + [y], x) == if x == y then Times(s, x) + 1 else Times(s, x)
  {
  }

  /** Each id's in-degree is the number of edges that leave it towards its dependencies. */
  ghost predicate InDegrees(edges: map<Id, seq<Id>>, inDegree: map<Id, int>) {
    inDegree.Keys == edges.Keys && forall x :: x in edges ==> inDegree[x] == |edges[x]|
  }

  /** `dependents` is the graph backwards, edge for edge. */
  ghost predicate Backward(edges: map<Id, seq<Id>>, dependents: map<Id, seq<Id>>) {
    && dependents.Keys == edges.Keys
    && (forall d, x :: d in edges && x in edges ==> Times(dependents[d], x) == Times(edges[x], d))
    && (forall d, k :: d in edges && 0 <= k < |dependents[d]| ==> dependents[d][k] in edges)
  }

  lemma AddBackward(edges: map<Id, seq<Id>>, dependents: map<Id, seq<Id>>, id: Id, d: Id)
    requires Backward(edges, dependents) && id in edges && d in edges
    ensures Backward(edges[id := edges[id] + [d]], dependents[d := dependents[d] + [id]])
  {
    hide Times;
    var edges', dependents' := edges[id := edges[id] + [d]], dependents[d := dependents[d] + [id]];
    forall e, x | e in edges' && x in edges'
      ensures Times(dependents'[e], x) == Times(edges'[x], e)
    {
      assert Times(dependents[e], x) == Times(edges[x], e);
      TimesSnoc(dependents[d], id, x);
      TimesSnoc(edges[id], d, e);
    }
  }

  /** One valid edge more: the counter of the dependent and the list of the dependency each grow by one. */
  lemma AddEdge(edges: map<Id, seq<Id>>, row: seq<Id>, inDegree: map<Id, int>, dependents: map<Id, seq<Id>>, id: Id, d: Id)
    requires id in edges && d in edges
    requires InDegrees(edges[id := row], inDegree) && Backward(edges[id := row], dependents)
    ensures InDegrees(edges[id := row + [d]], inDegree[id := inDegree[id] + 1])
    ensures d in dependents && Backward(edges[id := row + [d]], dependents[d := dependents[d] + [id]])
  {
    hide Backward;
    TablesHaveKeys(edges[id := row], inDegree, dependents);
    AddBackward(edges[id := row], dependents, id, d);
    assert edges[id := row][id := row + [d]] == edges[id := row + [d]];
  }

  /** One extension's declared dependencies enter the tables, or are warned about. */
  method AddDependencies(id: Id, deps: seq<Id>, idToPath: map<Id, Path>, inDegree0: map<Id, int>, dependents0: map<Id, seq<Id>>,
                         ghost edges: map<Id, seq<Id>>)
    returns (inDegree: map<Id, int>, dependents: map<Id, seq<Id>>, warnings: seq<Warning>)
    requires InDegrees(edges, inDegree0) && Backward(edges, dependents0)
    requires edges.Keys == idToPath.Keys && id in idToPath && edges[id] == []
    ensures var edges' := edges[id := Installed(id, deps, idToPath.Keys)];
            InDegrees(edges', inDegree) && Backward(edges', dependents)
    ensures warnings == MissingWarnings(id, deps, idToPath.Keys)
  {
    hide Backward, InDegrees;
    inDegree, dependents, warnings := inDegree0, dependents0, [];
    ghost var row: seq<Id> := [];
    assert edges[id := row] == edges;
    for j := 0 to |deps|
      invariant row == Installed(id, deps[..j], idToPath.Keys)
      invariant InDegrees(edges[id := row], inDegree) && Backward(edges[id := row], dependents)
      invariant warnings == MissingWarnings(id, deps[..j], idToPath.Keys)
    {
      var depId := deps[j];
      assert deps[..j + 1][..j] == deps[..j];
      if depId != id {
        if depId !in idToPath {
          warnings := warnings + [Missing(id, depId)];
        } else {
          TablesHaveKeys(edges[id := row], inDegree, dependents);
          assert (edges[id := row]).Keys == edges.Keys;
          AddEdge(edges, row, inDegree, dependents, id, depId);
          row := row + [depId];
          inDegree := inDegree[id := inDegree[id] + 1];
          dependents := dependents[depId := dependents[depId] + [id]];
        }
      }
    }
    assert deps[..|deps|] == deps;
  }

  lemma TablesHaveKeys(edges: map<Id, seq<Id>>, inDegree: map<Id, int>, dependents: map<Id, seq<Id>>)
    requires InDegrees(edges, inDegree) && Backward(edges, dependents)
    ensures inDegree.Keys == dependents.Keys == edges.Keys
  {
  }

  lemma StartTables(order: seq<Id>, idToPath: map<Id, Path>, all: map<Id, seq<Id>>,
                    inDegree: map<Id, int>, dependents: map<Id, seq<Id>>)
    returns (edges: map<Id, seq<Id>>)
    requires Elements(order) == idToPath.Keys == all.Keys == inDegree.Keys == dependents.Keys
    requires forall id :: id in idToPath ==> inDegree[id] == 0 && dependents[id] == []
    ensures edges.Keys == idToPath.Keys && Filled(order, 0, edges, all)
    ensures InDegrees(edges, inDegree) && Backward(edges, dependents)
    ensures forall k :: 0 <= k < |order| ==> order[k] in idToPath
  {
    edges := map id | id in idToPath :: [];
    EmptyBackward(idToPath.Keys, edges, dependents);
    NothingFilled(order, edges, all);
    assert forall k :: 0 <= k < |order| ==> order[k] in Elements(order);
  }

  method BuildTables(order: seq<Id>, idToPath: map<Id, Path>, manifests: map<Path, Manifest>, ghost g: Graph)
    returns (inDegree: map<Id, int>, dependents: map<Id, seq<Id>>, warnings: seq<Warning>)
    requires forall id :: id in idToPath ==> idToPath[id] in manifests
    requires Elements(order) == idToPath.Keys == g.edges.Keys && g == GraphOf(idToPath, manifests)
    requires Distinct(order)
    ensures InDegrees(g.edges, inDegree) && Backward(g.edges, dependents)
    ensures forall k :: 0 <= k < |order| ==> order[k] in idToPath
    ensures warnings == AllMissing(order, idToPath, manifests)
  {
    hide Backward, InDegrees, Installed, MissingWarnings, Filled, Distinct, Elements, GraphOf;
    inDegree := map id | id in idToPath :: 0;
    dependents := map id | id in idToPath :: [];
    warnings := [];
    ghost var edges := StartTables(order, idToPath, g.edges, inDegree, dependents);
    for i := 0 to |order|
      invariant edges.Keys == idToPath.Keys && Filled(order, i, edges, g.edges)
      invariant InDegrees(edges, inDegree) && Backward(edges, dependents)
      invariant warnings == AllMissing(order[..i], idToPath, manifests)
    {
      var id := order[i];
      assert order[..i + 1][..i] == order[..i] && order[..i + 1][i] == id;
      FillRow(order, i, edges, g.edges);
      GraphRow(idToPath, manifests, id);
      var missing;
      inDegree, dependents, missing := AddDependencies(id, manifests[idToPath[id]].deps, idToPath, inDegree, dependents, edges);
      edges := edges[id := g.edges[id]];
      warnings := warnings + missing;
    }
    assert order[..|order|] == order;
    SameEdges(order, edges, g.edges);
  }

  lemma GraphRow(idToPath: map<Id, Path>, manifests: map<Path, Manifest>, id: Id)
    requires id in idToPath && forall x :: x in idToPath ==> idToPath[x] in manifests
    ensures var g := GraphOf(idToPath, manifests);
            g.edges.Keys == idToPath.Keys && g.edges[id] == Installed(id, manifests[idToPath[id]].deps, idToPath.Keys)
  {
  }

  /** The rows of the first `i` ids are in place and the others still empty. */
  ghost predicate Filled(order: seq<Id>, i: int, edges: map<Id, seq<Id>>, all: map<Id, seq<Id>>) {
    && (forall k :: 0 <= k < |order| ==> order[k] in edges && order[k] in all)
    && (forall k :: 0 <= k < |order| ==> edges[order[k]] == if k < i then all[order[k]] else [])
  }

  lemma NothingFilled(order: seq<Id>, edges: map<Id, seq<Id>>, all: map<Id, seq<Id>>)
    requires edges.Keys == all.Keys == Elements(order) && forall x :: x in edges ==> edges[x] == []
    ensures Filled(order, 0, edges, all)
  {
    assert forall k :: 0 <= k < |order| ==> order[k] in Elements(order);
  }

  lemma FillRow(order: seq<Id>, i: nat, edges: map<Id, seq<Id>>, all: map<Id, seq<Id>>)
    requires i < |order| && Filled(order, i, edges, all)
    requires Distinct(order)
    ensures edges[order[i]] == [] && Filled(order, i + 1, edges[order[i] := all[order[i]]], all)
  {
  }

  lemma SameEdges(order: seq<Id>, edges: map<Id, seq<Id>>, others: map<Id, seq<Id>>)
    requires edges.Keys == others.Keys == Elements(order) && Filled(order, |order|, edges, others)
    ensures edges == others
  {
    forall x | x in edges ensures edges[x] == others[x] {
      var k :| 0 <= k < |order| && order[k] == x;
    }
  }

  lemma EmptyBackward(ids: set<Id>, edges: map<Id, seq<Id>>, dependents: map<Id, seq<Id>>)
    requires edges.Keys == ids == dependents.Keys
    requires forall x :: x in ids ==> edges[x] == [] && dependents[x] == []
    ensures Backward(edges, dependents)
  {
  }

  /** How many of an id's dependency declarations are still to be emitted. */
  function Unmet(deps: seq<Id>, done: set<Id>): nat {
    if deps == [] then 0
    else Unmet(deps[..|deps| - 1], done) + if deps[|deps| - 1] in done then 0 else 1
  }

  lemma {:induction false} UnmetEmit(deps: seq<Id>, done: set<Id>, x: Id)
    requires x !in done
    ensures Unmet(deps, done) == Unmet(deps, done + {x}) + Times(deps, x)
  {
    if deps != [] {
      UnmetEmit(deps[..|deps| - 1], done, x);
      assert deps == deps[..|deps| - 1] + [deps[|deps| - 1]];
    }
  }

  lemma {:induction false} UnmetNone(deps: seq<Id>, done: set<Id>)
    ensures Unmet(deps, done) == 0 <==> forall i :: 0 <= i < |deps| ==> deps[i] in done
    ensures done == {} ==> Unmet(deps, done) == |deps|
  {
    if deps != [] {
      UnmetNone(deps[..|deps| - 1], done);
    }
  }

  /**
   The in-degree table while the dependents of the id just emitted are being visited: `todo` are the
   visits still to come.
   */
  ghost predicate Counting(g: Graph, inDegree: map<Id, int>, done: set<Id>, todo: seq<Id>)
    requires g.Valid()
  {
    && inDegree.Keys == g.ids
    && forall x :: x in g.ids ==> inDegree[x] == Unmet(g.edges[x], done) + Times(todo, x)
  }

  ghost function Zeros(inDegree: map<Id, int>, done: set<Id>): set<Id> {
    set x | x in inDegree && x !in done && inDegree[x] == 0
  }

  /** Everything emitted had all its dependencies emitted. */
  ghost predicate Closed(g: Graph, done: set<Id>)
    requires g.Valid()
  {
    done <= g.ids && forall x :: x in done ==> Unmet(g.edges[x], done) == 0
  }

  /** One visit: the in-degree drops, and an id that reaches zero joins the ready set. */
  lemma Visit(g: Graph, inDegree: map<Id, int>, done: set<Id>, todo: seq<Id>, x: Id)
    requires g.Valid() && Counting(g, inDegree, done, [x] + todo) && x in g.ids && x !in done
    ensures Counting(g, inDegree[x := inDegree[x] - 1], done, todo)
    ensures Zeros(inDegree[x := inDegree[x] - 1], done)
         == if inDegree[x] == 1 then Zeros(inDegree, done) + {x} else Zeros(inDegree, done)
    ensures x !in Zeros(inDegree, done)
  {
    forall y | y in g.ids ensures Times([x] + todo, y) == if y == x then Times(todo, y) + 1 else Times(todo, y) {
      assert multiset([x] + todo) == multiset{x} + multiset(todo);
    }
  }

  /** Visiting the dependents of an emitted id: in-degrees drop, and those that reach zero become ready. */
  method Release(ds: seq<Id>, inDegree0: map<Id, int>, ready0: seq<Id>, ghost g: Graph, ghost done: set<Id>)
    returns (inDegree: map<Id, int>, ready: seq<Id>)
    requires g.Valid() && inDegree0.Keys == g.ids && Counting(g, inDegree0, done, ds)
    requires forall k :: 0 <= k < |ds| ==> ds[k] in g.ids && ds[k] !in done
    requires ready0 == Ascending(Zeros(inDegree0, done))
    ensures Counting(g, inDegree, done, []) && ready == Ascending(Zeros(inDegree, done))
  {
    hide Counting, Zeros, Ascending, Insert;
    inDegree, ready := inDegree0, ready0;
    assert ds[0..] == ds;
    for j := 0 to |ds|
      invariant inDegree.Keys == g.ids
      invariant Counting(g, inDegree, done, ds[j..]) && ready == Ascending(Zeros(inDegree, done))
    {
      assert ds[j..] == [ds[j]] + ds[j + 1..];
      Visit(g, inDegree, done, ds[j + 1..], ds[j]);
      var newDegree := inDegree[ds[j]] - 1;
      if newDegree == 0 {
        InsertAscending(Zeros(inDegree, done), ds[j]);
        ready := InsertReady(ready, ds[j]);
      }
      inDegree := inDegree[ds[j] := newDegree];
    }
    assert ds[|ds|..] == [];
  }

  /** The state between two emissions. */
  ghost predicate Emitting(g: Graph, inDegree: map<Id, int>, emitted: seq<Id>, ready: seq<Id>)
    requires g.Valid()
  {
    && Topological(g, emitted) && Greedy(g, emitted) == Order(g)
    && inDegree.Keys == g.ids && Counting(g, inDegree, Elements(emitted), [])
    && ready == Ascending(Zeros(inDegree, Elements(emitted)))
  }

  lemma ZerosAreAvailable(g: Graph, inDegree: map<Id, int>, done: set<Id>)
    requires g.Valid() && Counting(g, inDegree, done, [])
    ensures Zeros(inDegree, done) == Available(g, done)
  {
    forall x | x in g.ids ensures inDegree[x] == 0 <==> forall i :: 0 <= i < |g.edges[x]| ==> g.edges[x][i] in done {
      UnmetNone(g.edges[x], done);
    }
  }

  lemma EmittedWithDependencies(g: Graph, emitted: seq<Id>, x: Id, i: nat)
    requires g.Valid() && Topological(g, emitted) && x in g.ids && i < |g.edges[x]|
    ensures x in emitted ==> g.edges[x][i] in emitted
  {
    if j :| 0 <= j < |emitted| && emitted[j] == x {
      assert g.edges[emitted[j]][i] in emitted[..j];
    }
  }

  lemma DependentsAreOpen(g: Graph, dependents: map<Id, seq<Id>>, emitted: seq<Id>, id: Id)
    requires g.Valid() && Backward(g.edges, dependents) && Topological(g, emitted) && id in g.ids && id !in emitted
    ensures id in dependents
    ensures forall k :: 0 <= k < |dependents[id]| ==> dependents[id][k] in g.ids && dependents[id][k] !in Elements(emitted) + {id}
  {
    forall k | 0 <= k < |dependents[id]|
      ensures dependents[id][k] in g.ids && dependents[id][k] !in Elements(emitted) + {id}
    {
      var x := dependents[id][k];
      assert x in multiset(dependents[id]) && Times(g.edges[x], id) > 0;
      assert id in multiset(g.edges[x]);
      var i :| 0 <= i < |g.edges[x]| && g.edges[x][i] == id;
      EmittedWithDependencies(g, emitted, x, i);
    }
  }

  lemma CountingEmit(g: Graph, inDegree: map<Id, int>, dependents: map<Id, seq<Id>>, done: set<Id>, id: Id)
    requires g.Valid() && Counting(g, inDegree, done, []) && Backward(g.edges, dependents) && id in g.ids && id !in done
    ensures Counting(g, inDegree, done + {id}, dependents[id])
  {
    forall x | x in g.ids ensures inDegree[x] == Unmet(g.edges[x], done + {id}) + Times(dependents[id], x) {
      UnmetEmit(g.edges[x], done, id);
    }
  }

  lemma FirstIsLeastAvailable(g: Graph, inDegree: map<Id, int>, emitted: seq<Id>, ready: seq<Id>)
    requires g.Valid() && Emitting(g, inDegree, emitted, ready) && ready != []
    ensures var id, next := ready[0], Available(g, Elements(emitted));
            && next == Zeros(inDegree, Elements(emitted)) && id in next && id == Least(next) && id !in emitted
            && ready[1..] == Ascending(next - {id})
            && Topological(g, emitted + [id]) && Greedy(g, emitted + [id]) == Order(g)
  {
    ZerosAreAvailable(g, inDegree, Elements(emitted));
    TopologicalSnoc(g, emitted, ready[0]);
    assert ready[0] !in Elements(emitted);
  }

  /** Emitting the first ready id: what holds once it is off the ready list and before its dependents are visited. */
  lemma EmitFirst(g: Graph, inDegree: map<Id, int>, dependents: map<Id, seq<Id>>, emitted: seq<Id>, ready: seq<Id>)
    requires g.Valid() && Backward(g.edges, dependents) && Emitting(g, inDegree, emitted, ready) && ready != []
    ensures var id, done := ready[0], Elements(emitted + [ready[0]]);
            && id in g.ids && id in dependents && Topological(g, emitted + [id]) && Greedy(g, emitted + [id]) == Order(g)
            && Counting(g, inDegree, done, dependents[id])
            && (forall k :: 0 <= k < |dependents[id]| ==> dependents[id][k] in g.ids && dependents[id][k] !in done)
            && ready[1..] == Ascending(Zeros(inDegree, done))
            && |g.ids - done| < |g.ids - Elements(emitted)|
  {
    hide Greedy, Ascending, Backward, Counting, Topological;
    var id, done := ready[0], Elements(emitted);
    FirstIsLeastAvailable(g, inDegree, emitted, ready);
    assert Elements(emitted + [id]) == done + {id};
    DependentsAreOpen(g, dependents, emitted, id);
    CountingEmit(g, inDegree, dependents, done, id);
    assert Zeros(inDegree, done + {id}) == Zeros(inDegree, done) - {id};
    Smaller(g.ids - (done + {id}), g.ids - done);
  }

  /** Kahn's loop: shift the ready list, emit, visit the dependents. */
  method EmitAll(order: seq<Id>, idToPath: map<Id, Path>, inDegree0: map<Id, int>, dependents: map<Id, seq<Id>>, ghost g: Graph)
    returns (sorted: seq<Path>, inDegree: map<Id, int>)
    requires g.Valid() && Elements(order) == g.ids == idToPath.Keys && Distinct(order)
    requires InDegrees(g.edges, inDegree0) && Backward(g.edges, dependents)
    ensures forall k :: 0 <= k < |Order(g)| ==> Order(g)[k] in idToPath
    ensures sorted == PathsOf(Order(g), idToPath)
    ensures inDegree.Keys == g.ids && forall x :: x in g.ids ==> (inDegree[x] > 0 <==> x in LeftOver(g))
  {
    hide Backward, InDegrees, Emitting, Counting, Topological, Greedy, Zeros, Ascending, LeftOver, Elements, PathsOf;
    inDegree, sorted := inDegree0, [];
    ghost var emitted: seq<Id> := [];
    assert PathsOf([], idToPath) == [] by { PathsOfSnoc([], idToPath); }
    var ready := InitiallyReady(order, inDegree, g);
    while ready != []
      invariant Emitting(g, inDegree, emitted, ready)
      invariant forall k :: 0 <= k < |emitted| ==> emitted[k] in idToPath
      invariant sorted == PathsOf(emitted, idToPath)
      decreases |g.ids - Elements(emitted)|
    {
      EmitFirst(g, inDegree, dependents, emitted, ready);
      var id := ready[0];
      ghost var emitted' := emitted + [id];
      PathsOfSnoc(emitted', idToPath);
      assert emitted'[..|emitted'| - 1] == emitted;
      sorted := sorted + [idToPath[id]];
      EmittingKeys(g, inDegree, emitted, ready);
      inDegree, ready := Release(dependents[id], inDegree, ready[1..], g, Elements(emitted'));
      emitted := emitted';
      EmittingAgain(g, inDegree, emitted, ready);
    }
    NothingReady(g, inDegree, emitted);
  }

  lemma PathsOfSnoc(order: seq<Id>, idToPath: map<Id, Path>)
    requires forall k :: 0 <= k < |order| ==> order[k] in idToPath
    ensures PathsOf(order, idToPath)
         == if order == [] then [] else PathsOf(order[..|order| - 1], idToPath) + [idToPath[order[|order| - 1]]]
  {
  }

  lemma TablesMatch(g: Graph, inDegree: map<Id, int>)
    requires g.Valid() && InDegrees(g.edges, inDegree)
    ensures inDegree.Keys == g.ids
  {
  }

  method InitiallyReady(order: seq<Id>, inDegree: map<Id, int>, ghost g: Graph) returns (ready: seq<Id>)
    requires g.Valid() && Elements(order) == g.ids && Distinct(order) && InDegrees(g.edges, inDegree)
    ensures Emitting(g, inDegree, [], ready)
  {
    hide Emitting, Ascending;
    TablesMatch(g, inDegree);
    hide InDegrees;
    var zero := [];
    assert forall k :: 0 <= k < |order| ==> order[k] in Elements(order);
    for i := 0 to |order|
      invariant Distinct(zero) && forall x :: x in zero <==> x in order[..i] && inDegree[x] == 0
    {
      assert order[..i + 1] == order[..i] + [order[i]];
      if inDegree[order[i]] == 0 {
        assert order[i] !in order[..i];
        zero := zero + [order[i]];
      }
    }
    assert order[..|order|] == order;
    ready := SortIds(zero);
    assert Elements(zero) == Zeros(inDegree, {});
    StartEmitting(g, inDegree);
  }

  lemma StartEmitting(g: Graph, inDegree: map<Id, int>)
    requires g.Valid() && InDegrees(g.edges, inDegree)
    ensures Emitting(g, inDegree, [], Ascending(Zeros(inDegree, {})))
  {
    hide Ascending, Greedy, Counting, Zeros, Topological;
    StartCounting(g, inDegree);
    StartTopological(g);
    assert Elements([]) == {};
  }

  lemma StartCounting(g: Graph, inDegree: map<Id, int>)
    requires g.Valid() && InDegrees(g.edges, inDegree)
    ensures Counting(g, inDegree, {}, [])
  {
    hide Unmet;
    forall x | x in g.ids ensures inDegree[x] == Unmet(g.edges[x], {}) + Times([], x) {
      UnmetNone(g.edges[x], {});
    }
  }

  lemma StartTopological(g: Graph)
    requires g.Valid()
    ensures Topological(g, [])
  {
  }

  lemma EmittingKeys(g: Graph, inDegree: map<Id, int>, emitted: seq<Id>, ready: seq<Id>)
    requires g.Valid() && Emitting(g, inDegree, emitted, ready)
    ensures inDegree.Keys == g.ids
  {
  }

  lemma EmittingAgain(g: Graph, inDegree: map<Id, int>, emitted: seq<Id>, ready: seq<Id>)
    requires g.Valid() && Topological(g, emitted) && Greedy(g, emitted) == Order(g)
    requires Counting(g, inDegree, Elements(emitted), []) && ready == Ascending(Zeros(inDegree, Elements(emitted)))
    ensures Emitting(g, inDegree, emitted, ready)
  {
  }

  lemma NothingReady(g: Graph, inDegree: map<Id, int>, emitted: seq<Id>)
    requires g.Valid() && Emitting(g, inDegree, emitted, [])
    ensures emitted == Order(g) && inDegree.Keys == g.ids
    ensures forall x :: x in g.ids ==> (inDegree[x] > 0 <==> x in LeftOver(g))
  {
    var done := Elements(emitted);
    assert |Ascending(Zeros(inDegree, done))| == |Zeros(inDegree, done)|;
    ZerosAreAvailable(g, inDegree, done);
    assert emitted == Order(g);
    forall x | x in g.ids ensures inDegree[x] > 0 <==> x in LeftOver(g) {
      if x in done {
        var k :| 0 <= k < |emitted| && emitted[k] == x;
        assert forall i :: 0 <= i < |g.edges[emitted[k]]| ==> g.edges[emitted[k]][i] in emitted[..k];
        UnmetNone(g.edges[x], done);
      } else {
        assert x !in Zeros(inDegree, done);
      }
    }
  }

  /** The id map, its iteration order, and the paths without a manifest. */
  method BuildIds(paths: seq<Path>, manifests: map<Path, Manifest>)
    returns (order: seq<Id>, idToPath: map<Id, Path>, pathsWithoutId: seq<Path>)
    ensures order == IdOrder(paths, manifests) && idToPath == IdToPath(paths, manifests)
    ensures pathsWithoutId == WithoutManifest(paths, manifests)
  {
    order, idToPath, pathsWithoutId := [], map[], [];
    for i := 0 to |paths|
      invariant order == IdOrder(paths[..i], manifests) && idToPath == IdToPath(paths[..i], manifests)
      invariant pathsWithoutId == WithoutManifest(paths[..i], manifests)
    {
      var path := paths[i];
      assert paths[..i + 1][..i] == paths[..i];
      if path !in manifests {
        pathsWithoutId := pathsWithoutId + [path];
      } else {
        var id := manifests[path].id;
        if id !in order {
          order := order + [id];
        }
        idToPath := idToPath[id := path];
      }
    }
    assert paths[..|paths|] == paths;
  }

  /** Appends what is left over, alphabetically, with a warning for every declaration inside the left-over set. */
  method AppendLeftOver(cycleIds: seq<Id>, idToPath: map<Id, Path>, manifests: map<Path, Manifest>, left: set<Id>)
    returns (sorted: seq<Path>, warnings: seq<Warning>)
    requires forall k :: 0 <= k < |cycleIds| ==> cycleIds[k] in idToPath && idToPath[cycleIds[k]] in manifests
    ensures sorted == PathsOf(cycleIds, idToPath) && warnings == AllCycles(cycleIds, left, idToPath, manifests)
  {
    sorted, warnings := [], [];
    for i := 0 to |cycleIds|
      invariant sorted == PathsOf(cycleIds[..i], idToPath)
      invariant warnings == AllCycles(cycleIds[..i], left, idToPath, manifests)
    {
      var id := cycleIds[i];
      assert cycleIds[..i + 1][..i] == cycleIds[..i];
      var deps := manifests[idToPath[id]].deps;
      ghost var before := warnings;
      for j := 0 to |deps|
        invariant warnings == before + CycleWarnings(id, deps[..j], left)
      {
        assert deps[..j + 1][..j] == deps[..j];
        if deps[j] != id && deps[j] in left {
          warnings := warnings + [Cycle(id, deps[j])];
        }
      }
      assert deps[..|deps|] == deps;
      sorted := sorted + [idToPath[id]];
    }
    assert cycleIds[..|cycleIds|] == cycleIds;
  }

  method LeftOverIds(order: seq<Id>, inDegree: map<Id, int>, ghost g: Graph) returns (cycleIds: seq<Id>, left: set<Id>)
    requires g.Valid() && Elements(order) == g.ids == inDegree.Keys && Distinct(order)
    requires forall x :: x in g.ids ==> (inDegree[x] > 0 <==> x in LeftOver(g))
    ensures left == LeftOver(g) && cycleIds == Ascending(LeftOver(g))
  {
    hide LeftOver, Ascending;
    var stuck := [];
    assert forall k :: 0 <= k < |order| ==> order[k] in Elements(order);
    for i := 0 to |order|
      invariant Distinct(stuck) && forall x :: x in stuck <==> x in order[..i] && inDegree[x] > 0
    {
      assert order[..i + 1] == order[..i] + [order[i]];
      if inDegree[order[i]] > 0 {
        assert order[i] !in order[..i];
        stuck := stuck + [order[i]];
      }
    }
    assert order[..|order|] == order;
    cycleIds := SortIds(stuck);
    left := set x | x in stuck;
    LeftOverInside(g);
    assert left == Elements(stuck) == LeftOver(g);
  }

  lemma LeftOverInside(g: Graph)
    requires g.Valid()
    ensures LeftOver(g) <= g.ids
  {
  }

  lemma GraphIds(idToPath: map<Id, Path>, manifests: map<Path, Manifest>)
    requires forall x :: x in idToPath ==> idToPath[x] in manifests
    ensures var g := GraphOf(idToPath, manifests);
            g.ids == g.edges.Keys == idToPath.Keys
  {
  }

  /** What the two parts of the sorted section are made of has a path. */
  lemma SectionDomain(idToPath: map<Id, Path>, manifests: map<Path, Manifest>)
    requires forall x :: x in idToPath ==> idToPath[x] in manifests
    ensures var g := GraphOf(idToPath, manifests);
            && (forall k :: 0 <= k < |Order(g)| ==> Order(g)[k] in idToPath)
            && (forall k :: 0 <= k < |Ascending(LeftOver(g))| ==> Ascending(LeftOver(g))[k] in idToPath)
  {
    hide Greedy, Ascending, LeftOver, GraphOf, Topological;
    GraphIds(idToPath, manifests);
    SectionInside(GraphOf(idToPath, manifests));
  }

  lemma SectionInside(g: Graph)
    requires g.Valid()
    ensures forall k :: 0 <= k < |Order(g)| ==> Order(g)[k] in g.ids
    ensures forall k :: 0 <= k < |Ascending(LeftOver(g))| ==> Ascending(LeftOver(g))[k] in g.ids
  {
    hide Ascending, Order, LeftOver;
    OrderInside(g);
    LeftOverInside(g);
    assert forall k :: 0 <= k < |Ascending(LeftOver(g))| ==> Ascending(LeftOver(g))[k] in LeftOver(g);
  }

  lemma OrderInside(g: Graph)
    requires g.Valid()
    ensures forall k :: 0 <= k < |Order(g)| ==> Order(g)[k] in g.ids
  {
    hide Greedy;
    StartTopological(g);
    GreedyIsTopological(g, []);
  }

  /** The extensions with a manifest, as they load: the emitted order, then the left-over ids alphabetically. */
  ghost function SortedSection(idToPath: map<Id, Path>, manifests: map<Path, Manifest>): seq<Path>
    requires forall x :: x in idToPath ==> idToPath[x] in manifests
  {
    var g := GraphOf(idToPath, manifests);
    SectionDomain(idToPath, manifests);
    PathsOf(Order(g), idToPath) + PathsOf(Ascending(LeftOver(g)), idToPath)
  }

  /** The warnings about left-over extensions, in the order those are appended. */
  ghost function CycleSection(idToPath: map<Id, Path>, manifests: map<Path, Manifest>): seq<Warning>
    requires forall x :: x in idToPath ==> idToPath[x] in manifests
  {
    var g := GraphOf(idToPath, manifests);
    SectionDomain(idToPath, manifests);
    AllCycles(Ascending(LeftOver(g)), LeftOver(g), idToPath, manifests)
  }

  ghost function MissingSection(paths: seq<Path>, manifests: map<Path, Manifest>): seq<Warning> {
    var order := IdOrder(paths, manifests);
    assert forall k :: 0 <= k < |order| ==> order[k] in Elements(order);
    AllMissing(order, IdToPath(paths, manifests), manifests)
  }

  /** The paths in the order the extensions load, and the warnings on the way. */
  method SortExtensionPaths(paths: seq<Path>, manifests: map<Path, Manifest>)
    returns (sortedPaths: seq<Path>, warnings: seq<Warning>)
    ensures sortedPaths == WithoutManifest(paths, manifests) + SortedSection(IdToPath(paths, manifests), manifests)
    ensures warnings == MissingSection(paths, manifests) + CycleSection(IdToPath(paths, manifests), manifests)
  {
    hide Greedy, Ascending, LeftOver, GraphOf, AllMissing, AllCycles, PathsOf, InDegrees, Backward;
    var order, idToPath, pathsWithoutId := BuildIds(paths, manifests);
    ghost var g := GraphOf(idToPath, manifests);
    GraphIds(idToPath, manifests);
    var inDegree, dependents, missing := BuildTables(order, idToPath, manifests, g);
    var sorted, finalDegree := EmitAll(order, idToPath, inDegree, dependents, g);
    var cycleIds, left := LeftOverIds(order, finalDegree, g);
    SectionDomain(idToPath, manifests);
    var appended, cycles := AppendLeftOver(cycleIds, idToPath, manifests, left);
    sortedPaths := pathsWithoutId + (sorted + appended);
    warnings := missing + cycles;
  }
}
