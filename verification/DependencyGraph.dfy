/**
 Orders of a dependency graph: the greedy, alphabetically least topological order, and what it leaves over.
 */
module DependencyGraph {
  /** Ids are strings, and strings compare by UTF-16 code unit. */
  newtype CodeUnit = n: int | 0 <= n < 0x1_0000

  datatype Id = Id(text: seq<CodeUnit>)

  // ---------------------------------------------------------------------------------------------
  // Alphabetical order
  // ---------------------------------------------------------------------------------------------

  predicate Before(a: seq<CodeUnit>, b: seq<CodeUnit>) {
    if b == [] then false
    else if a == [] then true
    else if a[0] != b[0] then a[0] < b[0]
    else Before(a[1..], b[1..])
  }

  predicate Less(a: Id, b: Id) { Before(a.text, b.text) }

  /** Alphabetical order as it is told: a proper prefix comes first, and otherwise the first difference decides. */
  ghost predicate Precedes(a: seq<CodeUnit>, b: seq<CodeUnit>) {
    || a < b
    || exists k :: 0 <= k < |a| && k < |b| && a[..k] == b[..k] && a[k] < b[k]
  }

  lemma {:induction false} BeforeMeaning(a: seq<CodeUnit>, b: seq<CodeUnit>)
    ensures Before(a, b) <==> Precedes(a, b)
  {
    if a != [] && b != [] {
      BeforeMeaning(a[1..], b[1..]);
      if a[0] == b[0] {
        PrecedesTail(a, b);
      } else {
        assert a[0] < b[0] ==> a[..0] == b[..0];
        forall k | 0 < k < |a| && k < |b| ensures a[..k] != b[..k] {
          assert a[..k][0] == a[0] && b[..k][0] == b[0];
        }
      }
    }
  }

  lemma PrecedesTail(a: seq<CodeUnit>, b: seq<CodeUnit>)
    requires a != [] && b != [] && a[0] == b[0]
    ensures Precedes(a, b) <==> Precedes(a[1..], b[1..])
  {
    assert a == [a[0]] + a[1..] && b == [b[0]] + b[1..];
    if k :| 0 <= k < |a| && k < |b| && a[..k] == b[..k] && a[k] < b[k] {
      assert k > 0 && a[1..][..k - 1] == a[..k][1..] && b[1..][..k - 1] == b[..k][1..];
      assert a[1..][k - 1] == a[k] && b[1..][k - 1] == b[k];
    }
    if k :| 0 <= k < |a[1..]| && k < |b[1..]| && a[1..][..k] == b[1..][..k] && a[1..][k] < b[1..][k] {
      assert a[..k + 1] == [a[0]] + a[1..][..k] && b[..k + 1] == [b[0]] + b[1..][..k];
      assert a[k + 1] == a[1..][k] && b[k + 1] == b[1..][k];
    }
  }

  lemma {:induction false} BeforeIsStrictOrder(a: seq<CodeUnit>, b: seq<CodeUnit>, c: seq<CodeUnit>)
    ensures !Before(a, a)
    ensures Before(a, b) && Before(b, c) ==> Before(a, c)
    ensures Before(a, b) || a == b || Before(b, a)
  {
    if a != [] {
      BeforeIsStrictOrder(a[1..], if b == [] then [] else b[1..], if c == [] then [] else c[1..]);
      if b != [] && a[0] == b[0] {
        assert a == [a[0]] + a[1..] && b == [b[0]] + b[1..];
      }
    }
  }

  lemma LessIrreflexive(a: Id)
    ensures !Less(a, a)
  {
    BeforeIsStrictOrder(a.text, a.text, a.text);
  }

  lemma LessTransitive(a: Id, b: Id, c: Id)
    requires Less(a, b) && Less(b, c)
    ensures Less(a, c)
  {
    BeforeIsStrictOrder(a.text, b.text, c.text);
  }

  lemma LessTotal(a: Id, b: Id)
    ensures Less(a, b) || a == b || Less(b, a)
  {
    BeforeIsStrictOrder(a.text, b.text, b.text);
  }

  ghost predicate IsLeast(x: Id, s: set<Id>) {
    x in s && forall y :: y in s && y != x ==> Less(x, y)
  }

  lemma {:induction false} LeastExists(s: set<Id>) returns (x: Id)
    requires s != {}
    ensures IsLeast(x, s)
  {
    x :| x in s;
    if s != {x} {
      var rest := s - {x};
      assert s == {x} + rest;
      var y := LeastExists(rest);
      LessTotal(x, y);
      if Less(y, x) {
        x := y;
      } else {
        forall z | z in s && z != x ensures Less(x, z) {
          if z != y { LessTransitive(x, y, z); }
        }
      }
    }
  }

  lemma HasLeast(s: set<Id>)
    requires s != {}
    ensures exists x :: IsLeast(x, s)
  {
    var x := LeastExists(s);
  }

  lemma LeastUnique(x: Id, y: Id, s: set<Id>)
    requires IsLeast(x, s) && IsLeast(y, s)
    ensures x == y
  {
    if x != y {
      LessTransitive(x, y, x);
      LessIrreflexive(x);
    }
  }

  ghost function Least(s: set<Id>): (x: Id)
    requires s != {}
    ensures IsLeast(x, s)
  {
    HasLeast(s);
    var x :| IsLeast(x, s);
    x
  }

  /** The elements of a set in alphabetical order. */
  ghost function Ascending(s: set<Id>): (r: seq<Id>)
    ensures forall x :: x in r <==> x in s
    ensures |r| == |s|
  {
    if s == {} then [] else [Least(s)] + Ascending(s - {Least(s)})
  }

  /** The elements of the set, each once, and each before every later one by code units. */
  lemma {:induction false} AscendingByCodeUnits(s: set<Id>, j: nat, k: nat)
    requires j < k < |Ascending(s)|
    ensures Precedes(Ascending(s)[j].text, Ascending(s)[k].text)
  {
    var m, rest := Least(s), s - {Least(s)};
    if j == 0 {
      assert Ascending(s)[k] == Ascending(rest)[k - 1] && Ascending(rest)[k - 1] in rest;
      BeforeMeaning(m.text, Ascending(s)[k].text);
    } else {
      AscendingByCodeUnits(rest, j - 1, k - 1);
    }
  }

  function Insert(r: seq<Id>, x: Id): seq<Id> {
    if r == [] then [x] else if Less(x, r[0]) then [x] + r else [r[0]] + Insert(r[1..], x)
  }

  lemma {:induction false} InsertAscending(s: set<Id>, x: Id)
    requires x !in s
    ensures Insert(Ascending(s), x) == Ascending(s + {x})
  {
    var s' := s + {x};
    if s == {} {
      assert s' == {x} && Least(s') == x;
      assert s' - {x} == {};
    } else {
      var m := Least(s);
      LessTotal(x, m);
      if Less(x, m) {
        forall y | y in s' && y != x ensures Less(x, y) {
          if y != m { LessTransitive(x, m, y); }
        }
        LeastUnique(x, Least(s'), s');
        assert s' - {x} == s;
      } else {
        LeastUnique(m, Least(s'), s');
        LessAsymmetric(m, x);
        assert s' - {m} == (s - {m}) + {x};
        InsertAscending(s - {m}, x);
        assert Ascending(s)[1..] == Ascending(s - {m});
      }
    }
  }

  lemma LessAsymmetric(a: Id, b: Id)
    ensures !(Less(a, b) && Less(b, a))
  {
    if Less(a, b) && Less(b, a) {
      LessTransitive(a, b, a);
      LessIrreflexive(a);
    }
  }

  // ---------------------------------------------------------------------------------------------
  // The dependency graph
  // ---------------------------------------------------------------------------------------------

  /** The ids to order, and for each the installed ids it depends on, as often as it declares them. */
  datatype Graph = Graph(ids: set<Id>, edges: map<Id, seq<Id>>) {
    ghost predicate Valid() {
      && edges.Keys == ids
      && forall x, i :: x in ids && 0 <= i < |edges[x]| ==> edges[x][i] in ids && edges[x][i] != x
    }
  }

  function Elements(s: seq<Id>): set<Id> { set x | x in s }

  /** The ids that may come next: not emitted, with every installed dependency emitted. */
  ghost function Available(g: Graph, done: set<Id>): set<Id>
    requires g.Valid()
  {
    set x | x in g.ids && x !in done && forall i :: 0 <= i < |g.edges[x]| ==> g.edges[x][i] in done
  }

  ghost predicate Distinct(s: seq<Id>) {
    forall j, k :: 0 <= j < k < |s| ==> s[j] != s[k]
  }

  /** No id twice, and every id after all its installed dependencies. */
  ghost predicate Topological(g: Graph, order: seq<Id>)
    requires g.Valid()
  {
    && (forall k :: 0 <= k < |order| ==> order[k] in g.ids)
    && Distinct(order)
    && (forall k, i :: 0 <= k < |order| && 0 <= i < |g.edges[order[k]]| ==> g.edges[order[k]][i] in order[..k])
  }

  /** The greedy order: always the alphabetically least id that may come next. */
  ghost function Greedy(g: Graph, done: seq<Id>): seq<Id>
    requires g.Valid()
    decreases |g.ids - Elements(done)|
  {
    var next := Available(g, Elements(done));
    if next == {} then done
    else
      var x := Least(next);
      assert Elements(done + [x]) == Elements(done) + {x};
      assert g.ids - Elements(done + [x]) < g.ids - Elements(done);
      Smaller(g.ids - Elements(done + [x]), g.ids - Elements(done));
      Greedy(g, done + [x])
  }

  lemma {:induction false} Smaller(a: set<Id>, b: set<Id>)
    requires a < b
    ensures |a| < |b|
  {
    var x :| x in b && x !in a;
    assert a + (b - a) == b && x in b - a;
  }

  lemma TopologicalSnoc(g: Graph, order: seq<Id>, x: Id)
    requires g.Valid() && Topological(g, order) && x in Available(g, Elements(order))
    ensures Topological(g, order + [x])
  {
    var order' := order + [x];
    forall k, i | 0 <= k < |order'| && 0 <= i < |g.edges[order'[k]]|
      ensures g.edges[order'[k]][i] in order'[..k]
    {
      if k < |order| {
        assert order'[..k] == order[..k];
      } else {
        assert order'[..k] == order;
        assert g.edges[x][i] in Elements(order);
      }
    }
    assert x !in Elements(order);
  }

  /** The greedy order is topological, and nothing may come after it. */
  lemma {:induction false} GreedyIsTopological(g: Graph, done: seq<Id>)
    requires g.Valid() && Topological(g, done)
    ensures Topological(g, Greedy(g, done)) && Available(g, Elements(Greedy(g, done))) == {}
    ensures done <= Greedy(g, done)
    decreases |g.ids - Elements(done)|
  {
    var next := Available(g, Elements(done));
    if next != {} {
      var x := Least(next);
      TopologicalSnoc(g, done, x);
      assert Elements(done + [x]) == Elements(done) + {x};
      Smaller(g.ids - Elements(done + [x]), g.ids - Elements(done));
      GreedyIsTopological(g, done + [x]);
      assert done <= done + [x] <= Greedy(g, done);
    }
  }

  ghost function Order(g: Graph): seq<Id>
    requires g.Valid()
  {
    Greedy(g, [])
  }

  ghost function LeftOver(g: Graph): set<Id>
    requires g.Valid()
  {
    g.ids - Elements(Order(g))
  }

  // ---------------------------------------------------------------------------------------------
  // Least among all topological orders
  // ---------------------------------------------------------------------------------------------

  /** `a` is no later than `b` in the lexicographic order of id sequences. */
  ghost predicate NoLater(a: seq<Id>, b: seq<Id>) {
    b <= a || exists k :: 0 <= k < |a| && k < |b| && a[..k] == b[..k] && Precedes(a[k].text, b[k].text)
  }

  lemma GreedyStep(g: Graph, done: seq<Id>)
    requires g.Valid() && Topological(g, done) && |done| < |Greedy(g, done)|
    ensures var next := Available(g, Elements(done));
            && next != {} && Topological(g, done + [Least(next)])
            && Greedy(g, done) == Greedy(g, done + [Least(next)])
            && done + [Least(next)] <= Greedy(g, done)
            && |g.ids - Elements(done + [Least(next)])| < |g.ids - Elements(done)|
  {
    var x := Least(Available(g, Elements(done)));
    TopologicalSnoc(g, done, x);
    assert Elements(done + [x]) == Elements(done) + {x};
    Smaller(g.ids - Elements(done + [x]), g.ids - Elements(done));
    GreedyIsTopological(g, done + [x]);
  }

  lemma {:induction false} GreedyChoice(g: Graph, done: seq<Id>, k: nat)
    requires g.Valid() && Topological(g, done) && |done| <= k < |Greedy(g, done)|
    ensures var order := Greedy(g, done);
            IsLeast(order[k], Available(g, Elements(order[..k])))
    decreases |g.ids - Elements(done)|
  {
    hide Greedy, Topological, Available;
    GreedyStep(g, done);
    var x := Least(Available(g, Elements(done)));
    if |done| == k {
      assert (done + [x])[..k] == done && (done + [x])[k] == x;
      assert Greedy(g, done)[..k] == done;
    } else {
      GreedyChoice(g, done + [x], k);
    }
  }

  /** Each emitted id precedes, by code units, every other one that might have come in its place. */
  lemma EmittedPrecedesOthers(g: Graph, k: nat, y: Id)
    requires g.Valid() && k < |Order(g)| && y in Available(g, Elements(Order(g)[..k])) && y != Order(g)[k]
    ensures Precedes(Order(g)[k].text, y.text)
  {
    GreedyChoice(g, [], k);
    BeforeMeaning(Order(g)[k].text, y.text);
  }

  /** Every element of a topological sequence is available once the ones before it are done. */
  lemma AvailableInTurn(g: Graph, order: seq<Id>, k: nat)
    requires g.Valid() && Topological(g, order) && k < |order|
    ensures order[k] in Available(g, Elements(order[..k]))
  {
    assert order[k] !in order[..k];
  }

  /**
   Among all dependency-respecting sequences of ids, the emitted order is the alphabetically least: any
   other is a prefix of it or has a greater id at the first difference.
   */
  lemma OrderIsLeast(g: Graph, other: seq<Id>)
    requires g.Valid() && Topological(g, other)
    ensures NoLater(Order(g), other)
  {
    GreedyIsTopological(g, []);
    var order := Order(g);
    var k := FirstDifference(order, other);
    assert k == |order| ==> order[..k] == order;
    if k < |other| {
      AvailableInTurn(g, other, k);
      if k < |order| {
        GreedyChoice(g, [], k);
        BeforeMeaning(order[k].text, other[k].text);
      }
    } else {
      assert other[..k] == other && order[..k] <= order;
    }
  }

  lemma FirstDifference(a: seq<Id>, b: seq<Id>) returns (k: nat)
    ensures k <= |a| && k <= |b| && a[..k] == b[..k]
    ensures k < |a| && k < |b| ==> a[k] != b[k]
    ensures k < |a| || k == |a|
  {
    k := 0;
    while k < |a| && k < |b| && a[k] == b[k]
      invariant k <= |a| && k <= |b| && a[..k] == b[..k]
    {
      assert a[..k + 1] == a[..k] + [a[k]] && b[..k + 1] == b[..k] + [b[k]];
      k := k + 1;
    }
  }

  lemma NothingFollows(g: Graph, some: set<Id>, all: set<Id>, x: Id)
    requires g.Valid() && x in Available(g, some) && some <= all && Available(g, all) == {}
    ensures x in all
  {
    assert Available(g, some) - all <= Available(g, all);
    assert x !in Available(g, some) - all;
  }

  /** Every topological sequence is made of emitted ids only: what is left over can never be ordered. */
  lemma {:induction false} OnlyEmittedCanBeOrdered(g: Graph, other: seq<Id>, k: nat)
    requires g.Valid() && Topological(g, other) && k <= |other|
    ensures Elements(other[..k]) <= Elements(Order(g))
  {
    GreedyIsTopological(g, []);
    if k > 0 {
      OnlyEmittedCanBeOrdered(g, other, k - 1);
      assert other[..k] == other[..k - 1] + [other[k - 1]];
      AvailableInTurn(g, other, k - 1);
      NothingFollows(g, Elements(other[..k - 1]), Elements(Order(g)), other[k - 1]);
    }
  }

  // ---------------------------------------------------------------------------------------------
  // Left over exactly when a cycle can be reached
  // ---------------------------------------------------------------------------------------------

  /** A walk along dependencies. */
  ghost predicate Walk(g: Graph, p: seq<Id>)
    requires g.Valid()
  {
    && |p| > 0 && p[0] in g.ids
    && forall k :: 0 <= k < |p| - 1 ==> p[k] in g.ids && p[k + 1] in g.edges[p[k]]
  }

  /** From `x`, following dependencies, a cycle of at least two extensions can be reached. */
  ghost predicate ReachesCycle(g: Graph, x: Id)
    requires g.Valid()
  {
    exists p, i, j :: ClosesCycle(g, x, p, i, j)
  }

  ghost predicate ClosesCycle(g: Graph, x: Id, p: seq<Id>, i: int, j: int)
    requires g.Valid()
  {
    Walk(g, p) && p[0] == x && 0 <= i && i + 2 <= j < |p| && p[i] == p[j]
  }

  /** Every left-over id has a left-over dependency. */
  lemma LeftOverDependency(g: Graph, x: Id) returns (d: Id)
    requires g.Valid() && x in LeftOver(g)
    ensures d in g.edges[x] && d in LeftOver(g)
  {
    GreedyIsTopological(g, []);
    assert x !in Available(g, Elements(Order(g)));
    var i :| 0 <= i < |g.edges[x]| && g.edges[x][i] !in Elements(Order(g));
    d := g.edges[x][i];
  }

  lemma {:induction false} LeftOverWalk(g: Graph, x: Id, n: nat) returns (p: seq<Id>)
    requires g.Valid() && x in LeftOver(g)
    ensures Walk(g, p) && p[0] == x && |p| == n + 1
    ensures forall k :: 0 <= k < |p| ==> p[k] in LeftOver(g)
    decreases n
  {
    if n == 0 {
      p := [x];
    } else {
      var d := LeftOverDependency(g, x);
      var q := LeftOverWalk(g, d, n - 1);
      p := [x] + q;
    }
  }

  /** A sequence longer than the set it is drawn from repeats an element. */
  lemma {:induction false} Pigeonhole(p: seq<Id>, s: set<Id>) returns (i: nat, j: nat)
    requires |p| > |s| && forall k :: 0 <= k < |p| ==> p[k] in s
    ensures i < j < |p| && p[i] == p[j]
    decreases |p|
  {
    var last := |p| - 1;
    if k :| 0 <= k < last && p[k] == p[last] {
      i, j := k, last;
    } else {
      i, j := Pigeonhole(p[..last], s - {p[last]});
    }
  }

  lemma LeftOverReachesCycle(g: Graph, x: Id)
    requires g.Valid() && x in LeftOver(g)
    ensures ReachesCycle(g, x)
  {
    var p := LeftOverWalk(g, x, |g.ids|);
    var i, j := Pigeonhole(p, g.ids);
    assert p[i + 1] in g.edges[p[i]];
    assert ClosesCycle(g, x, p, i, j);
  }

  /** Along a walk from an emitted id, every step goes to an id emitted earlier. */
  lemma {:induction false} WalkGoesBack(g: Graph, p: seq<Id>, k: nat) returns (at: nat)
    requires g.Valid() && Walk(g, p) && k < |p| && p[0] in Order(g)
    ensures at < |Order(g)| && Order(g)[at] == p[k]
  {
    GreedyIsTopological(g, []);
    if k == 0 {
      at :| 0 <= at < |Order(g)| && Order(g)[at] == p[0];
    } else {
      var before := WalkGoesBack(g, p, k - 1);
      assert p[k] in g.edges[p[k - 1]];
      assert p[k] in Order(g)[..before];
      at :| 0 <= at < before && Order(g)[at] == p[k];
    }
  }

  lemma {:induction false} WalkDescends(g: Graph, p: seq<Id>, i: nat, j: nat, a: nat, b: nat)
    requires g.Valid() && Walk(g, p) && i < j < |p|
    requires a < |Order(g)| && b < |Order(g)| && Order(g)[a] == p[i] && Order(g)[b] == p[j]
    ensures b < a
    decreases j - i
  {
    GreedyIsTopological(g, []);
    var order := Order(g);
    if j == i + 1 {
      assert p[j] in g.edges[p[i]];
      assert p[j] in order[..a];
    } else {
      assert p[i + 1] in g.edges[p[i]];
      assert p[i + 1] in order[..a];
      var c :| 0 <= c < a && order[c] == p[i + 1];
      WalkDescends(g, p, i + 1, j, c, b);
    }
  }

  /** The left-over ids are exactly those from which a dependency cycle can be reached. */
  lemma LeftOverIffReachesCycle(g: Graph, x: Id)
    requires g.Valid() && x in g.ids
    ensures x in LeftOver(g) <==> ReachesCycle(g, x)
  {
    if x in LeftOver(g) {
      LeftOverReachesCycle(g, x);
    } else if ReachesCycle(g, x) {
      var p, i, j :| ClosesCycle(g, x, p, i, j);
      var a := WalkGoesBack(g, p, i);
      WalkDescends(g, p, i, j, a, a);
    }
  }

  /** Without a cycle, the whole graph is emitted. */
  lemma AcyclicIsEmittedWhole(g: Graph)
    requires g.Valid() && forall x :: x in g.ids ==> !ReachesCycle(g, x)
    ensures LeftOver(g) == {} && Elements(Order(g)) == g.ids && Topological(g, Order(g))
  {
    forall x | x in g.ids ensures x !in LeftOver(g) {
      LeftOverIffReachesCycle(g, x);
    }
    GreedyIsTopological(g, []);
    assert LeftOver(g) == {};
    forall x | x in Elements(Order(g)) ensures x in g.ids {
      var k :| 0 <= k < |Order(g)| && Order(g)[k] == x;
    }
  }
}
