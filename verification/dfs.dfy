/** Depth-first ordering of dependencies, with cycle detection. */
module DepthFirst {
  import opened Types

  function Deps<N>(graph: map<N, seq<N>>, n: N): seq<N> {
    if n in graph then graph[n] else []
  }

  // ---- Reference notions -----------------------------------------------------------------------------

  /** Each node depends on the next one. */
  ghost predicate Chain<N(!new)>(graph: map<N, seq<N>>, ns: seq<N>) {
    ns != [] && forall i :: 0 <= i < |ns| - 1 ==> ns[i + 1] in Deps(graph, ns[i])
  }

  ghost predicate Links<N(!new)>(graph: map<N, seq<N>>, ns: seq<N>, a: N, b: N) {
    Chain(graph, ns) && ns[0] == a && Last(ns) == b
  }

  /** `a` is `b` or depends on it, directly or not. */
  ghost predicate Reaches<N(!new)>(graph: map<N, seq<N>>, a: N, b: N) {
    exists ns :: Links(graph, ns, a, b)
  }

  /** `a` depends on `b` in at least one step. */
  ghost predicate DependsOn<N(!new)>(graph: map<N, seq<N>>, a: N, b: N) {
    exists ns :: |ns| >= 2 && Links(graph, ns, a, b)
  }

  /** Listed once, and after everything it depends on. */
  ghost predicate Topological<N(!new)>(graph: map<N, seq<N>>, ordered: seq<N>) {
    && (forall i, j :: 0 <= i < j < |ordered| ==> ordered[i] != ordered[j])
    && (forall i, d :: 0 <= i < |ordered| && d in Deps(graph, ordered[i]) ==> d in ordered[..i])
  }

  lemma ReachesItself<N(!new)>(graph: map<N, seq<N>>, a: N)
    ensures Reaches(graph, a, a)
  {
    assert Links(graph, [a], a, a);
  }

  lemma ReachesThrough<N(!new)>(graph: map<N, seq<N>>, a: N, d: N, b: N)
    requires d in Deps(graph, a) && Reaches(graph, d, b)
    ensures DependsOn(graph, a, b) && Reaches(graph, a, b)
  {
    var ns :| Links(graph, ns, d, b);
    assert Links(graph, [a] + ns, a, b);
  }

  lemma DependsThrough<N(!new)>(graph: map<N, seq<N>>, a: N, b: N, d: N)
    requires DependsOn(graph, a, b) && d in Deps(graph, b)
    ensures DependsOn(graph, a, d)
  {
    var ns :| |ns| >= 2 && Links(graph, ns, a, b);
    assert Links(graph, ns + [d], a, d);
  }

  lemma DependsDirectly<N(!new)>(graph: map<N, seq<N>>, a: N, d: N)
    requires d in Deps(graph, a)
    ensures DependsOn(graph, a, d)
  {
    assert Links(graph, [a, d], a, d);
  }

  /** In a topological order a dependency chain only leads to earlier positions. */
  lemma {:induction false} ChainGoesBack<N(!new)>(graph: map<N, seq<N>>, ordered: seq<N>, ns: seq<N>, i: nat)
    returns (j: nat)
    requires Topological(graph, ordered) && Chain(graph, ns) && i < |ordered| && ordered[i] == ns[0]
    ensures j <= i && ordered[j] == Last(ns) && (|ns| >= 2 ==> j < i)
    decreases |ns|
  {
    if |ns| == 1 {
      j := i;
    } else {
      assert ns[1] in ordered[..i];
      var k :| 0 <= k < i && ordered[k] == ns[1];
      j := ChainGoesBack(graph, ordered, ns[1..], k);
    }
  }

  /** Everything a listed node reaches is listed. */
  lemma OrderIsClosed<N(!new)>(graph: map<N, seq<N>>, ordered: seq<N>, a: N, b: N)
    requires Topological(graph, ordered) && a in ordered && Reaches(graph, a, b)
    ensures b in ordered
  {
    var ns :| Links(graph, ns, a, b);
    var i :| 0 <= i < |ordered| && ordered[i] == a;
    var j := ChainGoesBack(graph, ordered, ns, i);
  }

  /** No listed node depends on itself. */
  lemma OrderHasNoCycle<N(!new)>(graph: map<N, seq<N>>, ordered: seq<N>, a: N)
    requires Topological(graph, ordered) && a in ordered
    ensures !DependsOn(graph, a, a)
  {
    if DependsOn(graph, a, a) {
      var ns :| |ns| >= 2 && Links(graph, ns, a, a);
      var i :| 0 <= i < |ordered| && ordered[i] == a;
      var j := ChainGoesBack(graph, ordered, ns, i);
    }
  }

  lemma TopologicalSnoc<N(!new)>(graph: map<N, seq<N>>, ordered: seq<N>, n: N)
    requires Topological(graph, ordered) && n !in ordered && forall d :: d in Deps(graph, n) ==> d in ordered
    ensures Topological(graph, ordered + [n])
  {
    var after := ordered + [n];
    forall i, d | 0 <= i < |after| && d in Deps(graph, after[i]) ensures d in after[..i] {
      if i < |ordered| {
        assert after[..i] == ordered[..i];
      } else {
        assert after[..i] == ordered;
      }
    }
  }

  // ---- The traversal ---------------------------------------------------------------------------------

  /** The visited nodes are the listed ones, in topological order. */
  ghost predicate Listed<N(!new)>(graph: map<N, seq<N>>, ordered: seq<N>, visited: set<N>) {
    Topological(graph, ordered) && forall n :: n in visited <==> n in ordered
  }

  /** What visiting `n` adds: new nodes, all reachable from `n`, behind what was there. */
  ghost predicate Adds<N(!new)>(graph: map<N, seq<N>>, before: seq<N>, after: seq<N>, n: N) {
    before <= after && forall x :: x in after && x !in before ==> Reaches(graph, n, x)
  }

  /** Every node on the current path depends on `n`. */
  ghost predicate LeadsTo<N(!new)>(graph: map<N, seq<N>>, path: set<N>, n: N) {
    forall p :: p in path ==> DependsOn(graph, p, n)
  }

  lemma PathGrows<N(!new)>(graph: map<N, seq<N>>, path: set<N>, node: N, dep: N)
    requires LeadsTo(graph, path, node) && dep in Deps(graph, node)
    ensures LeadsTo(graph, path + {node}, dep)
  {
    forall p | p in path + {node} ensures DependsOn(graph, p, dep) {
      if p == node {
        DependsDirectly(graph, node, dep);
      } else {
        DependsThrough(graph, p, node, dep);
      }
    }
  }

  lemma AddsThrough<N(!new)>(graph: map<N, seq<N>>, before: seq<N>, middle: seq<N>, after: seq<N>, node: N, dep: N)
    requires dep in Deps(graph, node) && Adds(graph, before, middle, node) && Adds(graph, middle, after, dep)
    ensures Adds(graph, before, after, node)
  {
    forall x | x in after && x !in before ensures Reaches(graph, node, x) {
      if x !in middle {
        ReachesThrough(graph, node, dep, x);
      }
    }
  }

  lemma ListedSnoc<N(!new)>(graph: map<N, seq<N>>, before: seq<N>, ordered: seq<N>, visited: set<N>, node: N)
    requires Listed(graph, ordered, visited) && Adds(graph, before, ordered, node) && node !in visited
    requires forall d :: d in Deps(graph, node) ==> d in visited
    ensures Listed(graph, ordered + [node], visited + {node}) && Adds(graph, before, ordered + [node], node)
  {
    TopologicalSnoc(graph, ordered, node);
    ReachesItself(graph, node);
  }

  /** The three collections the recursion shares. */
  class Traversal<N(==, !new)> {
    const graph: map<N, seq<N>>
    var ordered: seq<N>
    var visited: set<N>
    var visitedCycle: set<N>

    ghost predicate Valid()
      reads this
    {
      Listed(graph, ordered, visited)
    }

    constructor (graph: map<N, seq<N>>)
      ensures Valid() && this.graph == graph && ordered == [] && visitedCycle == {}
    {
      this.graph := graph;
      ordered := [];
      visited := {};
      visitedCycle := {};
    }

    method Visit(node: N) returns (r: Result<(), N>)
      requires Valid() && visited !! visitedCycle && LeadsTo(graph, visitedCycle, node)
      modifies this
      ensures Valid() && Adds(graph, old(ordered), ordered, node)
      ensures r.Ok? ==> visitedCycle == old(visitedCycle) && visited !! visitedCycle && node in visited
      ensures r.Err? ==> DependsOn(graph, r.error, r.error) && Reaches(graph, node, r.error)
      decreases graph.Keys - visitedCycle, 1
    {
      if node in visitedCycle {
        ReachesItself(graph, node);
        return Err(node);
      }
      if node in visited {
        return Ok(());
      }
      visitedCycle := visitedCycle + {node};
      r := VisitDeps(node);
      if r.Err? {
        return;
      }
      visitedCycle := visitedCycle - {node};
      ListedSnoc(graph, old(ordered), ordered, visited, node);
      visited := visited + {node};
      ordered := ordered + [node];
    }

    /** The loop over the dependencies of the node that was just put on the path. */
    method VisitDeps(node: N) returns (r: Result<(), N>)
      requires Valid() && visited !! visitedCycle && node in visitedCycle
      requires LeadsTo(graph, visitedCycle - {node}, node)
      modifies this
      ensures Valid() && Adds(graph, old(ordered), ordered, node)
      ensures r.Ok? ==> visitedCycle == old(visitedCycle) && visited !! visitedCycle
      ensures r.Ok? ==> forall d :: d in Deps(graph, node) ==> d in visited
      ensures r.Err? ==> DependsOn(graph, r.error, r.error) && Reaches(graph, node, r.error)
      decreases graph.Keys - (visitedCycle - {node}), 0
    {
      var deps := Deps(graph, node);
      for i := 0 to |deps|
        invariant Valid() && Adds(graph, old(ordered), ordered, node)
        invariant visitedCycle == old(visitedCycle) && visited !! visitedCycle
        invariant forall j :: 0 <= j < i ==> deps[j] in visited
      {
        ghost var before := ordered;
        PathGrows(graph, visitedCycle - {node}, node, deps[i]);
        assert visitedCycle - {node} + {node} == visitedCycle;
        r := Visit(deps[i]);
        AddsThrough(graph, old(ordered), before, ordered, node, deps[i]);
        if r.Err? {
          ReachesThrough(graph, node, deps[i], r.error);
          return;
        }
      }
      r := Ok(());
    }
  }

  /** Some of the given nodes is, or depends on, `x`. */
  ghost predicate Needed<N(!new)>(graph: map<N, seq<N>>, nodes: seq<N>, x: N) {
    exists n :: n in nodes && Reaches(graph, n, x)
  }

  /**
   * Orders the given nodes and everything they need; fails exactly when a needed node depends on itself, and then
   * names such a node.
   */
  method DependencySort<N(==, !new)>(graph: map<N, seq<N>>, nodes: seq<N>) returns (r: Result<seq<N>, N>)
    ensures r.Ok? ==> Topological(graph, r.value) && forall x :: x in r.value <==> Needed(graph, nodes, x)
    ensures r.Err? ==> Needed(graph, nodes, r.error) && DependsOn(graph, r.error, r.error)
    ensures r.Ok? <==> forall x :: Needed(graph, nodes, x) ==> !DependsOn(graph, x, x)
  {
    var t := new Traversal(graph);
    for i := 0 to |nodes|
      invariant t.graph == graph && t.Valid() && t.visitedCycle == {}
      invariant forall j :: 0 <= j < i ==> nodes[j] in t.ordered
      invariant forall x :: x in t.ordered ==> Needed(graph, nodes, x)
    {
      if nodes[i] !in t.visited {
        ghost var before := t.ordered;
        var visit := t.Visit(nodes[i]);
        NeededMore(graph, nodes, i, before, t.ordered);
        if visit.Err? {
          return Err(visit.error);
        }
      }
    }
    SortedIsNeeded(graph, nodes, t.ordered);
    r := Ok(t.ordered);
  }

  lemma NeededMore<N(!new)>(graph: map<N, seq<N>>, nodes: seq<N>, i: nat, before: seq<N>, after: seq<N>)
    requires i < |nodes| && forall x :: x in before ==> Needed(graph, nodes, x)
    requires forall x :: x in after && x !in before ==> Reaches(graph, nodes[i], x)
    ensures forall x :: x in after ==> Needed(graph, nodes, x)
    ensures forall x :: Reaches(graph, nodes[i], x) ==> Needed(graph, nodes, x)
  {
    assert nodes[i] in nodes;
  }

  lemma SortedIsNeeded<N(!new)>(graph: map<N, seq<N>>, nodes: seq<N>, ordered: seq<N>)
    requires Topological(graph, ordered) && forall n :: n in nodes ==> n in ordered
    ensures forall x :: Needed(graph, nodes, x) ==> x in ordered && !DependsOn(graph, x, x)
  {
    forall x | Needed(graph, nodes, x) ensures x in ordered && !DependsOn(graph, x, x) {
      var n :| n in nodes && Reaches(graph, n, x);
      OrderIsClosed(graph, ordered, n, x);
      OrderHasNoCycle(graph, ordered, x);
    }
  }
}
