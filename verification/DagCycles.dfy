/** The dependency graph of sub-tasks and the depth-first search for a cycle in it. */
module DagCycles {
  type Id = string

  /** Dependencies by task id. A dependency may name a task that does not exist. */
  type Graph = map<Id, seq<Id>>

  predicate DependsOn(g: Graph, a: Id, b: Id) {
    a in g && b in g[a]
  }

  /** A walk along dependencies. */
  ghost predicate Path(g: Graph, p: seq<Id>) {
    p != [] && forall i :: 0 <= i < |p| - 1 ==> DependsOn(g, p[i], p[i + 1])
  }

  ghost predicate Cycle(g: Graph, p: seq<Id>) {
    Path(g, p) && |p| > 1 && p[0] == p[|p| - 1]
  }

  ghost predicate Cyclic(g: Graph) {
    exists p :: Cycle(g, p)
  }

  predicate Closed(g: Graph) {
    forall a, b :: a in g && b in g[a] ==> b in g
  }

  /** Every dependency of an entry comes before it. */
  ghost predicate Sorted(g: Graph, order: seq<Id>) {
    forall i :: 0 <= i < |order| ==>
                  order[i] in g && forall d :: d in g[order[i]] ==> d in order[..i]
  }

  lemma DependencyBefore(g: Graph, order: seq<Id>, k: nat, d: Id) returns (j: nat)
    requires Sorted(g, order) && k < |order| && d in g[order[k]]
    ensures j < k && order[j] == d
  {
    j :| 0 <= j < k && order[..k][j] == d;
  }

  /** Along a path within a sorted list the positions go down. */
  lemma {:induction false} PathGoesDown(g: Graph, order: seq<Id>, p: seq<Id>, i: nat)
    requires Sorted(g, order) && Path(g, p) && i < |order| && order[i] == p[0] && |p| > 1
    ensures p[|p| - 1] in order[..i]
    decreases |p|
  {
    PathTail(g, p);
    var j: nat :| j < i && order[j] == p[1];
    if |p| > 2 {
      PathGoesDown(g, order, p[1..], j);
    }
  }

  /** The first place where a task is listed. */
  function Place(order: seq<Id>, a: Id): (k: nat)
    requires a in order
    ensures k < |order| && order[k] == a && a !in order[..k]
  {
    if order[0] == a then 0
    else
      var k := Place(order[1..], a) + 1;
      assert order[..k] == [order[0]] + order[1..][..k - 1];
      k
  }

  lemma PathCons(g: Graph, a: Id, p: seq<Id>)
    requires Path(g, p) && DependsOn(g, a, p[0])
    ensures Path(g, [a] + p)
  {
    var q := [a] + p;
    forall i | 0 <= i < |q| - 1 ensures DependsOn(g, q[i], q[i + 1]) {
      assert i > 0 ==> DependsOn(g, p[i - 1], p[i]);
    }
  }

  lemma PathTail(g: Graph, p: seq<Id>)
    requires Path(g, p) && |p| > 1
    ensures Path(g, p[1..]) && DependsOn(g, p[0], p[1])
  {
    forall i | 0 <= i < |p| - 2 ensures DependsOn(g, p[1..][i], p[1..][i + 1]) {
      assert DependsOn(g, p[i + 1], p[i + 2]);
    }
    assert DependsOn(g, p[0], p[0 + 1]);
  }

  lemma SortedAcyclic(g: Graph, order: seq<Id>)
    requires Sorted(g, order) && forall a :: a in g ==> a in order
    ensures !Cyclic(g) && Closed(g)
  {
    forall p ensures !Cycle(g, p) {
      if Cycle(g, p) {
        assert DependsOn(g, p[0], p[1]);
        var k := Place(order, p[0]);
        PathGoesDown(g, order, p, k);
      }
    }
    forall a, b | a in g && b in g[a] ensures b in g {
      var k := Place(order, a);
      assert b in order[..k];
    }
  }

  /** The search answers true or false, or raises on a dependency that does not exist. */
  datatype Search = Found | Clear | UnknownTask

  ghost predicate Dangling(g: Graph) {
    exists a, b :: DependsOn(g, a, b) && b !in g
  }

  class CycleSearch {
    const g: Graph
    var visited: set<Id>
    var stack: set<Id>
    /** The nodes left behind, in that order. */
    ghost var done: seq<Id>

    constructor (g: Graph)
      ensures this.g == g && visited == {} && stack == {} && done == []
    {
      this.g, visited, stack, done := g, {}, {}, [];
    }

    ghost predicate Valid(trail: seq<Id>)
      reads this
    {
      && (trail != [] ==> Path(g, trail))
      && stack == (set a | a in trail)
      && visited == stack + (set a | a in done)
      && stack !! (set a | a in done)
      && visited <= g.Keys
      && Sorted(g, done)
    }

    /** `dfs`: `trail` is the path of calls that leads to the node. */
    method Dfs(node: Id, ghost trail: seq<Id>) returns (r: Search)
      requires Valid(trail) && node in g && node !in visited
      requires trail != [] ==> DependsOn(g, trail[|trail| - 1], node)
      modifies this
      ensures r == Clear ==> Valid(trail) && node in visited && old(visited) <= visited && old(done) <= done
      ensures r == Found ==> Cyclic(g)
      ensures r == UnknownTask ==> Dangling(g)
      decreases g.Keys - visited
    {
      visited, stack := visited + {node}, stack + {node};
      ghost var path := trail + [node];
      assert Path(g, path);
      var i := 0;
      while i < |g[node]|
        invariant i <= |g[node]|
        invariant Valid(path) && old(visited) + {node} <= visited && old(done) <= done
        invariant forall d :: d in g[node][..i] ==> d in done
      {
        var dep := g[node][i];
        assert DependsOn(g, node, dep);
        if dep !in visited {
          if dep !in g {
            return UnknownTask;
          }
          var below := Dfs(dep, path);
          if below != Clear {
            return below;
          }
        } else if dep in stack {
          CloseCycle(g, path, dep);
          return Found;
        }
        assert g[node][..i + 1] == g[node][..i] + [dep];
        i := i + 1;
      }
      assert g[node][..i] == g[node];
      stack := stack - {node};
      done := done + [node];
      assert Valid(trail) by {
        assert forall k :: 0 <= k < |done| - 1 ==> done[..k] == done[..|done| - 1][..k];
        assert done[..|done| - 1] == done[..][..|done| - 1];
      }
      r := Clear;
    }
  }

  lemma CloseCycle(g: Graph, path: seq<Id>, dep: Id)
    requires Path(g, path) && dep in path && DependsOn(g, path[|path| - 1], dep)
    ensures Cyclic(g)
  {
    var k :| 0 <= k < |path| && path[k] == dep;
    var p := path[k..] + [dep];
    forall i | 0 <= i < |p| - 1 ensures DependsOn(g, p[i], p[i + 1]) {
      assert i < |path[k..]| - 1 ==> DependsOn(g, path[k + i], path[k + i + 1]);
    }
    assert Cycle(g, p);
  }

  /** `_has_cycle`. It always ends; an answer is exact, and an exception means that a dependency is missing. On a
      closed graph it answers true if and only if there is a cycle. */
  method HasCycle(g: Graph, tasks: seq<Id>) returns (r: Search, ghost order: seq<Id>)
    requires forall a :: a in tasks <==> a in g
    ensures r == Found ==> Cyclic(g)
    ensures r == Clear ==> !Cyclic(g) && Closed(g) && Sorted(g, order) && forall a :: a in g ==> a in order
    ensures r == UnknownTask ==> Dangling(g)
    ensures Closed(g) ==> r != UnknownTask && (r == Found <==> Cyclic(g))
  {
    var search := new CycleSearch(g);
    for i := 0 to |tasks|
      invariant search.Valid([]) && search.g == g
      invariant forall j :: 0 <= j < i ==> tasks[j] in search.visited
    {
      if tasks[i] !in search.visited {
        var below := search.Dfs(tasks[i], []);
        if below != Clear {
          return below, [];
        }
      }
    }
    SortedAcyclic(g, search.done);
    r, order := Clear, search.done;
  }
}
