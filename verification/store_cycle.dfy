/** internal/store/cycle.go: the check the store makes before it rewrites a task's dependencies. */
module StoreCycle {
  import opened Graphs

  /** The visited map that one search shares between all its recursive calls. */
  class Search {
    var visited: set<string>

    constructor ()
      ensures visited == {}
    {
      visited := {};
    }

    /** A search that fails leaves its whole region visited, with no dependency leading out of what
        it added, and has not met the target there. */
    method Dfs(edges: Graph, current: string, target: string) returns (found: bool)
      modifies this
      ensures found ==> Reaches(edges, current, target)
      ensures old(visited) <= visited
      ensures !found ==> current in visited
      ensures !found ==> target in visited ==> target in old(visited)
      ensures !found ==> Explored(edges, visited - old(visited), visited)
      decreases edges.Keys - visited
    {
      if current == target {
        ReachesSelf(edges, current);
        return true;
      }
      if current in visited {
        return false;
      }
      visited := visited + {current};
      ghost var seen := visited;
      var neighbours := Out(edges, current);
      for i := 0 to |neighbours|
        invariant seen <= visited
        invariant target in visited ==> target in old(visited)
        invariant forall k :: 0 <= k < i ==> neighbours[k] in visited
        invariant Explored(edges, visited - seen, visited)
      {
        ghost var before := visited;
        var hit := Dfs(edges, neighbours[i], target);
        if hit {
          ReachesStep(edges, current, neighbours[i], target);
          return true;
        }
        ExploredGrows(edges, before - seen, before, visited - before, visited);
        assert visited - seen == (before - seen) + (visited - before);
      }
      assert visited - old(visited) == {current} + (visited - seen);
      return false;
    }
  }

  /** Every dependency of a node of s is in t. */
  ghost predicate Explored(g: Graph, s: set<string>, t: set<string>) {
    forall n, m :: n in s && m in Out(g, n) ==> m in t
  }

  lemma ExploredGrows(g: Graph, s: set<string>, t: set<string>, s': set<string>, t': set<string>)
    requires Explored(g, s, t) && Explored(g, s', t') && t <= t'
    ensures Explored(g, s + s', t')
  {}

  method IsReachable(edges: Graph, source: string, target: string) returns (found: bool)
    ensures found <==> Reaches(edges, source, target)
  {
    var search := new Search();
    found := search.Dfs(edges, source, target);
    if !found {
      assert search.visited - {} == search.visited;
      ClosedSeparates(edges, search.visited, source, target);
    }
  }

  ghost predicate CycleFound(edges: Graph, taskId: string, newDeps: seq<string>) {
    exists i :: 0 <= i < |newDeps| && Reaches(edges, newDeps[i], taskId)
  }

  method WouldCreateCycle(edges: Graph, taskId: string, newDeps: seq<string>) returns (cycle: bool)
    ensures cycle <==> CycleFound(edges, taskId, newDeps)
  {
    for i := 0 to |newDeps|
      invariant forall k :: 0 <= k < i ==> !Reaches(edges, newDeps[k], taskId)
    {
      if newDeps[i] == taskId {
        ReachesSelf(edges, taskId);
        return true;
      }
      var found := IsReachable(edges, newDeps[i], taskId);
      if found {
        return true;
      }
    }
    return false;
  }

  /** What setTaskDepends then stores: the task's dependencies replaced. */
  function Replaced(edges: Graph, taskId: string, newDeps: seq<string>): Graph {
    edges[taskId := newDeps]
  }

  function Added(edges: Graph, taskId: string, newDeps: seq<string>): Graph {
    edges[taskId := Out(edges, taskId) + newDeps]
  }

  /** On an acyclic graph the check is exact for adding the dependencies... */
  lemma AddingIsExact(edges: Graph, taskId: string, newDeps: seq<string>)
    requires !Cyclic(edges)
    ensures CycleFound(edges, taskId, newDeps) <==> Cyclic(Added(edges, taskId, newDeps))
  {
    var g := Added(edges, taskId, newDeps);
    if CycleFound(edges, taskId, newDeps) {
      var i :| 0 <= i < |newDeps| && Reaches(edges, newDeps[i], taskId);
      ReachingIgnoresOwnEdges(edges, g, taskId, newDeps[i]);
      assert newDeps[i] in Out(g, taskId);
      assert OnCycle(g, taskId);
    }
    if Cyclic(g) {
      NewCycleMeets(g, edges, taskId);
      var m :| m in Out(g, taskId) && Reaches(g, m, taskId);
      ReachingIgnoresOwnEdges(edges, g, taskId, m);
      assert !OnCycle(edges, taskId);
      assert m !in Out(edges, taskId);
      var i :| 0 <= i < |newDeps| && newDeps[i] == m;
    }
  }

  /** ...and, although it searches the graph that still holds the task's old dependencies, exact for
      replacing them, which is what the store does. */
  lemma ReplacingIsExact(edges: Graph, taskId: string, newDeps: seq<string>)
    requires !Cyclic(edges)
    ensures CycleFound(edges, taskId, newDeps) <==> Cyclic(Replaced(edges, taskId, newDeps))
  {
    var g := Replaced(edges, taskId, newDeps);
    if CycleFound(edges, taskId, newDeps) {
      var i :| 0 <= i < |newDeps| && Reaches(edges, newDeps[i], taskId);
      ReachingIgnoresOwnEdges(edges, g, taskId, newDeps[i]);
      assert newDeps[i] in Out(g, taskId);
      assert OnCycle(g, taskId);
    }
    if Cyclic(g) {
      NewCycleMeets(g, edges, taskId);
      var m :| m in Out(g, taskId) && Reaches(g, m, taskId);
      ReachingIgnoresOwnEdges(edges, g, taskId, m);
      var i :| 0 <= i < |newDeps| && newDeps[i] == m;
    }
  }

  /** The stored graph under any sequence of updates: an update is written only if the check passes.
      */
  datatype Update = Update(taskId: string, newDeps: seq<string>)

  ghost function Stored(edges: Graph, updates: seq<Update>): Graph
    decreases |updates|
  {
    if updates == [] then edges
    else
      var u := updates[0];
      Stored(if CycleFound(edges, u.taskId, u.newDeps) then edges else Replaced(edges, u.taskId, u.newDeps), updates[1..])
  }

  /** Whatever updates are asked for, the dependency graph stays acyclic, so the check is exact at
      each of them. */
  lemma {:induction false} StoreStaysAcyclic(edges: Graph, updates: seq<Update>)
    requires !Cyclic(edges)
    ensures !Cyclic(Stored(edges, updates))
    decreases |updates|
  {
    if updates != [] {
      var u := updates[0];
      ReplacingIsExact(edges, u.taskId, u.newDeps);
      StoreStaysAcyclic(if CycleFound(edges, u.taskId, u.newDeps) then edges else Replaced(edges, u.taskId, u.newDeps), updates[1..]);
    }
  }
}
