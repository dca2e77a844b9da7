/** internal/manifest/manifest.go, 382-420: the three-colour search for a cycle among the
    dependencies between siblings. */
module ManifestCycle {
  import opened Graphs

  datatype DependencyKind = OnParent | OnChild | OnTask | UnknownKind

  datatype Dependency = Dependency(kind: DependencyKind, ref: string)

  /** The part of a child that the dependency checks read. */
  datatype Node = Node(key: string, dependencies: seq<Dependency>)

  function ChildRefs(deps: seq<Dependency>): seq<string> {
    if deps == [] then []
    else if deps[0].kind == OnChild then [deps[0].ref] + ChildRefs(deps[1..])
    else ChildRefs(deps[1..])
  }

  lemma {:induction false} ChildRefsAre(deps: seq<Dependency>, m: string)
    ensures m in ChildRefs(deps) <==> Dependency(OnChild, m) in deps
    decreases |deps|
  {
    if deps != [] {
      ChildRefsAre(deps[1..], m);
      assert deps == [deps[0]] + deps[1..];
    }
  }

  /** The sibling graph: each key leads to the siblings it depends on. Of two children with one key
      the last one counts. */
  function SiblingGraph(nodes: seq<Node>): Graph {
    if nodes == [] then map[]
    else
      var n := |nodes| - 1;
      SiblingGraph(nodes[..n])[nodes[n].key := ChildRefs(nodes[n].dependencies)]
  }

  ghost predicate RefsKnown(nodes: seq<Node>) {
    forall i, d :: 0 <= i < |nodes| && d in nodes[i].dependencies && d.kind == OnChild ==> IsKey(nodes, d.ref)
  }

  ghost predicate IsKey(nodes: seq<Node>, k: string) {
    exists i :: 0 <= i < |nodes| && nodes[i].key == k
  }

  lemma {:induction false} GraphKeys(nodes: seq<Node>, k: string)
    ensures k in SiblingGraph(nodes) <==> IsKey(nodes, k)
    decreases |nodes|
  {
    if nodes != [] {
      var n := |nodes| - 1;
      GraphKeys(nodes[..n], k);
      assert forall i :: 0 <= i < n ==> nodes[..n][i] == nodes[i];
    }
  }

  /** keyToIndex says where the dependencies of each key stand. */
  ghost predicate Indexes(nodes: seq<Node>, index: map<string, nat>, g: Graph) {
    && index.Keys == g.Keys
    && forall k :: k in index ==> index[k] < |nodes| && ChildRefs(nodes[index[k]].dependencies) == g[k]
  }

  /** What the search relies on: the index, and references that lead to keys. */
  ghost predicate Describes(nodes: seq<Node>, index: map<string, nat>, g: Graph) {
    && Indexes(nodes, index, g)
    && forall k, m :: k in g && m in g[k] ==> m in g
  }

  lemma RefsStayInside(nodes: seq<Node>, index: map<string, nat>)
    requires Indexes(nodes, index, SiblingGraph(nodes)) && RefsKnown(nodes)
    ensures Describes(nodes, index, SiblingGraph(nodes))
  {
    var g := SiblingGraph(nodes);
    forall k, m | k in g && m in g[k]
      ensures m in g
    {
      ChildRefsAre(nodes[index[k]].dependencies, m);
      assert Dependency(OnChild, m) in nodes[index[k]].dependencies;
      GraphKeys(nodes, m);
    }
  }

  lemma EdgeOf(nodes: seq<Node>, index: map<string, nat>, g: Graph, key: string, i: nat)
    requires Describes(nodes, index, g) && key in index && i < |nodes[index[key]].dependencies|
    requires nodes[index[key]].dependencies[i].kind == OnChild
    ensures nodes[index[key]].dependencies[i].ref in Out(g, key)
    ensures nodes[index[key]].dependencies[i].ref in index
  {
    var d := nodes[index[key]].dependencies[i];
    ChildRefsAre(nodes[index[key]].dependencies, d.ref);
    assert d == Dependency(OnChild, d.ref);
  }

  const VISITING := -1
  const UNVISITED := 0
  const VISITED := 1

  type Colouring = map<string, int>

  function Colour(v: Colouring, k: string): int {
    if k in v then v[k] else UNVISITED
  }

  ghost predicate Done(v: Colouring, k: string) {
    Colour(v, k) == VISITED
  }

  ghost predicate Open(v: Colouring, k: string) {
    Colour(v, k) == VISITING
  }

  /** Finished nodes lead only to finished nodes and none is on a cycle. */
  ghost predicate Settled(g: Graph, v: Colouring) {
    && (forall k :: k in v ==> Done(v, k) || Open(v, k))
    && (forall n, m :: Done(v, n) && m in Out(g, n) ==> Done(v, m))
    && (forall n :: Done(v, n) ==> !OnCycle(g, n))
  }

  /** The search finishes nodes and leaves its stack as it found it. */
  ghost predicate Grows(v: Colouring, v': Colouring) {
    && v.Keys <= v'.Keys
    && (forall k :: Open(v, k) <==> Open(v', k))
    && (forall k :: Done(v, k) ==> Done(v', k))
  }

  lemma GrowsOn(v: Colouring, v': Colouring, v'': Colouring)
    requires Grows(v, v') && Grows(v', v'')
    ensures Grows(v, v'')
    ensures forall deps :: RefsDone(deps, v') ==> RefsDone(deps, v'')
  {}

  ghost predicate RefsDone(deps: seq<Dependency>, v: Colouring) {
    forall d :: d in deps && d.kind == OnChild ==> Done(v, d.ref)
  }

  /** Every node on the stack leads to n. */
  ghost predicate StackLeadsTo(g: Graph, v: Colouring, n: string) {
    forall k :: Open(v, k) ==> Reaches(g, k, n)
  }

  lemma OpenNode(g: Graph, v: Colouring, n: string)
    requires Settled(g, v) && n !in v && StackLeadsTo(g, v, n)
    ensures Settled(g, v[n := VISITING]) && StackLeadsTo(g, v[n := VISITING], n)
  {
    var v' := v[n := VISITING];
    ReachesSelf(g, n);
    assert forall k :: Done(v, k) <==> Done(v', k);
    assert forall k :: Open(v', k) ==> k == n || Open(v, k);
  }

  lemma DescendTo(g: Graph, v: Colouring, n: string, m: string)
    requires StackLeadsTo(g, v, n) && m in Out(g, n)
    ensures StackLeadsTo(g, v, m)
  {
    ReachesSelf(g, m);
    ReachesStep(g, n, m, m);
    forall k | Open(v, k)
      ensures Reaches(g, k, m)
    {
      ReachesTransitive(g, k, n, m);
    }
  }

  lemma Shrinks(keys: set<string>, v: Colouring, v': Colouring, n: string)
    requires n in keys && n !in v && Grows(v[n := VISITING], v')
    ensures keys - v'.Keys < keys - v.Keys
  {
    assert n in v[n := VISITING].Keys;
    assert v.Keys <= v[n := VISITING].Keys;
    assert n !in keys - v'.Keys;
  }

  lemma StackStays(g: Graph, v: Colouring, v': Colouring, n: string)
    requires Grows(v, v') && StackLeadsTo(g, v, n)
    ensures StackLeadsTo(g, v', n)
  {}

  /** A dependency on a node of the stack closes a cycle. */
  lemma BackEdge(g: Graph, v: Colouring, n: string, m: string)
    requires StackLeadsTo(g, v, n) && m in Out(g, n) && Open(v, m)
    ensures Cyclic(g)
  {
    assert OnCycle(g, n);
  }

  /** A node whose dependencies are all finished is finished itself. */
  lemma CloseNode(g: Graph, v0: Colouring, v: Colouring, n: string)
    requires Settled(g, v) && n !in v0 && Grows(v0[n := VISITING], v)
    requires forall m :: m in Out(g, n) ==> Done(v, m)
    ensures Settled(g, v[n := VISITED]) && Grows(v0, v[n := VISITED])
  {
    var v' := v[n := VISITED];
    assert Open(v0[n := VISITING], n);
    var s := set k | k in v && Done(v, k);
    forall x, m | x in s && m in Out(g, x)
      ensures m in s
    {
      assert Done(v, x) && Done(v, m);
    }
    forall m | m in Out(g, n)
      ensures !Reaches(g, m, n)
    {
      assert Done(v, m);
      ClosedSeparates(g, s, m, n);
    }
    assert forall k :: Done(v', k) <==> k == n || Done(v, k);
    assert forall k :: k != n ==> (Open(v0[n := VISITING], k) <==> Open(v0, k));
    assert forall k :: Done(v0, k) ==> Done(v0[n := VISITING], k);
  }

  lemma DependenciesDone(nodes: seq<Node>, index: map<string, nat>, g: Graph, v: Colouring, key: string)
    requires Describes(nodes, index, g) && key in index
    requires RefsDone(nodes[index[key]].dependencies, v)
    ensures forall m :: m in Out(g, key) ==> Done(v, m)
  {
    forall m | m in Out(g, key)
      ensures Done(v, m)
    {
      ChildRefsAre(nodes[index[key]].dependencies, m);
      assert Dependency(OnChild, m) in nodes[index[key]].dependencies;
    }
  }

  /** The visited map of one check, -1 for a node on the search's stack and 1 for a node it has
      finished with. */
  class Check {
    var visited: Colouring

    constructor ()
      ensures visited == map[]
    {
      visited := map[];
    }

    method HasCycleDfs(nodeKey: string, nodes: seq<Node>, keyToIndex: map<string, nat>, ghost g: Graph)
      returns (cycle: bool)
      requires Describes(nodes, keyToIndex, g)
      requires nodeKey in keyToIndex && nodeKey !in visited
      requires Settled(g, visited) && StackLeadsTo(g, visited, nodeKey)
      modifies this
      ensures cycle ==> Cyclic(g)
      ensures !cycle ==> Settled(g, visited) && Grows(old(visited), visited) && Done(visited, nodeKey)
      decreases keyToIndex.Keys - visited.Keys, 1
    {
      OpenNode(g, visited, nodeKey);
      visited := visited[nodeKey := VISITING];
      ghost var entered := visited;
      var dependencies := nodes[keyToIndex[nodeKey]].dependencies;
      for i := 0 to |dependencies|
        invariant Settled(g, visited) && Grows(entered, visited)
        invariant RefsDone(dependencies[..i], visited)
      {
        ghost var before := visited;
        StackStays(g, entered, visited, nodeKey);
        Shrinks(keyToIndex.Keys, old(visited), visited, nodeKey);
        cycle := Follow(nodeKey, i, nodes, keyToIndex, g);
        if cycle {
          return;
        }
        GrowsOn(entered, before, visited);
        assert dependencies[..i + 1] == dependencies[..i] + [dependencies[i]];
      }
      assert dependencies[..|dependencies|] == dependencies;
      DependenciesDone(nodes, keyToIndex, g, visited, nodeKey);
      CloseNode(g, old(visited), visited, nodeKey);
      visited := visited[nodeKey := VISITED];
      return false;
    }

    /** One turn of the loop of hasCycleDFS. */
    method Follow(nodeKey: string, i: nat, nodes: seq<Node>, keyToIndex: map<string, nat>, ghost g: Graph)
      returns (cycle: bool)
      requires Describes(nodes, keyToIndex, g)
      requires nodeKey in keyToIndex && i < |nodes[keyToIndex[nodeKey]].dependencies|
      requires Settled(g, visited) && StackLeadsTo(g, visited, nodeKey)
      modifies this
      ensures cycle ==> Cyclic(g)
      ensures !cycle ==> Settled(g, visited) && Grows(old(visited), visited)
      ensures !cycle ==> RefsDone([nodes[keyToIndex[nodeKey]].dependencies[i]], visited)
      decreases keyToIndex.Keys - visited.Keys, 2
    {
      var dep := nodes[keyToIndex[nodeKey]].dependencies[i];
      if dep.kind != OnChild {
        return false;
      }
      EdgeOf(nodes, keyToIndex, g, nodeKey, i);
      if Colour(visited, dep.ref) == VISITING {
        BackEdge(g, visited, nodeKey, dep.ref);
        return true;
      }
      if Colour(visited, dep.ref) == UNVISITED {
        DescendTo(g, visited, nodeKey, dep.ref);
        cycle := HasCycleDfs(dep.ref, nodes, keyToIndex, g);
        return;
      }
      return false;
    }
  }

  method BuildIndex(nodes: seq<Node>) returns (keyToIndex: map<string, nat>)
    ensures Indexes(nodes, keyToIndex, SiblingGraph(nodes))
  {
    keyToIndex := map[];
    for i := 0 to |nodes|
      invariant Indexes(nodes, keyToIndex, SiblingGraph(nodes[..i]))
    {
      keyToIndex := keyToIndex[nodes[i].key := i];
      assert nodes[..i + 1][..i] == nodes[..i];
    }
    assert nodes[..|nodes|] == nodes;
  }

  ghost predicate StackEmpty(v: Colouring) {
    forall k :: !Open(v, k)
  }

  lemma StartEmpty(g: Graph)
    ensures Settled(g, map[]) && StackEmpty(map[])
  {}

  lemma EmptyLeadsAnywhere(g: Graph, v: Colouring, n: string)
    requires StackEmpty(v)
    ensures StackLeadsTo(g, v, n)
  {}

  lemma NotOpenIsDone(g: Graph, v: Colouring, key: string)
    requires Settled(g, v) && StackEmpty(v) && Colour(v, key) != UNVISITED
    ensures Done(v, key)
  {}

  lemma EmptyStays(v: Colouring, v': Colouring)
    requires StackEmpty(v) && Grows(v, v')
    ensures StackEmpty(v')
  {}

  /** One turn of the outer loop. */
  method Visit(check: Check, key: string, nodes: seq<Node>, keyToIndex: map<string, nat>, ghost g: Graph) returns (cycle: bool)
    requires Describes(nodes, keyToIndex, g) && key in keyToIndex
    requires Settled(g, check.visited) && StackEmpty(check.visited)
    modifies check
    ensures cycle ==> Cyclic(g)
    ensures !cycle ==> Settled(g, check.visited) && StackEmpty(check.visited)
    ensures !cycle ==> Grows(old(check.visited), check.visited) && Done(check.visited, key)
  {
    if Colour(check.visited, key) == UNVISITED {
      EmptyLeadsAnywhere(g, check.visited, key);
      cycle := check.HasCycleDfs(key, nodes, keyToIndex, g);
      if !cycle {
        EmptyStays(old(check.visited), check.visited);
      }
    } else {
      NotOpenIsDone(g, check.visited, key);
      StaysTheSame(check.visited);
      cycle := false;
    }
  }

  /** The outer loop: a search from every child not visited yet. Without a cycle it finishes every
      child. */
  method Sweep(nodes: seq<Node>, keyToIndex: map<string, nat>, ghost g: Graph) returns (cycle: bool, ghost v: Colouring)
    requires Describes(nodes, keyToIndex, g) && AllIndexed(nodes, keyToIndex)
    ensures cycle ==> Cyclic(g)
    ensures !cycle ==> Settled(g, v) && AllDone(nodes, v)
  {
    var check := new Check();
    v := map[];
    StartEmpty(g);
    for i := 0 to |nodes|
      invariant Settled(g, check.visited) && StackEmpty(check.visited)
      invariant AllDone(nodes[..i], check.visited)
    {
      ghost var before := check.visited;
      cycle := Visit(check, nodes[i].key, nodes, keyToIndex, g);
      if cycle {
        return;
      }
      OneMoreDone(nodes, i, before, check.visited);
    }
    assert nodes[..|nodes|] == nodes;
    return false, check.visited;
  }

  ghost predicate AllIndexed(nodes: seq<Node>, index: map<string, nat>) {
    forall i :: 0 <= i < |nodes| ==> nodes[i].key in index
  }

  ghost predicate AllDone(nodes: seq<Node>, v: Colouring) {
    forall n :: n in nodes ==> Done(v, n.key)
  }

  lemma StaysTheSame(v: Colouring)
    ensures Grows(v, v)
  {}

  lemma OneMoreDone(nodes: seq<Node>, i: nat, v: Colouring, v': Colouring)
    requires i < |nodes| && AllDone(nodes[..i], v) && Grows(v, v') && Done(v', nodes[i].key)
    ensures AllDone(nodes[..i + 1], v')
  {
    assert nodes[..i + 1] == nodes[..i] + [nodes[i]];
  }

  /** The loop of checkDependencies: it reports a cycle exactly when the sibling graph has one, for
      any number of children. */
  method CheckCycles(nodes: seq<Node>) returns (cycle: bool)
    requires RefsKnown(nodes)
    ensures cycle <==> Cyclic(SiblingGraph(nodes))
  {
    var keyToIndex := BuildIndex(nodes);
    RefsStayInside(nodes, keyToIndex);
    KeysIndexed(nodes, keyToIndex);
    ghost var v;
    cycle, v := Sweep(nodes, keyToIndex, SiblingGraph(nodes));
    if !cycle {
      AllDoneIsAcyclic(nodes, v);
    }
  }

  lemma KeysIndexed(nodes: seq<Node>, index: map<string, nat>)
    requires Indexes(nodes, index, SiblingGraph(nodes))
    ensures AllIndexed(nodes, index)
  {
    forall i | 0 <= i < |nodes|
      ensures nodes[i].key in index
    {
      GraphKeys(nodes, nodes[i].key);
    }
  }

  lemma AllDoneIsAcyclic(nodes: seq<Node>, v: Colouring)
    requires Settled(SiblingGraph(nodes), v) && AllDone(nodes, v)
    ensures !Cyclic(SiblingGraph(nodes))
  {
    var g := SiblingGraph(nodes);
    forall n
      ensures !OnCycle(g, n)
    {
      if n in g {
        GraphKeys(nodes, n);
        var i :| 0 <= i < |nodes| && nodes[i].key == n;
        assert nodes[i] in nodes;
      }
    }
  }
}
