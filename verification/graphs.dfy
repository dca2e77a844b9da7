/** Dependency graphs: paths, reachability and cycles. These are the meanings against which the two
    depth-first searches of the repository are proved. */
module Graphs {
  /** A graph maps a node to the nodes it depends on. A node that is no key has no dependencies, as
      a missing entry of the Go map has none. */
  type Graph = map<string, seq<string>>

  function Out(g: Graph, n: string): seq<string> {
    if n in g then g[n] else []
  }

  ghost predicate IsPath(g: Graph, p: seq<string>) {
    |p| > 0 && forall i :: 0 <= i < |p| - 1 ==> p[i + 1] in Out(g, p[i])
  }

  ghost predicate Joins(g: Graph, p: seq<string>, a: string, b: string) {
    IsPath(g, p) && p[0] == a && p[|p| - 1] == b
  }

  /** b can be reached from a by following zero or more dependencies. */
  ghost predicate Reaches(g: Graph, a: string, b: string) {
    exists p :: Joins(g, p, a, b)
  }

  /** n can be reached from itself by following one or more dependencies. */
  ghost predicate OnCycle(g: Graph, n: string) {
    exists m :: m in Out(g, n) && Reaches(g, m, n)
  }

  ghost predicate Cyclic(g: Graph) {
    exists n :: OnCycle(g, n)
  }

  /** No dependency leads out of s. */
  ghost predicate Closed(g: Graph, s: set<string>) {
    forall n, m :: n in s && m in Out(g, n) ==> m in s
  }

  lemma ReachesSelf(g: Graph, a: string)
    ensures Reaches(g, a, a)
  {
    assert Joins(g, [a], a, a);
  }

  lemma ReachesStep(g: Graph, a: string, m: string, b: string)
    requires m in Out(g, a) && Reaches(g, m, b)
    ensures Reaches(g, a, b)
  {
    var p :| Joins(g, p, m, b);
    var q := [a] + p;
    forall i | 0 <= i < |q| - 1
      ensures q[i + 1] in Out(g, q[i])
    {
      if i > 0 {
        assert p[i - 1 + 1] in Out(g, p[i - 1]);
      }
    }
    assert Joins(g, q, a, b);
  }

  lemma {:induction false} JoinsTransitive(g: Graph, p: seq<string>, a: string, b: string, c: string)
    requires Joins(g, p, a, b) && Reaches(g, b, c)
    ensures Reaches(g, a, c)
    decreases |p|
  {
    if |p| > 1 {
      var q := p[1..];
      forall i | 0 <= i < |q| - 1
        ensures q[i + 1] in Out(g, q[i])
      {
        assert p[i + 1 + 1] in Out(g, p[i + 1]);
      }
      assert Joins(g, q, p[1], b);
      JoinsTransitive(g, q, p[1], b, c);
      assert p[0 + 1] in Out(g, p[0]);
      ReachesStep(g, a, p[1], c);
    }
  }

  lemma ReachesTransitive(g: Graph, a: string, b: string, c: string)
    requires Reaches(g, a, b) && Reaches(g, b, c)
    ensures Reaches(g, a, c)
  {
    var p :| Joins(g, p, a, b);
    JoinsTransitive(g, p, a, b, c);
  }

  /** The first step of a path that is not trivial. */
  lemma FirstStep(g: Graph, p: seq<string>, a: string, b: string)
    requires Joins(g, p, a, b) && |p| > 1
    ensures p[1] in Out(g, a) && Joins(g, p[1..], p[1], b)
  {
    var q := p[1..];
    forall i | 0 <= i < |q| - 1
      ensures q[i + 1] in Out(g, q[i])
    {
      assert p[i + 1 + 1] in Out(g, p[i + 1]);
    }
    assert p[0 + 1] in Out(g, p[0]);
  }

  lemma {:induction false} PathStaysInClosed(g: Graph, s: set<string>, p: seq<string>, a: string, b: string)
    requires Closed(g, s) && a in s && Joins(g, p, a, b)
    ensures b in s
    decreases |p|
  {
    if |p| > 1 {
      FirstStep(g, p, a, b);
      PathStaysInClosed(g, s, p[1..], p[1], b);
    }
  }

  /** A closed set that holds a but not b separates them. */
  lemma ClosedSeparates(g: Graph, s: set<string>, a: string, b: string)
    requires Closed(g, s) && a in s && b !in s
    ensures !Reaches(g, a, b)
  {
    if Reaches(g, a, b) {
      var p :| Joins(g, p, a, b);
      PathStaysInClosed(g, s, p, a, b);
    }
  }

  /** g without the dependencies of t: a path of g that ends at t needs none of them, because it can
      stop where it first meets t. */
  ghost predicate AgreeBut(g: Graph, h: Graph, t: string) {
    forall n :: n != t ==> Out(g, n) == Out(h, n)
  }

  lemma {:induction false} PathToSurvives(g: Graph, h: Graph, t: string, p: seq<string>, a: string)
    requires AgreeBut(g, h, t) && Joins(g, p, a, t)
    ensures Reaches(h, a, t)
    decreases |p|
  {
    if a == t {
      ReachesSelf(h, t);
    } else {
      FirstStep(g, p, a, t);
      PathToSurvives(g, h, t, p[1..], p[1]);
      ReachesStep(h, a, p[1], t);
    }
  }

  lemma ReachingIgnoresOwnEdges(g: Graph, h: Graph, t: string, a: string)
    requires AgreeBut(g, h, t)
    ensures Reaches(g, a, t) <==> Reaches(h, a, t)
  {
    if Reaches(g, a, t) {
      var p :| Joins(g, p, a, t);
      PathToSurvives(g, h, t, p, a);
    }
    if Reaches(h, a, t) {
      var p :| Joins(h, p, a, t);
      PathToSurvives(h, g, t, p, a);
    }
  }

  /** Either a path avoids t before its end, and so is a path of h, or it passes t. */
  lemma {:induction false} PathAvoidsOrMeets(g: Graph, h: Graph, t: string, p: seq<string>, a: string, b: string)
    requires AgreeBut(g, h, t) && Joins(g, p, a, b)
    ensures Reaches(h, a, b) || (Reaches(g, a, t) && Reaches(g, t, b))
    decreases |p|
  {
    if |p| == 1 {
      ReachesSelf(h, a);
    } else if a == t {
      ReachesSelf(g, t);
    } else {
      FirstStep(g, p, a, b);
      PathAvoidsOrMeets(g, h, t, p[1..], p[1], b);
      if Reaches(h, p[1], b) {
        ReachesStep(h, a, p[1], b);
      } else {
        ReachesStep(g, a, p[1], t);
      }
    }
  }

  /** If changing the dependencies of t makes a cycle, t is on one. */
  lemma NewCycleMeets(g: Graph, h: Graph, t: string)
    requires AgreeBut(g, h, t) && Cyclic(g) && !Cyclic(h)
    ensures OnCycle(g, t)
  {
    var n :| OnCycle(g, n);
    var m :| m in Out(g, n) && Reaches(g, m, n);
    if n != t {
      var p :| Joins(g, p, m, n);
      PathAvoidsOrMeets(g, h, t, p, m, n);
      assert !OnCycle(h, n) && m in Out(h, n);
      assert !Reaches(h, m, n);
      ReachesStep(g, n, m, t);
      ReachesTransitive(g, t, n, t);
      var q :| Joins(g, q, t, n);
      assert |q| > 1;
      FirstStep(g, q, t, n);
      assert Reaches(g, q[1], n);
      ReachesTransitive(g, q[1], n, t);
    }
  }
}
