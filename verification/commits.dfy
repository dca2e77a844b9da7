/** The commit graph. Git names a commit by the hash of its content and of its parents' names, so a
    commit is modelled as the value it denotes: its own content (a number) and its parents. Two
    commits are then equal exactly when their whole histories are, and a commit never changes. */
module Commits {
  datatype Commit = Commit(content: nat, parents: seq<Commit>)

  /** `git merge-base --is-ancestor a d`: a commit is its own ancestor. */
  predicate IsAncestor(a: Commit, d: Commit)
    decreases d
  {
    a == d || exists i :: 0 <= i < |d.parents| && IsAncestor(a, d.parents[i])
  }

  /** The merge of `theirs` into `ours`, in git's parent order. */
  function Merge(content: nat, ours: Commit, theirs: Commit): Commit {
    Commit(content, [ours, theirs])
  }

  lemma {:induction false} AncestorTransitive(a: Commit, b: Commit, c: Commit)
    requires IsAncestor(a, b) && IsAncestor(b, c)
    ensures IsAncestor(a, c)
    decreases c
  {
    if b != c {
      var i :| 0 <= i < |c.parents| && IsAncestor(b, c.parents[i]);
      AncestorTransitive(a, b, c.parents[i]);
    }
  }

  lemma MergeContainsBoth(content: nat, ours: Commit, theirs: Commit)
    ensures IsAncestor(ours, Merge(content, ours, theirs))
    ensures IsAncestor(theirs, Merge(content, ours, theirs))
  {
    var m := Merge(content, ours, theirs);
    assert IsAncestor(ours, m.parents[0]);
    assert IsAncestor(theirs, m.parents[1]);
  }

  function Height(c: Commit): nat
    decreases c, 0
  {
    1 + MaxHeight(c.parents)
  }

  function MaxHeight(cs: seq<Commit>): nat
    decreases cs
  {
    if cs == [] then 0
    else if Height(cs[0]) > MaxHeight(cs[1..]) then Height(cs[0]) else MaxHeight(cs[1..])
  }

  lemma {:induction false} MaxHeightBounds(cs: seq<Commit>, i: nat)
    requires i < |cs|
    ensures Height(cs[i]) <= MaxHeight(cs)
  {
    if i > 0 {
      MaxHeightBounds(cs[1..], i - 1);
    }
  }

  lemma {:induction false} AncestorIsLower(a: Commit, d: Commit)
    requires IsAncestor(a, d)
    ensures a == d || Height(a) < Height(d)
    decreases d
  {
    if a != d {
      var i :| 0 <= i < |d.parents| && IsAncestor(a, d.parents[i]);
      AncestorIsLower(a, d.parents[i]);
      MaxHeightBounds(d.parents, i);
    }
  }

  /** A branch that only moves to descendants never comes back to a commit it left. */
  lemma AncestorAntisymmetric(a: Commit, b: Commit)
    requires IsAncestor(a, b) && IsAncestor(b, a)
    ensures a == b
  {
    AncestorIsLower(a, b);
    AncestorIsLower(b, a);
  }
}
