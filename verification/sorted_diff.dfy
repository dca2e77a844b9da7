/** internal/evaluation/muse.go, 479-496: the difference of two sorted lists, found in one pass. */
module SortedDiff {
  import opened Ordering

  ghost predicate AllBefore(s: seq<string>, t: seq<string>) {
    forall x, y :: x in s && y in t ==> Before(x, y)
  }

  ghost predicate Apart(s: seq<string>, t: seq<string>) {
    forall x :: x in s ==> x !in t
  }

  /** What comes before the head of a sorted list comes before all of it. */
  lemma BeforeHeadIsBeforeAll(x: string, t: seq<string>, i: nat)
    requires SortedBy(t, Before) && (i < |t| ==> Before(x, t[i]))
    ensures i <= |t| ==> forall y :: y in t[i..] ==> Before(x, y)
  {
    BeforeIsStrictOrder();
    if i <= |t| {
      forall y | y in t[i..]
        ensures Before(x, y)
      {
        var k :| i <= k < |t| && t[k] == y;
        assert k > i ==> !Before(t[k], t[i]);
      }
    }
  }

  /** What one pass has established with want[..i] and have[..j] behind it. */
  ghost predicate Diffed(want: seq<string>, i: nat, have: seq<string>, j: nat, added: seq<string>, removed: seq<string>, common: multiset<string>) {
    && i <= |want| && j <= |have|
    && multiset(removed) + common == multiset(want[..i])
    && multiset(added) + common == multiset(have[..j])
    && Apart(added, removed)
    && AllBefore(removed, have[j..]) && AllBefore(added, want[i..])
  }

  lemma DiffStarts(want: seq<string>, have: seq<string>)
    ensures Diffed(want, 0, have, 0, [], [], multiset{})
  {
  }

  lemma Take(s: seq<string>, i: nat)
    requires i < |s|
    ensures multiset(s[..i + 1]) == multiset(s[..i]) + multiset{s[i]}
    ensures forall x :: x in s[i + 1..] ==> x in s[i..]
    ensures s[i] in s[i..]
  {
    assert s[..i + 1] == s[..i] + [s[i]];
  }

  lemma AddOne(want: seq<string>, i: nat, have: seq<string>, j: nat, added: seq<string>, removed: seq<string>, common: multiset<string>)
    requires SortedBy(want, Before) && Diffed(want, i, have, j, added, removed, common)
    requires j < |have| && (i < |want| ==> Before(have[j], want[i]))
    ensures Diffed(want, i, have, j + 1, added + [have[j]], removed, common)
  {
    BeforeIsStrictOrder();
    Take(have, j);
    BeforeHeadIsBeforeAll(have[j], want, i);
  }

  lemma RemoveWant(want: seq<string>, i: nat, have: seq<string>, j: nat, added: seq<string>, removed: seq<string>, common: multiset<string>)
    requires SortedBy(have, Before) && Diffed(want, i, have, j, added, removed, common)
    requires i < |want| && (j < |have| ==> Before(want[i], have[j]))
    ensures Diffed(want, i + 1, have, j, added, removed + [want[i]], common)
  {
    BeforeIsStrictOrder();
    Take(want, i);
    BeforeHeadIsBeforeAll(want[i], have, j);
  }

  lemma SkipBoth(want: seq<string>, i: nat, have: seq<string>, j: nat, added: seq<string>, removed: seq<string>, common: multiset<string>)
    requires Diffed(want, i, have, j, added, removed, common)
    requires i < |want| && j < |have| && !Before(want[i], have[j]) && !Before(have[j], want[i])
    ensures Diffed(want, i + 1, have, j + 1, added, removed, common + multiset{want[i]})
  {
    BeforeTotal(want[i], have[j]);
    Take(want, i);
    Take(have, j);
  }

  /** The lists hold exactly what is only in have and what is only in want, with repetition counted.
      */
  method DiffSorted(want: seq<string>, have: seq<string>) returns (added: seq<string>, removed: seq<string>)
    requires SortedBy(want, Before) && SortedBy(have, Before)
    ensures multiset(added) == multiset(have) - multiset(want)
    ensures multiset(removed) == multiset(want) - multiset(have)
  {
    var i, j := 0, 0;
    added, removed := [], [];
    ghost var common: multiset<string> := multiset{};
    DiffStarts(want, have);
    while i < |want| || j < |have|
      invariant Diffed(want, i, have, j, added, removed, common)
      decreases |want| - i + |have| - j
    {
      i, j, added, removed, common := Turn(want, i, have, j, added, removed, common);
    }
    DiffEnds(want, have, added, removed, common);
  }

  /** One turn of the loop. */
  method Turn(want: seq<string>, i: nat, have: seq<string>, j: nat, added: seq<string>, removed: seq<string>, ghost common: multiset<string>)
    returns (i': nat, j': nat, added': seq<string>, removed': seq<string>, ghost common': multiset<string>)
    requires SortedBy(want, Before) && SortedBy(have, Before)
    requires Diffed(want, i, have, j, added, removed, common) && (i < |want| || j < |have|)
    ensures Diffed(want, i', have, j', added', removed', common')
    ensures i <= i' && j <= j' && i + j < i' + j'
  {
    i', j', added', removed', common' := i, j, added, removed, common;
    if j == |have| || (i < |want| && Before(want[i], have[j])) {
      RemoveWant(want, i, have, j, added, removed, common);
      i', removed' := i + 1, removed + [want[i]];
    } else if i == |want| || Before(have[j], want[i]) {
      AddOne(want, i, have, j, added, removed, common);
      j', added' := j + 1, added + [have[j]];
    } else {
      SkipBoth(want, i, have, j, added, removed, common);
      i', j', common' := i + 1, j + 1, common + multiset{want[i]};
    }
  }

  lemma DiffEnds(want: seq<string>, have: seq<string>, added: seq<string>, removed: seq<string>, common: multiset<string>)
    requires Diffed(want, |want|, have, |have|, added, removed, common)
    ensures multiset(added) == multiset(have) - multiset(want)
    ensures multiset(removed) == multiset(want) - multiset(have)
  {
    assert want[..|want|] == want && have[..|have|] == have;
    DifferenceOf(multiset(want), multiset(have), added, removed, common);
  }

  lemma DifferenceOf(want: multiset<string>, have: multiset<string>, added: seq<string>, removed: seq<string>, common: multiset<string>)
    requires want == multiset(removed) + common && have == multiset(added) + common && Apart(added, removed)
    ensures multiset(added) == have - want && multiset(removed) == want - have
  {
    forall x
      ensures multiset(added)[x] == (have - want)[x] && multiset(removed)[x] == (want - have)[x]
    {
      assert x in added <==> x in multiset(added);
      assert x in removed <==> x in multiset(removed);
    }
  }
}
