/** internal/evaluation/redact.go, 20-45, 58-63 and 72-84: the redactor built from the secrets of a
    run. */
module Redactors {
  import opened Ordering
  import opened Redact

  /** The order of the needles: longest first, then alphabetically. */
  predicate Longer(a: string, b: string) {
    |a| > |b| || (|a| == |b| && Before(a, b))
  }

  lemma LongerIsStrictOrder()
    ensures StrictOrder(Longer)
  {
    BeforeIsStrictOrder();
  }

  /** n is a secret or one of its two JSON-escaped forms. */
  ghost predicate IsForm(n: string, secrets: seq<string>, escape: (string, bool) -> string) {
    exists i :: 0 <= i < |secrets| && n in Forms(secrets[i], escape)
  }

  function Forms(s: string, escape: (string, bool) -> string): seq<string> {
    [s, escape(s, true), escape(s, false)]
  }

  /** The last k characters could be the beginning of a secret cut short. */
  ghost predicate PartialTail(s: string, k: int, needles: seq<string>) {
    0 < k <= |s| && exists n :: n in needles && |n| > k && s[|s| - k..] <= n
  }

  class Redactor {
    var needles: seq<string>
    var longest: nat

    ghost predicate Valid()
      reads this
    {
      && "" !in needles && Distinct(needles) && SortedBy(needles, Longer)
      && longest == (if needles == [] then 0 else |needles[0]|)
    }

    constructor (secrets: seq<string>, escape: (string, bool) -> string)
      ensures Valid()
      ensures forall n :: n in needles <==> n != "" && IsForm(n, secrets, escape)
    {
      needles, longest := [], 0;
      new;
      var seen: set<string> := {};
      for i := 0 to |secrets|
        invariant seen == set n | n in needles
        invariant "" !in needles && Distinct(needles) && longest == 0
        invariant forall n :: n in needles <==> n != "" && IsForm(n, secrets[..i], escape)
      {
        var forms := Forms(secrets[i], escape);
        ghost var before := needles;
        for j := 0 to |forms|
          invariant seen == set n | n in needles
          invariant "" !in needles && Distinct(needles) && longest == 0
          invariant forall n :: n in needles <==> n in before || (n != "" && n in forms[..j])
        {
          assert forms[..j + 1] == forms[..j] + [forms[j]];
          if forms[j] != "" && forms[j] !in seen {
            seen := seen + {forms[j]};
            needles := needles + [forms[j]];
          }
        }
        FormsExtend(secrets, i, escape);
        assert forms[..|forms|] == forms;
      }
      assert secrets[..|secrets|] == secrets;
      SortKeeps(needles);
      needles := SortBy(needles, Longer);
      if |needles| > 0 {
        longest := |needles[0]|;
      }
    }

    method Str(s: string) returns (r: string)
      requires Valid()
      ensures r == Scrub(s, needles)
    {
      r := s;
      for i := 0 to |needles|
        invariant Scrub(r, needles[i..]) == Scrub(s, needles)
      {
        assert needles[i] in needles && needles[i..][0] == needles[i] && needles[i..][1..] == needles[i + 1..];
        r := ReplaceAll(r, needles[i]);
      }
    }

    /** The longest tail that could be a secret cut short is dropped, and nothing else. */
    method DropPartialTail(s: string) returns (r: string)
      requires Valid()
      ensures r <= s
      ensures r == s || PartialTail(s, |s| - |r|, needles)
      ensures forall k :: k > |s| - |r| ==> !PartialTail(s, k, needles)
    {
      LongestIsFirst(needles);
      var k := if |s| < longest - 1 then |s| else longest - 1;
      while k > 0
        invariant k <= |s|
        invariant forall j :: j > k && j > 0 ==> !PartialTail(s, j, needles)
      {
        var tail := s[|s| - k..];
        for i := 0 to |needles|
          invariant forall l :: 0 <= l < i ==> !(|needles[l]| > k && tail <= needles[l])
        {
          if |needles[i]| > k && tail <= needles[i] {
            assert needles[i] in needles && PartialTail(s, k, needles);
            return s[..|s| - k];
          }
        }
        k := k - 1;
      }
      return s;
    }
  }

  lemma FormsExtend(secrets: seq<string>, i: nat, escape: (string, bool) -> string)
    requires i < |secrets|
    ensures forall n :: IsForm(n, secrets[..i + 1], escape) <==> IsForm(n, secrets[..i], escape) || n in Forms(secrets[i], escape)
  {
    var before, after := secrets[..i], secrets[..i + 1];
    assert after[i] == secrets[i];
    forall n
      ensures IsForm(n, after, escape) <==> IsForm(n, before, escape) || n in Forms(secrets[i], escape)
    {
      if IsForm(n, before, escape) {
        var j :| 0 <= j < |before| && n in Forms(before[j], escape);
        assert after[j] == before[j];
      }
      if n in Forms(secrets[i], escape) {
        assert n in Forms(after[i], escape);
      }
      if IsForm(n, after, escape) {
        var j :| 0 <= j < |after| && n in Forms(after[j], escape);
        if j < i {
          assert before[j] == after[j];
        }
      }
    }
  }

  lemma SortKeeps(s: seq<string>)
    requires Distinct(s)
    ensures var r := SortBy(s, Longer); Distinct(r) && SortedBy(r, Longer) && forall x :: x in r <==> x in s
  {
    LongerIsStrictOrder();
    StrictOrders(Longer, s);
    SortSorts(s, Longer);
    SameBag(SortBy(s, Longer), s);
    SameBagDistinct(s, SortBy(s, Longer));
  }

  lemma LongestIsFirst(needles: seq<string>)
    requires SortedBy(needles, Longer)
    ensures forall n :: n in needles ==> |n| <= |needles[0]|
  {
    forall n | n in needles
      ensures |n| <= |needles[0]|
    {
      var i :| 0 <= i < |needles| && needles[i] == n;
      assert i > 0 ==> !Longer(needles[i], needles[0]);
    }
  }

  /** A capture that stops inside a secret keeps nothing of that secret. */
  lemma CutSecretIsDropped(x: string, p: string, n: string, r: string, needles: seq<string>)
    requires n in needles && p != "" && p <= n && |p| < |n|
    requires r <= x + p && forall k :: k > |x + p| - |r| ==> !PartialTail(x + p, k, needles)
    ensures r <= x
  {
    var s := x + p;
    assert s[|s| - |p|..] == p;
    assert PartialTail(s, |p|, needles);
    assert r == s[..|r|] == x[..|r|];
  }

  lemma LongerIsNotInside(q: string, n: string)
    requires |q| >= |n|
    ensures Occurs(q, n) ==> q == n
  {
    if Occurs(q, n) {
      var i :| OccursAt(q, n, i);
      assert n[0..|n|] == n;
    }
  }

  /** Longest first, a secret goes as a whole even if it contains others: alone it becomes exactly
      the marker. */
  lemma {:induction false} SecretBecomesMarker(n: string, needles: seq<string>)
    requires "" !in needles && AllClear(needles) && SortedBy(needles, Longer) && n in needles
    ensures Scrub(n, needles) == MARKER
    decreases |needles|
  {
    var q, rest := needles[0], needles[1..];
    assert q in needles;
    if q == n {
      assert n[|n|..] == "" && ReplaceAll("", n) == "";
      assert ReplaceAll(n, n) == MARKER + "" == MARKER;
      forall m | m in rest
        ensures !Occurs(m, MARKER)
      {
        assert m in needles && Clear(m);
      }
      FreeIsUnchanged(MARKER, rest);
    } else {
      LongestIsFirst(needles);
      LongerIsNotInside(q, n);
      AbsentIsUnchanged(n, q);
      SecretBecomesMarker(n, rest);
    }
  }
}
