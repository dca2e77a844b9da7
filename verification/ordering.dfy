/** Sorting, as sort.Slice and sort.Strings do it: for a strict total order the sorted arrangement
    is unique, so any correct sort gives the same result. */
module Ordering {
  /** lt orders the members of s strictly and totally. */
  ghost predicate Orders<T(!new)>(lt: (T, T) -> bool, s: seq<T>) {
    && (forall x :: x in s ==> !lt(x, x))
    && (forall x, y, z :: x in s && y in s && z in s && lt(x, y) && lt(y, z) ==> lt(x, z))
    && (forall x, y :: x in s && y in s ==> lt(x, y) || lt(y, x) || x == y)
  }

  ghost predicate StrictOrder<T(!new)>(lt: (T, T) -> bool) {
    && (forall x :: !lt(x, x))
    && (forall x, y, z :: lt(x, y) && lt(y, z) ==> lt(x, z))
    && (forall x, y :: lt(x, y) || lt(y, x) || x == y)
  }

  lemma StrictOrders<T(!new)>(lt: (T, T) -> bool, s: seq<T>)
    requires StrictOrder(lt)
    ensures Orders(lt, s)
  {}

  lemma OrdersFewer<T(!new)>(lt: (T, T) -> bool, s: seq<T>, t: seq<T>)
    requires Orders(lt, s) && forall x :: x in t ==> x in s
    ensures Orders(lt, t)
  {}

  /** lt orders the members of s up to ties. */
  ghost predicate WeaklyOrders<T(!new)>(lt: (T, T) -> bool, s: seq<T>) {
    && (forall x, y :: x in s && y in s && lt(x, y) ==> !lt(y, x))
    && (forall x, y, z :: x in s && y in s && z in s && !lt(x, y) && !lt(y, z) ==> !lt(x, z))
  }

  lemma WeaklyOrdersFewer<T(!new)>(lt: (T, T) -> bool, s: seq<T>, t: seq<T>)
    requires WeaklyOrders(lt, s) && forall x :: x in t ==> x in s
    ensures WeaklyOrders(lt, t)
  {}

  lemma StrictIsWeak<T(!new)>(lt: (T, T) -> bool, s: seq<T>)
    requires Orders(lt, s)
    ensures WeaklyOrders(lt, s)
  {
    forall x, y, z | x in s && y in s && z in s && !lt(x, y) && !lt(y, z)
      ensures !lt(x, z)
    {
      assert x == y || lt(y, x);
      assert y == z || lt(z, y);
    }
  }

  ghost predicate SortedBy<T>(s: seq<T>, lt: (T, T) -> bool) {
    forall i, j :: 0 <= i < j < |s| ==> !lt(s[j], s[i])
  }

  function Insert<T(==)>(x: T, s: seq<T>, lt: (T, T) -> bool): (r: seq<T>)
    ensures multiset(r) == multiset(s) + multiset{x}
  {
    if s == [] then [x]
    else if lt(s[0], x) then
      assert s == [s[0]] + s[1..];
      [s[0]] + Insert(x, s[1..], lt)
    else [x] + s
  }

  function SortBy<T(==)>(s: seq<T>, lt: (T, T) -> bool): (r: seq<T>)
    ensures multiset(r) == multiset(s)
  {
    if s == [] then []
    else
      assert s == [s[0]] + s[1..];
      Insert(s[0], SortBy(s[1..], lt), lt)
  }

  lemma SameBag<T>(r: seq<T>, s: seq<T>)
    requires multiset(r) == multiset(s)
    ensures |r| == |s|
    ensures forall x :: x in r <==> x in s
  {
    assert |multiset(r)| == |r| && |multiset(s)| == |s|;
    forall x
      ensures x in r <==> x in s
    {
      assert x in r <==> x in multiset(r);
      assert x in s <==> x in multiset(s);
    }
  }

  ghost predicate NoneBefore<T>(s: seq<T>, x: T, lt: (T, T) -> bool) {
    forall j :: 0 <= j < |s| ==> !lt(s[j], x)
  }

  lemma PrependSorts<T>(x: T, s: seq<T>, lt: (T, T) -> bool)
    requires SortedBy(s, lt) && NoneBefore(s, x, lt)
    ensures SortedBy([x] + s, lt)
  {}

  /** Nothing in a sorted sequence comes before an x that its head does not precede. */
  lemma HeadBounds<T(!new)>(x: T, s: seq<T>, lt: (T, T) -> bool, j: nat)
    requires WeaklyOrders(lt, [x] + s) && SortedBy(s, lt) && j < |s| && !lt(s[0], x)
    ensures !lt(s[j], x)
  {
    var all := [x] + s;
    assert x in all && s[0] in all && s[j] in all;
    assert j > 0 ==> !lt(s[j], s[0]);
  }

  lemma {:induction false} InsertSorts<T(!new)>(x: T, s: seq<T>, lt: (T, T) -> bool)
    requires WeaklyOrders(lt, [x] + s) && SortedBy(s, lt)
    ensures SortedBy(Insert(x, s, lt), lt)
    decreases |s|
  {
    if s != [] && lt(s[0], x) {
      WeaklyOrdersFewer(lt, [x] + s, [x] + s[1..]);
      InsertSorts(x, s[1..], lt);
      InsertBounds(x, s, lt);
      PrependSorts(s[0], Insert(x, s[1..], lt), lt);
    } else if s != [] {
      forall j | 0 <= j < |s|
        ensures !lt(s[j], x)
      {
        HeadBounds(x, s, lt, j);
      }
      PrependSorts(x, s, lt);
    }
  }

  lemma InsertBounds<T(!new)>(x: T, s: seq<T>, lt: (T, T) -> bool)
    requires WeaklyOrders(lt, [x] + s) && SortedBy(s, lt) && s != [] && lt(s[0], x)
    ensures NoneBefore(Insert(x, s[1..], lt), s[0], lt)
  {
    var r := Insert(x, s[1..], lt);
    SameBag(r, [x] + s[1..]);
    forall j | 0 <= j < |r|
      ensures !lt(r[j], s[0])
    {
      assert r[j] in [x] + s[1..];
      assert s[0] in [x] + s && x in [x] + s;
      if r[j] != x {
        var k :| 0 <= k < |s[1..]| && s[1..][k] == r[j];
        assert !lt(s[1 + k], s[0]);
      }
    }
  }

  lemma {:induction false} SortSortsWeakly<T(!new)>(s: seq<T>, lt: (T, T) -> bool)
    requires WeaklyOrders(lt, s)
    ensures SortedBy(SortBy(s, lt), lt)
    decreases |s|
  {
    if s != [] {
      var rest := SortBy(s[1..], lt);
      WeaklyOrdersFewer(lt, s, s[1..]);
      SortSortsWeakly(s[1..], lt);
      SameBag(rest, s[1..]);
      WeaklyOrdersFewer(lt, s, [s[0]] + rest);
      InsertSorts(s[0], rest, lt);
    }
  }

  lemma SortSorts<T(!new)>(s: seq<T>, lt: (T, T) -> bool)
    requires Orders(lt, s)
    ensures SortedBy(SortBy(s, lt), lt)
  {
    StrictIsWeak(lt, s);
    SortSortsWeakly(s, lt);
  }

  lemma SameHead<T(!new)>(s: seq<T>, t: seq<T>, lt: (T, T) -> bool)
    requires Orders(lt, s) && SortedBy(s, lt) && SortedBy(t, lt)
    requires multiset(s) == multiset(t) && s != [] && t != []
    ensures s[0] == t[0]
  {
    SameBag(s, t);
    assert s[0] in s && t[0] in t;
    var i :| 0 <= i < |t| && t[i] == s[0];
    var j :| 0 <= j < |s| && s[j] == t[0];
    assert !lt(t[i], t[0]) && !lt(s[j], s[0]);
  }

  lemma TailBag<T>(s: seq<T>)
    requires s != []
    ensures multiset(s[1..]) == multiset(s) - multiset{s[0]}
    ensures s == [s[0]] + s[1..]
  {
    assert s == [s[0]] + s[1..];
  }

  lemma {:induction false} SortedUnique<T(!new)>(s: seq<T>, t: seq<T>, lt: (T, T) -> bool)
    requires Orders(lt, s) && SortedBy(s, lt) && SortedBy(t, lt)
    requires multiset(s) == multiset(t)
    ensures s == t
    decreases |s|
  {
    SameBag(s, t);
    if s != [] {
      SameHead(s, t, lt);
      TailBag(s);
      TailBag(t);
      OrdersFewer(lt, s, s[1..]);
      SortedUnique(s[1..], t[1..], lt);
    }
  }

  /** Sorting forgets the arrangement it was given, and nothing else. */
  lemma SortIsCanonical<T(!new)>(s: seq<T>, t: seq<T>, lt: (T, T) -> bool)
    requires Orders(lt, s) && Orders(lt, t)
    ensures SortBy(s, lt) == SortBy(t, lt) <==> multiset(s) == multiset(t)
  {
    SortSorts(s, lt);
    SortSorts(t, lt);
    if multiset(s) == multiset(t) {
      SameBag(SortBy(s, lt), s);
      OrdersFewer(lt, s, SortBy(s, lt));
      SortedUnique(SortBy(s, lt), SortBy(t, lt), lt);
    }
  }

  ghost predicate Distinct<T>(s: seq<T>) {
    forall i, j :: 0 <= i < j < |s| ==> s[i] != s[j]
  }

  lemma {:induction false} CountOfDistinct<T(!new)>(s: seq<T>, x: T)
    requires Distinct(s)
    ensures multiset(s)[x] == if x in s then 1 else 0
    decreases |s|
  {
    if s != [] {
      assert s == [s[0]] + s[1..];
      CountOfDistinct(s[1..], x);
    }
  }

  lemma SameMembersSameBag<T(!new)>(s: seq<T>, t: seq<T>)
    requires Distinct(s) && Distinct(t) && forall x :: x in s <==> x in t
    ensures multiset(s) == multiset(t)
  {
    forall x
      ensures multiset(s)[x] == multiset(t)[x]
    {
      CountOfDistinct(s, x);
      CountOfDistinct(t, x);
    }
  }

  lemma {:induction false} RepeatIsCounted<T(!new)>(s: seq<T>) returns (x: T)
    requires !Distinct(s)
    ensures multiset(s)[x] > 1
    decreases |s|
  {
    assert s == [s[0]] + s[1..];
    if Distinct(s[1..]) {
      x := s[0];
      assert x in s[1..];
    } else {
      x := RepeatIsCounted(s[1..]);
    }
  }

  lemma SameBagDistinct<T(!new)>(s: seq<T>, t: seq<T>)
    requires multiset(s) == multiset(t) && Distinct(s)
    ensures Distinct(t)
  {
    if !Distinct(t) {
      var x := RepeatIsCounted(t);
      CountOfDistinct(s, x);
    }
  }

  lemma RemoveOne<T>(s: seq<T>, i: nat)
    requires i < |s|
    ensures multiset(s[..i] + s[i + 1..]) == multiset(s) - multiset{s[i]}
  {
    assert s == s[..i] + [s[i]] + s[i + 1..];
  }

  lemma CountsTwice<T(!new)>(s: seq<T>, i: nat, j: nat)
    requires i < j < |s| && s[i] == s[j]
    ensures multiset(s)[s[i]] >= 2
  {
    assert s == s[..j] + s[j..];
    assert s[i] in s[..j] && s[j] in s[j..];
    assert s[..j][i] == s[i] && s[j..][0] == s[j];
  }

  lemma {:induction false} FoundTwice<T(!new)>(s: seq<T>, x: T) returns (i: nat, j: nat)
    requires multiset(s)[x] >= 2
    ensures i < j < |s| && s[i] == x && s[j] == x
    decreases |s|
  {
    assert s == [s[0]] + s[1..];
    if s[0] == x {
      assert x in multiset(s[1..]);
      assert x in s[1..];
      i := 0;
      j :| 1 <= j < |s| && s[j] == x;
    } else {
      i, j := FoundTwice(s[1..], x);
      i, j := i + 1, j + 1;
    }
  }

  /** The order of Go strings. */
  predicate Before(a: string, b: string) {
    if b == "" then false
    else if a == "" then true
    else a[0] < b[0] || (a[0] == b[0] && Before(a[1..], b[1..]))
  }

  lemma {:induction false} BeforeIrreflexive(a: string)
    ensures !Before(a, a)
  {
    if a != "" {
      BeforeIrreflexive(a[1..]);
    }
  }

  lemma {:induction false} BeforeTransitive(a: string, b: string, c: string)
    requires Before(a, b) && Before(b, c)
    ensures Before(a, c)
  {
    if a != "" && a[0] == b[0] == c[0] {
      BeforeTransitive(a[1..], b[1..], c[1..]);
    }
  }

  lemma {:induction false} BeforeTotal(a: string, b: string)
    ensures Before(a, b) || Before(b, a) || a == b
  {
    if a != "" && b != "" && a[0] == b[0] {
      BeforeTotal(a[1..], b[1..]);
      assert a == [a[0]] + a[1..] && b == [b[0]] + b[1..];
    }
  }

  lemma BeforeIsStrictOrder()
    ensures StrictOrder(Before)
  {
    forall a ensures !Before(a, a) { BeforeIrreflexive(a); }
    forall a, b, c | Before(a, b) && Before(b, c) ensures Before(a, c) { BeforeTransitive(a, b, c); }
    forall a, b ensures Before(a, b) || Before(b, a) || a == b { BeforeTotal(a, b); }
  }
}
