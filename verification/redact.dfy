/** internal/evaluation/redact.go: scrubbing of secrets by repeated replacement. */
module Redact {
  const MARKER := "[redacted]"

  predicate OccursAt(n: string, s: string, i: int) {
    0 <= i <= |s| - |n| && s[i..i + |n|] == n
  }

  ghost predicate Occurs(n: string, s: string) {
    exists i :: OccursAt(n, s, i)
  }

  /** strings.ReplaceAll of a non-empty needle by the marker: leftmost matches first, none
      overlapping. */
  function ReplaceAll(s: string, n: string): string
    requires n != ""
    decreases |s|
  {
    if |s| < |n| then s
    else if n <= s then MARKER + ReplaceAll(s[|n|..], n)
    else [s[0]] + ReplaceAll(s[1..], n)
  }

  /** No string can hold the needle and the marker so that they overlap: neither contains the other,
      and no end of one begins the other. */
  ghost predicate Clear(n: string) {
    && n != ""
    && !Occurs(n, MARKER) && !Occurs(MARKER, n)
    && (forall k :: 0 < k <= |n| && k <= |MARKER| ==> n[|n| - k..] != MARKER[..k])
    && (forall k :: 0 < k <= |n| && k <= |MARKER| ==> MARKER[|MARKER| - k..] != n[..k])
  }

  /** An end of a clear needle that begins the output begins the input as well. */
  lemma {:induction false} EndIsOriginal(m: string, k: nat, s: string, n: string)
    requires Clear(m) && n != "" && k <= |m| && m[k..] <= ReplaceAll(s, n)
    ensures m[k..] <= s
    decreases |s|
  {
    var e := m[k..];
    if e == "" || |s| < |n| {
    } else if n <= s {
      var rest := ReplaceAll(s[|n|..], n);
      MarkerCannotFollow(m, k, rest);
    } else {
      var rest := ReplaceAll(s[1..], n);
      assert e[0] == s[0] && e[1..] == m[k + 1..];
      assert e[1..] <= rest by {
        assert ([s[0]] + rest)[1..] == rest;
      }
      EndIsOriginal(m, k + 1, s[1..], n);
      assert s == [s[0]] + s[1..] && e == [e[0]] + e[1..];
    }
  }

  /** What it takes for an end of m to begin with, or within, a marker. */
  lemma EndMeetsMarker(m: string, k: nat, rest: string)
    requires k < |m| && m[k..] <= MARKER + rest
    ensures |m| - k <= |MARKER| ==> m[|m| - (|m| - k)..] == MARKER[..|m| - k]
    ensures |m| - k > |MARKER| ==> OccursAt(MARKER, m, k)
  {
    var e, all := m[k..], MARKER + rest;
    if |e| <= |MARKER| {
      assert e == all[..|e|] == MARKER[..|e|];
    } else {
      assert MARKER == all[..|MARKER|] == e[..|MARKER|] == m[k..k + |MARKER|];
    }
  }

  lemma MarkerCannotFollow(m: string, k: nat, rest: string)
    requires Clear(m) && k < |m|
    ensures !(m[k..] <= MARKER + rest)
  {
    if m[k..] <= MARKER + rest {
      EndMeetsMarker(m, k, rest);
    }
  }

  /** What it takes for an occurrence of m to start within a leading marker. */
  lemma OccurrenceMeetsMarker(m: string, rest: string, i: int)
    requires OccursAt(m, MARKER + rest, i) && i < |MARKER|
    ensures i + |m| <= |MARKER| ==> OccursAt(m, MARKER, i)
    ensures i + |m| > |MARKER| ==> MARKER[|MARKER| - (|MARKER| - i)..] == m[..|MARKER| - i]
  {
    var all := MARKER + rest;
    if i + |m| <= |MARKER| {
      assert MARKER[i..i + |m|] == all[i..i + |m|];
    } else {
      assert m[..|MARKER| - i] == all[i..i + |m|][..|MARKER| - i] == all[i..|MARKER|] == MARKER[i..];
    }
  }

  /** An occurrence of a clear needle behind a marker does not touch it. */
  lemma OccursBehindMarker(m: string, rest: string, i: int)
    requires Clear(m) && OccursAt(m, MARKER + rest, i)
    ensures i >= |MARKER| && OccursAt(m, rest, i - |MARKER|)
  {
    if i < |MARKER| {
      OccurrenceMeetsMarker(m, rest, i);
    }
    assert rest[i - |MARKER|..i - |MARKER| + |m|] == (MARKER + rest)[i..i + |m|];
  }

  lemma OccursInTail(m: string, s: string, d: nat)
    requires d <= |s| && Occurs(m, s[d..])
    ensures Occurs(m, s)
  {
    var j :| OccursAt(m, s[d..], j);
    assert s[d..][j..j + |m|] == s[d + j..d + j + |m|];
    assert OccursAt(m, s, d + j);
  }

  /** Replacing brings in no clear needle, and leaves none of its own. */
  lemma {:induction false} OccurrenceIsOriginal(m: string, s: string, n: string, i: int)
    requires Clear(m) && n != "" && OccursAt(m, ReplaceAll(s, n), i)
    ensures Occurs(m, s) && m != n
    decreases |s|
  {
    if |s| < |n| {
      assert OccursAt(m, s, i);
    } else if n <= s {
      OccursBehindMarker(m, ReplaceAll(s[|n|..], n), i);
      OccurrenceIsOriginal(m, s[|n|..], n, i - |MARKER|);
      OccursInTail(m, s, |n|);
    } else {
      OccurrenceInKept(m, s, n, i);
      if i > 0 {
        OccurrenceIsOriginal(m, s[1..], n, i - 1);
        OccursInTail(m, s, 1);
      }
    }
  }

  /** Where the first character is kept, an occurrence is at the front of the input, or in the rest
      of the output. */
  lemma OccurrenceInKept(m: string, s: string, n: string, i: int)
    requires Clear(m) && n != "" && |s| >= |n| && !(n <= s)
    requires OccursAt(m, ReplaceAll(s, n), i)
    ensures i == 0 ==> m <= s && OccursAt(m, s, 0)
    ensures i > 0 ==> OccursAt(m, ReplaceAll(s[1..], n), i - 1)
  {
    var rest := ReplaceAll(s[1..], n);
    var all := [s[0]] + rest;
    if i == 0 {
      assert m[0..] == m && m <= all;
      EndIsOriginal(m, 0, s, n);
    } else {
      assert rest[i - 1..i - 1 + |m|] == all[i..i + |m|];
    }
  }

  lemma {:induction false} AbsentIsUnchanged(s: string, n: string)
    requires n != "" && !Occurs(n, s)
    ensures ReplaceAll(s, n) == s
    decreases |s|
  {
    if |s| >= |n| {
      if n <= s {
        assert OccursAt(n, s, 0);
      }
      if Occurs(n, s[1..]) {
        OccursInTail(n, s, 1);
      }
      AbsentIsUnchanged(s[1..], n);
      assert s == [s[0]] + s[1..];
    }
  }

  /** str: one replacement per needle, in order. */
  function Scrub(s: string, needles: seq<string>): string
    requires "" !in needles
    decreases |needles|
  {
    if needles == [] then s
    else
      assert needles[0] in needles;
      Scrub(ReplaceAll(s, needles[0]), needles[1..])
  }

  ghost predicate AllClear(needles: seq<string>) {
    forall n :: n in needles ==> Clear(n)
  }

  ghost predicate Free(s: string, needles: seq<string>) {
    forall n :: n in needles ==> !Occurs(n, s)
  }

  lemma ReplaceKeepsAbsence(m: string, s: string, n: string)
    requires Clear(m) && n != ""
    requires m == n || !Occurs(m, s)
    ensures !Occurs(m, ReplaceAll(s, n))
  {
    if Occurs(m, ReplaceAll(s, n)) {
      var i :| OccursAt(m, ReplaceAll(s, n), i);
      OccurrenceIsOriginal(m, s, n, i);
    }
  }

  /** No needle already gone comes back while the others are replaced. */
  lemma {:induction false} ScrubKeepsAbsence(m: string, s: string, needles: seq<string>)
    requires Clear(m) && "" !in needles && !Occurs(m, s)
    ensures !Occurs(m, Scrub(s, needles))
    decreases |needles|
  {
    if needles != [] {
      assert needles[0] in needles;
      ReplaceKeepsAbsence(m, s, needles[0]);
      ScrubKeepsAbsence(m, ReplaceAll(s, needles[0]), needles[1..]);
    }
  }

  /** With clear needles, in whatever order, nothing of any secret is left. */
  lemma {:induction false} ScrubRemovesAll(s: string, needles: seq<string>)
    requires "" !in needles && AllClear(needles)
    ensures Free(Scrub(s, needles), needles)
    decreases |needles|
  {
    if needles != [] {
      var n := needles[0];
      assert n in needles;
      ReplaceKeepsAbsence(n, s, n);
      ScrubKeepsAbsence(n, ReplaceAll(s, n), needles[1..]);
      ScrubRemovesAll(ReplaceAll(s, n), needles[1..]);
    }
  }

  lemma {:induction false} FreeIsUnchanged(s: string, needles: seq<string>)
    requires "" !in needles && Free(s, needles)
    ensures Scrub(s, needles) == s
    decreases |needles|
  {
    if needles != [] {
      assert needles[0] in needles;
      AbsentIsUnchanged(s, needles[0]);
      FreeIsUnchanged(s, needles[1..]);
    }
  }

  /** Scrubbing twice is scrubbing once, and scrubbing changes a string exactly when some secret
      occurs in it. */
  lemma ScrubIsIdempotent(s: string, needles: seq<string>)
    requires "" !in needles && AllClear(needles)
    ensures Scrub(Scrub(s, needles), needles) == Scrub(s, needles)
    ensures Scrub(s, needles) == s <==> Free(s, needles)
  {
    ScrubRemovesAll(s, needles);
    FreeIsUnchanged(Scrub(s, needles), needles);
    if Free(s, needles) {
      FreeIsUnchanged(s, needles);
    }
  }

  /** The marker can complete the needle that was just replaced, in one of three ways: the needle
      occurs in the marker, an end of the marker begins it, or the marker continues one of its
      beginnings that stood before a match. */
  predicate Survives(n: string) {
    || (exists i :: 0 <= i <= |MARKER| && OccursAt(n, MARKER, i))
    || (exists k :: 0 < k <= |MARKER| && Begun(n, k))
    || (exists a :: 0 < a < |n| && Continued(n, a))
  }

  /** The last k characters of the marker begin n. */
  predicate Begun(n: string, k: nat)
    requires k <= |MARKER|
  {
    k <= |n| && MARKER[|MARKER| - k..] == n[..k]
  }

  /** Behind its first a characters a match of n is the leftmost, and the marker put there goes on
      as n does. */
  predicate Continued(n: string, a: nat)
    requires a <= |n|
  {
    && (n[a..] <= MARKER || MARKER <= n[a..])
    && (forall i :: 0 <= i < a ==> !OccursAt(n, n[..a] + n, i))
  }

  predicate FirstAt(n: string, s: string, a: nat) {
    OccursAt(n, s, a) && forall i :: 0 <= i < a ==> !OccursAt(n, s, i)
  }

  lemma OccursAtTail(n: string, s: string, i: int)
    requires s != "" && i >= 0
    ensures OccursAt(n, s[1..], i) <==> OccursAt(n, s, i + 1)
  {
    if 0 <= i <= |s| - 1 - |n| {
      assert s[1..][i..i + |n|] == s[i + 1..i + 1 + |n|];
    }
  }

  lemma FirstInTail(n: string, s: string, a: nat)
    requires FirstAt(n, s, a) && a > 0
    ensures s != "" && !(n <= s) && FirstAt(n, s[1..], a - 1)
  {
    assert !OccursAt(n, s, 0);
    OccursAtTail(n, s, a - 1);
    forall i | 0 <= i < a - 1
      ensures !OccursAt(n, s[1..], i)
    {
      OccursAtTail(n, s, i);
    }
  }

  lemma Replaced(s: string, n: string)
    requires n != "" && n <= s
    ensures ReplaceAll(s, n) == MARKER + ReplaceAll(s[|n|..], n)
  {}

  lemma Kept(s: string, n: string)
    requires n != "" && s != "" && !(n <= s)
    ensures ReplaceAll(s, n) == [s[0]] + ReplaceAll(s[1..], n)
  {
    assert |s| < |n| ==> s == [s[0]] + s[1..];
  }

  lemma PutInFront(s: string, a: nat, mid: string, rest: string)
    requires 0 < a <= |s|
    ensures [s[0]] + (s[1..][..a - 1] + mid + rest) == s[..a] + mid + rest
  {
    assert s[..a] == [s[0]] + s[1..][..a - 1];
  }

  /** Replacing up to the first match. */
  lemma {:induction false} ReplaceAtFirst(s: string, n: string, a: nat)
    requires n != "" && FirstAt(n, s, a)
    ensures ReplaceAll(s, n) == s[..a] + MARKER + ReplaceAll(s[a + |n|..], n)
    decreases a
  {
    if a == 0 {
      Replaced(s, n);
      assert s[..0] + MARKER == MARKER;
    } else {
      FirstInTail(n, s, a);
      Kept(s, n);
      ReplaceAtFirst(s[1..], n, a - 1);
      assert s[1..][a - 1 + |n|..] == s[a + |n|..];
      PutInFront(s, a, MARKER, ReplaceAll(s[a + |n|..], n));
    }
  }

  lemma {:induction false} FindFirst(n: string, s: string, i: nat) returns (a: nat)
    requires OccursAt(n, s, i)
    ensures FirstAt(n, s, a) && a <= i
    decreases i
  {
    if j :| 0 <= j < i && OccursAt(n, s, j) {
      a := FindFirst(n, s, j);
    } else {
      a := i;
    }
  }

  /** A needle that begins the output but not the input was continued. */
  lemma FrontIsContinued(n: string, s: string)
    requires n != "" && n <= ReplaceAll(s, n) && !(n <= s)
    ensures exists a :: 0 < a < |n| && Continued(n, a)
  {
    if !Occurs(n, s) {
      AbsentIsUnchanged(s, n);
    }
    var i :| OccursAt(n, s, i);
    var a := FindFirst(n, s, i);
    ReplaceAtFirst(s, n, a);
    assert s[0..0 + |n|] == s[..|n|];
    PrefixSplits(n, s[..a], MARKER, ReplaceAll(s[a + |n|..], n));
    assert !(|n| <= a) by {
      if |n| <= a { BeginningOfBeginning(n, s, a); }
    }
    assert |s[..a]| == a;
    FirstIsFirstAlone(n, s, a);
    assert a > 0 && Continued(n, a);
  }

  lemma BeginningOfBeginning(n: string, s: string, a: nat)
    requires |n| <= a <= |s|
    ensures n == s[..a][..|n|] ==> n <= s
  {
  }

  /** What begins head + mid + rest begins head, or goes on with mid. */
  lemma PrefixSplits(n: string, head: string, mid: string, rest: string)
    requires n <= head + mid + rest
    ensures |head| >= |n| ==> n == head[..|n|]
    ensures |head| < |n| ==> n[..|head|] == head && (n[|head|..] <= mid || mid <= n[|head|..])
  {
    var all := head + mid + rest;
    var a := |head|;
    if a >= |n| {
      assert n == all[..|n|] == head[..|n|];
    } else {
      assert n[..a] == all[..a] == head;
      var tail := n[a..];
      assert all[a..] == mid + rest;
      assert tail == all[a..][..|tail|];
      if |tail| <= |mid| {
        assert tail == (mid + rest)[..|tail|] == mid[..|tail|];
      } else {
        assert tail[..|mid|] == (mid + rest)[..|mid|] == mid;
      }
    }
  }

  lemma FirstIsFirstAlone(n: string, s: string, a: nat)
    requires FirstAt(n, s, a) && a < |n| && n[..a] == s[..a]
    ensures forall i :: 0 <= i < a ==> !OccursAt(n, n[..a] + n, i)
  {
    assert s[..a + |n|] == s[..a] + s[a..a + |n|] == n[..a] + n;
    forall i | 0 <= i < a
      ensures !OccursAt(n, n[..a] + n, i)
    {
      OccursAtPrefix(n, s, a + |n|, i);
    }
  }

  lemma OccursAtPrefix(n: string, s: string, e: nat, i: nat)
    requires i + |n| <= e <= |s|
    ensures OccursAt(n, s[..e], i) <==> OccursAt(n, s, i)
  {
    assert s[..e][i..i + |n|] == s[i..i + |n|];
  }

  lemma StartsInMarker(n: string, rest: string, i: nat)
    requires n != "" && i < |MARKER| && OccursAt(n, MARKER + rest, i)
    ensures Survives(n)
  {
    OccurrenceMeetsMarker(n, rest, i);
    assert OccursAt(n, MARKER, i) || Begun(n, |MARKER| - i);
  }

  lemma {:induction false} LeftSurvives(n: string, s: string, i: int)
    requires n != "" && OccursAt(n, ReplaceAll(s, n), i)
    ensures Survives(n)
    decreases |s|
  {
    if n <= s {
      var rest := ReplaceAll(s[|n|..], n);
      Replaced(s, n);
      if i < |MARKER| {
        StartsInMarker(n, rest, i);
      } else {
        OccursBehind(n, MARKER, rest, i);
        LeftSurvives(n, s[|n|..], i - |MARKER|);
      }
    } else if |s| >= |n| {
      Kept(s, n);
      if i == 0 {
        FrontIsContinued(n, s);
      } else {
        OccursBehind(n, [s[0]], ReplaceAll(s[1..], n), i);
        LeftSurvives(n, s[1..], i - 1);
      }
    }
  }

  lemma OccursBehind(n: string, head: string, rest: string, i: nat)
    requires i >= |head| && OccursAt(n, head + rest, i)
    ensures OccursAt(n, rest, i - |head|)
  {
    assert rest[i - |head|..i - |head| + |n|] == (head + rest)[i..i + |n|];
  }

  lemma EndThenRest(n: string, m: string, k: nat)
    requires k <= |m| && k <= |n| && m[|m| - k..] == n[..k]
    ensures OccursAt(n, m + n[k..], |m| - k)
  {
    var out := m + n[k..];
    assert out[|m| - k..|m| - k + |n|] == m[|m| - k..] + n[k..] == n;
  }

  /** An input that keeps a needle of the first two kinds. */
  lemma MarkerCompletes(n: string, k: nat)
    requires 0 < k <= |MARKER| && Begun(n, k)
    ensures Occurs(n, ReplaceAll(n + n[k..], n))
  {
    var s := n + n[k..];
    assert s[|n|..] == n[k..] && n <= s;
    Replaced(s, n);
    assert ReplaceAll(n[k..], n) == n[k..];
    EndThenRest(n, MARKER, k);
    assert OccursAt(n, ReplaceAll(s, n), |MARKER| - k);
  }

  /** And of the third. */
  lemma MarkerContinues(n: string, a: nat)
    requires 0 < a < |n| && Continued(n, a)
    ensures Occurs(n, ReplaceAll(n[..a] + n + Remainder(n, a), n))
  {
    var rest := Remainder(n, a);
    var s := n[..a] + n + rest;
    assert s[a..a + |n|] == n && s[..a + |n|] == n[..a] + n;
    forall i | 0 <= i < a
      ensures !OccursAt(n, s, i)
    {
      OccursAtPrefix(n, s, a + |n|, i);
    }
    ReplaceAtFirst(s, n, a);
    assert s[..a] == n[..a] && s[a + |n|..] == rest;
    assert ReplaceAll(rest, n) == rest;
    GoesOn(n, a, MARKER);
    assert OccursAt(n, ReplaceAll(s, n), 0);
  }

  /** What n holds behind the marker that continues its first a characters. */
  function Remainder(n: string, a: nat): string
    requires a <= |n|
  {
    if MARKER <= n[a..] then n[a..][|MARKER|..] else ""
  }

  lemma GoesOn(n: string, a: nat, m: string)
    requires a < |n| && (n[a..] <= m || m <= n[a..])
    ensures n <= n[..a] + m + if m <= n[a..] then n[a..][|m|..] else ""
  {
    assert n == n[..a] + n[a..];
    if m <= n[a..] {
      assert n[a..] == m + n[a..][|m|..];
    } else {
      assert n[a..] == m[..|n| - a];
      assert (n[..a] + m)[..|n|] == n;
    }
  }

  lemma MarkerHolds(n: string, i: nat)
    requires n != "" && OccursAt(n, MARKER, i)
    ensures Occurs(n, ReplaceAll(n, n))
  {
    Replaced(n, n);
    assert ReplaceAll(n, n) == MARKER;
  }

  lemma InputThatKeeps(n: string) returns (s: string)
    requires n != "" && Survives(n)
    ensures Occurs(n, ReplaceAll(s, n))
  {
    if i :| 0 <= i <= |MARKER| && OccursAt(n, MARKER, i) {
      MarkerHolds(n, i);
      s := n;
    } else if k :| 0 < k <= |MARKER| && Begun(n, k) {
      MarkerCompletes(n, k);
      s := n + n[k..];
    } else {
      var a :| 0 < a < |n| && Continued(n, a);
      MarkerContinues(n, a);
      s := n[..a] + n + Remainder(n, a);
    }
  }

  /** Some input keeps the needle. */
  ghost predicate CanBeLeft(n: string)
    requires n != ""
  {
    exists s :: Occurs(n, ReplaceAll(s, n))
  }

  /** The exact condition for one secret, for the caller to check beforehand: some input keeps it
      exactly when it survives. */
  lemma LeftIffSurvives(n: string)
    requires n != ""
    ensures CanBeLeft(n) <==> Survives(n)
  {
    if CanBeLeft(n) {
      var s :| Occurs(n, ReplaceAll(s, n));
      var i :| OccursAt(n, ReplaceAll(s, n), i);
      LeftSurvives(n, s, i);
    }
    if Survives(n) {
      var s := InputThatKeeps(n);
      assert CanBeLeft(n);
    }
  }

  /** Scrubbing for one secret removes it from every input exactly when it does not survive, and a
      clear one never does. */
  lemma OneSecretIsRemovedIff(n: string)
    requires n != ""
    ensures (forall s :: Free(Scrub(s, [n]), [n])) <==> !Survives(n)
    ensures Clear(n) ==> !Survives(n)
  {
    LeftIffSurvives(n);
    if Survives(n) {
      var s :| Occurs(n, ReplaceAll(s, n));
      ScrubOne(s, n);
      assert !Free(Scrub(s, [n]), [n]);
    } else {
      forall s
        ensures Free(Scrub(s, [n]), [n])
      {
        ScrubOne(s, n);
        assert !Occurs(n, ReplaceAll(s, n));
      }
    }
    if Clear(n) {
      forall s
        ensures !Occurs(n, ReplaceAll(s, n))
      {
        ReplaceKeepsAbsence(n, s, n);
      }
    }
  }

  lemma ScrubOne(s: string, n: string)
    requires n != ""
    ensures Scrub(s, [n]) == ReplaceAll(s, n)
    ensures Free(Scrub(s, [n]), [n]) <==> !Occurs(n, ReplaceAll(s, n))
  {
    var needles := [n];
    assert needles[1..] == [];
    assert Scrub(s, needles) == Scrub(ReplaceAll(s, n), needles[1..]);
    assert n in needles;
  }

  /** A needle may overlap the marker and still never be left. */
  lemma OverlapCanBeHarmless()
    ensures !Clear("[x[") && !Survives("[x[")
  {
    var n := "[x[";
    assert n[|n| - 1..] == MARKER[..1];
    assert 'x' !in MARKER;
    forall i | 0 <= i <= |MARKER|
      ensures !OccursAt(n, MARKER, i)
    {
      assert 0 <= i <= |MARKER| - 3 ==> MARKER[i..i + 3][1] == MARKER[i + 1] && MARKER[i + 1] in MARKER;
    }
    forall k | 0 < k <= |MARKER|
      ensures !Begun(n, k)
    {
      assert MARKER[|MARKER| - k..][k - 1] == ']';
      assert k <= |n| ==> n[..k][k - 1] == n[k - 1];
    }
    assert (n[..2] + n)[0..3] == n;
    assert OccursAt(n, n[..2] + n, 0);
    assert n[1..][0] == 'x';
  }

  /** This needle ends where the marker begins, and the scrubbed string still holds it. */
  lemma OverlapLeavesSecret()
    ensures !Clear("x[") && Occurs("x[", Scrub("xx[", ["x["]))
  {
    var n, s := "x[", "xx[";
    assert n[|n| - 1..] == MARKER[..1];
    assert s[1] != n[1] && !(n <= s);
    assert s[1..] == n && n[2..] == "";
    assert ReplaceAll("", n) == "";
    assert ReplaceAll(n, n) == MARKER + "" == MARKER;
    assert ReplaceAll(s, n) == ['x'] + ReplaceAll(s[1..], n) == ['x'] + MARKER;
    var needles := [n];
    assert needles[1..] == [];
    assert Scrub(s, needles) == Scrub(ReplaceAll(s, n), needles[1..]) == ['x'] + MARKER;
    assert OccursAt(n, ['x'] + MARKER, 0);
  }
}
