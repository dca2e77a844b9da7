/** internal/evaluation/redact.go, 58-63: several secrets, replaced one after the other. Exactly when
    no replacement leaves, or brings back, a secret that was dealt with by then. */
module RedactLists {
  import opened Redact

  /** The strings whose replacement can begin with m: its characters kept, and the marker, or a
      beginning of it at the end, put back as n. */
  function Sources(m: string, n: string): set<string>
    decreases |m|
  {
    if m == "" then {""}
    else
      (set t | t in Sources(m[1..], n) :: [m[0]] + t) +
      (if MARKER <= m then (set t | t in Sources(m[|MARKER|..], n) :: n + t) else {}) +
      (if m <= MARKER then {n} else {})
  }

  /** Those whose replacement can hold m: m may start i characters into a first marker. */
  function AllSources(m: string, n: string): set<string> {
    Sources(m, n) +
    (set i, t | 0 <= i < |MARKER| && StartsAt(m, i) && t in Sources(Behind(m, i), n) :: n + t)
  }

  /** m starts i characters into a marker, and may go on behind it. */
  predicate StartsAt(m: string, i: nat)
    requires i < |MARKER|
  {
    if |m| <= |MARKER| - i then m <= MARKER[i..] else MARKER[i..] <= m
  }

  function Behind(m: string, i: nat): string
    requires i < |MARKER|
  {
    if |m| <= |MARKER| - i then "" else m[|MARKER| - i..]
  }

  lemma PrefixOfPrefix(a: string, b: string, c: string)
    requires a <= b <= c
    ensures a <= c
  {
  }

  lemma KeptSource(m: string, n: string, t: string, u: string)
    requires n != "" && m != "" && t != "" && m[0] == t[0] && !(n <= t)
    requires u in Sources(m[1..], n) && u <= t[1..] && m[1..] <= ReplaceAll(u, n)
    ensures [t[0]] + u in Sources(m, n) && [t[0]] + u <= t && m <= ReplaceAll([t[0]] + u, n)
  {
    var all := [t[0]] + u;
    assert all[1..] == u && t == [t[0]] + t[1..] && m == [m[0]] + m[1..];
    if n <= all { PrefixOfPrefix(n, all, t); }
    Kept(all, n);
  }

  lemma ReplacedSource(m: string, n: string, t: string, u: string)
    requires n != "" && m != "" && MARKER <= m && n <= t
    requires u in Sources(m[|MARKER|..], n) && u <= t[|n|..] && m[|MARKER|..] <= ReplaceAll(u, n)
    ensures n + u in Sources(m, n) && n + u <= t && m <= ReplaceAll(n + u, n)
  {
    assert (n + u)[|n|..] == u && t == n + t[|n|..] && m == MARKER + m[|MARKER|..];
    Replaced(n + u, n);
  }

  lemma ReplacesItself(n: string)
    requires n != ""
    ensures ReplaceAll(n, n) == MARKER
  {
    Replaced(n, n);
    assert n[|n|..] == "";
  }

  lemma BeginsBoth(m: string, head: string, rest: string)
    requires m <= head + rest
    ensures |m| <= |head| ==> m <= head
    ensures |m| > |head| ==> head <= m && m[|head|..] <= rest
  {
    var all := head + rest;
    if |m| <= |head| {
      assert m == all[..|m|] == head[..|m|];
    } else {
      assert m[..|head|] == all[..|head|] == head;
      assert m[|head|..] == all[|head|..|m|] == rest[..|m| - |head|];
    }
  }

  /** What begins the output comes from a beginning of the input that is one of its sources. */
  lemma {:induction false} PrefixSource(m: string, n: string, t: string) returns (u: string)
    requires n != "" && m <= ReplaceAll(t, n)
    ensures u in Sources(m, n) && u <= t && m <= ReplaceAll(u, n)
    decreases |t|
  {
    if m == "" {
      u := "";
    } else if n <= t {
      Replaced(t, n);
      var rest := ReplaceAll(t[|n|..], n);
      BeginsBoth(m, MARKER, rest);
      if |m| <= |MARKER| {
        u := n;
        ReplacesItself(n);
      } else {
        var v := PrefixSource(m[|MARKER|..], n, t[|n|..]);
        ReplacedSource(m, n, t, v);
        u := n + v;
      }
    } else {
      Kept(t, n);
      var rest := ReplaceAll(t[1..], n);
      assert m[0] == ([t[0]] + rest)[0] == t[0];
      BeginsBoth(m, [t[0]], rest);
      var v := PrefixSource(m[1..], n, t[1..]);
      KeptSource(m, n, t, v);
      u := [t[0]] + v;
    }
  }

  /** u is a stretch of t. */
  ghost predicate Within(u: string, t: string) {
    exists d :: 0 <= d <= |t| && u <= t[d..]
  }

  lemma WithinTail(u: string, t: string, d: nat)
    requires d <= |t| && Within(u, t[d..])
    ensures Within(u, t)
  {
    var e :| 0 <= e <= |t[d..]| && u <= t[d..][e..];
    assert t[d..][e..] == t[d + e..];
  }

  lemma WithinFront(u: string, t: string)
    requires u <= t
    ensures Within(u, t)
  {
    assert t[0..] == t;
  }

  lemma OccursWithin(x: string, u: string, t: string)
    requires Within(u, t) && Occurs(x, u)
    ensures Occurs(x, t)
  {
    var d :| 0 <= d <= |t| && u <= t[d..];
    var i :| OccursAt(x, u, i);
    assert t[d + i..d + i + |x|] == u[i..i + |x|];
    assert OccursAt(x, t, d + i);
  }

  lemma StartsInside(m: string, rest: string, i: nat)
    requires i < |MARKER| && OccursAt(m, MARKER + rest, i)
    ensures StartsAt(m, i) && Behind(m, i) <= rest
  {
    var all := MARKER + rest;
    assert all[i..] == MARKER[i..] + rest;
    assert m <= all[i..];
    BeginsBoth(m, MARKER[i..], rest);
  }

  lemma HeldByMarker(m: string, n: string, i: nat, u: string)
    requires n != "" && i < |MARKER| && StartsAt(m, i) && Behind(m, i) <= ReplaceAll(u, n)
    ensures Occurs(m, ReplaceAll(n + u, n))
  {
    assert (n + u)[|n|..] == u;
    Replaced(n + u, n);
    StartsThere(m, MARKER, i, ReplaceAll(u, n));
    assert OccursAt(m, ReplaceAll(n + u, n), i);
  }

  lemma StartsThere(m: string, head: string, i: nat, rest: string)
    requires i < |head|
    requires if |m| <= |head| - i then m <= head[i..] else head[i..] <= m && m[|head| - i..] <= rest
    ensures OccursAt(m, head + rest, i)
  {
    var all := head + rest;
    if |m| <= |head| - i {
      assert all[i..i + |m|] == head[i..i + |m|] == m;
    } else {
      assert m == head[i..] + m[|head| - i..];
      assert all[i..i + |m|] == head[i..] + rest[..|m| - (|head| - i)];
    }
  }

  lemma SourceAtMarker(m: string, n: string, t: string, i: nat) returns (u: string)
    requires n != "" && n <= t && i < |MARKER| && OccursAt(m, MARKER + ReplaceAll(t[|n|..], n), i)
    ensures u in AllSources(m, n) && Within(u, t) && Occurs(m, ReplaceAll(u, n))
  {
    StartsInside(m, ReplaceAll(t[|n|..], n), i);
    var v := PrefixSource(Behind(m, i), n, t[|n|..]);
    HeldByMarker(m, n, i, v);
    u := n + v;
    assert t == n + t[|n|..];
    WithinFront(u, t);
  }

  /** What occurs in the output comes from a stretch of the input that is one of its sources. */
  lemma {:induction false} SourceWithin(m: string, n: string, t: string, i: nat) returns (u: string)
    requires n != "" && OccursAt(m, ReplaceAll(t, n), i)
    ensures u in AllSources(m, n) && Within(u, t) && Occurs(m, ReplaceAll(u, n))
    decreases |t|
  {
    if i == 0 && m <= ReplaceAll(t, n) {
      u := PrefixSource(m, n, t);
      WithinFront(u, t);
      assert OccursAt(m, ReplaceAll(u, n), 0);
    } else if n <= t {
      Replaced(t, n);
      var rest := ReplaceAll(t[|n|..], n);
      if i < |MARKER| {
        u := SourceAtMarker(m, n, t, i);
      } else {
        OccursBehind(m, MARKER, rest, i);
        u := SourceWithin(m, n, t[|n|..], i - |MARKER|);
        WithinTail(u, t, |n|);
      }
    } else {
      Kept(t, n);
      OccursBehind(m, [t[0]], ReplaceAll(t[1..], n), i);
      u := SourceWithin(m, n, t[1..], i - 1);
      WithinTail(u, t, 1);
    }
  }

  /** One replacement of n, in some input free of the earlier secrets, leaves m. */
  ghost predicate CanLeave(m: string, n: string, earlier: seq<string>)
    requires n != ""
  {
    exists t :: Free(t, earlier) && Occurs(m, ReplaceAll(t, n))
  }

  /** One of finitely many inputs shows it. */
  ghost predicate SourceLeaves(m: string, n: string, earlier: seq<string>)
    requires n != ""
  {
    exists t :: t in AllSources(m, n) && Free(t, earlier) && Occurs(m, ReplaceAll(t, n))
  }

  lemma LeavesIffSourceLeaves(m: string, n: string, earlier: seq<string>)
    requires n != ""
    ensures CanLeave(m, n, earlier) <==> SourceLeaves(m, n, earlier)
  {
    if CanLeave(m, n, earlier) {
      var t :| Free(t, earlier) && Occurs(m, ReplaceAll(t, n));
      var i :| OccursAt(m, ReplaceAll(t, n), i);
      var u := SourceWithin(m, n, t, i);
      forall x | x in earlier
        ensures !Occurs(x, u)
      {
        if Occurs(x, u) { OccursWithin(x, u, t); }
      }
      assert Free(u, earlier);
    }
  }

  /** Whatever the input, no replacement leaves a secret that was dealt with by then. */
  ghost predicate SafeThroughout(needles: seq<string>)
    requires "" !in needles
  {
    forall j :: 0 <= j <= |needles| ==> PrefixSafe(needles, j)
  }

  ghost predicate PrefixSafe(needles: seq<string>, j: nat)
    requires "" !in needles && j <= |needles|
  {
    forall s :: Free(Scrub(s, needles[..j]), needles[..j])
  }

  /** The j-th replacement leaves the i-th secret, or brings it back, in one of its sources. */
  ghost predicate LeavesAt(needles: seq<string>, i: nat, j: nat)
    requires "" !in needles && i <= j < |needles|
  {
    SourceLeaves(needles[i], needles[j], needles[..j])
  }

  ghost predicate NoneLeft(needles: seq<string>)
    requires "" !in needles
  {
    forall i, j :: 0 <= i <= j < |needles| ==> !LeavesAt(needles, i, j)
  }

  lemma {:induction false} ScrubSnoc(s: string, needles: seq<string>, n: string)
    requires "" !in needles && n != ""
    ensures Scrub(s, needles + [n]) == ReplaceAll(Scrub(s, needles), n)
    decreases |needles|
  {
    if needles == [] {
      assert [n][1..] == [];
      assert needles + [n] == [n];
    } else {
      assert needles[0] in needles;
      assert (needles + [n])[1..] == needles[1..] + [n];
      ScrubSnoc(ReplaceAll(s, needles[0]), needles[1..], n);
    }
  }

  lemma NextPrefix(needles: seq<string>, j: nat, s: string)
    requires "" !in needles && j < |needles|
    ensures "" !in needles[..j] && needles[j] != "" && "" !in needles[..j + 1]
    ensures Scrub(s, needles[..j + 1]) == ReplaceAll(Scrub(s, needles[..j]), needles[j])
  {
    assert needles[..j + 1] == needles[..j] + [needles[j]];
    ScrubSnoc(s, needles[..j], needles[j]);
  }

  lemma PrefixStaysSafe(needles: seq<string>, j: nat)
    requires "" !in needles && j < |needles| && NoneLeft(needles) && PrefixSafe(needles, j)
    ensures PrefixSafe(needles, j + 1)
  {
    var now := needles[..j + 1];
    assert "" !in now;
    forall s
      ensures Free(Scrub(s, now), now)
    {
      NextPrefix(needles, j, s);
      assert Free(Scrub(s, needles[..j]), needles[..j]);
      ReplacingStaysFree(needles, j, Scrub(s, needles[..j]));
    }
  }

  lemma ReplacingStaysFree(needles: seq<string>, j: nat, t: string)
    requires "" !in needles && j < |needles| && NoneLeft(needles) && Free(t, needles[..j]) && needles[j] != ""
    ensures Free(ReplaceAll(t, needles[j]), needles[..j + 1])
  {
    forall x | x in needles[..j + 1]
      ensures !Occurs(x, ReplaceAll(t, needles[j]))
    {
      var i :| 0 <= i < j + 1 && needles[..j + 1][i] == x;
      LeavesIffSourceLeaves(needles[i], needles[j], needles[..j]);
      assert !LeavesAt(needles, i, j);
    }
  }

  lemma {:induction false} PrefixesSafe(needles: seq<string>, j: nat)
    requires "" !in needles && j <= |needles| && NoneLeft(needles)
    ensures PrefixSafe(needles, j)
    decreases j
  {
    if j > 0 {
      PrefixesSafe(needles, j - 1);
      PrefixStaysSafe(needles, j - 1);
    }
  }

  lemma LeftShows(needles: seq<string>, i: nat, j: nat)
    requires "" !in needles && i <= j < |needles| && LeavesAt(needles, i, j)
    ensures !PrefixSafe(needles, j + 1)
  {
    var t :| t in AllSources(needles[i], needles[j]) && Free(t, needles[..j]) && Occurs(needles[i], ReplaceAll(t, needles[j]));
    NextPrefix(needles, j, t);
    FreeIsUnchanged(t, needles[..j]);
    assert needles[..j + 1][i] == needles[i] && needles[i] in needles[..j + 1];
    assert !Free(Scrub(t, needles[..j + 1]), needles[..j + 1]);
  }

  /** The exact condition for a list of secrets, over finitely many strings: no replacement on the way
      leaves a secret dealt with by then, in any input, exactly when none does in its sources. */
  lemma SafeIffNoneLeft(needles: seq<string>)
    requires "" !in needles
    ensures SafeThroughout(needles) <==> NoneLeft(needles)
  {
    if NoneLeft(needles) {
      forall j | 0 <= j <= |needles|
        ensures PrefixSafe(needles, j)
      {
        PrefixesSafe(needles, j);
      }
    } else {
      var i, j :| 0 <= i <= j < |needles| && LeavesAt(needles, i, j);
      LeftShows(needles, i, j);
    }
  }

  /** Then the scrubbed string holds no secret; and clear secrets meet the condition. */
  lemma NoneLeftRemovesAll(needles: seq<string>, s: string)
    requires "" !in needles
    ensures NoneLeft(needles) ==> Free(Scrub(s, needles), needles) && Scrub(Scrub(s, needles), needles) == Scrub(s, needles)
    ensures AllClear(needles) ==> NoneLeft(needles)
  {
    SafeIffNoneLeft(needles);
    if NoneLeft(needles) {
      assert PrefixSafe(needles, |needles|) && needles[..|needles|] == needles;
      FreeIsUnchanged(Scrub(s, needles), needles);
    }
    if AllClear(needles) {
      forall j | 0 <= j <= |needles|
        ensures PrefixSafe(needles, j)
      {
        forall t
          ensures Free(Scrub(t, needles[..j]), needles[..j])
        {
          ScrubRemovesAll(t, needles[..j]);
        }
      }
    }
  }
}
