/** internal/evaluation/snapshot.go, 59-81: the paths a reviewer's workspace may hold. The code
    tests strings; the meaning is about the components. */
module WorkspacePaths {
  import opened ManifestPaths
  import Workspace

  const GIT := ".git"

  function LowerAscii(s: string): (r: string)
    ensures |r| == |s|
  {
    if s == "" then ""
    else [if 'A' <= s[0] <= 'Z' then s[0] - 'A' + 'a' else s[0]] + LowerAscii(s[1..])
  }

  predicate Plain(c: char) {
    c >= ' ' && c != '\U{7F}' && c != '\\'
  }

  /** A component that names a file or directory of the workspace. */
  ghost predicate SafeName(s: string) {
    && IsName(s) && s != ".." && LowerAscii(s) != GIT
    && forall i :: 0 <= i < |s| ==> Plain(s[i])
  }

  ghost predicate SafeNames(c: Components) {
    forall i :: 0 <= i < |c| ==> SafeName(c[i])
  }

  /** A safe path is a sequence of safe names with single slashes in between. */
  ghost predicate SafePath(p: string) {
    exists c :: c != [] && SafeNames(c) && Join(c) == p
  }

  lemma {:induction false} JoinSplit(s: string)
    ensures Join(Split(s)) == s
  {
    if s != "" {
      JoinSplit(s[1..]);
      var rest := Split(s[1..]);
      if s[0] == '/' {
        assert ([""] + rest)[1..] == rest;
      } else {
        assert ([[s[0]] + rest[0]] + rest[1..])[1..] == rest[1..];
      }
    }
  }

  lemma SafeIsSplit(p: string)
    ensures SafePath(p) <==> SafeNames(Split(p))
  {
    JoinSplit(p);
    if SafePath(p) {
      var c :| c != [] && SafeNames(c) && Join(c) == p;
      assert forall i :: 0 <= i < |c| ==> SafeName(c[i]);
      SplitJoin(c);
    }
  }

  ghost predicate PlainOnly(s: string) {
    forall i :: 0 <= i < |s| ==> Plain(s[i])
  }

  ghost predicate AllPlain(parts: seq<string>) {
    forall i :: 0 <= i < |parts| ==> PlainOnly(parts[i])
  }

  lemma PlainHead(c: char, s: string)
    ensures PlainOnly([c] + s) <==> Plain(c) && PlainOnly(s)
  {
    var all := [c] + s;
    assert all[0] == c && all[1..] == s;
    assert PlainOnly(all) ==> forall i {:trigger s[i]} :: 0 <= i < |s| ==> Plain(all[i + 1]);
  }

  lemma AllPlainHead(part: string, parts: seq<string>)
    ensures AllPlain([part] + parts) <==> PlainOnly(part) && AllPlain(parts)
  {
    var all := [part] + parts;
    assert all[0] == part && all[1..] == parts;
    assert AllPlain(all) ==> forall i {:trigger parts[i]} :: 0 <= i < |parts| ==> PlainOnly(all[i + 1]);
  }

  /** Splitting keeps every character but the slashes. */
  lemma {:induction false} SplitPlain(s: string)
    ensures PlainOnly(s) <==> AllPlain(Split(s))
  {
    if s != "" {
      SplitPlain(s[1..]);
      var rest := Split(s[1..]);
      assert s == [s[0]] + s[1..] && rest == [rest[0]] + rest[1..];
      PlainHead(s[0], s[1..]);
      PlainHead(s[0], rest[0]);
      AllPlainHead("", rest);
      AllPlainHead(rest[0], rest[1..]);
      AllPlainHead([s[0]] + rest[0], rest[1..]);
    }
  }

  /** Cleaning leaves a path of plain names alone. */
  lemma {:induction false} NamesStay(stack: Components, parts: Components)
    requires AllNames(parts) && ".." !in parts
    ensures Resolve(stack, parts, false) == stack + parts
    decreases |parts|
  {
    if parts != [] {
      assert parts[0] in parts && IsName(parts[0]);
      NamesStay(stack + [parts[0]], parts[1..]);
    }
  }

  /** The tests before the loops, read as statements about the components. */
  lemma CleanIsNames(p: string)
    requires p != "" && ".." !in Split(p) && "." !in Split(p)
    ensures !Rooted(p) && Clean(p) == p <==> AllNames(Split(p))
  {
    var parts := Split(p);
    JoinSplit(p);
    SplitWhole(".");
    assert "." in Split(".");
    if AllNames(parts) {
      assert IsName(parts[0]);
      NamesStay([], parts);
      assert [] + parts == parts;
    } else if !Rooted(p) && Clean(p) == p && Normal(p) != [] {
      ResolveNormalises([], parts, false);
      SplitJoin(Normal(p));
    }
  }

  predicate Allowed(part: string) {
    part != ".." && part != "." && LowerAscii(part) != GIT
  }

  ghost predicate AllAllowed(parts: seq<string>) {
    forall i :: 0 <= i < |parts| ==> Allowed(parts[i])
  }

  predicate Visible(c: char) {
    c >= ' ' && c != '\U{7F}'
  }

  ghost predicate AllVisible(p: string) {
    forall i :: 0 <= i < |p| ==> Visible(p[i])
  }

  method PartsAllowed(p: string) returns (ok: bool)
    ensures ok <==> AllAllowed(Split(p))
  {
    var parts := Split(p);
    for i := 0 to |parts|
      invariant forall k :: 0 <= k < i ==> Allowed(parts[k])
    {
      if !Allowed(parts[i]) {
        return false;
      }
    }
    return true;
  }

  method NoControl(p: string) returns (ok: bool)
    ensures ok <==> AllVisible(p)
  {
    for i := 0 to |p|
      invariant forall k :: 0 <= k < i ==> Visible(p[k])
    {
      if !Visible(p[i]) {
        return false;
      }
    }
    return true;
  }

  /** ValidateWorkspacePath accepts exactly the safe paths. */
  method ValidateWorkspacePath(p: string) returns (ok: bool)
    ensures ok <==> SafePath(p)
  {
    TestsAreSafety(p);
    if p == "" || '\\' in p || '\0' in p || Rooted(p) || Clean(p) != p {
      return false;
    }
    ok := NoControl(p);
    if ok {
      ok := PartsAllowed(p);
    }
  }

  lemma TestsAreSafety(p: string)
    ensures SafePath(p) <==>
      && p != "" && '\\' !in p && '\0' !in p && !Rooted(p) && Clean(p) == p
      && AllVisible(p) && AllAllowed(Split(p))
  {
    var parts := Split(p);
    SafeIsSplit(p);
    SplitPlain(p);
    PlainIsVisible(p);
    SafeIsAllowed(parts);
    if p != "" && AllAllowed(parts) {
      CleanIsNames(p);
    }
    assert SafeNames(parts) ==> SafeName(parts[0]);
  }

  lemma PlainIsVisible(p: string)
    ensures PlainOnly(p) <==> AllVisible(p) && '\\' !in p
    ensures AllVisible(p) ==> '\0' !in p
  {
    if AllVisible(p) {
      assert forall i :: 0 <= i < |p| ==> Visible(p[i]);
    }
    if PlainOnly(p) {
      assert forall i :: 0 <= i < |p| ==> Plain(p[i]);
    }
  }

  lemma SafeIsAllowed(parts: seq<string>)
    ensures SafeNames(parts) <==>
      AllNames(parts) && AllAllowed(parts) && AllPlain(parts)
    ensures AllAllowed(parts) ==> ".." !in parts && "." !in parts
  {
    if SafeNames(parts) {
      assert forall i :: 0 <= i < |parts| ==> SafeName(parts[i]);
    }
  }

  /** Resolved from any directory of the workspace, a safe path stays in it. */
  lemma SafeStaysInside(dir: string, p: string)
    requires SafeName(dir) && SafePath(p)
    ensures SafePath(dir + "/" + p)
    ensures Normal(dir + "/" + p) == [dir] + Split(p)
  {
    SafeIsSplit(p);
    var all := [dir] + Split(p);
    SplitFirst(dir, p);
    SafeIsSplit(dir + "/" + p);
    assert forall i :: 0 <= i < |Split(p)| ==> SafeName(Split(p)[i]);
    NamesStay([], all);
  }

  /** strings.ToLower, character by character. What it does to letters is open; it neither makes nor
      removes a slash or a dot. */
  ghost predicate KeepsMarks(fold: char -> char) {
    forall c :: (fold(c) == '/' <==> c == '/') && (fold(c) == '.' <==> c == '.')
  }

  function Lower(s: string, fold: char -> char): (r: string)
    ensures |r| == |s| && forall i :: 0 <= i < |s| ==> r[i] == fold(s[i])
  {
    if s == "" then "" else [fold(s[0])] + Lower(s[1..], fold)
  }

  lemma {:induction false} LowerJoin(c: Components, fold: char -> char)
    requires KeepsMarks(fold) && c != [] && AllNames(c)
    ensures AllNames(Lowered(c, fold))
    ensures Lower(Join(c), fold) == Join(Lowered(c, fold))
    decreases |c|
  {
    assert IsName(c[0]);
    NameLowered(c[0], fold);
    if |c| > 1 {
      LowerJoin(c[1..], fold);
      var s, t := Lower(Join(c), fold), Lower(c[0], fold) + "/" + Lower(Join(c[1..]), fold);
      assert fold('/') == '/';
      assert s == t;
      assert Lowered(c, fold)[1..] == Lowered(c[1..], fold);
    } else {
      assert Lowered(c, fold) == [Lower(c[0], fold)];
    }
  }

  function Lowered(c: Components, fold: char -> char): (r: Components)
    ensures |r| == |c|
  {
    if c == [] then [] else [Lower(c[0], fold)] + Lowered(c[1..], fold)
  }

  lemma NameLowered(s: string, fold: char -> char)
    requires KeepsMarks(fold) && IsName(s)
    ensures IsName(Lower(s, fold))
  {
    assert s != "." && |s| > 0;
    assert |s| == 1 ==> fold(s[0]) != '.';
  }

  lemma {:induction false} NamesAreCleanKey(c: Components)
    requires c != [] && AllNames(c)
    ensures Workspace.CleanKey(Join(c))
    decreases |c|
  {
    var k := Join(c);
    assert IsName(c[0]);
    if |c| > 1 {
      var rest := Join(c[1..]);
      assert IsName(c[1..][0]);
      NamesAreCleanKey(c[1..]);
      JoinHead(c[1..]);
      assert rest[0] != '/';
      assert forall i :: |c[0]| < i < |k| ==> k[i] == rest[i - |c[0]| - 1];
      assert k[|c[0]|] == '/';
      assert |c[0]| == 1 ==> c[0] == [k[0]];
      assert k[0] == c[0][0] && (|c[0]| > 1 ==> k[1] == c[0][1]);
    } else {
      assert |k| > 1 ==> k[1] != '/';
    }
  }

  lemma LoweredIsCleanKey(p: string, fold: char -> char)
    requires KeepsMarks(fold) && SafePath(p)
    ensures Workspace.CleanKey(Lower(p, fold))
    ensures AllNames(Split(Lower(p, fold)))
  {
    SafeIsSplit(p);
    JoinSplit(p);
    var c := Split(p);
    assert forall i :: 0 <= i < |c| ==> SafeName(c[i]);
    LowerJoin(c, fold);
    NamesAreCleanKey(Lowered(c, fold));
    SplitJoin(Lowered(c, fold));
  }

  /** The directories above a path are the paths whose components begin its own. */
  lemma AncestorIsShorter(x: string, y: string)
    requires AllNames(Split(x)) && AllNames(Split(y))
    ensures x in Workspace.Ancestors(y) <==> Split(x) <= Split(y) && x != y
  {
    JoinSplit(x);
    JoinSplit(y);
    StringPrefixIsComponentPrefix(Split(x), Split(y));
    if x in Workspace.Ancestors(y) {
      var i :| 0 <= i < |y| && y[i] == '/' && x == y[..i];
      assert y[..i + 1] == x + "/";
    }
    if x + "/" <= y {
      assert y[|x|] == '/' && y[..|x|] == x;
    }
  }
}
