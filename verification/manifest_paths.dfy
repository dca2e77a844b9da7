/** internal/manifest/manifest.go, 231-246 and 281-330: file scopes. The code compares cleaned paths
    as strings; the meaning is a comparison of their components. */
module ManifestPaths {
  /** A cleaned path as its components. */
  type Components = seq<string>

  ghost predicate SlashFree(s: string) {
    forall i :: 0 <= i < |s| ==> s[i] != '/'
  }

  /** A component that names a file or a directory, or "..". */
  ghost predicate IsName(s: string) {
    s != "" && s != "." && SlashFree(s)
  }

  ghost predicate AllNames(c: Components) {
    forall i :: 0 <= i < |c| ==> IsName(c[i])
  }

  /** Components between slashes, and back. */
  function Split(s: string): (c: seq<string>)
    ensures |c| > 0 && forall i :: 0 <= i < |c| ==> SlashFree(c[i])
  {
    if s == "" then [""]
    else
      var rest := Split(s[1..]);
      if s[0] == '/' then [""] + rest else [[s[0]] + rest[0]] + rest[1..]
  }

  function Join(c: seq<string>): string
    requires |c| > 0
  {
    if |c| == 1 then c[0] else c[0] + "/" + Join(c[1..])
  }

  /** One component read by filepath.Clean. */
  function Step(stack: Components, part: string, rooted: bool): Components {
    if part == "" || part == "." then stack
    else if part == ".." then
      if |stack| > 0 && stack[|stack| - 1] != ".." then stack[..|stack| - 1]
      else if rooted then stack
      else stack + [".."]
    else stack + [part]
  }

  function Resolve(stack: Components, parts: seq<string>, rooted: bool): Components
    decreases |parts|
  {
    if parts == [] then stack else Resolve(Step(stack, parts[0], rooted), parts[1..], rooted)
  }

  predicate Rooted(file: string) {
    file != "" && file[0] == '/'
  }

  function Normal(file: string): Components {
    Resolve([], Split(file), Rooted(file))
  }

  /** filepath.Clean. */
  function Clean(file: string): string {
    var c := Normal(file);
    if Rooted(file) then (if c == [] then "/" else "/" + Join(c))
    else if c == [] then "."
    else Join(c)
  }

  /** The tests of validateChild on one entry of the file scope. */
  predicate ScopeAccepted(file: string) {
    var cleaned := Clean(file);
    && !("/" <= cleaned) && !("/" <= file)
    && cleaned != "."
    && cleaned != ".." && !("../" <= cleaned)
  }

  predicate HasOverlap(fileA: string, fileB: string) {
    fileA == fileB || fileB + "/" <= fileA || fileA + "/" <= fileB
  }

  /** ".." survives cleaning only in front. */
  ghost predicate Normalised(c: Components) {
    AllNames(c) && forall i :: 0 < i < |c| && c[i] == ".." ==> c[i - 1] == ".."
  }

  lemma {:induction false} ResolveNormalises(stack: Components, parts: seq<string>, rooted: bool)
    requires Normalised(stack) && forall i :: 0 <= i < |parts| ==> SlashFree(parts[i])
    ensures Normalised(Resolve(stack, parts, rooted))
    decreases |parts|
  {
    if parts != [] {
      ResolveNormalises(Step(stack, parts[0], rooted), parts[1..], rooted);
    }
  }

  lemma {:induction false} NoDotsBehindName(c: Components, i: nat)
    requires Normalised(c) && i < |c| && c[0] != ".."
    ensures c[i] != ".."
  {
    if i > 0 {
      NoDotsBehindName(c, i - 1);
    }
  }

  lemma {:induction false} SplitJoin(c: seq<string>)
    requires |c| > 0 && forall i :: 0 <= i < |c| ==> SlashFree(c[i])
    ensures Split(Join(c)) == c
    decreases |c|
  {
    if |c| == 1 {
      SplitWhole(c[0]);
    } else {
      SplitJoin(c[1..]);
      SplitFirst(c[0], Join(c[1..]));
      assert c == [c[0]] + c[1..];
    }
  }

  lemma {:induction false} SplitWhole(s: string)
    requires SlashFree(s)
    ensures Split(s) == [s]
  {
    if s != "" {
      assert SlashFree(s[1..]);
      SplitWhole(s[1..]);
      assert s == [s[0]] + s[1..];
    }
  }

  lemma {:induction false} SplitFirst(s: string, t: string)
    requires SlashFree(s)
    ensures Split(s + "/" + t) == [s] + Split(t)
  {
    if s == "" {
      assert (s + "/" + t)[1..] == t;
    } else {
      assert SlashFree(s[1..]);
      SplitFirst(s[1..], t);
      assert (s + "/" + t)[1..] == s[1..] + "/" + t;
      assert s == [s[0]] + s[1..];
    }
  }

  /** Cleaning loses nothing: the cleaned string determines the components. */
  lemma CleanIsInjective(f: string, g: string)
    requires ScopeAccepted(f) && ScopeAccepted(g)
    ensures Clean(f) == Clean(g) <==> Normal(f) == Normal(g)
  {
    AcceptedIsInside(f);
    AcceptedIsInside(g);
    SplitJoin(Normal(f));
    SplitJoin(Normal(g));
  }

  /** An accepted entry is a proper path inside the repository, and nothing else is accepted. */
  lemma AcceptedIsInside(file: string)
    ensures ScopeAccepted(file) <==> !Rooted(file) && Normal(file) != [] && Normal(file)[0] != ".."
    ensures Normalised(Normal(file))
    ensures ScopeAccepted(file) ==> ".." !in Normal(file) && Clean(file) == Join(Normal(file))
  {
    var c := Normal(file);
    ResolveNormalises([], Split(file), Rooted(file));
    if !Rooted(file) && c != [] {
      JoinHead(c);
      if c[0] != ".." {
        forall i | 0 <= i < |c|
          ensures c[i] != ".."
        {
          NoDotsBehindName(c, i);
        }
      }
    }
  }

  /** What the prefix tests of validateChild see of the joined string. */
  lemma JoinHead(c: Components)
    requires AllNames(c) && c != []
    ensures !("/" <= Join(c)) && Join(c) != "."
    ensures (Join(c) == ".." || "../" <= Join(c)) <==> c[0] == ".."
  {
    assert IsName(c[0]);
    var s := Join(c);
    if |c| > 1 {
      assert s == c[0] + "/" + Join(c[1..]);
      assert s[|c[0]|] == '/';
      if "../" <= s {
        assert s[0] == '.' && s[1] == '.' && s[2] == '/';
        assert |c[0]| == 2;
        assert c[0] == "..";
      }
    } else {
      assert forall i :: 0 <= i < |s| ==> s[i] != '/';
      assert ("../")[2] == '/' && ("/")[0] == '/';
      assert !("../" <= s) && !("/" <= s);
    }
  }

  /** Two slash-free heads followed by a slash can only agree if they are equal. */
  lemma HeadsAgree(x: string, s: string, y: string, t: string)
    requires SlashFree(x) && SlashFree(y) && x + "/" + s <= y + "/" + t
    ensures x == y && s <= t
  {
    var a, b := x + "/" + s, y + "/" + t;
    assert a[|x|] == '/' && b[|y|] == '/' && b[|x|] == '/';
    assert forall i :: 0 <= i < |y| ==> b[i] == y[i];
    assert forall i :: 0 <= i < |x| ==> b[i] == a[i] == x[i];
    assert |x| == |y|;
    assert x == a[..|x|] && y == b[..|y|];
    assert s == a[|x| + 1..] && t == b[|y| + 1..];
  }

  lemma {:induction false} StringPrefixIsComponentPrefix(a: Components, b: Components)
    requires AllNames(a) && AllNames(b) && a != [] && b != []
    ensures Join(a) + "/" <= Join(b) <==> a <= b && a != b
    decreases |a|
  {
    var s, t := Join(a) + "/", Join(b);
    assert IsName(a[0]) && IsName(b[0]);
    if |b| == 1 {
      assert s[|s| - 1] == '/' && t == b[0];
      assert !(s <= t);
      if a <= b {
        assert a == b;
      }
    } else if |a| == 1 {
      assert s == a[0] + "/" + "";
      if s <= t {
        HeadsAgree(a[0], "", b[0], Join(b[1..]));
      }
    } else {
      assert s == a[0] + "/" + (Join(a[1..]) + "/");
      StringPrefixIsComponentPrefix(a[1..], b[1..]);
      if s <= t {
        HeadsAgree(a[0], Join(a[1..]) + "/", b[0], Join(b[1..]));
        assert a == [a[0]] + a[1..] && b == [b[0]] + b[1..];
      }
      if a <= b && a != b {
        assert a[0] == b[0] && a[1..] <= b[1..];
        assert a[1..] != b[1..] by {
          assert a == [a[0]] + a[1..] && b == [b[0]] + b[1..];
        }
      }
    }
  }

  /** The string test is exact: two accepted entries overlap exactly when one's components begin the
      other's, so that one equals or lies under the other. */
  lemma OverlapIsContainment(f: string, g: string)
    requires ScopeAccepted(f) && ScopeAccepted(g)
    ensures HasOverlap(Clean(f), Clean(g)) <==> Normal(f) <= Normal(g) || Normal(g) <= Normal(f)
  {
    AcceptedIsInside(f);
    AcceptedIsInside(g);
    CleanIsInjective(f, g);
    StringPrefixIsComponentPrefix(Normal(f), Normal(g));
    StringPrefixIsComponentPrefix(Normal(g), Normal(f));
  }

  /** The path p names the entry c itself or something under it. */
  ghost predicate LiesUnder(p: Components, c: Components) {
    c <= p
  }

  /** Without an overlap no path at all lies in both subtrees; with one, some does. */
  lemma OverlapIsSharedPath(f: string, g: string)
    requires ScopeAccepted(f) && ScopeAccepted(g)
    ensures HasOverlap(Clean(f), Clean(g)) <==> exists p :: LiesUnder(p, Normal(f)) && LiesUnder(p, Normal(g))
  {
    OverlapIsContainment(f, g);
    var a, b := Normal(f), Normal(g);
    assert LiesUnder(a, a) && LiesUnder(b, b);
    forall p | LiesUnder(p, a) && LiesUnder(p, b)
      ensures a <= b || b <= a
    {
      if |a| <= |b| {
        assert a == p[..|a|] == b[..|a|];
      } else {
        assert b == p[..|b|] == a[..|b|];
      }
    }
  }

  function CleanAll(files: seq<string>): seq<string> {
    if files == [] then [] else [Clean(files[0])] + CleanAll(files[1..])
  }

  lemma {:induction false} CleanAllContains(files: seq<string>, f: string)
    requires f in files
    ensures Clean(f) in CleanAll(files)
  {
    if f != files[0] {
      CleanAllContains(files[1..], f);
    }
  }

  predicate FilesOverlap(s: seq<string>, t: seq<string>) {
    exists f, g :: f in s && g in t && HasOverlap(f, g)
  }

  method AnyOverlap(s: seq<string>, t: seq<string>) returns (overlap: bool)
    ensures overlap <==> FilesOverlap(s, t)
  {
    for k := 0 to |s|
      invariant forall f, g :: f in s[..k] && g in t ==> !HasOverlap(f, g)
    {
      for l := 0 to |t|
        invariant forall g :: g in t[..l] ==> !HasOverlap(s[k], g)
      {
        if HasOverlap(s[k], t[l]) {
          return true;
        }
        assert t[..l + 1] == t[..l] + [t[l]];
      }
      assert t[..|t|] == t;
      assert s[..k + 1] == s[..k] + [s[k]];
    }
    assert s[..|s|] == s;
    return false;
  }

  method CleanScopes(scopes: seq<seq<string>>) returns (normalized: seq<seq<string>>)
    ensures |normalized| == |scopes|
    ensures forall i :: 0 <= i < |scopes| ==> normalized[i] == CleanAll(scopes[i])
  {
    normalized := [];
    for i := 0 to |scopes|
      invariant |normalized| == i
      invariant forall k :: 0 <= k < i ==> normalized[k] == CleanAll(scopes[k])
    {
      normalized := normalized + [CleanAll(scopes[i])];
    }
  }

  method ComparePairs(normalized: seq<seq<string>>) returns (overlap: bool)
    ensures overlap <==> exists i, j :: 0 <= i < j < |normalized| && FilesOverlap(normalized[i], normalized[j])
  {
    for i := 0 to |normalized|
      invariant forall k, l :: 0 <= k < i && k < l < |normalized| ==> !FilesOverlap(normalized[k], normalized[l])
    {
      for j := i + 1 to |normalized|
        invariant forall l :: i < l < j ==> !FilesOverlap(normalized[i], normalized[l])
      {
        var found := AnyOverlap(normalized[i], normalized[j]);
        if found {
          return true;
        }
      }
    }
    return false;
  }

  ghost predicate ScopesOverlap(scopes: seq<seq<string>>) {
    exists i, j :: 0 <= i < j < |scopes| && FilesOverlap(CleanAll(scopes[i]), CleanAll(scopes[j]))
  }

  /** checkFileOverlaps: clean every scope, then compare every pair of children. */
  method CheckFileOverlaps(scopes: seq<seq<string>>) returns (overlap: bool)
    ensures overlap <==> ScopesOverlap(scopes)
  {
    var normalized := CleanScopes(scopes);
    overlap := ComparePairs(normalized);
  }

  /** Scopes that pass the check share no path: what lies under an entry of one child lies under no
      entry of another. */
  lemma ScopesAreDisjoint(scopes: seq<seq<string>>, i: nat, j: nat, f: string, g: string, p: Components)
    requires !ScopesOverlap(scopes)
    requires i < j < |scopes| && f in scopes[i] && g in scopes[j]
    requires ScopeAccepted(f) && ScopeAccepted(g)
    ensures !(LiesUnder(p, Normal(f)) && LiesUnder(p, Normal(g)))
  {
    CleanAllContains(scopes[i], f);
    CleanAllContains(scopes[j], g);
    assert !HasOverlap(Clean(f), Clean(g));
    OverlapIsSharedPath(f, g);
  }
}
