/** internal/evaluation/snapshot.go, 83-176: the files of a staged workspace, the check that accepts
    them and the bytes their digest is taken over. */
module Workspace {
  import opened Wrappers
  import opened Ordering
  import opened Encoding

  datatype StagedFile = StagedFile(path: string, executable: bool, content: string)

  datatype Error = TooLarge | Collision | FileAndDirectory

  const MAX_FILES := 2000
  const MAX_FILE_BYTES := 8 * 1024 * 1024
  const MAX_BYTES := 64 * 1024 * 1024

  function Total(files: seq<StagedFile>): nat {
    if files == [] then 0 else Total(files[..|files| - 1]) + |files[|files| - 1].content|
  }

  /** The directories above a path. */
  function Ancestors(key: string): set<string> {
    set i | 0 <= i < |key| && key[i] == '/' :: key[..i]
  }

  /** A lower-cased path as ValidateWorkspacePath lets it through: relative and clean. */
  predicate CleanKey(key: string) {
    && key != "" && key != "." && !("./" <= key)
    && forall i :: 0 <= i < |key| && key[i] == '/' ==> 0 < i < |key| - 1 && key[i + 1] != '/'
  }

  /** path.Dir of such a path. */
  function LastSlash(p: string): (i: int)
    ensures -1 <= i < |p|
    ensures i >= 0 ==> p[i] == '/'
    ensures forall j :: i < j < |p| ==> p[j] != '/'
  {
    if p == "" then -1
    else if p[|p| - 1] == '/' then |p| - 1
    else LastSlash(p[..|p| - 1])
  }

  function Dir(p: string): string {
    var i := LastSlash(p);
    if i < 0 then "." else p[..i]
  }

  ghost predicate Accepted(files: seq<StagedFile>, lower: string -> string) {
    && |files| <= MAX_FILES && Total(files) <= MAX_BYTES
    && (forall f :: f in files ==> |f.content| <= MAX_FILE_BYTES)
    && KeysDistinct(files, lower)
    && NoFileIsDirectory(files, lower)
  }

  ghost predicate KeysDistinct(files: seq<StagedFile>, lower: string -> string) {
    forall i, j :: 0 <= i < j < |files| ==> lower(files[i].path) != lower(files[j].path)
  }

  ghost predicate NoFileIsDirectory(files: seq<StagedFile>, lower: string -> string) {
    forall f, g :: f in files && g in files ==> lower(f.path) !in Ancestors(lower(g.path))
  }

  /** The loop over path.Dir marks exactly the directories above the path. */
  method MarkDirs(dirs: set<string>, key: string) returns (marked: set<string>)
    requires CleanKey(key)
    ensures marked == dirs + Ancestors(key)
  {
    marked := dirs;
    var d := Dir(key);
    var i := LastSlash(key);
    assert forall j :: i < j < |key| ==> key[j] != '/';
    while d != "."
      invariant -1 <= i < |key|
      invariant i >= 0 ==> key[i] == '/' && d == key[..i]
      invariant i < 0 ==> d == "."
      invariant marked == dirs + set j | i < j < |key| && key[j] == '/' :: key[..j]
      decreases i
    {
      marked := marked + {d};
      var next := LastSlash(d);
      assert forall j :: next < j < i ==> key[j] == d[j];
      assert next >= 0 ==> d[..next] == key[..next];
      d := Dir(d);
      i := next;
    }
    if i >= 0 {
      DotIsNoAncestor(key, i);
    }
  }

  lemma DotIsNoAncestor(key: string, i: int)
    requires CleanKey(key) && 0 <= i < |key| && key[i] == '/'
    ensures key[..i] != "."
  {
    assert !("./" <= key);
    assert i == 1 ==> key[..2] == [key[0], '/'];
  }

  ghost function KeySet(files: seq<StagedFile>, lower: string -> string): set<string> {
    set f | f in files :: lower(f.path)
  }

  ghost function DirSet(files: seq<StagedFile>, lower: string -> string): set<string> {
    if files == [] then {}
    else DirSet(files[..|files| - 1], lower) + Ancestors(lower(files[|files| - 1].path))
  }

  lemma {:induction false} DirSetMembers(files: seq<StagedFile>, lower: string -> string, d: string)
    ensures d in DirSet(files, lower) <==> exists f :: f in files && d in Ancestors(lower(f.path))
    decreases |files|
  {
    if files != [] {
      var rest, last := files[..|files| - 1], files[|files| - 1];
      assert files == rest + [last];
      DirSetMembers(rest, lower, d);
    }
  }

  lemma ClashIsFileInDirs(files: seq<StagedFile>, lower: string -> string)
    ensures KeySet(files, lower) * DirSet(files, lower) == {} <==> NoFileIsDirectory(files, lower)
  {
    forall d
      ensures d in DirSet(files, lower) <==> exists f :: f in files && d in Ancestors(lower(f.path))
    {
      DirSetMembers(files, lower, d);
    }
    if KeySet(files, lower) * DirSet(files, lower) == {} {
      forall f, g | f in files && g in files
        ensures lower(f.path) !in Ancestors(lower(g.path))
      {
        assert lower(f.path) in KeySet(files, lower);
        assert lower(f.path) in DirSet(files, lower) <==> lower(f.path) in KeySet(files, lower) * DirSet(files, lower);
        assert f in files && g in files;
      }
    }
  }

  /** What the loop of checkStaged has accepted. */
  ghost predicate SoFar(files: seq<StagedFile>, lower: string -> string) {
    && Total(files) <= MAX_BYTES && KeysDistinct(files, lower)
    && forall f :: f in files ==> |f.content| <= MAX_FILE_BYTES
  }

  lemma Extend(files: seq<StagedFile>, f: StagedFile, lower: string -> string)
    ensures SoFar(files + [f], lower) <==>
      (SoFar(files, lower) && |f.content| <= MAX_FILE_BYTES && Total(files) + |f.content| <= MAX_BYTES
      && lower(f.path) !in KeySet(files, lower))
    ensures Total(files + [f]) == Total(files) + |f.content|
    ensures KeySet(files + [f], lower) == KeySet(files, lower) + {lower(f.path)}
    ensures DirSet(files + [f], lower) == DirSet(files, lower) + Ancestors(lower(f.path))
  {
    var all := files + [f];
    assert all[..|files|] == files && all[|files|] == f;
    assert forall i :: 0 <= i < |files| ==> all[i] == files[i];
    if KeysDistinct(all, lower) {
      forall g | g in files
        ensures lower(g.path) != lower(f.path)
      {
        var i :| 0 <= i < |files| && files[i] == g;
        assert lower(all[i].path) != lower(all[|files|].path);
      }
    }
    if KeysDistinct(files, lower) && lower(f.path) !in KeySet(files, lower) {
      forall i | 0 <= i < |files|
        ensures lower(all[i].path) != lower(f.path)
      {
        assert files[i] in files;
      }
    }
    if SoFar(all, lower) {
      assert f in all && forall g :: g in files ==> g in all;
    }
  }

  lemma {:induction false} PrefixSoFar(files: seq<StagedFile>, n: nat, lower: string -> string)
    requires n <= |files| && SoFar(files, lower)
    ensures SoFar(files[..n], lower)
    decreases |files| - n
  {
    if n == |files| {
      assert files[..n] == files;
    } else {
      PrefixSoFar(files, n + 1, lower);
      assert files[..n + 1] == files[..n] + [files[n]];
      Extend(files[..n], files[n], lower);
    }
  }

  method CheckStaged(files: seq<StagedFile>, lower: string -> string) returns (err: Option<Error>)
    requires forall f :: f in files ==> CleanKey(lower(f.path))
    ensures err.None? <==> Accepted(files, lower)
  {
    if |files| > MAX_FILES {
      return Some(TooLarge);
    }
    var total := 0;
    var seen: set<string>, dirs: set<string> := {}, {};
    for i := 0 to |files|
      invariant SoFar(files[..i], lower)
      invariant total == Total(files[..i])
      invariant seen == KeySet(files[..i], lower) && dirs == DirSet(files[..i], lower)
    {
      assert files[..i + 1] == files[..i] + [files[i]];
      Extend(files[..i], files[i], lower);
      err, total, seen, dirs := AddFile(files[i], lower(files[i].path), total, seen, dirs);
      if err.Some? {
        if SoFar(files, lower) {
          PrefixSoFar(files, i + 1, lower);
        }
        return;
      }
    }
    assert files[..|files|] == files;
    ClashIsFileInDirs(files, lower);
    var clash := AnyDirectory(seen, dirs);
    return if clash then Some(FileAndDirectory) else None;
  }

  /** One turn of the loop. */
  method AddFile(f: StagedFile, key: string, total: nat, seen: set<string>, dirs: set<string>)
    returns (err: Option<Error>, total': nat, seen': set<string>, dirs': set<string>)
    requires CleanKey(key)
    ensures err.None? <==> |f.content| <= MAX_FILE_BYTES && total + |f.content| <= MAX_BYTES && key !in seen
    ensures err.None? ==> total' == total + |f.content| && seen' == seen + {key} && dirs' == dirs + Ancestors(key)
    ensures err == Some(Collision) ==> key in seen
  {
    total', seen', dirs' := total, seen, dirs;
    if |f.content| > MAX_FILE_BYTES {
      return Some(TooLarge), total', seen', dirs';
    }
    total' := total' + |f.content|;
    if total' > MAX_BYTES {
      return Some(TooLarge), total', seen', dirs';
    }
    if key in seen {
      return Some(Collision), total', seen', dirs';
    }
    seen' := seen' + {key};
    dirs' := MarkDirs(dirs', key);
    err := None;
  }

  /** The loop over the keys seen, in whatever order the map yields them. */
  method AnyDirectory(seen: set<string>, dirs: set<string>) returns (clash: bool)
    ensures clash <==> seen * dirs != {}
  {
    var left := seen;
    while left != {}
      invariant left <= seen && (seen - left) * dirs == {}
      decreases |left|
    {
      var key :| key in left;
      if key in dirs {
        assert key in seen * dirs;
        return true;
      }
      left := left - {key};
    }
    assert seen - left == seen;
    return false;
  }

  predicate ByPath(f: StagedFile, g: StagedFile) {
    Before(f.path, g.path)
  }

  const HEADER := "odonian-workspace/v1"

  function Mode(f: StagedFile): string {
    if f.executable then "755" else "644"
  }

  function Fields(files: seq<StagedFile>): seq<string> {
    if files == [] then []
    else Fields(files[..|files| - 1]) + FileFields(files[|files| - 1])
  }

  function FileFields(f: StagedFile): seq<string> {
    [f.path, Mode(f), f.content]
  }

  /** The bytes that are hashed. */
  function Preimage(files: seq<StagedFile>): string {
    Encode([HEADER] + Fields(SortBy(files, ByPath)))
  }

  method PutFile(h: Hash, f: StagedFile)
    requires h.Valid()
    modifies h
    ensures h.Valid() && h.fields == old(h.fields) + FileFields(f)
  {
    h.Put(f.path);
    var mode := "644";
    if f.executable {
      mode := "755";
    }
    h.Put(mode);
    h.Put(f.content);
  }

  method DigestStaged(files: seq<StagedFile>) returns (bytes: string)
    ensures bytes == Preimage(files)
  {
    var sorted := SortBy(files, ByPath);
    var h := new Hash();
    h.Put(HEADER);
    for i := 0 to |sorted|
      invariant h.Valid() && h.fields == [HEADER] + Fields(sorted[..i])
    {
      PutFile(h, sorted[i]);
      assert sorted[..i + 1][..i] == sorted[..i];
    }
    assert sorted[..|sorted|] == sorted;
    bytes := h.written;
  }

  ghost predicate PathsDistinct(files: seq<StagedFile>) {
    forall i, j :: 0 <= i < j < |files| ==> files[i].path != files[j].path
  }

  lemma PathsOrder(files: seq<StagedFile>)
    requires PathsDistinct(files)
    ensures Orders(ByPath, files)
  {
    BeforeIsStrictOrder();
  }

  lemma {:induction false} FieldsInjective(a: seq<StagedFile>, b: seq<StagedFile>)
    requires Fields(a) == Fields(b)
    ensures a == b
    decreases |a|
  {
    FieldsLength(a);
    FieldsLength(b);
    if a != [] {
      var a', f, b', g := a[..|a| - 1], a[|a| - 1], b[..|b| - 1], b[|b| - 1];
      FieldsLength(a');
      FieldsLength(b');
      assert Fields(a) == Fields(a') + FileFields(f) && Fields(b) == Fields(b') + FileFields(g);
      var n := |Fields(a')|;
      assert Fields(a)[..n] == Fields(a') && Fields(b)[..n] == Fields(b');
      assert Fields(a)[n..] == FileFields(f) && Fields(b)[n..] == FileFields(g);
      assert FileFields(f)[0] == FileFields(g)[0] && FileFields(f)[1] == FileFields(g)[1] && FileFields(f)[2] == FileFields(g)[2];
      FieldsInjective(a', b');
      assert a == a' + [f] && b == b' + [g];
    }
  }

  lemma {:induction false} FieldsLength(files: seq<StagedFile>)
    ensures |Fields(files)| == 3 * |files|
    decreases |files|
  {
    if files != [] {
      FieldsLength(files[..|files| - 1]);
    }
  }

  ghost predicate AllFieldsFit(files: seq<StagedFile>) {
    forall f :: f in files ==> Fits(f.path) && Fits(f.content)
  }

  lemma {:induction false} FieldsFit(files: seq<StagedFile>)
    requires AllFieldsFit(files)
    ensures AllFit(Fields(files))
    decreases |files|
  {
    if files != [] {
      FieldsFit(files[..|files| - 1]);
      assert files[|files| - 1] in files;
      assert Pow256(WIDTH) > 3;
    }
  }

  /** Two lists of files with distinct paths hash the same bytes exactly when they hold the same
      files: same paths, modes and contents, in whatever order. */
  lemma DistinctPreimages(a: seq<StagedFile>, b: seq<StagedFile>)
    requires PathsDistinct(a) && PathsDistinct(b) && AllFieldsFit(a) && AllFieldsFit(b)
    ensures Preimage(a) == Preimage(b) <==> multiset(a) == multiset(b)
  {
    PathsOrder(a);
    PathsOrder(b);
    SortIsCanonical(a, b, ByPath);
    var sa, sb := SortBy(a, ByPath), SortBy(b, ByPath);
    SameBag(sa, a);
    SameBag(sb, b);
    FieldsFit(sa);
    FieldsFit(sb);
    assert Pow256(WIDTH) > |HEADER|;
    EncodeIsInjective([HEADER] + Fields(sa), [HEADER] + Fields(sb));
    if Preimage(a) == Preimage(b) {
      assert ([HEADER] + Fields(sa))[1..] == Fields(sa) && ([HEADER] + Fields(sb))[1..] == Fields(sb);
      FieldsInjective(sa, sb);
    }
  }

  lemma AcceptedAreDistinct(files: seq<StagedFile>, lower: string -> string)
    requires Accepted(files, lower)
    ensures PathsDistinct(files)
  {
    forall i, j | 0 <= i < j < |files|
      ensures files[i].path != files[j].path
    {
      assert lower(files[i].path) != lower(files[j].path);
    }
  }

  lemma PreimageIsExact(a: seq<StagedFile>, b: seq<StagedFile>, lower: string -> string)
    requires Accepted(a, lower) && Accepted(b, lower) && AllFieldsFit(a) && AllFieldsFit(b)
    ensures Preimage(a) == Preimage(b) <==> multiset(a) == multiset(b)
  {
    AcceptedAreDistinct(a, lower);
    AcceptedAreDistinct(b, lower);
    DistinctPreimages(a, b);
  }
}
