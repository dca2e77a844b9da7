/** internal/evaluation/snapshot.go, 51-57 and 90-115: from a specification to the files that are
    staged, and what the two digests say about it. */
module WorkspaceSpecs {
  import opened Wrappers
  import opened ManifestPaths
  import opened WorkspacePaths
  import opened Workspace
  import Text

  datatype WorkspaceFile = WorkspaceFile(path: string, executable: bool, content: string)

  datatype Spec = Spec(artifact: seq<WorkspaceFile>, context: seq<WorkspaceFile>, acceptance: string)

  datatype Refusal = Unsafe | NoArtifact | NoAcceptance | Content(error: Workspace.Error)

  const ARTIFACT := "artifact"
  const CONTEXT := "context"
  const ACCEPTANCE := "ACCEPTANCE.md"

  function Place(dir: string, f: WorkspaceFile): StagedFile {
    StagedFile(dir + "/" + f.path, f.executable, f.content)
  }

  function Section(dir: string, files: seq<WorkspaceFile>): (r: seq<StagedFile>)
    ensures |r| == |files| && forall i :: 0 <= i < |files| ==> r[i] == Place(dir, files[i])
  {
    if files == [] then [] else Section(dir, files[..|files| - 1]) + [Place(dir, files[|files| - 1])]
  }

  function Criteria(s: Spec): StagedFile {
    StagedFile(ACCEPTANCE, false, s.acceptance)
  }

  function StagedFiles(s: Spec): seq<StagedFile> {
    Section(ARTIFACT, s.artifact) + Section(CONTEXT, s.context) + [Criteria(s)]
  }

  ghost predicate AllSafe(files: seq<WorkspaceFile>) {
    forall i :: 0 <= i < |files| ==> SafePath(files[i].path)
  }

  method Add(dir: string, files: seq<WorkspaceFile>) returns (r: Result<seq<StagedFile>, Refusal>)
    ensures r == if AllSafe(files) then Ok(Section(dir, files)) else Err(Unsafe)
  {
    var added: seq<StagedFile> := [];
    for i := 0 to |files|
      invariant AllSafe(files[..i]) && added == Section(dir, files[..i])
    {
      var safe := ValidateWorkspacePath(files[i].path);
      if !safe {
        return Err(Unsafe);
      }
      added := added + [Place(dir, files[i])];
    }
    assert files[..|files|] == files;
    return Ok(added);
  }

  function LowerBy(fold: char -> char): string -> string {
    (p: string) => Lower(p, fold)
  }

  /** A specification that may be staged. */
  ghost predicate Stageable(s: Spec, fold: char -> char) {
    && AllSafe(s.artifact) && AllSafe(s.context)
    && s.artifact != [] && !Text.Blank(s.acceptance)
    && Accepted(StagedFiles(s), LowerBy(fold))
  }

  method Staged(s: Spec, fold: char -> char) returns (r: Result<seq<StagedFile>, Refusal>)
    requires KeepsMarks(fold)
    ensures r.Ok? <==> Stageable(s, fold)
    ensures r.Ok? ==> r.value == StagedFiles(s)
  {
    var artifact := Add(ARTIFACT, s.artifact);
    if artifact.Err? {
      return artifact;
    }
    var context := Add(CONTEXT, s.context);
    if context.Err? {
      return context;
    }
    if s.artifact == [] {
      return Err(NoArtifact);
    }
    if Text.Blank(s.acceptance) {
      return Err(NoAcceptance);
    }
    AllPlacedSafely(s);
    KeysAreClean(StagedFiles(s), fold);
    var files := artifact.value + context.value + [StagedFile(ACCEPTANCE, false, s.acceptance)];
    var err := CheckStaged(files, LowerBy(fold));
    return if err.Some? then Err(Content(err.value)) else Ok(files);
  }

  ghost predicate PathsSafe(files: seq<StagedFile>) {
    forall i :: 0 <= i < |files| ==> SafePath(files[i].path)
  }

  predicate WordChar(c: char) {
    'A' <= c <= 'Z' || 'a' <= c <= 'z' || c == '.'
  }

  lemma WordIsSafe(s: string)
    requires s != "" && s[0] != '.' && forall i :: 0 <= i < |s| ==> WordChar(s[i])
    ensures SafeName(s) && SafePath(s)
  {
    assert LowerAscii(s)[0] != '.' && GIT[0] == '.';
    assert Join([s]) == s;
  }

  lemma ArtifactIsSafe()
    ensures SafeName(ARTIFACT)
  {
    WordIsSafe(ARTIFACT);
  }

  lemma ContextIsSafe()
    ensures SafeName(CONTEXT)
  {
    WordIsSafe(CONTEXT);
  }

  lemma CriteriaAreSafe(s: Spec)
    ensures SafePath(Criteria(s).path)
  {
    WordIsSafe(ACCEPTANCE);
  }

  /** Every staged path is safe. */
  lemma AllPlacedSafely(s: Spec)
    requires AllSafe(s.artifact) && AllSafe(s.context)
    ensures PathsSafe(StagedFiles(s))
  {
    ArtifactIsSafe();
    ContextIsSafe();
    CriteriaAreSafe(s);
    SectionSafe(ARTIFACT, s.artifact);
    SectionSafe(CONTEXT, s.context);
    SafeTogether(Section(ARTIFACT, s.artifact), Section(CONTEXT, s.context), Criteria(s));
  }

  lemma SafeTogether(a: seq<StagedFile>, c: seq<StagedFile>, last: StagedFile)
    requires PathsSafe(a) && PathsSafe(c) && SafePath(last.path)
    ensures PathsSafe(a + c + [last])
  {}

  lemma SectionSafe(dir: string, files: seq<WorkspaceFile>)
    requires SafeName(dir) && AllSafe(files)
    ensures PathsSafe(Section(dir, files))
  {
    forall i | 0 <= i < |files|
      ensures SafePath(Section(dir, files)[i].path)
    {
      SafeStaysInside(dir, files[i].path);
    }
  }

  lemma KeysAreClean(files: seq<StagedFile>, fold: char -> char)
    requires KeepsMarks(fold) && PathsSafe(files)
    ensures forall f :: f in files ==> CleanKey(Lower(f.path, fold)) && AllNames(Split(Lower(f.path, fold)))
  {
    forall f | f in files
      ensures CleanKey(Lower(f.path, fold)) && AllNames(Split(Lower(f.path, fold)))
    {
      LoweredIsCleanKey(f.path, fold);
    }
  }

  /** The components of a staged file's key. */
  function KeyOf(f: StagedFile, fold: char -> char): Components {
    Split(Lower(f.path, fold))
  }

  /** The keys are the leaves of one tree: none equals or lies under another. */
  ghost predicate LeavesOfATree(files: seq<StagedFile>, fold: char -> char) {
    forall i, j :: 0 <= i < |files| && 0 <= j < |files| && i != j ==> !(KeyOf(files[i], fold) <= KeyOf(files[j], fold))
  }

  lemma ClashIsPrefix(f: StagedFile, g: StagedFile, fold: char -> char)
    requires KeepsMarks(fold) && SafePath(f.path) && SafePath(g.path)
    ensures KeyOf(f, fold) <= KeyOf(g, fold) <==>
      Lower(f.path, fold) == Lower(g.path, fold) || Lower(f.path, fold) in Ancestors(Lower(g.path, fold))
  {
    LoweredIsCleanKey(f.path, fold);
    LoweredIsCleanKey(g.path, fold);
    AncestorIsShorter(Lower(f.path, fold), Lower(g.path, fold));
  }

  /** The string tests of checkStaged say exactly that. */
  lemma AcceptedIsATree(files: seq<StagedFile>, fold: char -> char)
    requires KeepsMarks(fold) && PathsSafe(files)
    ensures KeysDistinct(files, LowerBy(fold)) && NoFileIsDirectory(files, LowerBy(fold)) <==> LeavesOfATree(files, fold)
  {
    var lower := LowerBy(fold);
    if KeysDistinct(files, lower) && NoFileIsDirectory(files, lower) {
      forall i, j | 0 <= i < |files| && 0 <= j < |files| && i != j
        ensures !(KeyOf(files[i], fold) <= KeyOf(files[j], fold))
      {
        ClashIsPrefix(files[i], files[j], fold);
        assert lower(files[i].path) != lower(files[j].path);
      }
    }
    if LeavesOfATree(files, fold) {
      forall i, j | 0 <= i < j < |files|
        ensures lower(files[i].path) != lower(files[j].path)
      {
        ClashIsPrefix(files[i], files[j], fold);
      }
      forall f, g | f in files && g in files
        ensures lower(f.path) !in Ancestors(lower(g.path))
      {
        var i :| 0 <= i < |files| && files[i] == f;
        var j :| 0 <= j < |files| && files[j] == g;
        ClashIsPrefix(files[i], files[j], fold);
      }
    }
  }

  /** Nothing that is staged leaves its directory or touches git's metadata, and all of it can be
      written side by side, whatever the file system does to case. */
  lemma StagedIsContained(s: Spec, fold: char -> char)
    requires KeepsMarks(fold) && Stageable(s, fold)
    ensures PathsSafe(StagedFiles(s)) && LeavesOfATree(StagedFiles(s), fold)
    ensures forall f :: f in s.artifact ==> Normal(Place(ARTIFACT, f).path) == [ARTIFACT] + Split(f.path)
    ensures forall f :: f in s.context ==> Normal(Place(CONTEXT, f).path) == [CONTEXT] + Split(f.path)
  {
    AllPlacedSafely(s);
    AcceptedIsATree(StagedFiles(s), fold);
    ArtifactIsSafe();
    ContextIsSafe();
    forall f | f in s.artifact
      ensures Normal(Place(ARTIFACT, f).path) == [ARTIFACT] + Split(f.path)
    {
      SafeStaysInside(ARTIFACT, f.path);
    }
    forall f | f in s.context
      ensures Normal(Place(CONTEXT, f).path) == [CONTEXT] + Split(f.path)
    {
      SafeStaysInside(CONTEXT, f.path);
    }
  }

  predicate InDir(dir: string, path: string) {
    dir + "/" <= path
  }

  /** The loop of digestOf that keeps the context files. */
  method ContextOf(files: seq<StagedFile>) returns (kept: seq<StagedFile>)
    ensures kept == Kept(files, CONTEXT)
  {
    kept := [];
    for i := 0 to |files|
      invariant kept == Kept(files[..i], CONTEXT)
    {
      assert files[..i + 1][..i] == files[..i];
      if InDir(CONTEXT, files[i].path) {
        kept := kept + [files[i]];
      }
    }
    assert files[..|files|] == files;
  }

  function Kept(files: seq<StagedFile>, dir: string): seq<StagedFile> {
    if files == [] then []
    else
      var rest, last := Kept(files[..|files| - 1], dir), files[|files| - 1];
      if InDir(dir, last.path) then rest + [last] else rest
  }

  lemma {:induction false} KeptConcat(a: seq<StagedFile>, b: seq<StagedFile>, dir: string)
    ensures Kept(a + b, dir) == Kept(a, dir) + Kept(b, dir)
    decreases |b|
  {
    if b == [] {
      assert a + b == a;
    } else {
      var b' := b[..|b| - 1];
      assert (a + b)[..|a + b| - 1] == a + b';
      KeptConcat(a, b', dir);
    }
  }

  lemma {:induction false} KeptAll(dir: string, files: seq<WorkspaceFile>)
    ensures Kept(Section(dir, files), dir) == Section(dir, files)
    decreases |files|
  {
    if files != [] {
      var rest, last := files[..|files| - 1], files[|files| - 1];
      KeptAll(dir, rest);
      assert InDir(dir, Place(dir, last).path);
      assert Section(dir, files)[..|files| - 1] == Section(dir, rest);
    }
  }

  lemma {:induction false} KeptNone(dir: string, files: seq<WorkspaceFile>, other: string)
    requires dir != "" && other != "" && dir[0] != other[0]
    ensures Kept(Section(dir, files), other) == []
    decreases |files|
  {
    if files != [] {
      var rest, last := files[..|files| - 1], files[|files| - 1];
      KeptNone(dir, rest, other);
      var path := Place(dir, last).path;
      assert path[0] == dir[0] && (other + "/")[0] == other[0];
      assert Section(dir, files)[..|files| - 1] == Section(dir, rest);
    }
  }

  lemma CriteriaIsApart(s: Spec)
    ensures Kept([Criteria(s)], ARTIFACT) == [] && Kept([Criteria(s)], CONTEXT) == []
  {
    assert ACCEPTANCE[0] != (ARTIFACT + "/")[0] && ACCEPTANCE[0] != (CONTEXT + "/")[0];
    assert [Criteria(s)][..0] == [];
  }

  lemma PartsApartIn(a: seq<StagedFile>, c: seq<StagedFile>, last: seq<StagedFile>, dir: string)
    requires Kept(last, dir) == []
    ensures Kept(a + c + last, dir) == Kept(a, dir) + Kept(c, dir)
  {
    KeptConcat(a + c, last, dir);
    KeptConcat(a, c, dir);
  }

  /** The three parts of a staged workspace can be told apart by their paths. */
  lemma PartsApart(s: Spec)
    ensures Kept(StagedFiles(s), CONTEXT) == Section(CONTEXT, s.context)
    ensures Kept(StagedFiles(s), ARTIFACT) == Section(ARTIFACT, s.artifact)
  {
    var a, c, last := Section(ARTIFACT, s.artifact), Section(CONTEXT, s.context), [Criteria(s)];
    CriteriaIsApart(s);
    KeptAll(ARTIFACT, s.artifact);
    KeptAll(CONTEXT, s.context);
    KeptNone(ARTIFACT, s.artifact, CONTEXT);
    KeptNone(CONTEXT, s.context, ARTIFACT);
    PartsApartIn(a, c, last, ARTIFACT);
    PartsApartIn(a, c, last, CONTEXT);
  }
}
