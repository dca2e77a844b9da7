/** internal/evaluation/snapshot.go, 180-200: the two digests of a specification and how much of it
    they pin down. */
module WorkspaceDigests {
  import opened Wrappers
  import opened Workspace
  import opened WorkspacePaths
  import opened WorkspaceSpecs

  datatype Digests = Digests(snapshot: string, source: string)

  method Digest(s: Spec, fold: char -> char) returns (r: Result<Digests, Refusal>)
    requires KeepsMarks(fold)
    ensures r.Ok? <==> Stageable(s, fold)
    ensures r.Ok? ==> r.value == Digests(Preimage(StagedFiles(s)), Preimage(Section(CONTEXT, s.context)))
  {
    var staged := Staged(s, fold);
    if staged.Err? {
      return Err(staged.error);
    }
    var context := ContextOf(staged.value);
    PartsApart(s);
    var snapshot := DigestStaged(staged.value);
    var source := DigestStaged(context);
    return Ok(Digests(snapshot, source));
  }

  lemma {:induction false} KeptCount(files: seq<StagedFile>, dir: string, f: StagedFile)
    ensures multiset(Kept(files, dir))[f] == if InDir(dir, f.path) then multiset(files)[f] else 0
    decreases |files|
  {
    if files != [] {
      var rest, last := files[..|files| - 1], files[|files| - 1];
      KeptCount(rest, dir, f);
      assert files == rest + [last];
    }
  }

  lemma KeptBag(a: seq<StagedFile>, b: seq<StagedFile>, dir: string)
    requires multiset(a) == multiset(b)
    ensures multiset(Kept(a, dir)) == multiset(Kept(b, dir))
  {
    forall f
      ensures multiset(Kept(a, dir))[f] == multiset(Kept(b, dir))[f]
    {
      KeptCount(a, dir, f);
      KeptCount(b, dir, f);
    }
  }

  function Unplaced(dir: string, g: StagedFile): WorkspaceFile
    requires InDir(dir, g.path)
  {
    WorkspaceFile(g.path[|dir| + 1..], g.executable, g.content)
  }

  lemma PlaceUnplaced(dir: string, g: StagedFile, f: WorkspaceFile)
    ensures InDir(dir, Place(dir, f).path)
    ensures InDir(dir, g.path) ==> (Unplaced(dir, g) == f <==> g == Place(dir, f))
  {
    var head := dir + "/";
    assert Place(dir, f).path[|head|..] == f.path;
    if InDir(dir, g.path) {
      assert g.path == head + g.path[|head|..];
    }
  }

  lemma {:induction false} SectionCount(dir: string, files: seq<WorkspaceFile>, g: StagedFile)
    ensures multiset(Section(dir, files))[g] == if InDir(dir, g.path) then multiset(files)[Unplaced(dir, g)] else 0
    decreases |files|
  {
    if files != [] {
      var rest, last := files[..|files| - 1], files[|files| - 1];
      SectionCount(dir, rest, g);
      PlaceUnplaced(dir, g, last);
      assert files == rest + [last];
    }
  }

  lemma SectionBag(dir: string, a: seq<WorkspaceFile>, b: seq<WorkspaceFile>)
    ensures multiset(Section(dir, a)) == multiset(Section(dir, b)) <==> multiset(a) == multiset(b)
  {
    if multiset(Section(dir, a)) == multiset(Section(dir, b)) {
      forall f
        ensures multiset(a)[f] == multiset(b)[f]
      {
        PlaceUnplaced(dir, Place(dir, f), f);
        SectionCount(dir, a, Place(dir, f));
        SectionCount(dir, b, Place(dir, f));
      }
    }
    if multiset(a) == multiset(b) {
      forall g
        ensures multiset(Section(dir, a))[g] == multiset(Section(dir, b))[g]
      {
        SectionCount(dir, a, g);
        SectionCount(dir, b, g);
      }
    }
  }

  /** The same specification up to the order in which its files are listed. */
  ghost predicate SameSpec(s: Spec, t: Spec) {
    && multiset(s.artifact) == multiset(t.artifact)
    && multiset(s.context) == multiset(t.context)
    && s.acceptance == t.acceptance
  }

  lemma StagedBag(s: Spec, t: Spec)
    ensures multiset(StagedFiles(s)) == multiset(StagedFiles(t)) <==> SameSpec(s, t)
  {
    SectionBag(ARTIFACT, s.artifact, t.artifact);
    SectionBag(CONTEXT, s.context, t.context);
    var a, c, b, d := Section(ARTIFACT, s.artifact), Section(CONTEXT, s.context), Section(ARTIFACT, t.artifact), Section(CONTEXT, t.context);
    if multiset(StagedFiles(s)) == multiset(StagedFiles(t)) {
      KeptBag(StagedFiles(s), StagedFiles(t), ARTIFACT);
      KeptBag(StagedFiles(s), StagedFiles(t), CONTEXT);
      PartsApart(s);
      PartsApart(t);
      SameLast(multiset(a) + multiset(c), Criteria(s), Criteria(t));
    }
  }

  lemma SameLast(m: multiset<StagedFile>, f: StagedFile, g: StagedFile)
    requires m + multiset{f} == m + multiset{g}
    ensures f == g
  {
    assert (m + multiset{f})[f] == m[f] + 1;
  }

  /** The snapshot digest pins down the whole specification and the source digest its context, both
      up to the order of the lists and nothing more. */
  lemma DigestsAreExact(s: Spec, t: Spec, fold: char -> char)
    requires Stageable(s, fold) && Stageable(t, fold)
    requires AllFieldsFit(StagedFiles(s)) && AllFieldsFit(StagedFiles(t))
    ensures Preimage(StagedFiles(s)) == Preimage(StagedFiles(t)) <==> SameSpec(s, t)
    ensures Preimage(Section(CONTEXT, s.context)) == Preimage(Section(CONTEXT, t.context))
      <==> multiset(s.context) == multiset(t.context)
  {
    PreimageIsExact(StagedFiles(s), StagedFiles(t), LowerBy(fold));
    StagedBag(s, t);
    ContextFits(s, fold);
    ContextFits(t, fold);
    DistinctPreimages(Section(CONTEXT, s.context), Section(CONTEXT, t.context));
    SectionBag(CONTEXT, s.context, t.context);
  }

  lemma ContextFits(s: Spec, fold: char -> char)
    requires Stageable(s, fold) && AllFieldsFit(StagedFiles(s))
    ensures PathsDistinct(Section(CONTEXT, s.context)) && AllFieldsFit(Section(CONTEXT, s.context))
  {
    AcceptedAreDistinct(StagedFiles(s), LowerBy(fold));
    MiddleFits(Section(ARTIFACT, s.artifact), Section(CONTEXT, s.context), [Criteria(s)]);
  }

  lemma MiddleFits(a: seq<StagedFile>, c: seq<StagedFile>, last: seq<StagedFile>)
    requires PathsDistinct(a + c + last) && AllFieldsFit(a + c + last)
    ensures PathsDistinct(c) && AllFieldsFit(c)
  {
    var all := a + c + last;
    forall i, j | 0 <= i < j < |c|
      ensures c[i].path != c[j].path
    {
      assert all[|a| + i] == c[i] && all[|a| + j] == c[j];
    }
    forall f | f in c
      ensures f in all
    {
      var i :| 0 <= i < |c| && c[i] == f;
      assert all[|a| + i] == f;
    }
  }
}
