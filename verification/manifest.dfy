/** internal/manifest/manifest.go: validation of a research continuation manifest, and what an
    accepted manifest guarantees. */
module Manifest {
  import opened Wrappers
  import opened Ordering
  import opened Text
  import opened Graphs
  import opened ManifestCycle
  import opened ManifestPaths

  datatype Disposition = Assigned | CarriedForward | Excluded | UnknownDisposition

  datatype Candidate = Candidate(claimId: string, disposition: Disposition, owner: Option<string>, reason: Option<string>)

  /** complete stands for the checks of validateChild on the fields that no property here reads
      (title, spec, track, models, flags, sources, criteria). */
  datatype Child = Child(
    key: string,
    complete: bool,
    claimIds: seq<string>,
    fileScope: seq<string>,
    dependencies: seq<Dependency>
  )

  datatype Manifest = Manifest(version: int, parentTaskId: string, children: seq<Child>, candidates: seq<Candidate>)

  datatype Error =
    | InvalidVersion | MissingParentTaskId | NoChildren | TooManyChildren
    | InvalidChild | DuplicateKey | DuplicateClaimAssignment | OversizedClaims
    | OverlappingFiles | InvalidDependency | DependencyCycle
    | InvalidCandidate | DuplicateCandidate | UnassignedCandidate | ContradictoryDisposition
    | MissingOwner | MissingReason | InvalidDisposition | UnmatchedChildClaim

  const CURRENT_VERSION := 1
  const MAX_CHILDREN := 3
  const MAX_CLAIMS := 6

  function IdSet(ids: seq<string>): set<string> {
    set id | id in ids
  }

  ghost predicate Claimed(children: seq<Child>, id: string) {
    exists i :: 0 <= i < |children| && id in children[i].claimIds
  }

  /** The claims of all children, in order. */
  function AllClaims(children: seq<Child>): (r: seq<string>)
    ensures forall id :: id in r <==> Claimed(children, id)
  {
    if children == [] then []
    else
      var rest, last := children[..|children| - 1], children[|children| - 1];
      var r := AllClaims(rest) + last.claimIds;
      assert forall id :: Claimed(children, id) <==> Claimed(rest, id) || id in last.claimIds by {
        assert forall i :: 0 <= i < |rest| ==> rest[i] == children[i];
      }
      r
  }

  function ClaimSet(children: seq<Child>): set<string> {
    IdSet(AllClaims(children))
  }

  ghost predicate ChildOk(c: Child) {
    && c.complete && !Blank(c.key)
    && c.claimIds != [] && (forall id :: id in c.claimIds ==> !Blank(id)) && Distinct(c.claimIds)
    && c.fileScope != [] && forall f :: f in c.fileScope ==> !Blank(f) && ScopeAccepted(f)
  }

  method HasDuplicate(ids: seq<string>) returns (duplicate: bool)
    ensures duplicate <==> !Distinct(ids)
  {
    var claimSet := {};
    for i := 0 to |ids|
      invariant claimSet == set k | 0 <= k < i :: ids[k]
      invariant Distinct(ids[..i])
    {
      if ids[i] in claimSet {
        return true;
      }
      claimSet := claimSet + {ids[i]};
    }
    assert ids[..|ids|] == ids;
    return false;
  }

  method ValidateChild(c: Child) returns (ok: bool)
    ensures ok <==> ChildOk(c)
  {
    if !c.complete || Blank(c.key) || c.claimIds == [] {
      return false;
    }
    for i := 0 to |c.claimIds|
      invariant forall k :: 0 <= k < i ==> !Blank(c.claimIds[k])
    {
      if Blank(c.claimIds[i]) {
        return false;
      }
    }
    var duplicate := HasDuplicate(c.claimIds);
    if duplicate || c.fileScope == [] {
      return false;
    }
    for i := 0 to |c.fileScope|
      invariant forall k :: 0 <= k < i ==> !Blank(c.fileScope[k]) && ScopeAccepted(c.fileScope[k])
    {
      if Blank(c.fileScope[i]) || !ScopeAccepted(c.fileScope[i]) {
        return false;
      }
    }
    return true;
  }

  /** What the first loop of Validate establishes: good children, distinct keys, and no claim in two
      children. */
  ghost predicate ChildrenOk(children: seq<Child>) {
    && (forall c :: c in children ==> ChildOk(c) && |c.claimIds| <= MAX_CLAIMS)
    && (forall i, j :: 0 <= i < j < |children| ==> children[i].key != children[j].key)
    && (forall i, j, id :: 0 <= i < j < |children| && id in children[i].claimIds ==> id !in children[j].claimIds)
  }

  /** A child whose claims are all new is the only owner of each of them. */
  method RecordClaims(claims: map<string, string>, c: Child) returns (fresh_: bool, recorded: map<string, string>)
    requires Distinct(c.claimIds)
    ensures fresh_ <==> forall id :: id in c.claimIds ==> id !in claims
    ensures fresh_ ==> recorded.Keys == claims.Keys + IdSet(c.claimIds)
  {
    recorded := claims;
    for i := 0 to |c.claimIds|
      invariant forall k :: 0 <= k < i ==> c.claimIds[k] !in claims
      invariant recorded.Keys == claims.Keys + (set k | 0 <= k < i :: c.claimIds[k])
    {
      if c.claimIds[i] in recorded {
        assert c.claimIds[i] in claims;
        return false, recorded;
      }
      recorded := recorded[c.claimIds[i] := c.key];
    }
    return true, recorded;
  }

  /** One turn of the loop over the children. */
  method AddChild(c: Child, seenKeys: set<string>, claims: map<string, string>)
    returns (err: Option<Error>, recorded: map<string, string>)
    ensures err.None? <==> ChildOk(c) && |c.claimIds| <= MAX_CLAIMS && c.key !in seenKeys && IdSet(c.claimIds) !! claims.Keys
    ensures err.None? ==> recorded.Keys == claims.Keys + IdSet(c.claimIds)
  {
    recorded := claims;
    var ok := ValidateChild(c);
    if !ok {
      return Some(InvalidChild), recorded;
    }
    if c.key in seenKeys {
      return Some(DuplicateKey), recorded;
    }
    var unique;
    unique, recorded := RecordClaims(claims, c);
    if !unique {
      return Some(DuplicateClaimAssignment), recorded;
    }
    if |c.claimIds| > MAX_CLAIMS {
      return Some(OversizedClaims), recorded;
    }
    return None, recorded;
  }

  function KeysOf(children: seq<Child>): set<string> {
    set c | c in children :: c.key
  }

  method CheckChildren(children: seq<Child>) returns (err: Option<Error>, allChildClaims: map<string, string>)
    ensures err.None? <==> ChildrenOk(children)
    ensures err.None? ==> allChildClaims.Keys == ClaimSet(children)
  {
    var seenKeys := {};
    allChildClaims := map[];
    for i := 0 to |children|
      invariant ChildrenOk(children[..i])
      invariant seenKeys == KeysOf(children[..i])
      invariant allChildClaims.Keys == ClaimSet(children[..i])
    {
      ChildrenExtend(children[..i], children[i]);
      assert children[..i + 1] == children[..i] + [children[i]];
      err, allChildClaims := AddChild(children[i], seenKeys, allChildClaims);
      if err.Some? {
        PrefixOk(children, i + 1);
        return;
      }
      seenKeys := seenKeys + {children[i].key};
    }
    assert children[..|children|] == children;
    return None, allChildClaims;
  }

  lemma PrefixOk(children: seq<Child>, n: nat)
    requires n <= |children|
    ensures ChildrenOk(children) ==> ChildrenOk(children[..n])
  {}

  lemma ChildrenExtend(children: seq<Child>, c: Child)
    ensures ChildrenOk(children + [c]) <==>
      (ChildrenOk(children) && ChildOk(c) && |c.claimIds| <= MAX_CLAIMS
      && c.key !in KeysOf(children) && IdSet(c.claimIds) !! ClaimSet(children))
    ensures KeysOf(children + [c]) == KeysOf(children) + {c.key}
    ensures ClaimSet(children + [c]) == ClaimSet(children) + IdSet(c.claimIds)
  {
    var all := children + [c];
    assert forall i :: 0 <= i < |children| ==> all[i] == children[i];
    assert all[|children|] == c;
    assert all[..|children|] == children;
    if ChildrenOk(all) {
      PrefixOk(all, |children|);
      assert c in all;
      forall k | 0 <= k < |children|
        ensures children[k].key != c.key
      {
        assert all[k].key != all[|children|].key;
      }
      forall id | id in c.claimIds
        ensures !Claimed(children, id)
      {
        forall i | 0 <= i < |children|
          ensures id !in children[i].claimIds
        {
          assert all[i] == children[i];
        }
      }
    }
    if ChildrenOk(children) && ChildOk(c) && |c.claimIds| <= MAX_CLAIMS && c.key !in KeysOf(children) && IdSet(c.claimIds) !! ClaimSet(children) {
      ExtendedOk(children, c);
    }
  }

  lemma ExtendedOk(children: seq<Child>, c: Child)
    requires ChildrenOk(children) && ChildOk(c) && |c.claimIds| <= MAX_CLAIMS
    requires c.key !in KeysOf(children) && IdSet(c.claimIds) !! ClaimSet(children)
    ensures ChildrenOk(children + [c])
  {
    var all := children + [c];
    forall i, j | 0 <= i < j < |all|
      ensures all[i].key != all[j].key && forall id :: id in all[i].claimIds ==> id !in all[j].claimIds
    {
      assert children[i].key in KeysOf(children);
      forall id | id in all[i].claimIds
        ensures id !in all[j].claimIds
      {
        if j == |children| {
          assert id in children[i].claimIds && id in ClaimSet(children);
          assert id in c.claimIds <==> id in IdSet(c.claimIds);
        } else {
          assert id in children[i].claimIds;
        }
      }
    }
  }

  /** The dependencies of one child: references known, and none listed twice. */
  ghost predicate DependenciesOk(parent: string, keys: set<string>, deps: seq<Dependency>, validTaskId: string -> bool) {
    && (forall d :: d in deps ==> DependencyOk(parent, keys, d, validTaskId))
    && (forall i, j :: 0 <= i < j < |deps| ==> deps[i] != deps[j])
  }

  ghost predicate DependencyOk(parent: string, keys: set<string>, d: Dependency, validTaskId: string -> bool) {
    && !Blank(d.ref)
    && match d.kind
       case OnParent => d.ref == parent
       case OnChild => d.ref in keys
       case OnTask => validTaskId(d.ref)
       case UnknownKind => false
  }

  method ValidateDependencies(parent: string, keys: set<string>, deps: seq<Dependency>, validTaskId: string -> bool)
    returns (ok: bool)
    ensures ok <==> DependenciesOk(parent, keys, deps, validTaskId)
  {
    var parentDepCount := 0;
    var seenDeps: set<Dependency> := {};
    for i := 0 to |deps|
      invariant DependenciesOk(parent, keys, deps[..i], validTaskId)
      invariant parentDepCount == (if Dependency(OnParent, parent) in deps[..i] then 1 else 0)
      invariant forall d :: d in seenDeps <==> d in deps[..i] && d.kind != OnParent
    {
      var dep := deps[i];
      assert dep in deps && deps[..i + 1] == deps[..i] + [dep];
      if Blank(dep.ref) {
        return false;
      }
      match dep.kind {
        case OnParent =>
          if dep.ref != parent {
            return false;
          }
          parentDepCount := parentDepCount + 1;
          if parentDepCount > 1 {
            assert dep in deps[..i];
            return false;
          }
        case OnChild =>
          if dep.ref !in keys || dep in seenDeps {
            return false;
          }
          seenDeps := seenDeps + {dep};
        case OnTask =>
          if !validTaskId(dep.ref) || dep in seenDeps {
            return false;
          }
          seenDeps := seenDeps + {dep};
        case UnknownKind =>
          return false;
      }
    }
    assert deps[..|deps|] == deps;
    return true;
  }

  function Nodes(children: seq<Child>): (r: seq<Node>)
    ensures |r| == |children|
    ensures forall i :: 0 <= i < |r| ==> r[i] == Node(children[i].key, children[i].dependencies)
  {
    if children == [] then [] else
      [Node(children[0].key, children[0].dependencies)] + Nodes(children[1..])
  }

  ghost predicate RefsOk(parent: string, children: seq<Child>, validTaskId: string -> bool) {
    forall c :: c in children ==> DependenciesOk(parent, KeysOf(children), c.dependencies, validTaskId)
  }

  lemma RefsOkAreKnown(parent: string, children: seq<Child>, validTaskId: string -> bool)
    requires RefsOk(parent, children, validTaskId)
    ensures RefsKnown(Nodes(children))
  {
    var nodes := Nodes(children);
    forall i, d | 0 <= i < |nodes| && d in nodes[i].dependencies && d.kind == OnChild
      ensures IsKey(nodes, d.ref)
    {
      assert children[i] in children;
      assert DependencyOk(parent, KeysOf(children), d, validTaskId);
      var k :| 0 <= k < |children| && children[k].key == d.ref;
      assert nodes[k].key == d.ref;
    }
  }

  method CheckDependencies(parent: string, children: seq<Child>, validTaskId: string -> bool)
    returns (err: Option<Error>)
    ensures err.None? <==> RefsOk(parent, children, validTaskId) && !Cyclic(SiblingGraph(Nodes(children)))
    ensures err == Some(DependencyCycle) ==> Cyclic(SiblingGraph(Nodes(children)))
  {
    for i := 0 to |children|
      invariant forall k :: 0 <= k < i ==> DependenciesOk(parent, KeysOf(children), children[k].dependencies, validTaskId)
    {
      var ok := ValidateDependencies(parent, KeysOf(children), children[i].dependencies, validTaskId);
      if !ok {
        assert children[i] in children;
        return Some(InvalidDependency);
      }
    }
    RefsOkAreKnown(parent, children, validTaskId);
    var cycle := CheckCycles(Nodes(children));
    return if cycle then Some(DependencyCycle) else None;
  }

  ghost predicate HasText(s: Option<string>) {
    s.Some? && !Blank(s.value)
  }

  /** What the candidate's disposition demands, given whether some child claims it. */
  ghost predicate DispositionOk(c: Candidate, claimed: bool) {
    match c.disposition
    case Assigned => claimed
    case CarriedForward => !claimed && HasText(c.owner)
    case Excluded => !claimed && HasText(c.reason)
    case UnknownDisposition => false
  }

  ghost predicate CandidateOk(c: Candidate, claimed: bool) {
    !Blank(c.claimId) && DispositionOk(c, claimed)
  }

  ghost predicate Listed(candidates: seq<Candidate>, id: string) {
    exists i :: 0 <= i < |candidates| && candidates[i].claimId == id
  }

  ghost predicate AssignedIn(candidates: seq<Candidate>, id: string) {
    exists i :: 0 <= i < |candidates| && candidates[i].claimId == id && candidates[i].disposition == Assigned
  }

  ghost predicate CandidatesOk(claims: set<string>, candidates: seq<Candidate>) {
    && (forall c :: c in candidates ==> CandidateOk(c, c.claimId in claims))
    && (forall i, j :: 0 <= i < j < |candidates| ==> candidates[i].claimId != candidates[j].claimId)
    && (forall id :: id in claims ==> Listed(candidates, id))
  }

  method ValidateDisposition(c: Candidate, claims: set<string>) returns (err: Option<Error>)
    ensures err.None? <==> DispositionOk(c, c.claimId in claims)
    ensures err != Some(UnmatchedChildClaim)
  {
    match c.disposition {
      case Assigned =>
        if c.claimId !in claims {
          return Some(UnassignedCandidate);
        }
      case CarriedForward =>
        if c.claimId in claims {
          return Some(ContradictoryDisposition);
        }
        if c.owner.None? || Blank(c.owner.value) {
          return Some(MissingOwner);
        }
      case Excluded =>
        if c.claimId in claims {
          return Some(ContradictoryDisposition);
        }
        if c.reason.None? || Blank(c.reason.value) {
          return Some(MissingReason);
        }
      case UnknownDisposition =>
        return Some(InvalidDisposition);
    }
    return None;
  }

  method ValidatePendingCandidates(children: seq<Child>, candidates: seq<Candidate>, claims: set<string>)
    returns (err: Option<Error>)
    requires forall id :: id in claims <==> Claimed(children, id)
    ensures err.None? <==> CandidatesOk(claims, candidates)
    ensures err == Some(UnmatchedChildClaim) ==> exists id :: Claimed(children, id) && !Listed(candidates, id)
  {
    var seenCandidates, assignedCandidates := {}, {};
    for i := 0 to |candidates|
      invariant seenCandidates == set k | 0 <= k < i :: candidates[k].claimId
      invariant assignedCandidates <= seenCandidates
      invariant forall k, l :: 0 <= k < l < i ==> candidates[k].claimId != candidates[l].claimId
      invariant forall k :: 0 <= k < i ==> CandidateOk(candidates[k], candidates[k].claimId in claims)
    {
      var c := candidates[i];
      assert c in candidates;
      if Blank(c.claimId) {
        return Some(InvalidCandidate);
      }
      if c.claimId in seenCandidates {
        return Some(DuplicateCandidate);
      }
      var bad := ValidateDisposition(c, claims);
      if bad.Some? {
        return bad;
      }
      seenCandidates := seenCandidates + {c.claimId};
      if c.disposition == Assigned {
        assignedCandidates := assignedCandidates + {c.claimId};
      }
    }
    for i := 0 to |children|
      invariant forall k, id :: 0 <= k < i && id in children[k].claimIds ==> Listed(candidates, id)
    {
      var claimIds := children[i].claimIds;
      for j := 0 to |claimIds|
        invariant forall l :: 0 <= l < j ==> Listed(candidates, claimIds[l])
      {
        if claimIds[j] !in assignedCandidates && claimIds[j] !in seenCandidates {
          assert claimIds[j] in claims && !Listed(candidates, claimIds[j]);
          return Some(UnmatchedChildClaim);
        }
      }
    }
    return None;
  }

  function Scopes(children: seq<Child>): (r: seq<seq<string>>)
    ensures |r| == |children|
    ensures forall i :: 0 <= i < |r| ==> r[i] == children[i].fileScope
  {
    if children == [] then [] else [children[0].fileScope] + Scopes(children[1..])
  }

  ghost predicate Accepted(m: Manifest, validTaskId: string -> bool) {
    && m.version == CURRENT_VERSION && !Blank(m.parentTaskId)
    && 0 < |m.children| <= MAX_CHILDREN
    && ChildrenOk(m.children)
    && !ScopesOverlap(Scopes(m.children))
    && RefsOk(m.parentTaskId, m.children, validTaskId)
    && !Cyclic(SiblingGraph(Nodes(m.children)))
    && CandidatesOk(ClaimSet(m.children), m.candidates)
  }

  method Validate(m: Manifest, validTaskId: string -> bool) returns (err: Option<Error>)
    ensures err.None? <==> Accepted(m, validTaskId)
  {
    if m.version != CURRENT_VERSION {
      return Some(InvalidVersion);
    }
    if Blank(m.parentTaskId) {
      return Some(MissingParentTaskId);
    }
    if |m.children| == 0 {
      return Some(NoChildren);
    }
    if |m.children| > MAX_CHILDREN {
      return Some(TooManyChildren);
    }
    var bad, allChildClaims := CheckChildren(m.children);
    if bad.Some? {
      return bad;
    }
    var overlap := CheckFileOverlaps(Scopes(m.children));
    if overlap {
      return Some(OverlappingFiles);
    }
    bad := CheckDependencies(m.parentTaskId, m.children, validTaskId);
    if bad.Some? {
      return bad;
    }
    err := ValidatePendingCandidates(m.children, m.candidates, allChildClaims.Keys);
  }

  function AssignedIds(candidates: seq<Candidate>): (r: seq<string>)
    ensures forall id :: id in r <==> AssignedIn(candidates, id)
  {
    if candidates == [] then []
    else
      var rest, c := candidates[..|candidates| - 1], candidates[|candidates| - 1];
      var r := AssignedIds(rest) + if c.disposition == Assigned then [c.claimId] else [];
      assert forall id :: AssignedIn(candidates, id) <==> AssignedIn(rest, id) || (c.disposition == Assigned && c.claimId == id) by {
        assert forall i :: 0 <= i < |rest| ==> rest[i] == candidates[i];
      }
      r
  }

  lemma DistinctConcat(a: seq<string>, b: seq<string>)
    requires Distinct(a) && Distinct(b) && forall x :: x in b ==> x !in a
    ensures Distinct(a + b)
  {
    var s := a + b;
    forall i, j | 0 <= i < j < |s|
      ensures s[i] != s[j]
    {
      if i < |a| <= j {
        assert s[i] in a && s[j] in b;
      }
    }
  }

  lemma LastClaimsAreNew(rest: seq<Child>, last: Child)
    requires ChildrenOk(rest + [last])
    ensures ChildrenOk(rest) && Distinct(last.claimIds)
    ensures forall id :: id in last.claimIds ==> id !in AllClaims(rest)
  {
    ChildrenExtend(rest, last);
    assert forall id :: id in last.claimIds <==> id in IdSet(last.claimIds);
    assert forall id :: id in AllClaims(rest) <==> id in ClaimSet(rest);
  }

  lemma {:induction false} ClaimsAreDistinct(children: seq<Child>)
    requires ChildrenOk(children)
    ensures Distinct(AllClaims(children))
  {
    if children != [] {
      var rest, last := children[..|children| - 1], children[|children| - 1];
      assert children == rest + [last];
      LastClaimsAreNew(rest, last);
      ClaimsAreDistinct(rest);
      DistinctConcat(AllClaims(rest), last.claimIds);
    }
  }

  lemma {:induction false} AssignedAreDistinct(candidates: seq<Candidate>)
    requires forall i, j :: 0 <= i < j < |candidates| ==> candidates[i].claimId != candidates[j].claimId
    ensures Distinct(AssignedIds(candidates))
  {
    if candidates != [] {
      var rest, c := candidates[..|candidates| - 1], candidates[|candidates| - 1];
      AssignedAreDistinct(rest);
      assert !AssignedIn(rest, c.claimId);
    }
  }

  lemma AssignedIffClaimed(claims: set<string>, candidates: seq<Candidate>, id: string)
    requires CandidatesOk(claims, candidates)
    ensures AssignedIn(candidates, id) <==> id in claims
  {
    if id in claims {
      var i :| 0 <= i < |candidates| && candidates[i].claimId == id;
      assert candidates[i] in candidates;
    }
    if AssignedIn(candidates, id) {
      var i :| 0 <= i < |candidates| && candidates[i].claimId == id && candidates[i].disposition == Assigned;
      assert candidates[i] in candidates;
    }
  }

  /** An accepted manifest is an exact cover: the claims of its children, taken together and with
      repetition counted, are precisely the assigned candidates, each once; no other candidate is
      claimed by any child. */
  lemma ExactCover(m: Manifest, validTaskId: string -> bool)
    requires Accepted(m, validTaskId)
    ensures Distinct(AllClaims(m.children))
    ensures multiset(AllClaims(m.children)) == multiset(AssignedIds(m.candidates))
    ensures forall c :: c in m.candidates && c.disposition != Assigned ==> !Claimed(m.children, c.claimId)
  {
    CoverHolds(m.children, m.candidates);
  }

  lemma CoverHolds(children: seq<Child>, candidates: seq<Candidate>)
    requires ChildrenOk(children) && CandidatesOk(ClaimSet(children), candidates)
    ensures Distinct(AllClaims(children))
    ensures multiset(AllClaims(children)) == multiset(AssignedIds(candidates))
    ensures forall c :: c in candidates && c.disposition != Assigned ==> !Claimed(children, c.claimId)
  {
    ClaimsAreDistinct(children);
    AssignedAreDistinct(candidates);
    forall id
      ensures id in AllClaims(children) <==> id in AssignedIds(candidates)
    {
      AssignedIffClaimed(ClaimSet(children), candidates, id);
    }
    SameMembersSameBag(AllClaims(children), AssignedIds(candidates));
  }

  /** Two children of an accepted manifest never write the same path. */
  lemma WritesAreDisjoint(m: Manifest, validTaskId: string -> bool, i: nat, j: nat, f: string, g: string, p: Components)
    requires Accepted(m, validTaskId)
    requires i < |m.children| && j < |m.children| && i != j
    requires f in m.children[i].fileScope && g in m.children[j].fileScope
    ensures !(LiesUnder(p, Normal(f)) && LiesUnder(p, Normal(g)))
  {
    assert ChildOk(m.children[i]) && ChildOk(m.children[j]) by {
      assert m.children[i] in m.children && m.children[j] in m.children;
    }
    if i < j {
      ScopesAreDisjoint(Scopes(m.children), i, j, f, g, p);
    } else {
      ScopesAreDisjoint(Scopes(m.children), j, i, g, f, p);
    }
  }
}
