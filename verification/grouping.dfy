/** internal/evaluation/report.go, 680-764: the findings of one sample, grouped into issues by the
    claim an operator recorded for them. */
module Grouping {
  import opened Wrappers
  import opened Ordering
  import opened FindingRef

  datatype Label = Unlabeled | Valid | Invalid | Unresolved | Disputed

  /** The severities an operator can record, and none. */
  datatype Severity = NoSeverity | P1 | P2 | P3

  datatype Disposition = Disposition(tag: Label, severity: Severity, claim: string)

  datatype DispKey = DispKey(sample: string, kind: string, source: string, finding: string)

  /** The operator's decisions about each finding, oldest first. */
  type History = map<DispKey, seq<Disposition>>

  datatype Member = Member(reviewer: string, ref: string, tag: Label, severity: Severity, claim: string)

  /** claim is the key of a group of labelled findings. */
  datatype Group = Group(
    id: string, sample: string, claim: Option<string>, members: seq<Member>,
    tag: Label, severity: Severity, reviewers: seq<string>,
    disagreement: bool, baselineReported: bool, candidateOnly: bool
  )

  function KeyOf(sample: string, ref: string): DispKey {
    match Parse(ref)
    case None => DispKey(sample, "", "", "")
    case Some(r) => DispKey(sample, r.kind, r.source, r.finding)
  }

  function LatestUnder(k: DispKey, disps: History): Option<Disposition> {
    if k in disps && |disps[k]| > 0 then Some(disps[k][|disps[k]| - 1]) else None
  }

  function Latest(sample: string, ref: string, disps: History): Option<Disposition> {
    LatestUnder(KeyOf(sample, ref), disps)
  }

  /** The latest decision about each finding of one sample, by its reference. */
  type Decisions = string -> Option<Disposition>

  function DecisionsOf(sample: string, disps: History): Decisions {
    (ref: string) => Latest(sample, ref, disps)
  }

  /** A finding with its latest decision written on it. */
  function Labelled(m: Member, latest: Decisions): Member {
    match latest(m.ref)
    case None => m.(tag := Unlabeled)
    case Some(d) => m.(tag := d.tag, severity := d.severity, claim := d.claim)
  }

  function AllLabelled(findings: seq<Member>, latest: Decisions): seq<Member> {
    if findings == [] then []
    else
      var n := |findings| - 1;
      AllLabelled(findings[..n], latest) + [Labelled(findings[n], latest)]
  }

  /** All findings of the groups, with their multiplicity. */
  ghost function Bag(groups: seq<Group>): multiset<Member> {
    if groups == [] then multiset{}
    else Bag(groups[..|groups| - 1]) + multiset(groups[|groups| - 1].members)
  }

  /** One unlabelled finding alone, or labelled findings of one claim. */
  ghost predicate WellFormed(g: Group, claimKey: string -> string) {
    match g.claim
    case None => |g.members| == 1 && g.members[0].tag == Unlabeled
    case Some(k) => g.members != [] && forall m :: m in g.members ==> m.tag != Unlabeled && claimKey(m.claim) == k
  }

  ghost predicate ClaimsDistinct(groups: seq<Group>) {
    forall i, j :: 0 <= i < j < |groups| && groups[i].claim.Some? ==> groups[i].claim != groups[j].claim
  }

  /** The groups partition the findings ms by claim. */
  ghost predicate Partition(groups: seq<Group>, ms: seq<Member>, claimKey: string -> string) {
    && Bag(groups) == multiset(ms)
    && (forall g :: g in groups ==> WellFormed(g, claimKey))
    && ClaimsDistinct(groups)
  }

  /** byClaim finds the group of each claim. */
  ghost predicate Indexes(byClaim: map<string, nat>, groups: seq<Group>) {
    && (forall k :: k in byClaim ==> byClaim[k] < |groups| && groups[byClaim[k]].claim == Some(k))
    && (forall i :: 0 <= i < |groups| && groups[i].claim.Some? ==> groups[i].claim.value in byClaim)
  }

  function NewGroup(id: string, sample: string, claim: Option<string>, m: Member): Group {
    Group(id, sample, claim, [m], Unlabeled, NoSeverity, [], false, false, false)
  }

  lemma {:induction false} BagUpdate(groups: seq<Group>, i: nat, m: Member)
    requires i < |groups|
    ensures Bag(groups[i := groups[i].(members := groups[i].members + [m])]) == Bag(groups) + multiset{m}
    decreases |groups|
  {
    var n := |groups| - 1;
    var updated := groups[i := groups[i].(members := groups[i].members + [m])];
    if i == n {
      assert updated[..n] == groups[..n];
    } else {
      BagUpdate(groups[..n], i, m);
      assert updated[..n] == groups[..n][i := groups[i].(members := groups[i].members + [m])];
    }
  }

  lemma PartitionAppend(groups: seq<Group>, g: Group, ms: seq<Member>, m: Member, claimKey: string -> string)
    requires Partition(groups, ms, claimKey) && WellFormed(g, claimKey) && g.members == [m]
    requires g.claim.Some? ==> forall i :: 0 <= i < |groups| ==> groups[i].claim != g.claim
    ensures Partition(groups + [g], ms + [m], claimKey)
  {
    assert (groups + [g])[..|groups|] == groups;
  }

  lemma PartitionJoin(groups: seq<Group>, i: nat, ms: seq<Member>, m: Member, claimKey: string -> string)
    requires Partition(groups, ms, claimKey) && i < |groups|
    requires m.tag != Unlabeled && groups[i].claim == Some(claimKey(m.claim))
    ensures Partition(groups[i := groups[i].(members := groups[i].members + [m])], ms + [m], claimKey)
  {
    BagUpdate(groups, i, m);
    var g := groups[i].(members := groups[i].members + [m]);
    var updated := groups[i := g];
    assert groups[i] in groups;
    JoinedIsWellFormed(groups[i], m, claimKey);
    forall h | h in updated
      ensures WellFormed(h, claimKey)
    {
      assert h == g || h in groups;
    }
    assert forall j :: 0 <= j < |groups| ==> updated[j].claim == groups[j].claim;
  }

  lemma JoinedIsWellFormed(g: Group, m: Member, claimKey: string -> string)
    requires WellFormed(g, claimKey) && m.tag != Unlabeled && g.claim == Some(claimKey(m.claim))
    ensures WellFormed(g.(members := g.members + [m]), claimKey)
  {}

  lemma IndexesAppend(byClaim: map<string, nat>, groups: seq<Group>, g: Group)
    requires Indexes(byClaim, groups)
    ensures g.claim.None? ==> Indexes(byClaim, groups + [g])
    ensures g.claim.Some? && g.claim.value !in byClaim ==> Indexes(byClaim[g.claim.value := |groups|], groups + [g])
    ensures g.claim.Some? && g.claim.value !in byClaim ==> forall i :: 0 <= i < |groups| ==> groups[i].claim != g.claim
  {}

  lemma IndexesJoin(byClaim: map<string, nat>, groups: seq<Group>, i: nat, ms: seq<Member>)
    requires Indexes(byClaim, groups) && i < |groups|
    ensures Indexes(byClaim, groups[i := groups[i].(members := ms)])
  {}

  /** One turn of groupSample: an unlabelled finding opens a group of its own, a labelled one joins
      the group of its claim, or opens it. */
  method Place(sample: string, m: Member, order: seq<Group>, byClaim: map<string, nat>, claimKey: string -> string, ghost done: seq<Member>)
    returns (order': seq<Group>, byClaim': map<string, nat>)
    requires Partition(order, done, claimKey) && Indexes(byClaim, order)
    ensures Partition(order', done + [m], claimKey) && Indexes(byClaim', order')
    ensures (forall g :: g in order ==> g.sample == sample) ==> forall g :: g in order' ==> g.sample == sample
  {
    if m.tag == Unlabeled {
      var g := NewGroup(sample + "#unlabeled:" + m.ref, sample, None, m);
      PartitionAppend(order, g, done, m, claimKey);
      IndexesAppend(byClaim, order, g);
      return order + [g], byClaim;
    }
    var key := claimKey(m.claim);
    if key in byClaim {
      var at := byClaim[key];
      var members := order[at].members + [m];
      PartitionJoin(order, at, done, m, claimKey);
      IndexesJoin(byClaim, order, at, members);
      return order[at := order[at].(members := members)], byClaim;
    }
    var g := NewGroup(sample + "#" + key, sample, Some(key), m);
    IndexesAppend(byClaim, order, g);
    PartitionAppend(order, g, done, m, claimKey);
    return order + [g], byClaim[key := |order|];
  }

  method Collect(sample: string, findings: seq<Member>, latest: Decisions, claimKey: string -> string)
    returns (order: seq<Group>)
    ensures Partition(order, AllLabelled(findings, latest), claimKey)
    ensures forall g :: g in order ==> g.sample == sample
  {
    order := [];
    var byClaim: map<string, nat> := map[];
    for i := 0 to |findings|
      invariant Partition(order, AllLabelled(findings[..i], latest), claimKey)
      invariant Indexes(byClaim, order)
      invariant forall g :: g in order ==> g.sample == sample
    {
      assert findings[..i + 1][..i] == findings[..i];
      order, byClaim := Place(sample, Labelled(findings[i], latest), order, byClaim, claimKey, AllLabelled(findings[..i], latest));
    }
    assert findings[..|findings|] == findings;
  }

  ghost predicate Has(ms: seq<Member>, tag: Label) {
    exists m :: m in ms && m.tag == tag
  }

  /** What a group's label says about the decisions on its members. */
  ghost predicate LabelFits(ms: seq<Member>, tag: Label) {
    match tag
    case Unlabeled => forall m :: m in ms ==> m.tag == Unlabeled
    case Disputed => Has(ms, Valid) && Has(ms, Invalid)
    case Valid => Has(ms, Valid) && !Has(ms, Invalid)
    case Invalid => Has(ms, Invalid) && !Has(ms, Valid)
    case Unresolved => !Has(ms, Valid) && !Has(ms, Invalid) && exists m :: m in ms && m.tag != Unlabeled
  }

  function SeverityRank(s: Severity): nat {
    match s
    case P1 => 1
    case P2 => 2
    case P3 => 3
    case NoSeverity => 4
  }

  /** The worst severity recorded for a member, if any is: P1 before P2 before P3. */
  ghost predicate SeverityFits(ms: seq<Member>, s: Severity) {
    IsWorst(SeveritiesOf(ms), s)
  }

  predicate IsWorst(sevs: set<Severity>, s: Severity) {
    match s
    case P1 => P1 in sevs
    case P2 => P2 in sevs && P1 !in sevs
    case P3 => P3 in sevs && P1 !in sevs && P2 !in sevs
    case NoSeverity => sevs <= {NoSeverity}
  }

  lemma SmallestRankIsWorst(sevs: set<Severity>, s: Severity)
    requires s == NoSeverity || s in sevs
    requires forall other :: other in sevs ==> SeverityRank(s) <= SeverityRank(other)
    ensures IsWorst(sevs, s)
  {
    forall other | other in sevs
      ensures other == P1 || other == P2 || other == P3 || other == NoSeverity
    {
    }
  }

  predicate MemberBefore(m: Member, n: Member) {
    if m.reviewer != n.reviewer then Before(m.reviewer, n.reviewer) else Before(m.ref, n.ref)
  }

  function ReviewersOf(ms: seq<Member>): set<string> {
    set m | m in ms :: m.reviewer
  }

  function TagsOf(ms: seq<Member>): set<Label> {
    set m | m in ms && m.tag != Unlabeled :: m.tag
  }

  function SeveritiesOf(ms: seq<Member>): set<Severity> {
    set m | m in ms && m.tag != Unlabeled :: m.severity
  }

  const BASELINE := "baseline:"

  predicate OfBaseline(m: Member) {
    BASELINE <= m.reviewer
  }

  /** Two decisions on the members differ in label or severity. */
  ghost predicate Disagree(ms: seq<Member>) {
    exists m, n :: m in ms && n in ms && m.tag != Unlabeled && n.tag != Unlabeled && (m.tag != n.tag || m.severity != n.severity)
  }

  ghost predicate FlagsFit(ms: seq<Member>, g: Group) {
    && (g.disagreement <==> Disagree(ms))
    && (g.baselineReported <==> exists m :: m in ms && OfBaseline(m))
    && g.candidateOnly == !g.baselineReported
  }

  /** A finished group: the same findings, and what they say together. */
  ghost predicate Finished(g: Group, f: Group) {
    && f.id == g.id && f.sample == g.sample && f.claim == g.claim
    && multiset(f.members) == multiset(g.members) && SortedBy(f.members, MemberBefore)
    && LabelFits(g.members, f.tag) && SeverityFits(g.members, f.severity) && FlagsFit(g.members, f)
    && Distinct(f.reviewers) && SortedBy(f.reviewers, Before) && (forall r :: r in f.reviewers <==> r in ReviewersOf(g.members))
  }

  function GroupLabel(tags: set<Label>): Label {
    if tags == {} then Unlabeled
    else if Valid in tags && Invalid in tags then Disputed
    else if Valid in tags then Valid
    else if Invalid in tags then Invalid
    else Unresolved
  }

  lemma GroupLabelFits(ms: seq<Member>)
    ensures LabelFits(ms, GroupLabel(TagsOf(ms)))
  {
    var tags := TagsOf(ms);
    forall t: Label | t != Unlabeled
      ensures t in tags <==> Has(ms, t)
    {}
    if tags == {} {
      forall m | m in ms
        ensures m.tag == Unlabeled
      {
        assert m.tag != Unlabeled ==> m.tag in tags;
      }
    } else {
      var t :| t in tags;
      var m :| m in ms && m.tag != Unlabeled && m.tag == t;
    }
  }

  /** The smallest rank among the recorded severities, in whatever order the map yields them. */
  method WorstSeverity(sevs: set<Severity>) returns (worst: Severity)
    ensures IsWorst(sevs, worst)
  {
    worst := NoSeverity;
    var left := sevs;
    while left != {}
      invariant left <= sevs
      invariant forall s :: s in sevs - left ==> SeverityRank(worst) <= SeverityRank(s)
      invariant worst == NoSeverity || worst in sevs
      decreases |left|
    {
      var s :| s in left;
      if worst == NoSeverity || SeverityRank(s) < SeverityRank(worst) {
        worst := s;
      }
      left := left - {s};
    }
    assert sevs - left == sevs;
    SmallestRankIsWorst(sevs, worst);
  }

  /** The reviewer names of a map, appended in any order and then sorted. */
  method ListReviewers(names: set<string>) returns (list: seq<string>)
    ensures Distinct(list) && SortedBy(list, Before) && forall r :: r in list <==> r in names
  {
    list := [];
    var left := names;
    while left != {}
      invariant left <= names && Distinct(list)
      invariant forall r :: r in list <==> r in names - left
      decreases |left|
    {
      var r :| r in left;
      assert r !in list;
      list := list + [r];
      left := left - {r};
    }
    BeforeIsStrictOrder();
    StrictOrders(Before, list);
    SortSorts(list, Before);
    SameBag(SortBy(list, Before), list);
    SameBagDistinct(list, SortBy(list, Before));
    list := SortBy(list, Before);
  }

  lemma Several<T>(s: set<T>)
    ensures |s| > 1 <==> exists x, y :: x in s && y in s && x != y
  {
    if |s| > 1 {
      var x :| x in s;
      assert |s - {x}| == |s| - 1;
      var y :| y in s - {x};
    }
    if x, y :| x in s && y in s && x != y {
      assert s == {x, y} + (s - {x, y});
    }
  }

  lemma SizesShowDisagreement(ms: seq<Member>)
    ensures |TagsOf(ms)| > 1 || |SeveritiesOf(ms)| > 1 <==> Disagree(ms)
  {
    Several(TagsOf(ms));
    Several(SeveritiesOf(ms));
    if Disagree(ms) {
      var m, n :| m in ms && n in ms && m.tag != Unlabeled && n.tag != Unlabeled && (m.tag != n.tag || m.severity != n.severity);
      assert m.tag in TagsOf(ms) && n.tag in TagsOf(ms) && m.severity in SeveritiesOf(ms) && n.severity in SeveritiesOf(ms);
    }
  }

  lemma BeforeAsymmetric(a: string, b: string)
    ensures Before(a, b) ==> !Before(b, a)
  {
    if Before(a, b) && Before(b, a) {
      BeforeTransitive(a, b, a);
      BeforeIrreflexive(a);
    }
  }

  lemma MemberBeforeAsymmetric(m: Member, n: Member)
    ensures MemberBefore(m, n) ==> !MemberBefore(n, m)
  {
    BeforeAsymmetric(m.reviewer, n.reviewer);
    BeforeAsymmetric(m.ref, n.ref);
  }

  lemma NotBeforeTransitive(a: string, b: string, c: string)
    requires !Before(a, b) && !Before(b, c)
    ensures !Before(a, c) && (a == c ==> a == b)
  {
    BeforeTotal(a, b);
    BeforeTotal(b, c);
    BeforeAsymmetric(a, c);
    if Before(b, a) && Before(c, b) {
      BeforeTransitive(c, b, a);
      BeforeIrreflexive(a);
    }
  }

  lemma MemberNotBeforeTransitive(m: Member, n: Member, o: Member)
    requires !MemberBefore(m, n) && !MemberBefore(n, o)
    ensures !MemberBefore(m, o)
  {
    BeforeIrreflexive(m.reviewer);
    BeforeIrreflexive(n.reviewer);
    NotBeforeTransitive(m.reviewer, n.reviewer, o.reviewer);
    if m.reviewer == n.reviewer == o.reviewer {
      NotBeforeTransitive(m.ref, n.ref, o.ref);
    }
  }

  lemma MembersSort(ms: seq<Member>)
    ensures SortedBy(SortBy(ms, MemberBefore), MemberBefore)
  {
    forall m, n | m in ms && n in ms && MemberBefore(m, n)
      ensures !MemberBefore(n, m)
    {
      MemberBeforeAsymmetric(m, n);
    }
    forall m, n, o | m in ms && n in ms && o in ms && !MemberBefore(m, n) && !MemberBefore(n, o)
      ensures !MemberBefore(m, o)
    {
      MemberNotBeforeTransitive(m, n, o);
    }
    SortSortsWeakly(ms, MemberBefore);
  }

  lemma GroupsSort(groups: seq<Group>)
    ensures SortedBy(SortBy(groups, ById), ById)
  {
    forall g, h | g in groups && h in groups && ById(g, h)
      ensures !ById(h, g)
    {
      BeforeAsymmetric(g.id, h.id);
    }
    forall g, h, i | g in groups && h in groups && i in groups && !ById(g, h) && !ById(h, i)
      ensures !ById(g, i)
    {
      NotBeforeTransitive(g.id, h.id, i.id);
    }
    SortSortsWeakly(groups, ById);
  }

  method FinishGroup(g: Group) returns (f: Group)
    ensures Finished(g, f)
  {
    var labels: set<Label>, sevs: set<Severity>, reviewers: set<string> := {}, {}, {};
    var baseline := false;
    for i := 0 to |g.members|
      invariant baseline <==> exists m :: m in g.members[..i] && OfBaseline(m)
      invariant labels == TagsOf(g.members[..i]) && sevs == SeveritiesOf(g.members[..i])
      invariant reviewers == ReviewersOf(g.members[..i])
    {
      var m := g.members[i];
      assert g.members[..i + 1] == g.members[..i] + [m];
      reviewers := reviewers + {m.reviewer};
      if OfBaseline(m) {
        baseline := true;
      }
      if m.tag != Unlabeled {
        labels := labels + {m.tag};
        sevs := sevs + {m.severity};
      }
    }
    assert g.members[..|g.members|] == g.members;
    var list := ListReviewers(reviewers);
    var worst := WorstSeverity(sevs);
    GroupLabelFits(g.members);
    SizesShowDisagreement(g.members);
    MembersSort(g.members);
    f := g.(tag := GroupLabel(labels), severity := worst, reviewers := list, members := SortBy(g.members, MemberBefore),
            disagreement := |labels| > 1 || |sevs| > 1, baselineReported := baseline, candidateOnly := !baseline);
  }

  predicate ById(g: Group, h: Group) {
    Before(g.id, h.id)
  }

  lemma {:induction false} BagPointwise(order: seq<Group>, finished: seq<Group>)
    requires |order| == |finished|
    requires forall j :: 0 <= j < |order| ==> multiset(order[j].members) == multiset(finished[j].members)
    ensures Bag(order) == Bag(finished)
    decreases |order|
  {
    if order != [] {
      var n := |order| - 1;
      BagPointwise(order[..n], finished[..n]);
    }
  }

  lemma WithoutLast(s: seq<Group>, i: nat)
    requires i < |s| - 1
    ensures var n := |s| - 1; s[..i] + s[i + 1..] == s[..n][..i] + s[..n][i + 1..] + [s[n]]
  {}

  lemma BagSnoc(s: seq<Group>, g: Group)
    ensures Bag(s + [g]) == Bag(s) + multiset(g.members)
  {
    assert (s + [g])[..|s|] == s;
  }

  lemma {:induction false} BagWithout(s: seq<Group>, i: nat)
    requires i < |s|
    ensures Bag(s) == Bag(s[..i] + s[i + 1..]) + multiset(s[i].members)
    decreases |s|
  {
    var n := |s| - 1;
    if i == n {
      assert s[..i] + s[i + 1..] == s[..n];
    } else {
      var rest, fewer := s[..i] + s[i + 1..], s[..n][..i] + s[..n][i + 1..];
      BagWithout(s[..n], i);
      WithoutLast(s, i);
      BagSnoc(fewer, s[n]);
    }
  }

  lemma {:induction false} BagOfPermutation(s: seq<Group>, t: seq<Group>)
    requires multiset(s) == multiset(t)
    ensures Bag(s) == Bag(t)
    decreases |s|
  {
    SameBag(s, t);
    if s != [] {
      var n := |s| - 1;
      assert s[n] in s;
      var i :| 0 <= i < |t| && t[i] == s[n];
      BagWithout(t, i);
      RemoveOne(s, n);
      RemoveOne(t, i);
      assert s[..n] + s[n + 1..] == s[..n];
      BagOfPermutation(s[..n], t[..i] + t[i + 1..]);
    }
  }

  lemma ClaimsOfPermutation(s: seq<Group>, t: seq<Group>)
    requires multiset(s) == multiset(t) && ClaimsDistinct(s)
    ensures ClaimsDistinct(t)
  {
    SameBag(s, t);
    forall i, j | 0 <= i < j < |t| && t[i].claim.Some?
      ensures t[i].claim != t[j].claim
    {
      if t[i] == t[j] {
        CountsTwice(t, i, j);
        var k, l := FoundTwice(s, t[i]);
      } else {
        assert t[i] in s && t[j] in s;
        var k :| 0 <= k < |s| && s[k] == t[i];
        var l :| 0 <= l < |s| && s[l] == t[j];
        assert k < l || l < k;
      }
    }
  }

  lemma SortingKeepsPartition(s: seq<Group>, t: seq<Group>, ms: seq<Member>, claimKey: string -> string)
    requires multiset(s) == multiset(t) && Partition(s, ms, claimKey)
    ensures Partition(t, ms, claimKey)
  {
    BagOfPermutation(s, t);
    ClaimsOfPermutation(s, t);
    SameBag(s, t);
  }

  /** A group's label, severity and reviewers are those of its own members. */
  ghost predicate SaysWhatItHolds(g: Group) {
    Finished(g, g)
  }

  lemma FinishedIsWellFormed(g: Group, f: Group, claimKey: string -> string)
    requires Finished(g, f) && WellFormed(g, claimKey)
    ensures WellFormed(f, claimKey) && SaysWhatItHolds(f)
  {
    SameBag(f.members, g.members);
    assert ReviewersOf(f.members) == ReviewersOf(g.members);
  }

  lemma FinishingKeepsPartition(order: seq<Group>, finished: seq<Group>, ms: seq<Member>, claimKey: string -> string)
    requires Partition(order, ms, claimKey) && |finished| == |order|
    requires forall j :: 0 <= j < |order| ==> Finished(order[j], finished[j])
    ensures Partition(finished, ms, claimKey)
    ensures forall f :: f in finished ==> SaysWhatItHolds(f)
  {
    BagPointwise(order, finished);
    forall f | f in finished
      ensures WellFormed(f, claimKey) && SaysWhatItHolds(f)
    {
      var j :| 0 <= j < |finished| && finished[j] == f;
      assert order[j] in order;
      FinishedIsWellFormed(order[j], f, claimKey);
    }
  }

  method FinishAll(order: seq<Group>) returns (finished: seq<Group>)
    ensures |finished| == |order| && forall j :: 0 <= j < |order| ==> Finished(order[j], finished[j])
  {
    finished := [];
    for i := 0 to |order|
      invariant |finished| == i && forall j :: 0 <= j < i ==> Finished(order[j], finished[j])
    {
      var f := FinishGroup(order[i]);
      finished := finished + [f];
    }
  }

  /** groupSample: collect, finish each group, sort by id. Every finding is in the groups exactly as
      often as it was reported, labelled findings by claim and the others alone. */
  method GroupSample(sample: string, findings: seq<Member>, disps: History, claimKey: string -> string)
    returns (groups: seq<Group>)
    ensures Partition(groups, AllLabelled(findings, DecisionsOf(sample, disps)), claimKey)
    ensures forall g :: g in groups ==> SaysWhatItHolds(g) && g.sample == sample
    ensures SortedBy(groups, ById)
  {
    ghost var ms := AllLabelled(findings, DecisionsOf(sample, disps));
    var order := Collect(sample, findings, DecisionsOf(sample, disps), claimKey);
    var finished := FinishAll(order);
    FinishingKeepsPartition(order, finished, ms, claimKey);
    groups := SortBy(finished, ById);
    GroupsSort(finished);
    SortingKeepsPartition(finished, groups, ms, claimKey);
    SameBag(groups, finished);
    forall f | f in finished
      ensures f.sample == sample
    {
      var j :| 0 <= j < |finished| && finished[j] == f;
      assert order[j] in order;
    }
  }

  ghost predicate Together(groups: seq<Group>, m: Member, n: Member) {
    exists g :: g in groups && m in g.members && n in g.members
  }

  lemma {:induction false} BagMember(groups: seq<Group>, m: Member)
    ensures m in Bag(groups) <==> exists g :: g in groups && m in g.members
    decreases |groups|
  {
    if groups != [] {
      var n := |groups| - 1;
      BagMember(groups[..n], m);
      assert groups == groups[..n] + [groups[n]];
    }
  }

  /** Two labelled findings are in one group exactly when their latest claims normalise to the same
      key. */
  lemma TogetherIffSameClaim(groups: seq<Group>, ms: seq<Member>, claimKey: string -> string, m: Member, n: Member)
    requires Partition(groups, ms, claimKey) && m in ms && n in ms
    requires m.tag != Unlabeled && n.tag != Unlabeled
    ensures Together(groups, m, n) <==> claimKey(m.claim) == claimKey(n.claim)
  {
    BagMember(groups, m);
    BagMember(groups, n);
    assert m in multiset(ms) && n in multiset(ms);
    var i, j := GroupOf(groups, m), GroupOf(groups, n);
    assert WellFormed(groups[i], claimKey) && WellFormed(groups[j], claimKey) by {
      assert groups[i] in groups && groups[j] in groups;
    }
    if claimKey(m.claim) == claimKey(n.claim) {
      assert groups[i].claim == groups[j].claim;
      assert i == j;
      assert groups[i] in groups;
    }
    if Together(groups, m, n) {
      var g :| g in groups && m in g.members && n in g.members;
      assert WellFormed(g, claimKey);
    }
  }

  lemma GroupOfExists(groups: seq<Group>, m: Member)
    requires m in Bag(groups)
    ensures exists i :: 0 <= i < |groups| && m in groups[i].members
  {
    BagMember(groups, m);
    var g :| g in groups && m in g.members;
    var i :| 0 <= i < |groups| && groups[i] == g;
    assert m in groups[i].members;
  }

  ghost function GroupOf(groups: seq<Group>, m: Member): (i: nat)
    requires m in Bag(groups)
    ensures i < |groups| && m in groups[i].members
  {
    GroupOfExists(groups, m);
    var i :| 0 <= i < |groups| && m in groups[i].members;
    i
  }

  // ---------------------------------------------------------------------------------------------
  // Which decision counts
  // ---------------------------------------------------------------------------------------------

  /** The key under which an operator's decisions about a printed reference are kept. */
  function KeyFor(sample: string, r: Reference): DispKey {
    DispKey(sample, r.kind, r.source, r.finding)
  }

  /** The history with one more decision at the end of what is kept under k. */
  function Decided(disps: History, k: DispKey, d: Disposition): History {
    disps[k := (if k in disps then disps[k] else []) + [d]]
  }

  lemma PrintedKey(sample: string, r: Reference)
    requires Printable(r)
    ensures KeyOf(sample, Print(r)) == KeyFor(sample, r)
  {
    RoundTripIsExact(r);
  }

  /** Two references are kept under one key only if they are the same finding of the same sample. */
  lemma SameKeyIsSameFinding(sample: string, r: Reference, other: string, ref: string)
    requires Printable(r) && KeyOf(other, ref) == KeyFor(sample, r)
    ensures other == sample && ref == Print(r)
  {
    if Parse(ref).Some? {
      ParsedIsPrintable(ref);
    }
  }

  /** A correction is what counts from then on, whatever the history says; every other finding, in
      this and in other samples, keeps the decision it had; and a finding without a decision has
      none. */
  lemma LastDecisionCounts(sample: string, r: Reference, disps: History, d: Disposition)
    requires Printable(r)
    ensures DecisionsOf(sample, Decided(disps, KeyFor(sample, r), d))(Print(r)) == Some(d)
    ensures forall other, ref :: other != sample || ref != Print(r) ==>
      DecisionsOf(other, Decided(disps, KeyFor(sample, r), d))(ref) == DecisionsOf(other, disps)(ref)
    ensures (KeyFor(sample, r) in disps ==> disps[KeyFor(sample, r)] == []) ==> DecisionsOf(sample, disps)(Print(r)) == None
  {
    PrintedKey(sample, r);
    forall other, ref | other != sample || ref != Print(r)
      ensures DecisionsOf(other, Decided(disps, KeyFor(sample, r), d))(ref) == DecisionsOf(other, disps)(ref)
    {
      if KeyOf(other, ref) == KeyFor(sample, r) { SameKeyIsSameFinding(sample, r, other, ref); }
    }
  }

  /** What a finding says once the operator has decided about it. */
  predicate CarriesDecision(m: Member, d: Disposition) {
    m.tag == d.tag && m.severity == d.severity && m.claim == d.claim
  }

  lemma {:induction false} LabelledAt(findings: seq<Member>, latest: Decisions, i: nat)
    requires i < |findings|
    ensures |AllLabelled(findings, latest)| == |findings| && AllLabelled(findings, latest)[i] == Labelled(findings[i], latest)
    decreases |findings|
  {
    var n := |findings| - 1;
    if n > 0 { LabelledAt(findings[..n], latest, if i < n then i else 0); }
  }

  lemma {:induction false} LabelledFrom(findings: seq<Member>, latest: Decisions, m: Member)
    requires m in AllLabelled(findings, latest)
    ensures exists f :: f in findings && m == Labelled(f, latest)
    decreases |findings|
  {
    if findings != [] {
      var n := |findings| - 1;
      if m in AllLabelled(findings[..n], latest) {
        LabelledFrom(findings[..n], latest, m);
        var f :| f in findings[..n] && m == Labelled(f, latest);
        assert f in findings;
      } else {
        assert findings[n] in findings;
      }
    }
  }

  /** The findings of the groups are the reported ones, each with its decision on it. */
  lemma GroupedIsLabelled(groups: seq<Group>, findings: seq<Member>, latest: Decisions, claimKey: string -> string, m: Member)
    requires Partition(groups, AllLabelled(findings, latest), claimKey)
    ensures (exists g :: g in groups && m in g.members) <==> exists f :: f in findings && m == Labelled(f, latest)
  {
    BagMember(groups, m);
    assert m in AllLabelled(findings, latest) <==> m in multiset(AllLabelled(findings, latest));
    if m in AllLabelled(findings, latest) { LabelledFrom(findings, latest, m); }
    if f :| f in findings && m == Labelled(f, latest) {
      var i :| 0 <= i < |findings| && findings[i] == f;
      LabelledAt(findings, latest, i);
    }
  }

  /** An operator's correction, in the groups of its sample: the finding is there with the label,
      severity and claim of the last decision and no other, and all other findings are as before. */
  lemma CorrectionRelabels(
    groups: seq<Group>, before: seq<Group>, findings: seq<Member>, sample: string, r: Reference, disps: History, d: Disposition,
    claimKey: string -> string)
    requires Printable(r) && d.tag != Unlabeled
    requires Partition(before, AllLabelled(findings, DecisionsOf(sample, disps)), claimKey)
    requires Partition(groups, AllLabelled(findings, DecisionsOf(sample, Decided(disps, KeyFor(sample, r), d))), claimKey)
    ensures forall g, m :: g in groups && m in g.members && m.ref == Print(r) ==> CarriesDecision(m, d)
    ensures forall f :: f in findings && f.ref == Print(r) ==>
      exists g :: g in groups && f.(tag := d.tag, severity := d.severity, claim := d.claim) in g.members
    ensures forall m: Member :: m.ref != Print(r) ==>
      ((exists g :: g in groups && m in g.members) <==> exists g :: g in before && m in g.members)
  {
    var old_, now := DecisionsOf(sample, disps), DecisionsOf(sample, Decided(disps, KeyFor(sample, r), d));
    LastDecisionCounts(sample, r, disps, d);
    forall g, m | g in groups && m in g.members && m.ref == Print(r)
      ensures CarriesDecision(m, d)
    {
      GroupedIsLabelled(groups, findings, now, claimKey, m);
    }
    forall f | f in findings && f.ref == Print(r)
      ensures exists g :: g in groups && f.(tag := d.tag, severity := d.severity, claim := d.claim) in g.members
    {
      GroupedIsLabelled(groups, findings, now, claimKey, Labelled(f, now));
    }
    forall m: Member | m.ref != Print(r)
      ensures (exists g :: g in groups && m in g.members) <==> exists g :: g in before && m in g.members
    {
      GroupedIsLabelled(groups, findings, now, claimKey, m);
      GroupedIsLabelled(before, findings, old_, claimKey, m);
      forall f | f in findings && f.ref != Print(r)
        ensures Labelled(f, now) == Labelled(f, old_)
      {
        assert now(f.ref) == old_(f.ref);
      }
    }
  }

  /** A finding nobody decided about is in the groups as reported, unlabelled. */
  lemma UndecidedIsUnlabelled(
    groups: seq<Group>, findings: seq<Member>, sample: string, r: Reference, disps: History, claimKey: string -> string, m: Member)
    requires Printable(r) && m.ref == Print(r) && (KeyFor(sample, r) in disps ==> disps[KeyFor(sample, r)] == [])
    requires Partition(groups, AllLabelled(findings, DecisionsOf(sample, disps)), claimKey)
    ensures (exists g :: g in groups && m in g.members) <==> m.tag == Unlabeled && exists f :: f in findings && f.(tag := Unlabeled) == m
  {
    PrintedKey(sample, r);
    GroupedIsLabelled(groups, findings, DecisionsOf(sample, disps), claimKey, m);
  }

  /** The loop of BuildReport over the recorded decisions, in the order they were made. */
  method CollectHistory(recorded: seq<(DispKey, Disposition)>) returns (disps: History)
    ensures disps == HistoryOf(recorded)
  {
    disps := map[];
    for i := 0 to |recorded|
      invariant disps == HistoryOf(recorded[..i])
    {
      assert recorded[..i + 1][..i] == recorded[..i];
      var k, d := recorded[i].0, recorded[i].1;
      disps := disps[k := (if k in disps then disps[k] else []) + [d]];
    }
    assert recorded[..|recorded|] == recorded;
  }

  function HistoryOf(recorded: seq<(DispKey, Disposition)>): History {
    if recorded == [] then map[]
    else
      var n := |recorded| - 1;
      Decided(HistoryOf(recorded[..n]), recorded[n].0, recorded[n].1)
  }

  lemma {:induction false} LastRecordedIsLatest(recorded: seq<(DispKey, Disposition)>, k: DispKey, i: nat)
    requires i < |recorded| && recorded[i].0 == k && forall j :: i < j < |recorded| ==> recorded[j].0 != k
    ensures LatestUnder(k, HistoryOf(recorded)) == Some(recorded[i].1)
    decreases |recorded|
  {
    var n := |recorded| - 1;
    if i < n {
      LastRecordedIsLatest(recorded[..n], k, i);
    }
  }

  /** Of all decisions recorded about a finding, the last one recorded is the one that counts. */
  lemma LastRecordedCounts(recorded: seq<(DispKey, Disposition)>, sample: string, r: Reference, i: nat)
    requires Printable(r) && i < |recorded| && recorded[i].0 == KeyFor(sample, r)
    requires forall j :: i < j < |recorded| ==> recorded[j].0 != KeyFor(sample, r)
    ensures DecisionsOf(sample, HistoryOf(recorded))(Print(r)) == Some(recorded[i].1)
  {
    LastRecordedIsLatest(recorded, KeyFor(sample, r), i);
    DecisionUnder(sample, r, HistoryOf(recorded));
  }

  lemma DecisionUnder(sample: string, r: Reference, disps: History)
    requires Printable(r)
    ensures DecisionsOf(sample, disps)(Print(r)) == LatestUnder(KeyFor(sample, r), disps)
  {
    PrintedKey(sample, r);
  }
}
