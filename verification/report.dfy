/** internal/evaluation/report.go, 391-450, 452-533 and 611-678: the report over all samples and reviewers. */
module Report {
  import opened Ordering
  import opened Grouping
  import opened ReportMetrics

  /** How one reviewer fared on one sample, and the references of the findings it reported there. */
  datatype Judged = Judged(outcome: Outcome, refs: seq<string>)

  function Own(key: string, refs: seq<string>): (ms: seq<Member>)
    ensures |ms| == |refs| && forall m :: m in ms ==> m.reviewer == key
  {
    if refs == [] then []
    else Own(key, refs[..|refs| - 1]) + [Member(key, refs[|refs| - 1], Unlabeled, NoSeverity, "")]
  }

  function FindingsAt(r: Reviewer, sample: string): seq<Member> {
    if sample in r.findings then r.findings[sample] else []
  }

  /** A reviewer's state holds its judgements, and the findings of the completed samples. */
  ghost predicate Holds(r: Reviewer, samples: seq<string>, judge: string -> Judged) {
    && (forall s :: s in samples ==> s in r.results && r.results[s] == judge(s).outcome)
    && (forall s :: s in samples ==> FindingsAt(r, s) == if judge(s).outcome == Completed then Own(r.key, judge(s).refs) else [])
    && (forall s :: s in r.findings ==> s in samples)
  }

  /** The loops of candidateState and baselineStates over the samples. */
  method CollectState(key: string, samples: seq<string>, judge: string -> Judged) returns (r: Reviewer)
    requires Distinct(samples)
    ensures r.key == key && Holds(r, samples, judge)
  {
    r := Reviewer(key, map[], map[]);
    for i := 0 to |samples|
      invariant r.key == key && Holds(r, samples[..i], judge)
    {
      var s := samples[i];
      assert samples[..i + 1] == samples[..i] + [s];
      assert s !in samples[..i];
      r := r.(results := r.results[s := judge(s).outcome]);
      if judge(s).outcome == Completed {
        r := r.(findings := r.findings[s := FindingsAt(r, s) + Own(key, judge(s).refs)]);
      }
    }
    assert samples[..|samples|] == samples;
  }

  /** What all reviewers found in one sample, in the order groupSample walks them. */
  function AllFindings(reviewers: seq<Reviewer>, sample: string): seq<Member> {
    if reviewers == [] then []
    else AllFindings(reviewers[..|reviewers| - 1], sample) + FindingsAt(reviewers[|reviewers| - 1], sample)
  }

  function LabelledFindings(reviewers: seq<Reviewer>, sample: string, disps: History): seq<Member> {
    AllLabelled(AllFindings(reviewers, sample), DecisionsOf(sample, disps))
  }

  function OfSample(groups: seq<Group>, sample: string): seq<Group> {
    if groups == [] then []
    else
      var rest, last := OfSample(groups[..|groups| - 1], sample), groups[|groups| - 1];
      if last.sample == sample then rest + [last] else rest
  }

  /** The report's groups partition the findings of every sample by claim, and there are no others. */
  ghost predicate PartitionsAll(groups: seq<Group>, samples: seq<string>, reviewers: seq<Reviewer>, disps: History, claimKey: string -> string) {
    && (forall g :: g in groups ==> g.sample in samples && SaysWhatItHolds(g))
    && (forall s :: s in samples ==> Partition(OfSample(groups, s), LabelledFindings(reviewers, s, disps), claimKey))
  }

  lemma {:induction false} OfSampleConcat(a: seq<Group>, b: seq<Group>, sample: string)
    ensures OfSample(a + b, sample) == OfSample(a, sample) + OfSample(b, sample)
    decreases |b|
  {
    if b == [] {
      assert a + b == a;
    } else {
      assert (a + b)[..|a + b| - 1] == a + b[..|b| - 1];
      OfSampleConcat(a, b[..|b| - 1], sample);
    }
  }

  lemma {:induction false} OfOneSample(groups: seq<Group>, of: string, sample: string)
    requires forall g :: g in groups ==> g.sample == of
    ensures OfSample(groups, sample) == if sample == of then groups else []
    decreases |groups|
  {
    if groups != [] {
      assert groups[|groups| - 1] in groups;
      OfOneSample(groups[..|groups| - 1], of, sample);
    }
  }

  lemma {:induction false} OfNoSample(groups: seq<Group>, sample: string)
    requires forall g :: g in groups ==> g.sample != sample
    ensures OfSample(groups, sample) == []
    decreases |groups|
  {
    if groups != [] {
      assert groups[|groups| - 1] in groups;
      OfNoSample(groups[..|groups| - 1], sample);
    }
  }

  lemma OneMoreSample(
    groups: seq<Group>, more: seq<Group>, samples: seq<string>, s: string,
    reviewers: seq<Reviewer>, disps: History, claimKey: string -> string)
    requires PartitionsAll(groups, samples, reviewers, disps, claimKey) && s !in samples
    requires forall g :: g in more ==> SaysWhatItHolds(g) && g.sample == s
    requires Partition(more, LabelledFindings(reviewers, s, disps), claimKey)
    ensures PartitionsAll(groups + more, samples + [s], reviewers, disps, claimKey)
  {
    forall t | t in samples + [s]
      ensures Partition(OfSample(groups + more, t), LabelledFindings(reviewers, t, disps), claimKey)
    {
      OfSampleConcat(groups, more, t);
      OfOneSample(more, s, t);
      if t == s {
        OfNoSample(groups, s);
        assert [] + more == more;
      } else {
        assert OfSample(groups, t) + [] == OfSample(groups, t);
      }
    }
  }

  /** The loop of BuildReport over the samples. */
  method GroupAll(samples: seq<string>, reviewers: seq<Reviewer>, disps: History, claimKey: string -> string)
    returns (groups: seq<Group>)
    requires Distinct(samples)
    ensures PartitionsAll(groups, samples, reviewers, disps, claimKey)
  {
    groups := [];
    for i := 0 to |samples|
      invariant PartitionsAll(groups, samples[..i], reviewers, disps, claimKey)
    {
      assert samples[..i + 1] == samples[..i] + [samples[i]] && samples[i] !in samples[..i];
      groups := AddSample(samples[i], groups, reviewers, disps, claimKey, samples[..i]);
    }
    assert samples[..|samples|] == samples;
  }

  /** One turn of that loop. */
  method AddSample(s: string, groups: seq<Group>, reviewers: seq<Reviewer>, disps: History, claimKey: string -> string, ghost done: seq<string>)
    returns (groups': seq<Group>)
    requires PartitionsAll(groups, done, reviewers, disps, claimKey) && s !in done
    ensures PartitionsAll(groups', done + [s], reviewers, disps, claimKey)
  {
    var more := GroupSample(s, AllFindings(reviewers, s), disps, claimKey);
    OneMoreSample(groups, more, done, s, reviewers, disps, claimKey);
    groups' := groups + more;
  }

  function CompletedSamples(r: Reviewer, samples: seq<string>): set<string> {
    set s | s in samples && CompletedBy(r, s)
  }

  /** BuildReport: the groups of all samples, and each reviewer's numbers on the samples it completed. */
  method BuildReport(samples: seq<string>, reviewers: seq<Reviewer>, recorded: seq<(DispKey, Disposition)>, claimKey: string -> string)
    returns (groups: seq<Group>, rows: seq<Metrics>)
    requires Distinct(samples)
    ensures PartitionsAll(groups, samples, reviewers, HistoryOf(recorded), claimKey)
    ensures |rows| == |reviewers|
    ensures forall i :: 0 <= i < |rows| ==> rows[i] == MetricsOf(reviewers[i].key, CompletedSamples(reviewers[i], samples), groups)
  {
    var disps := CollectHistory(recorded);
    groups := GroupAll(samples, reviewers, disps, claimKey);
    rows := [];
    for i := 0 to |reviewers|
      invariant |rows| == i
      invariant forall j :: 0 <= j < i ==> rows[j] == MetricsOf(reviewers[j].key, CompletedSamples(reviewers[j], samples), groups)
    {
      var completed := CollectCompleted(reviewers[i], samples);
      var m := ComputeMetrics(reviewers[i].key, completed, groups);
      rows := rows + [m];
    }
  }

  method CollectCompleted(r: Reviewer, samples: seq<string>) returns (completed: set<string>)
    ensures completed == CompletedSamples(r, samples)
  {
    completed := {};
    for i := 0 to |samples|
      invariant completed == CompletedSamples(r, samples[..i])
    {
      assert samples[..i + 1] == samples[..i] + [samples[i]];
      if CompletedBy(r, samples[i]) {
        completed := completed + {samples[i]};
      }
    }
    assert samples[..|samples|] == samples;
  }

  // ---------------------------------------------------------------------------------------------
  // Conservation over the whole report
  // ---------------------------------------------------------------------------------------------

  /** The bag of all findings that count, labelled. */
  ghost function CountedFindings(samples: seq<string>, reviewers: seq<Reviewer>, disps: History): multiset<Member> {
    if samples == [] then multiset{}
    else
      var n := |samples| - 1;
      CountedFindings(samples[..n], reviewers, disps) + multiset(LabelledFindings(reviewers, samples[n], disps))
  }

  ghost function BagBySample(groups: seq<Group>, samples: seq<string>): multiset<Member> {
    if samples == [] then multiset{}
    else BagBySample(groups, samples[..|samples| - 1]) + Bag(OfSample(groups, samples[|samples| - 1]))
  }

  lemma OfSampleSnoc(groups: seq<Group>, g: Group, s: string)
    ensures OfSample(groups + [g], s) == if g.sample == s then OfSample(groups, s) + [g] else OfSample(groups, s)
  {
    assert (groups + [g])[..|groups|] == groups;
  }

  lemma BagOfSampleSnoc(groups: seq<Group>, g: Group, s: string)
    ensures Bag(OfSample(groups + [g], s)) == Bag(OfSample(groups, s)) + if g.sample == s then multiset(g.members) else multiset{}
  {
    OfSampleSnoc(groups, g, s);
    BagSnoc(OfSample(groups, s), g);
  }

  lemma {:induction false} BagBySampleStep(groups: seq<Group>, g: Group, samples: seq<string>)
    requires Distinct(samples)
    ensures BagBySample(groups + [g], samples)
      == BagBySample(groups, samples) + if g.sample in samples then multiset(g.members) else multiset{}
    decreases |samples|
  {
    if samples != [] {
      var n := |samples| - 1;
      BagBySampleStep(groups, g, samples[..n]);
      assert samples == samples[..n] + [samples[n]];
      assert samples[n] !in samples[..n];
      BagOfSampleSnoc(groups, g, samples[n]);
    }
  }

  lemma {:induction false} NoGroupsNoBag(samples: seq<string>)
    ensures BagBySample([], samples) == multiset{}
    decreases |samples|
  {
    if samples != [] {
      NoGroupsNoBag(samples[..|samples| - 1]);
    }
  }

  lemma {:induction false} BagIsBySample(groups: seq<Group>, samples: seq<string>)
    requires Distinct(samples) && forall g :: g in groups ==> g.sample in samples
    ensures Bag(groups) == BagBySample(groups, samples)
    decreases |groups|
  {
    if groups == [] {
      NoGroupsNoBag(samples);
    } else {
      var n := |groups| - 1;
      assert groups == groups[..n] + [groups[n]] && groups[n] in groups;
      BagIsBySample(groups[..n], samples);
      BagBySampleStep(groups[..n], groups[n], samples);
    }
  }

  lemma {:induction false} CountedBySample(groups: seq<Group>, samples: seq<string>, reviewers: seq<Reviewer>, disps: History, claimKey: string -> string)
    requires forall s :: s in samples ==> Partition(OfSample(groups, s), LabelledFindings(reviewers, s, disps), claimKey)
    ensures BagBySample(groups, samples) == CountedFindings(samples, reviewers, disps)
    decreases |samples|
  {
    if samples != [] {
      assert samples[|samples| - 1] in samples;
      CountedBySample(groups, samples[..|samples| - 1], reviewers, disps, claimKey);
    }
  }

  /** Every counted finding is in the groups of the report exactly as often as it was reported. */
  lemma ReportConserves(groups: seq<Group>, samples: seq<string>, reviewers: seq<Reviewer>, disps: History, claimKey: string -> string)
    requires Distinct(samples) && PartitionsAll(groups, samples, reviewers, disps, claimKey)
    ensures Bag(groups) == CountedFindings(samples, reviewers, disps)
  {
    BagIsBySample(groups, samples);
    CountedBySample(groups, samples, reviewers, disps, claimKey);
  }

  // One reviewer's findings

  lemma {:induction false} FindingsInConcat(key: string, a: seq<Member>, b: seq<Member>)
    ensures FindingsIn(key, a + b) == FindingsIn(key, a) + FindingsIn(key, b)
    decreases |b|
  {
    if b == [] {
      assert a + b == a;
    } else {
      assert (a + b)[..|a + b| - 1] == a + b[..|b| - 1];
      FindingsInConcat(key, a, b[..|b| - 1]);
    }
  }

  lemma FindingsInWithout(key: string, ms: seq<Member>, i: nat)
    requires i < |ms|
    ensures FindingsIn(key, ms) == FindingsIn(key, ms[..i] + ms[i + 1..]) + if ms[i].reviewer == key then 1 else 0
  {
    var one := [ms[i]];
    assert ms == ms[..i] + one + ms[i + 1..] && one[..0] == [];
    FindingsInConcat(key, ms[..i] + one, ms[i + 1..]);
    FindingsInConcat(key, ms[..i], one);
    FindingsInConcat(key, ms[..i], ms[i + 1..]);
  }

  lemma {:induction false} FindingsInPermutes(key: string, a: seq<Member>, b: seq<Member>)
    requires multiset(a) == multiset(b)
    ensures FindingsIn(key, a) == FindingsIn(key, b)
    decreases |a|
  {
    SameBag(a, b);
    if a != [] {
      var n := |a| - 1;
      assert a[n] in a;
      var i :| 0 <= i < |b| && b[i] == a[n];
      RemoveOne(a, n);
      RemoveOne(b, i);
      assert a[..n] + a[n + 1..] == a[..n];
      FindingsInPermutes(key, a[..n], b[..i] + b[i + 1..]);
      FindingsInWithout(key, b, i);
    }
  }

  function Members(groups: seq<Group>): seq<Member> {
    if groups == [] then [] else Members(groups[..|groups| - 1]) + groups[|groups| - 1].members
  }

  lemma {:induction false} MembersBag(groups: seq<Group>)
    ensures multiset(Members(groups)) == Bag(groups)
    decreases |groups|
  {
    if groups != [] {
      MembersBag(groups[..|groups| - 1]);
    }
  }

  lemma {:induction false} FindingsOfMembers(key: string, samples: set<string>, groups: seq<Group>, s: string)
    requires forall g :: g in groups ==> g.sample == s
    ensures FindingsOf(key, samples, groups) == if s in samples then FindingsIn(key, Members(groups)) else 0
    decreases |groups|
  {
    if groups != [] {
      var n := |groups| - 1;
      assert groups[n] in groups;
      FindingsOfMembers(key, samples, groups[..n], s);
      FindingsInConcat(key, Members(groups[..n]), groups[n].members);
    }
  }

  lemma {:induction false} LabelsKeepReviewers(key: string, ms: seq<Member>, latest: Decisions)
    ensures FindingsIn(key, AllLabelled(ms, latest)) == FindingsIn(key, ms)
    decreases |ms|
  {
    if ms != [] {
      var n := |ms| - 1;
      LabelsKeepReviewers(key, ms[..n], latest);
      assert AllLabelled(ms, latest)[..n] == AllLabelled(ms[..n], latest) by { LabelledLength(ms[..n], latest); }
    }
  }

  lemma {:induction false} LabelledLength(ms: seq<Member>, latest: Decisions)
    ensures |AllLabelled(ms, latest)| == |ms|
    decreases |ms|
  {
    if ms != [] {
      LabelledLength(ms[..|ms| - 1], latest);
    }
  }

  /** The reviewers' keys differ, and each state holds its own findings. */
  ghost predicate OwnFindings(reviewers: seq<Reviewer>) {
    && (forall i, j :: 0 <= i < j < |reviewers| ==> reviewers[i].key != reviewers[j].key)
    && (forall i :: 0 <= i < |reviewers| ==> FindsOwn(reviewers[i]))
  }

  ghost predicate FindsOwn(r: Reviewer) {
    forall s, m :: m in FindingsAt(r, s) ==> m.reviewer == r.key
  }

  lemma CollectedIsOwn(r: Reviewer, samples: seq<string>, judge: string -> Judged)
    requires Holds(r, samples, judge)
    ensures FindsOwn(r)
  {
    forall s, m | m in FindingsAt(r, s)
      ensures m.reviewer == r.key
    {
      assert s in samples;
    }
  }

  lemma {:induction false} AllMine(key: string, ms: seq<Member>, mine: bool)
    requires forall m :: m in ms ==> (m.reviewer == key) == mine
    ensures FindingsIn(key, ms) == if mine then |ms| else 0
    decreases |ms|
  {
    if ms != [] {
      assert ms[|ms| - 1] in ms;
      AllMine(key, ms[..|ms| - 1], mine);
    }
  }

  lemma {:induction false} MineAmongAll(reviewers: seq<Reviewer>, i: nat, s: string, n: nat)
    requires OwnFindings(reviewers) && i < |reviewers| && n <= |reviewers|
    ensures FindingsIn(reviewers[i].key, AllFindings(reviewers[..n], s)) == if i < n then |FindingsAt(reviewers[i], s)| else 0
    decreases n
  {
    if n > 0 {
      var before, last := reviewers[..n - 1], reviewers[n - 1];
      assert reviewers[..n][..n - 1] == before;
      MineAmongAll(reviewers, i, s, n - 1);
      FindingsInConcat(reviewers[i].key, AllFindings(before, s), FindingsAt(last, s));
      assert FindsOwn(last);
      AllMine(reviewers[i].key, FindingsAt(last, s), n - 1 == i);
    }
  }

  lemma FoundInSample(groups: seq<Group>, reviewers: seq<Reviewer>, i: nat, s: string, samples: set<string>, disps: History, claimKey: string -> string)
    requires OwnFindings(reviewers) && i < |reviewers|
    requires Partition(OfSample(groups, s), LabelledFindings(reviewers, s, disps), claimKey)
    ensures FindingsOf(reviewers[i].key, samples, OfSample(groups, s)) == if s in samples then |FindingsAt(reviewers[i], s)| else 0
  {
    var key, of := reviewers[i].key, OfSample(groups, s);
    OfSampleIsOfSample(groups, s);
    FindingsOfMembers(key, samples, of, s);
    MembersBag(of);
    FindingsInPermutes(key, Members(of), LabelledFindings(reviewers, s, disps));
    LabelsKeepReviewers(key, AllFindings(reviewers, s), DecisionsOf(s, disps));
    MineAmongAll(reviewers, i, s, |reviewers|);
    assert reviewers[..|reviewers|] == reviewers;
  }

  lemma {:induction false} OfSampleIsOfSample(groups: seq<Group>, s: string)
    ensures forall g :: g in OfSample(groups, s) ==> g.sample == s
    decreases |groups|
  {
    if groups != [] {
      OfSampleIsOfSample(groups[..|groups| - 1], s);
    }
  }

  function FindingsBySample(key: string, compared: set<string>, groups: seq<Group>, samples: seq<string>): nat {
    if samples == [] then 0
    else FindingsBySample(key, compared, groups, samples[..|samples| - 1]) + FindingsOf(key, compared, OfSample(groups, samples[|samples| - 1]))
  }

  lemma FindingsOfSnoc(key: string, compared: set<string>, groups: seq<Group>, g: Group)
    ensures FindingsOf(key, compared, groups + [g])
      == FindingsOf(key, compared, groups) + if g.sample in compared then FindingsIn(key, g.members) else 0
  {
    assert (groups + [g])[..|groups|] == groups;
  }

  lemma {:induction false} FindingsBySampleStep(key: string, compared: set<string>, groups: seq<Group>, g: Group, samples: seq<string>)
    requires Distinct(samples)
    ensures FindingsBySample(key, compared, groups + [g], samples)
      == FindingsBySample(key, compared, groups, samples)
         + if g.sample in samples && g.sample in compared then FindingsIn(key, g.members) else 0
    decreases |samples|
  {
    if samples != [] {
      var n := |samples| - 1;
      FindingsBySampleStep(key, compared, groups, g, samples[..n]);
      assert samples == samples[..n] + [samples[n]];
      assert samples[n] !in samples[..n];
      OfSampleSnoc(groups, g, samples[n]);
      FindingsOfSnoc(key, compared, OfSample(groups, samples[n]), g);
    }
  }

  lemma {:induction false} NoGroupsNoFindings(key: string, compared: set<string>, samples: seq<string>)
    ensures FindingsBySample(key, compared, [], samples) == 0
    decreases |samples|
  {
    if samples != [] {
      NoGroupsNoFindings(key, compared, samples[..|samples| - 1]);
    }
  }

  lemma {:induction false} FindingsAreBySample(key: string, compared: set<string>, groups: seq<Group>, samples: seq<string>)
    requires Distinct(samples) && forall g :: g in groups ==> g.sample in samples
    ensures FindingsOf(key, compared, groups) == FindingsBySample(key, compared, groups, samples)
    decreases |groups|
  {
    if groups == [] {
      NoGroupsNoFindings(key, compared, samples);
    } else {
      var n := |groups| - 1;
      assert groups == groups[..n] + [groups[n]] && groups[n] in groups;
      FindingsAreBySample(key, compared, groups[..n], samples);
      FindingsBySampleStep(key, compared, groups[..n], groups[n], samples);
    }
  }

  /** How many findings a reviewer reported on the compared samples. */
  function ReportedOn(r: Reviewer, samples: seq<string>, compared: set<string>): nat {
    if samples == [] then 0
    else
      var n := |samples| - 1;
      ReportedOn(r, samples[..n], compared) + if samples[n] in compared then |FindingsAt(r, samples[n])| else 0
  }

  lemma {:induction false} FoundBySample(
    groups: seq<Group>, samples: seq<string>, reviewers: seq<Reviewer>, i: nat, compared: set<string>, disps: History, claimKey: string -> string)
    requires OwnFindings(reviewers) && i < |reviewers|
    requires forall s :: s in samples ==> Partition(OfSample(groups, s), LabelledFindings(reviewers, s, disps), claimKey)
    ensures FindingsBySample(reviewers[i].key, compared, groups, samples) == ReportedOn(reviewers[i], samples, compared)
    decreases |samples|
  {
    if samples != [] {
      var n := |samples| - 1;
      assert samples[n] in samples;
      FoundBySample(groups, samples[..n], reviewers, i, compared, disps, claimKey);
      FoundInSample(groups, reviewers, i, samples[n], compared, disps, claimKey);
    }
  }

  /** The number of findings in a reviewer's row is the number it reported on the compared samples. */
  lemma RowCountsWhatWasReported(
    groups: seq<Group>, samples: seq<string>, reviewers: seq<Reviewer>, i: nat, compared: set<string>, disps: History, claimKey: string -> string)
    requires Distinct(samples) && PartitionsAll(groups, samples, reviewers, disps, claimKey)
    requires OwnFindings(reviewers) && i < |reviewers|
    ensures MetricsOf(reviewers[i].key, compared, groups).findings == ReportedOn(reviewers[i], samples, compared)
  {
    FindingsAreBySample(reviewers[i].key, compared, groups, samples);
    FoundBySample(groups, samples, reviewers, i, compared, disps, claimKey);
  }

  /** States collected under different keys meet that condition, so on the samples a reviewer
      completed its row counts exactly the findings it was judged to have reported. */
  lemma CollectedRowsCount(
    groups: seq<Group>, samples: seq<string>, reviewers: seq<Reviewer>, judges: seq<string -> Judged>, i: nat,
    disps: History, claimKey: string -> string)
    requires Distinct(samples) && PartitionsAll(groups, samples, reviewers, disps, claimKey)
    requires |judges| == |reviewers| && i < |reviewers|
    requires forall j :: 0 <= j < |reviewers| ==> Holds(reviewers[j], samples, judges[j])
    requires forall j, k :: 0 <= j < k < |reviewers| ==> reviewers[j].key != reviewers[k].key
    ensures MetricsOf(reviewers[i].key, CompletedSamples(reviewers[i], samples), groups).findings == JudgedFindings(samples, judges[i])
  {
    forall j | 0 <= j < |reviewers|
      ensures FindsOwn(reviewers[j])
    {
      CollectedIsOwn(reviewers[j], samples, judges[j]);
    }
    RowCountsWhatWasReported(groups, samples, reviewers, i, CompletedSamples(reviewers[i], samples), disps, claimKey);
    JudgedIsReported(reviewers[i], samples, samples, judges[i]);
  }

  function JudgedFindings(samples: seq<string>, judge: string -> Judged): nat {
    if samples == [] then 0
    else
      var n := |samples| - 1;
      JudgedFindings(samples[..n], judge) + if judge(samples[n]).outcome == Completed then |judge(samples[n]).refs| else 0
  }

  lemma {:induction false} JudgedIsReported(r: Reviewer, some: seq<string>, samples: seq<string>, judge: string -> Judged)
    requires Holds(r, samples, judge) && forall s :: s in some ==> s in samples
    ensures ReportedOn(r, some, CompletedSamples(r, samples)) == JudgedFindings(some, judge)
    decreases |some|
  {
    if some != [] {
      var n := |some| - 1;
      assert some[n] in some;
      JudgedIsReported(r, some[..n], samples, judge);
    }
  }
}
