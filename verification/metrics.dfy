/** internal/evaluation/report.go, 587-609 and 766-847: what the report counts. */
module ReportMetrics {
  import opened Ordering
  import opened Grouping

  datatype Metrics = Metrics(
    findings: nat, groups: nat,
    confirmed: nat, confirmedP1: nat, confirmedP2: nat, confirmedP3: nat,
    unique: nat, uniqueP1P2: nat,
    falsePositives: nat, unresolved: nat,
    knownValid: nat, misses: nat, missesP1P2: nat
  )

  /** The groups that each number counts. */
  datatype Measure =
    | GroupsReported | Confirmed | ConfirmedAt(severity: Severity) | Unique | UniqueP1P2
    | FalsePositives | Inconclusive | KnownValid | Misses | MissesP1P2

  predicate Reports(key: string, g: Group) {
    exists m :: m in g.members && m.reviewer == key
  }

  predicate Serious(g: Group) {
    g.severity == P1 || g.severity == P2
  }

  /** Whether one group of the compared samples counts. */
  predicate Counts(what: Measure, key: string, g: Group) {
    var valid := g.tag == Valid;
    match what
    case GroupsReported => Reports(key, g)
    case Confirmed => Reports(key, g) && valid
    case ConfirmedAt(s) => Reports(key, g) && valid && (if s == P1 || s == P2 then g.severity == s else !Serious(g))
    case Unique => Reports(key, g) && valid && |g.reviewers| == 1
    case UniqueP1P2 => Reports(key, g) && valid && |g.reviewers| == 1 && Serious(g)
    case FalsePositives => Reports(key, g) && g.tag == Invalid
    case Inconclusive => Reports(key, g) && g.tag in {Unlabeled, Unresolved, Disputed}
    case KnownValid => valid
    case Misses => valid && !Reports(key, g)
    case MissesP1P2 => valid && !Reports(key, g) && Serious(g)
  }

  function Count(what: Measure, key: string, samples: set<string>, groups: seq<Group>): nat {
    if groups == [] then 0
    else
      var n := |groups| - 1;
      Count(what, key, samples, groups[..n]) + if groups[n].sample in samples && Counts(what, key, groups[n]) then 1 else 0
  }

  /** How many of the members are the reviewer's findings. */
  function FindingsIn(key: string, ms: seq<Member>): nat {
    if ms == [] then 0
    else FindingsIn(key, ms[..|ms| - 1]) + if ms[|ms| - 1].reviewer == key then 1 else 0
  }

  function FindingsOf(key: string, samples: set<string>, groups: seq<Group>): nat {
    if groups == [] then 0
    else
      var n := |groups| - 1;
      FindingsOf(key, samples, groups[..n]) + if groups[n].sample in samples then FindingsIn(key, groups[n].members) else 0
  }

  /** The numbers of one reviewer, each by what it counts. */
  function MetricsOf(key: string, samples: set<string>, groups: seq<Group>): Metrics {
    Metrics(
      FindingsOf(key, samples, groups), Count(GroupsReported, key, samples, groups),
      Count(Confirmed, key, samples, groups), Count(ConfirmedAt(P1), key, samples, groups),
      Count(ConfirmedAt(P2), key, samples, groups), Count(ConfirmedAt(P3), key, samples, groups),
      Count(Unique, key, samples, groups), Count(UniqueP1P2, key, samples, groups),
      Count(FalsePositives, key, samples, groups), Count(Inconclusive, key, samples, groups),
      Count(KnownValid, key, samples, groups), Count(Misses, key, samples, groups), Count(MissesP1P2, key, samples, groups)
    )
  }

  function AddIf(n: nat, b: bool): nat {
    if b then n + 1 else n
  }

  /** What one compared group adds. */
  function Added(m: Metrics, key: string, g: Group): Metrics {
    Metrics(
      m.findings + FindingsIn(key, g.members), AddIf(m.groups, Counts(GroupsReported, key, g)),
      AddIf(m.confirmed, Counts(Confirmed, key, g)), AddIf(m.confirmedP1, Counts(ConfirmedAt(P1), key, g)),
      AddIf(m.confirmedP2, Counts(ConfirmedAt(P2), key, g)), AddIf(m.confirmedP3, Counts(ConfirmedAt(P3), key, g)),
      AddIf(m.unique, Counts(Unique, key, g)), AddIf(m.uniqueP1P2, Counts(UniqueP1P2, key, g)),
      AddIf(m.falsePositives, Counts(FalsePositives, key, g)), AddIf(m.unresolved, Counts(Inconclusive, key, g)),
      AddIf(m.knownValid, Counts(KnownValid, key, g)), AddIf(m.misses, Counts(Misses, key, g)),
      AddIf(m.missesP1P2, Counts(MissesP1P2, key, g))
    )
  }

  /** The loop over the findings of one group. */
  method CountFindings(key: string, g: Group, m: Metrics) returns (m': Metrics, reported: bool)
    ensures m' == m.(findings := m.findings + FindingsIn(key, g.members))
    ensures reported <==> Reports(key, g)
  {
    m', reported := m, false;
    for i := 0 to |g.members|
      invariant m' == m.(findings := m.findings + FindingsIn(key, g.members[..i]))
      invariant reported <==> exists x :: x in g.members[..i] && x.reviewer == key
    {
      assert g.members[..i + 1] == g.members[..i] + [g.members[i]];
      if g.members[i].reviewer == key {
        m' := m'.(findings := m'.findings + 1);
        reported := true;
      }
    }
    assert g.members[..|g.members|] == g.members;
  }

  /** The body of the loop of computeMetrics for one group of the samples. */
  method AddGroup(key: string, g: Group, m: Metrics) returns (m': Metrics)
    ensures m' == Added(m, key, g)
  {
    var reported;
    m', reported := CountFindings(key, g, m);
    var p1p2 := g.severity == P1 || g.severity == P2;
    var valid := g.tag == Valid;
    if valid {
      m' := m'.(knownValid := m'.knownValid + 1);
    }
    if !reported {
      if valid {
        m' := m'.(misses := m'.misses + 1);
        if p1p2 {
          m' := m'.(missesP1P2 := m'.missesP1P2 + 1);
        }
      }
      return;
    }
    m' := m'.(groups := m'.groups + 1);
    m' := AddReported(g, p1p2, m');
  }

  /** The switch on the label of a group the reviewer reported. */
  method AddReported(g: Group, p1p2: bool, m: Metrics) returns (m': Metrics)
    requires p1p2 == Serious(g)
    ensures var valid, alone := g.tag == Valid, |g.reviewers| == 1;
      m' == m.(confirmed := AddIf(m.confirmed, valid),
               confirmedP1 := AddIf(m.confirmedP1, valid && g.severity == P1),
               confirmedP2 := AddIf(m.confirmedP2, valid && g.severity == P2),
               confirmedP3 := AddIf(m.confirmedP3, valid && !Serious(g)),
               unique := AddIf(m.unique, valid && alone),
               uniqueP1P2 := AddIf(m.uniqueP1P2, valid && alone && Serious(g)),
               falsePositives := AddIf(m.falsePositives, g.tag == Invalid),
               unresolved := AddIf(m.unresolved, g.tag in {Unlabeled, Unresolved, Disputed}))
  {
    m' := m;
    match g.tag {
      case Valid =>
        m' := m'.(confirmed := m'.confirmed + 1);
        match g.severity {
          case P1 => m' := m'.(confirmedP1 := m'.confirmedP1 + 1);
          case P2 => m' := m'.(confirmedP2 := m'.confirmedP2 + 1);
          case _ => m' := m'.(confirmedP3 := m'.confirmedP3 + 1);
        }
        if |g.reviewers| == 1 {
          m' := m'.(unique := m'.unique + 1);
          if p1p2 {
            m' := m'.(uniqueP1P2 := m'.uniqueP1P2 + 1);
          }
        }
      case Invalid =>
        m' := m'.(falsePositives := m'.falsePositives + 1);
      case _ =>
        m' := m'.(unresolved := m'.unresolved + 1);
    }
  }

  method ComputeMetrics(key: string, samples: set<string>, groups: seq<Group>) returns (m: Metrics)
    ensures m == MetricsOf(key, samples, groups)
  {
    m := Metrics(0, 0, 0, 0, 0, 0, 0, 0, 0, 0, 0, 0, 0);
    for i := 0 to |groups|
      invariant m == MetricsOf(key, samples, groups[..i])
    {
      MetricsSnoc(key, samples, groups[..i], groups[i]);
      assert groups[..i + 1] == groups[..i] + [groups[i]];
      if groups[i].sample !in samples {
        continue;
      }
      m := AddGroup(key, groups[i], m);
    }
    assert groups[..|groups|] == groups;
  }

  lemma MetricsSnoc(key: string, samples: set<string>, groups: seq<Group>, g: Group)
    ensures MetricsOf(key, samples, groups + [g])
      == if g.sample in samples then Added(MetricsOf(key, samples, groups), key, g) else MetricsOf(key, samples, groups)
  {
    assert (groups + [g])[..|groups|] == groups;
  }

  /** The laws of one reviewer's numbers: what is known valid is confirmed or missed, what is
      reported is confirmed, refuted or inconclusive, and the severities split the confirmed groups.
      */
  predicate Lawful(m: Metrics) {
    && m.confirmed + m.misses == m.knownValid
    && m.confirmed + m.falsePositives + m.unresolved == m.groups
    && m.confirmedP1 + m.confirmedP2 + m.confirmedP3 == m.confirmed
    && m.uniqueP1P2 <= m.unique <= m.confirmed && m.missesP1P2 <= m.misses
    && m.groups <= m.findings
  }

  lemma AddedIsLawful(m: Metrics, key: string, g: Group)
    requires Lawful(m)
    ensures Lawful(Added(m, key, g))
  {
    ReportsIsPositive(key, g.members);
  }

  lemma {:induction false} MetricsConserve(key: string, samples: set<string>, groups: seq<Group>)
    ensures Lawful(MetricsOf(key, samples, groups))
    decreases |groups|
  {
    if groups != [] {
      var n := |groups| - 1;
      MetricsConserve(key, samples, groups[..n]);
      AddedIsLawful(MetricsOf(key, samples, groups[..n]), key, groups[n]);
      MetricsSnoc(key, samples, groups[..n], groups[n]);
      assert groups == groups[..n] + [groups[n]];
    }
  }

  lemma {:induction false} ReportsIsPositive(key: string, ms: seq<Member>)
    ensures FindingsIn(key, ms) > 0 <==> exists m :: m in ms && m.reviewer == key
    decreases |ms|
  {
    if ms != [] {
      var n := |ms| - 1;
      ReportsIsPositive(key, ms[..n]);
      assert ms == ms[..n] + [ms[n]];
    }
  }

  /** What is known valid does not depend on whose numbers they are. */
  lemma {:induction false} KnownValidIsShared(key: string, other: string, samples: set<string>, groups: seq<Group>)
    ensures MetricsOf(key, samples, groups).knownValid == MetricsOf(other, samples, groups).knownValid
    decreases |groups|
  {
    if groups != [] {
      KnownValidIsShared(key, other, samples, groups[..|groups| - 1]);
    }
  }

  /** Sums over the reviewers. */
  function TotalFindings(keys: seq<string>, samples: set<string>, groups: seq<Group>): nat {
    if keys == [] then 0 else TotalFindings(keys[1..], samples, groups) + MetricsOf(keys[0], samples, groups).findings
  }

  function MembersIn(samples: set<string>, groups: seq<Group>): nat {
    if groups == [] then 0
    else
      var n := |groups| - 1;
      MembersIn(samples, groups[..n]) + if groups[n].sample in samples then |groups[n].members| else 0
  }

  ghost predicate ReviewersAmong(keys: seq<string>, groups: seq<Group>) {
    forall g, m :: g in groups && m in g.members ==> m.reviewer in keys
  }

  /** All reviewers' findings together are the members of the compared groups: no finding is lost or
      counted for two reviewers. */
  lemma {:induction false} FindingsConserve(keys: seq<string>, samples: set<string>, groups: seq<Group>)
    requires Distinct(keys) && ReviewersAmong(keys, groups)
    ensures TotalFindings(keys, samples, groups) == MembersIn(samples, groups)
    decreases |groups|
  {
    if groups == [] {
      NothingFound(keys, samples);
    } else {
      var n := |groups| - 1;
      assert groups[n] in groups;
      FindingsConserve(keys, samples, groups[..n]);
      TotalSplit(keys, samples, groups);
      SharesAddUp(keys, groups[n].members);
    }
  }

  lemma {:induction false} NothingFound(keys: seq<string>, samples: set<string>)
    ensures TotalFindings(keys, samples, []) == 0
    decreases |keys|
  {
    if keys != [] {
      NothingFound(keys[1..], samples);
    }
  }

  function Shares(keys: seq<string>, ms: seq<Member>): nat {
    if keys == [] then 0 else Shares(keys[1..], ms) + FindingsIn(keys[0], ms)
  }

  lemma {:induction false} TotalSplit(keys: seq<string>, samples: set<string>, groups: seq<Group>)
    requires groups != []
    ensures var n := |groups| - 1;
      TotalFindings(keys, samples, groups)
      == TotalFindings(keys, samples, groups[..n]) + if groups[n].sample in samples then Shares(keys, groups[n].members) else 0
    decreases |keys|
  {
    if keys != [] {
      TotalSplit(keys[1..], samples, groups);
    }
  }

  lemma {:induction false} SharesAddUp(keys: seq<string>, ms: seq<Member>)
    requires Distinct(keys) && forall m :: m in ms ==> m.reviewer in keys
    ensures Shares(keys, ms) == |ms|
    decreases |ms|
  {
    if ms == [] {
      NoShares(keys);
    } else {
      var n := |ms| - 1;
      assert ms[n] in ms;
      SharesAddUp(keys, ms[..n]);
      SharesSnoc(keys, ms[..n], ms[n]);
      assert ms == ms[..n] + [ms[n]];
    }
  }

  lemma {:induction false} NoShares(keys: seq<string>)
    ensures Shares(keys, []) == 0
    decreases |keys|
  {
    if keys != [] {
      NoShares(keys[1..]);
    }
  }

  lemma {:induction false} SharesSnoc(keys: seq<string>, ms: seq<Member>, m: Member)
    requires Distinct(keys)
    ensures Shares(keys, ms + [m]) == Shares(keys, ms) + if m.reviewer in keys then 1 else 0
    decreases |keys|
  {
    if keys != [] {
      assert (ms + [m])[..|ms|] == ms;
      SharesSnoc(keys[1..], ms, m);
      if m.reviewer in keys && m.reviewer != keys[0] {
        assert m.reviewer in keys[1..];
      }
    }
  }

  function TotalUnique(keys: seq<string>, samples: set<string>, groups: seq<Group>): nat {
    if keys == [] then 0 else TotalUnique(keys[1..], samples, groups) + MetricsOf(keys[0], samples, groups).unique
  }

  predicate LoneValid(g: Group) {
    g.tag == Valid && |g.reviewers| == 1
  }

  function LoneValidIn(samples: set<string>, groups: seq<Group>): nat {
    if groups == [] then 0
    else
      var n := |groups| - 1;
      LoneValidIn(samples, groups[..n]) + if groups[n].sample in samples && LoneValid(groups[n]) then 1 else 0
  }

  /** Each valid issue that only one reviewer reported is unique to exactly one reviewer, and
      nothing else is. */
  lemma {:induction false} UniqueConserve(keys: seq<string>, samples: set<string>, groups: seq<Group>)
    requires Distinct(keys) && ReviewersAmong(keys, groups)
    requires forall g :: g in groups ==> SaysWhatItHolds(g) && g.members != []
    ensures TotalUnique(keys, samples, groups) == LoneValidIn(samples, groups)
    decreases |groups|
  {
    if groups == [] {
      NothingUnique(keys, samples);
    } else {
      var n := |groups| - 1;
      assert groups[n] in groups;
      UniqueConserve(keys, samples, groups[..n]);
      UniqueSplit(keys, samples, groups);
      if LoneValid(groups[n]) {
        ReportedByTheirs(groups[n]);
        assert groups[n].members[0].reviewer in keys;
      }
      OneHolds(keys, groups[n]);
    }
  }

  lemma {:induction false} NothingUnique(keys: seq<string>, samples: set<string>)
    ensures TotalUnique(keys, samples, []) == 0
    decreases |keys|
  {
    if keys != [] {
      NothingUnique(keys[1..], samples);
    }
  }

  function Holders(keys: seq<string>, g: Group): nat {
    if keys == [] then 0 else Holders(keys[1..], g) + if Counts(Unique, keys[0], g) then 1 else 0
  }

  lemma {:induction false} UniqueSplit(keys: seq<string>, samples: set<string>, groups: seq<Group>)
    requires groups != []
    ensures var n := |groups| - 1;
      TotalUnique(keys, samples, groups)
      == TotalUnique(keys, samples, groups[..n]) + if groups[n].sample in samples then Holders(keys, groups[n]) else 0
    decreases |keys|
  {
    if keys != [] {
      UniqueSplit(keys[1..], samples, groups);
    }
  }

  /** The one reviewer of a group with one reviewer is the one who reports it. */
  lemma ReportedByTheirs(g: Group)
    requires SaysWhatItHolds(g) && |g.reviewers| == 1 && g.members != []
    ensures forall key :: Reports(key, g) <==> key == g.members[0].reviewer
  {
    assert forall m :: m in g.members ==> m.reviewer in ReviewersOf(g.members);
    assert forall m :: m in g.members ==> m.reviewer in g.reviewers;
    assert forall m :: m in g.members ==> m.reviewer == g.reviewers[0];
    assert g.members[0] in g.members;
  }

  lemma {:induction false} OneHolds(keys: seq<string>, g: Group)
    requires Distinct(keys)
    requires LoneValid(g) ==> g.members != [] && forall key :: Reports(key, g) <==> key == g.members[0].reviewer
    ensures Holders(keys, g) == if LoneValid(g) && g.members[0].reviewer in keys then 1 else 0
    decreases |keys|
  {
    if keys != [] {
      OneHolds(keys[1..], g);
    }
  }

  datatype Outcome = Completed | Failed | Unavailable | Incomplete | InProgress | NotRun | Excluded

  /** What one reviewer did on each sample, and the findings that count. */
  datatype Reviewer = Reviewer(key: string, results: map<string, Outcome>, findings: map<string, seq<Member>>)

  predicate CompletedBy(r: Reviewer, sample: string) {
    sample in r.results && r.results[sample] == Completed
  }

  ghost predicate CommonTo(reviewers: seq<Reviewer>, sample: string) {
    forall r :: r in reviewers ==> CompletedBy(r, sample)
  }

  /** commonReport: every reviewer on the samples all of them completed. */
  method CommonReport(samples: seq<string>, reviewers: seq<Reviewer>, groups: seq<Group>)
    returns (ids: seq<string>, rows: seq<Metrics>, ghost common: set<string>)
    ensures reviewers == [] ==> ids == [] && rows == []
    ensures reviewers != [] ==> |rows| == |reviewers| && forall id :: id in ids <==> id in samples && CommonTo(reviewers, id)
    ensures reviewers != [] ==> common == set id | id in ids
    ensures reviewers != [] ==> forall i :: 0 <= i < |rows| ==> rows[i] == MetricsOf(reviewers[i].key, common, groups)
  {
    ids, rows, common := [], [], {};
    if |reviewers| == 0 {
      return;
    }
    var chosen: set<string> := {};
    for i := 0 to |samples|
      invariant forall id :: id in ids <==> id in samples[..i] && CommonTo(reviewers, id)
      invariant chosen == set id | id in ids
    {
      var all := AllCompleted(reviewers, samples[i]);
      assert samples[..i + 1] == samples[..i] + [samples[i]];
      if all {
        chosen := chosen + {samples[i]};
        ids := ids + [samples[i]];
      }
    }
    assert samples[..|samples|] == samples;
    common := chosen;
    for i := 0 to |reviewers|
      invariant |rows| == i
      invariant forall j :: 0 <= j < i ==> rows[j] == MetricsOf(reviewers[j].key, chosen, groups)
    {
      var m := ComputeMetrics(reviewers[i].key, chosen, groups);
      rows := rows + [m];
    }
  }

  method AllCompleted(reviewers: seq<Reviewer>, sample: string) returns (all: bool)
    ensures all <==> CommonTo(reviewers, sample)
  {
    for i := 0 to |reviewers|
      invariant CommonTo(reviewers[..i], sample)
    {
      if !CompletedBy(reviewers[i], sample) {
        assert reviewers[i] in reviewers;
        return false;
      }
    }
    assert reviewers[..|reviewers|] == reviewers;
    return true;
  }

  /** In the common section all reviewers are measured against one known set. */
  lemma CommonKnownValidIsShared(reviewers: seq<Reviewer>, common: set<string>, groups: seq<Group>, rows: seq<Metrics>, i: nat, j: nat)
    requires |rows| == |reviewers| && i < |rows| && j < |rows|
    requires forall k :: 0 <= k < |rows| ==> rows[k] == MetricsOf(reviewers[k].key, common, groups)
    ensures rows[i].knownValid == rows[j].knownValid
    ensures rows[i].confirmed + rows[i].misses == rows[j].confirmed + rows[j].misses
  {
    KnownValidIsShared(reviewers[i].key, reviewers[j].key, common, groups);
    MetricsConserve(reviewers[i].key, common, groups);
    MetricsConserve(reviewers[j].key, common, groups);
  }

  datatype Coverage = Coverage(
    completed: int, clean: int, failed: int, unavailable: int, incomplete: int,
    inProgress: int, notRun: int, excluded: int
  )

  function CountOf(c: Coverage, o: Outcome): int {
    match o
    case Completed => c.completed
    case Failed => c.failed
    case Unavailable => c.unavailable
    case Incomplete => c.incomplete
    case InProgress => c.inProgress
    case NotRun => c.notRun
    case Excluded => c.excluded
  }

  function Settled(c: Coverage): int {
    c.completed + c.failed + c.unavailable + c.incomplete + c.inProgress + c.notRun + c.excluded
  }

  /** The switch of tally for one sample. */
  method CountOutcome(c: Coverage, outcome: Outcome, clean: bool) returns (c': Coverage)
    ensures forall o :: CountOf(c', o) == CountOf(c, o) + if outcome == o then 1 else 0
    ensures Settled(c') == Settled(c) + 1
    ensures c'.clean == c.clean + if outcome == Completed && clean then 1 else 0
  {
    match outcome {
      case Completed =>
        c' := c.(completed := c.completed + 1);
        if clean {
          c' := c'.(clean := c'.clean + 1);
        }
      case Failed => c' := c.(failed := c.failed + 1);
      case Unavailable => c' := c.(unavailable := c.unavailable + 1);
      case Incomplete => c' := c.(incomplete := c.incomplete + 1);
      case InProgress => c' := c.(inProgress := c.inProgress + 1);
      case NotRun => c' := c.(notRun := c.notRun + 1);
      case Excluded => c' := c.(excluded := c.excluded + 1);
    }
  }

  /** tally, whatever order the map of results is walked in: every sample is counted under exactly
      one outcome, and clean is completed without findings. */
  method Tally(results: map<string, Outcome>, withFindings: set<string>) returns (c: Coverage)
    ensures CountsSeen(c, results, results.Keys)
    ensures c.clean == |CleanIn(results, results.Keys, withFindings)|
    ensures Settled(c) == |results.Keys|
  {
    c := Coverage(0, 0, 0, 0, 0, 0, 0, 0);
    var left := results.Keys;
    ghost var done: set<string> := {};
    assert forall o :: EndedIn(results, done, o) == {};
    assert CleanIn(results, done, withFindings) == {};
    while left != {}
      invariant done <= results.Keys && left == results.Keys - done
      invariant Settled(c) == |done|
      invariant CountsSeen(c, results, done)
      invariant c.clean == |CleanIn(results, done, withFindings)|
      decreases left
    {
      var id :| id in left;
      CleanStep(results, done, id, withFindings);
      ghost var counted := c;
      c := CountOutcome(c, results[id], id !in withFindings);
      TakeOne(results, done, id, counted, c);
      done, left := done + {id}, left - {id};
    }
    assert done == results.Keys;
  }

  ghost function EndedIn(results: map<string, Outcome>, ids: set<string>, o: Outcome): set<string> {
    set id | id in ids && id in results && results[id] == o
  }

  ghost function CleanIn(results: map<string, Outcome>, ids: set<string>, withFindings: set<string>): set<string> {
    EndedIn(results, ids, Completed) - withFindings
  }

  lemma EndedStep(results: map<string, Outcome>, ids: set<string>, id: string, o: Outcome)
    requires id !in ids && id in results
    ensures |EndedIn(results, ids + {id}, o)| == |EndedIn(results, ids, o)| + if results[id] == o then 1 else 0
  {
    var before := EndedIn(results, ids, o);
    assert EndedIn(results, ids + {id}, o) == if results[id] == o then before + {id} else before;
  }

  lemma CleanStep(results: map<string, Outcome>, ids: set<string>, id: string, withFindings: set<string>)
    requires id !in ids && id in results
    ensures |CleanIn(results, ids + {id}, withFindings)|
      == |CleanIn(results, ids, withFindings)| + if results[id] == Completed && id !in withFindings then 1 else 0
  {
    var before := CleanIn(results, ids, withFindings);
    assert CleanIn(results, ids + {id}, withFindings)
      == if results[id] == Completed && id !in withFindings then before + {id} else before;
  }

  /** Every counter holds the number of the samples seen that ended its way. */
  ghost predicate CountsSeen(c: Coverage, results: map<string, Outcome>, ids: set<string>) {
    forall o :: CountOf(c, o) == |EndedIn(results, ids, o)|
  }

  lemma TakeOne(results: map<string, Outcome>, ids: set<string>, id: string, c: Coverage, c': Coverage)
    requires id !in ids && id in results && CountsSeen(c, results, ids)
    requires forall o :: CountOf(c', o) == CountOf(c, o) + if results[id] == o then 1 else 0
    ensures CountsSeen(c', results, ids + {id}) && |ids + {id}| == |ids| + 1
  {
    forall o
      ensures CountOf(c', o) == |EndedIn(results, ids + {id}, o)|
    {
      EndedStep(results, ids, id, o);
      assert CountOf(c, o) == |EndedIn(results, ids, o)|;
    }
  }
}
