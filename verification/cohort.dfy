/** internal/evaluation/cohort.go, 144-307: the stratified, seeded selection of samples, and the
    manifest that freezes it. */
module Cohort {
  import opened Ordering
  import opened Text

  datatype Outcome = Clean | RejectedMaterial | OtherOutcome

  datatype Record = Record(projectId: string, taskId: string, round: int, outcome: Outcome, outcomeReason: string)

  datatype Criteria = Criteria(projectIds: seq<string>, sampleCap: int, seed: string, contextPaths: seq<string>)

  /** The text of a selection reason, as what it is composed of. */
  datatype Reason = Reason(outcome: Outcome, place: nat, eligible: nat, cap: int, outcomeReason: string)

  datatype Sample = Sample(
    key: string, projectId: string, taskId: string, round: int, outcome: Outcome, reason: Reason,
    available: bool, unavailableReason: string, submittedSha: string, snapshotDigest: string
  )

  datatype Error = InvalidCriteria | NotSelectedProject | NotFirstRound | WrongOutcome

  /** SampleKey and selectionRank, the two uses of a hash. */
  datatype Hashes = Hashes(key: (string, string, int) -> string, rank: (string, string) -> string)

  const MAX_COHORT_CAP := 500

  /** Explicit and finite criteria: projects, cap, seed and context paths. */
  ghost predicate ValidCriteria(c: Criteria, pathOk: string -> bool) {
    && c.projectIds != [] && (forall p :: p in c.projectIds ==> !Blank(p)) && NoRepeat(c.projectIds)
    && 1 <= c.sampleCap <= MAX_COHORT_CAP && !Blank(c.seed)
    && (forall p :: p in c.contextPaths ==> pathOk(p)) && NoRepeat(c.contextPaths)
  }

  predicate NoRepeat(s: seq<string>) {
    forall i, j :: 0 <= i < j < |s| ==> s[i] != s[j]
  }

  predicate Eligible(r: Record, c: Criteria) {
    r.projectId in c.projectIds && r.round == 1 && r.outcome in {Clean, RejectedMaterial}
  }

  function KeyOf(h: Hashes, r: Record): string {
    h.key(r.projectId, r.taskId, r.round)
  }

  function RankOf(h: Hashes, seed: string, r: Record): string {
    h.rank(seed, KeyOf(h, r))
  }

  function ByRank(h: Hashes, seed: string): (Record, Record) -> bool {
    (a: Record, b: Record) => Before(RankOf(h, seed, a), RankOf(h, seed, b))
  }

  function Stratum(records: seq<Record>, outcome: Outcome): seq<Record> {
    if records == [] then []
    else
      var n := |records| - 1;
      Stratum(records[..n], outcome) + if records[n].outcome == outcome then [records[n]] else []
  }

  function Ranked(h: Hashes, seed: string, records: seq<Record>, outcome: Outcome): seq<Record> {
    SortBy(Stratum(records, outcome), ByRank(h, seed))
  }

  function Min(a: int, b: int): int {
    if a < b then a else b
  }

  /** How many of clean and rejected submissions are taken. */
  function Shares(cap: int, clean: nat, rejected: nat): (int, int)
    requires cap >= 1
  {
    var wantClean := (cap + 1) / 2;
    var wantRejected := cap - wantClean;
    var takeClean, takeRejected := Min(wantClean, clean), Min(wantRejected, rejected);
    (Min(clean, takeClean + (wantRejected - takeRejected)),
     Min(rejected, takeRejected + (wantClean - Min(wantClean, clean))))
  }

  /** The cap is used up as far as there are submissions, and each stratum gets its half of it if it
      can fill it. */
  lemma SharesAreFair(cap: int, clean: nat, rejected: nat)
    requires cap >= 1
    ensures var (c, r) := Shares(cap, clean, rejected);
      && 0 <= c <= clean && 0 <= r <= rejected
      && c + r == Min(cap, clean + rejected)
      && c >= Min((cap + 1) / 2, clean) && r >= Min(cap / 2, rejected)
  {}

  function SampleOf(h: Hashes, r: Record, place: nat, eligible: nat, cap: int): Sample {
    Sample(KeyOf(h, r), r.projectId, r.taskId, r.round, r.outcome,
           Reason(r.outcome, place, eligible, cap, r.outcomeReason), true, "", "", "")
  }

  /** The samples of one stratum, from the front of its ranking. */
  function Drawn(h: Hashes, ranked: seq<Record>, take: nat, cap: int): seq<Sample>
    requires take <= |ranked|
  {
    if take == 0 then [] else Drawn(h, ranked, take - 1, cap) + [SampleOf(h, ranked[take - 1], take, |ranked|, cap)]
  }

  predicate ByTask(a: Sample, b: Sample) {
    if a.projectId != b.projectId then Before(a.projectId, b.projectId) else Before(a.taskId, b.taskId)
  }

  function SharesOf(h: Hashes, c: Criteria, records: seq<Record>): (int, int)
    requires c.sampleCap >= 1
  {
    Shares(c.sampleCap, |Ranked(h, c.seed, records, Clean)|, |Ranked(h, c.seed, records, RejectedMaterial)|)
  }

  /** The frozen samples, given the two rankings. cleanFirst is the order in which the map of the
      two groups happens to be walked. */
  function Assemble(h: Hashes, cap: int, clean: seq<Record>, rejected: seq<Record>, cleanFirst: bool): seq<Sample>
    requires cap >= 1
  {
    SharesAreFair(cap, |clean|, |rejected|);
    var shares := Shares(cap, |clean|, |rejected|);
    var a, b := Drawn(h, clean, shares.0, cap), Drawn(h, rejected, shares.1, cap);
    SortBy(if cleanFirst then a + b else b + a, ByTask)
  }

  function Select(h: Hashes, c: Criteria, records: seq<Record>, cleanFirst: bool): seq<Sample>
    requires c.sampleCap >= 1
  {
    Assemble(h, c.sampleCap, Ranked(h, c.seed, records, Clean), Ranked(h, c.seed, records, RejectedMaterial), cleanFirst)
  }

  /** The tasks of the census are distinct and no two ranks collide. */
  ghost predicate Separated(h: Hashes, seed: string, records: seq<Record>) {
    && Distinct(records)
    && (forall x, y :: x in records && y in records && TaskOf(x) == TaskOf(y) ==> x == y)
    && (forall x, y :: x in records && y in records && RankOf(h, seed, x) == RankOf(h, seed, y) ==> x == y)
  }

  function TaskOf(r: Record): (string, string) {
    (r.projectId, r.taskId)
  }

  lemma {:induction false} StratumCounts(records: seq<Record>, outcome: Outcome, x: Record)
    ensures multiset(Stratum(records, outcome))[x] == if x.outcome == outcome then multiset(records)[x] else 0
    decreases |records|
  {
    if records != [] {
      var n := |records| - 1;
      StratumCounts(records[..n], outcome, x);
      assert records == records[..n] + [records[n]];
    }
  }

  lemma StratumOfPermutation(s: seq<Record>, t: seq<Record>, outcome: Outcome)
    requires multiset(s) == multiset(t)
    ensures multiset(Stratum(s, outcome)) == multiset(Stratum(t, outcome))
  {
    forall x
      ensures multiset(Stratum(s, outcome))[x] == multiset(Stratum(t, outcome))[x]
    {
      StratumCounts(s, outcome, x);
      StratumCounts(t, outcome, x);
    }
  }

  lemma StratumMember(records: seq<Record>, outcome: Outcome, x: Record)
    ensures x in Stratum(records, outcome) <==> x in records && x.outcome == outcome
  {
    StratumCounts(records, outcome, x);
    assert x in Stratum(records, outcome) <==> x in multiset(Stratum(records, outcome));
    assert x in records <==> x in multiset(records);
  }

  lemma RankOrders(h: Hashes, seed: string, records: seq<Record>, outcome: Outcome)
    requires Separated(h, seed, records)
    ensures Orders(ByRank(h, seed), Stratum(records, outcome))
  {
    BeforeIsStrictOrder();
    forall x
      ensures x in Stratum(records, outcome) <==> x in records && x.outcome == outcome
    {
      StratumMember(records, outcome, x);
    }
  }

  lemma SeparatedStays(h: Hashes, seed: string, s: seq<Record>, t: seq<Record>)
    requires multiset(s) == multiset(t) && Separated(h, seed, s)
    ensures Separated(h, seed, t)
  {
    SameBag(s, t);
    SameBagDistinct(s, t);
  }

  lemma RankingIsOrderFree(h: Hashes, seed: string, s: seq<Record>, t: seq<Record>, outcome: Outcome)
    requires multiset(s) == multiset(t) && Separated(h, seed, s)
    ensures Ranked(h, seed, s, outcome) == Ranked(h, seed, t, outcome)
  {
    SeparatedStays(h, seed, s, t);
    RankOrders(h, seed, s, outcome);
    RankOrders(h, seed, t, outcome);
    StratumOfPermutation(s, t, outcome);
    SortIsCanonical(Stratum(s, outcome), Stratum(t, outcome), ByRank(h, seed));
  }

  lemma RankedMembers(h: Hashes, seed: string, records: seq<Record>, outcome: Outcome)
    requires Distinct(records)
    ensures var r := Ranked(h, seed, records, outcome);
      Distinct(r) && |r| == |Stratum(records, outcome)| && forall x :: x in r <==> x in records && x.outcome == outcome
  {
    var st, r := Stratum(records, outcome), Ranked(h, seed, records, outcome);
    SameBag(r, st);
    forall x
      ensures x in r <==> x in records && x.outcome == outcome
    {
      StratumMember(records, outcome, x);
    }
    if !Distinct(r) {
      var x := RepeatIsCounted(r);
      StratumCounts(records, outcome, x);
      CountOfDistinct(records, x);
    }
  }

  lemma {:induction false} DrawnAt(h: Hashes, ranked: seq<Record>, take: nat, cap: int, x: Sample)
    requires take <= |ranked|
    ensures |Drawn(h, ranked, take, cap)| == take
    ensures x in Drawn(h, ranked, take, cap) <==> exists i :: 0 <= i < take && x == SampleOf(h, ranked[i], i + 1, |ranked|, cap)
    decreases take
  {
    if take > 0 {
      DrawnAt(h, ranked, take - 1, cap, x);
    }
  }

  /** Among drawn samples the task tells them apart. */
  ghost predicate TasksApart(samples: seq<Sample>) {
    forall x, y :: x in samples && y in samples && x.projectId == y.projectId && x.taskId == y.taskId ==> x == y
  }

  lemma ByTaskChains(x: Sample, y: Sample, z: Sample)
    ensures !ByTask(x, x)
    ensures ByTask(x, y) && ByTask(y, z) ==> ByTask(x, z)
    ensures ByTask(x, y) || ByTask(y, x) || (x.projectId == y.projectId && x.taskId == y.taskId)
  {
    BeforeIrreflexive(x.projectId);
    BeforeIrreflexive(x.taskId);
    BeforeTotal(x.projectId, y.projectId);
    BeforeTotal(x.taskId, y.taskId);
    if ByTask(x, y) && ByTask(y, z) {
      if x.projectId == y.projectId == z.projectId {
        BeforeTransitive(x.taskId, y.taskId, z.taskId);
      } else if x.projectId != y.projectId && y.projectId != z.projectId {
        BeforeTransitive(x.projectId, y.projectId, z.projectId);
      }
    }
  }

  lemma TasksOrder(samples: seq<Sample>)
    requires TasksApart(samples)
    ensures Orders(ByTask, samples)
  {
    forall x, y, z | x in samples && y in samples && z in samples
      ensures !ByTask(x, x) && (ByTask(x, y) && ByTask(y, z) ==> ByTask(x, z)) && (ByTask(x, y) || ByTask(y, x) || x == y)
    {
      ByTaskChains(x, y, z);
    }
  }

  lemma DrawnApart(h: Hashes, seed: string, records: seq<Record>, c: int, r: int, cap: int)
    requires Separated(h, seed, records)
    requires 0 <= c <= |Ranked(h, seed, records, Clean)| && 0 <= r <= |Ranked(h, seed, records, RejectedMaterial)|
    ensures TasksApart(Drawn(h, Ranked(h, seed, records, Clean), c, cap) + Drawn(h, Ranked(h, seed, records, RejectedMaterial), r, cap))
  {
    var clean, rejected := Ranked(h, seed, records, Clean), Ranked(h, seed, records, RejectedMaterial);
    var a, b := Drawn(h, clean, c, cap), Drawn(h, rejected, r, cap);
    forall x: Sample, y: Sample | x in a + b && y in a + b && x.projectId == y.projectId && x.taskId == y.taskId
      ensures x == y
    {
      SampleDetermined(h, seed, records, c, r, cap, x, y);
    }
  }

  lemma SampleDetermined(h: Hashes, seed: string, records: seq<Record>, c: int, r: int, cap: int, x: Sample, y: Sample)
    requires Separated(h, seed, records)
    requires 0 <= c <= |Ranked(h, seed, records, Clean)| && 0 <= r <= |Ranked(h, seed, records, RejectedMaterial)|
    requires var a, b := Drawn(h, Ranked(h, seed, records, Clean), c, cap), Drawn(h, Ranked(h, seed, records, RejectedMaterial), r, cap);
      x in a + b && y in a + b
    requires x.projectId == y.projectId && x.taskId == y.taskId
    ensures x == y
  {
    var i, xs := Origin(h, seed, records, c, r, cap, x);
    var j, ys := Origin(h, seed, records, c, r, cap, y);
    assert TaskOf(xs[i]) == TaskOf(ys[j]);
    assert xs[i] == ys[j];
    assert xs == ys && i == j;
  }

  /** The record a drawn sample comes from: its stratum's ranking and its place. */
  lemma Origin(h: Hashes, seed: string, records: seq<Record>, c: int, r: int, cap: int, x: Sample)
    returns (i: nat, ranked: seq<Record>)
    requires Distinct(records)
    requires 0 <= c <= |Ranked(h, seed, records, Clean)| && 0 <= r <= |Ranked(h, seed, records, RejectedMaterial)|
    requires x in Drawn(h, Ranked(h, seed, records, Clean), c, cap) + Drawn(h, Ranked(h, seed, records, RejectedMaterial), r, cap)
    ensures i < |ranked| && x == SampleOf(h, ranked[i], i + 1, |ranked|, cap)
    ensures i < if ranked[i].outcome == Clean then c else r
    ensures ranked[i].outcome in {Clean, RejectedMaterial}
    ensures ranked[i] in records && ranked == Ranked(h, seed, records, ranked[i].outcome) && Distinct(ranked)
  {
    RankedMembers(h, seed, records, Clean);
    RankedMembers(h, seed, records, RejectedMaterial);
    var clean := Ranked(h, seed, records, Clean);
    DrawnAt(h, clean, c, cap, x);
    if x in Drawn(h, clean, c, cap) {
      ranked := clean;
      i :| 0 <= i < c && x == SampleOf(h, ranked[i], i + 1, |ranked|, cap);
    } else {
      ranked := Ranked(h, seed, records, RejectedMaterial);
      DrawnAt(h, ranked, r, cap, x);
      i :| 0 <= i < r && x == SampleOf(h, ranked[i], i + 1, |ranked|, cap);
    }
    assert ranked[i] in ranked;
  }

  /** The same census gives the same samples, whatever order its records arrive in and whichever
      group is walked first. */
  lemma SelectionIsOrderFree(h: Hashes, c: Criteria, s: seq<Record>, t: seq<Record>, cleanFirst: bool, cleanFirst': bool)
    requires c.sampleCap >= 1 && multiset(s) == multiset(t) && Separated(h, c.seed, s)
    ensures Select(h, c, s, cleanFirst) == Select(h, c, t, cleanFirst')
  {
    RankingIsOrderFree(h, c.seed, s, t, Clean);
    RankingIsOrderFree(h, c.seed, s, t, RejectedMaterial);
    var clean, rejected := Ranked(h, c.seed, s, Clean), Ranked(h, c.seed, s, RejectedMaterial);
    SharesAreFair(c.sampleCap, |clean|, |rejected|);
    var shares := SharesOf(h, c, s);
    var a, b := Drawn(h, clean, shares.0, c.sampleCap), Drawn(h, rejected, shares.1, c.sampleCap);
    DrawnApart(h, c.seed, s, shares.0, shares.1, c.sampleCap);
    TasksOrder(a + b);
    SwapIsSameBag(a, b);
    OrdersFewer(ByTask, a + b, b + a);
    SortIsCanonical(a + b, b + a, ByTask);
  }

  lemma SwapIsSameBag(a: seq<Sample>, b: seq<Sample>)
    ensures multiset(a + b) == multiset(b + a)
    ensures forall x :: x in b + a ==> x in a + b
  {}

  lemma {:induction false} StrataCover(records: seq<Record>)
    requires forall r :: r in records ==> r.outcome in {Clean, RejectedMaterial}
    ensures |Stratum(records, Clean)| + |Stratum(records, RejectedMaterial)| == |records|
    decreases |records|
  {
    if records != [] {
      var n := |records| - 1;
      StrataCover(records[..n]);
      assert records[n] in records;
    }
  }

  /** Exactly min(cap, eligible) samples are selected. */
  lemma SelectionFillsTheCap(h: Hashes, c: Criteria, records: seq<Record>, cleanFirst: bool)
    requires c.sampleCap >= 1 && forall r :: r in records ==> Eligible(r, c)
    ensures |Select(h, c, records, cleanFirst)| == Min(c.sampleCap, |records|)
  {
    var clean, rejected := Ranked(h, c.seed, records, Clean), Ranked(h, c.seed, records, RejectedMaterial);
    SameBag(clean, Stratum(records, Clean));
    SameBag(rejected, Stratum(records, RejectedMaterial));
    StrataCover(records);
    AssembleLength(h, c.sampleCap, clean, rejected, cleanFirst);
  }

  lemma AssembleLength(h: Hashes, cap: int, clean: seq<Record>, rejected: seq<Record>, cleanFirst: bool)
    requires cap >= 1
    ensures |Assemble(h, cap, clean, rejected, cleanFirst)| == Min(cap, |clean| + |rejected|)
  {
    SharesAreFair(cap, |clean|, |rejected|);
    var shares := Shares(cap, |clean|, |rejected|);
    var a, b := Drawn(h, clean, shares.0, cap), Drawn(h, rejected, shares.1, cap);
    DrawnLength(h, clean, shares.0, cap);
    DrawnLength(h, rejected, shares.1, cap);
    SameBag(Assemble(h, cap, clean, rejected, cleanFirst), if cleanFirst then a + b else b + a);
  }

  lemma {:induction false} DrawnLength(h: Hashes, ranked: seq<Record>, take: nat, cap: int)
    requires take <= |ranked|
    ensures |Drawn(h, ranked, take, cap)| == take
    decreases take
  {
    if take > 0 {
      DrawnLength(h, ranked, take - 1, cap);
    }
  }

  function OfOutcome(samples: seq<Sample>, outcome: Outcome): nat {
    if samples == [] then 0
    else
      var n := |samples| - 1;
      OfOutcome(samples[..n], outcome) + if samples[n].outcome == outcome then 1 else 0
  }

  lemma {:induction false} OfOutcomeConcat(a: seq<Sample>, b: seq<Sample>, outcome: Outcome)
    ensures OfOutcome(a + b, outcome) == OfOutcome(a, outcome) + OfOutcome(b, outcome)
    decreases |b|
  {
    if b == [] {
      assert a + b == a;
    } else {
      var n := |b| - 1;
      assert (a + b)[..|a + b| - 1] == a + b[..n];
      OfOutcomeConcat(a, b[..n], outcome);
    }
  }

  lemma OfOutcomeWithout(b: seq<Sample>, i: nat, outcome: Outcome)
    requires i < |b|
    ensures OfOutcome(b, outcome) == OfOutcome(b[..i] + b[i + 1..], outcome) + if b[i].outcome == outcome then 1 else 0
  {
    var one := [b[i]];
    assert b == b[..i] + one + b[i + 1..] && one[..0] == [];
    OfOutcomeConcat(b[..i] + one, b[i + 1..], outcome);
    OfOutcomeConcat(b[..i], one, outcome);
    OfOutcomeConcat(b[..i], b[i + 1..], outcome);
  }

  lemma OneFewer(a: seq<Sample>, b: seq<Sample>, i: nat)
    requires multiset(a) == multiset(b) && a != [] && i < |b| && b[i] == a[0]
    ensures multiset(a[..0] + a[1..]) == multiset(b[..i] + b[i + 1..])
    ensures |a[..0] + a[1..]| < |a|
  {
    RemoveOne(a, 0);
    RemoveOne(b, i);
  }

  lemma {:induction false} OfOutcomePermutes(a: seq<Sample>, b: seq<Sample>, outcome: Outcome)
    requires multiset(a) == multiset(b)
    ensures OfOutcome(a, outcome) == OfOutcome(b, outcome)
    decreases |a|
  {
    SameBag(a, b);
    if a != [] {
      assert a[0] in a;
      var i :| 0 <= i < |b| && b[i] == a[0];
      OneFewer(a, b, i);
      OfOutcomePermutes(a[..0] + a[1..], b[..i] + b[i + 1..], outcome);
      OfOutcomeWithout(a, 0, outcome);
      OfOutcomeWithout(b, i, outcome);
    }
  }

  lemma OfOutcomeSnoc(a: seq<Sample>, x: Sample, outcome: Outcome)
    ensures OfOutcome(a + [x], outcome) == OfOutcome(a, outcome) + if x.outcome == outcome then 1 else 0
  {
    assert (a + [x])[..|a|] == a;
  }

  lemma {:induction false} DrawnOutcome(h: Hashes, ranked: seq<Record>, take: nat, cap: int, own: Outcome, outcome: Outcome)
    requires take <= |ranked| && forall r :: r in ranked ==> r.outcome == own
    ensures OfOutcome(Drawn(h, ranked, take, cap), outcome) == if outcome == own then take else 0
    decreases take
  {
    if take > 0 {
      var last := SampleOf(h, ranked[take - 1], take, |ranked|, cap);
      assert ranked[take - 1] in ranked;
      DrawnOutcome(h, ranked, take - 1, cap, own, outcome);
      OfOutcomeSnoc(Drawn(h, ranked, take - 1, cap), last, outcome);
    }
  }

  lemma StratumIsItsShare(h: Hashes, c: Criteria, records: seq<Record>, cleanFirst: bool, outcome: Outcome)
    requires c.sampleCap >= 1 && Distinct(records) && outcome in {Clean, RejectedMaterial}
    ensures OfOutcome(Select(h, c, records, cleanFirst), outcome)
      == if outcome == Clean then SharesOf(h, c, records).0 else SharesOf(h, c, records).1
  {
    var clean, rejected := Ranked(h, c.seed, records, Clean), Ranked(h, c.seed, records, RejectedMaterial);
    RankedMembers(h, c.seed, records, Clean);
    RankedMembers(h, c.seed, records, RejectedMaterial);
    SharesAreFair(c.sampleCap, |clean|, |rejected|);
    var shares := SharesOf(h, c, records);
    var a, b := Drawn(h, clean, shares.0, c.sampleCap), Drawn(h, rejected, shares.1, c.sampleCap);
    DrawnOutcome(h, clean, shares.0, c.sampleCap, Clean, outcome);
    DrawnOutcome(h, rejected, shares.1, c.sampleCap, RejectedMaterial, outcome);
    OfOutcomeConcat(a, b, outcome);
    OfOutcomeConcat(b, a, outcome);
    OfOutcomePermutes(Select(h, c, records, cleanFirst), if cleanFirst then a + b else b + a, outcome);
  }

  /** Each stratum gets at least its half of the cap, as far as it goes. */
  lemma EachStratumGetsItsHalf(h: Hashes, c: Criteria, records: seq<Record>, cleanFirst: bool)
    requires c.sampleCap >= 1 && Distinct(records)
    ensures OfOutcome(Select(h, c, records, cleanFirst), Clean) >= Min((c.sampleCap + 1) / 2, |Stratum(records, Clean)|)
    ensures OfOutcome(Select(h, c, records, cleanFirst), RejectedMaterial) >= Min(c.sampleCap / 2, |Stratum(records, RejectedMaterial)|)
  {
    RankedMembers(h, c.seed, records, Clean);
    RankedMembers(h, c.seed, records, RejectedMaterial);
    SharesAreFair(c.sampleCap, |Stratum(records, Clean)|, |Stratum(records, RejectedMaterial)|);
    StratumIsItsShare(h, c, records, cleanFirst, Clean);
    StratumIsItsShare(h, c, records, cleanFirst, RejectedMaterial);
  }

  ghost predicate Selected(h: Hashes, c: Criteria, records: seq<Record>, cleanFirst: bool, r: Record)
    requires c.sampleCap >= 1
  {
    exists x :: x in Select(h, c, records, cleanFirst) && (x.projectId, x.taskId) == TaskOf(r)
  }

  lemma RankingAscends(h: Hashes, seed: string, records: seq<Record>, outcome: Outcome, i: nat, j: nat)
    requires Separated(h, seed, records) && i < j < |Ranked(h, seed, records, outcome)|
    ensures var r := Ranked(h, seed, records, outcome); Before(RankOf(h, seed, r[i]), RankOf(h, seed, r[j]))
  {
    var r := Ranked(h, seed, records, outcome);
    RankOrders(h, seed, records, outcome);
    SortSorts(Stratum(records, outcome), ByRank(h, seed));
    RankedMembers(h, seed, records, outcome);
    assert r[i] in r && r[j] in r && r[i] != r[j];
    assert !ByRank(h, seed)(r[j], r[i]);
    BeforeTotal(RankOf(h, seed, r[i]), RankOf(h, seed, r[j]));
  }

  /** The draw is by rank alone: a submission that was passed over ranks behind every selected one
      of its stratum. */
  lemma LowestRanksWin(h: Hashes, c: Criteria, records: seq<Record>, cleanFirst: bool, x: Sample, q: Record)
    requires c.sampleCap >= 1 && Separated(h, c.seed, records)
    requires x in Select(h, c, records, cleanFirst) && q in records && q.outcome == x.outcome
    requires !Selected(h, c, records, cleanFirst, q)
    ensures Before(h.rank(c.seed, x.key), RankOf(h, c.seed, q))
  {
    var i, j, ranked := PlacesOf(h, c, records, cleanFirst, x, q);
    if j <= i {
      TakenIsSelected(h, c, records, cleanFirst, ranked, j);
    } else {
      RankingAscends(h, c.seed, records, q.outcome, i, j);
    }
  }

  /** The places of a selected sample and of another submission of its stratum. */
  lemma PlacesOf(h: Hashes, c: Criteria, records: seq<Record>, cleanFirst: bool, x: Sample, q: Record)
    returns (i: nat, j: nat, ranked: seq<Record>)
    requires c.sampleCap >= 1 && Separated(h, c.seed, records)
    requires x in Select(h, c, records, cleanFirst) && q in records && q.outcome == x.outcome
    ensures ranked == Ranked(h, c.seed, records, q.outcome) && q.outcome in {Clean, RejectedMaterial}
    ensures i < |ranked| && x.key == KeyOf(h, ranked[i])
    ensures j < |ranked| && ranked[j] == q
    ensures var shares := SharesOf(h, c, records);
      i < if q.outcome == Clean then shares.0 else shares.1
  {
    var shares := SharesOf(h, c, records);
    SelectMember(h, c, records, cleanFirst, x);
    i, ranked := Origin(h, c.seed, records, shares.0, shares.1, c.sampleCap, x);
    RankedMembers(h, c.seed, records, q.outcome);
    assert q in ranked;
    j :| 0 <= j < |ranked| && ranked[j] == q;
  }

  lemma SelectMember(h: Hashes, c: Criteria, records: seq<Record>, cleanFirst: bool, x: Sample)
    requires c.sampleCap >= 1
    ensures var clean, rejected := Ranked(h, c.seed, records, Clean), Ranked(h, c.seed, records, RejectedMaterial);
      var shares := SharesOf(h, c, records);
      && 0 <= shares.0 <= |clean| && 0 <= shares.1 <= |rejected|
      && (x in Select(h, c, records, cleanFirst) <==>
          x in Drawn(h, clean, shares.0, c.sampleCap) + Drawn(h, rejected, shares.1, c.sampleCap))
  {
    var clean, rejected := Ranked(h, c.seed, records, Clean), Ranked(h, c.seed, records, RejectedMaterial);
    SharesAreFair(c.sampleCap, |clean|, |rejected|);
    var shares := SharesOf(h, c, records);
    var a, b := Drawn(h, clean, shares.0, c.sampleCap), Drawn(h, rejected, shares.1, c.sampleCap);
    SameBag(Select(h, c, records, cleanFirst), if cleanFirst then a + b else b + a);
  }

  lemma TakenIsSelected(h: Hashes, c: Criteria, records: seq<Record>, cleanFirst: bool, ranked: seq<Record>, j: nat)
    requires c.sampleCap >= 1
    requires j < |ranked| && ranked[j].outcome in {Clean, RejectedMaterial} && ranked == Ranked(h, c.seed, records, ranked[j].outcome)
    requires j < if ranked[j].outcome == Clean then SharesOf(h, c, records).0 else SharesOf(h, c, records).1
    ensures Selected(h, c, records, cleanFirst, ranked[j])
  {
    var y := SampleOf(h, ranked[j], j + 1, |ranked|, c.sampleCap);
    SelectMember(h, c, records, cleanFirst, y);
    var shares := SharesOf(h, c, records);
    var take := if ranked[j].outcome == Clean then shares.0 else shares.1;
    TakenIsDrawn(h, ranked, take, c.sampleCap, j);
    assert (y.projectId, y.taskId) == TaskOf(ranked[j]);
  }

  lemma TakenIsDrawn(h: Hashes, ranked: seq<Record>, take: nat, cap: int, j: nat)
    requires j < take <= |ranked|
    ensures SampleOf(h, ranked[j], j + 1, |ranked|, cap) in Drawn(h, ranked, take, cap)
  {
    DrawnAt(h, ranked, take, cap, SampleOf(h, ranked[j], j + 1, |ranked|, cap));
  }
}
