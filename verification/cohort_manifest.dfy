/** internal/evaluation/cohort.go, 235-350: building the manifest, marking samples unavailable and
    sealing it. */
module CohortManifests {
  import opened Wrappers
  import opened Ordering
  import opened Cohort
  import opened Text

  /** The manifest as it is drawn: the criteria with their lists sorted, the samples, and the
      denominators the selection determines. */
  datatype Drawing = Drawing(
    criteria: Criteria, samples: seq<Sample>,
    eligibleClean: nat, eligibleRejected: nat, selectedClean: int, selectedRejected: int
  )

  function SortedCriteria(c: Criteria): Criteria {
    c.(projectIds := SortBy(c.projectIds, Before), contextPaths := SortBy(c.contextPaths, Before))
  }

  function DrawingOf(h: Hashes, c: Criteria, records: seq<Record>, cleanFirst: bool): Drawing
    requires c.sampleCap >= 1
  {
    var shares := SharesOf(h, c, records);
    Drawing(SortedCriteria(c), Select(h, c, records, cleanFirst),
            |Stratum(records, Clean)|, |Stratum(records, RejectedMaterial)|, shares.0, shares.1)
  }

  method ValidateCriteria(c: Criteria, pathOk: string -> bool) returns (ok: bool)
    ensures ok <==> ValidCriteria(c, pathOk)
  {
    if c.projectIds == [] {
      return false;
    }
    var seen := {};
    for i := 0 to |c.projectIds|
      invariant seen == set k | 0 <= k < i :: c.projectIds[k]
      invariant (forall k :: 0 <= k < i ==> !Blank(c.projectIds[k])) && NoRepeat(c.projectIds[..i])
    {
      var p := c.projectIds[i];
      if Blank(p) || p in seen {
        return false;
      }
      seen := seen + {p};
    }
    assert c.projectIds[..|c.projectIds|] == c.projectIds;
    if c.sampleCap < 1 || c.sampleCap > MAX_COHORT_CAP || Blank(c.seed) {
      return false;
    }
    ok := ValidatePaths(c.contextPaths, pathOk);
  }

  method ValidatePaths(contextPaths: seq<string>, pathOk: string -> bool) returns (ok: bool)
    ensures ok <==> (forall p :: p in contextPaths ==> pathOk(p)) && NoRepeat(contextPaths)
  {
    var paths := {};
    for i := 0 to |contextPaths|
      invariant paths == set k | 0 <= k < i :: contextPaths[k]
      invariant (forall k :: 0 <= k < i ==> pathOk(contextPaths[k])) && NoRepeat(contextPaths[..i])
    {
      var p := contextPaths[i];
      if !pathOk(p) || p in paths {
        return false;
      }
      paths := paths + {p};
    }
    assert contextPaths[..|contextPaths|] == contextPaths;
    return true;
  }

  method Draw(h: Hashes, ranked: seq<Record>, take: nat, cap: int) returns (samples: seq<Sample>)
    requires take <= |ranked|
    ensures samples == Drawn(h, ranked, take, cap)
  {
    samples := [];
    for i := 0 to take
      invariant samples == Drawn(h, ranked, i, cap)
    {
      samples := samples + [SampleOf(h, ranked[i], i + 1, |ranked|, cap)];
    }
  }

  /** The loop over the census: every record must be eligible, and each is appended to its stratum. */
  method Stratify(c: Criteria, records: seq<Record>)
    returns (err: Option<Error>, clean: seq<Record>, rejected: seq<Record>)
    ensures err.None? <==> forall r :: r in records ==> Eligible(r, c)
    ensures err.None? ==> clean == Stratum(records, Clean) && rejected == Stratum(records, RejectedMaterial)
  {
    clean, rejected := [], [];
    for i := 0 to |records|
      invariant forall k :: 0 <= k < i ==> Eligible(records[k], c)
      invariant clean == Stratum(records[..i], Clean) && rejected == Stratum(records[..i], RejectedMaterial)
    {
      var r := records[i];
      assert r in records && records[..i + 1][..i] == records[..i];
      if r.projectId !in c.projectIds {
        return Some(NotSelectedProject), clean, rejected;
      }
      if r.round != 1 {
        return Some(NotFirstRound), clean, rejected;
      }
      match r.outcome {
        case Clean => clean := clean + [r];
        case RejectedMaterial => rejected := rejected + [r];
        case OtherOutcome => return Some(WrongOutcome), clean, rejected;
      }
    }
    assert records[..|records|] == records;
    return None, clean, rejected;
  }

  method TakeShares(cap: int, clean: nat, rejected: nat) returns (takeClean: nat, takeRejected: nat)
    requires cap >= 1
    ensures (takeClean, takeRejected) == Shares(cap, clean, rejected)
    ensures takeClean <= clean && takeRejected <= rejected
  {
    SharesAreFair(cap, clean, rejected);
    var wantClean := (cap + 1) / 2;
    var wantRejected := cap - wantClean;
    takeClean, takeRejected := Min(wantClean, clean), Min(wantRejected, rejected);
    takeClean := Min(clean, takeClean + (wantRejected - takeRejected));
    takeRejected := Min(rejected, takeRejected + (wantClean - Min(wantClean, clean)));
  }

  /** The shares, the draw and the final sort. */
  method Build(h: Hashes, c: Criteria, clean: seq<Record>, rejected: seq<Record>, cleanFirst: bool)
    returns (d: Drawing)
    requires c.sampleCap >= 1
    ensures d.criteria == SortedCriteria(c) && d.samples == Assemble(h, c.sampleCap, clean, rejected, cleanFirst)
    ensures d.eligibleClean == |clean| && d.eligibleRejected == |rejected|
    ensures (d.selectedClean, d.selectedRejected) == Shares(c.sampleCap, |clean|, |rejected|)
  {
    var cap := c.sampleCap;
    var takeClean, takeRejected := TakeShares(cap, |clean|, |rejected|);
    var a := Draw(h, clean, takeClean, cap);
    var b := Draw(h, rejected, takeRejected, cap);
    ghost var shares := Shares(cap, |clean|, |rejected|);
    assert a == Drawn(h, clean, shares.0, cap) && b == Drawn(h, rejected, shares.1, cap);
    var samples := if cleanFirst then a + b else b + a;
    d := Drawing(SortedCriteria(c), SortBy(samples, ByTask), |clean|, |rejected|, takeClean, takeRejected);
  }

  method SelectCohort(h: Hashes, c: Criteria, records: seq<Record>, pathOk: string -> bool, cleanFirst: bool)
    returns (r: Result<Drawing, Error>)
    ensures r.Ok? <==> ValidCriteria(c, pathOk) && forall x :: x in records ==> Eligible(x, c)
    ensures r.Ok? ==> r.value == DrawingOf(h, c, records, cleanFirst)
    ensures r.Ok? ==> r.value.eligibleClean + r.value.eligibleRejected == |records|
  {
    var valid := ValidateCriteria(c, pathOk);
    if !valid {
      return Err(InvalidCriteria);
    }
    var err, clean, rejected := Stratify(c, records);
    if err.Some? {
      return Err(err.value);
    }
    StrataCover(records);
    var rankedClean, rankedRejected := SortBy(clean, ByRank(h, c.seed)), SortBy(rejected, ByRank(h, c.seed));
    SameBag(rankedClean, clean);
    SameBag(rankedRejected, rejected);
    var d := Build(h, c, rankedClean, rankedRejected, cleanFirst);
    return Ok(d);
  }

  /** The same project and path lists up to order, and the same cap and seed. */
  ghost predicate SameCriteria(c: Criteria, d: Criteria) {
    && multiset(c.projectIds) == multiset(d.projectIds) && multiset(c.contextPaths) == multiset(d.contextPaths)
    && c.sampleCap == d.sampleCap && c.seed == d.seed
  }

  /** The same census and criteria give the same manifest, denominators and all, whatever order any
      of the lists is in and whichever stratum is walked first. */
  lemma ManifestIsOrderFree(h: Hashes, c: Criteria, d: Criteria, s: seq<Record>, t: seq<Record>, cleanFirst: bool, cleanFirst': bool)
    requires c.sampleCap >= 1 && SameCriteria(c, d) && multiset(s) == multiset(t) && Separated(h, c.seed, s)
    ensures DrawingOf(h, c, s, cleanFirst) == DrawingOf(h, d, t, cleanFirst')
    ensures (forall r :: r in s ==> Eligible(r, c)) <==> (forall r :: r in t ==> Eligible(r, d))
  {
    SameBag(c.projectIds, d.projectIds);
    SameBag(s, t);
    SelectionIsOrderFree(h, c, s, t, cleanFirst, cleanFirst');
    StratumOfPermutation(s, t, Clean);
    StratumOfPermutation(s, t, RejectedMaterial);
    SameBag(Stratum(s, Clean), Stratum(t, Clean));
    SameBag(Stratum(s, RejectedMaterial), Stratum(t, RejectedMaterial));
    SameBag(Ranked(h, c.seed, s, Clean), Stratum(s, Clean));
    SameBag(Ranked(h, c.seed, s, RejectedMaterial), Stratum(s, RejectedMaterial));
    SameBag(Ranked(h, c.seed, t, Clean), Stratum(t, Clean));
    SameBag(Ranked(h, c.seed, t, RejectedMaterial), Stratum(t, RejectedMaterial));
    StringsSort(c.projectIds, d.projectIds);
    StringsSort(c.contextPaths, d.contextPaths);
    assert Select(h, c, t, cleanFirst') == Select(h, d, t, cleanFirst');
  }

  lemma StringsSort(a: seq<string>, b: seq<string>)
    requires multiset(a) == multiset(b)
    ensures SortBy(a, Before) == SortBy(b, Before)
  {
    BeforeIsStrictOrder();
    StrictOrders(Before, a);
    StrictOrders(Before, b);
    SortIsCanonical(a, b, Before);
  }

  predicate Sealable(s: Sample) {
    if s.available then s.submittedSha != "" && s.snapshotDigest != "" else s.unavailableReason != ""
  }

  function CountAvailable(samples: seq<Sample>): nat {
    if samples == [] then 0
    else CountAvailable(samples[..|samples| - 1]) + if samples[|samples| - 1].available then 1 else 0
  }

  function CountReason(samples: seq<Sample>, reason: string): nat {
    if samples == [] then 0
    else
      var last := samples[|samples| - 1];
      CountReason(samples[..|samples| - 1], reason) + if !last.available && last.unavailableReason == reason then 1 else 0
  }

  /** Each reason has its count. */
  ghost predicate Tallied(byReason: map<string, nat>, samples: seq<Sample>) {
    forall reason :: CountReason(samples, reason) == if reason in byReason then byReason[reason] else 0
  }

  function Incremented(counts: map<string, nat>, k: string): map<string, nat> {
    counts[k := (if k in counts then counts[k] else 0) + 1]
  }

  lemma SealSnoc(byReason: map<string, nat>, samples: seq<Sample>, s: Sample)
    requires Tallied(byReason, samples)
    ensures CountAvailable(samples + [s]) == CountAvailable(samples) + if s.available then 1 else 0
    ensures Tallied(if s.available then byReason else Incremented(byReason, s.unavailableReason), samples + [s])
  {
    assert (samples + [s])[..|samples|] == samples;
  }

  /** The first sample with the key, at i, was marked, and nothing else changed. */
  ghost predicate MarkedAt(before: seq<Sample>, after: seq<Sample>, i: nat, key: string, reason: string) {
    && i < |before| && before[i].key == key && (forall j :: 0 <= j < i ==> before[j].key != key)
    && after == before[i := before[i].(available := false, unavailableReason := reason, snapshotDigest := "")]
  }

  class CohortManifest {
    var samples: seq<Sample>
    var available: nat
    var unavailable: nat
    var unavailableByReason: map<string, nat>

    constructor (samples: seq<Sample>)
      ensures this.samples == samples
    {
      this.samples, available, unavailable, unavailableByReason := samples, 0, 0, map[];
    }

    /** The first sample with the key becomes unavailable and loses its digests; it and every other
        sample stay in the manifest. */
    method MarkUnavailable(key: string, reason: string) returns (found: bool)
      modifies this`samples
      ensures found <==> exists s :: s in old(samples) && s.key == key
      ensures !found ==> samples == old(samples)
      ensures found ==> exists i :: MarkedAt(old(samples), samples, i, key, reason)
    {
      for i := 0 to |samples|
        invariant samples == old(samples)
        invariant forall j :: 0 <= j < i ==> samples[j].key != key
      {
        if samples[i].key == key {
          assert samples[i] in samples;
          ghost var before := samples;
          samples := samples[i := samples[i].(available := false, unavailableReason := reason, snapshotDigest := "")];
          assert MarkedAt(before, samples, i, key, reason);
          return true;
        }
      }
      return false;
    }

    /** Sealing succeeds exactly when every sample is accounted for, and then the denominators add
        up: available and unavailable are all samples, and each reason has its count. */
    method Seal() returns (ok: bool)
      modifies this
      ensures samples == old(samples)
      ensures ok <==> forall s :: s in samples ==> Sealable(s)
      ensures ok ==> available + unavailable == |samples| && available == CountAvailable(samples)
      ensures ok ==> Tallied(unavailableByReason, samples)
    {
      available, unavailable, unavailableByReason := 0, 0, map[];
      for i := 0 to |samples|
        invariant samples == old(samples)
        invariant forall k :: 0 <= k < i ==> Sealable(samples[k])
        invariant available + unavailable == i && available == CountAvailable(samples[..i])
        invariant Tallied(unavailableByReason, samples[..i])
      {
        var s := samples[i];
        assert s in samples && samples[..i + 1] == samples[..i] + [s];
        SealSnoc(unavailableByReason, samples[..i], s);
        if s.available {
          if s.submittedSha == "" || s.snapshotDigest == "" {
            return false;
          }
          available := available + 1;
        } else {
          if s.unavailableReason == "" {
            return false;
          }
          unavailable := unavailable + 1;
          unavailableByReason := Incremented(unavailableByReason, s.unavailableReason);
        }
      }
      assert samples[..|samples|] == samples;
      return true;
    }
  }

  /** Marking never shrinks the cohort: the same samples are there, in the same places, so the
      denominators stay those of the draw. */
  lemma MarkingKeepsTheCohort(before: seq<Sample>, after: seq<Sample>, i: nat, key: string, reason: string)
    requires MarkedAt(before, after, i, key, reason)
    ensures |after| == |before| && forall j :: 0 <= j < |before| ==> after[j].key == before[j].key
    ensures CountAvailable(after) == CountAvailable(before) - if before[i].available then 1 else 0
  {
    MarkedCount(before, i, after[i]);
  }

  lemma {:induction false} MarkedCount(before: seq<Sample>, i: nat, s: Sample)
    requires i < |before| && !s.available
    ensures CountAvailable(before[i := s]) == CountAvailable(before) - if before[i].available then 1 else 0
    decreases |before|
  {
    var n := |before| - 1;
    if i == n {
      assert before[i := s][..n] == before[..n];
    } else {
      MarkedCount(before[..n], i, s);
      assert before[i := s][..n] == before[..n][i := s];
    }
  }
}
