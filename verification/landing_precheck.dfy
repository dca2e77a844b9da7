/** Publish's checked-out precheck does not look at the lock, but the approve that sees it fail gives
    its reservation back as if it still held it. Exactly when that exposes published work. */
module LandingPrecheck {
  import opened Wrappers
  import opened Commits
  import opened Landing
  import opened LandingInvariant
  import opened LandingFence
  import opened LandingSafety
  import opened LandingRecovery

  const CLEAR := Input(0, 0, false, false, false, false)
  const CHECKED_OUT := Input(0, 0, false, true, false, false)

  predicate AllProtected(w: World) {
    forall entry :: entry in w.log ==> Protected(w, entry)
  }

  /** Whatever follows, as long as no further precheck fails harmfully, published work is protected. */
  predicate SafeFrom(w: World, events: seq<Event>) {
    PrechecksHarmless(w, events) ==> AllProtected(Play(w, events))
  }

  /** An approve whose precheck fails, though its attempt owns the reservation, while its task's commit
      is on the branch, or another approve is about to put it there, drops the reservation of
      published work. */
  lemma HarmfulPrecheckExposes(w: World, p: Token) returns (events: seq<Event>)
    requires Inv(w) && PrecheckFails(w, Act(p, CHECKED_OUT)) && !CancelHarmless(w, p, w.runs[p])
    ensures !SafeFrom(Next(w, Act(p, CHECKED_OUT)), events)
  {
    var t := w.runs[p].task;
    var w1 := Next(w, Act(p, CHECKED_OUT));
    RunAt(w, p);
    TaskAt(w, t);
    SentCancel(w, p);
    if entry :| entry in w.log && entry.task == t {
      events := [Deliver(p, CancelCall, Heard)];
      CancelExposes(w1, p, entry);
    } else {
      var q :| q in w.runs && q != p && w.runs[q].task == t && IsPublisher(w, q, w.runs[q]);
      RunAt(w, q);
      var w2 := Next(w1, Act(q, CLEAR));
      OtherPublishes(w, w1, p, q);
      CancelExposes(w2, p, Landed(t, w.runs[q].plan.value.source));
      events := [Act(q, CLEAR)] + [Deliver(p, CancelCall, Heard)];
      ExposedLater(w1, Act(q, CLEAR), [Deliver(p, CancelCall, Heard)]);
    }
  }

  lemma ExposedLater(w: World, e: Event, rest: seq<Event>)
    requires !PrecheckFails(w, e) && !SafeFrom(Next(w, e), rest)
    ensures !SafeFrom(w, [e] + rest)
  {
    assert ([e] + rest)[1..] == rest;
  }

  lemma CancelExposes(w: World, p: Token, entry: Landed)
    requires p in w.runs && w.runs[p].flight == Some(CancelCall) && NamesOwner(w, p, w.runs[p])
    requires w.tasks[w.runs[p].task].state.Approved? && entry in w.log && entry.task == w.runs[p].task
    ensures !SafeFrom(w, [Deliver(p, CancelCall, Heard)])
  {
    DeliveredCancel(w, p);
    PlayOne(w, Deliver(p, CancelCall, Heard));
    assert !Protected(Next(w, Deliver(p, CancelCall, Heard)), entry);
  }

  lemma PlayOne(w: World, e: Event)
    requires !PrecheckFails(w, e)
    ensures Play(w, [e]) == Next(w, e) && PrechecksHarmless(w, [e])
  {
    assert [e][1..] == [];
  }

  lemma SentCancel(w: World, p: Token)
    requires Inv(w) && PrecheckFails(w, Act(p, CHECKED_OUT)) && NamesOwner(w, p, w.runs[p])
    ensures var w1 := Next(w, Act(p, CHECKED_OUT));
      w1 == SetRun(w, p, Send(w.runs[p], CancelCall, AwaitCancel)) &&
      w1.runs[p].flight == Some(CancelCall) && NamesOwner(w1, p, w1.runs[p]) && w1.tasks[w1.runs[p].task].state.Approved?
  {
    TaskAt(w, w.runs[p].task);
  }

  lemma DeliveredCancel(w: World, p: Token)
    requires p in w.runs && w.runs[p].flight == Some(CancelCall) && NamesOwner(w, p, w.runs[p])
    requires w.tasks[w.runs[p].task].state.Approved?
    ensures var w' := Next(w, Deliver(p, CancelCall, Heard));
      w'.log == w.log && w.runs[p].task in w'.tasks &&
      w'.tasks[w.runs[p].task].landing.None? && w'.tasks[w.runs[p].task].state.Approved?
  {
  }

  lemma OtherPublishes(w: World, w1: World, p: Token, q: Token)
    requires p in w.runs && q in w.runs && q != p && IsPublisher(w, q, w.runs[q])
    requires w1 == SetRun(w, p, Send(w.runs[p], CancelCall, AwaitCancel))
    ensures var w2 := Next(w1, Act(q, CLEAR));
      w2.tasks == w1.tasks && w2.runs[p] == w1.runs[p] && p in w2.runs &&
      w2.log == w1.log + [Landed(w.runs[q].task, w.runs[q].plan.value.source)]
  {
  }

  /** The exact condition: a failing precheck exposes published work in some continuation unless giving
      the reservation back is harmless at that moment. */
  lemma PrecheckSafeIffHarmless(w: World, p: Token)
    requires Inv(w) && PrecheckFails(w, Act(p, CHECKED_OUT))
    ensures CancelHarmless(w, p, w.runs[p]) <==> forall events :: SafeFrom(Next(w, Act(p, CHECKED_OUT)), events)
  {
    var w1 := Next(w, Act(p, CHECKED_OUT));
    if CancelHarmless(w, p, w.runs[p]) {
      NextKeepsInv(w, Act(p, CHECKED_OUT));
      forall events | PrechecksHarmless(w1, events) ensures AllProtected(Play(w1, events)) {
        PlayKeepsInv(w1, events);
      }
    } else {
      var events := HarmfulPrecheckExposes(w, p);
    }
  }

  ghost predicate AlwaysSafe(w: World) {
    forall events :: SafeFrom(w, events)
  }

  lemma InvIsSafe(w: World)
    requires Inv(w)
    ensures AlwaysSafe(w)
  {
    forall events | PrechecksHarmless(w, events) ensures AllProtected(Play(w, events)) {
      PlayKeepsInv(w, events);
      forall entry | entry in Play(w, events).log ensures Protected(Play(w, events), entry) {
        LogAt(Play(w, events), entry);
      }
    }
  }

  /** What else a failing precheck finds makes no difference. */
  lemma FailuresAlike(w: World, p: Token, input: Input)
    requires PrecheckFails(w, Act(p, input))
    ensures PrecheckFails(w, Act(p, CHECKED_OUT)) && Next(w, Act(p, input)) == Next(w, Act(p, CHECKED_OUT))
  {
  }

  ghost predicate SafeThroughout(w: World, events: seq<Event>) {
    forall k :: 0 <= k <= |events| ==> AlwaysSafe(Play(w, events[..k]))
  }

  lemma SafeThroughoutStep(w: World, events: seq<Event>)
    requires events != []
    ensures SafeThroughout(w, events) <==> AlwaysSafe(w) && SafeThroughout(Next(w, events[0]), events[1..])
  {
    forall k | 1 <= k <= |events|
      ensures Play(w, events[..k]) == Play(Next(w, events[0]), events[1..][..k - 1])
    {
      assert events[..k][1..] == events[1..][..k - 1];
    }
    assert events[..0] == [];
    if SafeThroughout(w, events) {
      assert AlwaysSafe(Play(w, events[..0]));
      forall k | 0 <= k <= |events[1..]| ensures AlwaysSafe(Play(Next(w, events[0]), events[1..][..k])) {
        assert AlwaysSafe(Play(w, events[..k + 1]));
      }
    }
  }

  /** The exact condition for whole runs: at every moment all continuations protect published work
      exactly when no precheck on the way failed harmfully. */
  lemma {:induction false} RunSafeIffHarmless(w: World, events: seq<Event>)
    requires Inv(w)
    ensures PrechecksHarmless(w, events) <==> SafeThroughout(w, events)
    decreases |events|
  {
    InvIsSafe(w);
    if events != [] {
      var e := events[0];
      SafeThroughoutStep(w, events);
      if PrecheckFails(w, e) && !CancelHarmless(w, e.token, w.runs[e.token]) {
        FailuresAlike(w, e.token, e.input);
        PrecheckSafeIffHarmless(w, e.token);
        assert Play(w, events[..1]) == Next(w, e) by { PlayOneEvent(w, events); }
      } else {
        NextKeepsInv(w, e);
        RunSafeIffHarmless(Next(w, e), events[1..]);
      }
    }
  }

  lemma PlayOneEvent(w: World, events: seq<Event>)
    requires events != []
    ensures Play(w, events[..1]) == Next(w, events[0])
  {
    assert events[..1][1..] == [];
  }

  /** From a first state, so for everything that can happen. */
  lemma RunSafeFromTheStart(w: World, events: seq<Event>)
    requires Initial(w)
    ensures PrechecksHarmless(w, events) <==> SafeThroughout(w, events)
  {
    InitialInv(w);
    RunSafeIffHarmless(w, events);
  }

  /** A guard the code could add: holding the lock makes the failure harmless. */
  lemma LockMakesPrecheckHarmless(w: World, p: Token)
    requires Inv(w) && PrecheckFails(w, Act(p, CHECKED_OUT)) && HoldsLock(w, p, w.runs[p])
    ensures forall events :: SafeFrom(Next(w, Act(p, CHECKED_OUT)), events)
  {
    HolderCancelHarmless(w, p);
    PrecheckSafeIffHarmless(w, p);
  }

  // ---------------------------------------------------------------------------------------------
  // The harmful case does happen
  // ---------------------------------------------------------------------------------------------

  const WORK := Commit(0, [])

  const TASK := Task("s", Approved, [[CommitLink(WORK)]], None, None)

  const START := World(map[], map["t" := WORK], map[], map["t" := TASK], map[], [])

  /** Two approves of one task. The first stalls before its BeginLanding arrives; the second takes the
      expired lock over and reserves; then the first one's BeginLanding takes the reservation. The
      second publishes, someone checks the branch out, and the first one's precheck fails. */
  function RaceEnd(): seq<Event> {
    [Deliver(2, BeginCall, Heard), Deliver(1, BeginCall, Heard), Act(2, CLEAR)] +
    [Act(1, CHECKED_OUT), Deliver(1, CancelCall, Heard)]
  }

  function Race(): seq<Event> {
    ApproveToReserve(1, "t", 0, CLEAR) + ApproveToReserve(2, "t", 0, CLEAR) + RaceEnd()
  }

  lemma TaskSubmitsWork()
    ensures CommitLinks(CurrentLinks(TASK)) == [WORK] && ReviewedCommit(TASK) == Some(WORK)
  {
    assert CommitLinks([CommitLink(WORK)]) == [WORK] + CommitLinks([CommitLink(WORK)][1..]);
  }

  /** From an initial state, the race ends with the task's commit on its branch and the task free to be
      rejected. */
  lemma RaceExposesPublishedWork()
    ensures Initial(START)
    ensures var w := Play(START, Race());
      Landed("t", WORK) in w.log && OnBranch(w, "s", WORK) && "t" in w.tasks && Transition(w.tasks["t"], Open).Ok?
  {
    BothReachReserve();
    var w2 := Play(Play(START, ApproveToReserve(1, "t", 0, CLEAR)), ApproveToReserve(2, "t", 0, CLEAR));
    PlayParts(START, ApproveToReserve(1, "t", 0, CLEAR), ApproveToReserve(2, "t", 0, CLEAR), RaceEnd());
    RaceRuns(w2);
  }

  /** The second run takes the first one's lock over, which expired at time 0. */
  lemma BothReachReserve()
    ensures var w := Play(Play(START, ApproveToReserve(1, "t", 0, CLEAR)), ApproveToReserve(2, "t", 0, CLEAR));
      w.branch == map[] && w.tasks == START.tasks && w.lock == map["s" := Lock(2, 0)] && w.log == [] &&
      w.runs == map[1 := Waiting(None), 2 := Waiting(Some(1))]
  {
    TaskSubmitsWork();
    ReachesReserve(START, 1, "t", WORK, 0, CLEAR);
    var w1 := Play(START, ApproveToReserve(1, "t", 0, CLEAR));
    ReachesReserve(w1, 2, "t", WORK, 0, CLEAR);
  }

  lemma PlayParts(w: World, a: seq<Event>, b: seq<Event>, c: seq<Event>)
    ensures Play(w, a + b + c) == Play(Play(Play(w, a), b), c)
  {
    PlayAppend(w, a, b);
    PlayAppend(w, a + b, c);
  }

  function Waiting(expected: Option<Token>): Run {
    Run("t", Approve, TASK, Some(WORK), CurrentRoundIsNoOp(TASK), 0, AwaitBegin, 0, expected, true,
        Some(WORK), Some(Integration(Created, WORK, WORK, None)), false, Some(BeginCall))
  }

  predicate Tracks(w: World, landing: Option<Reservation>) {
    w.tasks == map["t" := TASK.(landing := landing)] && 1 in w.runs && 2 in w.runs
  }

  lemma RaceReserves(w: World)
    requires w.tasks == START.tasks && w.runs == map[1 := Waiting(None), 2 := Waiting(Some(1))]
    ensures var w1 := Next(w, Deliver(2, BeginCall, Heard));
      w1.branch == w.branch && w1.lock == w.lock && w1.log == w.log && Tracks(w1, Some(Reservation(1, WORK, 2))) &&
      w1.runs[1] == Waiting(None) && w1.runs[2] == Waiting(Some(1)).(phase := PublishRef, begun := true, flight := None)
  {
    assert CommitLinks([CommitLink(WORK)]) == [WORK] + CommitLinks([CommitLink(WORK)][1..]);
  }

  lemma RaceTakesOver(w: World)
    requires Tracks(w, Some(Reservation(1, WORK, 2))) && w.runs[1] == Waiting(None)
    ensures var w1 := Next(w, Deliver(1, BeginCall, Heard));
      w1.branch == w.branch && w1.lock == w.lock && w1.log == w.log && Tracks(w1, Some(Reservation(1, WORK, 1))) &&
      w1.runs[2] == w.runs[2] && w1.runs[1] == Waiting(None).(phase := PublishRef, begun := true, flight := None)
  {
  }

  lemma RacePublishes(w: World)
    requires Tracks(w, Some(Reservation(1, WORK, 1))) && w.branch == map[] && w.lock == map["s" := Lock(2, 0)]
    requires w.runs[2] == Waiting(Some(1)).(phase := PublishRef, begun := true, flight := None)
    ensures var w1 := Next(w, Act(2, CLEAR));
      w1.branch == map["s" := WORK] && w1.log == w.log + [Landed("t", WORK)] && w1.tasks == w.tasks &&
      Tracks(w1, Some(Reservation(1, WORK, 1))) && w1.runs[1] == w.runs[1]
  {
  }

  lemma RaceCancels(w: World)
    requires Tracks(w, Some(Reservation(1, WORK, 1)))
    requires w.runs[1] == Waiting(None).(phase := PublishRef, begun := true, flight := None)
    ensures var w1 := Next(Next(w, Act(1, CHECKED_OUT)), Deliver(1, CancelCall, Heard));
      w1.branch == w.branch && w1.log == w.log && w1.tasks == map["t" := TASK]
  {
    var w1 := Next(w, Act(1, CHECKED_OUT));
    assert w1 == SetRun(w, 1, Send(w.runs[1], CancelCall, AwaitCancel));
  }

  lemma RaceRuns(w: World)
    requires w.branch == map[] && w.tasks == START.tasks && w.lock == map["s" := Lock(2, 0)] && w.log == []
    requires w.runs == map[1 := Waiting(None), 2 := Waiting(Some(1))]
    ensures var w' := Play(w, RaceEnd());
      Landed("t", WORK) in w'.log && OnBranch(w', "s", WORK) && "t" in w'.tasks && Transition(w'.tasks["t"], Open).Ok?
  {
    var w1 := Next(w, Deliver(2, BeginCall, Heard));
    var w2 := Next(w1, Deliver(1, BeginCall, Heard));
    var w3 := Next(w2, Act(2, CLEAR));
    RaceReserves(w);
    RaceTakesOver(w1);
    RacePublishes(w2);
    RaceCancels(w3);
    PlayThree(w, Deliver(2, BeginCall, Heard), Deliver(1, BeginCall, Heard), Act(2, CLEAR));
    PlayMore(w3, [], Act(1, CHECKED_OUT));
    PlayMore(w3, [Act(1, CHECKED_OUT)], Deliver(1, CancelCall, Heard));
    assert [] + [Act(1, CHECKED_OUT)] == [Act(1, CHECKED_OUT)];
    assert [Act(1, CHECKED_OUT)] + [Deliver(1, CancelCall, Heard)] == [Act(1, CHECKED_OUT), Deliver(1, CancelCall, Heard)];
    PlayAppend(w, [Deliver(2, BeginCall, Heard), Deliver(1, BeginCall, Heard), Act(2, CLEAR)],
               [Act(1, CHECKED_OUT), Deliver(1, CancelCall, Heard)]);
  }
}
