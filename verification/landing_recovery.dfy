/** An interrupted approve can always be finished: from any reachable state, whatever step the earlier
    runs crashed after, one undisturbed run ends with the task done and its commit landed once. */
module LandingRecovery {
  import opened Wrappers
  import opened Commits
  import opened Landing
  import opened LandingInvariant
  import opened LandingSteps
  import opened LandingSafety

  /** Nothing gets in the way: the gate passes, no worktree interferes, the board answers. */
  predicate Clear(input: Input) {
    !input.gateFails && !input.checkedOut && !input.worktreeStuck && !input.boardDown
  }

  predicate LockFree(w: World, slug: Slug, now: int) {
    slug in w.lock ==> w.lock[slug].expires <= now
  }

  lemma {:induction false} PlayMore(w: World, events: seq<Event>, e: Event)
    ensures Play(w, events + [e]) == Next(Play(w, events), e)
    decreases |events|
  {
    if events == [] {
      assert [e][1..] == [];
      assert events + [e] == [e];
    } else {
      assert (events + [e])[1..] == events[1..] + [e];
      PlayMore(Next(w, events[0]), events[1..], e);
    }
  }

  lemma SetRunTwice(w: World, p: Token, r: Run, s: Run)
    ensures SetRun(SetRun(w, p, r), p, s) == SetRun(w, p, s)
  {
    assert w.runs[p := r][p := s] == w.runs[p := s];
  }

  lemma LocalNext(w: World, p: Token, r: Run, input: Input)
    requires !r.phase.SwapLock? && !r.phase.PublishRef? && !r.phase.DeleteWip? && !r.phase.ReleaseLock?
    ensures Next(SetRun(w, p, r), Act(p, input)) == SetRun(w, p, LocalStep(SetRun(w, p, r), p, r, input))
  {
    SetRunTwice(w, p, r, LocalStep(SetRun(w, p, r), p, r, input));
  }

  // ---------------------------------------------------------------------------------------------
  // Taking the lock
  // ---------------------------------------------------------------------------------------------

  function Fresh(t: TaskId, kind: RunKind, task: Task, expires: int, phase: Phase): Run {
    Run(t, kind, task, ReviewedCommit(task), CurrentRoundIsNoOp(task), expires, phase, 0, None, false, None, None, false, None)
  }

  function HeldBy(w: World, slug: Slug): Option<Token> {
    if slug in w.lock then Some(w.lock[slug].owner) else None
  }

  function Locked(w: World, p: Token, r: Run): World {
    SetRun(w, p, r.(phase := if r.kind.Approve? then CheckWip else CheckBranch, expected := HeldBy(w, r.seen.slug), locked := true))
      .(lock := w.lock[r.seen.slug := Lock(p, r.expires)])
  }

  lemma TakesLock(w: World, p: Token, r: Run, input: Input)
    requires r.phase.ReadLock? && LockFree(w, r.seen.slug, input.now)
    ensures Play(SetRun(w, p, r), [Act(p, input), Act(p, input)]) == Locked(w, p, r)
  {
    var s := r.(phase := SwapLock, expected := HeldBy(w, r.seen.slug));
    LocalNext(w, p, r, input);
    assert LocalStep(SetRun(w, p, r), p, r, input) == s;
    var t := s.(phase := if r.kind.Approve? then CheckWip else CheckBranch, locked := true);
    SetRunTwice(w, p, s, t);
    assert Next(SetRun(w, p, s), Act(p, input)) == Locked(w, p, r);
    PlayMore(SetRun(w, p, r), [], Act(p, input));
    PlayMore(SetRun(w, p, r), [Act(p, input)], Act(p, input));
    assert [Act(p, input)] + [Act(p, input)] == [Act(p, input), Act(p, input)];
  }

  // ---------------------------------------------------------------------------------------------
  // Preparing
  // ---------------------------------------------------------------------------------------------

  predicate Submitted(w: World, r: Run, commit: Commit) {
    r.reviewed == Some(commit) && r.task in w.wip && w.wip[r.task] == commit
  }

  function Planned(w: World, r: Run, commit: Commit, input: Input): Run {
    var plan := Integrate(w.branch, r.seen.slug, commit, input.content, input.gateFails);
    if r.kind.LandDone? then r.(phase := PublishRef, source := Some(commit), plan := plan)
    else r.(phase := AwaitBegin, source := Some(commit), plan := plan, flight := Some(BeginCall))
  }

  lemma PreparesLanding(w: World, p: Token, r: Run, commit: Commit, input: Input)
    requires r.phase.CheckWip? && !r.kind.Cancel? && Submitted(w, r, commit) && Clear(input)
    requires r.kind.Approve? ==> ResumesOwnLanding(r.seen, commit)
    ensures Play(SetRun(w, p, r), [Act(p, input), Act(p, input), Act(p, input)]) == SetRun(w, p, Planned(w, r, commit, input))
  {
    var a := Act(p, input);
    LocalNext(w, p, r, input);
    LocalNext(w, p, r.(phase := ReadWip), input);
    LocalNext(w, p, r.(phase := ReadBranch, source := Some(commit)), input);
    assert LocalStep(SetRun(w, p, r), p, r, input) == r.(phase := ReadWip);
    assert LocalStep(SetRun(w, p, r), p, r.(phase := ReadWip), input) == r.(phase := ReadBranch, source := Some(commit));
    PlayThree(SetRun(w, p, r), a, a, a);
  }

  lemma PlayThree(w: World, a: Event, b: Event, c: Event)
    ensures Play(w, [a, b, c]) == Next(Next(Next(w, a), b), c)
  {
    PlayMore(w, [], a);
    PlayMore(w, [a], b);
    PlayMore(w, [a, b], c);
    assert [a] + [b] == [a, b] && [a, b] + [c] == [a, b, c] && [] + [a] == [a];
  }

  // ---------------------------------------------------------------------------------------------
  // Reserving, publishing, completing
  // ---------------------------------------------------------------------------------------------

  function Reserve(task: Task, commit: Commit, p: Token): Task {
    task.(landing := Some(Reservation(|task.rounds|, commit, p)))
  }

  /** The task is approved with this commit, and any reservation on it is for this commit. */
  predicate Landable(task: Task, commit: Commit) {
    task.state.Approved? && 1 <= |task.rounds| && commit in CommitLinks(CurrentLinks(task)) &&
    (task.landing.Some? ==> task.landing.value.round == |task.rounds| && task.landing.value.commit == commit)
  }

  lemma ReservesTask(w: World, p: Token, r: Run, commit: Commit)
    requires r.phase.AwaitBegin? && r.flight == Some(BeginCall) && r.task in w.tasks && r.seen == w.tasks[r.task]
    requires r.plan.Some? && r.plan.value.source == commit && Landable(w.tasks[r.task], commit)
    ensures Next(SetRun(w, p, r), Deliver(p, BeginCall, Heard)) ==
      SetRun(w.(tasks := w.tasks[r.task := Reserve(w.tasks[r.task], commit, p)]), p, r.(phase := PublishRef, flight := None, begun := true))
  {
    SetRunTwice(w.(tasks := w.tasks[r.task := Reserve(w.tasks[r.task], commit, p)]), p, r, r.(phase := PublishRef, flight := None, begun := true));
  }

  /** The stores after Publish. */
  function Moved(w: World, r: Run): World {
    if Moves(r) then
      w.(branch := w.branch[r.seen.slug := r.plan.value.commit], log := w.log + [Landed(r.task, r.plan.value.source)])
    else w
  }

  lemma Publishes(w: World, p: Token, r: Run, input: Input)
    requires r.phase.PublishRef? && r.plan.Some? && Clear(input)
    requires LockRefIs(w, r.seen.slug, Some(p)) && RefIs(w.branch, r.seen.slug, r.plan.value.previous)
    ensures Next(SetRun(w, p, r), Act(p, input)) == SetRun(Moved(w, r), p, AfterPublish(r))
  {
    SetRunTwice(Moved(w, r), p, r, AfterPublish(r));
  }

  function Finish(task: Task): Task
    requires task.landing.Some?
  {
    task.(state := Done, landing := None, landed := task.landing)
  }

  lemma Completes(w: World, p: Token, r: Run)
    requires r.phase.AwaitComplete? && r.flight == Some(CompleteCall) && r.task in w.tasks
    requires w.tasks[r.task].state.Approved? && w.tasks[r.task].landing.Some? && w.tasks[r.task].landing.value.attempt == p
    ensures Next(SetRun(w, p, r), Deliver(p, CompleteCall, Heard)) ==
      SetRun(w.(tasks := w.tasks[r.task := Finish(w.tasks[r.task])]), p, r.(phase := ReadStaleWip, flight := None))
  {
    SetRunTwice(w.(tasks := w.tasks[r.task := Finish(w.tasks[r.task])]), p, r, r.(phase := ReadStaleWip, flight := None));
  }

  // ---------------------------------------------------------------------------------------------
  // Cleaning up
  // ---------------------------------------------------------------------------------------------

  lemma CleansUp(w: World, p: Token, r: Run, input: Input)
    requires r.phase.ReadStaleWip? && Clear(input) && r.source.Some?
    requires r.task in w.wip && w.wip[r.task] == r.source.value && LockRefIs(w, r.seen.slug, Some(p))
    ensures Play(SetRun(w, p, r), [Act(p, input), Act(p, input), Act(p, input)]) ==
      SetRun(w.(wip := w.wip - {r.task}, lock := w.lock - {r.seen.slug}), p, r.(phase := Ended))
  {
    var a := Act(p, input);
    LocalNext(w, p, r, input);
    assert LocalStep(SetRun(w, p, r), p, r, input) == r.(phase := DeleteWip);
    DeletesWip(w, p, r.(phase := DeleteWip), input);
    ReleasesLock(w.(wip := w.wip - {r.task}), p, r.(phase := ReleaseLock), input);
    PlayThree(SetRun(w, p, r), a, a, a);
  }

  lemma DeletesWip(w: World, p: Token, r: Run, input: Input)
    requires r.phase.DeleteWip? && r.source.Some? && r.task in w.wip && w.wip[r.task] == r.source.value
    ensures Next(SetRun(w, p, r), Act(p, input)) == SetRun(w.(wip := w.wip - {r.task}), p, r.(phase := ReleaseLock))
  {
    SetRunTwice(w, p, r, r.(phase := ReleaseLock));
  }

  lemma ReleasesLock(w: World, p: Token, r: Run, input: Input)
    requires r.phase.ReleaseLock? && LockRefIs(w, r.seen.slug, Some(p))
    ensures Next(SetRun(w, p, r), Act(p, input)) == SetRun(w.(lock := w.lock - {r.seen.slug}), p, r.(phase := Ended))
  {
    SetRunTwice(w, p, r, r.(phase := Ended));
  }

  // ---------------------------------------------------------------------------------------------
  // An approved task
  // ---------------------------------------------------------------------------------------------

  function ApproveToReserve(p: Token, t: TaskId, expires: int, input: Input): seq<Event> {
    [Start(p, t, false, expires)] + [Act(p, input), Act(p, input)] + [Act(p, input), Act(p, input), Act(p, input)]
  }

  /** What one undisturbed approve does. */
  function ApproveAlone(p: Token, t: TaskId, expires: int, input: Input): seq<Event> {
    ApproveToReserve(p, t, expires, input) +
    [Deliver(p, BeginCall, Heard), Act(p, input), Deliver(p, CompleteCall, Heard)] +
    [Act(p, input), Act(p, input), Act(p, input)]
  }

  function ApprovePlanned(w: World, t: TaskId, commit: Commit, expires: int, input: Input): Run
    requires t in w.tasks
  {
    var task := w.tasks[t];
    var r := Fresh(t, Approve, task, expires, ReadLock);
    Planned(w, r.(phase := CheckWip, expected := HeldBy(w, task.slug), locked := true), commit, input)
  }

  /** An approve that is left alone reaches its BeginLanding, holding the lock. */
  lemma ReachesReserve(w: World, p: Token, t: TaskId, commit: Commit, expires: int, input: Input)
    requires p !in w.runs && t in w.tasks && w.tasks[t].state.Approved? && ReviewedCommit(w.tasks[t]) == Some(commit)
    requires ResumesOwnLanding(w.tasks[t], commit) && t in w.wip && w.wip[t] == commit
    requires LockFree(w, w.tasks[t].slug, input.now) && Clear(input)
    ensures Play(w, ApproveToReserve(p, t, expires, input)) ==
      SetRun(w.(lock := w.lock[w.tasks[t].slug := Lock(p, expires)]), p, ApprovePlanned(w, t, commit, expires, input))
  {
    var a := Act(p, input);
    var start := [Start(p, t, false, expires)];
    var task := w.tasks[t];
    var r := Fresh(t, Approve, task, expires, ReadLock);
    PlayMore(w, [], start[0]);
    assert [] + start == start;
    assert Play(w, start) == SetRun(w, p, r);
    TakesLock(w, p, r, input);
    var s := r.(phase := CheckWip, expected := HeldBy(w, task.slug), locked := true);
    var w1 := w.(lock := w.lock[task.slug := Lock(p, expires)]);
    assert Locked(w, p, r) == SetRun(w1, p, s);
    PlayAppend(w, start, [a, a]);
    PreparesLanding(w1, p, s, commit, input);
    PlayAppend(w, start + [a, a], [a, a, a]);
  }

  predicate EndsLanded(w: World, p: Token, t: TaskId, commit: Commit, before: World)
    requires t in before.tasks
  {
    var slug := before.tasks[t].slug;
    && t in w.tasks && w.tasks[t].state.Done? && w.tasks[t].slug == slug
    && OnBranch(w, slug, commit) && t !in w.wip && slug !in w.lock
    && p in w.runs && w.runs[p].phase.Ended?
    && w.log == (if OnBranch(before, slug, commit) then before.log else before.log + [Landed(t, commit)])
    && (OnBranch(before, slug, commit) ==> w.branch == before.branch)
  }

  /** A run that awaits the answer to its BeginLanding, and nothing in its way. */
  predicate AboutToLand(w: World, p: Token, t: TaskId, commit: Commit, r: Run, input: Input) {
    && t in w.tasks && r.task == t && r.seen == w.tasks[t] && Landable(w.tasks[t], commit)
    && r.kind.Approve? && r.phase.AwaitBegin? && r.flight == Some(BeginCall) && r.source == Some(commit)
    && r.plan == Integrate(w.branch, r.seen.slug, commit, input.content, input.gateFails) && r.plan.Some?
    && LockRefIs(w, r.seen.slug, Some(p)) && t in w.wip && w.wip[t] == commit && Clear(input)
  }

  /** Reserved, published and completed. */
  lemma LandsOnBoard(w: World, p: Token, t: TaskId, commit: Commit, r: Run, input: Input, w3: World, r3: Run)
    requires AboutToLand(w, p, t, commit, r, input)
    requires w3 == Moved(w, r).(tasks := w.tasks[t := Finish(Reserve(w.tasks[t], commit, p))])
    requires r3 == r.(phase := ReadStaleWip, flight := None, begun := true)
    ensures Play(SetRun(w, p, r), [Deliver(p, BeginCall, Heard), Act(p, input), Deliver(p, CompleteCall, Heard)]) == SetRun(w3, p, r3)
  {
    IntegrationOk(w, r.seen.slug, commit, input.content, input.gateFails);
    ReservesTask(w, p, r, commit);
    var w1 := w.(tasks := w.tasks[t := Reserve(w.tasks[t], commit, p)]);
    var r1 := r.(phase := PublishRef, flight := None, begun := true);
    Publishes(w1, p, r1, input);
    Completes(Moved(w1, r1), p, AfterPublish(r1));
    assert w1.tasks[t := Finish(w1.tasks[t])] == w3.tasks;
    PlayThree(SetRun(w, p, r), Deliver(p, BeginCall, Heard), Act(p, input), Deliver(p, CompleteCall, Heard));
  }

  lemma LandsReserved(w: World, p: Token, t: TaskId, commit: Commit, r: Run, input: Input)
    requires AboutToLand(w, p, t, commit, r, input)
    ensures var w' := Play(SetRun(w, p, r), [Deliver(p, BeginCall, Heard), Act(p, input), Deliver(p, CompleteCall, Heard)] +
                                            [Act(p, input), Act(p, input), Act(p, input)]);
      EndsLanded(w', p, t, commit, w) && w'.tasks[t].landed == Some(Reservation(|w.tasks[t].rounds|, commit, p))
  {
    var a := Act(p, input);
    var w3 := Moved(w, r).(tasks := w.tasks[t := Finish(Reserve(w.tasks[t], commit, p))]);
    var r3 := r.(phase := ReadStaleWip, flight := None, begun := true);
    IntegrationOk(w, r.seen.slug, commit, input.content, input.gateFails);
    LandsOnBoard(w, p, t, commit, r, input, w3, r3);
    CleansUp(w3, p, r3, input);
    PlayAppend(SetRun(w, p, r), [Deliver(p, BeginCall, Heard), a, Deliver(p, CompleteCall, Heard)], [a, a, a]);
    LandedEnd(w, p, t, commit, r, w3, r3.(phase := Ended));
  }

  /** The state all that ends in. */
  lemma LandedEnd(w: World, p: Token, t: TaskId, commit: Commit, r1: Run, w3: World, r3: Run)
    requires t in w.tasks && r1.task == t && r1.seen == w.tasks[t] && r3.phase.Ended?
    requires r1.plan.Some? && r1.plan.value.source == commit && IsAncestor(commit, r1.plan.value.commit)
    requires r1.plan.value.kind.AlreadyThere? == OnBranch(w, w.tasks[t].slug, commit)
    requires w3 == Moved(w, r1).(tasks := w.tasks[t := Finish(Reserve(w.tasks[t], commit, p))])
    ensures var w' := SetRun(w3.(wip := w3.wip - {t}, lock := w3.lock - {w.tasks[t].slug}), p, r3);
      EndsLanded(w', p, t, commit, w) && w'.tasks[t].landed == Some(Reservation(|w.tasks[t].rounds|, commit, p))
  {
  }

  lemma ApproveAloneLands(w: World, p: Token, t: TaskId, commit: Commit, expires: int, input: Input)
    requires p !in w.runs && t in w.tasks && Landable(w.tasks[t], commit)
    requires ReviewedCommit(w.tasks[t]) == Some(commit) && t in w.wip && w.wip[t] == commit
    requires LockFree(w, w.tasks[t].slug, input.now) && Clear(input)
    ensures var w' := Play(w, ApproveAlone(p, t, expires, input));
      EndsLanded(w', p, t, commit, w) && w'.tasks[t].landed == Some(Reservation(|w.tasks[t].rounds|, commit, p))
  {
    var a := Act(p, input);
    ReachesReserve(w, p, t, commit, expires, input);
    var w1 := w.(lock := w.lock[w.tasks[t].slug := Lock(p, expires)]);
    LandsReserved(w1, p, t, commit, ApprovePlanned(w, t, commit, expires, input), input);
    var rest := [Deliver(p, BeginCall, Heard), a, Deliver(p, CompleteCall, Heard)] + [a, a, a];
    PlayAppend(w, ApproveToReserve(p, t, expires, input), rest);
    ApproveAloneSplit(p, t, expires, input);
  }

  lemma ApproveAloneSplit(p: Token, t: TaskId, expires: int, input: Input)
    ensures var a := Act(p, input);
      ApproveAlone(p, t, expires, input) == ApproveToReserve(p, t, expires, input) +
        ([Deliver(p, BeginCall, Heard), a, Deliver(p, CompleteCall, Heard)] + [a, a, a])
  {
  }

  /** From any reachable state: if the task is still approved, wip holds the reviewed commit and the old
      lock is gone or has expired, one undisturbed approve finishes the landing. If an interrupted run
      had published already, the branch does not move again. */
  lemma InterruptedApproveFinishes(w: World, p: Token, t: TaskId, commit: Commit, expires: int, input: Input)
    requires Reachable(w) && p !in w.runs && t in w.tasks && w.tasks[t].state.Approved?
    requires ReviewedCommit(w.tasks[t]) == Some(commit) && t in w.wip && w.wip[t] == commit
    requires LockFree(w, w.tasks[t].slug, input.now) && Clear(input)
    ensures var w' := Play(w, ApproveAlone(p, t, expires, input));
      EndsLanded(w', p, t, commit, w) && w'.tasks[t].landed == Some(Reservation(|w.tasks[t].rounds|, commit, p)) &&
      (Landed(t, commit) in w.log ==> w'.log == w.log && w'.branch == w.branch)
  {
    ReachableIsConsistent(w);
    ReviewedIsLinked(w, t, commit);
    ApproveAloneLands(w, p, t, commit, expires, input);
    if Landed(t, commit) in w.log { PlacedAt(w, Landed(t, commit)); }
  }

  lemma ReviewedIsLinked(w: World, t: TaskId, commit: Commit)
    requires Consistent(w) && t in w.tasks && w.tasks[t].state.Approved? && ReviewedCommit(w.tasks[t]) == Some(commit)
    ensures Landable(w.tasks[t], commit)
  {
    TaskAt(w, t);
    assert CommitLinks(CurrentLinks(w.tasks[t]))[0] == commit;
  }

  // ---------------------------------------------------------------------------------------------
  // A task that is done already
  // ---------------------------------------------------------------------------------------------

  function LandDoneAlone(p: Token, t: TaskId, expires: int, input: Input, landed: bool): seq<Event> {
    [Start(p, t, false, expires), Act(p, input)] + [Act(p, input), Act(p, input)] + [Act(p, input)] +
    (if landed then [] else [Act(p, input), Act(p, input), Act(p, input)] + [Act(p, input)]) +
    [Act(p, input), Act(p, input), Act(p, input)]
  }

  lemma ReachesCheckBranch(w: World, p: Token, t: TaskId, commit: Commit, expires: int, input: Input)
    requires p !in w.runs && t in w.tasks && w.tasks[t].state.Done? && ReviewedCommit(w.tasks[t]) == Some(commit)
    requires t in w.wip && LockFree(w, w.tasks[t].slug, input.now)
    ensures var task := w.tasks[t];
      Play(w, [Start(p, t, false, expires), Act(p, input)] + [Act(p, input), Act(p, input)]) ==
      SetRun(w.(lock := w.lock[task.slug := Lock(p, expires)]), p,
             Fresh(t, LandDone, task, expires, CheckBranch).(expected := HeldBy(w, task.slug), locked := true))
  {
    var a := Act(p, input);
    var task := w.tasks[t];
    var r := Fresh(t, LandDone, task, expires, FindWip);
    var start := Start(p, t, false, expires);
    assert Next(w, start) == SetRun(w, p, r);
    assert !CurrentRoundIsNoOp(task);
    LocalNext(w, p, r, input);
    PlayMore(w, [], start);
    PlayMore(w, [start], a);
    assert [] + [start] == [start] && [start] + [a] == [start, a];
    TakesLock(w, p, r.(phase := ReadLock), input);
    PlayAppend(w, [start, a], [a, a]);
  }

  lemma LandsDone(w: World, p: Token, t: TaskId, commit: Commit, r: Run, input: Input)
    requires t in w.tasks && w.tasks[t].state.Done? && r.task == t && r.seen.slug == w.tasks[t].slug && r.kind.LandDone?
    requires r.phase.CheckBranch? && Submitted(w, r, commit) && LockRefIs(w, r.seen.slug, Some(p)) && Clear(input)
    ensures var a := Act(p, input);
      var tail := (if OnBranch(w, r.seen.slug, commit) then [] else [a, a, a] + [a]) + [a, a, a];
      EndsLanded(Play(SetRun(w, p, r), [a] + tail), p, t, commit, w) &&
      Play(SetRun(w, p, r), [a] + tail).tasks == w.tasks
  {
    var a := Act(p, input);
    var tail := (if OnBranch(w, r.seen.slug, commit) then [] else [a, a, a] + [a]) + [a, a, a];
    LocalNext(w, p, r, input);
    PlayMore(SetRun(w, p, r), [], a);
    assert [] + [a] == [a];
    PlayAppend(SetRun(w, p, r), [a], tail);
    if OnBranch(w, r.seen.slug, commit) {
      var s := r.(phase := ReadStaleWip, source := Some(commit));
      assert LocalStep(SetRun(w, p, r), p, r, input) == s;
      CleansUp(w, p, s, input);
      assert tail == [a, a, a];
    } else {
      var s := r.(phase := CheckWip);
      assert LocalStep(SetRun(w, p, r), p, r, input) == s;
      PreparesLanding(w, p, s, commit, input);
      var q := Planned(w, s, commit, input);
      IntegrationOk(w, r.seen.slug, commit, input.content, input.gateFails);
      Publishes(w, p, q, input);
      CleansUp(Moved(w, q), p, AfterPublish(q), input);
      PlayMore(SetRun(w, p, s), [a, a, a], a);
      PlayAppend(SetRun(w, p, s), [a, a, a] + [a], [a, a, a]);
      assert tail == ([a, a, a] + [a]) + [a, a, a];
    }
  }

  lemma LandDoneAloneLands(w: World, p: Token, t: TaskId, commit: Commit, expires: int, input: Input)
    requires p !in w.runs && t in w.tasks && w.tasks[t].state.Done?
    requires ReviewedCommit(w.tasks[t]) == Some(commit) && t in w.wip && w.wip[t] == commit
    requires LockFree(w, w.tasks[t].slug, input.now) && Clear(input)
    ensures var w' := Play(w, LandDoneAlone(p, t, expires, input, OnBranch(w, w.tasks[t].slug, commit)));
      EndsLanded(w', p, t, commit, w) && w'.tasks == w.tasks
  {
    var a := Act(p, input);
    var task := w.tasks[t];
    var landed := OnBranch(w, task.slug, commit);
    var tail := (if landed then [] else [a, a, a] + [a]) + [a, a, a];
    var first := [Start(p, t, false, expires), a] + [a, a];
    ReachesCheckBranch(w, p, t, commit, expires, input);
    var w1 := w.(lock := w.lock[task.slug := Lock(p, expires)]);
    LandsDone(w1, p, t, commit, Fresh(t, LandDone, task, expires, CheckBranch).(expected := HeldBy(w, task.slug), locked := true), input);
    PlayAppend(w, first, [a] + tail);
    LandDoneAloneSplit(p, t, expires, input, landed);
  }

  lemma LandDoneAloneSplit(p: Token, t: TaskId, expires: int, input: Input, landed: bool)
    ensures var a := Act(p, input);
      LandDoneAlone(p, t, expires, input, landed) ==
        [Start(p, t, false, expires), a] + [a, a] + ([a] + ((if landed then [] else [a, a, a] + [a]) + [a, a, a]))
  {
  }

  /** The same for a task that is done but whose wip is still there: its approve crashed between
      CompleteLanding and the end of its cleanup, or it was marked done some other way. */
  lemma InterruptedCleanupFinishes(w: World, p: Token, t: TaskId, commit: Commit, expires: int, input: Input)
    requires Reachable(w) && p !in w.runs && t in w.tasks && w.tasks[t].state.Done?
    requires ReviewedCommit(w.tasks[t]) == Some(commit) && t in w.wip && w.wip[t] == commit
    requires LockFree(w, w.tasks[t].slug, input.now) && Clear(input)
    ensures var w' := Play(w, LandDoneAlone(p, t, expires, input, OnBranch(w, w.tasks[t].slug, commit)));
      EndsLanded(w', p, t, commit, w) && w'.tasks == w.tasks &&
      (w.tasks[t].landed.Some? ==> w'.log == w.log && w'.branch == w.branch)
  {
    LandDoneAloneLands(w, p, t, commit, expires, input);
    ReachableIsConsistent(w);
    TaskAt(w, t);
    LandedIsReviewed(w, t, commit);
  }

  lemma LandedIsReviewed(w: World, t: TaskId, commit: Commit)
    requires t in w.tasks && TaskOk(w, t, w.tasks[t]) && ReviewedCommit(w.tasks[t]) == Some(commit)
    ensures w.tasks[t].landed.Some? ==> OnBranch(w, w.tasks[t].slug, commit)
  {
  }
}
