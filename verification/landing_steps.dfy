/** Every step of a run keeps the world consistent. */
module LandingSteps {
  import opened Wrappers
  import opened Commits
  import opened Landing
  import opened LandingInvariant

  // ---------------------------------------------------------------------------------------------
  // A run's own steps
  // ---------------------------------------------------------------------------------------------

  lemma EndQuiet(w: World, p: Token, r: Run, phase: Phase)
    requires RunOk(w, p, r) && (phase.Ended? || (phase.ReleaseLock? && !r.phase.Ended?))
    ensures RunOk(w, p, Goto(r, phase)) && Quiet(w, p, r, Goto(r, phase))
  {
  }

  lemma LockingQuiet(w: World, p: Token, r: Run, now: int)
    requires RunOk(w, p, r)
    ensures r.phase.FindWip? ==> var s := FindWipStep(w, r); RunOk(w, p, s) && Quiet(w, p, r, s)
    ensures r.phase.ReadLock? ==> var s := ReadLockStep(w, r, now); RunOk(w, p, s) && Quiet(w, p, r, s)
  {
  }

  lemma CheckLandedQuiet(w: World, p: Token, r: Run)
    requires RunOk(w, p, r) && r.phase.CheckBranch? && !r.kind.Cancel?
    ensures var s := CheckLandedStep(w, r); RunOk(w, p, s) && Quiet(w, p, r, s)
  {
  }

  lemma ReadingQuiet(w: World, p: Token, r: Run, checkedOut: bool)
    requires RunOk(w, p, r)
    ensures r.phase.CheckWip? ==> var s := CheckWipStep(w, r); RunOk(w, p, s) && Quiet(w, p, r, s)
    ensures r.phase.ReadWip? ==> var s := ReadWipStep(w, r, checkedOut); RunOk(w, p, s) && Quiet(w, p, r, s)
  {
  }

  lemma AskCompleteQuiet(w: World, p: Token, r: Run, boardDown: bool)
    requires RunOk(w, p, r) && r.phase.AskComplete?
    ensures var s := AskCompleteStep(w, r, boardDown); RunOk(w, p, s) && Quiet(w, p, r, s)
  {
    EndQuiet(w, p, r, ReleaseLock);
    CompletedQuiet(w, p, r);
  }

  lemma CompletedQuiet(w: World, p: Token, r: Run)
    requires RunOk(w, p, r) && r.phase.AskComplete?
    ensures RunOk(w, p, Goto(r, ReadStaleWip)) && Quiet(w, p, r, Goto(r, ReadStaleWip))
  {
  }

  lemma ReadStaleWipQuiet(w: World, p: Token, r: Run, worktreeStuck: bool)
    requires RunOk(w, p, r) && r.phase.ReadStaleWip?
    ensures var s := ReadStaleWipStep(w, r, worktreeStuck); RunOk(w, p, s) && Quiet(w, p, r, s)
  {
  }

  lemma GiveUpQuiet(w: World, p: Token, r: Run)
    requires RunOk(w, p, r)
    ensures r.phase.AwaitComplete? ==> RunOk(w, p, Goto(r, AskComplete)) && Quiet(w, p, r, Goto(r, AskComplete))
    ensures r.phase.AwaitBegin? ==> RunOk(w, p, Goto(r, AskBegin)) && Quiet(w, p, r, Goto(r, AskBegin))
  {
  }

  /** A run that finds its own reservation on the board did get it, and may publish. */
  lemma AskBeginRunOk(w: World, p: Token, r: Run, boardDown: bool)
    requires RunOk(w, p, r) && r.phase.AskBegin? && p in w.runs && w.runs[p] == r && TaskOk(w, r.task, w.tasks[r.task])
    ensures var s := AskBeginStep(w, p, r, boardDown);
      RunOk(w, p, s) && Continues(r, s) && s.flight == r.flight && s.locked == r.locked && !AwaitsGrant(w, p, s) &&
      PublisherOk(w, p, s)
  {
    EndQuiet(w, p, r, ReleaseLock);
    if AskBeginStep(w, p, r, boardDown) == Goto(r, PublishRef) { GrantedRunOk(w, p, r); }
  }

  lemma GrantedRunOk(w: World, p: Token, r: Run)
    requires RunOk(w, p, r) && r.phase.AskBegin? && r.begun
    ensures RunOk(w, p, Goto(r, PublishRef)) && Continues(r, Goto(r, PublishRef))
  {
  }

  lemma IntegrationOk(w: World, slug: Slug, source: Commit, content: nat, gateFails: bool)
    requires Integrate(w.branch, slug, source, content, gateFails).Some?
    ensures var plan := Integrate(w.branch, slug, source, content, gateFails).value;
      plan.source == source && IsAncestor(source, plan.commit) &&
      (plan.previous.Some? ==>
        IsAncestor(plan.previous.value, plan.commit) && OnBranch(w, slug, plan.previous.value)) &&
      plan.kind.AlreadyThere? == OnBranch(w, slug, source) && RefIs(w.branch, slug, plan.previous)
  {
    if slug in w.branch {
      MergeContainsBoth(content, w.branch[slug], source);
    }
  }

  predicate PlanFits(w: World, r: Run, plan: Integration) {
    r.source == Some(plan.source) && IsAncestor(plan.source, plan.commit) &&
    (plan.previous.Some? ==>
      IsAncestor(plan.previous.value, plan.commit) && OnBranch(w, r.seen.slug, plan.previous.value)) &&
    plan.kind.AlreadyThere? == OnBranch(w, r.seen.slug, plan.source)
  }

  /** A plan that moves the branch is for a commit nobody published yet. */
  lemma PlannedRunOk(w: World, p: Token, r: Run, plan: Integration)
    requires RunOk(w, p, r) && r.phase.ReadBranch? && PlanFits(w, r, plan)
    requires Landed(r.task, plan.source) in w.log ==> Placed(w, Landed(r.task, plan.source))
    ensures r.kind.LandDone? ==> RunOk(w, p, r.(phase := PublishRef, plan := Some(plan)))
    ensures r.kind.Approve? ==> RunOk(w, p, r.(phase := AwaitBegin, plan := Some(plan), flight := Some(BeginCall)))
  {
  }

  lemma ReadBranchRunOk(w: World, p: Token, r: Run, content: nat, gateFails: bool)
    requires RunOk(w, p, r) && r.phase.ReadBranch?
    requires r.source.Some? && Landed(r.task, r.source.value) in w.log ==> Placed(w, Landed(r.task, r.source.value))
    ensures var s := ReadBranchStep(w, r, content, gateFails);
      RunOk(w, p, s) && Continues(r, s) && PublisherOk(w, p, s) && !AwaitsGrant(w, p, s)
  {
    EndQuiet(w, p, r, ReleaseLock);
    if r.source.Some? && Integrate(w.branch, r.seen.slug, r.source.value, content, gateFails).Some? {
      IntegrationOk(w, r.seen.slug, r.source.value, content, gateFails);
      PlannedRunOk(w, p, r, Integrate(w.branch, r.seen.slug, r.source.value, content, gateFails).value);
    }
  }

  lemma ReservedCheckRunOk(w: World, p: Token, r: Run)
    requires RunOk(w, p, r) && r.phase.CheckBranch? && r.kind.Cancel?
    ensures var s := CheckReservedStep(w, r);
      RunOk(w, p, s) && Continues(r, s) && !IsPublisher(w, p, s) && (Canceller(s) ==> Canceller(r))
  {
  }

  lemma OwnCancelRunOk(w: World, p: Token, r: Run)
    requires RunOk(w, p, r) && r.kind.Approve? && (r.phase.AskLock? || r.phase.PublishRef?)
    ensures var s := Send(r, CancelCall, AwaitCancel);
      RunOk(w, p, s) && Continues(r, s) && !IsPublisher(w, p, s) && !AwaitsGrant(w, p, s)
  {
  }

  predicate QuietPhase(r: Run) {
    r.phase.FindWip? || r.phase.ReadLock? || (r.phase.CheckBranch? && !r.kind.Cancel?) || r.phase.CheckWip? ||
    r.phase.ReadWip? || r.phase.AskComplete? || r.phase.ReadStaleWip? ||
    r.phase.AwaitBegin? || r.phase.AwaitCancel? || r.phase.AwaitComplete? || r.phase.Ended?
  }

  lemma QuietStep(w: World, p: Token, r: Run, input: Input)
    requires RunOk(w, p, r) && QuietPhase(r)
    ensures var s := LocalStep(w, p, r, input); RunOk(w, p, s) && Quiet(w, p, r, s)
  {
    LockingQuiet(w, p, r, input.now);
    ReadingQuiet(w, p, r, input.checkedOut);
    if r.phase.CheckBranch? { CheckLandedQuiet(w, p, r); }
    if r.phase.AskComplete? { AskCompleteQuiet(w, p, r, input.boardDown); }
    if r.phase.ReadStaleWip? { ReadStaleWipQuiet(w, p, r, input.worktreeStuck); }
  }

  lemma LocalStepRunOk(w: World, p: Token, input: Input)
    requires Consistent(w) && p in w.runs && IsLocal(w.runs[p].phase)
    ensures var s := LocalStep(w, p, w.runs[p], input); RunOk(w, p, s) && Continues(w.runs[p], s)
  {
    var r := w.runs[p];
    RunAt(w, p);
    if QuietPhase(r) { QuietStep(w, p, r, input); } else { LoudStepRunOk(w, p, r, input); }
  }

  lemma LoudStepRunOk(w: World, p: Token, r: Run, input: Input)
    requires Consistent(w) && p in w.runs && r == w.runs[p] && RunOk(w, p, r) && IsLocal(r.phase) && !QuietPhase(r)
    ensures var s := LocalStep(w, p, r, input); RunOk(w, p, s) && Continues(r, s)
  {
    TaskAt(w, r.task);
    match r.phase
    case ReadBranch =>
      if r.source.Some? && Landed(r.task, r.source.value) in w.log { PlacedAt(w, Landed(r.task, r.source.value)); }
      ReadBranchRunOk(w, p, r, input.content, input.gateFails);
    case AskBegin => AskBeginRunOk(w, p, r, input.boardDown);
    case AskLock => OwnCancelRunOk(w, p, r); EndQuiet(w, p, r, ReleaseLock);
    case CheckBranch => ReservedCheckRunOk(w, p, r);
    case _ => assert false;
  }

  lemma LocalStepKeepsConsistent(w: World, p: Token, input: Input)
    requires Consistent(w) && p in w.runs && IsLocal(w.runs[p].phase)
    ensures Consistent(SetRun(w, p, LocalStep(w, p, w.runs[p], input)))
  {
    LocalStepRunOk(w, p, input);
    LocalKeepsConsistent(w, p, LocalStep(w, p, w.runs[p], input));
  }

  // ---------------------------------------------------------------------------------------------
  // Steps on the lock
  // ---------------------------------------------------------------------------------------------

  /** Nobody comes to hold a lock it did not hold. */
  predicate LockShrinks(w: World, w': World) {
    w' == w.(lock := w'.lock) && (forall s :: s in w'.lock ==> s in w.lock && w'.lock[s] == w.lock[s])
  }

  lemma LockShrinksAt(w: World, w': World, p: Token, r: Run)
    requires LockShrinks(w, w') && RunOk(w, p, r)
    ensures RunOk(w', p, r)
  {
  }

  lemma LockShrinksKeepsConsistent(w: World, w': World)
    requires Consistent(w) && LockShrinks(w, w')
    ensures Consistent(w')
  {
    forall p | p in w'.runs ensures RunOk(w', p, w'.runs[p]) {
      RunAt(w, p);
      LockShrinksAt(w, w', p, w.runs[p]);
    }
    forall t | t in w'.tasks ensures TaskOk(w', t, w'.tasks[t]) {
      TaskAt(w, t);
    }
    forall entry | entry in w'.log ensures Placed(w', entry) {
      PlacedAt(w, entry);
    }
  }

  /** A run that has just come to hold the lock has not planned anything. */
  lemma LockTakenAt(w: World, t: Token, slug: Slug, expires: int, p: Token, r: Run)
    requires slug !in w.lock && (p == t ==> BeforeBegin(r.phase)) && RunOk(w, p, r)
    ensures RunOk(w.(lock := w.lock[slug := Lock(t, expires)]), p, r)
  {
  }

  lemma LockTakenKeepsConsistent(w: World, slug: Slug, t: Token, expires: int)
    requires Consistent(w) && slug !in w.lock
    requires t in w.runs && w.runs[t].locked && w.runs[t].seen.slug == slug && BeforeBegin(w.runs[t].phase)
    ensures Consistent(w.(lock := w.lock[slug := Lock(t, expires)]))
  {
    var w' := w.(lock := w.lock[slug := Lock(t, expires)]);
    forall p | p in w'.runs ensures RunOk(w', p, w'.runs[p]) {
      RunAt(w, p);
      LockTakenAt(w, t, slug, expires, p, w.runs[p]);
    }
    forall x | x in w'.tasks ensures TaskOk(w', x, w'.tasks[x]) {
      TaskAt(w, x);
    }
    forall entry | entry in w'.log ensures Placed(w', entry) {
      PlacedAt(w, entry);
    }
    forall x | x in w'.lock ensures LockOk(w', x, w'.lock[x]) {
      assert x != slug ==> LockOk(w, x, w.lock[x]);
    }
  }

  /** The run once it holds the lock. */
  function LockedRun(r: Run): Run {
    r.(phase := if r.kind.Approve? then CheckWip else CheckBranch, locked := true)
  }

  lemma LockedRunOk(w: World, p: Token, r: Run)
    requires RunOk(w, p, r) && r.phase.SwapLock? && r.seen.slug !in w.lock
    ensures var s := LockedRun(r); RunOk(w, p, s) && Continues(r, s) && s.flight.None? && BeforeBegin(s.phase)
  {
  }

  /** Taking the lock over is the same as its holder giving it up first. */
  lemma TakenOver(w: World, p: Token, r: Run)
    ensures var free := w.(lock := w.lock - {r.seen.slug});
      LockShrinks(w, free) &&
      SetRun(w, p, LockedRun(r)).(lock := w.lock[r.seen.slug := Lock(p, r.expires)]) ==
      SetRun(free, p, LockedRun(r)).(lock := free.lock[r.seen.slug := Lock(p, r.expires)])
  {
    var free := w.(lock := w.lock - {r.seen.slug});
    assert w.lock[r.seen.slug := Lock(p, r.expires)] == free.lock[r.seen.slug := Lock(p, r.expires)];
  }

  lemma TakeLockKeepsConsistent(w: World, p: Token, r: Run)
    requires Consistent(w) && p in w.runs && r == w.runs[p] && r.phase.SwapLock?
    ensures Consistent(SetRun(w, p, LockedRun(r)).(lock := w.lock[r.seen.slug := Lock(p, r.expires)]))
  {
    var free := w.(lock := w.lock - {r.seen.slug});
    TakenOver(w, p, r);
    LockShrinksKeepsConsistent(w, free);
    RunAt(free, p);
    LockedRunOk(free, p, r);
    LocalKeepsConsistent(free, p, LockedRun(r));
    LockTakenKeepsConsistent(SetRun(free, p, LockedRun(r)), r.seen.slug, p, r.expires);
  }

  lemma RetryLockQuiet(w: World, p: Token, r: Run)
    requires RunOk(w, p, r) && r.phase.SwapLock?
    ensures var s := r.(phase := ReadLock, tries := 1); RunOk(w, p, s) && Quiet(w, p, r, s)
    ensures RunOk(w, p, Goto(r, Ended)) && Quiet(w, p, r, Goto(r, Ended))
  {
  }

  lemma SwapLockKeepsConsistent(w: World, p: Token)
    requires Consistent(w) && p in w.runs && w.runs[p].phase.SwapLock?
    ensures Consistent(SwapLockStep(w, p, w.runs[p]))
  {
    var r := w.runs[p];
    if LockRefIs(w, r.seen.slug, r.expected) {
      TakeLockKeepsConsistent(w, p, r);
    } else {
      RunAt(w, p);
      RetryLockQuiet(w, p, r);
      LocalKeepsConsistent(w, p, if r.tries == 0 then r.(phase := ReadLock, tries := 1) else Goto(r, Ended));
    }
  }

  lemma ReleaseLockKeepsConsistent(w: World, p: Token)
    requires Consistent(w) && p in w.runs && w.runs[p].phase.ReleaseLock?
    ensures Consistent(ReleaseLockStep(w, p, w.runs[p]))
  {
    var r := w.runs[p];
    RunAt(w, p);
    EndQuiet(w, p, r, Ended);
    LocalKeepsConsistent(w, p, Goto(r, Ended));
    LockShrinksKeepsConsistent(SetRun(w, p, Goto(r, Ended)), ReleaseLockStep(w, p, r));
  }

  // ---------------------------------------------------------------------------------------------
  // Steps on the branch
  // ---------------------------------------------------------------------------------------------

  /** The branch at slug is created, or moves to a descendant. */
  predicate BranchGrows(w: World, slug: Slug, tip: Commit) {
    slug in w.branch ==> IsAncestor(w.branch[slug], tip)
  }

  lemma OnBranchStays(w: World, slug: Slug, tip: Commit, s: Slug, commit: Commit)
    requires BranchGrows(w, slug, tip) && OnBranch(w, s, commit)
    ensures OnBranch(w.(branch := w.branch[slug := tip]), s, commit)
  {
    if s == slug {
      AncestorTransitive(commit, w.branch[slug], tip);
    }
  }

  lemma BranchGrowsAt(w: World, slug: Slug, tip: Commit, p: Token, r: Run)
    requires BranchGrows(w, slug, tip) && RunOk(w, p, r)
    ensures RunOk(w.(branch := w.branch[slug := tip]), p, r)
  {
    if r.source.Some? && OnBranch(w, r.seen.slug, r.source.value) {
      OnBranchStays(w, slug, tip, r.seen.slug, r.source.value);
    }
    if r.plan.Some? && r.plan.value.previous.Some? {
      OnBranchStays(w, slug, tip, r.seen.slug, r.plan.value.previous.value);
    }
  }

  /** A plan the branch has moved past stays outdated. */
  lemma OutdatedStays(w: World, slug: Slug, tip: Commit, p: Token, r: Run)
    requires BranchGrows(w, slug, tip) && PlanOk(w, r)
    ensures IsPublisher(w.(branch := w.branch[slug := tip]), p, r) ==> IsPublisher(w, p, r)
  {
    if r.seen.slug == slug && slug in w.branch && r.plan.Some? && r.plan.value.previous == Some(tip) {
      AncestorAntisymmetric(tip, w.branch[slug]);
    }
  }

  lemma BranchGrowsKeepsConsistent(w: World, slug: Slug, tip: Commit)
    requires Consistent(w) && BranchGrows(w, slug, tip)
    ensures Consistent(w.(branch := w.branch[slug := tip]))
  {
    var w' := w.(branch := w.branch[slug := tip]);
    forall p | p in w'.runs ensures RunOk(w', p, w'.runs[p]) {
      RunAt(w, p);
      BranchGrowsAt(w, slug, tip, p, w.runs[p]);
    }
    forall t | t in w'.tasks ensures TaskOk(w', t, w'.tasks[t]) {
      TaskAt(w, t);
      if w.tasks[t].landed.Some? { OnBranchStays(w, slug, tip, w.tasks[t].slug, w.tasks[t].landed.value.commit); }
    }
    forall entry | entry in w'.log ensures Placed(w', entry) {
      PlacedAt(w, entry);
      OnBranchStays(w, slug, tip, w.tasks[entry.task].slug, entry.commit);
    }
  }

  lemma LogEntryKeepsConsistent(w: World, entry: Landed)
    requires Consistent(w) && entry !in w.log && Placed(w, entry)
    requires forall p :: p in w.runs && w.runs[p].task == entry.task ==> !ReadyToMove(w, p, w.runs[p])
    ensures Consistent(w.(log := w.log + [entry]))
  {
    var w' := w.(log := w.log + [entry]);
    forall p | p in w'.runs ensures RunOk(w', p, w'.runs[p]) {
      RunAt(w, p);
    }
    forall t | t in w'.tasks ensures TaskOk(w', t, w'.tasks[t]) {
      TaskAt(w, t);
    }
    forall e | e in w'.log ensures Placed(w', e) {
      if e in w.log { PlacedAt(w, e); }
    }
  }

  lemma PublishedQuiet(w: World, p: Token, r: Run)
    requires RunOk(w, p, r) && r.phase.PublishRef? && r.plan.Some? && OnBranch(w, r.seen.slug, r.plan.value.source)
    ensures RunOk(w, p, AfterPublish(r)) && Quiet(w, p, r, AfterPublish(r))
  {
  }

  lemma NoPublishQuiet(w: World, p: Token, r: Run, checkedOut: bool)
    requires RunOk(w, p, r) && r.phase.PublishRef? && !(checkedOut && r.kind.Approve? && Moves(r))
    ensures var s := NoPublishStep(r, checkedOut); RunOk(w, p, s) && Quiet(w, p, r, s)
  {
    if r.plan.Some? && !Moves(r) { PublishedQuiet(w, p, r); }
  }

  /** The branch after p's ref transaction. */
  function BranchMoved(w: World, r: Run): World
    requires r.plan.Some?
  {
    w.(branch := w.branch[r.seen.slug := r.plan.value.commit])
  }

  function EntryOf(r: Run): Landed
    requires r.plan.Some?
  {
    Landed(r.task, r.plan.value.source)
  }

  /** After the ref transaction, the branch holds p's commit and p is past publishing. */
  lemma MovedKeepsConsistent(w: World, p: Token, r: Run)
    requires Consistent(w) && p in w.runs && r == w.runs[p] && IsPublisher(w, p, r)
    ensures var w1 := BranchMoved(w, r);
      BranchGrows(w, r.seen.slug, r.plan.value.commit) && Consistent(w1) && RunOk(w1, p, r) &&
      RunOk(w1, p, AfterPublish(r)) && Quiet(w1, p, r, AfterPublish(r))
    ensures var w2 := SetRun(BranchMoved(w, r), p, AfterPublish(r));
      Consistent(w2) && Placed(w2, EntryOf(r)) && EntryOf(r) !in w.log
  {
    RunAt(w, p);
    var w1 := BranchMoved(w, r);
    BranchGrowsKeepsConsistent(w, r.seen.slug, r.plan.value.commit);
    RunAt(w1, p);
    PublishedQuiet(w1, p, r);
    LocalKeepsConsistent(w1, p, AfterPublish(r));
  }

  lemma NobodyElseMoves(w: World, p: Token, r: Run, q: Token)
    requires Consistent(w) && p in w.runs && r == w.runs[p] && IsPublisher(w, p, r) && q in w.runs && w.runs[q].task == r.task
    ensures var w2 := SetRun(BranchMoved(w, r), p, AfterPublish(r)); !ReadyToMove(w2, q, w2.runs[q])
  {
    RunAt(w, p);
    RunAt(w, q);
  }

  lemma MoveKeepsConsistent(w: World, p: Token, r: Run)
    requires Consistent(w) && p in w.runs && r == w.runs[p] && IsPublisher(w, p, r)
    ensures Consistent(PublishStep(w, p, r, false))
  {
    MovedKeepsConsistent(w, p, r);
    var w2 := SetRun(BranchMoved(w, r), p, AfterPublish(r));
    forall q | q in w2.runs && w2.runs[q].task == r.task ensures !ReadyToMove(w2, q, w2.runs[q]) {
      NobodyElseMoves(w, p, r, q);
    }
    LogEntryKeepsConsistent(w2, EntryOf(r));
  }

  lemma NoPublishRunOk(w: World, p: Token, r: Run, checkedOut: bool)
    requires RunOk(w, p, r) && r.phase.PublishRef?
    ensures var s := NoPublishStep(r, checkedOut); RunOk(w, p, s) && Continues(r, s)
  {
    if checkedOut && r.kind.Approve? && Moves(r) { OwnCancelRunOk(w, p, r); } else { NoPublishQuiet(w, p, r, checkedOut); }
  }

  lemma PublishKeepsConsistent(w: World, p: Token, checkedOut: bool)
    requires Consistent(w) && p in w.runs && w.runs[p].phase.PublishRef?
    ensures Consistent(PublishStep(w, p, w.runs[p], checkedOut))
  {
    var r := w.runs[p];
    if PublishSucceeds(w, p, r, checkedOut) {
      MoveKeepsConsistent(w, p, r);
    } else {
      RunAt(w, p);
      NoPublishRunOk(w, p, r, checkedOut);
      LocalKeepsConsistent(w, p, NoPublishStep(r, checkedOut));
    }
  }

  // ---------------------------------------------------------------------------------------------
  // Steps on wip
  // ---------------------------------------------------------------------------------------------

  lemma WipKeepsConsistent(w: World, wip: map<TaskId, Commit>)
    requires Consistent(w)
    ensures Consistent(w.(wip := wip))
  {
    var w' := w.(wip := wip);
    forall p | p in w'.runs ensures RunOk(w', p, w'.runs[p]) { RunAt(w, p); }
    forall t | t in w'.tasks ensures TaskOk(w', t, w'.tasks[t]) { TaskAt(w, t); }
    forall entry | entry in w'.log ensures Placed(w', entry) { PlacedAt(w, entry); }
  }

  lemma DeleteWipKeepsConsistent(w: World, p: Token)
    requires Consistent(w) && p in w.runs && w.runs[p].phase.DeleteWip?
    ensures Consistent(DeleteWipStep(w, p, w.runs[p]))
  {
    RunAt(w, p);
    EndQuiet(w, p, w.runs[p], ReleaseLock);
    LocalKeepsConsistent(w, p, Goto(w.runs[p], ReleaseLock));
    WipKeepsConsistent(SetRun(w, p, Goto(w.runs[p], ReleaseLock)), DeleteWipStep(w, p, w.runs[p]).wip);
  }

  lemma ActKeepsConsistent(w: World, p: Token, input: Input)
    requires Consistent(w) && p in w.runs
    ensures Consistent(ActRun(w, p, input))
  {
    match w.runs[p].phase
    case SwapLock => SwapLockKeepsConsistent(w, p);
    case PublishRef => PublishKeepsConsistent(w, p, input.checkedOut);
    case DeleteWip => DeleteWipKeepsConsistent(w, p);
    case ReleaseLock => ReleaseLockKeepsConsistent(w, p);
    case _ => LocalStepKeepsConsistent(w, p, input);
  }
}
