/** The inductive invariant of the landing protocol, in two parts. A world is consistent when locks,
    tasks, runs and branches fit together; every step keeps that, whatever happens. It is guarded when
    published work is reserved or done and no cancel can change that; one step can break this part. */
module LandingInvariant {
  import opened Wrappers
  import opened Commits
  import opened Landing

  predicate BeforeLock(phase: Phase) {
    phase.FindWip? || phase.ReadLock? || phase.SwapLock?
  }

  predicate BeforeBegin(phase: Phase) {
    BeforeLock(phase) || phase.CheckBranch? || phase.CheckWip? || phase.ReadWip? || phase.ReadBranch?
  }

  predicate MayPublish(phase: Phase) {
    phase.AwaitBegin? || phase.AskBegin? || phase.PublishRef?
  }

  predicate AfterPublished(phase: Phase) {
    phase.AwaitComplete? || phase.AskComplete? || phase.ReadStaleWip? || phase.DeleteWip?
  }

  predicate ApproveOnly(phase: Phase) {
    phase.AwaitBegin? || phase.AskBegin? || phase.AwaitComplete? || phase.AskComplete? || phase.AskLock?
  }

  predicate CancelPhase(phase: Phase) {
    phase.ReadLock? || phase.SwapLock? || phase.CheckBranch? || phase.AwaitCancel? || phase.ReleaseLock? || phase.Ended?
  }

  predicate HoldsLock(w: World, p: Token, r: Run) {
    LockRefIs(w, r.seen.slug, Some(p))
  }

  /** p's next step puts its commit on the branch. */
  predicate IsPublisher(w: World, p: Token, r: Run) {
    r.phase.PublishRef? && PublishSucceeds(w, p, r, false)
  }

  /** p holds the lock and was granted the reservation, but does not know it yet. */
  predicate AwaitsGrant(w: World, p: Token, r: Run) {
    (r.phase.AwaitBegin? || r.phase.AskBegin?) && r.begun && Moves(r) && HoldsLock(w, p, r)
  }

  /** Attempt a's BeginLanding was accepted, for this task and commit. */
  predicate AttemptBegun(w: World, a: Token, t: TaskId, commit: Commit) {
    a in w.runs && w.runs[a].begun && w.runs[a].task == t &&
    w.runs[a].plan.Some? && w.runs[a].plan.value.source == commit
  }

  predicate ReservationOk(w: World, t: TaskId, task: Task) {
    task.landing.Some? ==>
      var held := task.landing.value;
      task.state.Approved? && 1 <= held.round == |task.rounds| &&
      held.commit in CommitLinks(CurrentLinks(task)) && AttemptBegun(w, held.attempt, t, held.commit)
  }

  /** A task done by a landing: the landed commit is one its reserved round submitted, and it is on
      the task's branch. */
  predicate LandedOk(w: World, task: Task) {
    task.landed.Some? ==>
      var held := task.landed.value;
      task.state.Done? && 1 <= held.round == |task.rounds| &&
      held.commit in CommitLinks(CurrentLinks(task)) && OnBranch(w, task.slug, held.commit)
  }

  predicate TaskOk(w: World, t: TaskId, task: Task) {
    ReservationOk(w, t, task) && LandedOk(w, task)
  }

  predicate TasksOk(w: World) {
    forall t :: t in w.tasks ==> TaskOk(w, t, w.tasks[t])
  }

  predicate LockOk(w: World, s: Slug, lock: Lock) {
    lock.owner in w.runs && w.runs[lock.owner].locked && w.runs[lock.owner].seen.slug == s
  }

  predicate LocksOk(w: World) {
    forall s :: s in w.lock ==> LockOk(w, s, w.lock[s])
  }

  /** The commit is on its task's branch. */
  predicate Placed(w: World, entry: Landed) {
    entry.task in w.tasks && OnBranch(w, w.tasks[entry.task].slug, entry.commit)
  }

  predicate LogOk(w: World) {
    && (forall entry :: entry in w.log ==> Placed(w, entry))
    && (forall i, j :: 0 <= i < j < |w.log| ==> w.log[i] != w.log[j])
  }

  predicate SeenOk(w: World, r: Run) {
    r.task in w.tasks && r.seen.slug == w.tasks[r.task].slug &&
    (r.seen.landing.Some? ==> AttemptBegun(w, r.seen.landing.value.attempt, r.task, r.seen.landing.value.commit)) &&
    (r.kind.LandDone? ==> w.tasks[r.task].state.Done?)
  }

  predicate PlanOk(w: World, r: Run) {
    r.plan.Some? ==>
      var plan := r.plan.value;
      r.source == Some(plan.source) && IsAncestor(plan.source, plan.commit) &&
      (plan.previous.Some? ==>
        IsAncestor(plan.previous.value, plan.commit) && OnBranch(w, r.seen.slug, plan.previous.value)) &&
      (plan.kind.AlreadyThere? ==> OnBranch(w, r.seen.slug, plan.source))
  }

  /** Which of a run's variables go with which program point. */
  predicate ShapeOk(r: Run) {
    && (BeforeLock(r.phase) ==> !r.locked)
    && (BeforeBegin(r.phase) ==> !r.begun && r.flight.None? && r.plan.None?)
    && (!r.kind.Approve? ==> !r.begun && (r.flight.None? || r.flight == Some(CancelCall)) && !ApproveOnly(r.phase))
    && (r.kind.Cancel? ==> r.plan.None? && CancelPhase(r.phase))
    && (r.kind.Cancel? && (r.phase.CheckBranch? || r.flight.Some?) ==> r.locked && r.seen.landing.Some?)
    && (r.kind.Cancel? && !r.phase.Ended? ==> r.seen.landing.Some?)
    && (r.kind.LandDone? ==> r.flight.None?)
    && (r.begun || r.flight == Some(BeginCall) || MayPublish(r.phase) || r.phase.AskLock? ==> r.plan.Some?)
    && (r.phase.AskLock? ==> Moves(r))
    && (r.flight == Some(BeginCall) ==> !r.begun)
    && (r.kind.Approve? && (r.phase.PublishRef? || r.phase.AskLock?) ==> r.begun)
    && (r.kind.Approve? && (r.flight == Some(CompleteCall) || r.flight == Some(CancelCall)) ==> r.begun)
    && (AfterPublished(r.phase) || r.flight == Some(CompleteCall) ==> r.source.Some?)
  }

  /** What a run past publishing knows: its commit is on the branch. */
  predicate PublishedOk(w: World, r: Run) {
    (AfterPublished(r.phase) || r.flight == Some(CompleteCall)) && r.source.Some? ==>
      OnBranch(w, r.seen.slug, r.source.value)
  }

  /** p's plan moves the branch, and p has the lock to move it with. */
  predicate ReadyToMove(w: World, p: Token, r: Run) {
    Moves(r) && (MayPublish(r.phase) || r.phase.AskLock?) && HoldsLock(w, p, r)
  }

  /** What holding the lock tells a run that planned a move: nobody has published its commit. */
  predicate HolderOk(w: World, p: Token, r: Run) {
    ReadyToMove(w, p, r) ==> Landed(r.task, r.plan.value.source) !in w.log
  }

  predicate RunOk(w: World, p: Token, r: Run) {
    SeenOk(w, r) && PlanOk(w, r) && ShapeOk(r) && PublishedOk(w, r) && HolderOk(w, p, r)
  }

  predicate RunsOk(w: World) {
    forall p :: p in w.runs ==> RunOk(w, p, w.runs[p])
  }

  predicate Consistent(w: World) {
    TasksOk(w) && LocksOk(w) && LogOk(w) && RunsOk(w)
  }

  // ---------------------------------------------------------------------------------------------
  // The guard on published work
  // ---------------------------------------------------------------------------------------------

  /** The task can only go to done, with this commit. */
  predicate Secured(w: World, t: TaskId, commit: Commit) {
    t in w.tasks && (w.tasks[t].state.Done? || (w.tasks[t].landing.Some? && w.tasks[t].landing.value.commit == commit))
  }

  /** The commit is on its task's branch, and the task cannot be rejected. */
  predicate Protected(w: World, entry: Landed) {
    Secured(w, entry.task, entry.commit) && OnBranch(w, w.tasks[entry.task].slug, entry.commit)
  }

  /** If p's next step publishes, the task is reserved or done. */
  predicate PublisherOk(w: World, p: Token, r: Run) {
    IsPublisher(w, p, r) ==> Secured(w, r.task, r.plan.value.source)
  }

  /** p's cancel names the attempt that owns its task's reservation. */
  predicate NamesOwner(w: World, p: Token, r: Run) {
    r.task in w.tasks && w.tasks[r.task].landing.Some? &&
    w.tasks[r.task].landing.value.attempt == NamedAttempt(r, p)
  }

  /** p cancels a reservation, or will if it finds nothing landed. */
  predicate Canceller(r: Run) {
    (r.kind.Cancel? && r.locked) || r.flight == Some(CancelCall)
  }

  /** The fence. A run that may cancel names an attempt older than every run that can still publish
      the task: one that publishes took the lock later, and took the reservation over with it. */
  predicate Fenced(w: World, p: Token, r: Run, q: Token, s: Run) {
    Canceller(r) && s.task == r.task && (IsPublisher(w, q, s) || (AwaitsGrant(w, q, s) && q == NamedAttempt(r, p)))
    ==> !NamesOwner(w, p, r)
  }

  /** A cancel that would still take effect is for work that never reached the branch. */
  predicate CancelOk(w: World, p: Token, r: Run) {
    r.flight == Some(CancelCall) && NamesOwner(w, p, r) ==>
      Landed(r.task, w.tasks[r.task].landing.value.commit) !in w.log
  }

  predicate GuardOk(w: World, p: Token, r: Run, q: Token, s: Run) {
    PublisherOk(w, p, r) && CancelOk(w, p, r) && Fenced(w, p, r, q, s)
  }

  predicate LogSecured(w: World) {
    forall entry :: entry in w.log ==> Secured(w, entry.task, entry.commit)
  }

  predicate Guarded(w: World) {
    LogSecured(w) && forall p, q :: p in w.runs && q in w.runs ==> GuardOk(w, p, w.runs[p], q, w.runs[q])
  }

  predicate Inv(w: World) {
    Consistent(w) && Guarded(w)
  }

  lemma RunAt(w: World, p: Token)
    requires Consistent(w) && p in w.runs
    ensures RunOk(w, p, w.runs[p])
  {
  }

  lemma TaskAt(w: World, t: TaskId)
    requires Consistent(w) && t in w.tasks
    ensures TaskOk(w, t, w.tasks[t])
  {
  }

  lemma PlacedAt(w: World, entry: Landed)
    requires Consistent(w) && entry in w.log
    ensures Placed(w, entry)
  {
  }

  lemma GuardAt(w: World, p: Token, q: Token)
    requires Guarded(w) && p in w.runs && q in w.runs
    ensures GuardOk(w, p, w.runs[p], q, w.runs[q])
  {
  }

  lemma LogAt(w: World, entry: Landed)
    requires Inv(w) && entry in w.log
    ensures Protected(w, entry)
  {
  }

  // ---------------------------------------------------------------------------------------------
  // Steps that write only the run's own variables
  // ---------------------------------------------------------------------------------------------

  /** s is a later state of r. */
  predicate Continues(r: Run, s: Run) {
    s.task == r.task && s.kind == r.kind && s.seen == r.seen && (r.locked ==> s.locked) &&
    (r.begun ==> s.begun && s.plan == r.plan)
  }

  lemma BegunStays(w: World, p: Token, s: Run, a: Token, t: TaskId, commit: Commit)
    requires p in w.runs && Continues(w.runs[p], s) && AttemptBegun(w, a, t, commit)
    ensures AttemptBegun(SetRun(w, p, s), a, t, commit)
  {
  }

  lemma RunOkStays(w: World, p: Token, s: Run, q: Token, r: Run)
    requires p in w.runs && Continues(w.runs[p], s) && RunOk(w, q, r)
    ensures RunOk(SetRun(w, p, s), q, r)
  {
    if r.seen.landing.Some? {
      BegunStays(w, p, s, r.seen.landing.value.attempt, r.task, r.seen.landing.value.commit);
    }
  }

  lemma LocalKeepsRuns(w: World, p: Token, s: Run)
    requires p in w.runs && Continues(w.runs[p], s) && RunsOk(w) && RunOk(w, p, s)
    ensures RunsOk(SetRun(w, p, s))
  {
    var w' := SetRun(w, p, s);
    forall q | q in w'.runs ensures RunOk(w', q, w'.runs[q]) {
      RunOkStays(w, p, s, q, w'.runs[q]);
    }
  }

  lemma LocalKeepsStores(w: World, p: Token, s: Run)
    requires p in w.runs && Continues(w.runs[p], s) && TasksOk(w) && LocksOk(w) && LogOk(w)
    ensures TasksOk(SetRun(w, p, s)) && LocksOk(SetRun(w, p, s)) && LogOk(SetRun(w, p, s))
  {
    var w' := SetRun(w, p, s);
    forall t | t in w'.tasks ensures TaskOk(w', t, w'.tasks[t]) {
      assert TaskOk(w, t, w.tasks[t]);
    }
    forall entry | entry in w'.log ensures Placed(w', entry) {
      assert Placed(w, entry);
    }
  }

  /** A step that writes only p's own variables needs a look at p only. */
  lemma LocalKeepsConsistent(w: World, p: Token, s: Run)
    requires Consistent(w) && p in w.runs && Continues(w.runs[p], s) && RunOk(w, p, s)
    ensures Consistent(SetRun(w, p, s))
  {
    LocalKeepsRuns(w, p, s);
    LocalKeepsStores(w, p, s);
  }

  lemma LocalKeepsGuarded(w: World, p: Token, s: Run)
    requires Guarded(w) && GuardOk(w, p, s, p, s)
    requires forall q :: q in w.runs && q != p ==> Fenced(w, p, s, q, w.runs[q]) && Fenced(w, q, w.runs[q], p, s)
    ensures Guarded(SetRun(w, p, s))
  {
    var w' := SetRun(w, p, s);
    forall c, q | c in w'.runs && q in w'.runs ensures GuardOk(w', c, w'.runs[c], q, w'.runs[q]) {
      if c != p { GuardAt(w, c, c); }
      if c != p && q != p { GuardAt(w, c, q); }
      assert GuardOk(w, c, w'.runs[c], q, w'.runs[q]);
    }
    forall entry | entry in w'.log ensures Secured(w', entry.task, entry.commit) {
      assert Secured(w, entry.task, entry.commit);
    }
  }

  /** A run that moves on with nothing new to publish or to cancel. */
  predicate Quiet(w: World, p: Token, r: Run, s: Run) {
    Continues(r, s) && s.locked == r.locked && (s.flight == Some(CancelCall) ==> r.flight == Some(CancelCall)) &&
    (IsPublisher(w, p, s) ==> IsPublisher(w, p, r) && s.plan == r.plan) && (AwaitsGrant(w, p, s) ==> AwaitsGrant(w, p, r))
  }

  lemma QuietGuard(w: World, p: Token, r: Run, s: Run, c: Token, rc: Run)
    requires Quiet(w, p, r, s)
    ensures GuardOk(w, p, r, c, rc) ==> GuardOk(w, p, s, c, rc)
    ensures Fenced(w, c, rc, p, r) ==> Fenced(w, c, rc, p, s)
    ensures GuardOk(w, p, r, p, r) ==> GuardOk(w, p, s, p, s)
  {
  }

  lemma QuietKeepsGuarded(w: World, p: Token, s: Run)
    requires Guarded(w) && p in w.runs && Quiet(w, p, w.runs[p], s)
    ensures Guarded(SetRun(w, p, s))
  {
    GuardAt(w, p, p);
    QuietGuard(w, p, w.runs[p], s, p, w.runs[p]);
    forall c | c in w.runs && c != p
      ensures Fenced(w, p, s, c, w.runs[c]) && Fenced(w, c, w.runs[c], p, s)
    {
      GuardAt(w, p, c);
      GuardAt(w, c, p);
      QuietGuard(w, p, w.runs[p], s, c, w.runs[c]);
    }
    LocalKeepsGuarded(w, p, s);
  }
}
