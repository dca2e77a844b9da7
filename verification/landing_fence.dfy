/** Every step keeps published work guarded, except a failing precheck whose cancel is not harmless. */
module LandingFence {
  import opened Wrappers
  import opened Commits
  import opened Landing
  import opened LandingInvariant
  import opened LandingSteps
  import opened LandingBoard

  /** Publish's checked-out precheck fails, in an approve with something to publish. */
  predicate PrecheckFails(w: World, e: Event) {
    e.Act? && e.input.checkedOut && e.token in w.runs && w.runs[e.token].phase.PublishRef? &&
    w.runs[e.token].kind.Approve? && Moves(w.runs[e.token])
  }

  /** Nothing of t was published, and no run but p is about to publish it. */
  predicate UnpublishedBut(w: World, t: TaskId, p: Token) {
    && (forall entry :: entry in w.log ==> entry.task != t)
    && (forall q :: q in w.runs && q != p && w.runs[q].task == t ==> !IsPublisher(w, q, w.runs[q]))
  }

  predicate Unpublished(w: World, t: TaskId) {
    && (forall entry :: entry in w.log ==> entry.task != t)
    && (forall q :: q in w.runs && w.runs[q].task == t ==> !IsPublisher(w, q, w.runs[q]))
  }

  /** Giving p's reservation back cannot expose published work: either it is no longer p's, or Publish
      put nothing of its task on the branch and no other run's next step does. */
  predicate CancelHarmless(w: World, p: Token, r: Run) {
    NamesOwner(w, p, r) ==> UnpublishedBut(w, r.task, p)
  }

  lemma SecuredAt(w: World, entry: Landed)
    requires Guarded(w) && entry in w.log
    ensures Secured(w, entry.task, entry.commit)
  {
  }

  lemma QuietKeepsInv(w: World, p: Token, s: Run)
    requires Inv(w) && p in w.runs && RunOk(w, p, s) && Quiet(w, p, w.runs[p], s)
    ensures Inv(SetRun(w, p, s))
  {
    LocalKeepsConsistent(w, p, s);
    QuietKeepsGuarded(w, p, s);
  }

  // ---------------------------------------------------------------------------------------------
  // A run's own steps
  // ---------------------------------------------------------------------------------------------

  /** Nobody may cancel the reservation a run finds to be its own. */
  lemma AskBeginFenced(w: World, p: Token, r: Run, boardDown: bool, c: Token, rc: Run)
    requires RunOk(w, p, r) && r.phase.AskBegin? && p in w.runs && w.runs[p] == r && TaskOk(w, r.task, w.tasks[r.task])
    requires Fenced(w, c, rc, p, r)
    ensures Fenced(w, c, rc, p, AskBeginStep(w, p, r, boardDown))
  {
  }

  lemma AskBeginKeepsInv(w: World, p: Token, boardDown: bool)
    requires Inv(w) && p in w.runs && w.runs[p].phase.AskBegin?
    ensures Inv(SetRun(w, p, AskBeginStep(w, p, w.runs[p], boardDown)))
  {
    var r := w.runs[p];
    var s := AskBeginStep(w, p, r, boardDown);
    RunAt(w, p);
    TaskAt(w, r.task);
    AskBeginRunOk(w, p, r, boardDown);
    LocalKeepsConsistent(w, p, s);
    forall c | c in w.runs
      ensures Fenced(w, c, w.runs[c], p, s) && GuardOk(w, p, s, c, w.runs[c])
    {
      GuardAt(w, c, p);
      GuardAt(w, p, c);
      AskBeginFenced(w, p, r, boardDown, c, w.runs[c]);
    }
    LocalKeepsGuarded(w, p, s);
  }

  /** A run for a done task can become a publisher: no cancel can name a reservation of that task. */
  lemma PlannedFenced(w: World, p: Token, r: Run, content: nat, gateFails: bool, c: Token, rc: Run)
    requires RunOk(w, p, r) && r.phase.ReadBranch? && TaskOk(w, r.task, w.tasks[r.task])
    ensures var s := ReadBranchStep(w, r, content, gateFails); Fenced(w, c, rc, p, s) && !Canceller(s)
  {
  }

  lemma ReadBranchKeepsInv(w: World, p: Token, content: nat, gateFails: bool)
    requires Inv(w) && p in w.runs && w.runs[p].phase.ReadBranch?
    ensures Inv(SetRun(w, p, ReadBranchStep(w, w.runs[p], content, gateFails)))
  {
    var r := w.runs[p];
    var s := ReadBranchStep(w, r, content, gateFails);
    RunAt(w, p);
    TaskAt(w, r.task);
    if r.source.Some? && Landed(r.task, r.source.value) in w.log { PlacedAt(w, Landed(r.task, r.source.value)); }
    ReadBranchRunOk(w, p, r, content, gateFails);
    LocalKeepsConsistent(w, p, s);
    forall c | c in w.runs ensures Fenced(w, c, w.runs[c], p, s) && !Canceller(s) {
      PlannedFenced(w, p, r, content, gateFails, c, w.runs[c]);
    }
    LocalKeepsGuarded(w, p, s);
  }

  /** The cancel is sent only when the reserved commit is not on the branch, so it was never published. */
  lemma ReservedCheckCancelOk(w: World, p: Token, r: Run)
    requires RunOk(w, p, r) && r.phase.CheckBranch? && r.kind.Cancel? && TaskOk(w, r.task, w.tasks[r.task])
    requires r.seen.landing.Some? ==>
      var entry := Landed(r.task, r.seen.landing.value.commit); entry in w.log ==> Placed(w, entry)
    ensures CancelOk(w, p, CheckReservedStep(w, r))
  {
  }

  lemma CheckReservedKeepsInv(w: World, p: Token)
    requires Inv(w) && p in w.runs && w.runs[p].phase.CheckBranch? && w.runs[p].kind.Cancel?
    ensures Inv(SetRun(w, p, CheckReservedStep(w, w.runs[p])))
  {
    var r := w.runs[p];
    var s := CheckReservedStep(w, r);
    RunAt(w, p);
    TaskAt(w, r.task);
    if r.seen.landing.Some? && Landed(r.task, r.seen.landing.value.commit) in w.log {
      PlacedAt(w, Landed(r.task, r.seen.landing.value.commit));
    }
    ReservedCheckRunOk(w, p, r);
    ReservedCheckCancelOk(w, p, r);
    LocalKeepsConsistent(w, p, s);
    forall q | q in w.runs ensures Fenced(w, p, s, q, w.runs[q]) && Fenced(w, p, s, p, s) {
      GuardAt(w, p, q);
    }
    LocalKeepsGuarded(w, p, s);
  }

  lemma HolderRunsAlone(w: World, p: Token, r: Run, q: Token, s: Run)
    requires SeenOk(w, r) && SeenOk(w, s) && HoldsLock(w, p, r) && q != p && s.task == r.task
    ensures !IsPublisher(w, q, s) && !AwaitsGrant(w, q, s)
  {
  }

  /** While it holds the lock, an approve whose Publish did not go through may give its reservation back. */
  lemma HolderCancelHarmless(w: World, p: Token)
    requires Inv(w) && p in w.runs && w.runs[p].kind.Approve? && Moves(w.runs[p])
    requires w.runs[p].phase.AskLock? || w.runs[p].phase.PublishRef?
    requires HoldsLock(w, p, w.runs[p])
    ensures CancelHarmless(w, p, w.runs[p])
  {
    var r := w.runs[p];
    RunAt(w, p);
    TaskAt(w, r.task);
    forall entry | entry in w.log && NamesOwner(w, p, r) ensures entry.task != r.task {
      LogAt(w, entry);
    }
    forall q | q in w.runs && q != p && w.runs[q].task == r.task ensures !IsPublisher(w, q, w.runs[q]) {
      RunAt(w, q);
      HolderRunsAlone(w, p, r, q, w.runs[q]);
    }
  }

  lemma OwnCancelOk(w: World, p: Token, r: Run)
    requires RunOk(w, p, r) && r.kind.Approve? && (r.phase.AskLock? || r.phase.PublishRef?)
    requires TaskOk(w, r.task, w.tasks[r.task]) && CancelHarmless(w, p, r)
    ensures CancelOk(w, p, Send(r, CancelCall, AwaitCancel))
  {
  }

  lemma OwnCancelKeepsInv(w: World, p: Token)
    requires Inv(w) && p in w.runs && w.runs[p].kind.Approve? && CancelHarmless(w, p, w.runs[p])
    requires w.runs[p].phase.AskLock? || w.runs[p].phase.PublishRef?
    ensures Inv(SetRun(w, p, Send(w.runs[p], CancelCall, AwaitCancel)))
  {
    var r := w.runs[p];
    var s := Send(r, CancelCall, AwaitCancel);
    RunAt(w, p);
    TaskAt(w, r.task);
    OwnCancelRunOk(w, p, r);
    OwnCancelOk(w, p, r);
    LocalKeepsConsistent(w, p, s);
    LocalKeepsGuarded(w, p, s);
  }

  lemma AskLockKeepsInv(w: World, p: Token)
    requires Inv(w) && p in w.runs && w.runs[p].phase.AskLock?
    ensures Inv(SetRun(w, p, AskLockStep(w, p, w.runs[p])))
  {
    RunAt(w, p);
    if HoldsLock(w, p, w.runs[p]) {
      HolderCancelHarmless(w, p);
      OwnCancelKeepsInv(w, p);
    } else {
      EndQuiet(w, p, w.runs[p], ReleaseLock);
      QuietKeepsInv(w, p, Goto(w.runs[p], ReleaseLock));
    }
  }

  lemma QuietActKeepsInv(w: World, p: Token, input: Input)
    requires Inv(w) && p in w.runs && QuietPhase(w.runs[p])
    ensures Inv(SetRun(w, p, LocalStep(w, p, w.runs[p], input)))
  {
    RunAt(w, p);
    QuietStep(w, p, w.runs[p], input);
    QuietKeepsInv(w, p, LocalStep(w, p, w.runs[p], input));
  }

  lemma LocalStepKeepsInv(w: World, p: Token, input: Input)
    requires Inv(w) && p in w.runs && IsLocal(w.runs[p].phase)
    ensures Inv(SetRun(w, p, LocalStep(w, p, w.runs[p], input)))
  {
    var r := w.runs[p];
    match r.phase
    case ReadBranch => ReadBranchKeepsInv(w, p, input.content, input.gateFails);
    case AskBegin => AskBeginKeepsInv(w, p, input.boardDown);
    case AskLock => AskLockKeepsInv(w, p);
    case CheckBranch => if r.kind.Cancel? { CheckReservedKeepsInv(w, p); } else { QuietActKeepsInv(w, p, input); }
    case _ => QuietActKeepsInv(w, p, input);
  }

  // ---------------------------------------------------------------------------------------------
  // Steps on the lock
  // ---------------------------------------------------------------------------------------------

  lemma LockShrinksGuardAt(w: World, w': World, p: Token, r: Run, q: Token, s: Run)
    requires LockShrinks(w, w') && GuardOk(w, p, r, q, s)
    ensures GuardOk(w', p, r, q, s)
  {
  }

  lemma LockShrinksKeepsGuarded(w: World, w': World)
    requires Guarded(w) && LockShrinks(w, w')
    ensures Guarded(w')
  {
    forall p, q | p in w'.runs && q in w'.runs ensures GuardOk(w', p, w'.runs[p], q, w'.runs[q]) {
      GuardAt(w, p, q);
      LockShrinksGuardAt(w, w', p, w.runs[p], q, w.runs[q]);
    }
    forall entry | entry in w'.log ensures Secured(w', entry.task, entry.commit) {
      SecuredAt(w, entry);
    }
  }

  lemma LockTakenGuardAt(w: World, slug: Slug, t: Token, expires: int, p: Token, r: Run, q: Token, s: Run)
    requires slug !in w.lock && GuardOk(w, p, r, q, s)
    requires (p == t ==> BeforeBegin(r.phase)) && (q == t ==> BeforeBegin(s.phase))
    ensures GuardOk(w.(lock := w.lock[slug := Lock(t, expires)]), p, r, q, s)
  {
  }

  lemma LockTakenKeepsGuarded(w: World, slug: Slug, t: Token, expires: int)
    requires Guarded(w) && slug !in w.lock && t in w.runs && BeforeBegin(w.runs[t].phase)
    ensures Guarded(w.(lock := w.lock[slug := Lock(t, expires)]))
  {
    var w' := w.(lock := w.lock[slug := Lock(t, expires)]);
    forall p, q | p in w'.runs && q in w'.runs ensures GuardOk(w', p, w'.runs[p], q, w'.runs[q]) {
      GuardAt(w, p, q);
      LockTakenGuardAt(w, slug, t, expires, p, w.runs[p], q, w.runs[q]);
    }
    forall entry | entry in w'.log ensures Secured(w', entry.task, entry.commit) {
      SecuredAt(w, entry);
    }
  }

  /** Nobody publishes to a branch whose lock is free. */
  lemma FreeLockFenced(w: World, p: Token, r: Run, q: Token, s: Run)
    requires SeenOk(w, r) && SeenOk(w, s) && r.seen.slug !in w.lock
    ensures Fenced(w, p, r, q, s) && Fenced(w, q, s, p, r) && Fenced(w, p, r, p, r)
  {
  }

  lemma TakeFreeLockKeepsGuarded(w: World, p: Token, r: Run)
    requires Inv(w) && p in w.runs && r == w.runs[p] && r.phase.SwapLock? && r.seen.slug !in w.lock
    ensures Guarded(SetRun(w, p, LockedRun(r)))
  {
    RunAt(w, p);
    LockedRunOk(w, p, r);
    FreeLockFenced(w, p, LockedRun(r), p, LockedRun(r));
    forall q | q in w.runs
      ensures Fenced(w, p, LockedRun(r), q, w.runs[q]) && Fenced(w, q, w.runs[q], p, LockedRun(r))
    {
      RunAt(w, q);
      FreeLockFenced(w, p, LockedRun(r), q, w.runs[q]);
    }
    LocalKeepsGuarded(w, p, LockedRun(r));
  }

  lemma TakeLockKeepsGuarded(w: World, p: Token, r: Run)
    requires Inv(w) && p in w.runs && r == w.runs[p] && r.phase.SwapLock?
    ensures Guarded(SetRun(w, p, LockedRun(r)).(lock := w.lock[r.seen.slug := Lock(p, r.expires)]))
  {
    var free := w.(lock := w.lock - {r.seen.slug});
    TakenOver(w, p, r);
    LockShrinksKeepsConsistent(w, free);
    LockShrinksKeepsGuarded(w, free);
    RunAt(free, p);
    LockedRunOk(free, p, r);
    TakeFreeLockKeepsGuarded(free, p, r);
    LockTakenKeepsGuarded(SetRun(free, p, LockedRun(r)), r.seen.slug, p, r.expires);
  }

  lemma SwapLockKeepsInv(w: World, p: Token)
    requires Inv(w) && p in w.runs && w.runs[p].phase.SwapLock?
    ensures Inv(SwapLockStep(w, p, w.runs[p]))
  {
    var r := w.runs[p];
    SwapLockKeepsConsistent(w, p);
    if LockRefIs(w, r.seen.slug, r.expected) {
      TakeLockKeepsGuarded(w, p, r);
    } else {
      RunAt(w, p);
      RetryLockQuiet(w, p, r);
      QuietKeepsGuarded(w, p, if r.tries == 0 then r.(phase := ReadLock, tries := 1) else Goto(r, Ended));
    }
  }

  lemma ReleaseLockKeepsInv(w: World, p: Token)
    requires Inv(w) && p in w.runs && w.runs[p].phase.ReleaseLock?
    ensures Inv(ReleaseLockStep(w, p, w.runs[p]))
  {
    var r := w.runs[p];
    ReleaseLockKeepsConsistent(w, p);
    RunAt(w, p);
    EndQuiet(w, p, r, Ended);
    QuietKeepsGuarded(w, p, Goto(r, Ended));
    LockShrinksKeepsGuarded(SetRun(w, p, Goto(r, Ended)), ReleaseLockStep(w, p, r));
  }

  // ---------------------------------------------------------------------------------------------
  // Steps on the branch and on wip
  // ---------------------------------------------------------------------------------------------

  lemma BranchGrowsKeepsGuarded(w: World, slug: Slug, tip: Commit)
    requires Inv(w) && BranchGrows(w, slug, tip)
    ensures Guarded(w.(branch := w.branch[slug := tip]))
  {
    var w' := w.(branch := w.branch[slug := tip]);
    forall p, q | p in w'.runs && q in w'.runs ensures GuardOk(w', p, w'.runs[p], q, w'.runs[q]) {
      GuardAt(w, p, q);
      RunAt(w, p);
      RunAt(w, q);
      OutdatedStays(w, slug, tip, p, w.runs[p]);
      OutdatedStays(w, slug, tip, q, w.runs[q]);
    }
    forall entry | entry in w'.log ensures Secured(w', entry.task, entry.commit) {
      SecuredAt(w, entry);
    }
  }

  lemma AdvanceKeepsInv(w: World, slug: Slug, tip: Commit)
    requires Inv(w) && BranchGrows(w, slug, tip)
    ensures Inv(w.(branch := w.branch[slug := tip]))
  {
    BranchGrowsKeepsConsistent(w, slug, tip);
    BranchGrowsKeepsGuarded(w, slug, tip);
  }

  /** A new entry nobody may cancel. */
  lemma LogEntryKeepsGuarded(w: World, entry: Landed)
    requires Guarded(w) && Secured(w, entry.task, entry.commit)
    requires forall p :: p in w.runs && w.runs[p].task == entry.task && Canceller(w.runs[p]) ==> !NamesOwner(w, p, w.runs[p])
    ensures Guarded(w.(log := w.log + [entry]))
  {
    var w' := w.(log := w.log + [entry]);
    forall p, q | p in w'.runs && q in w'.runs ensures GuardOk(w', p, w'.runs[p], q, w'.runs[q]) {
      GuardAt(w, p, q);
    }
    forall e | e in w'.log ensures Secured(w', e.task, e.commit) {
      if e in w.log { SecuredAt(w, e); }
    }
  }

  /** No cancel can name the reservation under which p publishes. */
  lemma NobodyCancels(w: World, p: Token, r: Run, q: Token)
    requires Inv(w) && p in w.runs && r == w.runs[p] && IsPublisher(w, p, r) && q in w.runs && w.runs[q].task == r.task
    ensures var w2 := SetRun(BranchMoved(w, r), p, AfterPublish(r));
      Canceller(w2.runs[q]) ==> !NamesOwner(w2, q, w2.runs[q])
  {
    GuardAt(w, q, p);
  }

  lemma MoveKeepsGuarded(w: World, p: Token, r: Run)
    requires Inv(w) && p in w.runs && r == w.runs[p] && IsPublisher(w, p, r)
    ensures Guarded(PublishStep(w, p, r, false))
  {
    var w1 := BranchMoved(w, r);
    var w2 := SetRun(w1, p, AfterPublish(r));
    MovedKeepsConsistent(w, p, r);
    BranchGrowsKeepsGuarded(w, r.seen.slug, r.plan.value.commit);
    QuietKeepsGuarded(w1, p, AfterPublish(r));
    GuardAt(w, p, p);
    forall q | q in w2.runs && w2.runs[q].task == r.task && Canceller(w2.runs[q]) ensures !NamesOwner(w2, q, w2.runs[q]) {
      NobodyCancels(w, p, r, q);
    }
    LogEntryKeepsGuarded(w2, EntryOf(r));
  }

  lemma PublishKeepsInv(w: World, p: Token, checkedOut: bool)
    requires Inv(w) && p in w.runs && w.runs[p].phase.PublishRef?
    requires checkedOut && w.runs[p].kind.Approve? && Moves(w.runs[p]) ==> CancelHarmless(w, p, w.runs[p])
    ensures Inv(PublishStep(w, p, w.runs[p], checkedOut))
  {
    var r := w.runs[p];
    PublishKeepsConsistent(w, p, checkedOut);
    if PublishSucceeds(w, p, r, checkedOut) {
      MoveKeepsGuarded(w, p, r);
    } else if checkedOut && r.kind.Approve? && Moves(r) {
      OwnCancelKeepsInv(w, p);
    } else {
      RunAt(w, p);
      NoPublishQuiet(w, p, r, checkedOut);
      QuietKeepsGuarded(w, p, NoPublishStep(r, checkedOut));
    }
  }

  lemma WipKeepsInv(w: World, wip: map<TaskId, Commit>)
    requires Inv(w)
    ensures Inv(w.(wip := wip))
  {
    var w' := w.(wip := wip);
    WipKeepsConsistent(w, wip);
    forall p, q | p in w'.runs && q in w'.runs ensures GuardOk(w', p, w'.runs[p], q, w'.runs[q]) {
      GuardAt(w, p, q);
    }
    forall entry | entry in w'.log ensures Secured(w', entry.task, entry.commit) {
      SecuredAt(w, entry);
    }
  }

  lemma DeleteWipKeepsInv(w: World, p: Token)
    requires Inv(w) && p in w.runs && w.runs[p].phase.DeleteWip?
    ensures Inv(DeleteWipStep(w, p, w.runs[p]))
  {
    RunAt(w, p);
    EndQuiet(w, p, w.runs[p], ReleaseLock);
    QuietKeepsInv(w, p, Goto(w.runs[p], ReleaseLock));
    WipKeepsInv(SetRun(w, p, Goto(w.runs[p], ReleaseLock)), DeleteWipStep(w, p, w.runs[p]).wip);
  }

  lemma ActKeepsInv(w: World, p: Token, input: Input)
    requires Inv(w) && p in w.runs
    requires PrecheckFails(w, Act(p, input)) ==> CancelHarmless(w, p, w.runs[p])
    ensures Inv(ActRun(w, p, input))
  {
    ActIs(w, p, input);
    if IsLocal(w.runs[p].phase) { LocalStepKeepsInv(w, p, input); } else { RefStepKeepsInv(w, p, input); }
  }

  lemma RefStepKeepsInv(w: World, p: Token, input: Input)
    requires Inv(w) && p in w.runs && !IsLocal(w.runs[p].phase)
    requires PrecheckFails(w, Act(p, input)) ==> CancelHarmless(w, p, w.runs[p])
    ensures Inv(ActRun(w, p, input))
  {
    ActIs(w, p, input);
    if w.runs[p].phase.SwapLock? { SwapLockKeepsInv(w, p); }
    if w.runs[p].phase.PublishRef? { PublishKeepsInv(w, p, input.checkedOut); }
    if w.runs[p].phase.DeleteWip? { DeleteWipKeepsInv(w, p); }
    if w.runs[p].phase.ReleaseLock? { ReleaseLockKeepsInv(w, p); }
  }

  // ---------------------------------------------------------------------------------------------
  // Steps on the board
  // ---------------------------------------------------------------------------------------------

  /** Only a done task, or one nobody publishes, may end up without a reservation. */
  lemma TaskFreedKeepsGuarded(w: World, t: TaskId, task: Task)
    requires Inv(w) && TaskFreed(w, t, task) && (task.state.Done? || Unpublished(w, t))
    ensures Guarded(w.(tasks := w.tasks[t := task]))
  {
    var w' := w.(tasks := w.tasks[t := task]);
    forall p, q | p in w'.runs && q in w'.runs ensures GuardOk(w', p, w'.runs[p], q, w'.runs[q]) {
      GuardAt(w, p, q);
    }
    forall entry | entry in w'.log ensures Secured(w', entry.task, entry.commit) {
      SecuredAt(w, entry);
    }
  }

  lemma TaskFreedKeepsInv(w: World, t: TaskId, task: Task)
    requires Inv(w) && TaskFreed(w, t, task) && (task.state.Done? || Unpublished(w, t))
    ensures Inv(w.(tasks := w.tasks[t := task]))
  {
    TaskFreedKeepsConsistent(w, t, task);
    TaskFreedKeepsGuarded(w, t, task);
  }

  /** Neither reserved nor done: then nothing of the task was ever published. */
  lemma FreeIsUnpublished(w: World, t: TaskId)
    requires Inv(w) && t in w.tasks && w.tasks[t].landing.None? && !w.tasks[t].state.Done?
    ensures Unpublished(w, t)
  {
    forall entry | entry in w.log ensures entry.task != t {
      SecuredAt(w, entry);
    }
    forall p | p in w.runs && w.runs[p].task == t ensures !IsPublisher(w, p, w.runs[p]) {
      GuardAt(w, p, p);
    }
  }

  lemma TransitionKeepsInv(w: World, t: TaskId, to: TaskState)
    requires Inv(w) && t in w.tasks
    ensures Inv(UpdateTask(w, t, Transition(w.tasks[t], to)))
  {
    TaskAt(w, t);
    if Transition(w.tasks[t], to).Ok? {
      TransitionFrees(w, t, to);
      FreeIsUnpublished(w, t);
      TaskFreedKeepsInv(w, t, Transition(w.tasks[t], to).value);
    }
  }

  lemma SubmitKeepsInv(w: World, t: TaskId, links: seq<Link>)
    requires Inv(w) && t in w.tasks
    ensures Inv(UpdateTask(w, t, Submit(w.tasks[t], links)))
  {
    TaskAt(w, t);
    if Submit(w.tasks[t], links).Ok? {
      SubmitFrees(w, t, links);
      FreeIsUnpublished(w, t);
      TaskFreedKeepsInv(w, t, Submit(w.tasks[t], links).value);
    }
  }

  lemma ConvergeKeepsInv(w: World, t: TaskId)
    requires Inv(w) && t in w.tasks
    ensures Inv(UpdateTask(w, t, ConvergeMerged(w.tasks[t])))
  {
    TaskAt(w, t);
    if ConvergeMerged(w.tasks[t]).Ok? {
      ConvergeFrees(w, t);
      TaskFreedKeepsInv(w, t, ConvergeMerged(w.tasks[t]).value);
    }
  }

  lemma DeliveredKeepsInv(w: World, p: Token, call: Call, ok: bool, heard: bool)
    requires Inv(w) && p in w.runs && w.runs[p].flight == Some(call) && !(call.BeginCall? && ok)
    ensures Inv(SetRun(w, p, Delivered(w.runs[p], call, ok, heard)))
  {
    DeliveredKeepsConsistent(w, p, call, ok, heard);
    QuietKeepsGuarded(w, p, Delivered(w.runs[p], call, ok, heard));
  }

  lemma CompleteKeepsInv(w: World, p: Token, heard: bool)
    requires Inv(w) && p in w.runs && w.runs[p].flight == Some(CompleteCall)
    requires w.runs[p].task in w.tasks && CompleteLanding(w.tasks[w.runs[p].task], p).Ok?
    ensures Inv(CompletedWorld(w, p, heard))
  {
    var r := w.runs[p];
    RunAt(w, p);
    TaskAt(w, r.task);
    CompleteFrees(w, p, r);
    DeliveredKeepsInv(w, p, CompleteCall, true, heard);
    TaskFreedKeepsInv(SetRun(w, p, Delivered(r, CompleteCall, true, heard)), r.task, CompleteLanding(w.tasks[r.task], p).value);
  }

  /** A cancel that takes effect is for work that never reached the branch, and no longer can. */
  lemma CancelledIsUnpublished(w: World, p: Token)
    requires Inv(w) && p in w.runs && w.runs[p].flight == Some(CancelCall) && NamesOwner(w, p, w.runs[p])
    ensures Unpublished(w, w.runs[p].task)
  {
    var t := w.runs[p].task;
    GuardAt(w, p, p);
    TaskAt(w, t);
    forall entry | entry in w.log ensures entry.task != t {
      SecuredAt(w, entry);
    }
    forall q | q in w.runs && w.runs[q].task == t ensures !IsPublisher(w, q, w.runs[q]) {
      GuardAt(w, p, q);
    }
  }

  lemma CancelFrees(w: World, p: Token, r: Run, w1: World, heard: bool)
    requires Inv(w) && p in w.runs && w.runs[p] == r && r.flight == Some(CancelCall) && NamesOwner(w, p, r)
    requires w1 == SetRun(w, p, Delivered(r, CancelCall, true, heard))
    ensures Unpublished(w1, r.task) && TaskFreed(w1, r.task, CancelLanding(w.tasks[r.task], NamedAttempt(r, p)).value)
  {
    CancelledIsUnpublished(w, p);
    TaskAt(w, r.task);
    RunAt(w, p);
    DeliveredQuiet(w, p, r, CancelCall, true, heard);
    assert IsPublisher(w1, p, w1.runs[p]) ==> IsPublisher(w, p, r);
  }

  lemma CancelKeepsInv(w: World, p: Token, heard: bool)
    requires Inv(w) && p in w.runs && w.runs[p].flight == Some(CancelCall)
    requires w.runs[p].task in w.tasks && CancelLanding(w.tasks[w.runs[p].task], NamedAttempt(w.runs[p], p)).Ok?
    ensures Inv(CancelledWorld(w, p, heard))
  {
    var r := w.runs[p];
    var w1 := SetRun(w, p, Delivered(r, CancelCall, true, heard));
    DeliveredKeepsInv(w, p, CancelCall, true, heard);
    if w.tasks[r.task].landing.Some? {
      CancelFrees(w, p, r, w1, heard);
      TaskFreedKeepsInv(w1, r.task, CancelLanding(w.tasks[r.task], NamedAttempt(r, p)).value);
    } else {
      assert w.tasks[r.task := w.tasks[r.task]] == w.tasks;
    }
  }

  // BeginLanding

  lemma SecuredStays(w: World, p: Token, r: Run, heard: bool, t: TaskId, commit: Commit)
    requires BeginAccepted(w, p, r) && Secured(w, t, commit)
    ensures Secured(BegunWorld(w, p, r, heard), t, commit)
  {
    BegunTaskIs(w, p, r);
  }

  /** Every other run that may cancel names an attempt that began before this one. */
  lemma BegunDisownsCancels(w: World, p: Token, r: Run, heard: bool, c: Token, s: Run)
    requires BeginAccepted(w, p, r) && RunOk(w, p, r) && p in w.runs && w.runs[p] == r
    requires RunOk(w, c, s) && c in w.runs && w.runs[c] == s && Canceller(s) && s.task == r.task
    ensures !NamesOwner(BegunWorld(w, p, r, heard), c, s)
  {
    BegunTaskIs(w, p, r);
  }

  lemma BegunFenced(w: World, p: Token, r: Run, heard: bool, c: Token, s: Run, q: Token, u: Run)
    requires BeginAccepted(w, p, r) && RunOk(w, p, r) && p in w.runs && w.runs[p] == r
    requires RunOk(w, c, s) && CancelOk(w, c, s) && c in w.runs && w.runs[c] == s && Canceller(s)
    requires u.task == s.task && s.task != r.task ==> Fenced(w, c, s, q, u)
    ensures Fenced(BegunWorld(w, p, r, heard), c, s, q, u)
    ensures CancelOk(BegunWorld(w, p, r, heard), c, s)
  {
    if s.task == r.task {
      BegunDisownsCancels(w, p, r, heard, c, s);
    }
  }

  lemma BegunPublisherOk(w: World, p: Token, r: Run, heard: bool, q: Token)
    requires Inv(w) && p in w.runs && w.runs[p] == r && BeginAccepted(w, p, r) && q in w.runs
    ensures var w' := BegunWorld(w, p, r, heard); PublisherOk(w', q, w'.runs[q])
  {
    BegunTaskIs(w, p, r);
    if q != p {
      GuardAt(w, q, q);
      if IsPublisher(w, q, w.runs[q]) { SecuredStays(w, p, r, heard, w.runs[q].task, w.runs[q].plan.value.source); }
    }
  }

  lemma BeginKeepsGuarded(w: World, p: Token, r: Run, heard: bool)
    requires Inv(w) && p in w.runs && w.runs[p] == r && BeginAccepted(w, p, r)
    ensures Guarded(BegunWorld(w, p, r, heard))
  {
    var w' := BegunWorld(w, p, r, heard);
    RunAt(w, p);
    BegunShape(w, p, r, heard);
    forall c, q | c in w'.runs && q in w'.runs ensures GuardOk(w', c, w'.runs[c], q, w'.runs[q]) {
      BegunPublisherOk(w, p, r, heard, c);
      if Canceller(w'.runs[c]) {
        RunAt(w, c);
        GuardAt(w, c, q);
        BegunFenced(w, p, r, heard, c, w.runs[c], q, w'.runs[q]);
      }
    }
    forall entry | entry in w'.log ensures Secured(w', entry.task, entry.commit) {
      SecuredAt(w, entry);
      SecuredStays(w, p, r, heard, entry.task, entry.commit);
    }
  }

  lemma BeginKeepsInv(w: World, p: Token, heard: bool)
    requires Inv(w) && p in w.runs && BeginAccepted(w, p, w.runs[p])
    ensures Inv(BegunWorld(w, p, w.runs[p], heard))
  {
    BeginKeepsConsistent(w, p, heard);
    BeginKeepsGuarded(w, p, w.runs[p], heard);
  }

  lemma AnsweredKeepsInv(w: World, p: Token, call: Call, heard: bool)
    requires Inv(w) && p in w.runs && w.runs[p].flight == Some(call) && w.runs[p].task in w.tasks
    requires BoardAnswer(w, p, call).Ok?
    ensures var r := w.runs[p];
      Inv(SetRun(w.(tasks := w.tasks[r.task := BoardAnswer(w, p, call).value]), p, Delivered(r, call, true, heard)))
  {
    match call
    case BeginCall => BeginKeepsInv(w, p, heard);
    case CompleteCall => CompleteKeepsInv(w, p, heard);
    case CancelCall => CancelKeepsInv(w, p, heard);
  }

  lemma DeliverKeepsInv(w: World, p: Token, call: Call, fate: Fate)
    requires Inv(w)
    ensures Inv(DeliverCall(w, p, call, fate))
  {
    if p in w.runs && w.runs[p].flight == Some(call) && w.runs[p].task in w.tasks {
      if fate.Failed? || BoardAnswer(w, p, call).Err? {
        DeliveredKeepsInv(w, p, call, false, !fate.Unheard?);
      } else {
        AnsweredKeepsInv(w, p, call, !fate.Unheard?);
      }
    }
  }
}
