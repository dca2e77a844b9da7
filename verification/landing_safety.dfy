/** What the landing protocol guarantees in every interleaving. */
module LandingSafety {
  import opened Wrappers
  import opened Commits
  import opened Landing
  import opened LandingInvariant
  import opened LandingSteps
  import opened LandingBoard
  import opened LandingFence

  // ---------------------------------------------------------------------------------------------
  // Every reachable state is consistent
  // ---------------------------------------------------------------------------------------------

  lemma NewRunKeeps(w: World, p: Token, s: Run, q: Token, r: Run)
    requires p !in w.runs && RunOk(w, q, r)
    ensures RunOk(SetRun(w, p, s), q, r)
  {
  }

  lemma NewRunKeepsConsistent(w: World, p: Token, r: Run)
    requires Consistent(w) && p !in w.runs && RunOk(w, p, r)
    ensures Consistent(SetRun(w, p, r))
  {
    var w' := SetRun(w, p, r);
    forall x | x in w'.tasks ensures TaskOk(w', x, w'.tasks[x]) { TaskAt(w, x); }
    forall entry | entry in w'.log ensures Placed(w', entry) { PlacedAt(w, entry); }
    forall q | q in w'.runs ensures RunOk(w', q, w'.runs[q]) {
      if q != p { RunAt(w, q); }
      NewRunKeeps(w, p, r, q, w'.runs[q]);
    }
  }

  lemma NewRunOk(w: World, p: Token, t: TaskId, r: Run)
    requires LocksOk(w) && p !in w.runs && t in w.tasks && TaskOk(w, t, w.tasks[t])
    requires r.task == t && r.seen == w.tasks[t] && !r.locked && !r.begun && r.flight.None? && r.plan.None?
    requires r.phase.Ended? || (r.phase.ReadLock? && (r.kind.Cancel? ==> r.seen.landing.Some?)) || (r.phase.FindWip? && r.kind.LandDone?)
    requires r.kind.LandDone? ==> w.tasks[t].state.Done?
    ensures RunOk(w, p, r) && !Canceller(r) && !MayPublish(r.phase)
  {
  }

  lemma StartedRunOk(w: World, p: Token, t: TaskId, cancelLanding: bool, expires: int)
    requires Consistent(w) && p !in w.runs && t in w.tasks
    ensures var r := NewRun(t, w.tasks[t], cancelLanding, expires);
      RunOk(w, p, r) && !Canceller(r) && !MayPublish(r.phase)
  {
    TaskAt(w, t);
    NewRunOk(w, p, t, NewRun(t, w.tasks[t], cancelLanding, expires));
  }

  lemma StoppedRun(w: World, p: Token)
    requires Consistent(w) && p in w.runs
    ensures var r := w.runs[p];
      GiveUpWaiting(w, p) == w || exists s :: GiveUpWaiting(w, p) == SetRun(w, p, s) && RunOk(w, p, s) && Quiet(w, p, r, s)
    ensures RunOk(w, p, Goto(w.runs[p], Ended)) && Quiet(w, p, w.runs[p], Goto(w.runs[p], Ended))
  {
    var r := w.runs[p];
    RunAt(w, p);
    EndQuiet(w, p, r, Ended);
    GiveUpQuiet(w, p, r);
    if !r.phase.Ended? { EndQuiet(w, p, r, ReleaseLock); }
    match r.phase
    case AwaitBegin => assert GiveUpWaiting(w, p) == SetRun(w, p, Goto(r, AskBegin));
    case AwaitComplete => assert GiveUpWaiting(w, p) == SetRun(w, p, Goto(r, AskComplete));
    case AwaitCancel => assert GiveUpWaiting(w, p) == SetRun(w, p, Goto(r, ReleaseLock));
    case _ =>
  }

  lemma StopKeepsConsistent(w: World, p: Token)
    requires Consistent(w) && p in w.runs
    ensures Consistent(GiveUpWaiting(w, p)) && Consistent(SetRun(w, p, Goto(w.runs[p], Ended)))
  {
    StoppedRun(w, p);
    LocalKeepsConsistent(w, p, Goto(w.runs[p], Ended));
    if GiveUpWaiting(w, p) != w {
      var s :| GiveUpWaiting(w, p) == SetRun(w, p, s) && RunOk(w, p, s) && Quiet(w, p, w.runs[p], s);
      LocalKeepsConsistent(w, p, s);
    }
  }

  /** Every event keeps the world consistent, whatever it finds. */
  lemma NextKeepsConsistent(w: World, e: Event)
    requires Consistent(w)
    ensures Consistent(Next(w, e))
  {
    match e
    case Start(p, t, cancelLanding, expires) =>
      if p !in w.runs && t in w.tasks {
        StartedRunOk(w, p, t, cancelLanding, expires);
        NewRunKeepsConsistent(w, p, NewRun(t, w.tasks[t], cancelLanding, expires));
      }
    case Act(p, input) => if p in w.runs { ActKeepsConsistent(w, p, input); }
    case Deliver(p, call, fate) => DeliverKeepsConsistent(w, p, call, fate);
    case GiveUp(p) => if p in w.runs { StopKeepsConsistent(w, p); }
    case Crash(p) => if p in w.runs { StopKeepsConsistent(w, p); }
    case Board(t, to) => if t in w.tasks { TransitionKeepsConsistent(w, t, to); }
    case Resubmit(t, links) => if t in w.tasks { SubmitKeepsConsistent(w, t, links); }
    case Merged(t) => if t in w.tasks { ConvergeKeepsConsistent(w, t); }
    case MoveWip(t, tip) => WipKeepsConsistent(w, Next(w, e).wip);
    case Advance(slug, head) =>
      if slug in w.branch ==> IsAncestor(w.branch[slug], head) { BranchGrowsKeepsConsistent(w, slug, head); }
  }

  lemma {:induction false} PlayKeepsConsistent(w: World, events: seq<Event>)
    requires Consistent(w)
    ensures Consistent(Play(w, events))
    decreases |events|
  {
    if events != [] {
      NextKeepsConsistent(w, events[0]);
      PlayKeepsConsistent(Next(w, events[0]), events[1..]);
    }
  }

  lemma InitialInv(w: World)
    requires Initial(w)
    ensures Inv(w)
  {
  }

  /** Some interleaving leads here, with crashes anywhere and clocks reading anything. */
  ghost predicate Reachable(w: World) {
    exists start: World, events: seq<Event> :: Initial(start) && w == Play(start, events)
  }

  lemma ReachableIsConsistent(w: World)
    requires Reachable(w)
    ensures Consistent(w)
  {
    var start: World, events: seq<Event> :| Initial(start) && w == Play(start, events);
    InitialInv(start);
    PlayKeepsConsistent(start, events);
  }

  // ---------------------------------------------------------------------------------------------
  // Published work stays guarded, as long as no precheck fails harmfully
  // ---------------------------------------------------------------------------------------------

  /** Every failure of the precheck finds a reservation that may be given back. */
  predicate PrechecksHarmless(w: World, events: seq<Event>)
    decreases |events|
  {
    events != [] ==>
      (PrecheckFails(w, events[0]) ==> CancelHarmless(w, events[0].token, w.runs[events[0].token])) &&
      PrechecksHarmless(Next(w, events[0]), events[1..])
  }

  lemma NewRunKeepsGuarded(w: World, p: Token, r: Run)
    requires Guarded(w) && p !in w.runs && RunOk(w, p, r) && !Canceller(r) && !MayPublish(r.phase)
    ensures Guarded(SetRun(w, p, r))
  {
    LocalKeepsGuarded(w, p, r);
  }

  lemma StopKeepsInv(w: World, p: Token)
    requires Inv(w) && p in w.runs
    ensures Inv(GiveUpWaiting(w, p)) && Inv(SetRun(w, p, Goto(w.runs[p], Ended)))
  {
    StoppedRun(w, p);
    QuietKeepsInv(w, p, Goto(w.runs[p], Ended));
    if GiveUpWaiting(w, p) != w {
      var s :| GiveUpWaiting(w, p) == SetRun(w, p, s) && RunOk(w, p, s) && Quiet(w, p, w.runs[p], s);
      QuietKeepsInv(w, p, s);
    }
  }

  lemma NextKeepsInv(w: World, e: Event)
    requires Inv(w) && (PrecheckFails(w, e) ==> CancelHarmless(w, e.token, w.runs[e.token]))
    ensures Inv(Next(w, e))
  {
    match e
    case Start(p, t, cancelLanding, expires) =>
      if p !in w.runs && t in w.tasks {
        StartedRunOk(w, p, t, cancelLanding, expires);
        NewRunKeepsConsistent(w, p, NewRun(t, w.tasks[t], cancelLanding, expires));
        NewRunKeepsGuarded(w, p, NewRun(t, w.tasks[t], cancelLanding, expires));
      }
    case Act(p, input) => if p in w.runs { ActKeepsInv(w, p, input); }
    case Deliver(p, call, fate) => DeliverKeepsInv(w, p, call, fate);
    case GiveUp(p) => if p in w.runs { StopKeepsInv(w, p); }
    case Crash(p) => if p in w.runs { StopKeepsInv(w, p); }
    case Board(t, to) => if t in w.tasks { TransitionKeepsInv(w, t, to); }
    case Resubmit(t, links) => if t in w.tasks { SubmitKeepsInv(w, t, links); }
    case Merged(t) => if t in w.tasks { ConvergeKeepsInv(w, t); }
    case MoveWip(t, tip) => WipKeepsInv(w, Next(w, e).wip);
    case Advance(slug, head) =>
      if slug in w.branch ==> IsAncestor(w.branch[slug], head) { AdvanceKeepsInv(w, slug, head); }
  }

  lemma {:induction false} PlayKeepsInv(w: World, events: seq<Event>)
    requires Inv(w) && PrechecksHarmless(w, events)
    ensures Inv(Play(w, events))
    decreases |events|
  {
    if events != [] {
      NextKeepsInv(w, events[0]);
      PlayKeepsInv(Next(w, events[0]), events[1..]);
    }
  }

  // ---------------------------------------------------------------------------------------------
  // The guarantees
  // ---------------------------------------------------------------------------------------------

  /** Once Publish has put a task's commit on its branch, the commit stays there and the task is
      reserved for landing it, or done: no transition can reject it. */
  lemma PublishedIsProtected(w: World, events: seq<Event>, entry: Landed, to: TaskState)
    requires Initial(w) && PrechecksHarmless(w, events) && entry in Play(w, events).log
    ensures Protected(Play(w, events), entry)
    ensures Transition(Play(w, events).tasks[entry.task], to).Err?
  {
    InitialInv(w);
    PlayKeepsInv(w, events);
    LogAt(Play(w, events), entry);
    TaskAt(Play(w, events), entry.task);
  }

  /** Whatever happens, a commit Publish put on its task's branch is there in every later state. */
  lemma PublishedStaysOnBranch(w: World, events: seq<Event>, later: seq<Event>, entry: Landed)
    requires Initial(w) && entry in Play(w, events).log
    ensures entry in Play(w, events + later).log && Placed(Play(w, events + later), entry)
  {
    InitialInv(w);
    PlayKeepsConsistent(w, events + later);
    PlayAppend(w, events, later);
    LogGrows(Play(w, events), later);
    PlacedAt(Play(w, events + later), entry);
  }

  lemma ActLogGrows(w: World, p: Token, input: Input)
    ensures w.log <= ActRun(w, p, input).log
  {
  }

  lemma {:induction false} LogGrows(w: World, events: seq<Event>)
    ensures w.log <= Play(w, events).log
    decreases |events|
  {
    if events != [] {
      match events[0] {
        case Act(p, input) => ActLogGrows(w, p, input);
        case _ =>
      }
      LogGrows(Next(w, events[0]), events[1..]);
    }
  }

  /** No commit of a task is ever published twice, however often its approve is interrupted. */
  lemma PublishedOnce(w: World, events: seq<Event>)
    requires Initial(w)
    ensures forall i, j :: 0 <= i < j < |Play(w, events).log| ==> Play(w, events).log[i] != Play(w, events).log[j]
  {
    InitialInv(w);
    PlayKeepsConsistent(w, events);
  }

  lemma {:induction false} PlayAppend(w: World, first: seq<Event>, rest: seq<Event>)
    ensures Play(w, first + rest) == Play(Play(w, first), rest)
    decreases |first|
  {
    if first == [] {
      assert first + rest == rest;
    } else {
      assert (first + rest)[1..] == first[1..] + rest;
      PlayAppend(Next(w, first[0]), first[1..], rest);
    }
  }

  lemma {:induction false} HarmlessAppend(w: World, first: seq<Event>, rest: seq<Event>)
    requires PrechecksHarmless(w, first + rest)
    ensures PrechecksHarmless(w, first) && PrechecksHarmless(Play(w, first), rest)
    decreases |first|
  {
    if first == [] {
      assert first + rest == rest;
    } else {
      assert (first + rest)[1..] == first[1..] + rest;
      HarmlessAppend(Next(w, first[0]), first[1..], rest);
    }
  }

  lemma BoardKeepsDone(task: Task)
    requires task.state.Done?
    ensures forall to :: Transition(task, to).Err?
    ensures forall links :: Submit(task, links).Err?
    ensures ConvergeMerged(task).Err?
    ensures forall attempt :: CompleteLanding(task, attempt).Err?
    ensures forall round, commit, attempt :: BeginLanding(task, round, commit, attempt).Err?
    ensures task.landing.None? ==> forall attempt :: CancelLanding(task, attempt) == Ok(task)
  {
  }

  lemma ActKeepsTasks(w: World, p: Token, input: Input)
    ensures ActRun(w, p, input).tasks == w.tasks
  {
    if p in w.runs {
      var r := w.runs[p];
      match r.phase
      case SwapLock => assert SwapLockStep(w, p, r).tasks == w.tasks;
      case PublishRef => assert PublishStep(w, p, r, input.checkedOut).tasks == w.tasks;
      case DeleteWip => assert DeleteWipStep(w, p, r).tasks == w.tasks;
      case ReleaseLock => assert ReleaseLockStep(w, p, r).tasks == w.tasks;
      case _ => var s := LocalStep(w, p, r, input); assert ActRun(w, p, input) == SetRun(w, p, s);
    }
  }

  lemma LandedStaysAfter(w: World, e: Event, t: TaskId)
    requires t in w.tasks && w.tasks[t].state.Done? && w.tasks[t].landing.None?
    ensures t in Next(w, e).tasks && Next(w, e).tasks[t] == w.tasks[t]
  {
    BoardKeepsDone(w.tasks[t]);
    match e
    case Act(p, input) => ActKeepsTasks(w, p, input);
    case _ =>
  }

  lemma {:induction false} LandedStays(w: World, events: seq<Event>, t: TaskId)
    requires Reachable(w) && t in w.tasks && w.tasks[t].landed.Some?
    ensures t in Play(w, events).tasks && Play(w, events).tasks[t] == w.tasks[t]
  {
    ReachableIsConsistent(w);
    TaskAt(w, t);
    DoneTaskStays(w, events, t);
  }

  lemma {:induction false} DoneTaskStays(w: World, events: seq<Event>, t: TaskId)
    requires t in w.tasks && w.tasks[t].state.Done? && w.tasks[t].landing.None?
    ensures t in Play(w, events).tasks && Play(w, events).tasks[t] == w.tasks[t]
    decreases |events|
  {
    if events != [] {
      LandedStaysAfter(w, events[0], t);
      DoneTaskStays(Next(w, events[0]), events[1..], t);
    }
  }

  /** A task that CompleteLanding marked done has the commit its reserved round submitted on its
      branch, then and in every later state. */
  lemma LandedWorkStaysOnBranch(w: World, events: seq<Event>, later: seq<Event>, t: TaskId)
    requires Initial(w) && t in Play(w, events).tasks && Play(w, events).tasks[t].landed.Some?
    ensures var task := Play(w, events).tasks[t];
      var held := task.landed.value;
      task.state.Done? && 1 <= held.round == |task.rounds| &&
      held.commit in CommitLinks(task.rounds[held.round - 1]) &&
      OnBranch(Play(w, events), task.slug, held.commit) &&
      OnBranch(Play(w, events + later), task.slug, held.commit)
  {
    InitialInv(w);
    PlayKeepsConsistent(w, events);
    TaskAt(Play(w, events), t);
    DoneTaskStays(Play(w, events), later, t);
    PlayAppend(w, events, later);
    PlayKeepsConsistent(w, events + later);
    TaskAt(Play(w, events + later), t);
  }

  lemma BranchFrame(w: World, e: Event)
    requires !e.Advance? && Next(w, e).branch != w.branch
    ensures e.Act? && e.token in w.runs && IsPublisher(w, e.token, w.runs[e.token])
    ensures var r := w.runs[e.token];
      Next(w, e).branch == w.branch[r.seen.slug := r.plan.value.commit] &&
      Next(w, e).log == w.log + [Landed(r.task, r.plan.value.source)]
  {
    match e
    case Act(p, input) => if p in w.runs { ActBranchFrame(w, p, input); }
    case _ =>
  }

  lemma ActBranchFrame(w: World, p: Token, input: Input)
    requires p in w.runs && ActRun(w, p, input).branch != w.branch
    ensures w.runs[p].phase.PublishRef? && ActRun(w, p, input) == PublishStep(w, p, w.runs[p], input.checkedOut)
  {
  }

  /** Apart from other people's commits on top of it, only a Publish moves a branch: while the lock
      ref names its run, to a descendant of the tip that contains the run's commit. */
  lemma OnlyTheLockHolderMovesABranch(w: World, e: Event, slug: Slug)
    requires Reachable(w) && !e.Advance? && slug in Next(w, e).branch
    requires slug !in w.branch || Next(w, e).branch[slug] != w.branch[slug]
    ensures e.Act? && e.token in w.runs && w.runs[e.token].phase.PublishRef? && w.runs[e.token].seen.slug == slug
    ensures slug in w.lock && w.lock[slug].owner == e.token
    ensures slug in w.branch ==> IsAncestor(w.branch[slug], Next(w, e).branch[slug])
    ensures w.runs[e.token].plan.Some? && OnBranch(Next(w, e), slug, w.runs[e.token].plan.value.source)
    ensures Next(w, e).log == w.log + [Landed(w.runs[e.token].task, w.runs[e.token].plan.value.source)]
  {
    ReachableIsConsistent(w);
    BranchFrame(w, e);
    RunAt(w, e.token);
  }

  lemma ActWipFrame(w: World, p: Token, input: Input)
    requires p in w.runs
    ensures if w.runs[p].phase.DeleteWip? then ActRun(w, p, input) == DeleteWipStep(w, p, w.runs[p])
            else ActRun(w, p, input).wip == w.wip
  {
  }

  lemma WipFrame(w: World, e: Event)
    requires !e.MoveWip? && Next(w, e).wip != w.wip
    ensures e.Act? && e.token in w.runs && w.runs[e.token].phase.DeleteWip?
    ensures var r := w.runs[e.token]; Next(w, e).wip == w.wip - {r.task} && r.task in w.wip && r.source == Some(w.wip[r.task])
  {
    match e
    case Act(p, input) => if p in w.runs { ActWipFrame(w, p, input); }
    case _ =>
  }

  /** Cleanup never loses work: a run deletes wip only when its commit is on the branch. */
  lemma CleanupKeepsWork(w: World, e: Event, t: TaskId)
    requires Reachable(w) && !e.MoveWip? && t in w.wip && t !in Next(w, e).wip
    ensures t in w.tasks && OnBranch(w, w.tasks[t].slug, w.wip[t])
  {
    ReachableIsConsistent(w);
    WipFrame(w, e);
    RunAt(w, e.token);
  }
}
