/** What one access of a run does to its own program counter, and what everybody else leaves of it. */
module LandingProgress {
  import opened Wrappers
  import opened Commits
  import opened Landing
  import LandingSafety

  /** What may happen while run p is between two of its accesses: anything that is not p's own doing.
      A call p has stopped waiting for may still arrive. */
  predicate Elsewhere(e: Event, p: Token) {
    match e
    case Start(q, _, _, _) => q != p
    case Act(q, _) => q != p
    case Deliver(q, _, fate) => q != p || fate.Unheard?
    case GiveUp(q) => q != p
    case Crash(q) => q != p
    case _ => true
  }

  function Foreign(events: seq<Event>, p: Token): (r: seq<Event>)
    ensures forall e :: e in r ==> Elsewhere(e, p)
  {
    if events == [] then []
    else (if Elsewhere(events[0], p) then [events[0]] else []) + Foreign(events[1..], p)
  }

  /** Where a run stands, whatever became of the call it has in flight. */
  predicate SameProgress(r: Run, s: Run) {
    s == r.(flight := s.flight, begun := s.begun)
  }

  lemma ActKeepsOthers(w: World, q: Token, input: Input, p: Token)
    requires p in w.runs && q != p
    ensures p in ActRun(w, q, input).runs && ActRun(w, q, input).runs[p] == w.runs[p]
  {
    if q in w.runs {
      match w.runs[q].phase
      case SwapLock =>
      case PublishRef =>
      case DeleteWip =>
      case ReleaseLock =>
      case _ => assert ActRun(w, q, input) == SetRun(w, q, LocalStep(w, q, w.runs[q], input));
    }
  }

  lemma DeliverKeepsOthers(w: World, q: Token, call: Call, fate: Fate, p: Token)
    requires p in w.runs && (q != p || fate.Unheard?)
    ensures p in DeliverCall(w, q, call, fate).runs && SameProgress(w.runs[p], DeliverCall(w, q, call, fate).runs[p])
  {
  }

  lemma OwnMovesKeepOthers(w: World, e: Event, p: Token)
    requires p in w.runs && (e.Start? || e.GiveUp? || e.Crash?) && e.token != p
    ensures p in Next(w, e).runs && Next(w, e).runs[p] == w.runs[p]
  {
    match e
    case Start(q, t, cancelLanding, expires) =>
    case GiveUp(q) =>
    case Crash(q) =>
  }

  lemma ElsewhereKeepsRun(w: World, e: Event, p: Token)
    requires p in w.runs && Elsewhere(e, p)
    ensures p in Next(w, e).runs && SameProgress(w.runs[p], Next(w, e).runs[p])
  {
    match e
    case Start(_, _, _, _) => OwnMovesKeepOthers(w, e, p);
    case GiveUp(_) => OwnMovesKeepOthers(w, e, p);
    case Crash(_) => OwnMovesKeepOthers(w, e, p);
    case Act(q, input) => ActKeepsOthers(w, q, input, p);
    case Deliver(q, call, fate) => DeliverKeepsOthers(w, q, call, fate, p);
    case _ => assert Next(w, e).runs == w.runs;
  }

  lemma {:induction false} PlayElsewhere(w: World, events: seq<Event>, p: Token)
    requires p in w.runs && forall e :: e in events ==> Elsewhere(e, p)
    ensures p in Play(w, events).runs && SameProgress(w.runs[p], Play(w, events).runs[p])
    decreases |events|
  {
    if events != [] {
      assert events[0] in events;
      ElsewhereKeepsRun(w, events[0], p);
      PlayElsewhere(Next(w, events[0]), events[1..], p);
    }
  }

  /** A done task stays done. */
  lemma DoneStaysAfter(w: World, e: Event, t: TaskId)
    requires t in w.tasks && w.tasks[t].state.Done?
    ensures t in Next(w, e).tasks && Next(w, e).tasks[t].state.Done?
  {
    if e.Act? {
      LandingSafety.ActKeepsTasks(w, e.token, e.input);
    }
  }

  lemma {:induction false} DoneStays(w: World, events: seq<Event>, t: TaskId)
    requires t in w.tasks && w.tasks[t].state.Done?
    ensures t in Play(w, events).tasks && Play(w, events).tasks[t].state.Done?
    decreases |events|
  {
    if events != [] {
      DoneStaysAfter(w, events[0], t);
      DoneStays(Next(w, events[0]), events[1..], t);
    }
  }

  /** Everything a run does not decide, by the tick of its clock: what the others do before its next
      access, what that access finds, and whether and how a call is answered. */
  datatype Surroundings = Surroundings(
    others: nat -> seq<Event>, inputs: nat -> Input, answered: nat -> bool, fails: nat -> bool)

  /** Nobody else moves, every access finds the same, and every call is answered. */
  ghost predicate Undisturbed(around: Surroundings) {
    forall i :: around.others(i) == [] && around.inputs(i) == around.inputs(0) && around.answered(i) && !around.fails(i)
  }

  datatype Answer = Granted | Refused | NoAnswer

  datatype Published = Moved | LockLost | NotMoved

  datatype Outcome = NothingToDo | Dropped | NotLocked | NotLanded | ReservationLeft | NotMarkedDone | NotCleaned | Finished

  lemma SameGoto(r: Run, s: Run, phase: Phase)
    requires SameProgress(r, s)
    ensures SameProgress(Goto(r, phase), Goto(s, phase))
    ensures forall plan :: SameProgress(r.(phase := phase, plan := plan), s.(phase := phase, plan := plan))
    ensures forall call :: SameProgress(Send(r, call, phase), Send(s, call, phase))
  {
  }

  lemma ReadBranchProgress(w: World, r: Run, s: Run, content: nat, gateFails: bool)
    requires SameProgress(r, s)
    ensures SameProgress(ReadBranchStep(w, r, content, gateFails), ReadBranchStep(w, s, content, gateFails))
  {
    SameGoto(r, s, ReleaseLock);
    SameGoto(r, s, PublishRef);
    if r.source.Some? && r.reviewed == r.source {
      var plan := Integrate(w.branch, r.seen.slug, r.source.value, content, gateFails);
      assert plan == Integrate(w.branch, s.seen.slug, s.source.value, content, gateFails);
    }
  }

  lemma LockProgress(w: World, r: Run, s: Run, now: int)
    requires SameProgress(r, s)
    ensures SameProgress(FindWipStep(w, r), FindWipStep(w, s))
    ensures SameProgress(ReadLockStep(w, r, now), ReadLockStep(w, s, now))
  {
  }

  lemma WipProgress(w: World, r: Run, s: Run, checkedOut: bool, worktreeStuck: bool)
    requires SameProgress(r, s)
    ensures SameProgress(CheckWipStep(w, r), CheckWipStep(w, s))
    ensures SameProgress(ReadWipStep(w, r, checkedOut), ReadWipStep(w, s, checkedOut))
    ensures SameProgress(ReadStaleWipStep(w, r, worktreeStuck), ReadStaleWipStep(w, s, worktreeStuck))
  {
  }

  lemma CheckProgress(w: World, r: Run, s: Run)
    requires SameProgress(r, s)
    ensures SameProgress(CheckReservedStep(w, r), CheckReservedStep(w, s))
    ensures SameProgress(CheckLandedStep(w, r), CheckLandedStep(w, s))
  {
    assert r.seen == s.seen && r.reviewed == s.reviewed;
    SameGoto(r, s, ReleaseLock);
    SameGoto(r, s, AwaitCancel);
    SameGoto(r, s, CheckWip);
  }

  lemma AskBeginProgress(w: World, p: Token, r: Run, s: Run, boardDown: bool)
    requires SameProgress(r, s)
    ensures SameProgress(AskBeginStep(w, p, r, boardDown), AskBeginStep(w, p, s, boardDown))
  {
    SameGoto(r, s, PublishRef);
    SameGoto(r, s, ReleaseLock);
    assert r.plan == s.plan && r.task == s.task && r.seen == s.seen;
  }

  lemma AskProgress(w: World, p: Token, r: Run, s: Run, boardDown: bool)
    requires SameProgress(r, s)
    ensures SameProgress(AskLockStep(w, p, r), AskLockStep(w, p, s))
    ensures SameProgress(AskCompleteStep(w, r, boardDown), AskCompleteStep(w, s, boardDown))
  {
    SameGoto(r, s, ReadStaleWip);
    SameGoto(r, s, ReleaseLock);
    SameGoto(r, s, AwaitCancel);
  }

  lemma LocalProgress(w: World, p: Token, r: Run, s: Run, input: Input)
    requires SameProgress(r, s)
    ensures SameProgress(LocalStep(w, p, r, input), LocalStep(w, p, s, input))
  {
    match r.phase
    case FindWip => LockProgress(w, r, s, input.now);
    case ReadLock => LockProgress(w, r, s, input.now);
    case CheckBranch => CheckProgress(w, r, s);
    case CheckWip => WipProgress(w, r, s, input.checkedOut, input.worktreeStuck);
    case ReadWip => WipProgress(w, r, s, input.checkedOut, input.worktreeStuck);
    case ReadBranch => ReadBranchProgress(w, r, s, input.content, input.gateFails);
    case AskBegin => AskBeginProgress(w, p, r, s, input.boardDown);
    case AskLock => AskProgress(w, p, r, s, input.boardDown);
    case AskComplete => AskProgress(w, p, r, s, input.boardDown);
    case ReadStaleWip => WipProgress(w, r, s, input.checkedOut, input.worktreeStuck);
    case _ =>
  }

  lemma AfterPublishProgress(r: Run, s: Run)
    requires SameProgress(r, s)
    ensures SameProgress(AfterPublish(r), AfterPublish(s))
  {
  }

  lemma NoPublishProgress(r: Run, s: Run, checkedOut: bool)
    requires SameProgress(r, s)
    ensures SameProgress(NoPublishStep(r, checkedOut), NoPublishStep(s, checkedOut))
  {
    SameGoto(r, s, ReleaseLock);
    SameGoto(r, s, AskLock);
    SameGoto(r, s, AwaitCancel);
    AfterPublishProgress(r, s);
    assert r.plan == s.plan && r.kind == s.kind;
  }

  lemma DeliveredProgress(w: World, p: Token, call: Call, fails: bool, r: Run)
    requires p in w.runs && SameProgress(r, w.runs[p]) && Awaits(r.phase, call)
    requires w.runs[p].flight == Some(call) && r.task in w.tasks
    ensures var fate := if fails then Failed else Heard;
      var ok := !fails && BoardAnswer(w, p, call).Ok?;
      var w' := DeliverCall(w, p, call, fate);
      && p in w'.runs && SameProgress(Goto(r, AfterAnswer(r, call, ok)), w'.runs[p])
      && w'.tasks == (if ok then w.tasks[r.task := BoardAnswer(w, p, call).value] else w.tasks)
  {
  }

  /** The transaction as the code writes it is the state machine's step. */
  lemma PublishIs(w: World, p: Token, r: Run, input: Input, ok: bool, w': World)
    requires p in w.runs && w.runs[p] == r && r.phase.PublishRef? && r.plan.Some?
    requires var plan := r.plan.value;
      ok == (plan.kind.AlreadyThere? ||
             (!input.checkedOut && LockRefIs(w, r.seen.slug, Some(p)) && RefIs(w.branch, r.seen.slug, plan.previous)))
    requires var moved := if ok && !r.plan.value.kind.AlreadyThere? then
        w.(branch := w.branch[r.seen.slug := r.plan.value.commit], log := w.log + [Landed(r.task, r.plan.value.source)])
      else w;
      w' == SetRun(moved, p, if ok then AfterPublish(r) else NoPublishStep(r, input.checkedOut))
    ensures w' == ActRun(w, p, input)
  {
  }

  /** So are the others. */
  lemma SwapLockIs(w: World, p: Token, r: Run, expected: Option<Token>, expires: int, input: Input, ok: bool, w': World)
    requires p in w.runs && w.runs[p] == r && r.phase.SwapLock? && r.expected == expected && r.expires == expires
    requires ok == LockRefIs(w, r.seen.slug, expected)
    requires ok ==> w' == SetRun(w, p, r.(phase := if r.kind.Approve? then CheckWip else CheckBranch, locked := true))
      .(lock := w.lock[r.seen.slug := Lock(p, expires)])
    requires !ok ==> w' == SetRun(w, p, if r.tries == 0 then r.(phase := ReadLock, tries := 1) else Goto(r, Ended))
    ensures w' == ActRun(w, p, input)
  {
  }

  lemma DeletionIs(w: World, p: Token, r: Run, landed: Commit, input: Input, w': World)
    requires p in w.runs && w.runs[p] == r && r.phase.DeleteWip? && r.source == Some(landed)
    requires w' == SetRun(w, p, Goto(r, ReleaseLock))
      .(wip := if r.task in w.wip && w.wip[r.task] == landed then w.wip - {r.task} else w.wip)
    ensures w' == ActRun(w, p, input)
  {
  }

  lemma ReleaseIs(w: World, p: Token, r: Run, input: Input, w': World)
    requires p in w.runs && w.runs[p] == r && r.phase.ReleaseLock?
    requires w' == SetRun(w, p, Goto(r, Ended))
      .(lock := if r.seen.slug in w.lock && w.lock[r.seen.slug].owner == p then w.lock - {r.seen.slug} else w.lock)
    ensures w' == ActRun(w, p, input)
  {
  }

  lemma PublishProgress(r: Run, s: Run, ok: bool, checkedOut: bool)
    requires SameProgress(r, s)
    ensures SameProgress(if ok then AfterPublish(r) else NoPublishStep(r, checkedOut),
                         if ok then AfterPublish(s) else NoPublishStep(s, checkedOut))
  {
    AfterPublishProgress(r, s);
    NoPublishProgress(r, s, checkedOut);
  }

  predicate Awaits(phase: Phase, call: Call) {
    match call
    case BeginCall => phase.AwaitBegin?
    case CompleteCall => phase.AwaitComplete?
    case CancelCall => phase.AwaitCancel?
  }

  function AfterCall(r: Run, call: Call, answer: Answer): Phase {
    match answer
    case Granted => AfterAnswer(r, call, true)
    case Refused => AfterAnswer(r, call, false)
    case NoAnswer => match call {
      case BeginCall => AskBegin
      case CompleteCall => AskComplete
      case CancelCall => ReleaseLock
    }
  }
}
