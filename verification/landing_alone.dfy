/** A stretch of history in which only one run moves, and every call of it is heard. */
module LandingAlone {
  import opened Wrappers
  import opened Commits
  import opened Landing
  import opened LandingSteps
  import opened LandingSafety
  import opened LandingProgress
  import opened LandingDeeds
  import opened LandingRecovery

  /** Where a run waits, its call is on its way. */
  predicate InFlight(r: Run) {
    && (r.phase.AwaitBegin? ==> r.flight == Some(BeginCall))
    && (r.phase.AwaitComplete? ==> r.flight == Some(CompleteCall))
    && (r.phase.AwaitCancel? ==> r.flight == Some(CancelCall))
  }

  predicate Poised(w: World, p: Token) {
    p in w.runs && w.runs[p].task in w.tasks && InFlight(w.runs[p])
  }

  predicate StillPoised(w: World, p: Token, next: World) {
    Poised(next, p) && p in w.runs && next.runs[p].task == w.runs[p].task
  }

  predicate IsWaiting(phase: Phase) {
    phase.AwaitBegin? || phase.AwaitComplete? || phase.AwaitCancel?
  }

  /** What happens next if nothing but p moves and every answer is heard. */
  function OwnNext(w: World, p: Token, input: Input): Event
    requires p in w.runs
  {
    match w.runs[p].phase
    case AwaitBegin => Deliver(p, BeginCall, Heard)
    case AwaitComplete => Deliver(p, CompleteCall, Heard)
    case AwaitCancel => Deliver(p, CancelCall, Heard)
    case _ => Act(p, input)
  }

  predicate Goes(w: World, p: Token, input: Input, e: Event) {
    p in w.runs && !w.runs[p].phase.Ended? && e == OwnNext(w, p, input)
  }

  predicate Solo(w: World, p: Token, input: Input, part: seq<Event>)
    decreases |part|
  {
    part == [] || (Goes(w, p, input, part[0]) && Solo(Next(w, part[0]), p, input, part[1..]))
  }

  predicate Over(w: World, p: Token) {
    p in w.runs && w.runs[p].phase.Ended?
  }

  lemma {:induction false} SoloConcat(w: World, p: Token, input: Input, a: seq<Event>, b: seq<Event>)
    ensures Solo(w, p, input, a + b) <==> Solo(w, p, input, a) && Solo(Play(w, a), p, input, b)
    decreases |a|
  {
    if a == [] {
      assert a + b == b;
    } else {
      assert (a + b)[1..] == a[1..] + b;
      SoloConcat(Next(w, a[0]), p, input, a[1..], b);
    }
  }

  lemma SoloOne(w: World, p: Token, input: Input)
    requires p in w.runs && !w.runs[p].phase.Ended?
    ensures Solo(w, p, input, [OwnNext(w, p, input)])
  {
    assert [OwnNext(w, p, input)][1..] == [];
  }

  /** There is only one way to go, to the end. */
  lemma {:induction false} SoloIsUnique(w: World, p: Token, input: Input, a: seq<Event>, b: seq<Event>)
    requires Solo(w, p, input, a) && Solo(w, p, input, b) && Over(Play(w, a), p) && Over(Play(w, b), p)
    ensures a == b
    decreases |a|
  {
    if a != [] && b != [] {
      SoloIsUnique(Next(w, a[0]), p, input, a[1..], b[1..]);
      assert a == [a[0]] + a[1..] && b == [b[0]] + b[1..];
    }
  }

  lemma AskStepsInFlight(w: World, p: Token, r: Run, input: Input)
    requires InFlight(r) && !IsWaiting(r.phase)
    ensures InFlight(AskLockStep(w, p, r)) && AskLockStep(w, p, r).task == r.task
    ensures InFlight(AskBeginStep(w, p, r, input.boardDown)) && AskBeginStep(w, p, r, input.boardDown).task == r.task
    ensures InFlight(AskCompleteStep(w, r, input.boardDown)) && AskCompleteStep(w, r, input.boardDown).task == r.task
  {
  }

  lemma CheckStepsInFlight(w: World, r: Run, input: Input)
    requires InFlight(r) && !IsWaiting(r.phase)
    ensures InFlight(CheckReservedStep(w, r)) && CheckReservedStep(w, r).task == r.task
    ensures InFlight(CheckLandedStep(w, r)) && CheckLandedStep(w, r).task == r.task
    ensures InFlight(CheckWipStep(w, r)) && CheckWipStep(w, r).task == r.task
  {
  }

  lemma ReadStepsInFlight(w: World, r: Run, input: Input)
    requires InFlight(r) && !IsWaiting(r.phase)
    ensures InFlight(FindWipStep(w, r)) && FindWipStep(w, r).task == r.task
    ensures InFlight(ReadLockStep(w, r, input.now)) && ReadLockStep(w, r, input.now).task == r.task
    ensures InFlight(ReadWipStep(w, r, input.checkedOut)) && ReadWipStep(w, r, input.checkedOut).task == r.task
    ensures InFlight(ReadStaleWipStep(w, r, input.worktreeStuck)) && ReadStaleWipStep(w, r, input.worktreeStuck).task == r.task
  {
  }

  lemma PrepareInFlight(w: World, r: Run, input: Input)
    requires InFlight(r) && !IsWaiting(r.phase)
    ensures var s := ReadBranchStep(w, r, input.content, input.gateFails); InFlight(s) && s.task == r.task
  {
  }

  lemma LocalInFlight(w: World, p: Token, r: Run, input: Input)
    requires InFlight(r) && !IsWaiting(r.phase)
    ensures InFlight(LocalStep(w, p, r, input)) && LocalStep(w, p, r, input).task == r.task
  {
    match r.phase
    case AskBegin => AskStepsInFlight(w, p, r, input);
    case AskLock => AskStepsInFlight(w, p, r, input);
    case AskComplete => AskStepsInFlight(w, p, r, input);
    case CheckBranch => CheckStepsInFlight(w, r, input);
    case CheckWip => CheckStepsInFlight(w, r, input);
    case ReadBranch => PrepareInFlight(w, r, input);
    case FindWip => ReadStepsInFlight(w, r, input);
    case ReadLock => ReadStepsInFlight(w, r, input);
    case ReadWip => ReadStepsInFlight(w, r, input);
    case ReadStaleWip => ReadStepsInFlight(w, r, input);
    case _ =>
  }

  lemma SwapPoised(w: World, p: Token)
    requires Poised(w, p) && !IsWaiting(w.runs[p].phase)
    ensures StillPoised(w, p, SwapLockStep(w, p, w.runs[p]))
  {
    var r, w' := w.runs[p], SwapLockStep(w, p, w.runs[p]);
    assert w'.tasks == w.tasks;
    assert LockRefIs(w, r.seen.slug, r.expected) ==>
      w'.runs[p] == r.(phase := if r.kind.Approve? then CheckWip else CheckBranch, locked := true);
    assert !LockRefIs(w, r.seen.slug, r.expected) ==>
      w'.runs[p] == if r.tries == 0 then r.(phase := ReadLock, tries := 1) else Goto(r, Ended);
  }

  lemma PublishPoised(w: World, p: Token, input: Input)
    requires Poised(w, p) && !IsWaiting(w.runs[p].phase)
    ensures StillPoised(w, p, PublishStep(w, p, w.runs[p], input.checkedOut))
  {
  }

  lemma LastStepsPoised(w: World, p: Token)
    requires Poised(w, p)
    ensures StillPoised(w, p, DeleteWipStep(w, p, w.runs[p]))
    ensures StillPoised(w, p, ReleaseLockStep(w, p, w.runs[p]))
  {
  }

  lemma ActPoised(w: World, p: Token, input: Input)
    requires Poised(w, p) && !IsWaiting(w.runs[p].phase)
    ensures StillPoised(w, p, ActRun(w, p, input))
  {
    var r := w.runs[p];
    ActIs(w, p, input);
    LocalInFlight(w, p, r, input);
    if r.phase.SwapLock? {
      SwapPoised(w, p);
    } else if r.phase.PublishRef? {
      PublishPoised(w, p, input);
    } else {
      LastStepsPoised(w, p);
    }
  }

  lemma DeliveredPoised(w: World, p: Token, call: Call)
    requires Poised(w, p) && Awaits(w.runs[p].phase, call)
    ensures StillPoised(w, p, DeliverCall(w, p, call, Heard))
  {
  }

  lemma NextPoised(w: World, p: Token, input: Input)
    requires Poised(w, p)
    ensures StillPoised(w, p, Next(w, OwnNext(w, p, input)))
  {
    match w.runs[p].phase
    case AwaitBegin => DeliveredPoised(w, p, BeginCall);
    case AwaitComplete => DeliveredPoised(w, p, CompleteCall);
    case AwaitCancel => DeliveredPoised(w, p, CancelCall);
    case _ => ActPoised(w, p, input);
  }

  lemma {:induction false} SoloPoised(w: World, p: Token, input: Input, part: seq<Event>)
    requires Poised(w, p) && Solo(w, p, input, part)
    ensures Poised(Play(w, part), p)
    decreases |part|
  {
    if part != [] {
      NextPoised(w, p, input);
      SoloPoised(Next(w, part[0]), p, input, part[1..]);
    }
  }

  lemma PlayParts(start: World, events: seq<Event>, since: nat)
    requires since <= |events|
    ensures Play(start, events) == Play(Play(start, events[..since]), events[since..])
  {
    assert events == events[..since] + events[since..];
    PlayAppend(start, events[..since], events[since..]);
  }

  /** Of a history in which nothing but p has moved since the first `since` events: what is so after k. */
  predicate AloneAt(start: World, events: seq<Event>, since: nat, k: nat, p: Token, input: Input)
    requires since <= k <= |events|
  {
    if k == since then Poised(Play(start, events[..since]), p)
    else Goes(Play(start, events[..k - 1]), p, input, events[k - 1])
  }

  /** Since the first `since` events, nothing but p has moved. */
  predicate AloneSince(start: World, events: seq<Event>, since: nat, p: Token, input: Input) {
    since <= |events| && forall k :: since <= k <= |events| ==> AloneAt(start, events, since, k, p, input)
  }

  lemma AloneStarts(start: World, events: seq<Event>, p: Token, input: Input)
    requires Poised(Play(start, events), p)
    ensures AloneSince(start, events, |events|, p, input)
  {
    assert events[..|events|] == events;
  }

  lemma StartPoised(w: World, p: Token, t: TaskId, cancelLanding: bool, expires: int)
    requires p !in w.runs && t in w.tasks
    ensures Poised(StartRun(w, p, t, cancelLanding, expires), p)
  {
  }

  lemma AloneGoesOn(start: World, events: seq<Event>, since: nat, p: Token, input: Input, e: Event)
    requires AloneSince(start, events, since, p, input) && Goes(Play(start, events), p, input, e)
    ensures AloneSince(start, events + [e], since, p, input)
  {
    var now := events + [e];
    forall k | since <= k <= |now| ensures AloneAt(start, now, since, k, p, input) {
      if k <= |events| {
        assert AloneAt(start, events, since, k, p, input);
        assert now[..k] == events[..k] && (k > 0 ==> now[..k - 1] == events[..k - 1]);
      } else {
        assert now[..k - 1] == events;
      }
    }
  }

  lemma {:induction false} AloneIsSolo(start: World, events: seq<Event>, since: nat, k: nat, p: Token, input: Input)
    requires since <= k <= |events| && AloneSince(start, events, since, p, input)
    ensures Poised(Play(start, events[..since]), p)
    ensures Solo(Play(start, events[..since]), p, input, events[since..k])
    decreases k
  {
    assert AloneAt(start, events, since, since, p, input);
    if k > since {
      AloneIsSolo(start, events, since, k - 1, p, input);
      assert AloneAt(start, events, since, k, p, input);
      assert events[since..k] == events[since..k - 1] + [events[k - 1]];
      PlayParts(start, events[..k - 1], since);
      assert events[..k - 1][..since] == events[..since] && events[..k - 1][since..] == events[since..k - 1];
      SoloSnoc(Play(start, events[..since]), p, input, events[since..k - 1], events[k - 1]);
    } else {
      assert events[since..k] == [];
    }
  }

  lemma AloneIsPoised(start: World, events: seq<Event>, since: nat, p: Token, input: Input)
    requires AloneSince(start, events, since, p, input)
    ensures Poised(Play(start, events), p)
  {
    PlayParts(start, events, since);
    AloneIsSolo(start, events, since, |events|, p, input);
    assert events[since..|events|] == events[since..];
    SoloPoised(Play(start, events[..since]), p, input, events[since..]);
  }

  lemma SoloSnoc(w: World, p: Token, input: Input, part: seq<Event>, e: Event)
    requires Solo(w, p, input, part) && Goes(Play(w, part), p, input, e)
    ensures Solo(w, p, input, part + [e])
  {
    SoloOne(Play(w, part), p, input);
    SoloConcat(w, p, input, part, [e]);
  }

  /** A step of p's that takes its task's wip away is the deletion. */
  lemma OwnStepCleans(d: Deeds, w: World, p: Token, e: Event)
    requires p in w.runs && w.runs[p].task in w.wip && w.runs[p].task !in Next(w, e).wip
    requires (e.Act? || e.Deliver?) && e.token == p
    ensures AfterEvent(d, w, e, p).cleaned
  {
    if e.Act? { OnlyDeletionTakesWip(w, p, e.input); }
  }

  lemma OnlyDeletionTakesWip(w: World, p: Token, input: Input)
    requires p in w.runs
    ensures w.runs[p].phase.DeleteWip? || ActRun(w, p, input).wip == w.wip
    ensures p in ActRun(w, p, input).runs
  {
    ActIs(w, p, input);
    if w.runs[p].phase.SwapLock? {
      SwapIs(w, p, w.runs[p]);
    } else if w.runs[p].phase.PublishRef? {
      PublishIsDone(w, p, w.runs[p], input.checkedOut);
    }
  }

  /** When one of p's own events takes wip away, p notes that. */
  lemma OwnEventCleans(start: World, events: seq<Event>, n: nat, p: Token)
    requires n < |events| && (events[n].Act? || events[n].Deliver?) && events[n].token == p && p in Play(start, events[..n]).runs
    requires var t := Play(start, events[..n]).runs[p].task;
      t in Play(start, events[..n]).wip && t !in Play(start, events[..n + 1]).wip
    ensures DeedsOf(start, events, p).cleaned
  {
    assert events[..n + 1] == events[..n] + [events[n]];
    PlayMore(start, events[..n], events[n]);
    OwnStepCleans(DeedsOf(start, events[..n], p), Play(start, events[..n]), p, events[n]);
    DeedsSnoc(start, events[..n], events[n], p);
    DeedsStay(start, events, n + 1, p);
  }

  /** If the run's wip is gone after it was alone, the run took it. */
  lemma {:induction false} AloneTookWip(start: World, events: seq<Event>, part: seq<Event>, p: Token, input: Input)
    requires Poised(Play(start, events), p) && Solo(Play(start, events), p, input, part)
    requires var t := Play(start, events).runs[p].task; t in Play(start, events).wip && t !in Play(start, events + part).wip
    ensures DeedsOf(start, events + part, p).cleaned
    decreases |part|
  {
    assert part == [] ==> events + part == events;
    if part != [] {
      var w := Play(start, events);
      PlayMore(start, events, part[0]);
      NextPoised(w, p, input);
      if w.runs[p].task in Next(w, part[0]).wip {
        assert events + part == events + [part[0]] + part[1..];
        AloneTookWip(start, events + [part[0]], part[1..], p, input);
      } else {
        var all := events + part;
        assert all[..|events|] == events && all[..|events| + 1] == events + [part[0]];
        OwnEventCleans(start, all, |events|, p);
      }
    }
  }

  // ---------------------------------------------------------------------------------------------
  // One undisturbed approve
  // ---------------------------------------------------------------------------------------------

  /** The task has a reviewed commit, still on its wip branch, and nothing is in the way. */
  predicate Resumable(w: World, t: TaskId, input: Input) {
    t in w.tasks && (w.tasks[t].state.Approved? || w.tasks[t].state.Done?) &&
    t in w.wip && ReviewedCommit(w.tasks[t]) == Some(w.wip[t]) && LockFree(w, w.tasks[t].slug, input.now) && Clear(input)
  }

  lemma SoloThree(w: World, p: Token, input: Input, a: Event, b: Event, c: Event)
    requires Goes(w, p, input, a) && Goes(Next(w, a), p, input, b) && Goes(Next(Next(w, a), b), p, input, c)
    ensures Solo(w, p, input, [a, b, c])
  {
    assert [a, b, c][1..] == [b, c];
    SoloTwo(Next(w, a), p, input, b, c);
  }

  lemma SoloTwo(w: World, p: Token, input: Input, a: Event, b: Event)
    requires Goes(w, p, input, a) && Goes(Next(w, a), p, input, b)
    ensures Solo(w, p, input, [a, b])
  {
    assert [a, b][1..] == [b];
    SoloOne(Next(w, a), p, input);
  }

  lemma LockingIsSolo(w: World, p: Token, r: Run, input: Input)
    requires r.phase.ReadLock? && LockFree(w, r.seen.slug, input.now)
    ensures Solo(SetRun(w, p, r), p, input, [Act(p, input), Act(p, input)])
  {
    var a := Act(p, input);
    LocalNext(w, p, r, input);
    assert LocalStep(SetRun(w, p, r), p, r, input).phase.SwapLock?;
    SoloTwo(SetRun(w, p, r), p, input, a, a);
  }

  lemma PreparingIsSolo(w: World, p: Token, r: Run, commit: Commit, input: Input)
    requires r.phase.CheckWip? && Submitted(w, r, commit) && Clear(input)
    ensures Solo(SetRun(w, p, r), p, input, [Act(p, input), Act(p, input), Act(p, input)])
  {
    var a := Act(p, input);
    LocalNext(w, p, r, input);
    LocalNext(w, p, r.(phase := ReadWip), input);
    assert LocalStep(SetRun(w, p, r), p, r, input) == r.(phase := ReadWip);
    assert LocalStep(SetRun(w, p, r.(phase := ReadWip)), p, r.(phase := ReadWip), input) == r.(phase := ReadBranch, source := Some(commit));
    SoloThree(SetRun(w, p, r), p, input, a, a, a);
  }

  lemma CleaningIsSolo(w: World, p: Token, r: Run, input: Input)
    requires r.phase.ReadStaleWip? && Clear(input) && r.source.Some?
    requires r.task in w.wip && w.wip[r.task] == r.source.value
    ensures Solo(SetRun(w, p, r), p, input, [Act(p, input), Act(p, input), Act(p, input)])
  {
    var a := Act(p, input);
    LocalNext(w, p, r, input);
    assert LocalStep(SetRun(w, p, r), p, r, input) == r.(phase := DeleteWip);
    DeletesWip(w, p, r.(phase := DeleteWip), input);
    SoloThree(SetRun(w, p, r), p, input, a, a, a);
  }

  lemma LandingIsSolo(w: World, p: Token, t: TaskId, commit: Commit, r: Run, input: Input)
    requires AboutToLand(w, p, t, commit, r, input)
    ensures Solo(SetRun(w, p, r), p, input, [Deliver(p, BeginCall, Heard), Act(p, input), Deliver(p, CompleteCall, Heard)])
  {
    IntegrationOk(w, r.seen.slug, commit, input.content, input.gateFails);
    ReservesTask(w, p, r, commit);
    var w1 := w.(tasks := w.tasks[t := Reserve(w.tasks[t], commit, p)]);
    var r1 := r.(phase := PublishRef, flight := None, begun := true);
    Publishes(w1, p, r1, input);
    SoloThree(SetRun(w, p, r), p, input, Deliver(p, BeginCall, Heard), Act(p, input), Deliver(p, CompleteCall, Heard));
  }

  lemma LandingAndCleaningIsSolo(w: World, p: Token, t: TaskId, commit: Commit, r: Run, input: Input)
    requires AboutToLand(w, p, t, commit, r, input)
    ensures Solo(SetRun(w, p, r), p, input,
                 [Deliver(p, BeginCall, Heard), Act(p, input), Deliver(p, CompleteCall, Heard)] +
                 [Act(p, input), Act(p, input), Act(p, input)])
  {
    var a := Act(p, input);
    var w3 := LandingRecovery.Moved(w, r).(tasks := w.tasks[t := Finish(Reserve(w.tasks[t], commit, p))]);
    var r3 := r.(phase := ReadStaleWip, flight := None, begun := true);
    LandingIsSolo(w, p, t, commit, r, input);
    LandsOnBoard(w, p, t, commit, r, input, w3, r3);
    CleaningIsSolo(w3, p, r3, input);
    SoloConcat(SetRun(w, p, r), p, input, [Deliver(p, BeginCall, Heard), a, Deliver(p, CompleteCall, Heard)], [a, a, a]);
  }

  function ApproveOwn(p: Token, input: Input): seq<Event> {
    [Act(p, input), Act(p, input)] + ([Act(p, input), Act(p, input), Act(p, input)] +
    ([Deliver(p, BeginCall, Heard), Act(p, input), Deliver(p, CompleteCall, Heard)] + [Act(p, input), Act(p, input), Act(p, input)]))
  }

  lemma ApproveAloneIs(p: Token, t: TaskId, expires: int, input: Input)
    ensures ApproveAlone(p, t, expires, input) == [Start(p, t, false, expires)] + ApproveOwn(p, input)
  {
  }

  lemma ApproveIsSolo(w: World, p: Token, t: TaskId, expires: int, input: Input)
    requires p !in w.runs && Resumable(w, t, input) && w.tasks[t].state.Approved? && Landable(w.tasks[t], w.wip[t])
    ensures Solo(StartRun(w, p, t, false, expires), p, input, ApproveOwn(p, input))
  {
    var a, task, commit := Act(p, input), w.tasks[t], w.wip[t];
    var r := Fresh(t, Approve, task, expires, ReadLock);
    var s := r.(phase := CheckWip, expected := HeldBy(w, task.slug), locked := true);
    var w1 := w.(lock := w.lock[task.slug := Lock(p, expires)]);
    var last := [Deliver(p, BeginCall, Heard), a, Deliver(p, CompleteCall, Heard)] + [a, a, a];
    assert StartRun(w, p, t, false, expires) == SetRun(w, p, r);
    LockingIsSolo(w, p, r, input);
    TakesLock(w, p, r, input);
    assert Locked(w, p, r) == SetRun(w1, p, s);
    PreparingIsSolo(w1, p, s, commit, input);
    PreparesLanding(w1, p, s, commit, input);
    IntegrationOk(w1, task.slug, commit, input.content, input.gateFails);
    LandingAndCleaningIsSolo(w1, p, t, commit, Planned(w1, s, commit, input), input);
    SoloConcat(SetRun(w1, p, s), p, input, [a, a, a], last);
    SoloConcat(SetRun(w, p, r), p, input, [a, a], [a, a, a] + last);
  }

  function DoneOwn(p: Token, input: Input, landed: bool): seq<Event> {
    [Act(p, input)] + ([Act(p, input), Act(p, input)] + ([Act(p, input)] + DoneTail(p, input, landed)))
  }

  function DoneTail(p: Token, input: Input, landed: bool): seq<Event> {
    (if landed then [] else [Act(p, input), Act(p, input), Act(p, input)] + [Act(p, input)]) +
    [Act(p, input), Act(p, input), Act(p, input)]
  }

  lemma LandDoneAloneIs(p: Token, t: TaskId, expires: int, input: Input, landed: bool)
    ensures LandDoneAlone(p, t, expires, input, landed) == [Start(p, t, false, expires)] + DoneOwn(p, input, landed)
  {
  }

  lemma TailIsSolo(w: World, p: Token, t: TaskId, commit: Commit, r: Run, input: Input)
    requires t in w.tasks && r.task == t && r.kind.LandDone? && r.phase.CheckWip? && Clear(input)
    requires Submitted(w, r, commit) && LockRefIs(w, r.seen.slug, Some(p))
    ensures Solo(SetRun(w, p, r), p, input, DoneTail(p, input, false))
  {
    var a := Act(p, input);
    var q := Planned(w, r, commit, input);
    PreparingIsSolo(w, p, r, commit, input);
    PreparesLanding(w, p, r, commit, input);
    IntegrationOk(w, r.seen.slug, commit, input.content, input.gateFails);
    Publishes(w, p, q, input);
    SoloOne(SetRun(w, p, q), p, input);
    SoloConcat(SetRun(w, p, r), p, input, [a, a, a], [a]);
    PlayMore(SetRun(w, p, r), [a, a, a], a);
    CleaningIsSolo(LandingRecovery.Moved(w, q), p, AfterPublish(q), input);
    SoloConcat(SetRun(w, p, r), p, input, [a, a, a] + [a], [a, a, a]);
  }

  lemma CheckingIsSolo(w: World, p: Token, t: TaskId, commit: Commit, r: Run, input: Input)
    requires t in w.tasks && r.task == t && r.kind.LandDone? && r.phase.CheckBranch? && Clear(input)
    requires Submitted(w, r, commit) && LockRefIs(w, r.seen.slug, Some(p))
    ensures Solo(SetRun(w, p, r), p, input, [Act(p, input)] + DoneTail(p, input, OnBranch(w, r.seen.slug, commit)))
  {
    var a := Act(p, input);
    LocalNext(w, p, r, input);
    SoloOne(SetRun(w, p, r), p, input);
    PlayMore(SetRun(w, p, r), [], a);
    assert [] + [a] == [a];
    if OnBranch(w, r.seen.slug, commit) {
      CleaningIsSolo(w, p, r.(phase := ReadStaleWip, source := Some(commit)), input);
      assert DoneTail(p, input, true) == [a, a, a];
    } else {
      TailIsSolo(w, p, t, commit, r.(phase := CheckWip), input);
    }
    SoloConcat(SetRun(w, p, r), p, input, [a], DoneTail(p, input, OnBranch(w, r.seen.slug, commit)));
  }

  lemma LandDoneIsSolo(w: World, p: Token, t: TaskId, expires: int, input: Input)
    requires p !in w.runs && Resumable(w, t, input) && w.tasks[t].state.Done?
    ensures Solo(StartRun(w, p, t, false, expires), p, input, DoneOwn(p, input, OnBranch(w, w.tasks[t].slug, w.wip[t])))
  {
    var a, task, commit := Act(p, input), w.tasks[t], w.wip[t];
    var r := Fresh(t, LandDone, task, expires, FindWip);
    var s := r.(phase := CheckBranch, expected := HeldBy(w, task.slug), locked := true);
    var w1 := w.(lock := w.lock[task.slug := Lock(p, expires)]);
    var tail := DoneTail(p, input, OnBranch(w, task.slug, commit));
    assert StartRun(w, p, t, false, expires) == SetRun(w, p, r);
    NotANoOp(task, commit);
    LocalNext(w, p, r, input);
    SoloOne(SetRun(w, p, r), p, input);
    PlayMore(SetRun(w, p, r), [], a);
    assert [] + [a] == [a];
    LockingIsSolo(w, p, r.(phase := ReadLock), input);
    TakesLock(w, p, r.(phase := ReadLock), input);
    assert Locked(w, p, r.(phase := ReadLock)) == SetRun(w1, p, s);
    CheckingIsSolo(w1, p, t, commit, s, input);
    SoloConcat(SetRun(w, p, r.(phase := ReadLock)), p, input, [a, a], [a] + tail);
    SoloConcat(SetRun(w, p, r), p, input, [a], [a, a] + ([a] + tail));
  }

  lemma NotANoOp(task: Task, commit: Commit)
    requires ReviewedCommit(task) == Some(commit)
    ensures !CurrentRoundIsNoOp(task)
  {
  }

  /** What an undisturbed approve does, from reading its task on. */
  function OwnEvents(w: World, p: Token, t: TaskId, input: Input): seq<Event>
    requires Resumable(w, t, input)
  {
    if w.tasks[t].state.Approved? then ApproveOwn(p, input) else DoneOwn(p, input, OnBranch(w, w.tasks[t].slug, w.wip[t]))
  }

  lemma OwnEventsFinish(w: World, p: Token, t: TaskId, expires: int, input: Input)
    requires Reachable(w) && p !in w.runs && Resumable(w, t, input)
    ensures Solo(StartRun(w, p, t, false, expires), p, input, OwnEvents(w, p, t, input))
    ensures EndsLanded(Play(StartRun(w, p, t, false, expires), OwnEvents(w, p, t, input)), p, t, w.wip[t], w)
  {
    var commit, start := w.wip[t], [Start(p, t, false, expires)];
    var own := OwnEvents(w, p, t, input);
    if w.tasks[t].state.Approved? {
      ReachableIsConsistent(w);
      ReviewedIsLinked(w, t, commit);
      ApproveIsSolo(w, p, t, expires, input);
      InterruptedApproveFinishes(w, p, t, commit, expires, input);
      ApproveAloneIs(p, t, expires, input);
    } else {
      LandDoneIsSolo(w, p, t, expires, input);
      InterruptedCleanupFinishes(w, p, t, commit, expires, input);
      LandDoneAloneIs(p, t, expires, input, OnBranch(w, w.tasks[t].slug, commit));
    }
    PlayAppend(w, start, own);
    PlayMore(w, [], start[0]);
    assert [] + start == start;
  }

  /** A run that read its task after `before` and was alone ever since, to its end, has finished. */
  lemma AloneFinishes(
    start: World, before: seq<Event>, began: seq<Event>, events: seq<Event>, p: Token, t: TaskId, expires: int, input: Input)
    requires Initial(start) && p !in Play(start, before).runs && Resumable(Play(start, before), t, input)
    requires began == before + [Start(p, t, false, expires)] && began <= events
    requires AloneSince(start, events, |began|, p, input) && Over(Play(start, events), p)
    ensures DeedsOf(start, events, p).cleaned
    ensures EndsLanded(Play(start, events), p, t, Play(start, before).wip[t], Play(start, before))
  {
    var w := Play(start, before);
    var part := events[|began|..];
    assert events[..|began|] == began && events == began + part;
    PlayMore(start, before, Start(p, t, false, expires));
    PlayParts(start, events, |began|);
    AloneIsSolo(start, events, |began|, |events|, p, input);
    assert events[|began|..|events|] == part;
    OwnEventsFinish(w, p, t, expires, input);
    SoloIsUnique(Play(start, began), p, input, part, OwnEvents(w, p, t, input));
    AloneTookWip(start, began, part, p, input);
  }
}
