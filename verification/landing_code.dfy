/** The approve command itself, as it is written: loops, early returns and one access to the refs or
    the board at a time, while everything else moves on between any two of them. Each access is one
    step of the state machine, so whatever a run does in whatever surroundings, the stores are always
    in a state that the state machine reaches, and its guarantees hold for the code. */
module LandingCode {
  import opened Wrappers
  import opened Commits
  import opened Landing
  import opened LandingProgress
  import opened LandingDeeds
  import opened LandingAlone
  import opened LandingReports
  import LandingSafety
  import LandingRecovery

  /** What the ref transaction and its precheck ask for. */
  predicate TransactionFits(w: World, p: Token, slug: Slug, plan: Integration, checkedOut: bool) {
    !checkedOut && LockRefIs(w, slug, Some(p)) && RefIs(w.branch, slug, plan.previous)
  }

  class Stores {
    const start: World
    const around: Surroundings
    var world: World
    var clock: nat
    ghost var events: seq<Event>
    ghost var since: nat    // how many events there were when the run in hand started
    ghost var deeds: Deeds  // what it has done since
    ghost var alone: bool   // nothing else has moved since

    constructor (start: World, around: Surroundings)
      ensures Valid() && this.start == start && world == start
    {
      this.start, this.around, world, clock, events, since, deeds, alone := start, around, start, 0, [], 0, NONE, false;
    }

    /** The stores are in a state of the state machine. */
    ghost predicate Valid()
      reads this
    {
      world == Play(start, events) && since <= |events|
    }

    /** The stores as the last access of a run found them. */
    ghost function Before(): World
      requires events != []
      reads this
    {
      Play(start, events[..|events| - 1])
    }

    /** What the run in hand reports is so. */
    ghost predicate Tells(p: Token, t: TaskId, task: Task, outcome: Outcome)
      requires since <= |events|
      reads this
    {
      Truthful(start, events, since, p, t, task, outcome)
    }

    /** Events come on top, and a run that nothing disturbs stays alone. */
    twostate predicate Onward()
      reads this
    {
      old(events) <= events && (Undisturbed(around) && old(alone) ==> alone)
    }

    /** Run p is the run in hand: it stands where r says, has done its deeds, and if it has been alone,
        that is so. */
    ghost predicate At(p: Token, r: Run)
      reads this
    {
      Valid() && p in world.runs && SameProgress(r, world.runs[p]) && Noted(start, events, p, deeds) &&
      (alone ==> AloneSince(start, events, since + 1, p, around.inputs(0)))
    }

    /** The others move on; then p's next access finds `input`. */
    method Wait(p: Token, ghost r: Run) returns (input: Input)
      requires At(p, r)
      modifies `world, `clock, `events, `deeds, `alone
      ensures Onward() && At(p, r) && deeds == old(deeds)
      ensures alone ==> events == old(events) && input == around.inputs(0)
    {
      var others := Foreign(around.others(clock), p);
      input := around.inputs(clock);
      clock := clock + 1;
      OthersMove(start, events, others, p, r, deeds, world);
      alone := alone && others == [] && input == around.inputs(0);
      world := Play(world, others);
      events := events + others;
    }

    /** An event of p's, with its effect. */
    method Happen(p: Token, e: Event, next: World, ghost r: Run, ghost s: Run, ghost d: Deeds)
      requires At(p, r) && (alone ==> Goes(world, p, around.inputs(0), e))
      requires next == Next(world, e) && p in next.runs && SameProgress(s, next.runs[p])
      requires Noted(start, events + [e], p, d)
      modifies `world, `clock, `events, `deeds, `alone
      ensures world == next && events == old(events) + [e]
      ensures At(p, s) && deeds == d && alone == old(alone)
    {
      LandingRecovery.PlayMore(start, events, e);
      if alone { AloneGoesOn(start, events, since + 1, p, around.inputs(0), e); }
      world, events, deeds := next, events + [e], d;
    }

    /** p's own access, all at once. */
    method Take(p: Token, input: Input, next: World, ghost r: Run, ghost s: Run, ghost d: Deeds)
      requires At(p, r) && !IsWaiting(r.phase) && !r.phase.Ended? && (alone ==> input == around.inputs(0))
      requires next == ActRun(world, p, input) && p in next.runs && SameProgress(s, next.runs[p])
      requires Noted(start, events + [Act(p, input)], p, d)
      modifies `world, `clock, `events, `deeds, `alone
      ensures Valid() && world == next && events == old(events) + [Act(p, input)] && Before() == old(world)
      ensures At(p, s) && deeds == d && alone == old(alone)
    {
      ghost var waited := events;
      Happen(p, Act(p, input), next, r, s, d);
      assert events[..|events| - 1] == waited;
    }

    /** The program counter moves on after an access that changes no ref. */
    method Read(p: Token, input: Input, ghost r: Run) returns (ghost s: Run)
      requires At(p, r) && IsLocal(r.phase) && !IsWaiting(r.phase) && !r.phase.Ended? && (alone ==> input == around.inputs(0))
      modifies `world, `clock, `events, `deeds, `alone
      ensures events == old(events) + [Act(p, input)] && Before() == old(world)
      ensures s == LocalStep(old(world), p, r, input) && At(p, s)
      ensures world == SetRun(old(world), p, world.runs[p])
      ensures deeds == AfterLocal(old(deeds), r, s) && alone == old(alone)
    {
      s := LocalStep(world, p, r, input);
      LocalProgress(world, p, r, world.runs[p], input);
      ActIs(world, p, input);
      LocalNoted(start, events, p, deeds, world, input);
      Take(p, input, SetRun(world, p, LocalStep(world, p, world.runs[p], input)), r, s, AfterLocal(deeds, r, s));
    }

    // -------------------------------------------------------------------------------------------
    // internal/localcommit/lock.go
    // -------------------------------------------------------------------------------------------

    method ReadLockRef(p: Token, slug: Slug, ghost r: Run) returns (held: Option<Lock>, now: int, ghost s: Run)
      requires At(p, r) && r.phase.ReadLock? && r.seen.slug == slug
      modifies `world, `clock, `events, `deeds, `alone
      ensures Onward()
      ensures At(p, s)
      ensures s == match held
        case None => r.(phase := SwapLock, expected := None)
        case Some(lock) => if now < lock.expires then Goto(r, Ended) else r.(phase := SwapLock, expected := Some(lock.owner))
      ensures deeds == old(deeds)
    {
      var input := Wait(p, r);
      held := if slug in world.lock then Some(world.lock[slug]) else None;
      now := input.now;
      s := Read(p, input, r);
    }

    /** git update-ref <lock> <own object> <expected object>. */
    method SwapLockRef(p: Token, slug: Slug, expires: int, expected: Option<Token>, ghost r: Run) returns (ok: bool, ghost s: Run)
      requires At(p, r) && r.phase.SwapLock? && !r.locked && r.seen.slug == slug && r.expires == expires && r.expected == expected
      modifies `world, `clock, `events, `deeds, `alone
      ensures Onward()
      ensures At(p, s)
      ensures ok ==> s == r.(phase := if r.kind.Approve? then CheckWip else CheckBranch, locked := true)
      ensures !ok ==> s == if r.tries == 0 then r.(phase := ReadLock, tries := 1) else Goto(r, Ended)
      ensures events != [] && ok == LockRefIs(Before(), slug, expected)
      ensures world.lock == if ok then Before().lock[slug := Lock(p, expires)] else Before().lock
      ensures deeds == if ok then old(deeds).(locked := true) else old(deeds)
    {
      var input := Wait(p, r);
      ok := LockRefIs(world, slug, expected);
      var mine, next := world.runs[p], world;
      SwapNoted(start, events, p, deeds, world, input);
      if ok {
        next := SetRun(world, p, mine.(phase := if mine.kind.Approve? then CheckWip else CheckBranch, locked := true))
          .(lock := world.lock[slug := Lock(p, expires)]);
        s := r.(phase := if r.kind.Approve? then CheckWip else CheckBranch, locked := true);
      } else {
        next := SetRun(world, p, if mine.tries == 0 then mine.(phase := ReadLock, tries := 1) else Goto(mine, Ended));
        s := if r.tries == 0 then r.(phase := ReadLock, tries := 1) else Goto(r, Ended);
      }
      SwapLockIs(world, p, mine, expected, expires, input, ok, next);
      Take(p, input, next, r, s, if ok then deeds.(locked := true) else deeds);
    }

    /** LockBranch: two attempts, since the lock can change hands between the read and the swap. */
    method LockBranch(p: Token, slug: Slug, expires: int, ghost r: Run) returns (ok: bool, ghost s: Run)
      requires At(p, r) && r.phase.ReadLock? && !r.locked && r.tries == 0 && r.seen.slug == slug && r.expires == expires
      modifies `world, `clock, `events, `deeds, `alone
      ensures Onward()
      ensures At(p, s)
      ensures ok ==> s == r.(phase := if r.kind.Approve? then CheckWip else CheckBranch, locked := true, tries := s.tries, expected := s.expected)
      ensures ok ==> events != [] && world.lock == Before().lock[slug := Lock(p, expires)]
      ensures !ok ==> s.phase.Ended?
      ensures deeds == if ok then old(deeds).(locked := true) else old(deeds)
    {
      s := r;
      for attempt := 0 to 2
        invariant At(p, s) && Onward() && deeds == old(deeds)
        invariant if attempt < 2 then s == r.(tries := attempt, expected := s.expected) else s.phase.Ended?
      {
        var held, now;
        held, now, s := ReadLockRef(p, slug, s);
        if held.Some? && now < held.value.expires {
          return false, s;
        }
        var expected := if held.Some? then Some(held.value.owner) else None;
        ok, s := SwapLockRef(p, slug, expires, expected, s);
        if ok {
          return;
        }
      }
      return false, s;
    }

    /** Release: git update-ref -d <lock> <own object>. */
    method Release(p: Token, slug: Slug, ghost r: Run) returns (ghost s: Run)
      requires At(p, r) && r.phase.ReleaseLock? && r.seen.slug == slug
      modifies `world, `clock, `events, `deeds, `alone
      ensures Onward()
      ensures At(p, s) && s.phase.Ended?
      ensures events != [] && world.lock == if LockRefIs(Before(), slug, Some(p)) then Before().lock - {slug} else Before().lock
      ensures world == Before().(lock := world.lock, runs := world.runs)
      ensures !(slug in world.lock && world.lock[slug].owner == p)
      ensures deeds == old(deeds)
    {
      var input := Wait(p, r);
      var next := SetRun(world, p, Goto(world.runs[p], Ended));
      if slug in world.lock && world.lock[slug].owner == p {
        next := next.(lock := world.lock - {slug});
      }
      ReleaseIs(world, p, world.runs[p], input, next);
      ReleaseNoted(start, events, p, deeds, world, input);
      s := Goto(r, Ended);
      Take(p, input, next, r, s, deeds);
    }

    // -------------------------------------------------------------------------------------------
    // internal/localcommit/freeze.go
    // -------------------------------------------------------------------------------------------

    /** requireWipAt: does wip hold the commit the round reviewed? */
    method RequireWipAt(p: Token, t: TaskId, reviewed: Option<Commit>, ghost r: Run) returns (there: bool, ghost s: Run)
      requires At(p, r) && r.phase.CheckWip? && r.task == t && r.reviewed == reviewed
      modifies `world, `clock, `events, `deeds, `alone
      ensures Onward()
      ensures At(p, s) && s == Goto(r, if there then ReadWip else ReleaseLock)
      ensures there ==> reviewed.Some?
      ensures deeds == old(deeds)
    {
      var input := Wait(p, r);
      there := reviewed.Some? && t in world.wip && world.wip[t] == reviewed.value;
      s := Read(p, input, r);
    }

    /** Prepare, up to reading wip's tip. */
    method ReadWipTip(p: Token, t: TaskId, ghost r: Run) returns (tip: Option<Commit>, ghost s: Run)
      requires At(p, r) && r.phase.ReadWip? && r.task == t
      modifies `world, `clock, `events, `deeds, `alone
      ensures Onward()
      ensures At(p, s) && s == if tip.None? then Goto(r, ReleaseLock) else r.(phase := ReadBranch, source := tip)
      ensures deeds == old(deeds)
    {
      var input := Wait(p, r);
      tip := if input.checkedOut || t !in world.wip then None else Some(world.wip[t]);
      s := Read(p, input, r);
    }

    /** Prepare, from reading the branch tip on: how the commit lands, and whether the gate lets it.
        The caller's two tests of the result are part of the same step. */
    method PrepareFrom(p: Token, slug: Slug, source: Commit, reviewed: Commit, task: Task, ghost r: Run)
      returns (plan: Option<Integration>, ghost s: Run)
      requires At(p, r) && r.phase.ReadBranch? && r.seen == task && task.slug == slug
      requires r.source == Some(source) && r.reviewed == Some(reviewed) && !r.kind.Cancel?
      modifies `world, `clock, `events, `deeds, `alone
      ensures Onward()
      ensures At(p, s)
      ensures plan.None? ==> s == Goto(r, ReleaseLock)
      ensures plan.Some? ==> plan.value.source == source == reviewed
      ensures plan.Some? && r.kind.LandDone? ==> s == r.(phase := PublishRef, plan := plan)
      ensures plan.Some? && r.kind.Approve? ==> s == r.(phase := AwaitBegin, plan := plan, flight := Some(BeginCall))
      ensures plan.Some? && r.kind.Approve? ==> ResumesOwnLanding(task, source)
      ensures deeds == old(deeds)
    {
      var input := Wait(p, r);
      plan := None;
      if slug !in world.branch {
        plan := Some(Integration(Created, source, source, None));
      } else {
        var tip := world.branch[slug];
        if IsAncestor(source, tip) {
          plan := Some(Integration(AlreadyThere, source, tip, Some(tip)));
        } else if IsAncestor(tip, source) {
          plan := Some(Integration(FastForward, source, source, Some(tip)));
        } else if !input.gateFails {
          plan := Some(Integration(MergeCommit, source, Merge(input.content, tip, source), Some(tip)));
        }
      }
      if source != reviewed || (world.runs[p].kind.Approve? && !ResumesOwnLanding(task, source)) {
        plan := None;
      }
      s := Read(p, input, r);
    }

    /** git update-ref --stdin: verify the lock and move the branch, all or nothing. */
    method MoveBranch(p: Token, slug: Slug, t: TaskId, plan: Integration, ghost r: Run) returns (ok: bool, checkedOut: bool, ghost s: Run)
      requires At(p, r) && r.phase.PublishRef? && r.plan == Some(plan) && r.seen.slug == slug && r.task == t
      modifies `world, `clock, `events, `deeds, `alone
      ensures Onward()
      ensures At(p, s) && s == if ok then AfterPublish(r) else NoPublishStep(r, checkedOut)
      ensures events != [] && (ok <==> (plan.kind.AlreadyThere? || TransactionFits(Before(), p, slug, plan, checkedOut)))
      ensures world.branch == if ok && !plan.kind.AlreadyThere? then Before().branch[slug := plan.commit] else Before().branch
      ensures world.log == if ok && !plan.kind.AlreadyThere? then Before().log + [Landed(t, plan.source)] else Before().log
      ensures world == Before().(branch := world.branch, log := world.log, runs := world.runs)
      ensures deeds ==
        if ok then old(deeds).(published := true, moved := old(deeds).moved || !plan.kind.AlreadyThere?)
        else old(deeds)
    {
      var input := Wait(p, r);
      var mine, next := world.runs[p], world;
      checkedOut := input.checkedOut;
      ok := plan.kind.AlreadyThere? || (!checkedOut && LockRefIs(world, slug, Some(p)) && RefIs(world.branch, slug, plan.previous));
      if ok && !plan.kind.AlreadyThere? {
        next := next.(branch := world.branch[slug := plan.commit], log := world.log + [Landed(t, plan.source)]);
      }
      next := SetRun(next, p, if ok then AfterPublish(mine) else NoPublishStep(mine, checkedOut));
      PublishIs(world, p, mine, input, ok, next);
      PublishProgress(r, mine, ok, checkedOut);
      PublishNoted(start, events, p, deeds, world, input);
      s := if ok then AfterPublish(r) else NoPublishStep(r, checkedOut);
      Take(p, input, next, r, s,
           if ok then deeds.(published := true, moved := deeds.moved || !plan.kind.AlreadyThere?) else deeds);
    }

    /** Publish: nothing to do if the commit is there already; otherwise the transaction, and on its
        failure the question whether the lock was lost. */
    method Publish(p: Token, slug: Slug, t: TaskId, plan: Integration, ghost r: Run) returns (result: Published, ghost s: Run)
      requires At(p, r) && r.phase.PublishRef? && r.plan == Some(plan) && r.seen.slug == slug && r.task == t && !r.kind.Cancel?
      modifies `world, `clock, `events, `deeds, `alone
      ensures Onward()
      ensures At(p, s)
      ensures result.Moved? ==> s == AfterPublish(r)
      ensures !result.Moved? && r.kind.LandDone? ==> s == Goto(r, ReleaseLock)
      ensures result.LockLost? && r.kind.Approve? ==> s == Goto(r, ReleaseLock)
      ensures result.NotMoved? && r.kind.Approve? ==> s == Send(r, CancelCall, AwaitCancel)
      ensures deeds ==
        if result.Moved? then old(deeds).(published := true, moved := old(deeds).moved || !plan.kind.AlreadyThere?)
        else old(deeds)
    {
      var ok, checkedOut;
      ok, checkedOut, s := MoveBranch(p, slug, t, plan, r);
      if ok {
        return Moved, s;
      }
      if checkedOut || world.runs[p].kind.LandDone? {
        return NotMoved, s;
      }
      var held;
      held, s := StillLocked(p, slug, s);
      result := if held then NotMoved else LockLost;
    }

    /** After a failed transaction: is the lock ref still the run's? */
    method StillLocked(p: Token, slug: Slug, ghost r: Run) returns (held: bool, ghost s: Run)
      requires At(p, r) && r.phase.AskLock? && r.seen.slug == slug
      modifies `world, `clock, `events, `deeds, `alone
      ensures Onward()
      ensures At(p, s) && s == if held then Send(r, CancelCall, AwaitCancel) else Goto(r, ReleaseLock)
      ensures events != [] && held == LockRefIs(Before(), slug, Some(p))
      ensures deeds == old(deeds)
    {
      var input := Wait(p, r);
      held := LockRefIs(world, slug, Some(p));
      s := Read(p, input, r);
    }

    /** git update-ref -d <wip> <landed commit>. */
    method DeleteWipRef(p: Token, t: TaskId, landed: Commit, ghost r: Run) returns (ok: bool, ghost s: Run)
      requires At(p, r) && r.phase.DeleteWip? && r.task == t && r.source == Some(landed)
      modifies `world, `clock, `events, `deeds, `alone
      ensures Onward()
      ensures At(p, s) && s == Goto(r, ReleaseLock)
      ensures events != [] && world == Before().(wip := world.wip, runs := world.runs)
      ensures world.wip == if t in Before().wip && Before().wip[t] == landed then Before().wip - {t} else Before().wip
      ensures ok <==> t !in world.wip
      ensures deeds == if ok then old(deeds).(cleaned := true) else old(deeds)
    {
      var input := Wait(p, r);
      ok := t !in world.wip || world.wip[t] == landed;
      var next := SetRun(world, p, Goto(world.runs[p], ReleaseLock));
      if t in world.wip && world.wip[t] == landed {
        next := next.(wip := world.wip - {t});
      }
      DeletionIs(world, p, world.runs[p], landed, input, next);
      DeletionNoted(start, events, p, deeds, world, input);
      s := Goto(r, ReleaseLock);
      Take(p, input, next, r, s, if ok then deeds.(cleaned := true) else deeds);
    }

    /** Cleanup: drop wip, unless it has moved past the landed commit or its worktree is stuck. */
    method Cleanup(p: Token, t: TaskId, landed: Commit, ghost r: Run) returns (ok: bool, ghost s: Run)
      requires At(p, r) && r.phase.ReadStaleWip? && r.task == t && r.source == Some(landed)
      modifies `world, `clock, `events, `deeds, `alone
      ensures Onward()
      ensures At(p, s) && s == Goto(r, ReleaseLock)
      ensures events != [] && (world.wip == Before().wip ||
        (t in Before().wip && Before().wip[t] == landed && world.wip == Before().wip - {t}))
      ensures ok ==> t !in world.wip
      ensures Initial(start) ==> OnBranch(world, r.seen.slug, landed)
      ensures deeds == if ok then old(deeds).(cleaned := true) else old(deeds)
    {
      if Initial(start) { PublisherHasLanded(start, events, p, r, landed); }
      ghost var entered := events;
      ok, s := CleanupSteps(p, t, landed, r);
      if Initial(start) { BranchKeeps(start, entered, events, r.seen.slug, landed); }
    }

    method CleanupSteps(p: Token, t: TaskId, landed: Commit, ghost r: Run) returns (ok: bool, ghost s: Run)
      requires At(p, r) && r.phase.ReadStaleWip? && r.task == t && r.source == Some(landed)
      modifies `world, `clock, `events, `deeds, `alone
      ensures Onward()
      ensures At(p, s) && s == Goto(r, ReleaseLock)
      ensures events != [] && (world.wip == Before().wip ||
        (t in Before().wip && Before().wip[t] == landed && world.wip == Before().wip - {t}))
      ensures ok ==> t !in world.wip
      ensures deeds == if ok then old(deeds).(cleaned := true) else old(deeds)
    {
      var stale;
      stale, s := LooksStale(p, t, landed, r);
      if stale {
        return false, s;
      }
      ok, s := DeleteWipRef(p, t, landed, s);
    }

    /** Has wip moved past the landed commit, or can its worktree not be removed? */
    method LooksStale(p: Token, t: TaskId, landed: Commit, ghost r: Run) returns (stale: bool, ghost s: Run)
      requires At(p, r) && r.phase.ReadStaleWip? && r.task == t && r.source == Some(landed)
      modifies `world, `clock, `events, `deeds, `alone
      ensures Onward()
      ensures At(p, s) && s == Goto(r, if stale then ReleaseLock else DeleteWip)
      ensures events != [] && world.wip == Before().wip
      ensures !stale && t in world.wip ==> world.wip[t] == landed
      ensures deeds == old(deeds)
    {
      var input := Wait(p, r);
      stale := (t in world.wip && world.wip[t] != landed) || input.worktreeStuck;
      s := Read(p, input, r);
    }

    // -------------------------------------------------------------------------------------------
    // The board
    // -------------------------------------------------------------------------------------------

    /** The board applies the call, or refuses it, and the answer arrives. */
    method HearAnswer(p: Token, call: Call, fails: bool, ghost r: Run) returns (ok: bool, ghost s: Run)
      requires At(p, r) && Awaits(r.phase, call) && world.runs[p].flight == Some(call) && r.task in world.tasks
      modifies `world, `clock, `events, `deeds, `alone
      ensures events == old(events) + [Deliver(p, call, if fails then Failed else Heard)]
      ensures At(p, s) && s == Goto(r, AfterAnswer(r, call, ok))
      ensures ok <==> !fails && BoardAnswer(old(world), p, call).Ok?
      ensures world.tasks == if ok then old(world).tasks[r.task := BoardAnswer(old(world), p, call).value] else old(world).tasks
      ensures deeds == if ok then AfterGrant(old(deeds), call) else old(deeds)
      ensures alone == (old(alone) && !fails)
    {
      var e := Deliver(p, call, if fails then Failed else Heard);
      ok := !fails && BoardAnswer(world, p, call).Ok?;
      s := Goto(r, AfterAnswer(r, call, ok));
      DeliveredProgress(world, p, call, fails, r);
      GrantNoted(start, events, p, deeds, world, call, e.fate);
      alone := alone && !fails;
      Happen(p, e, DeliverCall(world, p, call, e.fate), r, s, if ok then AfterGrant(deeds, call) else deeds);
    }

    /** No answer in time: the run stops waiting. The call may still be on its way. */
    method StopWaiting(p: Token, call: Call, ghost r: Run) returns (ghost s: Run)
      requires At(p, r) && Awaits(r.phase, call)
      modifies `world, `clock, `events, `deeds, `alone
      ensures old(events) <= events
      ensures At(p, s) && s == Goto(r, AfterCall(r, call, NoAnswer))
      ensures deeds == old(deeds)
    {
      NotedSnoc(start, events, p, deeds, GiveUp(p));
      LandingRecovery.PlayMore(start, events, GiveUp(p));
      world := GiveUpWaiting(world, p);
      events := events + [GiveUp(p)];
      alone := false;
      s := Goto(r, AfterCall(r, call, NoAnswer));
    }

    method CallBoard(p: Token, call: Call, ghost r: Run) returns (answer: Answer, ghost s: Run)
      requires At(p, r) && Awaits(r.phase, call)
      modifies `world, `clock, `events, `deeds, `alone
      ensures Onward()
      ensures At(p, s) && s == Goto(r, AfterCall(r, call, answer))
      ensures answer.Granted? ==> r.task in world.tasks && Shows(world.tasks[r.task], call, p)
      ensures answer.Granted? ==> WasGranted(start, events, since, p, call, r.task)
      ensures deeds == if answer.Granted? then AfterGrant(old(deeds), call) else old(deeds)
    {
      var input := Wait(p, r);
      var answered, fails := around.answered(clock), around.fails(clock);
      if alone { AloneIsPoised(start, events, since + 1, p, around.inputs(0)); }
      if answered && world.runs[p].flight == Some(call) && world.runs[p].task in world.tasks {
        var ok;
        if !fails && BoardAnswer(world, p, call).Ok? { GrantIsHeard(start, events, since, p, call, world); }
        ok, s := HearAnswer(p, call, fails, r);
        answer := if ok then Granted else Refused;
      } else {
        s := StopWaiting(p, call, r);
        answer := NoAnswer;
      }
    }

    /** GetTask after an unanswered BeginLanding: is the reservation this attempt's? */
    method AskReservation(p: Token, t: TaskId, round: nat, source: Commit, ghost r: Run) returns (held: bool, ghost s: Run)
      requires At(p, r) && r.phase.AskBegin? && r.task == t && r.plan.Some? && r.plan.value.source == source && |r.seen.rounds| == round
      modifies `world, `clock, `events, `deeds, `alone
      ensures Onward()
      ensures At(p, s) && s == Goto(r, if held then PublishRef else ReleaseLock)
      ensures deeds == if held then old(deeds).(reserved := true) else old(deeds)
    {
      var input := Wait(p, r);
      held := !input.boardDown && t in world.tasks && world.tasks[t].state.Approved? &&
        world.tasks[t].landing == Some(Reservation(round, source, p));
      s := Read(p, input, r);
    }

    /** GetTask after a failed or unanswered CompleteLanding: is the task done all the same? */
    method AskDone(p: Token, t: TaskId, ghost r: Run) returns (done: bool, ghost s: Run)
      requires At(p, r) && r.phase.AskComplete? && r.task == t
      modifies `world, `clock, `events, `deeds, `alone
      ensures Onward()
      ensures At(p, s) && s == Goto(r, if done then ReadStaleWip else ReleaseLock)
      ensures done ==> t in world.tasks && world.tasks[t].state.Done?
      ensures deeds == if done then old(deeds).(completed := true) else old(deeds)
    {
      var input := Wait(p, r);
      done := !input.boardDown && t in world.tasks && world.tasks[t].state.Done?;
      s := Read(p, input, r);
    }

    // -------------------------------------------------------------------------------------------
    // cmd/odonian/approve.go
    // -------------------------------------------------------------------------------------------

    method ReserveForLanding(p: Token, t: TaskId, round: nat, source: Commit, ghost r: Run) returns (ok: bool, ghost s: Run)
      requires At(p, r) && r.phase.AwaitBegin? && r.task == t && r.plan.Some? && r.plan.value.source == source && |r.seen.rounds| == round
      modifies `world, `clock, `events, `deeds, `alone
      ensures Onward()
      ensures At(p, s) && s == Goto(r, if ok then PublishRef else ReleaseLock)
      ensures deeds == if ok then old(deeds).(reserved := true) else old(deeds)
    {
      var answer;
      answer, s := CallBoard(p, BeginCall, r);
      match answer {
        case Granted => ok := true;
        case Refused => ok := false;
        case NoAnswer => ok, s := AskReservation(p, t, round, source, s);
      }
    }

    /** Marking the task done, and asking when it is not clear that it was. */
    method MarkDone(p: Token, t: TaskId, ghost r: Run) returns (done: bool, ghost s: Run)
      requires At(p, r) && r.phase.AwaitComplete? && r.task == t
      modifies `world, `clock, `events, `deeds, `alone
      ensures Onward()
      ensures At(p, s) && s == Goto(r, if done then ReadStaleWip else ReleaseLock)
      ensures done ==> t in world.tasks && world.tasks[t].state.Done?
      ensures deeds == if done then old(deeds).(completed := true) else old(deeds)
    {
      var answer;
      answer, s := CallBoard(p, CompleteCall, r);
      done := answer.Granted?;
      if !done {
        done, s := AskDone(p, t, s);
      }
    }

    /** Prepare with the two tests that follow it: the commit to land and how, or nothing. */
    method Prepare(p: Token, t: TaskId, task: Task, reviewed: Commit, ghost r: Run) returns (plan: Option<Integration>, ghost s: Run)
      requires At(p, r) && r.phase.ReadWip? && r.task == t && r.seen == task && r.reviewed == Some(reviewed) && !r.kind.Cancel?
      modifies `world, `clock, `events, `deeds, `alone
      ensures Onward()
      ensures At(p, s)
      ensures plan.None? ==> s == r.(phase := ReleaseLock, source := s.source)
      ensures plan.Some? ==> plan.value.source == reviewed
      ensures plan.Some? && r.kind.LandDone? ==> s == r.(phase := PublishRef, source := Some(reviewed), plan := plan)
      ensures plan.Some? && r.kind.Approve? ==>
        s == r.(phase := AwaitBegin, source := Some(reviewed), plan := plan, flight := Some(BeginCall))
      ensures deeds == old(deeds)
    {
      var tip;
      tip, s := ReadWipTip(p, t, r);
      if tip.None? {
        return None, s;
      }
      plan, s := PrepareFrom(p, task.slug, tip.value, reviewed, task, s);
    }

    /** approveLocalCommit. Whatever happens around it, it ends with its lock given back or lost, it
        reports what it did, and if it reports the task done, the task is done. */
    method ApproveLocalCommit(p: Token, t: TaskId, task: Task, expires: int, ghost r: Run) returns (outcome: Outcome, ghost s: Run)
      requires At(p, r) && r == LandingRecovery.Fresh(t, Approve, task, expires, ReadLock) && deeds == NONE
      modifies `world, `clock, `events, `deeds, `alone
      ensures Onward()
      ensures At(p, s) && s.phase.Ended?
      ensures outcome.Finished? || outcome.NotCleaned? ==> t in world.tasks && world.tasks[t].state.Done?
      ensures outcome == Report(Approve, deeds) && Tells(p, t, task, outcome)
    {
      var locked;
      locked, s := LockBranch(p, task.slug, expires, r);
      if !locked {
        return NotLocked, s;
      }
      outcome, s := LandHolding(p, t, task, s);
      ghost var told := events;
      s := Release(p, task.slug, s);
      if outcome.Finished? || outcome.NotCleaned? { DoneKept(start, told, events, t); }
      ReportStays(start, told, events, since, since, p, t, task, outcome);
    }

    /** approveLocalCommit between taking the lock and the deferred Release. */
    method LandHolding(p: Token, t: TaskId, task: Task, ghost r: Run) returns (outcome: Outcome, ghost s: Run)
      requires At(p, r) && r.phase.CheckWip? && r.kind.Approve? && r.task == t && r.seen == task && r.reviewed == ReviewedCommit(task)
      requires deeds == NONE.(locked := true)
      modifies `world, `clock, `events, `deeds, `alone
      ensures Onward()
      ensures At(p, s) && s.phase.ReleaseLock? && s.seen == task
      ensures outcome.Finished? || outcome.NotCleaned? ==> t in world.tasks && world.tasks[t].state.Done?
      ensures outcome == Report(Approve, deeds) && Tells(p, t, task, outcome)
    {
      var reviewed := ReviewedCommit(task);
      var there;
      there, s := RequireWipAt(p, t, reviewed, r);
      if !there {
        return NotLanded, s;
      }
      var plan;
      plan, s := Prepare(p, t, task, reviewed.value, s);
      if plan.None? {
        return NotLanded, s;
      }
      var ok;
      ok, s := ReserveForLanding(p, t, |task.rounds|, plan.value.source, s);
      if !ok {
        return NotLanded, s;
      }
      outcome, s := LandReserved(p, t, task, plan.value, s);
    }

    /** approveLocalCommit once the task is reserved. */
    method LandReserved(p: Token, t: TaskId, task: Task, plan: Integration, ghost r: Run) returns (outcome: Outcome, ghost s: Run)
      requires At(p, r) && r.phase.PublishRef? && r.kind.Approve? && r.task == t && r.seen == task
      requires r.plan == Some(plan) && r.source == Some(plan.source) == ReviewedCommit(task)
      requires deeds == NONE.(locked := true, reserved := true)
      modifies `world, `clock, `events, `deeds, `alone
      ensures Onward()
      ensures At(p, s) && s.phase.ReleaseLock? && s.seen == task
      ensures outcome.Finished? || outcome.NotCleaned? ==> t in world.tasks && world.tasks[t].state.Done?
      ensures outcome == Report(Approve, deeds) && Tells(p, t, task, outcome)
    {
      var result;
      result, s := Publish(p, task.slug, t, plan, r);
      if result.LockLost? {
        return ReservationLeft, s;
      }
      if result.NotMoved? {
        var answer;
        answer, s := CallBoard(p, CancelCall, s);
        return if answer.Granted? then NotLanded else ReservationLeft, s;
      }
      outcome, s := LandPublished(p, t, task, plan.source, s);
    }

    /** approveLocalCommit once the commit is on the branch. */
    method LandPublished(p: Token, t: TaskId, task: Task, landed: Commit, ghost r: Run) returns (outcome: Outcome, ghost s: Run)
      requires At(p, r) && r.phase.AwaitComplete? && r.task == t && r.seen == task && r.source == Some(landed) == ReviewedCommit(task)
      requires deeds.published && !deeds.completed && !deeds.cleaned
      modifies `world, `clock, `events, `deeds, `alone
      ensures Onward()
      ensures At(p, s) && s.phase.ReleaseLock? && s.seen == task
      ensures outcome.Finished? || outcome.NotCleaned? ==> t in world.tasks && world.tasks[t].state.Done?
      ensures outcome == Report(Approve, deeds) && Tells(p, t, task, outcome)
    {
      var ok;
      ghost var published := events;
      if Initial(start) { PublisherHasLanded(start, events, p, r, landed); }
      ok, s := MarkDone(p, t, r);
      ReviewedStaysOn(start, published, events, task);
      if !ok {
        return NotMarkedDone, s;
      }
      ghost var marked := events;
      outcome, s := CleanUpAfter(p, t, task, landed, s);
      DoneKept(start, marked, events, t);
    }

    /** The last part of both landings, and how they report it. */
    method CleanUpAfter(p: Token, t: TaskId, task: Task, landed: Commit, ghost r: Run) returns (outcome: Outcome, ghost s: Run)
      requires At(p, r) && r.phase.ReadStaleWip? && r.task == t && r.seen == task && r.source == Some(landed) == ReviewedCommit(task)
      modifies `world, `clock, `events, `deeds, `alone
      ensures Onward()
      ensures At(p, s) && s == Goto(r, ReleaseLock)
      ensures outcome.Finished? || outcome.NotCleaned?
      ensures Tells(p, t, task, outcome)
      ensures deeds == if outcome.Finished? then old(deeds).(cleaned := true) else old(deeds)
    {
      var ok;
      ok, s := Cleanup(p, t, landed, r);
      outcome := if ok then Finished else NotCleaned;
      assert events[..|events|] == events && After(start, events, |events|) == world;
    }

    /** OnBranch, asked by --cancel-landing of the reserved commit. */
    method ReservedIsLanded(p: Token, slug: Slug, commit: Commit, ghost r: Run) returns (landed: bool, ghost s: Run)
      requires At(p, r) && r.phase.CheckBranch? && r.kind.Cancel? && r.seen.slug == slug
      requires r.seen.landing.Some? && r.seen.landing.value.commit == commit
      modifies `world, `clock, `events, `deeds, `alone
      ensures Onward()
      ensures At(p, s) && s == if landed then Goto(r, ReleaseLock) else Send(r, CancelCall, AwaitCancel)
      ensures events != [] && landed == OnBranch(Before(), slug, commit)
      ensures !landed ==> WasAbsent(start, events, since, slug, commit)
      ensures deeds == old(deeds)
    {
      var input := Wait(p, r);
      ghost var waited := events;
      landed := slug in world.branch && IsAncestor(commit, world.branch[slug]);
      s := Read(p, input, r);
      assert events[..|waited|] == waited && After(start, events, |waited|) == Before();
    }

    /** cancelLanding: only under the lock, and only while the work is not on the branch. */
    method CancelLanding(p: Token, t: TaskId, task: Task, expires: int, ghost r: Run) returns (dropped: bool, ghost s: Run)
      requires At(p, r) && r == LandingRecovery.Fresh(t, Cancel, task, expires, ReadLock) && task.landing.Some? && deeds == NONE
      modifies `world, `clock, `events, `deeds, `alone
      ensures Onward()
      ensures At(p, s) && s.phase.Ended?
      ensures dropped == deeds.cancelled && (dropped ==> Tells(p, t, task, Dropped))
    {
      var locked;
      locked, s := LockBranch(p, task.slug, expires, r);
      if !locked {
        return false, s;
      }
      dropped, s := CancelHolding(p, t, task, s);
      ghost var told := events;
      s := Release(p, task.slug, s);
      if dropped { ReportStays(start, told, events, since, since, p, t, task, Dropped); }
    }

    method CancelHolding(p: Token, t: TaskId, task: Task, ghost r: Run) returns (dropped: bool, ghost s: Run)
      requires At(p, r) && r.phase.CheckBranch? && r.kind.Cancel? && r.task == t && r.seen == task && task.landing.Some?
      requires !deeds.cancelled
      modifies `world, `clock, `events, `deeds, `alone
      ensures Onward()
      ensures At(p, s) && s.phase.ReleaseLock? && s.seen == task
      ensures dropped == deeds.cancelled && (dropped ==> Tells(p, t, task, Dropped))
    {
      var landed, answer;
      landed, s := ReservedIsLanded(p, task.slug, task.landing.value.commit, r);
      if landed {
        return false, s;
      }
      ghost var looked := events;
      answer, s := CallBoard(p, CancelCall, s);
      dropped := answer.Granted?;
      AbsenceStays(start, looked, events, since, since, task.slug, task.landing.value.commit);
    }

    /** landDoneTask's first question, with the two that need no access: is there anything to land? */
    method FindWip(p: Token, t: TaskId, task: Task, ghost r: Run) returns (found: bool, ghost s: Run)
      requires At(p, r) && r.phase.FindWip? && r.task == t && task.state.Done?
      requires r.noOp == CurrentRoundIsNoOp(task) && r.reviewed == ReviewedCommit(task)
      modifies `world, `clock, `events, `deeds, `alone
      ensures Onward()
      ensures At(p, s) && s == Goto(r, if found then ReadLock else Ended)
      ensures found ==> ReviewedCommit(task).Some?
      ensures !found ==> NothingWaits(start, events, since, t, task, false)
      ensures deeds == if found then old(deeds).(found := true) else old(deeds)
    {
      var input := Wait(p, r);
      ghost var waited := events;
      found := t in world.wip && !CurrentRoundIsNoOp(task) && ReviewedCommit(task).Some?;
      s := Read(p, input, r);
      assert events[..|waited|] == waited && After(start, events, |waited|) == Before();
    }

    method ReviewedIsLanded(p: Token, slug: Slug, reviewed: Commit, ghost r: Run) returns (landed: bool, ghost s: Run)
      requires At(p, r) && r.phase.CheckBranch? && r.kind.LandDone? && r.seen.slug == slug && r.reviewed == Some(reviewed)
      modifies `world, `clock, `events, `deeds, `alone
      ensures Onward()
      ensures At(p, s) && s == if landed then r.(phase := ReadStaleWip, source := Some(reviewed)) else Goto(r, CheckWip)
      ensures deeds == if landed then old(deeds).(published := true) else old(deeds)
    {
      var input := Wait(p, r);
      landed := slug in world.branch && IsAncestor(reviewed, world.branch[slug]);
      s := Read(p, input, r);
    }

    /** landDoneTask. */
    method LandDoneTask(p: Token, t: TaskId, task: Task, expires: int, ghost r: Run) returns (outcome: Outcome, ghost s: Run)
      requires At(p, r) && r == LandingRecovery.Fresh(t, LandDone, task, expires, Phase.FindWip) && task.state.Done? && deeds == NONE
      modifies `world, `clock, `events, `deeds, `alone
      ensures Onward()
      ensures At(p, s) && s.phase.Ended?
      ensures outcome == Report(LandDone, deeds) && Tells(p, t, task, outcome)
      ensures outcome.NothingToDo? ==> NothingWaits(start, events, since, t, task, false)
    {
      var found, locked;
      found, s := FindWip(p, t, task, r);
      if !found {
        return NothingToDo, s;
      }
      locked, s := LockBranch(p, task.slug, expires, s);
      if !locked {
        return NotLocked, s;
      }
      outcome, s := LandDoneHolding(p, t, task, ReviewedCommit(task).value, s);
      ghost var told := events;
      s := Release(p, task.slug, s);
      ReportStays(start, told, events, since, since, p, t, task, outcome);
    }

    method LandDoneHolding(p: Token, t: TaskId, task: Task, reviewed: Commit, ghost r: Run) returns (outcome: Outcome, ghost s: Run)
      requires At(p, r) && r.phase.CheckBranch? && r.kind.LandDone? && r.task == t && r.seen == task
      requires r.reviewed == Some(reviewed) == ReviewedCommit(task)
      requires deeds == NONE.(found := true, locked := true)
      modifies `world, `clock, `events, `deeds, `alone
      ensures Onward()
      ensures At(p, s) && s.phase.ReleaseLock? && s.seen == task
      ensures outcome == Report(LandDone, deeds) && !outcome.NothingToDo? && Tells(p, t, task, outcome)
    {
      var landed;
      landed, s := ReviewedIsLanded(p, task.slug, reviewed, r);
      if landed {
        outcome, s := CleanUpAfter(p, t, task, reviewed, s);
        return;
      }
      outcome, s := LandUnlanded(p, t, task, reviewed, s);
    }

    /** landDoneTask, when the commit is not on the branch yet. */
    method LandUnlanded(p: Token, t: TaskId, task: Task, reviewed: Commit, ghost r: Run) returns (outcome: Outcome, ghost s: Run)
      requires At(p, r) && r.phase.CheckWip? && r.kind.LandDone? && r.task == t && r.seen == task
      requires r.reviewed == Some(reviewed) == ReviewedCommit(task)
      requires deeds == NONE.(found := true, locked := true)
      modifies `world, `clock, `events, `deeds, `alone
      ensures Onward()
      ensures At(p, s) && s.phase.ReleaseLock? && s.seen == task
      ensures outcome == Report(LandDone, deeds) && !outcome.NothingToDo? && Tells(p, t, task, outcome)
    {
      var there, plan, result;
      there, s := RequireWipAt(p, t, Some(reviewed), r);
      if !there {
        return NotLanded, s;
      }
      plan, s := Prepare(p, t, task, reviewed, s);
      if plan.None? {
        return NotLanded, s;
      }
      result, s := Publish(p, task.slug, t, plan.value, s);
      if !result.Moved? {
        return NotLanded, s;
      }
      outcome, s := CleanUpAfter(p, t, task, plan.value.source, s);
    }

    method ReadTask(p: Token, t: TaskId, cancelLanding: bool, expires: int) returns (task: Task)
      requires Valid() && p !in world.runs && t in world.tasks
      modifies this
      ensures events == old(events) + [Start(p, t, cancelLanding, expires)] && since == |old(events)|
      ensures task == old(world).tasks[t] && world == StartRun(old(world), p, t, cancelLanding, expires)
      ensures p in world.runs && world.runs[p] == NewRun(t, task, cancelLanding, expires)
      ensures At(p, world.runs[p]) && deeds == NONE && alone
    {
      var e := Start(p, t, cancelLanding, expires);
      task := world.tasks[t];
      StartNoted(start, events, p, t, cancelLanding, expires);
      StartPoised(world, p, t, cancelLanding, expires);
      LandingRecovery.PlayMore(start, events, e);
      world := StartRun(world, p, t, cancelLanding, expires);
      since, deeds, alone := |events|, NONE, true;
      events := events + [e];
      AloneStarts(start, events, p, around.inputs(0));
    }

    /** The choice executeApprove makes for a task it has read, without --cancel-landing. */
    method Choose(p: Token, t: TaskId, task: Task, expires: int) returns (outcome: Outcome)
      requires At(p, NewRun(t, task, false, expires))
      requires t in world.tasks && world.tasks[t] == task && deeds == NONE
      modifies `world, `clock, `events, `deeds, `alone
      ensures Onward()
      ensures p in world.runs && At(p, world.runs[p]) && world.runs[p].phase.Ended?
      ensures Tells(p, t, task, outcome)
      ensures HasWork(task, false) ==> outcome == Report(KindFor(task, false), deeds)
      ensures outcome.NothingToDo? ==> NothingWaits(start, events, since, t, task, false)
      ensures outcome.Finished? || outcome.NotCleaned? ==> t in world.tasks && world.tasks[t].state.Done?
    {
      ghost var s;
      match task.state {
        case Approved => outcome, s := ApproveLocalCommit(p, t, task, expires, NewRun(t, task, false, expires));
        case Done => outcome, s := LandDoneTask(p, t, task, expires, NewRun(t, task, false, expires));
        case _ => outcome := NothingToDo;
      }
      if task.state.Done? { DoneKept(start, old(events), events, t); }
    }

    /** With --cancel-landing. */
    method ChooseCancel(p: Token, t: TaskId, task: Task, expires: int) returns (outcome: Outcome)
      requires At(p, NewRun(t, task, true, expires)) && deeds == NONE
      modifies `world, `clock, `events, `deeds, `alone
      ensures Onward()
      ensures p in world.runs && At(p, world.runs[p]) && world.runs[p].phase.Ended?
      ensures Tells(p, t, task, outcome)
      ensures if task.landing.None? then outcome.NothingToDo? else outcome == Report(Cancel, deeds)
    {
      if task.landing.None? {
        return NothingToDo;
      }
      ghost var s;
      var dropped;
      dropped, s := CancelLanding(p, t, task, expires, LandingRecovery.Fresh(t, Cancel, task, expires, ReadLock));
      outcome := if dropped then Dropped else ReservationLeft;
    }

    /** executeApprove: read the task and choose. p is this process's fresh token. */
    method ExecuteApprove(p: Token, t: TaskId, cancelLanding: bool, expires: int) returns (outcome: Outcome)
      requires Valid() && p !in world.runs
      modifies this
      ensures old(events) <= events
      ensures Valid()
      ensures t in old(world).tasks ==> p in world.runs && world.runs[p].phase.Ended?
      ensures t in old(world).tasks ==> Truthful(start, events, |old(events)|, p, t, old(world).tasks[t], outcome)
      ensures t in old(world).tasks && HasWork(old(world).tasks[t], cancelLanding) ==>
        outcome == Report(KindFor(old(world).tasks[t], cancelLanding), DeedsOf(start, events, p))
      ensures outcome.NothingToDo? && t in old(world).tasks ==>
        NothingWaits(start, events, |old(events)|, t, old(world).tasks[t], cancelLanding)
      ensures outcome.Finished? || outcome.NotCleaned? ==> t in world.tasks && world.tasks[t].state.Done?
      ensures Initial(start) && Undisturbed(around) && !cancelLanding && Resumable(old(world), t, around.inputs(0)) ==>
        outcome.Finished? && LandingRecovery.EndsLanded(world, p, t, old(world).wip[t], old(world))
    {
      if t !in world.tasks {
        return NothingToDo;
      }
      var task := ReadTask(p, t, cancelLanding, expires);
      ghost var began := events;
      if cancelLanding {
        outcome := ChooseCancel(p, t, task, expires);
      } else {
        outcome := Choose(p, t, task, expires);
      }
      NotedIs(start, events, p, deeds);
      if Initial(start) && Undisturbed(around) && !cancelLanding && Resumable(old(world), t, around.inputs(0)) {
        AloneFinishes(start, old(events), began, events, p, t, expires, around.inputs(0));
      }
    }
  }

  /** What the protocol guarantees, for stores that any number of runs of this code, and everything
      around them, have worked on: a published commit is on its branch, once, and unless a precheck
      failed harmfully its task cannot be rejected. */
  lemma StoresAreSafe(stores: Stores, entry: Landed, to: TaskState)
    requires stores.Valid() && Initial(stores.start) && entry in stores.world.log
    ensures entry.task in stores.world.tasks
    ensures OnBranch(stores.world, stores.world.tasks[entry.task].slug, entry.commit)
    ensures forall i, j :: 0 <= i < j < |stores.world.log| ==> stores.world.log[i] != stores.world.log[j]
    ensures LandingSafety.PrechecksHarmless(stores.start, stores.events) ==> Transition(stores.world.tasks[entry.task], to).Err?
  {
    LandingSafety.PublishedStaysOnBranch(stores.start, stores.events, [], entry);
    assert stores.events + [] == stores.events;
    LandingSafety.PublishedOnce(stores.start, stores.events);
    if LandingSafety.PrechecksHarmless(stores.start, stores.events) {
      LandingSafety.PublishedIsProtected(stores.start, stores.events, entry, to);
    }
  }
}
