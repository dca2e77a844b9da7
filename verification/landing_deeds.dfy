/** What a run has done and learned, read off the history. */
module LandingDeeds {
  import opened Wrappers
  import opened Landing
  import opened LandingInvariant
  import opened LandingSafety
  import opened LandingProgress
  import LandingRecovery

  /** What has happened to a run so far. `found`: it found a done task's wip and a commit to land;
      `locked`: it took the lock; `reserved`: the board granted or showed it its reservation; `moved`:
      it moved a branch; `published`: it has its commit on the branch; `completed`: the board marked
      the task done for it, or showed it done; `cancelled`: the board granted its cancel; `cleaned`:
      its deletion of wip left none. */
  datatype Deeds = Deeds(
    found: bool, locked: bool, reserved: bool, moved: bool,
    published: bool, completed: bool, cancelled: bool, cleaned: bool)

  const NONE := Deeds(false, false, false, false, false, false, false, false)

  /** p's call is delivered and granted. */
  predicate IsGranted(w: World, p: Token, call: Call) {
    p in w.runs && w.runs[p].flight == Some(call) && w.runs[p].task in w.tasks && BoardAnswer(w, p, call).Ok?
  }

  function AfterGrant(d: Deeds, call: Call): Deeds {
    match call
    case BeginCall => d.(reserved := true)
    case CompleteCall => d.(completed := true)
    case CancelCall => d.(cancelled := true)
  }

  function AfterAct(d: Deeds, r: Run, s: Run, moves: bool, wipGone: bool): Deeds {
    d.(found := d.found || (r.phase.FindWip? && s.phase.ReadLock?),
       locked := d.locked || (r.phase.SwapLock? && s.locked),
       reserved := d.reserved || (r.phase.AskBegin? && s.phase.PublishRef?),
       moved := d.moved || moves,
       published := d.published || (!AfterPublished(r.phase) && AfterPublished(s.phase)),
       completed := d.completed || (r.phase.AskComplete? && s.phase.ReadStaleWip?),
       cleaned := d.cleaned || (r.phase.DeleteWip? && wipGone))
  }

  function AfterEvent(d: Deeds, w: World, e: Event, p: Token): Deeds {
    match e
    case Act(q, input) =>
      var next := ActRun(w, q, input);
      if q != p || p !in w.runs || p !in next.runs then d
      else AfterAct(d, w.runs[p], next.runs[p], next.log != w.log, w.runs[p].task !in next.wip)
    case Deliver(q, call, fate) => if q == p && fate.Heard? && IsGranted(w, p, call) then AfterGrant(d, call) else d
    case _ => d
  }

  function DeedsOf(start: World, events: seq<Event>, p: Token): Deeds {
    if events == [] then NONE
    else
      var n := |events| - 1;
      AfterEvent(DeedsOf(start, events[..n], p), Play(start, events[..n]), events[n], p)
  }

  /** d is what p has done. The history is looked at only through NotedAt. */
  predicate Noted(start: World, events: seq<Event>, p: Token, d: Deeds) {
    forall k :: |events| <= k <= |events| ==> NotedAt(start, events, k, p, d)
  }

  predicate NotedAt(start: World, events: seq<Event>, k: nat, p: Token, d: Deeds)
    requires k <= |events|
  {
    DeedsOf(start, events[..k], p) == d
  }

  lemma NotedIs(start: World, events: seq<Event>, p: Token, d: Deeds)
    ensures Noted(start, events, p, d) <==> DeedsOf(start, events, p) == d
  {
    assert events[..|events|] == events;
    if Noted(start, events, p, d) { assert NotedAt(start, events, |events|, p, d); }
  }

  lemma NotedSnoc(start: World, events: seq<Event>, p: Token, d: Deeds, e: Event)
    requires Noted(start, events, p, d)
    ensures Noted(start, events + [e], p, AfterEvent(d, Play(start, events), e, p))
  {
    NotedIs(start, events, p, d);
    DeedsSnoc(start, events, e, p);
    NotedIs(start, events + [e], p, AfterEvent(d, Play(start, events), e, p));
  }

  lemma DeedsSnoc(start: World, events: seq<Event>, e: Event, p: Token)
    ensures DeedsOf(start, events + [e], p) == AfterEvent(DeedsOf(start, events, p), Play(start, events), e, p)
  {
    assert (events + [e])[..|events|] == events;
  }

  /** Whatever was done stays done. */
  predicate Grew(d: Deeds, d': Deeds) {
    (d.found ==> d'.found) && (d.locked ==> d'.locked) && (d.reserved ==> d'.reserved) && (d.moved ==> d'.moved) &&
    (d.published ==> d'.published) && (d.completed ==> d'.completed) && (d.cancelled ==> d'.cancelled) && (d.cleaned ==> d'.cleaned)
  }

  lemma AfterEventGrows(d: Deeds, w: World, e: Event, p: Token)
    ensures Grew(d, AfterEvent(d, w, e, p))
  {
    if e.Act? {
      var next := ActRun(w, e.token, e.input);
      if e.token == p && p in w.runs && p in next.runs {
        AfterActGrows(d, w.runs[p], next.runs[p], next.log != w.log, w.runs[p].task !in next.wip);
      }
    }
  }

  lemma AfterActGrows(d: Deeds, r: Run, s: Run, moves: bool, wipGone: bool)
    ensures Grew(d, AfterAct(d, r, s, moves, wipGone))
  {
  }

  lemma {:induction false} DeedsStay(start: World, events: seq<Event>, n: nat, p: Token)
    requires n <= |events|
    ensures Grew(DeedsOf(start, events[..n], p), DeedsOf(start, events, p))
    decreases |events| - n
  {
    if n == |events| {
      assert events[..n] == events;
    } else {
      assert events[..n + 1] == events[..n] + [events[n]];
      DeedsSnoc(start, events[..n], events[n], p);
      AfterEventGrows(DeedsOf(start, events[..n], p), Play(start, events[..n]), events[n], p);
      DeedsStay(start, events, n + 1, p);
    }
  }

  /** Event k brings p the board's consent to its call. */
  predicate HearsConsent(start: World, events: seq<Event>, k: nat, p: Token, call: Call)
    requires k < |events|
  {
    events[k] == Deliver(p, call, Heard) && IsGranted(Play(start, events[..k]), p, call)
  }

  lemma ConsentIsNoted(start: World, events: seq<Event>, k: nat, p: Token, call: Call)
    requires k < |events| && HearsConsent(start, events, k, p, call)
    ensures match call
      case BeginCall => DeedsOf(start, events, p).reserved
      case CompleteCall => DeedsOf(start, events, p).completed
      case CancelCall => DeedsOf(start, events, p).cancelled
  {
    assert events[..k + 1] == events[..k] + [events[k]];
    DeedsSnoc(start, events[..k], events[k], p);
    DeedsStay(start, events, k + 1, p);
  }

  lemma OnlyConsentCancels(d: Deeds, w: World, e: Event, p: Token)
    requires !d.cancelled && AfterEvent(d, w, e, p).cancelled
    ensures e == Deliver(p, CancelCall, Heard) && IsGranted(w, p, CancelCall)
  {
  }

  lemma {:induction false} CancelWasHeard(start: World, events: seq<Event>, p: Token) returns (k: nat)
    requires DeedsOf(start, events, p).cancelled
    ensures k < |events| && HearsConsent(start, events, k, p, CancelCall)
    decreases |events|
  {
    var n := |events| - 1;
    if DeedsOf(start, events[..n], p).cancelled {
      k := CancelWasHeard(start, events[..n], p);
      assert events[..n][..k] == events[..k];
    } else {
      k := n;
      OnlyConsentCancels(DeedsOf(start, events[..n], p), Play(start, events[..n]), events[n], p);
    }
  }

  /** What the others do is none of a run's deeds. */
  lemma {:induction false} ForeignDeeds(start: World, events: seq<Event>, others: seq<Event>, p: Token)
    requires forall e :: e in others ==> Elsewhere(e, p)
    ensures DeedsOf(start, events + others, p) == DeedsOf(start, events, p)
    decreases |others|
  {
    if others == [] {
      assert events + others == events;
    } else {
      var n := |others| - 1;
      assert others[n] in others;
      ForeignDeeds(start, events, others[..n], p);
      assert events + others == events + others[..n] + [others[n]];
      DeedsSnoc(start, events + others[..n], others[n], p);
    }
  }

  lemma ForeignNoted(start: World, events: seq<Event>, others: seq<Event>, p: Token, d: Deeds)
    requires Noted(start, events, p, d) && forall e :: e in others ==> Elsewhere(e, p)
    ensures Noted(start, events + others, p, d)
  {
    NotedIs(start, events, p, d);
    ForeignDeeds(start, events, others, p);
    NotedIs(start, events + others, p, d);
  }

  lemma OthersMove(start: World, events: seq<Event>, others: seq<Event>, p: Token, r: Run, d: Deeds, w: World)
    requires w == Play(start, events) && p in w.runs && SameProgress(r, w.runs[p]) && Noted(start, events, p, d)
    requires forall e :: e in others ==> Elsewhere(e, p)
    ensures Play(start, events + others) == Play(w, others) && Noted(start, events + others, p, d)
    ensures p in Play(w, others).runs && SameProgress(r, Play(w, others).runs[p])
    ensures others == [] ==> events + others == events
  {
    PlayElsewhere(w, others, p);
    PlayAppend(start, events, others);
    ForeignNoted(start, events, others, p, d);
    if others == [] { assert events + others == events; }
  }

  lemma ActKeepsRuns(w: World, q: Token, input: Input)
    ensures w.runs.Keys <= ActRun(w, q, input).runs.Keys
  {
    if q in w.runs {
      match w.runs[q].phase
      case SwapLock =>
      case PublishRef =>
      case DeleteWip =>
      case ReleaseLock =>
      case _ => assert ActRun(w, q, input) == SetRun(w, q, LocalStep(w, q, w.runs[q], input));
    }
  }

  lemma RunsStay(w: World, e: Event, p: Token)
    requires p in w.runs
    ensures p in Next(w, e).runs
  {
    match e
    case Act(q, input) => ActKeepsRuns(w, q, input);
    case _ =>
  }

  /** A run that has not started has done nothing. */
  lemma {:induction false} NothingDoneYet(start: World, events: seq<Event>, p: Token)
    requires p !in Play(start, events).runs
    ensures DeedsOf(start, events, p) == NONE
    decreases |events|
  {
    if events != [] {
      var n := |events| - 1;
      assert events == events[..n] + [events[n]];
      LandingRecovery.PlayMore(start, events[..n], events[n]);
      if p in Play(start, events[..n]).runs { RunsStay(Play(start, events[..n]), events[n], p); }
      NothingDoneYet(start, events[..n], p);
      StrangersDoNothing(NONE, Play(start, events[..n]), events[n], p);
    }
  }

  lemma StrangersDoNothing(d: Deeds, w: World, e: Event, p: Token)
    requires p !in w.runs
    ensures AfterEvent(d, w, e, p) == d
  {
  }

  // ---------------------------------------------------------------------------------------------
  // Deeds are real
  // ---------------------------------------------------------------------------------------------

  /** Whichever deed is new, the stores show it. */
  predicate Shown(d: Deeds, d': Deeds, w: World, w': World, p: Token, r: Run) {
    && (d'.found && !d.found ==> r.task in w.wip && !r.noOp && r.reviewed.Some?)
    && (d'.locked && !d.locked ==> r.seen.slug in w'.lock && w'.lock[r.seen.slug].owner == p)
    && (d'.reserved && !d.reserved ==>
         r.task in w'.tasks && w'.tasks[r.task].landing.Some? && w'.tasks[r.task].landing.value.attempt == p)
    && (d'.moved && !d.moved ==> r.source.Some? && w'.log == w.log + [Landed(r.task, r.source.value)])
    && (d'.published && !d.published ==>
         p in w'.runs && w'.runs[p].source.Some? && OnBranch(w', r.seen.slug, w'.runs[p].source.value))
    && (d'.completed && !d.completed ==> r.task in w'.tasks && w'.tasks[r.task].state.Done?)
    && (d'.cancelled && !d.cancelled ==> r.task in w'.tasks && w'.tasks[r.task].landing.None?)
    && (d'.cleaned && !d.cleaned ==> r.task !in w'.wip)
  }

  lemma ActDeeds(d: Deeds, w: World, p: Token, input: Input, next: World)
    requires p in w.runs && next == ActRun(w, p, input) && p in next.runs
    ensures AfterEvent(d, w, Act(p, input), p) ==
      AfterAct(d, w.runs[p], next.runs[p], next.log != w.log, w.runs[p].task !in next.wip)
  {
  }

  lemma LocalAct(d: Deeds, r: Run, s: Run, gone: bool)
    requires IsLocal(r.phase)
    ensures AfterAct(d, r, s, false, gone) == AfterAct(d, r, s, false, false)
  {
  }

  lemma SwapAct(d: Deeds, r: Run, s: Run, gone: bool)
    requires r.phase.SwapLock? && !AfterPublished(s.phase)
    ensures AfterAct(d, r, s, false, gone) == d.(locked := d.locked || s.locked)
  {
  }

  lemma PublishAct(d: Deeds, r: Run, s: Run, moves: bool, gone: bool)
    requires r.phase.PublishRef?
    ensures AfterAct(d, r, s, moves, gone) == d.(moved := d.moved || moves, published := d.published || AfterPublished(s.phase))
  {
  }

  lemma LastAct(d: Deeds, r: Run, s: Run, gone: bool)
    requires (r.phase.DeleteWip? || r.phase.ReleaseLock?) && !AfterPublished(s.phase)
    ensures AfterAct(d, r, s, false, gone) == d.(cleaned := d.cleaned || (r.phase.DeleteWip? && gone))
  {
  }

  /** A local step that gets somewhere. */
  function AfterLocal(d: Deeds, r: Run, s: Run): Deeds {
    match r.phase
    case FindWip => if s.phase.ReadLock? then d.(found := true) else d
    case CheckBranch => if s.phase.ReadStaleWip? then d.(published := true) else d
    case AskBegin => if s.phase.PublishRef? then d.(reserved := true) else d
    case AskComplete => if s.phase.ReadStaleWip? then d.(completed := true) else d
    case _ => d
  }

  lemma LocalGoesNowhere(w: World, p: Token, r: Run, input: Input)
    requires IsLocal(r.phase) && !AfterPublished(r.phase) && !r.phase.CheckBranch?
    ensures !AfterPublished(LocalStep(w, p, r, input).phase)
  {
    ReadsGoNowhere(w, r, input);
    AsksGoNowhere(w, p, r, input);
  }

  lemma ReadsGoNowhere(w: World, r: Run, input: Input)
    ensures !AfterPublished(FindWipStep(w, r).phase) && !AfterPublished(ReadLockStep(w, r, input.now).phase)
    ensures !AfterPublished(CheckWipStep(w, r).phase) && !AfterPublished(ReadWipStep(w, r, input.checkedOut).phase)
  {
  }

  lemma AsksGoNowhere(w: World, p: Token, r: Run, input: Input)
    ensures !AfterPublished(AskBeginStep(w, p, r, input.boardDown).phase) && !AfterPublished(AskLockStep(w, p, r).phase)
    ensures !AfterPublished(ReadBranchStep(w, r, input.content, input.gateFails).phase)
  {
  }

  lemma CheckGoesTo(w: World, r: Run)
    ensures AfterPublished(CheckReservedStep(w, r).phase) ==> CheckReservedStep(w, r).phase.ReadStaleWip?
    ensures AfterPublished(CheckLandedStep(w, r).phase) ==> CheckLandedStep(w, r).phase.ReadStaleWip?
  {
  }

  lemma LocalIs(d: Deeds, w: World, p: Token, r: Run, input: Input)
    requires IsLocal(r.phase)
    ensures AfterAct(d, r, LocalStep(w, p, r, input), false, false) == AfterLocal(d, r, LocalStep(w, p, r, input))
  {
    if !AfterPublished(r.phase) && !r.phase.CheckBranch? { LocalGoesNowhere(w, p, r, input); }
    if r.phase.CheckBranch? { CheckGoesTo(w, r); }
    AfterLocalIs(d, r, LocalStep(w, p, r, input));
  }

  lemma AfterLocalIs(d: Deeds, r: Run, s: Run)
    requires IsLocal(r.phase)
    requires AfterPublished(s.phase) ==> AfterPublished(r.phase) || (r.phase.CheckBranch? && s.phase.ReadStaleWip?)
    ensures AfterAct(d, r, s, false, false) == AfterLocal(d, r, s)
  {
  }

  lemma LocalDeeds(d: Deeds, w: World, p: Token, input: Input)
    requires p in w.runs && IsLocal(w.runs[p].phase)
    ensures AfterEvent(d, w, Act(p, input), p) == AfterAct(d, w.runs[p], LocalStep(w, p, w.runs[p], input), false, false)
  {
    ActIs(w, p, input);
    var s := LocalStep(w, p, w.runs[p], input);
    ActDeeds(d, w, p, input, SetRun(w, p, s));
    LocalAct(d, w.runs[p], s, w.runs[p].task !in w.wip);
  }

  function SwapRun(w: World, r: Run): Run {
    if LockRefIs(w, r.seen.slug, r.expected) then r.(phase := if r.kind.Approve? then CheckWip else CheckBranch, locked := true)
    else if r.tries == 0 then r.(phase := ReadLock, tries := 1)
    else Goto(r, Ended)
  }

  lemma SwapIs(w: World, p: Token, r: Run)
    ensures var w' := SwapLockStep(w, p, r); p in w'.runs && w'.runs[p] == SwapRun(w, r) && w'.log == w.log
  {
  }

  lemma SwapDeeds(d: Deeds, w: World, p: Token, input: Input)
    requires p in w.runs && w.runs[p].phase.SwapLock?
    ensures AfterEvent(d, w, Act(p, input), p) ==
      d.(locked := d.locked || w.runs[p].locked || LockRefIs(w, w.runs[p].seen.slug, w.runs[p].expected))
  {
    var r, w' := w.runs[p], SwapLockStep(w, p, w.runs[p]);
    ActIs(w, p, input);
    SwapIs(w, p, r);
    ActDeeds(d, w, p, input, w');
    SwapAct(d, r, SwapRun(w, r), r.task !in w'.wip);
  }

  lemma PublishIsDone(w: World, p: Token, r: Run, checkedOut: bool)
    ensures var w' := PublishStep(w, p, r, checkedOut);
      p in w'.runs && (w'.log != w.log <==> PublishSucceeds(w, p, r, checkedOut)) &&
      (AfterPublished(w'.runs[p].phase) <==> PublishSucceeds(w, p, r, checkedOut) || (r.plan.Some? && !Moves(r)))
  {
    var w' := PublishStep(w, p, r, checkedOut);
    if PublishSucceeds(w, p, r, checkedOut) {
      assert w'.runs[p] == AfterPublish(r);
    } else {
      assert w'.runs[p] == NoPublishStep(r, checkedOut);
    }
  }

  lemma PublishDeeds(d: Deeds, w: World, p: Token, input: Input)
    requires p in w.runs && w.runs[p].phase.PublishRef?
    ensures var r := w.runs[p];
      var moves := PublishSucceeds(w, p, r, input.checkedOut);
      AfterEvent(d, w, Act(p, input), p) ==
        d.(moved := d.moved || moves, published := d.published || moves || (r.plan.Some? && !Moves(r)))
  {
    var r, w' := w.runs[p], PublishStep(w, p, w.runs[p], input.checkedOut);
    ActIs(w, p, input);
    PublishIsDone(w, p, r, input.checkedOut);
    ActDeeds(d, w, p, input, w');
    PublishAct(d, r, w'.runs[p], w'.log != w.log, r.task !in w'.wip);
  }

  lemma DeletionDeeds(d: Deeds, w: World, p: Token, input: Input)
    requires p in w.runs && w.runs[p].phase.DeleteWip?
    ensures var r := w.runs[p];
      AfterEvent(d, w, Act(p, input), p) ==
        d.(cleaned := d.cleaned || r.task !in w.wip || Some(w.wip[r.task]) == r.source)
  {
    var r, w' := w.runs[p], DeleteWipStep(w, p, w.runs[p]);
    ActIs(w, p, input);
    assert w'.runs[p] == Goto(r, ReleaseLock) && w'.log == w.log;
    ActDeeds(d, w, p, input, w');
    LastAct(d, r, w'.runs[p], r.task !in w'.wip);
  }

  lemma ReleaseDeeds(d: Deeds, w: World, p: Token, input: Input)
    requires p in w.runs && w.runs[p].phase.ReleaseLock?
    ensures AfterEvent(d, w, Act(p, input), p) == d
  {
    var r, w' := w.runs[p], ReleaseLockStep(w, p, w.runs[p]);
    ActIs(w, p, input);
    assert w'.runs[p] == Goto(r, Ended) && w'.log == w.log;
    ActDeeds(d, w, p, input, w');
    LastAct(d, r, w'.runs[p], r.task !in w'.wip);
  }

  /** What the run comes to know with a local step. */
  predicate Learns(w: World, p: Token, r: Run, s: Run) {
    && (!AfterPublished(r.phase) && AfterPublished(s.phase) ==> s.source.Some? && OnBranch(w, r.seen.slug, s.source.value))
    && (r.phase.FindWip? && s.phase.ReadLock? ==> r.task in w.wip && !r.noOp && r.reviewed.Some?)
    && (r.phase.AskBegin? && s.phase.PublishRef? ==>
         r.task in w.tasks && w.tasks[r.task].landing.Some? && w.tasks[r.task].landing.value.attempt == p)
    && (r.phase.AskComplete? && s.phase.ReadStaleWip? ==> r.task in w.tasks && w.tasks[r.task].state.Done?)
  }

  lemma CheckLearns(w: World, p: Token, r: Run)
    requires r.phase.CheckBranch?
    ensures Learns(w, p, r, CheckReservedStep(w, r)) && Learns(w, p, r, CheckLandedStep(w, r))
  {
  }

  lemma AskLearns(w: World, p: Token, r: Run, boardDown: bool)
    ensures r.phase.AskBegin? ==> Learns(w, p, r, AskBeginStep(w, p, r, boardDown))
    ensures r.phase.AskComplete? ==> Learns(w, p, r, AskCompleteStep(w, r, boardDown))
    ensures r.phase.AskLock? ==> Learns(w, p, r, AskLockStep(w, p, r))
  {
  }

  lemma ReadLearns(w: World, p: Token, r: Run, input: Input)
    ensures r.phase.FindWip? ==> Learns(w, p, r, FindWipStep(w, r))
    ensures r.phase.ReadLock? ==> Learns(w, p, r, ReadLockStep(w, r, input.now))
    ensures r.phase.CheckWip? ==> Learns(w, p, r, CheckWipStep(w, r))
    ensures r.phase.ReadWip? ==> Learns(w, p, r, ReadWipStep(w, r, input.checkedOut))
    ensures r.phase.ReadStaleWip? ==> Learns(w, p, r, ReadStaleWipStep(w, r, input.worktreeStuck))
  {
  }

  lemma PrepareLearns(w: World, p: Token, r: Run, input: Input)
    requires r.phase.ReadBranch?
    ensures Learns(w, p, r, ReadBranchStep(w, r, input.content, input.gateFails))
  {
  }

  lemma LocalStepLearns(w: World, p: Token, r: Run, input: Input)
    requires IsLocal(r.phase)
    ensures Learns(w, p, r, LocalStep(w, p, r, input))
  {
    match r.phase
    case CheckBranch => CheckLearns(w, p, r);
    case AskBegin => AskLearns(w, p, r, input.boardDown);
    case AskLock => AskLearns(w, p, r, input.boardDown);
    case AskComplete => AskLearns(w, p, r, input.boardDown);
    case ReadBranch => PrepareLearns(w, p, r, input);
    case FindWip => ReadLearns(w, p, r, input);
    case ReadLock => ReadLearns(w, p, r, input);
    case CheckWip => ReadLearns(w, p, r, input);
    case ReadWip => ReadLearns(w, p, r, input);
    case ReadStaleWip => ReadLearns(w, p, r, input);
    case _ =>
  }

  // ---------------------------------------------------------------------------------------------
  // Noting them, step by step
  // ---------------------------------------------------------------------------------------------

  lemma LocalNoted(start: World, events: seq<Event>, p: Token, d: Deeds, w: World, input: Input)
    requires Noted(start, events, p, d) && w == Play(start, events) && p in w.runs && IsLocal(w.runs[p].phase)
    ensures Noted(start, events + [Act(p, input)], p, AfterLocal(d, w.runs[p], LocalStep(w, p, w.runs[p], input)))
  {
    NotedSnoc(start, events, p, d, Act(p, input));
    LocalDeeds(d, w, p, input);
    LocalIs(d, w, p, w.runs[p], input);
  }

  lemma SwapNoted(start: World, events: seq<Event>, p: Token, d: Deeds, w: World, input: Input)
    requires Noted(start, events, p, d) && w == Play(start, events) && p in w.runs
    requires w.runs[p].phase.SwapLock? && !w.runs[p].locked
    ensures Noted(start, events + [Act(p, input)], p,
                  if LockRefIs(w, w.runs[p].seen.slug, w.runs[p].expected) then d.(locked := true) else d)
  {
    NotedSnoc(start, events, p, d, Act(p, input));
    SwapDeeds(d, w, p, input);
  }

  lemma PublishNoted(start: World, events: seq<Event>, p: Token, d: Deeds, w: World, input: Input)
    requires Noted(start, events, p, d) && w == Play(start, events) && p in w.runs && w.runs[p].phase.PublishRef?
    requires w.runs[p].plan.Some?
    ensures var plan := w.runs[p].plan.value;
      var slug := w.runs[p].seen.slug;
      var ok := plan.kind.AlreadyThere? ||
        (!input.checkedOut && LockRefIs(w, slug, Some(p)) && RefIs(w.branch, slug, plan.previous));
      Noted(start, events + [Act(p, input)], p,
            if ok then d.(published := true, moved := d.moved || !plan.kind.AlreadyThere?) else d)
  {
    NotedSnoc(start, events, p, d, Act(p, input));
    PublishDeeds(d, w, p, input);
  }

  lemma DeletionNoted(start: World, events: seq<Event>, p: Token, d: Deeds, w: World, input: Input)
    requires Noted(start, events, p, d) && w == Play(start, events) && p in w.runs && w.runs[p].phase.DeleteWip?
    ensures Noted(start, events + [Act(p, input)], p,
                  if w.runs[p].task !in w.wip || Some(w.wip[w.runs[p].task]) == w.runs[p].source then d.(cleaned := true) else d)
  {
    NotedSnoc(start, events, p, d, Act(p, input));
    DeletionDeeds(d, w, p, input);
  }

  lemma ReleaseNoted(start: World, events: seq<Event>, p: Token, d: Deeds, w: World, input: Input)
    requires Noted(start, events, p, d) && w == Play(start, events) && p in w.runs && w.runs[p].phase.ReleaseLock?
    ensures Noted(start, events + [Act(p, input)], p, d)
  {
    NotedSnoc(start, events, p, d, Act(p, input));
    ReleaseDeeds(d, w, p, input);
  }

  lemma StartNoted(start: World, events: seq<Event>, p: Token, t: TaskId, cancelLanding: bool, expires: int)
    requires p !in Play(start, events).runs
    ensures Noted(start, events + [Start(p, t, cancelLanding, expires)], p, NONE)
  {
    NothingDoneYet(start, events, p);
    NotedIs(start, events, p, NONE);
    NotedSnoc(start, events, p, NONE, Start(p, t, cancelLanding, expires));
  }

  lemma GrantNoted(start: World, events: seq<Event>, p: Token, d: Deeds, w: World, call: Call, fate: Fate)
    requires Noted(start, events, p, d) && w == Play(start, events) && p in w.runs && !fate.Unheard?
    requires w.runs[p].flight == Some(call) && w.runs[p].task in w.tasks
    ensures Noted(start, events + [Deliver(p, call, fate)], p,
                  if fate.Heard? && BoardAnswer(w, p, call).Ok? then AfterGrant(d, call) else d)
  {
    NotedSnoc(start, events, p, d, Deliver(p, call, fate));
  }

  lemma LocalDeedsAreReal(d: Deeds, w: World, input: Input, p: Token)
    requires p in w.runs && IsLocal(w.runs[p].phase)
    ensures Shown(d, AfterEvent(d, w, Act(p, input), p), w, ActRun(w, p, input), p, w.runs[p])
  {
    var r, s := w.runs[p], LocalStep(w, p, w.runs[p], input);
    ActIs(w, p, input);
    LocalDeeds(d, w, p, input);
    LocalStepLearns(w, p, r, input);
    LocalShown(d, w, p, r, s);
  }

  lemma LocalShown(d: Deeds, w: World, p: Token, r: Run, s: Run)
    requires IsLocal(r.phase) && Learns(w, p, r, s)
    ensures Shown(d, AfterAct(d, r, s, false, false), w, SetRun(w, p, s), p, r)
  {
  }

  lemma SwapDeedsAreReal(d: Deeds, w: World, input: Input, p: Token)
    requires Consistent(w) && p in w.runs && w.runs[p].phase.SwapLock?
    ensures Shown(d, AfterEvent(d, w, Act(p, input), p), w, ActRun(w, p, input), p, w.runs[p])
  {
    RunAt(w, p);
    ActIs(w, p, input);
    SwapDeeds(d, w, p, input);
  }

  lemma PublishDeedsAreReal(d: Deeds, w: World, input: Input, p: Token)
    requires Consistent(w) && p in w.runs && w.runs[p].phase.PublishRef?
    ensures Shown(d, AfterEvent(d, w, Act(p, input), p), w, ActRun(w, p, input), p, w.runs[p])
  {
    var r := w.runs[p];
    RunAt(w, p);
    ActIs(w, p, input);
    PublishDeeds(d, w, p, input);
    PublishShown(d, w, p, r, input.checkedOut);
  }

  lemma PublishShown(d: Deeds, w: World, p: Token, r: Run, checkedOut: bool)
    requires r.phase.PublishRef? && PlanOk(w, r)
    ensures var moves := PublishSucceeds(w, p, r, checkedOut);
      var d' := d.(moved := d.moved || moves, published := d.published || moves || (r.plan.Some? && !Moves(r)));
      Shown(d, d', w, PublishStep(w, p, r, checkedOut), p, r)
  {
    var w' := PublishStep(w, p, r, checkedOut);
    if PublishSucceeds(w, p, r, checkedOut) {
      assert w'.runs[p] == AfterPublish(r);
    } else {
      assert w'.runs[p] == NoPublishStep(r, checkedOut) && w'.branch == w.branch;
    }
  }

  lemma LastDeedsAreReal(d: Deeds, w: World, input: Input, p: Token)
    requires p in w.runs && (w.runs[p].phase.DeleteWip? || w.runs[p].phase.ReleaseLock?)
    ensures Shown(d, AfterEvent(d, w, Act(p, input), p), w, ActRun(w, p, input), p, w.runs[p])
  {
    ActIs(w, p, input);
    if w.runs[p].phase.DeleteWip? {
      DeletionDeeds(d, w, p, input);
    } else {
      ReleaseDeeds(d, w, p, input);
    }
  }

  lemma ActDeedsAreReal(d: Deeds, w: World, input: Input, p: Token)
    requires Consistent(w) && p in w.runs
    ensures Shown(d, AfterEvent(d, w, Act(p, input), p), w, ActRun(w, p, input), p, w.runs[p])
  {
    if IsLocal(w.runs[p].phase) {
      LocalDeedsAreReal(d, w, input, p);
    } else if w.runs[p].phase.SwapLock? {
      SwapDeedsAreReal(d, w, input, p);
    } else if w.runs[p].phase.PublishRef? {
      PublishDeedsAreReal(d, w, input, p);
    } else {
      LastDeedsAreReal(d, w, input, p);
    }
  }

  lemma GrantIsReal(d: Deeds, w: World, call: Call, p: Token)
    requires IsGranted(w, p, call)
    ensures Shown(d, AfterGrant(d, call), w, DeliverCall(w, p, call, Heard), p, w.runs[p])
  {
  }

  /** Whatever a run notes as done is so in the stores at that moment. */
  lemma DeedsAreReal(d: Deeds, w: World, e: Event, p: Token)
    requires Consistent(w) && p in w.runs
    ensures Shown(d, AfterEvent(d, w, e, p), w, Next(w, e), p, w.runs[p])
  {
    if e.Act? && e.token == p {
      ActDeedsAreReal(d, w, e.input, p);
    } else if e.Deliver? && e.token == p && e.fate.Heard? && IsGranted(w, p, e.call) {
      GrantIsReal(d, w, e.call, p);
    } else {
      NoDeed(d, w, e, p);
      NothingShown(d, w, Next(w, e), p, w.runs[p]);
    }
  }

  lemma NoDeed(d: Deeds, w: World, e: Event, p: Token)
    requires !(e.Act? && e.token == p) && !(e.Deliver? && e.token == p && e.fate.Heard? && IsGranted(w, p, e.call))
    ensures AfterEvent(d, w, e, p) == d
  {
  }

  lemma NothingShown(d: Deeds, w: World, w': World, p: Token, r: Run)
    ensures Shown(d, d, w, w', p, r)
  {
  }

  lemma {:induction false} LockWasTaken(start: World, events: seq<Event>, p: Token) returns (k: nat, slug: Slug)
    requires Consistent(start) && DeedsOf(start, events, p).locked
    ensures k <= |events| && slug in Play(start, events[..k]).lock && Play(start, events[..k]).lock[slug].owner == p
    decreases |events|
  {
    var n := |events| - 1;
    var w := Play(start, events[..n]);
    assert events == events[..n] + [events[n]] && events[..n + 1] == events;
    LandingRecovery.PlayMore(start, events[..n], events[n]);
    if DeedsOf(start, events[..n], p).locked {
      k, slug := LockWasTaken(start, events[..n], p);
      assert events[..n][..k] == events[..k];
    } else {
      if p !in w.runs { StrangersDoNothing(DeedsOf(start, events[..n], p), w, events[n], p); }
      PlayKeepsConsistent(start, events[..n]);
      DeedsAreReal(DeedsOf(start, events[..n], p), w, events[n], p);
      k, slug := n + 1, w.runs[p].seen.slug;
    }
  }

  lemma OnlySwapTakesLock(d: Deeds, w: World, input: Input, p: Token, slug: Slug)
    requires p in w.runs && slug in ActRun(w, p, input).lock && ActRun(w, p, input).lock[slug].owner == p
    requires slug in w.lock ==> w.lock[slug].owner != p
    ensures AfterEvent(d, w, Act(p, input), p).locked
  {
    ActIs(w, p, input);
    if w.runs[p].phase.SwapLock? {
      SwapDeeds(d, w, p, input);
    }
  }

  lemma LockIsNoted(start: World, events: seq<Event>, n: nat, p: Token, slug: Slug)
    requires n < |events| && events[n].Act? && events[n].token == p && p in Play(start, events[..n]).runs
    requires slug in Play(start, events[..n + 1]).lock && Play(start, events[..n + 1]).lock[slug].owner == p
    requires slug in Play(start, events[..n]).lock ==> Play(start, events[..n]).lock[slug].owner != p
    ensures DeedsOf(start, events, p).locked
  {
    assert events[..n + 1] == events[..n] + [events[n]];
    LandingRecovery.PlayMore(start, events[..n], events[n]);
    OnlySwapTakesLock(DeedsOf(start, events[..n], p), Play(start, events[..n]), events[n].input, p, slug);
    DeedsSnoc(start, events[..n], events[n], p);
    DeedsStay(start, events, n + 1, p);
  }

  // ---------------------------------------------------------------------------------------------
  // A run that published nothing
  // ---------------------------------------------------------------------------------------------

  /** The run is past publishing, or its CompleteLanding is still on its way. */
  predicate PastPublishing(w: World, p: Token) {
    p in w.runs && (AfterPublished(w.runs[p].phase) || w.runs[p].flight == Some(CompleteCall))
  }

  predicate NotesPublishing(d: Deeds, w: World, p: Token) {
    (PastPublishing(w, p) ==> d.published) && (d.moved ==> d.published)
  }

  lemma SomeStepsSend(w: World, p: Token, r: Run, input: Input)
    ensures CheckReservedStep(w, r).flight in {r.flight, Some(CancelCall)}
    ensures AskLockStep(w, p, r).flight in {r.flight, Some(CancelCall)}
    ensures ReadBranchStep(w, r, input.content, input.gateFails).flight in {r.flight, Some(BeginCall)}
  {
  }

  lemma SomeStepsSendNothing(w: World, r: Run, input: Input)
    ensures FindWipStep(w, r).flight == ReadLockStep(w, r, input.now).flight == CheckLandedStep(w, r).flight == r.flight
    ensures ReadStaleWipStep(w, r, input.worktreeStuck).flight == r.flight
  {
  }

  lemma OtherStepsSendNothing(w: World, p: Token, r: Run, input: Input)
    ensures CheckWipStep(w, r).flight == ReadWipStep(w, r, input.checkedOut).flight == r.flight
    ensures AskBeginStep(w, p, r, input.boardDown).flight == AskCompleteStep(w, r, input.boardDown).flight == r.flight
  {
  }

  lemma LocalStepSendsNoComplete(w: World, p: Token, r: Run, input: Input)
    requires IsLocal(r.phase)
    ensures LocalStep(w, p, r, input).flight == Some(CompleteCall) ==> r.flight == Some(CompleteCall)
  {
    SomeStepsSend(w, p, r, input);
    SomeStepsSendNothing(w, r, input);
    OtherStepsSendNothing(w, p, r, input);
  }

  lemma LocalPublishes(d: Deeds, w: World, p: Token, input: Input)
    requires p in w.runs && IsLocal(w.runs[p].phase) && NotesPublishing(d, w, p)
    ensures NotesPublishing(AfterEvent(d, w, Act(p, input), p), ActRun(w, p, input), p)
  {
    ActIs(w, p, input);
    LocalDeeds(d, w, p, input);
    LocalStepSendsNoComplete(w, p, w.runs[p], input);
    var d' := AfterAct(d, w.runs[p], LocalStep(w, p, w.runs[p], input), false, false);
    assert d'.moved == d.moved;
  }

  lemma PublishNotes(d: Deeds, w: World, p: Token, input: Input)
    requires p in w.runs && w.runs[p].phase.PublishRef? && NotesPublishing(d, w, p)
    ensures NotesPublishing(AfterEvent(d, w, Act(p, input), p), ActRun(w, p, input), p)
  {
    var r := w.runs[p];
    ActIs(w, p, input);
    PublishDeeds(d, w, p, input);
    PublishIsDone(w, p, r, input.checkedOut);
    PublishSends(w, p, r, input.checkedOut);
  }

  lemma PublishSends(w: World, p: Token, r: Run, checkedOut: bool)
    ensures var s := PublishStep(w, p, r, checkedOut).runs[p];
      s.flight == Some(CompleteCall) ==> r.flight == Some(CompleteCall) || AfterPublished(s.phase)
  {
    var w' := PublishStep(w, p, r, checkedOut);
    if PublishSucceeds(w, p, r, checkedOut) {
      assert w'.runs == w.runs[p := AfterPublish(r)];
    } else {
      assert w'.runs == w.runs[p := NoPublishStep(r, checkedOut)];
    }
  }

  lemma SwapNotes(d: Deeds, w: World, p: Token, input: Input)
    requires p in w.runs && w.runs[p].phase.SwapLock? && NotesPublishing(d, w, p)
    ensures NotesPublishing(AfterEvent(d, w, Act(p, input), p), ActRun(w, p, input), p)
  {
    ActIs(w, p, input);
    SwapDeeds(d, w, p, input);
    SwapIs(w, p, w.runs[p]);
  }

  lemma LastNotes(d: Deeds, w: World, p: Token, input: Input)
    requires p in w.runs && (w.runs[p].phase.DeleteWip? || w.runs[p].phase.ReleaseLock?) && NotesPublishing(d, w, p)
    ensures NotesPublishing(AfterEvent(d, w, Act(p, input), p), ActRun(w, p, input), p)
  {
    ActIs(w, p, input);
    if w.runs[p].phase.DeleteWip? {
      DeletionDeeds(d, w, p, input);
    } else {
      ReleaseDeeds(d, w, p, input);
    }
  }

  lemma ActPublishes(d: Deeds, w: World, p: Token, input: Input)
    requires NotesPublishing(d, w, p)
    ensures NotesPublishing(AfterEvent(d, w, Act(p, input), p), ActRun(w, p, input), p)
  {
    if p in w.runs {
      if IsLocal(w.runs[p].phase) {
        LocalPublishes(d, w, p, input);
      } else if w.runs[p].phase.PublishRef? {
        PublishNotes(d, w, p, input);
      } else if w.runs[p].phase.SwapLock? {
        SwapNotes(d, w, p, input);
      } else {
        LastNotes(d, w, p, input);
      }
    }
  }

  lemma OtherActKeepsPast(w: World, q: Token, input: Input, p: Token)
    requires q != p
    ensures PastPublishing(ActRun(w, q, input), p) == PastPublishing(w, p)
  {
    if q in w.runs { ActIs(w, q, input); }
  }

  lemma DeliveryPublishes(d: Deeds, w: World, q: Token, call: Call, fate: Fate, p: Token)
    requires NotesPublishing(d, w, p)
    ensures NotesPublishing(AfterEvent(d, w, Deliver(q, call, fate), p), DeliverCall(w, q, call, fate), p)
  {
  }

  lemma OtherEventKeepsPast(w: World, e: Event, p: Token)
    requires !e.Act? && !e.Deliver?
    ensures PastPublishing(Next(w, e), p) ==> PastPublishing(w, p)
  {
    if e.Start? {
      StartKeepsPast(w, e.token, e.task, e.cancelLanding, e.expires, p);
    } else if e.GiveUp? {
      GiveUpKeepsPast(w, e.token, p);
    }
  }

  lemma StartKeepsPast(w: World, q: Token, t: TaskId, cancelLanding: bool, expires: int, p: Token)
    ensures PastPublishing(StartRun(w, q, t, cancelLanding, expires), p) ==> PastPublishing(w, p)
  {
  }

  lemma GiveUpKeepsPast(w: World, q: Token, p: Token)
    ensures PastPublishing(GiveUpWaiting(w, q), p) ==> PastPublishing(w, p)
  {
  }

  lemma EventPublishes(d: Deeds, w: World, e: Event, p: Token)
    requires NotesPublishing(d, w, p)
    ensures NotesPublishing(AfterEvent(d, w, e, p), Next(w, e), p)
  {
    if e.Act? {
      if e.token == p { ActPublishes(d, w, p, e.input); } else { OtherActKeepsPast(w, e.token, e.input, p); }
    } else if e.Deliver? {
      DeliveryPublishes(d, w, e.token, e.call, e.fate, p);
    } else {
      OtherEventKeepsPast(w, e, p);
    }
  }

  lemma {:induction false} PastIsPublished(start: World, events: seq<Event>, p: Token)
    requires p !in start.runs
    ensures NotesPublishing(DeedsOf(start, events, p), Play(start, events), p)
    decreases |events|
  {
    if events != [] {
      var n := |events| - 1;
      assert events == events[..n] + [events[n]];
      PastIsPublished(start, events[..n], p);
      LandingRecovery.PlayMore(start, events[..n], events[n]);
      EventPublishes(DeedsOf(start, events[..n], p), Play(start, events[..n]), events[n], p);
    }
  }

  /** An event that leaves p unpublished: p's own step adds nothing to the log, and its
      CompleteLanding, heard or not, changes nothing. */
  lemma UnpublishedEvent(d: Deeds, w: World, e: Event, p: Token)
    requires NotesPublishing(d, w, p) && NotesPublishing(AfterEvent(d, w, e, p), Next(w, e), p)
    requires !d.published && !AfterEvent(d, w, e, p).published
    ensures e.Act? && e.token == p ==> Next(w, e).log == w.log
    ensures e.Deliver? && e.token == p && e.call.CompleteCall? ==> Next(w, e) == w
  {
    if e.Act? && p in w.runs { ActKeepsRuns(w, p, e.input); }
  }

  /** Without the deed of publishing, none of the run's own steps added to the log, and none of its
      CompleteLanding calls, heard or not, changed anything. */
  lemma UnpublishedChangedNothing(start: World, events: seq<Event>, p: Token, n: nat)
    requires p !in start.runs && n < |events| && !DeedsOf(start, events, p).published
    ensures !DeedsOf(start, events, p).moved
    ensures events[n].Act? && events[n].token == p ==> Play(start, events[..n + 1]).log == Play(start, events[..n]).log
    ensures events[n].Deliver? && events[n].token == p && events[n].call.CompleteCall? ==>
      Play(start, events[..n + 1]) == Play(start, events[..n])
  {
    var before, now := events[..n], events[..n + 1];
    assert now == before + [events[n]];
    LandingRecovery.PlayMore(start, before, events[n]);
    PastIsPublished(start, events, p);
    PastIsPublished(start, before, p);
    PastIsPublished(start, now, p);
    if DeedsOf(start, before, p).published { DeedsStay(start, events, n, p); }
    if DeedsOf(start, now, p).published { DeedsStay(start, events, n + 1, p); }
    DeedsSnoc(start, before, events[n], p);
    UnpublishedEvent(DeedsOf(start, before, p), Play(start, before), events[n], p);
  }
}
