/** What the outcome of a run says about the history it is a part of, and keeps saying whatever
    happens later. */
module LandingReports {
  import opened Wrappers
  import opened Commits
  import opened Landing
  import opened LandingInvariant
  import opened LandingSteps
  import opened LandingSafety
  import opened LandingProgress
  import opened LandingDeeds
  import LandingAlone
  import LandingRecovery

  /** The world after the first k events. */
  function After(start: World, events: seq<Event>, k: nat): World
    requires k <= |events|
  {
    Play(start, events[..k])
  }

  /** What a granted call leaves on the board. */
  predicate Shows(task: Task, call: Call, p: Token) {
    match call
    case BeginCall => task.landing.Some? && task.landing.value.attempt == p
    case CompleteCall => task.state.Done?
    case CancelCall => task.landing.None?
  }

  lemma GrantShows(w: World, p: Token, call: Call)
    requires p in w.runs && w.runs[p].task in w.tasks
    ensures BoardAnswer(w, p, call).Ok? ==> Shows(BoardAnswer(w, p, call).value, call, p)
  {
  }

  /** p's call was delivered at event k, and had its effect. */
  predicate GrantedAt(start: World, events: seq<Event>, k: nat, p: Token, call: Call, t: TaskId)
    requires k < |events|
  {
    events[k] == Deliver(p, call, Heard) && t in After(start, events, k + 1).tasks &&
    Shows(After(start, events, k + 1).tasks[t], call, p)
  }

  predicate WasGranted(start: World, events: seq<Event>, from: nat, p: Token, call: Call, t: TaskId) {
    exists k :: from <= k < |events| && GrantedAt(start, events, k, p, call, t)
  }

  /** A call that is on its way and acceptable is granted when it arrives. */
  lemma GrantIsHeard(start: World, events: seq<Event>, from: nat, p: Token, call: Call, w: World)
    requires w == Play(start, events) && p in w.runs && w.runs[p].flight == Some(call) && w.runs[p].task in w.tasks
    requires BoardAnswer(w, p, call).Ok? && from <= |events|
    ensures Shows(BoardAnswer(w, p, call).value, call, p)
    ensures WasGranted(start, events + [Deliver(p, call, Heard)], from, p, call, w.runs[p].task)
  {
    var now := events + [Deliver(p, call, Heard)];
    GrantShows(w, p, call);
    LandingRecovery.PlayMore(start, events, Deliver(p, call, Heard));
    assert now[..|events| + 1] == now;
    assert GrantedAt(start, now, |events|, p, call, w.runs[p].task);
  }

  predicate WasAbsent(start: World, events: seq<Event>, from: nat, slug: Slug, commit: Commit) {
    exists k :: from <= k <= |events| && !OnBranch(After(start, events, k), slug, commit)
  }

  predicate WipWasGone(start: World, events: seq<Event>, from: nat, t: TaskId) {
    exists k :: from <= k <= |events| && t !in After(start, events, k).wip
  }

  /** Wherever the protocol started from, the task's reviewed commit is on its branch. */
  predicate ReviewedIsOn(start: World, events: seq<Event>, task: Task) {
    Initial(start) ==>
      ReviewedCommit(task).Some? && OnBranch(Play(start, events), task.slug, ReviewedCommit(task).value)
  }

  /** What a run of this kind reports of its deeds. */
  function Report(kind: RunKind, d: Deeds): Outcome {
    match kind
    case Cancel => if d.cancelled then Dropped else ReservationLeft
    case LandDone =>
      if d.cleaned then Finished
      else if d.published then NotCleaned
      else if d.locked then NotLanded
      else if d.found then NotLocked
      else NothingToDo
    case Approve =>
      if d.cleaned then Finished
      else if d.completed then NotCleaned
      else if d.published then NotMarkedDone
      else if !d.locked then NotLocked
      else if d.reserved && !d.cancelled then ReservationLeft
      else NotLanded
  }

  /** What that report means, for a run that began after `from` events with this view of its task. */
  predicate Truthful(start: World, events: seq<Event>, from: nat, p: Token, t: TaskId, task: Task, outcome: Outcome) {
    match outcome
    case Dropped =>
      task.landing.Some? && WasGranted(start, events, from, p, CancelCall, t) &&
      WasAbsent(start, events, from, task.slug, task.landing.value.commit)
    case Finished => WipWasGone(start, events, from, t) && ReviewedIsOn(start, events, task)
    case NotCleaned => ReviewedIsOn(start, events, task)
    case NotMarkedDone => ReviewedIsOn(start, events, task)
    case _ => true
  }

  /** There was nothing for the command to do. */
  predicate NothingWaits(start: World, events: seq<Event>, from: nat, t: TaskId, task: Task, cancelLanding: bool) {
    if cancelLanding then task.landing.None?
    else
      !task.state.Approved? &&
      (task.state.Done? ==>
        WipWasGone(start, events, from, t) || CurrentRoundIsNoOp(task) || ReviewedCommit(task).None?)
  }

  /** The command finds something to do for the task it reads. */
  predicate HasWork(task: Task, cancelLanding: bool) {
    if cancelLanding then task.landing.Some? else task.state.Approved? || task.state.Done?
  }

  function KindFor(task: Task, cancelLanding: bool): RunKind {
    if cancelLanding then Cancel else if task.state.Done? then LandDone else Approve
  }

  /** A run that reports that it put nothing on its branch did not: none of its steps added to the log,
      and none of its CompleteLanding calls, heard or not, changed anything. */
  lemma NotLandedIsSo(start: World, events: seq<Event>, p: Token, kind: RunKind, n: nat)
    requires p !in start.runs && n < |events| && !kind.Cancel?
    requires Report(kind, DeedsOf(start, events, p)) in {NothingToDo, NotLocked, NotLanded, ReservationLeft}
    ensures !DeedsOf(start, events, p).moved
    ensures events[n].Act? && events[n].token == p ==> Play(start, events[..n + 1]).log == Play(start, events[..n]).log
    ensures events[n].Deliver? && events[n].token == p && events[n].call.CompleteCall? ==>
      Play(start, events[..n + 1]) == Play(start, events[..n])
  {
    UnpublishedChangedNothing(start, events, p, n);
  }

  /** The report fits what the board said: an approve that heard its completion granted ends with the
      task done, one that heard its cancel granted has not landed and left no reservation, a
      --cancel-landing that did has dropped it. */
  lemma ReportFitsConsent(start: World, events: seq<Event>, p: Token, k: nat, call: Call)
    requires k < |events| && HearsConsent(start, events, k, p, call)
    ensures call.CompleteCall? ==> Report(Approve, DeedsOf(start, events, p)) in {Finished, NotCleaned}
    ensures call.CancelCall? ==> Report(Cancel, DeedsOf(start, events, p)) == Dropped
    ensures call.CancelCall? ==> !Report(Approve, DeedsOf(start, events, p)).ReservationLeft?
    ensures call.BeginCall? && Report(Approve, DeedsOf(start, events, p)) == NotLanded ==>
      exists j :: 0 <= j < |events| && HearsConsent(start, events, j, p, CancelCall)
  {
    ConsentIsNoted(start, events, k, p, call);
    if call.BeginCall? && Report(Approve, DeedsOf(start, events, p)) == NotLanded {
      var j := CancelWasHeard(start, events, p);
    }
  }

  /** A run that took the lock does not report that it could not. */
  lemma LockingIsReported(start: World, events: seq<Event>, p: Token, n: nat, slug: Slug, kind: RunKind)
    requires n < |events| && events[n].Act? && events[n].token == p && p in Play(start, events[..n]).runs
    requires slug in Play(start, events[..n + 1]).lock && Play(start, events[..n + 1]).lock[slug].owner == p
    requires slug in Play(start, events[..n]).lock ==> Play(start, events[..n]).lock[slug].owner != p
    ensures Report(kind, DeedsOf(start, events, p)) !in {NotLocked, NothingToDo}
  {
    LockIsNoted(start, events, n, p, slug);
  }

  /** A run that reports that nothing landed did hold a lock. */
  lemma NotLandedHeldALock(start: World, events: seq<Event>, p: Token, kind: RunKind) returns (k: nat, slug: Slug)
    requires Initial(start) && Report(kind, DeedsOf(start, events, p)) == NotLanded
    ensures k <= |events| && slug in Play(start, events[..k]).lock && Play(start, events[..k]).lock[slug].owner == p
  {
    InitialInv(start);
    k, slug := LockWasTaken(start, events, p);
  }

  /** A run whose own step took its task's wip away reports that it finished. */
  lemma OwnDeletionFinishes(start: World, events: seq<Event>, p: Token, n: nat, kind: RunKind)
    requires n < |events| && events[n].Act? && events[n].token == p && p in Play(start, events[..n]).runs && !kind.Cancel?
    requires var t := Play(start, events[..n]).runs[p].task;
      t in Play(start, events[..n]).wip && t !in Play(start, events[..n + 1]).wip
    ensures Report(kind, DeedsOf(start, events, p)) == Finished
  {
    LandingAlone.OwnEventCleans(start, events, n, p);
  }

  lemma SamePast(start: World, events: seq<Event>, later: seq<Event>, k: nat)
    requires events <= later && k <= |events|
    ensures After(start, later, k) == After(start, events, k)
  {
    assert later[..k] == events[..k];
  }

  lemma PlayRest(start: World, events: seq<Event>, later: seq<Event>)
    requires events <= later
    ensures Play(start, later) == Play(Play(start, events), later[|events|..])
  {
    assert later == events + later[|events|..];
    PlayAppend(start, events, later[|events|..]);
  }

  /** A branch never loses a commit. */
  lemma NextKeepsOnBranch(w: World, e: Event, slug: Slug, commit: Commit)
    requires Consistent(w) && OnBranch(w, slug, commit)
    ensures OnBranch(Next(w, e), slug, commit)
  {
    if e.Advance? {
      if Next(w, e) != w { OnBranchStays(w, e.slug, e.head, slug, commit); }
    } else if Next(w, e).branch != w.branch {
      BranchFrame(w, e);
      RunAt(w, e.token);
      PublisherGrows(w, e.token, w.runs[e.token]);
      OnBranchStays(w, w.runs[e.token].seen.slug, w.runs[e.token].plan.value.commit, slug, commit);
    }
  }

  lemma PublisherGrows(w: World, p: Token, r: Run)
    requires RunOk(w, p, r) && IsPublisher(w, p, r)
    ensures BranchGrows(w, r.seen.slug, r.plan.value.commit)
  {
  }

  lemma {:induction false} OnBranchForever(w: World, events: seq<Event>, slug: Slug, commit: Commit)
    requires Consistent(w) && OnBranch(w, slug, commit)
    ensures OnBranch(Play(w, events), slug, commit)
    decreases |events|
  {
    if events != [] {
      NextKeepsOnBranch(w, events[0], slug, commit);
      NextKeepsConsistent(w, events[0]);
      OnBranchForever(Next(w, events[0]), events[1..], slug, commit);
    }
  }

  lemma BranchKeeps(start: World, events: seq<Event>, later: seq<Event>, slug: Slug, commit: Commit)
    requires Initial(start) && events <= later && OnBranch(Play(start, events), slug, commit)
    ensures OnBranch(Play(start, later), slug, commit)
  {
    InitialInv(start);
    PlayKeepsConsistent(start, events);
    PlayRest(start, events, later);
    OnBranchForever(Play(start, events), later[|events|..], slug, commit);
  }

  lemma DoneKept(start: World, events: seq<Event>, later: seq<Event>, t: TaskId)
    requires events <= later && t in Play(start, events).tasks && Play(start, events).tasks[t].state.Done?
    ensures t in Play(start, later).tasks && Play(start, later).tasks[t].state.Done?
  {
    PlayRest(start, events, later);
    DoneStays(Play(start, events), later[|events|..], t);
  }

  /** A run past publishing knows its commit to be on the branch. */
  lemma PublisherHasLanded(start: World, events: seq<Event>, p: Token, r: Run, landed: Commit)
    requires Initial(start) && p in Play(start, events).runs && SameProgress(r, Play(start, events).runs[p])
    requires AfterPublished(r.phase) && r.source == Some(landed)
    ensures OnBranch(Play(start, events), r.seen.slug, landed)
  {
    InitialInv(start);
    PlayKeepsConsistent(start, events);
    RunAt(Play(start, events), p);
  }

  lemma GrantStays(start: World, events: seq<Event>, later: seq<Event>, from: nat, since: nat, p: Token, call: Call, t: TaskId)
    requires events <= later && since <= from && WasGranted(start, events, from, p, call, t)
    ensures WasGranted(start, later, since, p, call, t)
  {
    var k :| from <= k < |events| && GrantedAt(start, events, k, p, call, t);
    SamePast(start, events, later, k + 1);
    assert GrantedAt(start, later, k, p, call, t);
  }

  lemma AbsenceStays(start: World, events: seq<Event>, later: seq<Event>, from: nat, since: nat, slug: Slug, commit: Commit)
    requires events <= later && since <= from && WasAbsent(start, events, from, slug, commit)
    ensures WasAbsent(start, later, since, slug, commit)
  {
    var k :| from <= k <= |events| && !OnBranch(After(start, events, k), slug, commit);
    SamePast(start, events, later, k);
    assert !OnBranch(After(start, later, k), slug, commit);
  }

  lemma GoneStays(start: World, events: seq<Event>, later: seq<Event>, from: nat, since: nat, t: TaskId)
    requires events <= later && since <= from && WipWasGone(start, events, from, t)
    ensures WipWasGone(start, later, since, t)
  {
    var k :| from <= k <= |events| && t !in After(start, events, k).wip;
    SamePast(start, events, later, k);
    assert t !in After(start, later, k).wip;
  }

  lemma ReviewedStaysOn(start: World, events: seq<Event>, later: seq<Event>, task: Task)
    requires events <= later && ReviewedIsOn(start, events, task)
    ensures ReviewedIsOn(start, later, task)
  {
    if Initial(start) {
      BranchKeeps(start, events, later, task.slug, ReviewedCommit(task).value);
    }
  }

  /** A report stays true. */
  lemma ReportStays(
    start: World, events: seq<Event>, later: seq<Event>, from: nat, since: nat, p: Token, t: TaskId, task: Task, outcome: Outcome)
    requires events <= later && since <= from && Truthful(start, events, from, p, t, task, outcome)
    ensures Truthful(start, later, since, p, t, task, outcome)
  {
    match outcome
    case Dropped =>
      GrantStays(start, events, later, from, since, p, CancelCall, t);
      AbsenceStays(start, events, later, from, since, task.slug, task.landing.value.commit);
    case Finished =>
      GoneStays(start, events, later, from, since, t);
      ReviewedStaysOn(start, events, later, task);
    case NotCleaned => ReviewedStaysOn(start, events, later, task);
    case NotMarkedDone => ReviewedStaysOn(start, events, later, task);
    case _ =>
  }
}
