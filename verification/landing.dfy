/** The local landing protocol: any number of `odonian approve` runs (plain, --cancel-landing, and
    for tasks already done) share git refs and the board, and take their steps in any order.

    One step is one git or board access. A board call is three steps: it is sent, it is delivered
    (perhaps long after its sender stopped waiting, or crashed), and its answer is heard or lost.
    Clock readings, the merge gate's verdict and failures are inputs of a step, so a theorem about
    every event sequence holds for every schedule and every clock. */
module Landing {
  import opened Wrappers
  import opened Commits

  type TaskId = string
  type Slug = string
  /** The object the lock ref points at while a run holds the branch lock. It embeds a fresh nonce,
      so it names that run; approve also uses it as the run's landing attempt. */
  type Token = nat

  // ---------------------------------------------------------------------------------------------
  // The board
  // ---------------------------------------------------------------------------------------------

  /** Open: backlog, ready, in_progress, review or blocked. Retired: failed, superseded, abandoned. */
  datatype TaskState = Open | Approved | Done | Retired

  datatype Link = CommitLink(commit: Commit) | NoOpLink | OtherLink

  datatype Reservation = Reservation(round: nat, commit: Commit, attempt: Token)

  /** `rounds` holds each review round's submission; the current review round is its length.
      `landed` is history: the reservation CompleteLanding ended, if that is how the task got done. */
  datatype Task = Task(
    slug: Slug,
    state: TaskState,
    rounds: seq<seq<Link>>,
    landing: Option<Reservation>,
    landed: Option<Reservation>)

  datatype Refusal =
    | InvalidLanding | NotApproved | StaleReviewRound | LandingInProgress | UnreviewedCommit
    | NotReserved | AttemptMismatch | LandingRequired | BadTransition

  function CommitLinks(links: seq<Link>): seq<Commit> {
    if links == [] then []
    else if links[0].CommitLink? then [links[0].commit] + CommitLinks(links[1..])
    else CommitLinks(links[1..])
  }

  function CurrentLinks(task: Task): seq<Link> {
    if task.rounds == [] then [] else task.rounds[|task.rounds| - 1]
  }

  /** The one commit the current round submitted, if it submitted exactly one. */
  function ReviewedCommit(task: Task): Option<Commit> {
    var commits := CommitLinks(CurrentLinks(task));
    if |commits| == 1 then Some(commits[0]) else None
  }

  predicate CurrentRoundIsNoOp(task: Task) {
    NoOpLink in CurrentLinks(task) && CommitLinks(CurrentLinks(task)) == []
  }

  function BeginLanding(task: Task, round: nat, commit: Commit, attempt: Token): Result<Task, Refusal> {
    if round < 1 then Err(InvalidLanding)
    else if !task.state.Approved? then Err(NotApproved)
    else if |task.rounds| != round then Err(StaleReviewRound)
    else match task.landing {
      case Some(held) =>
        if held.round != round || held.commit != commit then Err(LandingInProgress)
        else Ok(task.(landing := Some(held.(attempt := attempt))))
      case None =>
        if commit !in CommitLinks(CurrentLinks(task)) then Err(UnreviewedCommit)
        else Ok(task.(landing := Some(Reservation(round, commit, attempt))))
    }
  }

  function CompleteLanding(task: Task, attempt: Token): Result<Task, Refusal> {
    if !task.state.Approved? then Err(NotApproved)
    else match task.landing {
      case None => Err(NotReserved)
      case Some(held) =>
        if held.attempt != attempt then Err(AttemptMismatch)
        else Ok(task.(state := Done, landing := None, landed := Some(held)))
    }
  }

  function CancelLanding(task: Task, attempt: Token): Result<Task, Refusal> {
    match task.landing
    case None => Ok(task)
    case Some(held) =>
      if held.attempt != attempt then Err(AttemptMismatch) else Ok(task.(landing := None))
  }

  /** Every transition that is not part of a landing: reject, rework, block, retire, review verdicts. */
  function Transition(task: Task, to: TaskState): Result<Task, Refusal> {
    if task.state.Done? || task.state.Retired? then Err(BadTransition)
    else if task.state.Approved? && task.landing.Some? then Err(LandingInProgress)
    else if task.state.Approved? && to.Done? && CommitLinks(CurrentLinks(task)) != [] then Err(LandingRequired)
    else if to.Approved? && task.rounds == [] then Err(BadTransition)
    else Ok(task.(state := to, landing := None))
  }

  function Submit(task: Task, links: seq<Link>): Result<Task, Refusal> {
    if task.state.Open? then Ok(task.(rounds := task.rounds + [links])) else Err(BadTransition)
  }

  /** The task's pull request was merged outside the board. */
  function ConvergeMerged(task: Task): Result<Task, Refusal> {
    if task.state.Open? || task.state.Approved? then Ok(task.(state := Done, landing := None))
    else Err(BadTransition)
  }

  // ---------------------------------------------------------------------------------------------
  // Runs
  // ---------------------------------------------------------------------------------------------

  datatype Lock = Lock(owner: Token, expires: int)

  datatype IntegrationKind = Created | AlreadyThere | FastForward | MergeCommit

  datatype Integration = Integration(kind: IntegrationKind, source: Commit, commit: Commit, previous: Option<Commit>)

  datatype RunKind = Approve | Cancel | LandDone

  /** The program point of a run: what its next step does. */
  datatype Phase =
    | FindWip        // done task: does wip still exist?
    | ReadLock       // LockBranch: read the lock ref
    | SwapLock       // LockBranch: compare-and-swap it
    | CheckBranch    // cancel, done task: is the commit on the branch already?
    | CheckWip       // requireWipAt
    | ReadWip        // Prepare: read wip's tip
    | ReadBranch     // Prepare: read the branch tip and build the integration
    | AwaitBegin     // BeginLanding sent
    | AskBegin       // no answer: read the task to see whether the reservation took
    | PublishRef     // Publish's ref transaction
    | AskLock        // the transaction failed: was it the lock?
    | AwaitCancel    // CancelLanding sent
    | AwaitComplete  // CompleteLanding sent
    | AskComplete    // no or bad answer: is the task done?
    | ReadStaleWip   // Cleanup: does wip still hold the landed commit?
    | DeleteWip      // Cleanup: delete wip if it still does
    | ReleaseLock    // the deferred Release
    | Ended

  datatype Call = BeginCall | CompleteCall | CancelCall

  /** One run of approve. `seen` is the task as read at the start, `reviewed` and `noOp` what it says
      about its current round; `locked`: it has taken the lock;
      `source`: the commit to land or clean up; `begun`: the board accepted its BeginLanding;
      `flight`: the call sent and not yet delivered. */
  datatype Run = Run(
    task: TaskId, kind: RunKind, seen: Task, reviewed: Option<Commit>, noOp: bool, expires: int,
    phase: Phase, tries: nat, expected: Option<Token>, locked: bool,
    source: Option<Commit>, plan: Option<Integration>,
    begun: bool, flight: Option<Call>)

  datatype Landed = Landed(task: TaskId, commit: Commit)

  /** `log` is history: every commit Publish put on a branch, in order. */
  datatype World = World(
    branch: map<Slug, Commit>,
    wip: map<TaskId, Commit>,
    lock: map<Slug, Lock>,
    tasks: map<TaskId, Task>,
    runs: map<Token, Run>,
    log: seq<Landed>)

  /** What a step finds outside the shared stores. */
  datatype Input = Input(
    now: int,             // the clock
    content: nat,         // the content of a merge commit
    gateFails: bool,      // the merge conflicts, or its gate fails or may not run
    checkedOut: bool,     // some worktree has the branch checked out
    worktreeStuck: bool,  // the task's worktree cannot be removed
    boardDown: bool)      // a read of the task gets no answer

  /** How a delivered call ends: its answer reaches the sender, or is lost, or the server fails
      without applying it and says so. */
  datatype Fate = Heard | Unheard | Failed

  datatype Event =
    | Start(token: Token, task: TaskId, cancelLanding: bool, expires: int)
    | Act(token: Token, input: Input)
    | Deliver(token: Token, call: Call, fate: Fate)
    | GiveUp(token: Token)              // the run stops waiting for an answer
    | Crash(token: Token)
    | Board(task: TaskId, to: TaskState)
    | Resubmit(task: TaskId, links: seq<Link>)
    | Merged(task: TaskId)
    | MoveWip(task: TaskId, tip: Option<Commit>)
    | Advance(slug: Slug, head: Commit) // someone else's commits, on top of the branch

  predicate OnBranch(w: World, slug: Slug, commit: Commit) {
    slug in w.branch && IsAncestor(commit, w.branch[slug])
  }

  function SetRun(w: World, p: Token, r: Run): World {
    w.(runs := w.runs[p := r])
  }

  function Goto(r: Run, phase: Phase): Run {
    r.(phase := phase)
  }

  function Send(r: Run, call: Call, phase: Phase): Run {
    r.(phase := phase, flight := Some(call))
  }

  // ---------------------------------------------------------------------------------------------
  // The steps of a run
  // ---------------------------------------------------------------------------------------------

  /** executeApprove: read the task and choose what to do. */
  function NewRun(t: TaskId, seen: Task, cancelLanding: bool, expires: int): Run {
    var run := Run(t, Approve, seen, ReviewedCommit(seen), CurrentRoundIsNoOp(seen), expires, ReadLock, 0, None, false, None, None, false, None);
    if cancelLanding then run.(kind := Cancel, phase := if seen.landing.Some? then ReadLock else Ended)
    else if seen.state.Approved? then run
    else if seen.state.Done? then run.(kind := LandDone, phase := FindWip)
    else run.(phase := Ended)
  }

  function StartRun(w: World, p: Token, t: TaskId, cancelLanding: bool, expires: int): World {
    if p in w.runs || t !in w.tasks then w else SetRun(w, p, NewRun(t, w.tasks[t], cancelLanding, expires))
  }

  function FindWipStep(w: World, r: Run): Run {
    if r.task !in w.wip || r.noOp || r.reviewed.None? then Goto(r, Ended) else Goto(r, ReadLock)
  }

  function ReadLockStep(w: World, r: Run, now: int): Run {
    if r.seen.slug !in w.lock then r.(phase := SwapLock, expected := None)
    else if now < w.lock[r.seen.slug].expires then Goto(r, Ended)
    else r.(phase := SwapLock, expected := Some(w.lock[r.seen.slug].owner))
  }

  predicate LockRefIs(w: World, slug: Slug, expected: Option<Token>) {
    match expected
    case None => slug !in w.lock
    case Some(owner) => slug in w.lock && w.lock[slug].owner == owner
  }

  function SwapLockStep(w: World, p: Token, r: Run): World {
    if LockRefIs(w, r.seen.slug, r.expected) then
      SetRun(w, p, r.(phase := if r.kind.Approve? then CheckWip else CheckBranch, locked := true))
        .(lock := w.lock[r.seen.slug := Lock(p, r.expires)])
    else if r.tries == 0 then SetRun(w, p, r.(phase := ReadLock, tries := 1))
    else SetRun(w, p, Goto(r, Ended))
  }

  /** --cancel-landing. */
  function CheckReservedStep(w: World, r: Run): Run {
    if r.seen.landing.None? || OnBranch(w, r.seen.slug, r.seen.landing.value.commit) then Goto(r, ReleaseLock)
    else Send(r, CancelCall, AwaitCancel)
  }

  /** landDoneTask. */
  function CheckLandedStep(w: World, r: Run): Run {
    if r.reviewed.Some? && OnBranch(w, r.seen.slug, r.reviewed.value) then
      r.(phase := ReadStaleWip, source := r.reviewed)
    else Goto(r, CheckWip)
  }

  function CheckWipStep(w: World, r: Run): Run {
    if r.reviewed.Some? && r.task in w.wip && w.wip[r.task] == r.reviewed.value then Goto(r, ReadWip)
    else Goto(r, ReleaseLock)
  }

  function ReadWipStep(w: World, r: Run, checkedOut: bool): Run {
    if checkedOut || r.task !in w.wip then Goto(r, ReleaseLock)
    else r.(phase := ReadBranch, source := Some(w.wip[r.task]))
  }

  /** Prepare, once it has read wip's tip. */
  function Integrate(branch: map<Slug, Commit>, slug: Slug, source: Commit, content: nat, gateFails: bool): Option<Integration> {
    if slug !in branch then Some(Integration(Created, source, source, None))
    else
      var tip := branch[slug];
      if IsAncestor(source, tip) then Some(Integration(AlreadyThere, source, tip, Some(tip)))
      else if IsAncestor(tip, source) then Some(Integration(FastForward, source, source, Some(tip)))
      else if gateFails then None
      else Some(Integration(MergeCommit, source, Merge(content, tip, source), Some(tip)))
  }

  /** A reservation seen at the start must be the one an interrupted approve of this commit left. */
  predicate ResumesOwnLanding(seen: Task, source: Commit) {
    seen.landing.Some? ==>
      seen.landing.value.round == |seen.rounds| && seen.landing.value.commit == source
  }

  function ReadBranchStep(w: World, r: Run, content: nat, gateFails: bool): Run {
    if r.source.None? || r.reviewed != r.source then Goto(r, ReleaseLock)
    else
      var plan := Integrate(w.branch, r.seen.slug, r.source.value, content, gateFails);
      if plan.None? then Goto(r, ReleaseLock)
      else if r.kind.LandDone? then r.(phase := PublishRef, plan := plan)
      else if !ResumesOwnLanding(r.seen, r.source.value) then Goto(r, ReleaseLock)
      else r.(phase := AwaitBegin, plan := plan, flight := Some(BeginCall))
  }

  function AskBeginStep(w: World, p: Token, r: Run, boardDown: bool): Run {
    if boardDown || r.task !in w.tasks || r.plan.None? then Goto(r, ReleaseLock)
    else if w.tasks[r.task].state.Approved? &&
      w.tasks[r.task].landing == Some(Reservation(|r.seen.rounds|, r.plan.value.source, p))
    then Goto(r, PublishRef)
    else Goto(r, ReleaseLock)
  }

  predicate RefIs(branch: map<Slug, Commit>, slug: Slug, expected: Option<Commit>) {
    match expected
    case None => slug !in branch
    case Some(tip) => slug in branch && branch[slug] == tip
  }

  function AfterPublish(r: Run): Run {
    if r.kind.Approve? then Send(r, CompleteCall, AwaitComplete) else Goto(r, ReadStaleWip)
  }

  /** The plan still has something to move. */
  predicate Moves(r: Run) {
    r.plan.Some? && !r.plan.value.kind.AlreadyThere?
  }

  /** Publish's ref transaction goes through: the lock ref is still p's, and the branch is where
      Prepare saw it. */
  predicate PublishSucceeds(w: World, p: Token, r: Run, checkedOut: bool) {
    Moves(r) && !checkedOut && LockRefIs(w, r.seen.slug, Some(p)) && RefIs(w.branch, r.seen.slug, r.plan.value.previous)
  }

  /** Publish, when it moves nothing. Its checked-out precheck fails without a look at the lock, and
      the caller then takes the failure for one that happened under the lock. */
  function NoPublishStep(r: Run, checkedOut: bool): Run {
    if r.plan.None? then Goto(r, ReleaseLock)
    else if !Moves(r) then AfterPublish(r)
    else if !r.kind.Approve? then Goto(r, ReleaseLock)
    else if checkedOut then Send(r, CancelCall, AwaitCancel)
    else Goto(r, AskLock)
  }

  function PublishStep(w: World, p: Token, r: Run, checkedOut: bool): World {
    if PublishSucceeds(w, p, r, checkedOut) then
      SetRun(w, p, AfterPublish(r)).(
        branch := w.branch[r.seen.slug := r.plan.value.commit],
        log := w.log + [Landed(r.task, r.plan.value.source)])
    else SetRun(w, p, NoPublishStep(r, checkedOut))
  }

  function AskLockStep(w: World, p: Token, r: Run): Run {
    if LockRefIs(w, r.seen.slug, Some(p)) then Send(r, CancelCall, AwaitCancel) else Goto(r, ReleaseLock)
  }

  function AskCompleteStep(w: World, r: Run, boardDown: bool): Run {
    if boardDown || r.task !in w.tasks || !w.tasks[r.task].state.Done? then Goto(r, ReleaseLock)
    else Goto(r, ReadStaleWip)
  }

  function ReadStaleWipStep(w: World, r: Run, worktreeStuck: bool): Run {
    if (r.task in w.wip && Some(w.wip[r.task]) != r.source) || worktreeStuck then Goto(r, ReleaseLock)
    else Goto(r, DeleteWip)
  }

  function DeleteWipStep(w: World, p: Token, r: Run): World {
    var next := SetRun(w, p, Goto(r, ReleaseLock));
    if r.task in w.wip && Some(w.wip[r.task]) == r.source then next.(wip := w.wip - {r.task}) else next
  }

  function ReleaseLockStep(w: World, p: Token, r: Run): World {
    var next := SetRun(w, p, Goto(r, Ended));
    if LockRefIs(w, r.seen.slug, Some(p)) then next.(lock := w.lock - {r.seen.slug}) else next
  }

  /** A step that writes none of the shared stores. */
  function LocalStep(w: World, p: Token, r: Run, input: Input): Run {
    match r.phase
    case FindWip => FindWipStep(w, r)
    case ReadLock => ReadLockStep(w, r, input.now)
    case CheckBranch => if r.kind.Cancel? then CheckReservedStep(w, r) else CheckLandedStep(w, r)
    case CheckWip => CheckWipStep(w, r)
    case ReadWip => ReadWipStep(w, r, input.checkedOut)
    case ReadBranch => ReadBranchStep(w, r, input.content, input.gateFails)
    case AskBegin => AskBeginStep(w, p, r, input.boardDown)
    case AskLock => AskLockStep(w, p, r)
    case AskComplete => AskCompleteStep(w, r, input.boardDown)
    case ReadStaleWip => ReadStaleWipStep(w, r, input.worktreeStuck)
    case _ => r
  }

  /** Accesses that change no ref. */
  predicate IsLocal(phase: Phase) {
    !phase.SwapLock? && !phase.PublishRef? && !phase.DeleteWip? && !phase.ReleaseLock?
  }

  function ActRun(w: World, p: Token, input: Input): World {
    if p !in w.runs then w
    else
      var r := w.runs[p];
      match r.phase
      case SwapLock => SwapLockStep(w, p, r)
      case PublishRef => PublishStep(w, p, r, input.checkedOut)
      case DeleteWip => DeleteWipStep(w, p, r)
      case ReleaseLock => ReleaseLockStep(w, p, r)
      case _ => SetRun(w, p, LocalStep(w, p, r, input))
  }

  lemma ActIs(w: World, p: Token, input: Input)
    requires p in w.runs
    ensures w.runs[p].phase.SwapLock? ==> ActRun(w, p, input) == SwapLockStep(w, p, w.runs[p])
    ensures w.runs[p].phase.PublishRef? ==> ActRun(w, p, input) == PublishStep(w, p, w.runs[p], input.checkedOut)
    ensures w.runs[p].phase.DeleteWip? ==> ActRun(w, p, input) == DeleteWipStep(w, p, w.runs[p])
    ensures w.runs[p].phase.ReleaseLock? ==> ActRun(w, p, input) == ReleaseLockStep(w, p, w.runs[p])
    ensures IsLocal(w.runs[p].phase) ==> ActRun(w, p, input) == SetRun(w, p, LocalStep(w, p, w.runs[p], input))
  {
  }

  /** The attempt a run's CancelLanding names: its own, or the one --cancel-landing saw. */
  function NamedAttempt(r: Run, p: Token): Token {
    if r.kind.Cancel? && r.seen.landing.Some? then r.seen.landing.value.attempt else p
  }

  function BoardAnswer(w: World, p: Token, call: Call): Result<Task, Refusal>
    requires p in w.runs && w.runs[p].task in w.tasks
  {
    var r := w.runs[p];
    var task := w.tasks[r.task];
    match call
    case BeginCall =>
      if r.plan.None? then Err(InvalidLanding) else BeginLanding(task, |r.seen.rounds|, r.plan.value.source, p)
    case CompleteCall => CompleteLanding(task, p)
    case CancelCall => CancelLanding(task, NamedAttempt(r, p))
  }

  /** Where a run waiting for `call` goes when it hears that the call succeeded or failed. */
  function AfterAnswer(r: Run, call: Call, ok: bool): Phase {
    match call
    case BeginCall => if !r.phase.AwaitBegin? then r.phase else if ok then PublishRef else ReleaseLock
    case CompleteCall => if !r.phase.AwaitComplete? then r.phase else if ok then ReadStaleWip else AskComplete
    case CancelCall => if !r.phase.AwaitCancel? then r.phase else ReleaseLock
  }

  function DeliverCall(w: World, p: Token, call: Call, fate: Fate): World {
    if p !in w.runs || w.runs[p].flight != Some(call) || w.runs[p].task !in w.tasks then w
    else
      var r := w.runs[p];
      var answer := if fate.Failed? then Err(InvalidLanding) else BoardAnswer(w, p, call);
      var r' := r.(
        flight := None,
        begun := r.begun || (call.BeginCall? && answer.Ok?),
        phase := if fate.Unheard? then r.phase else AfterAnswer(r, call, answer.Ok?));
      SetRun(if answer.Ok? then w.(tasks := w.tasks[r.task := answer.value]) else w, p, r')
  }

  function GiveUpWaiting(w: World, p: Token): World {
    if p !in w.runs then w
    else
      var r := w.runs[p];
      match r.phase
      case AwaitBegin => SetRun(w, p, Goto(r, AskBegin))
      case AwaitComplete => SetRun(w, p, Goto(r, AskComplete))
      case AwaitCancel => SetRun(w, p, Goto(r, ReleaseLock))
      case _ => w
  }

  function UpdateTask(w: World, t: TaskId, answer: Result<Task, Refusal>): World {
    if answer.Ok? then w.(tasks := w.tasks[t := answer.value]) else w
  }

  function Next(w: World, e: Event): World {
    match e
    case Start(p, t, cancelLanding, expires) => StartRun(w, p, t, cancelLanding, expires)
    case Act(p, input) => ActRun(w, p, input)
    case Deliver(p, call, fate) => DeliverCall(w, p, call, fate)
    case GiveUp(p) => GiveUpWaiting(w, p)
    case Crash(p) => if p in w.runs then SetRun(w, p, Goto(w.runs[p], Ended)) else w
    case Board(t, to) => if t in w.tasks then UpdateTask(w, t, Transition(w.tasks[t], to)) else w
    case Resubmit(t, links) => if t in w.tasks then UpdateTask(w, t, Submit(w.tasks[t], links)) else w
    case Merged(t) => if t in w.tasks then UpdateTask(w, t, ConvergeMerged(w.tasks[t])) else w
    case MoveWip(t, tip) => if tip.Some? then w.(wip := w.wip[t := tip.value]) else w.(wip := w.wip - {t})
    case Advance(slug, head) =>
      if slug in w.branch && !IsAncestor(w.branch[slug], head) then w else w.(branch := w.branch[slug := head])
  }

  function Play(w: World, events: seq<Event>): World
    decreases |events|
  {
    if events == [] then w else Play(Next(w, events[0]), events[1..])
  }

  /** Before any approve ran: no reservation, no lock. Branches, wip branches and tasks are arbitrary. */
  predicate Initial(w: World) {
    && w.lock == map[] && w.runs == map[] && w.log == []
    && forall t :: t in w.tasks ==> w.tasks[t].landing.None? && w.tasks[t].landed.None?
  }
}
