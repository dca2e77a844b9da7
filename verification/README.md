# Odonian, verified

Odonian is a board for work done by coding agents. A task goes through review rounds; an operator
approves it, and `odonian approve` lands the reviewed commit on the task's branch and marks the task
done. Around that core sit an admission policy that paces model starts, a dependency graph, manifests
that split research into child tasks, an evaluation harness that compares reviewers, and the pull
request feedback loop. This project models the parts of it whose correctness is not visible from any
one function, and proves what they promise.

* **Landing** (`landing*.dfy`, `commits.dfy`). Any number of approves, `--cancel-landing` runs, rejects
  and reworks share git refs and the board, and may crash anywhere. `Landing` is the protocol as a
  state machine: one event is one access to the refs or the board, a board call is sent, delivered and
  heard separately, and clocks, gate verdicts and failures are arbitrary inputs. `LandingInvariant` is
  the inductive invariant in two parts: consistency, which `LandingSteps` and `LandingBoard` show that
  every step keeps, and the guard on published work, which `LandingFence` shows that every step keeps
  but one. `LandingSafety` draws the guarantees, `LandingRecovery` shows that from any reachable state
  an interrupted approve can be finished, and `LandingPrecheck` says exactly when the one failure path
  is harmless. `LandingCode` is the command itself, in loops and early returns over mutable stores that
  others change between any two accesses; it is proved to take only steps of the state machine, so the
  guarantees hold for it. `LandingDeeds` reads off the history what a run did, `LandingReports` says that
  the command reports exactly that, and `LandingAlone` that it finishes if nothing disturbs it.
* **Admission policy** (`policy*.dfy`). The lazily settled token bucket with reserved completion
  capacity, as a class with mutable accounts and tickets proved against functions on a state value; the
  exact condition for admission, and the rate, capacity and deferral guarantees over whole runs.
* **Graphs, claims and paths** (`graphs.dfy`, `store_cycle.dfy`, `manifest*.dfy`). Two depth-first
  searches proved exact, the exact cover of claims, and path containment proved on components although
  the code compares strings.
* **Evaluation kernels** (`json_strings.dfy`, `event_*.dfy`, `sorted_diff.dfy`, `redact*.dfy`,
  `encoding.dfy`, `workspace*.dfy`, `identity.dfy`, `finding_ref.dfy`, `grouping.dfy`, `metrics.dfy`,
  `report.dfy`, `cohort*.dfy`, `eval_run.dfy`). The JSON walker and the chunked line reader against simple
  definitions, redaction, the canonical encodings behind two digests, issue grouping with the decision
  that counts and its conservation laws, the stratified draw, and the bounded runner, which goes on
  exactly after attempts worth another and finalizes every one.
* **Feedback grammar** (`marker.dfy`, `feedback*.dfy`). The printed replies and their recognizer, what
  counts as feedback, said of the text itself, and the outstanding list they drive.

`wrappers.dfy`, `text.dfy` and `ordering.dfy` are shared: option and result types, a few functions of
Go's `strings` package, and sorting. `dafny verify dfyconfig.toml` checks everything.

Four findings of the proofs are worth knowing:

* When Publish fails because some worktree has the branch checked out, approve gives its reservation
  back without asking whether it still holds the lock (cmd/odonian/approve.go:148-162,
  internal/localcommit/freeze.go:160-162), although its comment says that it does. If the lock was taken
  over meanwhile, this can free a task whose work another run is publishing or has published.
  `LandingPrecheck` gives a run that ends so and the exact condition under which the step is safe. That
  condition reads where the other runs stand, which no caller can see; the guard a caller could check is
  that the lock ref is still its own, which suffices (`LockMakesPrecheckHarmless`). Only the protection
  from rejects depends on it: that published work stays on its branch, is published once, and can be
  finished holds without it.
* The event reader's result depends on how the pipe cuts its input exactly when some newline-terminated
  line, up to and including the first malformed one, exceeds the line limit, unless no terminated line
  is malformed and the unfinished last line exceeds it too: a long line is accepted if it arrives whole
  and rejected if it arrives in pieces (`EventChunks.IndependentIffFits`, `LongLineDepends`).
* Redaction can leave a secret that the marker text completes. `Redact.LeftIffSurvives` says exactly
  which single secrets, and `RedactLists.SafeIffNoneLeft` says when no replacement of a list leaves one.
  Secrets that cannot overlap the marker are always removed, in any number and order.
* An attempt of the evaluation runner leaves its workspace on disk if the run has been cancelled, by its
  caller or by a lost lease, by the time Stage returns that workspace: the attempt takes hold of it only
  behind the test for cancellation (internal/evalrun/attempt.go:86-96), so its close does not remove it.
  `EvalRun.AttemptRun.Run` says that, but for a removal that fails, this is the only way, and
  `EvalRun.CancellationLeavesWorkspace` is a run that takes it.

## Model

| member | source | states |
|---|---|---|
| LandingSafety.PublishedIsProtected | cmd/odonian/approve.go:143-165 | In every interleaving of approves, cancels, rejects, reworks and crashes, whatever the clocks read: once Publish has put a task's commit on its branch, the commit is there and the board refuses every transition of the task, because it is reserved or done; given that no worktree precheck failed harmfully on the way |
| LandingSafety.PublishedStaysOnBranch | cmd/odonian/approve.go:143-165 | Whatever happens, harmful prechecks included, a commit Publish put on its task's branch stays there for ever |
| LandingSafety.PublishedOnce | cmd/odonian/approve.go:94-109 | No commit of a task is published twice in any run from an initial state, however often its approve is interrupted and resumed |
| LandingSafety.LandedWorkStaysOnBranch | cmd/odonian/approve.go:118-171 | A task that CompleteLanding marked done has the commit its reserved round submitted on its branch, then and in every later state of any run |
| LandingSafety.OnlyTheLockHolderMovesABranch | internal/localcommit/freeze.go:149-176 | In every reachable state: apart from other people's commits on top of it, only a Publish moves a branch: while the lock ref is the publisher's own, to a descendant of the old tip, containing the planned commit |
| LandingSafety.CleanupKeepsWork | internal/localcommit/freeze.go:178-212 | In every reachable state a run deletes wip only when the commit wip holds is on the branch |
| LandingSafety.LandedStays | internal/store/store.go:4658-4790 | In every reachable state a task done by a landing never changes again, whatever calls arrive late |
| LandingSafety.BoardKeepsDone | internal/store/store.go:4667-4790 | The board refuses every transition, submission, convergence and landing call on a done task |
| LandingSafety.ReachableIsConsistent | cmd/odonian/approve.go:94-109 | The part of the invariant that fits locks, tasks, runs, branches and the log of publications together holds in every reachable state, without exception |
| LandingSafety.NextKeepsConsistent | cmd/odonian/approve.go:110-178 | Every single step of every run, the board or anyone else keeps that part |
| LandingSafety.PlayKeepsInv | cmd/odonian/approve.go:94-109 | The whole invariant, with the guard on published work, is kept by every run whose failing prechecks are harmless |
| LandingSafety.NextKeepsInv | cmd/odonian/approve.go:110-178 | Every single step keeps the whole invariant, except a harmful precheck failure |
| LandingSteps.PublishKeepsConsistent | internal/localcommit/freeze.go:149-176 | Publish keeps the world consistent with no condition at all: the branch moves to a descendant, for a commit nobody published before |
| LandingFence.SwapLockKeepsInv | internal/localcommit/lock.go:84-103 | Taking the lock, or taking it over once expired, keeps the invariant: an earlier holder can then neither publish nor cancel what is not its own |
| LandingFence.PublishKeepsInv | internal/localcommit/freeze.go:156-176 | The publish transaction keeps the invariant: what it puts on the branch is secured by the reservation the board granted first; a failing precheck keeps it if it is harmless |
| LandingFence.ReadBranchKeepsInv | internal/localcommit/freeze.go:127-146 | Prepare's plan (create, already there, fast-forward, merge) contains both the old tip and the reviewed commit |
| LandingFence.ReleaseLockKeepsInv | internal/localcommit/lock.go:54-57 | Release gives back only its own lock |
| LandingFence.HolderCancelHarmless | cmd/odonian/approve.go:154-163 | While a run still holds the lock, nobody else can have published the task, so giving its own reservation back is harmless |
| LandingFence.CheckReservedKeepsInv | cmd/odonian/approve.go:206-231 | --cancel-landing asks to drop a reservation only under the lock and only while the work is not on the branch |
| LandingFence.BeginKeepsInv | internal/store/store.go:5878-5930 | BeginLanding keeps the invariant also when it takes over an older attempt or arrives long after it was sent: earlier cancels no longer name the owner |
| LandingFence.CompleteKeepsInv | internal/store/store.go:4658-4665 | CompleteLanding, owner only, keeps the invariant and leaves the landed commit on the branch |
| LandingFence.CancelKeepsInv | internal/store/store.go:5969-6000 | A CancelLanding that the board accepts, at whatever time it arrives, never frees a task whose work is on the branch |
| LandingFence.TransitionKeepsInv | internal/store/store.go:5825-5876 | Rejects, reworks and every other transition keep the invariant: a reserved task refuses them |
| LandingFence.FreeIsUnpublished | internal/store/store.go:5825-5839 | A task that the board would let go has none of its landings in flight on the branch |
| LandingRecovery.InterruptedApproveFinishes | cmd/odonian/approve.go:85-178 | From any reachable state, so after a crash at any step: one undisturbed approve ends with the task done, its reviewed commit on the branch, wip gone and the lock free, and the branch does not move again if it was published before |
| LandingRecovery.InterruptedCleanupFinishes | cmd/odonian/approve.go:233-279 | The same for a done task whose wip is still there; the board does not change, and the branch moves only if the commit was never landed |
| LandingPrecheck.PrecheckSafeIffHarmless | cmd/odonian/approve.go:154-163 | When Publish's worktree precheck fails, the code gives the reservation back without asking whether it still holds the lock: every continuation is safe exactly when the reservation is not this run's or nobody can have published under it |
| LandingPrecheck.RunSafeFromTheStart | cmd/odonian/approve.go:143-163 | The exact condition for whole runs: at every moment of a run all continuations protect published work exactly when no precheck on the way failed harmfully |
| LandingPrecheck.LockMakesPrecheckHarmless | internal/localcommit/freeze.go:156-162 | A failing precheck of a run that still holds the lock is always safe |
| LandingPrecheck.RaceExposesPublishedWork | cmd/odonian/approve.go:154-163 | A concrete run from an initial state in which the lock was lost and the failing precheck leaves published work on the branch of a task that can be rejected |
| LandingCode.Stores.LockBranch | internal/localcommit/lock.go:59-103 | LockBranch's two-try loop of read and compare-and-swap, with everything else moving on in between: on success the lock ref is this run's lock and nobody else's changed, otherwise the run has ended |
| LandingCode.Stores.Release | internal/localcommit/lock.go:54-57 | Release deletes the lock ref exactly if it is this run's and changes nothing else |
| LandingCode.Stores.PrepareFrom | internal/localcommit/freeze.go:127-146 | Prepare's case split over the branch tip and the caller's tests of its result |
| LandingCode.Stores.MoveBranch | internal/localcommit/freeze.go:156-176 | Publish's transaction: it goes through exactly when no worktree has the branch checked out, the lock ref is this run's and the branch is where Prepare saw it; then the branch moves, and otherwise no ref does |
| LandingCode.Stores.Publish | internal/localcommit/freeze.go:149-176 | Publish with its three outcomes: moved, lock lost, not moved |
| LandingCode.Stores.Cleanup | internal/localcommit/freeze.go:178-212 | Cleanup deletes wip only if it still holds the landed commit, which is on the branch |
| LandingCode.Stores.ReserveForLanding | cmd/odonian/approve.go:180-204 | reserveForLanding: granted, refused, or unanswered and then asked about |
| LandingCode.Stores.ApproveLocalCommit | cmd/odonian/approve.go:110-178 | approveLocalCommit, amid arbitrary interference, only takes steps of the state machine, ends, and reports exactly what it did, read off the history: finished, not cleaned up, not marked done, reservation left, not landed or not locked; a task reported done is done, the reviewed commit of one reported published is on its branch, and wip was gone when it reports that it finished |
| LandingCode.Stores.CancelLanding | cmd/odonian/approve.go:206-231 | cancelLanding only takes steps of the state machine, and reports a dropped reservation exactly if it heard the board grant its cancel, after it had seen that the reserved work is not on the branch |
| LandingCode.Stores.LandDoneTask | cmd/odonian/approve.go:233-279 | landDoneTask only takes steps of the state machine and reports exactly what it did, read off the history; it finds nothing to do only if wip was gone or there is no reviewed commit to land |
| LandingCode.Stores.ExecuteApprove | cmd/odonian/approve.go:18-92 | Any run of the command, in any surroundings, ends, leaves the stores in a state the state machine reaches, and reports exactly and truthfully what it did; undisturbed, for a task whose wip holds the reviewed commit, it reports that it finished and leaves the task done, its commit landed, wip gone and the lock free |
| LandingCode.StoresAreSafe | cmd/odonian/approve.go:143-165 | Stores worked on by this code have every published commit on its branch, once, and unless a precheck failed harmfully its task protected |
| LandingReports.ReportStays | cmd/odonian/approve.go:110-178 | What a run reported stays true, whatever happens afterwards |
| LandingReports.NotLandedIsSo | cmd/odonian/approve.go:110-178 | A run that reports that it put nothing on its branch did not: none of its steps added to the log of publications, and none of its CompleteLanding calls, heard or not, changed anything |
| LandingReports.ReportFitsConsent | cmd/odonian/approve.go:154-178 | An approve that heard its completion granted reports the task done, a --cancel-landing that heard its cancel granted reports a drop, and an approve that heard its reservation granted reports that nothing landed only if it heard its cancel granted as well |
| LandingReports.OwnDeletionFinishes | cmd/odonian/approve.go:174-178 | A run whose own step took its task's wip away reports that it finished |
| LandingReports.LockingIsReported | cmd/odonian/approve.go:111-114 | A run that took the lock does not report that it could not |
| LandingReports.NotLandedHeldALock | cmd/odonian/approve.go:111-114 | A run that reports that nothing landed did hold a lock |
| LandingDeeds.DeedsAreReal | cmd/odonian/approve.go:110-178 | Whatever a run notes as done, the stores show at that moment: its lock, its reservation, its commit on the branch, the task done, the reservation gone, wip gone |
| LandingAlone.SoloIsUnique | cmd/odonian/approve.go:110-178 | With nothing else moving there is only one way for a run to go to its end |
| LandingAlone.AloneFinishes | cmd/odonian/approve.go:110-279 | A run that nothing disturbed since it read a task, approved or done, whose wip holds the reviewed commit, took wip away itself and leaves the task landed |
| LandingReports.OnBranchForever | internal/localcommit/freeze.go:318-323 | A branch never loses a commit, by any event |
| LandingProgress.PublishIs | internal/localcommit/freeze.go:156-176 | The transaction as the code writes it is the state machine's step |
| LandingProgress.DoneStays | internal/store/store.go:4667-4790 | A done task stays done, whatever happens |
| Commits.MergeContainsBoth | internal/localcommit/freeze.go:142-146 | A merge commit contains the old tip and the merged commit |
| Commits.AncestorTransitive | internal/localcommit/freeze.go:318-323 | Ancestry composes, so a branch that only moves to descendants keeps what it has |
| PolicyConfig.Validate | internal/policy/config.go:179-258 | Config.Validate accepts exactly the valid configurations: pools with distinct names and accounts, sound numbers, allowed models each mapped once, and under enforcement every allowed model mapped |
| PolicyConfig.CheckModels | internal/policy/config.go:219-227 | The loop over a pool's models accepts exactly models that are allowed and not mapped yet |
| PolicyEvaluator.Evaluator.Evaluate | internal/policy/policy.go:210-258 | Evaluate on the mutable accounts and tickets computes exactly the specified verdicts and next state; `PolicyAdmission` says which those are |
| PolicyEvaluator.Evaluator.Reconfigure | internal/policy/policy.go:164-208 | Reconfigure swaps the configuration in exactly as specified, or changes nothing |
| PolicyEvaluator.Evaluator.Release | internal/policy/policy.go:285-303 | Release frees exactly one unreleased ticket of this evaluator, and is idempotent |
| PolicyLaws.ActiveIsTickets | internal/policy/policy.go:242-258 | In every reachable state, also across Reconfigure, active and activeCompletion count the account's unreleased tickets |
| PolicyLaws.LimitsHold | internal/policy/policy.go:260-272 | Under a fixed enforcing configuration active stays within the limit and first-pass active within the limit less the reservation |
| PolicyLaws.CompletionIsNeverStarved | internal/policy/policy.go:262-272 | From New on, completion work is never refused for concurrency while fewer than CompletionReserved completions are active |
| PolicyLaws.NewIsEnforced | internal/policy/policy.go:154-162 | New starts within the limits, with one pool per account |
| PolicyLaws.StepKeepsGood | internal/policy/policy.go:174-303 | Every operation keeps the accounts sound: tokens between zero and burst, counts equal to tickets, pools backed by accounts |
| PolicyRate.RunConserves | internal/policy/policy.go:135-143 | Over any run, clocks moving any way: tokens + (1 - tokenEpsilon) x starts debited stay within the tokens at first sight plus rate x high-water time under each rate, so removing and re-adding a pool refills nothing |
| PolicyRate.StartsArePaced | internal/policy/policy.go:232-242 | Between reconfigurations an account starts at most its burst plus rate x elapsed high-water time, up to epsilon a start |
| PolicyRate.AllowanceIsElapsedTime | internal/policy/policy.go:135-143 | The allowance is exactly rate x high-water time elapsed |
| PolicyRate.StepConserves | internal/policy/policy.go:174-303 | One operation spends no more of an account than it credits |
| PolicyRate.LazyRefillIsExact | internal/policy/policy.go:135-143 | Settling at any sequence of times, in any order, is settling once at their maximum |
| PolicyRate.DeferralIsHonest | internal/policy/policy.go:273-283 | After an uncapped rate deferral, a request at or past NotBefore is not rate-deferred again, if nothing was admitted or reconfigured in between |
| PolicyAdmission.AdmissionIsExact | internal/policy/policy.go:210-283 | From New on, for every request: research work of a mapped model is told to come back for concurrency exactly if its account's unreleased tickets reach the limit, for reserved capacity exactly if not that but it is first-pass work and the first-pass tickets reach the limit less the reservation, is deferred exactly if neither and no token is there, and is admitted otherwise; unmapped models are unmapped, other work and observe mode are always admitted |
| PolicyAdmission.DisabledAdmitsAll | internal/policy/policy.go:210-231 | With the policy disabled everything is admitted and nothing is counted |
| PolicyAdmission.AdmissionTakesASlot | internal/policy/policy.go:242-258 | An admission takes one slot of its kind of its account, and nothing else does |
| PolicyAdmission.ReleaseFreesASlot | internal/policy/policy.go:285-303 | A release frees the slot of its ticket once, and no token |
| PolicyAdmission.RunRefills | internal/policy/policy.go:135-143 | Between reconfigurations an account holds at least what it had and earned, up to its burst, less one for each start |
| PolicyAdmission.BurstIsAvailable | internal/policy/policy.go:154-162 | From New on, research work is not deferred for rate while its account has started fewer than its burst |
| PolicyAdmission.DeferralIsTight | internal/policy/policy.go:273-283 | A deferral asks for no longer a wait than it takes: a nanosecond earlier the token is not whole |
| PolicyAdmission.ReconfigureIsExact | internal/policy/policy.go:164-208 | A valid configuration changes exactly the accounts its pools name: known ones keep their allowance, settled under the old rate and cut to the new burst, new ones start full; an invalid one changes nothing |
| StoreCycle.Search.Dfs | internal/store/cycle.go:29-45 | The shared visited set: a failing search leaves a region with no dependency leading out of it and without the target |
| StoreCycle.IsReachable | internal/store/cycle.go:23-27 | isReachable is true exactly when a path exists; the search terminates by the unvisited nodes |
| StoreCycle.WouldCreateCycle | internal/store/cycle.go:3-21 | wouldCreateCycle is true exactly when the task is reachable from, or is, some new dependency |
| StoreCycle.AddingIsExact | internal/store/cycle.go:3-21 | On an acyclic graph the check is true exactly when adding the new dependencies makes a cycle |
| StoreCycle.ReplacingIsExact | internal/store/store.go:6152-6186 | It is also exact for replacing the task's dependencies, which is what the store does, although it searches the old ones |
| StoreCycle.StoreStaysAcyclic | internal/store/store.go:6190-6200 | Whatever sequence of updates is asked for, the stored graph stays acyclic |
| Graphs.NewCycleMeets | internal/store/cycle.go:3-21 | If changing a task's dependencies makes a cycle, the task is on it |
| Graphs.ReachingIgnoresOwnEdges | internal/store/cycle.go:3-21 | Whether a task can be reached does not depend on its own dependencies |
| ManifestCycle.Check.HasCycleDfs | internal/manifest/manifest.go:395-420 | The three-colour search: finished nodes lead only to finished nodes and are on no cycle; the stack is as it was; a reported cycle exists |
| ManifestCycle.CheckCycles | internal/manifest/manifest.go:382-391 | checkDependencies reports a cycle exactly when the sibling graph has one, for any number of children |
| ManifestCycle.BuildIndex | internal/manifest/manifest.go:333-337 | keyToIndex holds the last child with each key |
| ManifestPaths.AcceptedIsInside | internal/manifest/manifest.go:231-246 | A file scope entry is accepted exactly when it cleans to a proper path inside the repository, and then has no '..' left |
| ManifestPaths.OverlapIsContainment | internal/manifest/manifest.go:319-330 | The string test for overlap is exact: one path's components begin the other's |
| ManifestPaths.OverlapIsSharedPath | internal/manifest/manifest.go:319-330 | Two entries overlap exactly when some path lies under both |
| ManifestPaths.CleanIsInjective | internal/manifest/manifest.go:281-296 | The cleaned string determines the components |
| ManifestPaths.SplitJoin | internal/manifest/manifest.go:281-296 | Joining components and splitting again gives them back |
| ManifestPaths.CheckFileOverlaps | internal/manifest/manifest.go:281-317 | checkFileOverlaps finds an overlap exactly when two children's scopes have one |
| ManifestPaths.ScopesAreDisjoint | internal/manifest/manifest.go:281-330 | Scopes that pass the check share no path |
| Manifest.Validate | internal/manifest/manifest.go:80-158 | Validate accepts exactly the manifests that meet every condition |
| Manifest.CheckChildren | internal/manifest/manifest.go:108-140 | The loop over children: accepted exactly when keys are distinct and no claim is in two children; the recorded claims are all claims |
| Manifest.CheckDependencies | internal/manifest/manifest.go:332-393 | Dependency references are known, none is listed twice, and the siblings form no cycle |
| Manifest.ValidateDependencies | internal/manifest/manifest.go:339-380 | The per-child loop accepts exactly known, non-blank, distinct dependencies |
| Manifest.ValidatePendingCandidates | internal/manifest/manifest.go:430-486 | The candidate loops accept exactly distinct, consistent dispositions that cover every claim |
| Manifest.ExactCover | internal/manifest/manifest.go:430-486 | An accepted manifest is an exact cover: the children's claims, with repetition counted, are the assigned candidates, and no other candidate is claimed |
| Manifest.WritesAreDisjoint | internal/manifest/manifest.go:281-330 | Two children of an accepted manifest never share a path |
| JsonStrings.WalkIsTraversal | internal/evaluation/muse.go:843-902 | On the tokens of any JSON value the explicit-stack walker yields exactly the string values of the recursive traversal, in order and with the same key paths, pops no empty stack and ends with an empty one |
| JsonStrings.WalkValue | internal/evaluation/muse.go:860-900 | The same for a value anywhere in a document, under the path its stack spells |
| JsonStrings.JsonlEventStrings | internal/evaluation/muse.go:849-902 | The loop over tokens returns the strings of the traversal and never underflows its stack |
| EventStream.MuseEvents.Write | internal/evaluation/muse.go:789-812 | Write reads every complete line of the buffer, in order, until the first fault, and checks the limits, exactly as specified |
| EventStream.MuseEvents.Line | internal/evaluation/muse.go:821-838 | One line: ignored, counted and grouped by path, or fatal |
| EventStream.MuseEvents.Fail | internal/evaluation/muse.go:782-787 | Only the first fault is kept, and the run is killed exactly once |
| EventStream.MuseEvents.Flush | internal/evaluation/muse.go:814-819 | flush reads the unterminated rest |
| EventChunks.ChunksAreBatch | internal/evaluation/muse.go:773-838 | Within both limits any split into Writes followed by flush reads what one batch split on newlines reads: lines, groups and fault |
| EventChunks.IndependentIffFits | internal/evaluation/muse.go:795-812 | The exact condition on the input for independence of the split: every newline-terminated line up to and including the first malformed one fits the limit, or no terminated line is malformed and the unfinished last line is too long anyway |
| EventChunks.LongLineDepends | internal/evaluation/muse.go:795-812 | An input that depends on the split, for every reader: one line a byte over the limit, and its newline |
| EventChunks.SplitIsWholeOrTooLong | internal/evaluation/muse.go:789-812 | However the bytes are cut, the outcome is that of one Write or the long-line fault |
| EventChunks.DrainAppend | internal/evaluation/muse.go:799-807 | Reading the complete lines now and the rest later is reading it all at once |
| EventChunks.LinesAreTheSplit | internal/evaluation/muse.go:799-807 | The batch's lines are the input split on newlines |
| EventGroups.GroupsAreInDocumentOrder | internal/evaluation/muse.go:821-838 | Of lines that are blank or objects, the objects are counted, and under each path are exactly the strings with that path of all of them, in document order |
| EventGroups.FirstMalformedIsTheFault | internal/evaluation/muse.go:821-830 | The first line that is no object is the fault, named by its number among the events |
| SortedDiff.DiffSorted | internal/evaluation/muse.go:479-496 | diffSorted returns exactly what is only in one list, with repetition counted |
| Redact.ScrubRemovesAll | internal/evaluation/redact.go:58-63 | If no needle can overlap the marker, the scrubbed string contains no needle at all |
| Redact.ScrubIsIdempotent | internal/evaluation/redact.go:58-63 | Scrubbing twice is scrubbing once, and it changes a string exactly when a secret occurs in it |
| Redact.OccurrenceIsOriginal | internal/evaluation/redact.go:58-63 | One replacement brings in no clear needle and leaves none of its own |
| Redact.LeftIffSurvives | internal/evaluation/redact.go:58-63 | The exact condition for one secret: some input keeps it exactly when it occurs in the marker, an end of the marker begins it, or the marker continues a beginning of it that stood before the leftmost match |
| Redact.OneSecretIsRemovedIff | internal/evaluation/redact.go:58-63 | Scrubbing for one secret removes it from every input exactly when that condition fails, and it fails for a secret that cannot overlap the marker |
| RedactLists.SafeIffNoneLeft | internal/evaluation/redact.go:58-63 | The exact condition for a list of secrets: no replacement on the way leaves or brings back a secret dealt with by then, in any input, exactly when none does in finitely many strings computed from the list |
| RedactLists.LeavesIffSourceLeaves | internal/evaluation/redact.go:58-63 | One replacement, in some input free of the earlier secrets, leaves a secret exactly when it does in one of that secret's finitely many sources |
| RedactLists.NoneLeftRemovesAll | internal/evaluation/redact.go:58-63 | Under that condition the scrubbed string holds no secret and scrubbing is idempotent; secrets that cannot overlap the marker meet it |
| Redact.OverlapLeavesSecret | internal/evaluation/redact.go:58-63 | An input and a needle that ends where the marker begins, for which the needle is left |
| Redact.OverlapCanBeHarmless | internal/evaluation/redact.go:58-63 | A needle that overlaps the marker and is never left all the same |
| Redactors.Redactor.constructor | internal/evaluation/redact.go:20-45 | The needles are exactly the distinct non-empty forms of the secrets, longest first |
| Redactors.Redactor.Str | internal/evaluation/redact.go:58-63 | str applies one replacement per needle, in order |
| Redactors.Redactor.DropPartialTail | internal/evaluation/redact.go:72-84 | dropPartialTail drops exactly the longest tail that could be a secret cut short |
| Redactors.CutSecretIsDropped | internal/evaluation/redact.go:72-84 | A capture that stops inside a secret keeps nothing of it |
| Redactors.SecretBecomesMarker | internal/evaluation/redact.go:11-13 | Longest first, a secret goes as a whole: alone it becomes exactly the marker, even if it contains others |
| Encoding.RoundTrip | internal/evaluation/snapshot.go:159-164 | The length-prefixed fields decode to themselves |
| Encoding.EncodeIsInjective | internal/evaluation/snapshot.go:159-164 | Equal bytes mean equal fields |
| Encoding.NumberOfBigEndian | internal/evaluation/snapshot.go:160-161 | Eight big-endian bytes hold the length |
| Workspace.CheckStaged | internal/evaluation/snapshot.go:117-149 | checkStaged accepts exactly the sets within the limits whose lower-cased paths are distinct and of which none is a directory of another |
| Workspace.MarkDirs | internal/evaluation/snapshot.go:140-142 | The loop over path.Dir marks exactly the directories above a path |
| Workspace.DigestStaged | internal/evaluation/snapshot.go:155-176 | digestStaged writes exactly the specified bytes |
| WorkspacePaths.ValidateWorkspacePath | internal/evaluation/snapshot.go:59-81 | The path check accepts exactly the sequences of safe names with single slashes between them: none empty, '.', '..' or '.git' in any case, no control character or backslash |
| WorkspacePaths.SafeStaysInside | internal/evaluation/snapshot.go:59-81 | A safe path resolved under a safe directory stays under it, name by name |
| WorkspacePaths.AncestorIsShorter | internal/evaluation/snapshot.go:140-147 | The directories path.Dir finds above a path are exactly the paths whose components begin its own |
| WorkspaceSpecs.Staged | internal/evaluation/snapshot.go:90-115 | A specification is staged exactly when all its paths are safe, it has an artifact and acceptance criteria, and its files pass checkStaged; the staged files are those of its three parts |
| WorkspaceSpecs.AcceptedIsATree | internal/evaluation/snapshot.go:117-149 | checkStaged's string tests say exactly that the lower-cased paths are the leaves of one tree: none equals or lies under another |
| WorkspaceSpecs.StagedIsContained | internal/evaluation/snapshot.go:51-115 | What is staged stays in its directory, names no git metadata and can be written side by side, whatever the file system does to case |
| WorkspaceSpecs.PartsApart | internal/evaluation/snapshot.go:178-200 | The context section can be told from the rest by its paths alone |
| WorkspaceDigests.Digest | internal/evaluation/snapshot.go:180-200 | The two digests are taken over all staged files and over exactly the context section |
| WorkspaceDigests.DigestsAreExact | internal/evaluation/snapshot.go:180-200 | The snapshot bytes are equal exactly for the same artifact, context and acceptance criteria, and the source bytes exactly for the same context, up to the order of the lists |
| Workspace.PreimageIsExact | internal/evaluation/snapshot.go:151-176 | Two accepted workspaces hash the same bytes exactly when they hold the same paths, modes and contents, in whatever order |
| Identity.Validate | internal/evaluation/adapter.go:294-312 | Validate accepts exactly the valid identities |
| Identity.Digest | internal/evaluation/adapter.go:322-366 | Digest writes exactly the specified bytes |
| Identity.PreimageIsExact | internal/evaluation/adapter.go:322-366 | Two valid identities hash the same bytes exactly when all strings, known flags, setting maps and name sets are equal, whatever the order of maps and lists |
| Identity.HeadsAgree | internal/evaluation/adapter.go:334-360 | Name, flag and count say where each section ends |
| Encoding.DecimalIsInjective | internal/evaluation/adapter.go:343-356 | Printed counts are equal exactly when the counts are |
| Ordering.SortIsCanonical | internal/evaluation/snapshot.go:151-153 | Sorting gives the same result exactly for rearrangements of the same items |
| FindingRef.RoundTripIsExact | internal/evaluation/report.go:107-121 | A printed reference reads back as itself exactly when the source has no colon, nothing is empty and the kind is known |
| FindingRef.ParsedIsPrintable | internal/evaluation/report.go:112-121 | What parses prints back to the same reference |
| Grouping.GroupSample | internal/evaluation/report.go:680-719 | groupSample partitions the sample's findings by claim: each is in the groups as often as it was reported, unlabelled ones alone; the groups are sorted by id |
| Grouping.LastDecisionCounts | internal/evaluation/report.go:684-691 | Whatever the history of a printed finding, one more decision at its end is the one that counts; every other finding, in this and in other samples, keeps its own; a finding without decisions has none |
| Grouping.CorrectionRelabels | internal/evaluation/report.go:684-711 | After an operator's correction the finding is in the groups of its sample with that decision's label, severity and claim and no other, and all other findings are there as before |
| Grouping.UndecidedIsUnlabelled | internal/evaluation/report.go:692-697 | A finding nobody decided about is in the groups as reported, unlabelled |
| Grouping.CollectHistory | internal/evaluation/report.go:409-413 | The loop over the recorded decisions keeps, for each finding, its decisions in the order they were made |
| Grouping.LastRecordedCounts | internal/evaluation/report.go:409-413 | Of all decisions recorded about a finding, the last one recorded is the one that counts |
| Grouping.Collect | internal/evaluation/report.go:680-711 | The loop over findings keeps one group per claim |
| Grouping.FinishGroup | internal/evaluation/report.go:721-764 | finishGroup keeps the members, sorted; label, severity, reviewers, disagreement and who reported it are those of its members |
| Grouping.GroupLabelFits | internal/evaluation/report.go:746-757 | The label says what the members' decisions say: disputed exactly when both valid and invalid occur |
| Grouping.TogetherIffSameClaim | internal/evaluation/report.go:694-706 | Two labelled findings share a group exactly when their latest claims normalise to the same key |
| Grouping.WorstSeverity | internal/evaluation/report.go:740-744 | The worst severity recorded, P1 before P2 before P3, in whatever order the map is walked; none only if none of the three is there |
| Report.BuildReport | internal/evaluation/report.go:391-450 | BuildReport groups the findings of every sample under the decisions as they were recorded, and measures each reviewer on exactly the samples it completed |
| Report.CollectState | internal/evaluation/report.go:452-533 | A reviewer's state holds its outcome on every sample, and its findings on the completed ones only |
| Report.ReportConserves | internal/evaluation/report.go:415-421 | Over all samples of the report: every counted finding is in the groups exactly as often as it was reported, and there are no others |
| Report.RowCountsWhatWasReported | internal/evaluation/report.go:436-445 | The number of findings in a reviewer's row is the number that reviewer reported on the compared samples |
| Report.CollectedRowsCount | internal/evaluation/report.go:436-533 | From the judgements on: each reviewer's row counts exactly the findings of the samples it completed |
| ReportMetrics.ComputeMetrics | internal/evaluation/report.go:766-822 | computeMetrics counts, for each number, exactly the groups it stands for |
| ReportMetrics.MetricsConserve | internal/evaluation/report.go:231-249 | Confirmed + Misses = KnownValid, Confirmed + FalsePositives + Unresolved = Groups, and the severities split Confirmed |
| ReportMetrics.KnownValidIsShared | internal/evaluation/report.go:779-783 | KnownValid does not depend on the reviewer |
| ReportMetrics.FindingsConserve | internal/evaluation/report.go:772-778 | All reviewers' findings together are the members of the compared groups |
| ReportMetrics.UniqueConserve | internal/evaluation/report.go:805-810 | Each valid issue with one reviewer is unique to exactly one reviewer, and nothing else is |
| ReportMetrics.CommonReport | internal/evaluation/report.go:824-847 | The common section measures every reviewer on exactly the samples all completed |
| ReportMetrics.CommonKnownValidIsShared | internal/evaluation/report.go:824-847 | In the common section all reviewers have the same KnownValid |
| ReportMetrics.Tally | internal/evaluation/report.go:587-609 | Every counter holds exactly the number of the samples that ended its way; clean is completed without findings |
| CohortManifests.ValidateCriteria | internal/evaluation/cohort.go:144-173 | Validate accepts exactly the criteria with distinct named projects, a cap within bounds, a seed and distinct acceptable context paths |
| Text.BlankIsTrimmedAway | internal/evaluation/cohort.go:150-166 | A text counts as empty exactly if trimming leaves nothing of it |
| CohortManifests.SelectCohort | internal/evaluation/cohort.go:229-307 | SelectCohort accepts exactly eligible censuses and returns the specified manifest: sorted criteria, samples, and the sizes and shares of both strata |
| CohortManifests.ManifestIsOrderFree | internal/evaluation/cohort.go:227-229 | The same manifest, denominators and all, for every permutation of the census and of the criteria's lists |
| CohortManifests.Stratify | internal/evaluation/cohort.go:243-262 | The loop over the census fills the strata, or finds an ineligible record |
| Cohort.SelectionIsOrderFree | internal/evaluation/cohort.go:229-232 | The same samples for every permutation of the census and every order of walking the groups |
| Cohort.SelectionFillsTheCap | internal/evaluation/cohort.go:267-272 | Exactly min(cap, eligible) samples are selected |
| Cohort.EachStratumGetsItsHalf | internal/evaluation/cohort.go:267-272 | Each stratum gets at least its half of the cap, as far as it goes |
| Cohort.LowestRanksWin | internal/evaluation/cohort.go:263-272 | A submission that was passed over ranks behind every selected one of its stratum |
| Cohort.SharesAreFair | internal/evaluation/cohort.go:267-272 | The arithmetic of the shares: within the strata, adding up to min(cap, eligible), each at least its half |
| CohortManifests.CohortManifest.MarkUnavailable | internal/evaluation/cohort.go:309-323 | The first sample with the key is marked; every sample stays in the manifest |
| CohortManifests.CohortManifest.Seal | internal/evaluation/cohort.go:325-350 | Sealing succeeds exactly when every sample is accounted for, and then the denominators add up |
| CohortManifests.MarkingKeepsTheCohort | internal/evaluation/cohort.go:309-323 | Marking never shrinks the cohort |
| Marker.PrefixReadsBack | internal/forge/marker.go:23-52 | A printed marker reads back as its role, and the message behind it as itself |
| Marker.RoleIsDetermined | internal/forge/marker.go:8-37 | The role is read correctly whatever the model is called, even if it ends like a role |
| Marker.TokenAlphabet | internal/forge/marker.go:8-37 | A model token is spelled with lower-case letters, digits, dots and dashes |
| FeedbackRules.RoleIffMarked | internal/forge/marker.go:8-52 | A comment is read with a role exactly if behind blanks it begins with a token, a dash, that role and a colon |
| FeedbackRules.TrimSpaceSplits | internal/forge/marker.go:38-52 | Trimming takes white space off both ends of a message, all of it and nothing else |
| FeedbackRules.ActionableIff | internal/forge/feedback.go:307-338 | Every comment without a marker is feedback, whatever it says; of the marked ones exactly the reviewers' that do not begin with APPROVED in any case |
| FeedbackRules.PrintedIsFeedbackIff | internal/forge/feedback.go:307-338 | What an agent prints is feedback exactly if a reviewer prints it and its text does not begin with APPROVED in any case |
| FeedbackRules.AcknowledgesIff | internal/forge/feedback.go:382-430 | A comment acknowledges an id exactly if its text is one of the two replies for that id, with anything behind |
| Feedback.AddressedIsExact | internal/forge/feedback.go:382-430 | An addressed reply is recognised for exactly the comment id it names |
| Feedback.AddressedNeedsNoParenthesis | internal/forge/feedback.go:383-430 | An addressed reply is recognized for exactly the id it names if and only if that id has no closing parenthesis |
| Feedback.DisputedIsExact | internal/forge/feedback.go:382-430 | A disputed reply is recognised for exactly the comment id it names |
| Feedback.DisputedNeedsAnId | internal/forge/feedback.go:412-427 | A disputed reply is recognised for its own id exactly when that id is non-empty and has no whitespace or closing parenthesis |
| FeedbackList.IsGlobalCommentAcknowledged | internal/forge/feedback.go:340-371 | The loop finds a strictly later worker acknowledgment of this comment exactly when there is one |
| FeedbackList.ListOutstanding | internal/forge/feedback.go:254-305 | The list holds exactly the actionable comments that are not acknowledged, over all pages, in order |
| FeedbackRules.HumanFeedbackIsListed | internal/forge/feedback.go:254-338 | A comment without a marker is on the list exactly until a worker comment that is strictly later acknowledges its id |
| FeedbackRules.ListedUntilReplied | internal/forge/feedback.go:254-371 | Where workers only print replies, a comment without a marker is on the list exactly until a strictly later reply for its id is among the comments |
| FeedbackList.ReplyClearsItsComment | internal/forge/feedback.go:755-773 | Posting a reply drops from the list exactly the earlier comments with its id, and adds nothing |
| FeedbackList.LaterReplyRemovesExactlyOne | internal/forge/feedback.go:755-773 | With distinct ids a strictly later reply removes exactly its comment |
| EvalRun.Runner.Run | internal/evalrun/runner.go:191-214 | Against any answers Run ends within MaxAttempts + MaxDeferrals - 1 claims, with every granted attempt finalized before the next claim, at most FinalizeRetries + 2 times; it goes on exactly after recorded attempts worth another, and stops because the last is not, the budget is spent, which alone counts as retries exhausted, the run is cancelled, a sleep fails, a claim is refused or something panics; the kind it reports is the last recorded exit or that cause |
| EvalRun.Runner.Claim | internal/evalrun/runner.go:242-282 | Claiming waits out refusals within MaxDeferrals over the whole run and no longer than MaxDeferWait each, and gives up with exactly the kind that the last answer calls for |
| EvalRun.AttemptRun.Commit | internal/evalrun/attempt.go:189-226 | commit makes between one and FinalizeRetries + 2 finalize calls, all for its attempt, offering the result and, once that was refused, the one that stands for it; it goes on exactly after a transient fault or the first refusal, as long as retries and sleep allow; the record says what the last answer was |
| EvalRun.AttemptRun.Run | internal/evalrun/attempt.go:34-45 | Whatever the execution does, a panic included, the attempt is committed exactly once; a workspace that Stage returned is gone afterwards, if its removal did not fail, exactly if the run was not cancelled when Stage returned it |
| EvalRun.AttemptRun.Execute | internal/evalrun/attempt.go:71-118 | execute asks in order for staging, cancellation, the snapshot and the candidate, and takes hold of the workspace only behind the test for cancellation |
| EvalRun.AbortedIffCancelledWhenMade | internal/evalrun/attempt.go:80-96 | A workspace is made and not held exactly if Stage returned it to a run cancelled meanwhile |
| EvalRun.CancellationLeavesWorkspace | internal/evalrun/attempt.go:86-96 | A run that does so: staging succeeds, the caller cancels, and the workspace stays on disk |
| EvalRun.AttemptRun.Close | internal/evalrun/attempt.go:46-55 | close commits exactly what was not committed yet and removes the workspace the attempt holds |
| EvalRun.CompletionIsEarned | internal/evalrun/attempt.go:120-159 | A result is completed, and carries findings, exactly when the candidate reported completion in a validated response |
| EvalRun.ExitSaysWhatHappened | internal/evalrun/attempt.go:120-187 | Which responses each exit comes from, in both directions |
| EvalRun.RetryableIsWorthAnother | internal/evalrun/runner.go:284-299 | Retryable recorded outcomes are exactly the six that another attempt could change, unless a capability or a credential is missing |
| EvalRun.ReadFinals | internal/evalrun/attempt.go:189-226 | Finalize calls for the attempt just granted keep the log orderly |

## Left out

Landing:

- Commit identity: a commit is its content and parents, so equal commits are equal values, as with git's content addressing.
- Lock tokens are unique because the lock object embeds a fresh nonce; a token is a number here and no two runs share one. A lock blob that cannot be read is not modelled.
- The board is collapsed to the states that matter to a landing (open, approved, done, retired) and to its atomic operations; links recorded before links carried their round, HTTP retries of one call and the pull-request path of approve are left out.
- The state machine is on values, since runs interleave at single accesses; `LandingCode` models the same code over mutable stores, where the other runs are an arbitrary schedule.
- Publish's worktree precheck and its ref transaction are one step, with the precheck's outcome an arbitrary input; the same holds for Cleanup's worktree removal.
- LandingSafety.PublishedIsProtected: assumes that every failing worktree precheck is harmless, because without that the code does not keep the property; `LandingPrecheck.RunSafeFromTheStart` says that this is exactly what it takes.
- LandingSafety.PlayKeepsInv: the same.
- LandingRecovery.InterruptedApproveFinishes: is about one undisturbed run (old lock gone or expired, wip unchanged, gate passing), since a disturbed run may have to be repeated.
- Freeze and Integrate, the variants without a board, and the merge and gate themselves.

Admission policy:

- Rates and tokens are exact reals, times are integer nanoseconds; float rounding, NaN and infinite rates, and the saturation of Duration are left out, except the explicit cap on the wait.
- Locking inside the evaluator: each operation is one atomic step. Parsing of the pool configuration is left out.

Graphs, claims and paths:

- Manifest.Validate: the field checks of validateChild that no property reads (title, spec, track, models, flags, sources, criteria) are one flag, and whether a task id is a well-formed UUID is a parameter.
- Which of several errors is reported first is stated only where a contract says so.
- Other writers of the dependency table (task creation) and the transaction around an update.

Evaluation:

- JSON text decoding and trimming: a line is given as what it decodes to. The extraction of the result block from the groups, and everything about starting and killing the child process.
- Within the output limit only: beyond it the fault can fall on any Write, and how much was read before it depends on the split.
- EventChunks.ChunksAreBatch: asks that trimming an empty line leaves it empty.
- JSON escaping of secrets is an arbitrary function; the structured copies made by the redactor (settings, responses) apply the string function field by field.
- SHA-256: the statements are about the bytes hashed. A character of an encoded string stands for one byte, and lengths are below 2^64. The loop that reads the keys of a Go map is represented by its result in any order.
- Staging to disk and reading it back. Lower-casing maps characters one by one, arbitrarily but for slashes and dots, which it neither makes nor removes.
- Workspace.CheckStaged: asks for clean relative paths, which its callers have checked and without which the code's walk up the directories need not end; `WorkspaceSpecs.Staged` is the whole chain without that condition.
- RedactLists.SafeIffNoneLeft: is exact for every stage of the list; what an earlier replacement leaves, a later and shorter secret may still remove from the final string, so for the final string alone the condition is sufficient.
- Report fields that are only copied (task, round, evidence, actor, revisions, latency, usage), the classification of runs into outcomes, the attention list, and the counts of used and ignored dispositions. Severities are the three an operator can record.
- Report.BuildReport: asks for distinct sample ids, as a cohort has, and takes the reviewers' states as collected; the common section is `ReportMetrics.CommonReport`.
- The recall ratio, which is Confirmed over KnownValid.
- The cohort's digest and its verification, the pinning of submitted commits, and the text of selection reasons, which is kept as the values it is made of.
- The counts of examined and excluded submissions, which the cohort's manifest copies.
- Cohort.SelectionIsOrderFree: asks that tasks are distinct and no two ranks collide.
- The runner's lookups before the loop, the lease ticker, and what staging and launching do; each is asked for its answer, in the code's order, and may panic. A panic inside the backend's finalize call or the removal is left out, and so are workspaces that Stage itself leaves when it fails.

Feedback:

- Fetching pages, review threads and reactions. Upper-casing for approvals is that of ASCII letters, the only ones the compared word has. Time stamps are given parsed.
- Feedback.AddressedIsExact: is about a non-empty commit without whitespace, which is what the writer prints, and an id without a closing parenthesis, which `Feedback.AddressedNeedsNoParenthesis` shows to be needed.

The terminal user interface, the HTTP server, the clients and the fleet scripts are not part of this model.
