/** internal/evalrun: a bounded evaluation run against a backend that may answer anything. */
module EvalRun {
  import opened Wrappers

  datatype Exit =
    | Completed | Cancelled | UnavailableSnapshot | UnavailableSource | IncompleteOutput
    | InvalidOutput | Timeout | Failed | Unknown | LeaseExpired

  datatype Status = StatusCompleted | StatusIncomplete | StatusInterrupted | StatusFailed | StatusUnsupported

  datatype ErrorClass =
    | NoClass | SourceUnavailable | TimedOut | OutputMalformed | OutputMissing
    | CapabilityMissing | AuthMissing | OtherClass

  /** valid: the response passes its own validation. */
  datatype Response = Response(status: Status, class_: ErrorClass, valid: bool, reviewCompleted: bool, findings: seq<string>)

  /** What Stage returns: a workspace, an UnavailableError, another error, or it panics. */
  datatype StageAnswer = Made | SnapshotUnavailable | StageFault | StagePanics

  /** What became of a staged workspace: it no longer matched, the executor failed, answered, or
      something panicked. */
  datatype Ran =
    | Stale | ExecutorFailed | RunPanics
    | Responded(response: Response, hostCancelled: bool, leaseLost: bool)

  /** How execute ends. Aborted: the run was cancelled by the time Stage returned; made says whether
      Stage returned a workspace all the same. */
  datatype Execution =
    | BadRunId | StageBroke | Unavailable | Aborted(made: bool) | StageFailed
    | Held(ran: Ran)

  predicate Panics(e: Execution) {
    e.StageBroke? || e == Held(RunPanics)
  }

  /** What is written for an attempt. */
  datatype Result = Result(exit: Exit, class_: ErrorClass, findings: seq<string>)

  datatype ClaimAnswer =
    | Granted(attempt: nat) | Denied(wait: int) | CapacityExhausted | Paused
    | PoolNotConfigured | AttemptLive | ClaimFault

  datatype FinalizeAnswer = Accepted | Expired | InvalidInput | FenceMismatch | AlreadyFinalized | NotFound | Transient

  datatype Kind =
    | OfExit(exit: Exit) | KindDeferred | KindCapacityExhausted | KindPaused
    | KindPoolNotConfigured | KindAttemptLive | KindHostError | KindUnrecorded

  /** Everything outside the runner, consulted in turn: the k-th question gets the k-th answer of
      its kind, and no answer is excluded. */
  datatype World = World(
    claim: nat -> ClaimAnswer, finalize: nat -> FinalizeAnswer,
    sleeps: nat -> bool, cancelled: nat -> bool,
    usableId: nat -> bool, stage: nat -> StageAnswer, runCancelled: nat -> bool,
    intact: nat -> bool, launch: nat -> Ran, remove: nat -> CleanupAnswer, clears: nat -> bool
  )

  /** How a removal ends: done, done but with an error about the result file, or not done. */
  datatype CleanupAnswer = Removed | RemovedInPart | NotRemoved

  /** execute, by what it is told in turn. runCancelled is the state of the run's own context, which
      the caller or a failed renewal of the lease may cancel at any time. */
  function ExecutionAt(w: World, clock: nat): Execution {
    if !w.usableId(clock) then BadRunId
    else match w.stage(clock + 1)
      case StagePanics => StageBroke
      case SnapshotUnavailable => Unavailable
      case answer =>
        if w.runCancelled(clock + 2) then Aborted(answer.Made?)
        else if answer.StageFault? then StageFailed
        else if !w.intact(clock + 3) then Held(Stale)
        else Held(w.launch(clock + 4))
  }

  /** Stage returns a workspace. */
  predicate StageMakes(w: World, clock: nat) {
    w.usableId(clock) && w.stage(clock + 1).Made?
  }

  /** It does, but the run had been cancelled meanwhile. */
  predicate CancelledWhenMade(w: World, clock: nat) {
    StageMakes(w, clock) && w.runCancelled(clock + 2)
  }

  lemma AbortedIffCancelledWhenMade(w: World, clock: nat)
    ensures ExecutionAt(w, clock) == Aborted(true) <==> CancelledWhenMade(w, clock)
    ensures ExecutionAt(w, clock).Held? <==> StageMakes(w, clock) && !CancelledWhenMade(w, clock)
  {
  }

  datatype Config = Config(maxAttempts: nat, maxDeferrals: nat, maxDeferWait: int, finalizeRetries: nat)

  /** What New lets through, once zero bounds have taken their defaults. */
  predicate ValidConfig(c: Config) {
    c.maxAttempts > 0 && c.maxDeferrals > 0 && c.finalizeRetries > 0
  }

  /** The calls the backend sees, and what it answers. */
  datatype Call = ClaimCall(reply: ClaimAnswer) | FinalizeCall(attempt: nat, result: Result, answer: FinalizeAnswer)

  function GrantOf(answer: ClaimAnswer): Option<nat> {
    if answer.Granted? then Some(answer.attempt) else None
  }

  /** Reading a log: the attempt last granted, and how often it was finalized. orderly: an attempt
      is finalized only while it is the last one granted, at most most times, and never left
      unfinalized when the next claim is made. */
  datatype Reading = Reading(current: Option<nat>, finals: nat, claims: nat, grants: nat, orderly: bool)

  const START := Reading(None, 0, 0, 0, true)

  function Read(r: Reading, c: Call, most: nat): Reading {
    match c
    case ClaimCall(answer) =>
      Reading(
        GrantOf(answer), 0, r.claims + 1, r.grants + (if answer.Granted? then 1 else 0),
        r.orderly && (r.current.Some? ==> r.finals > 0)
      )
    case FinalizeCall(a, _, _) =>
      r.(finals := r.finals + 1, orderly := r.orderly && r.current == Some(a) && r.finals < most)
  }

  function ReadAll(log: seq<Call>, most: nat): Reading {
    if log == [] then START else Read(ReadAll(log[..|log| - 1], most), log[|log| - 1], most)
  }

  /** The backend, the stager and the executor. onDisk: a workspace of this job's slot exists. */
  class Backend {
    const world: World
    var clock: nat
    var log: seq<Call>
    var onDisk: bool

    constructor (world: World)
      ensures log == [] && !onDisk && this.world == world
    {
      this.world, clock, log, onDisk := world, 0, [], false;
    }

    method Claim() returns (answer: ClaimAnswer)
      modifies this`clock, this`log
      ensures answer == world.claim(old(clock)) && clock == old(clock) + 1
      ensures log == old(log) + [ClaimCall(answer)]
    {
      answer := world.claim(clock);
      clock := clock + 1;
      log := log + [ClaimCall(answer)];
    }

    method Finalize(attempt: nat, result: Result) returns (answer: FinalizeAnswer)
      modifies this`clock, this`log
      ensures answer == world.finalize(old(clock)) && clock == old(clock) + 1
      ensures log == old(log) + [FinalizeCall(attempt, result, answer)]
    {
      answer := world.finalize(clock);
      clock := clock + 1;
      log := log + [FinalizeCall(attempt, result, answer)];
    }

    method Sleep() returns (ok: bool)
      modifies this`clock
      ensures ok == world.sleeps(old(clock)) && clock == old(clock) + 1
    {
      ok := world.sleeps(clock);
      clock := clock + 1;
    }

    method ContextDone() returns (done: bool)
      modifies this`clock
      ensures done == world.cancelled(old(clock)) && clock == old(clock) + 1
    {
      done := world.cancelled(clock);
      clock := clock + 1;
    }

    method UsableId() returns (ok: bool)
      modifies this`clock
      ensures ok == world.usableId(old(clock)) && clock == old(clock) + 1
    {
      ok := world.usableId(clock);
      clock := clock + 1;
    }

    /** Stage replaces what an earlier attempt left in the slot; failing, it may have cleared it. */
    method Stage() returns (answer: StageAnswer)
      modifies this`clock, this`onDisk
      ensures answer == world.stage(old(clock)) && clock == old(clock) + 1
      ensures answer.Made? ==> onDisk
      ensures !answer.Made? && onDisk ==> old(onDisk)
    {
      answer := world.stage(clock);
      onDisk := answer.Made? || (onDisk && !world.clears(clock));
      clock := clock + 1;
    }

    method RunCancelled() returns (cancelled: bool)
      modifies this`clock
      ensures cancelled == world.runCancelled(old(clock)) && clock == old(clock) + 1
    {
      cancelled := world.runCancelled(clock);
      clock := clock + 1;
    }

    method Intact() returns (ok: bool)
      modifies this`clock
      ensures ok == world.intact(old(clock)) && clock == old(clock) + 1
    {
      ok := world.intact(clock);
      clock := clock + 1;
    }

    method Launch() returns (ran: Ran)
      modifies this`clock
      ensures ran == world.launch(old(clock)) && clock == old(clock) + 1
    {
      ran := world.launch(clock);
      clock := clock + 1;
    }

    method Remove() returns (failed: bool)
      modifies this`clock, this`onDisk
      ensures failed == !world.remove(old(clock)).Removed? && clock == old(clock) + 1
      ensures onDisk == (old(onDisk) && world.remove(old(clock)).NotRemoved?)
    {
      var answer := world.remove(clock);
      failed := !answer.Removed?;
      onDisk := onDisk && answer.NotRemoved?;
      clock := clock + 1;
    }
  }

  /** exitClass. */
  function ExitClass(r: Response, hostCancelled: bool): Exit {
    match r.status
    case StatusCompleted => Completed
    case StatusIncomplete => if r.class_ == SourceUnavailable then UnavailableSource else IncompleteOutput
    case StatusInterrupted =>
      if r.class_ == TimedOut then Timeout else if hostCancelled then Cancelled else Unknown
    case StatusFailed =>
      if r.class_ == OutputMalformed || r.class_ == OutputMissing then InvalidOutput
      else if r.class_ == SourceUnavailable then UnavailableSource
      else Failed
    case StatusUnsupported => Failed
  }

  /** finalization. */
  function Finalization(r: Response, hostCancelled: bool, leaseLost: bool): Result {
    var exit := ExitClass(r, hostCancelled);
    var rejected := exit == Completed && (!r.valid || !r.reviewCompleted);
    var checked := if rejected then InvalidOutput else exit;
    var class_ := if rejected then OutputMalformed else r.class_;
    var final := if checked != Completed && leaseLost then Cancelled else checked;
    Result(final, class_, if final == Completed then r.findings else [])
  }

  /** The result an execution leaves behind; after a panic it is still the one that run put there
      first. */
  function ResultOf(e: Execution): Result {
    match e
    case Unavailable => Result(UnavailableSnapshot, NoClass, [])
    case Aborted(_) => Result(Cancelled, NoClass, [])
    case Held(Stale) => Result(UnavailableSnapshot, NoClass, [])
    case Held(Responded(r, hostCancelled, leaseLost)) => Finalization(r, hostCancelled, leaseLost)
    case _ => Result(Unknown, NoClass, [])
  }

  predicate HasResponse(e: Execution) {
    e.Held? && e.ran.Responded?
  }

  /** A review counts as completed, and carries findings, only if the candidate said so in a
      response that validated. */
  lemma CompletionIsEarned(e: Execution)
    ensures ResultOf(e).exit == Completed ==>
      HasResponse(e) && e.ran.response.status == StatusCompleted && e.ran.response.valid && e.ran.response.reviewCompleted
      && ResultOf(e).findings == e.ran.response.findings
    ensures ResultOf(e).exit != Completed ==> ResultOf(e).findings == []
    ensures HasResponse(e) && e.ran.response.status == StatusCompleted && e.ran.response.valid && e.ran.response.reviewCompleted ==>
      ResultOf(e).exit == Completed
  {}

  /** Which response each exit comes from: the mapping read backwards. */
  lemma ExitSaysWhatHappened(r: Response, hostCancelled: bool, leaseLost: bool)
    ensures var exit := Finalization(r, hostCancelled, leaseLost).exit;
      var interrupted := r.status == StatusInterrupted;
      var sourceLost := r.class_ == SourceUnavailable && (r.status == StatusIncomplete || r.status == StatusFailed);
      var badOutput := r.status == StatusFailed && r.class_ in {OutputMalformed, OutputMissing};
      var unearned := r.status == StatusCompleted && !(r.valid && r.reviewCompleted);
      && (exit == Completed <==> r.status == StatusCompleted && r.valid && r.reviewCompleted)
      && (exit == Cancelled <==>
            (leaseLost && !(r.status == StatusCompleted && r.valid && r.reviewCompleted)) ||
            (interrupted && r.class_ != TimedOut && hostCancelled))
      && (exit == Timeout <==> !leaseLost && interrupted && r.class_ == TimedOut)
      && (exit == Unknown <==> !leaseLost && interrupted && r.class_ != TimedOut && !hostCancelled)
      && (exit == UnavailableSource <==> !leaseLost && sourceLost)
      && (exit == IncompleteOutput <==> !leaseLost && r.status == StatusIncomplete && !sourceLost)
      && (exit == InvalidOutput <==> !leaseLost && (badOutput || unearned))
      && (exit == Failed <==> !leaseLost && (r.status == StatusUnsupported || (r.status == StatusFailed && !badOutput && !sourceLost)))
    ensures Finalization(r, hostCancelled, leaseLost).class_ ==
      if r.status == StatusCompleted && !(r.valid && r.reviewCompleted) then OutputMalformed else r.class_
  {
  }

  datatype AttemptRecord = AttemptRecord(attempt: nat, recorded: bool, exit: Option<Exit>, result: Result, cleanupFailed: bool)

  /** One claimed attempt, from staging to finalization. */
  class AttemptRun {
    const backend: Backend
    const config: Config
    const attempt: nat
    var res: Result
    var rec: AttemptRecord
    var staged: bool
    var committed: bool
    ghost var commits: nat
    ghost var cleanups: nat

    constructor (backend: Backend, config: Config, attempt: nat)
      ensures this.backend == backend && this.config == config && this.attempt == attempt
      ensures !staged && !committed && commits == 0 && cleanups == 0
    {
      this.backend, this.config, this.attempt := backend, config, attempt;
      res := Result(Unknown, NoClass, []);
      rec := AttemptRecord(attempt, false, None, Result(Unknown, NoClass, []), false);
      staged, committed, commits, cleanups := false, false, 0, 0;
    }

    /** The only place an attempt is finalized: at least one and at most FinalizeRetries + 2 calls,
        all for this attempt. It goes on exactly after an answer that may pass, and says what the last
        answer was. */
    method Commit()
      requires !committed && commits == 0 && rec.attempt == attempt
      modifies this, backend`clock, backend`log
      ensures committed && commits == 1 && staged == old(staged) && cleanups == old(cleanups)
      ensures Finalized(old(backend.log), backend.log, attempt, config)
      ensures Recorded(rec, old(res), backend.log) && rec.attempt == old(rec.attempt)
      ensures rec.cleanupFailed == old(rec.cleanupFailed)
      ensures Offered(backend.log, |old(backend.log)|, old(res)) && Persisted(backend.log, |old(backend.log)|)
      ensures GaveUp(backend.log, |old(backend.log)|, config, backend.world, backend.clock)
    {
      committed := true;
      commits := commits + 1;
      rec := rec.(recorded := false, exit := None);
      ghost var from := |backend.log|;
      var degraded := false;
      var try_ := 0;
      var again := true;
      while again
        invariant committed && commits == 1 && staged == old(staged) && cleanups == old(cleanups)
        invariant FinalizedOnly(old(backend.log), backend.log, attempt)
        invariant |backend.log| - from == (if again then try_ else try_ + 1)
        invariant try_ <= config.finalizeRetries + 1
        invariant try_ == config.finalizeRetries + 1 ==> degraded
        invariant rec.attempt == old(rec.attempt) && rec.cleanupFailed == old(rec.cleanupFailed)
        invariant res == if NoInvalid(backend.log, from, |backend.log|) then old(res) else if again then UNRECORDABLE else res
        invariant res == old(res) || res == UNRECORDABLE
        invariant again ==> (degraded <==> !NoInvalid(backend.log, from, |backend.log|))
        invariant Offered(backend.log, from, old(res))
        invariant again ==> forall i :: from <= i < |backend.log| ==> GoesOn(backend.log, from, i)
        invariant Persisted(backend.log, from)
        invariant again ==> !rec.recorded && rec.exit == None
        invariant !again ==> Said(rec.(result := res), backend.log)
        invariant !again ==> GaveUp(backend.log, from, config, backend.world, backend.clock)
        decreases again, config.finalizeRetries + 2 - try_
      {
        ghost var before := backend.log;
        var answer := backend.Finalize(attempt, res);
        OneMoreOffer(before, backend.log, from, attempt, res, answer, old(res));
        again := false;
        match answer {
          case Accepted =>
            rec := rec.(recorded := true, exit := Some(res.exit));
          case Expired =>
            rec := rec.(recorded := true, exit := Some(LeaseExpired));
          case InvalidInput =>
            if !degraded {
              degraded := true;
              res := UNRECORDABLE;
              again := true;
            }
          case Transient =>
            if try_ < config.finalizeRetries {
              again := backend.Sleep();
            }
          case _ =>
        }
        if again {
          try_ := try_ + 1;
        }
      }
      rec := rec.(result := res);
    }

    /** close, which run defers: it finalizes what was not finalized yet, and removes the workspace
        the attempt holds. */
    method Close()
      requires if committed then commits == 1 else commits == 0
      requires rec.attempt == attempt && !rec.cleanupFailed
      requires cleanups == 0
      modifies this, backend
      ensures committed && commits == 1 && staged == old(staged) && cleanups == (if staged then 1 else 0)
      ensures old(committed) ==> backend.log == old(backend.log) && rec == old(rec).(cleanupFailed := rec.cleanupFailed)
      ensures !old(committed) ==> Finalized(old(backend.log), backend.log, attempt, config) && Recorded(rec, old(res), backend.log)
      ensures rec.attempt == old(rec.attempt)
      ensures if staged then !rec.cleanupFailed ==> !backend.onDisk else backend.onDisk == old(backend.onDisk) && !rec.cleanupFailed
    {
      if !committed {
        Commit();
      }
      if staged {
        var failed := backend.Remove();
        cleanups := cleanups + 1;
        rec := rec.(cleanupFailed := failed);
      }
    }

    /** execute: staging, and only if the run is not cancelled by then, the candidate. The attempt
        takes hold of the workspace behind the test for cancellation. */
    method Execute() returns (e: Execution)
      requires !staged && res == Result(Unknown, NoClass, [])
      modifies this`res, this`staged, backend`clock, backend`onDisk
      ensures e == ExecutionAt(backend.world, old(backend.clock))
      ensures res == ResultOf(e) && staged == e.Held?
      ensures e == Aborted(true) ==> backend.onDisk
      ensures !staged && e != Aborted(true) && backend.onDisk ==> old(backend.onDisk)
    {
      var usable := backend.UsableId();
      if !usable {
        return BadRunId;
      }
      var answer := backend.Stage();
      if answer.StagePanics? {
        return StageBroke;
      }
      if answer.SnapshotUnavailable? {
        res := Result(UnavailableSnapshot, NoClass, []);
        return Unavailable;
      }
      var cancelled := backend.RunCancelled();
      if cancelled {
        res := Result(Cancelled, NoClass, []);
        return Aborted(answer.Made?);
      }
      if answer.StageFault? {
        return StageFailed;
      }
      staged := true;
      var ran := Stale;
      var intact := backend.Intact();
      if intact {
        ran := backend.Launch();
      }
      e := Held(ran);
      if !Panics(e) {
        res := ResultOf(e);
      }
    }

    /** run: whatever the execution does, a panic included, the attempt is committed exactly once. A
        workspace that Stage returned is gone afterwards, if its removal did not fail, exactly if the
        run was not cancelled when Stage returned it. */
    method Run() returns (panicked: bool, ghost e: Execution)
      requires !committed && commits == 0 && !staged && cleanups == 0
      modifies this, backend
      ensures committed && commits == 1 && cleanups == (if staged then 1 else 0)
      ensures e == ExecutionAt(backend.world, old(backend.clock)) && panicked == Panics(e) && staged == e.Held?
      ensures Finalized(old(backend.log), backend.log, attempt, config)
      ensures Recorded(rec, ResultOf(e), backend.log) && rec.attempt == attempt
      ensures StageMakes(backend.world, old(backend.clock)) && !rec.cleanupFailed ==>
        (!backend.onDisk <==> !CancelledWhenMade(backend.world, old(backend.clock)))
      ensures CancelledWhenMade(backend.world, old(backend.clock)) ==> backend.onDisk && cleanups == 0
      ensures !StageMakes(backend.world, old(backend.clock)) && backend.onDisk ==> old(backend.onDisk)
    {
      rec := AttemptRecord(attempt, false, None, Result(Unknown, NoClass, []), false);
      res := Result(Unknown, NoClass, []);
      AbortedIffCancelledWhenMade(backend.world, backend.clock);
      var execution := Execute();
      e := execution;
      panicked := Panics(execution);
      if !panicked {
        Commit();
      }
      Close();
    }
  }

  /** A run that leaves its workspace: staging succeeds, and the caller cancels meanwhile. */
  const LEAVES := World(
    _ => Granted(0), _ => Accepted, _ => true, _ => false,
    _ => true, _ => Made, _ => true, _ => true, _ => Stale, _ => Removed, _ => false
  )

  lemma CancellationLeavesWorkspace()
    ensures CancelledWhenMade(LEAVES, 0) && ExecutionAt(LEAVES, 0) == Aborted(true)
    ensures ResultOf(ExecutionAt(LEAVES, 0)).exit == Cancelled
  {
  }

  /** What one commit adds to the backend's log. */
  ghost predicate Finalized(before: seq<Call>, after: seq<Call>, attempt: nat, config: Config) {
    FinalizedOnly(before, after, attempt) && 1 <= |after| - |before| <= config.finalizeRetries + 2
  }

  /** What is written for a result the store would not take. */
  const UNRECORDABLE := Result(Unknown, NoClass, [])

  predicate NoInvalid(log: seq<Call>, from: nat, i: nat)
    requires i <= |log|
  {
    forall j :: from <= j < i ==> log[j].FinalizeCall? ==> !log[j].answer.InvalidInput?
  }

  /** The answer may pass: the fault is transient, or it is the first refusal of the result. */
  predicate GoesOn(log: seq<Call>, from: nat, i: nat)
    requires i < |log|
  {
    log[i].FinalizeCall? && (log[i].answer.Transient? || (log[i].answer.InvalidInput? && NoInvalid(log, from, i)))
  }

  /** Each call offers the result, or once that was refused, the one that stands for it. */
  predicate Offered(log: seq<Call>, from: nat, offered: Result) {
    forall i :: from <= i < |log| ==>
      log[i].FinalizeCall? && log[i].result == if NoInvalid(log, from, i) then offered else UNRECORDABLE
  }

  /** Every answer but the last was one to go on after. */
  predicate Persisted(log: seq<Call>, from: nat) {
    forall i :: from <= i < |log| - 1 ==> GoesOn(log, from, i)
  }

  /** The last question asked was for sleep, and it failed. end is the moment behind it. */
  predicate LastSleepFailed(w: World, end: nat) {
    end > 0 && !w.sleeps(end - 1)
  }

  predicate LastSawCancelled(w: World, end: nat) {
    end > 0 && w.cancelled(end - 1)
  }

  /** The last answer was one to stop at: final, or the result was refused a second time, or the
      retries are used up, or the sleep before the next failed. */
  predicate GaveUp(log: seq<Call>, from: nat, config: Config, w: World, end: nat) {
    from < |log| && log[|log| - 1].FinalizeCall? &&
    match log[|log| - 1].answer
    case Transient => |log| - from > config.finalizeRetries || LastSleepFailed(w, end)
    case InvalidInput => !NoInvalid(log, from, |log| - 1)
    case _ => true
  }

  lemma OneMoreOffer(before: seq<Call>, after: seq<Call>, from: nat, attempt: nat, res: Result, answer: FinalizeAnswer, offered: Result)
    requires from <= |before| && after == before + [FinalizeCall(attempt, res, answer)]
    requires Offered(before, from, offered) && res == if NoInvalid(before, from, |before|) then offered else UNRECORDABLE
    requires forall i :: from <= i < |before| ==> GoesOn(before, from, i)
    ensures Offered(after, from, offered) && Persisted(after, from)
    ensures NoInvalid(after, from, |before|) == NoInvalid(before, from, |before|)
    ensures NoInvalid(after, from, |after|) <==> NoInvalid(before, from, |before|) && !answer.InvalidInput?
    ensures GoesOn(after, from, |before|) ==> forall i :: from <= i < |after| ==> GoesOn(after, from, i)
  {
    forall i | from <= i <= |before|
      ensures NoInvalid(after, from, i) == NoInvalid(before, from, i)
    {
      assert forall j :: from <= j < i ==> after[j] == before[j];
    }
    forall i | from <= i < |before|
      ensures GoesOn(after, from, i)
    {
      assert GoesOn(before, from, i);
    }
    assert after[|before|] == FinalizeCall(attempt, res, answer);
  }

  /** What the record of an attempt says: the result offered, or the one that stands for a result
      the store would not take. */
  ghost predicate Recorded(rec: AttemptRecord, offered: Result, log: seq<Call>) {
    (rec.result == offered || rec.result == UNRECORDABLE) && Said(rec, log)
  }

  /** Recorded means that the last call carried the result and was accepted, or came too late. */
  ghost predicate Said(rec: AttemptRecord, log: seq<Call>) {
    && |log| > 0 && log[|log| - 1].FinalizeCall?
    && var last := log[|log| - 1];
    && (rec.recorded <==> last.answer.Accepted? || last.answer.Expired?)
    && (rec.recorded ==> last.attempt == rec.attempt && last.result == rec.result)
    && rec.exit == match last.answer {
         case Accepted => Some(rec.result.exit)
         case Expired => Some(LeaseExpired)
         case _ => None
       }
  }

  /** after is before and then finalize calls for one attempt. */
  ghost predicate FinalizedOnly(before: seq<Call>, after: seq<Call>, attempt: nat) {
    && before <= after
    && forall i :: |before| <= i < |after| ==> after[i].FinalizeCall? && after[i].attempt == attempt
  }

  datatype Report = Report(deferrals: nat, attempts: seq<AttemptRecord>, kind: Kind, retriesExhausted: bool)

  /** retryable: whether another attempt could change the outcome. */
  predicate Retryable(rec: AttemptRecord) {
    && rec.exit.Some? && rec.exit.value !in {Completed, Cancelled, UnavailableSnapshot, Unknown}
    && rec.result.class_ != CapabilityMissing && rec.result.class_ != AuthMissing
  }

  lemma ReadSnoc(log: seq<Call>, c: Call, most: nat)
    ensures ReadAll(log + [c], most) == Read(ReadAll(log, most), c, most)
  {
    assert (log + [c])[..|log|] == log;
  }

  /** Finalize calls for the attempt just granted keep the log orderly. */
  lemma {:induction false} ReadFinals(before: seq<Call>, after: seq<Call>, attempt: nat, most: nat)
    requires FinalizedOnly(before, after, attempt) && |after| - |before| <= most
    requires var r := ReadAll(before, most); r.orderly && r.current == Some(attempt) && r.finals == 0
    ensures ReadAll(after, most) == ReadAll(before, most).(finals := |after| - |before|)
    decreases |after|
  {
    if |after| == |before| {
      assert after == before;
    } else {
      var n := |after| - 1;
      ReadFinals(before, after[..n], attempt, most);
    }
  }

  /** Every attempt of the log is settled: nothing granted is left unfinalized. */
  ghost predicate Settled(r: Reading) {
    r.orderly && (r.current.Some? ==> r.finals > 0)
  }

  /** What is reported as recorded was written to the backend as reported, and taken. */
  ghost predicate AllWritten(attempts: seq<AttemptRecord>, log: seq<Call>) {
    forall r :: r in attempts && r.recorded ==> Written(r, log)
  }

  ghost predicate Written(r: AttemptRecord, log: seq<Call>) {
    FinalizeCall(r.attempt, r.result, Accepted) in log || FinalizeCall(r.attempt, r.result, Expired) in log
  }

  lemma SaidIsWritten(r: AttemptRecord, log: seq<Call>)
    requires Said(r, log) && r.recorded
    ensures Written(r, log)
  {
    assert log[|log| - 1] in log;
  }

  /** How a run may end. */
  datatype Stop = Refused | Panicked | Unrecorded | Final | Interrupted | SleepFailed | BudgetSpent

  /** Outcomes worth another attempt: the ones a candidate, its output, its sources or the clock are to
      blame for, unless the candidate lacks a capability or a credential. */
  predicate WorthAnother(rec: AttemptRecord) {
    && rec.recorded && rec.exit.Some?
    && rec.exit.value in {UnavailableSource, IncompleteOutput, InvalidOutput, Timeout, Failed, LeaseExpired}
    && rec.result.class_ !in {CapabilityMissing, AuthMissing}
  }

  lemma RetryableIsWorthAnother(rec: AttemptRecord)
    requires rec.recorded
    ensures Retryable(rec) <==> WorthAnother(rec)
  {
    if rec.exit.Some? {
      assert rec.exit.value in {Completed, Cancelled, UnavailableSnapshot, Unknown} <==>
        rec.exit.value !in {UnavailableSource, IncompleteOutput, InvalidOutput, Timeout, Failed, LeaseExpired} by {
        match rec.exit.value case Completed => case _ =>
      }
    }
  }

  /** A refusal that is waited out. */
  predicate MayWait(c: Call, config: Config) {
    c.ClaimCall? && c.reply.Denied? && c.reply.wait <= config.maxDeferWait
  }

  /** Why a claim gives up: the run is cancelled, or what the last answer says. asked is the moment of
      that answer. */
  predicate ClaimGaveUp(w: World, asked: nat, config: Config, deferrals: nat, kind: Kind) {
    if w.cancelled(asked + 1) then kind == OfExit(Cancelled)
    else match w.claim(asked)
      case Denied(wait) =>
        if deferrals >= config.maxDeferrals || wait > config.maxDeferWait then kind == KindDeferred
        else kind == OfExit(Cancelled) && !w.sleeps(asked + 2)
      case CapacityExhausted => kind == KindCapacityExhausted
      case Paused => kind == KindPaused
      case PoolNotConfigured => kind == KindPoolNotConfigured
      case AttemptLive => kind == KindAttemptLive
      case ClaimFault => kind == KindHostError
      case Granted(_) => false
  }

  /** What a finished report says: every attempt but the last was worth another; a run stops exactly
      when the last one is not, or its budget is spent, or it was cancelled, or it could not sleep, or a
      claim was refused, or something panicked; and its kind is the last exit, or the cause. end is the
      moment behind the last question. */
  ghost predicate Reported(rep: Report, stop: Stop, w: World, asked: nat, end: nat, config: Config) {
    var n := |rep.attempts|;
    && (forall i :: 0 <= i < n - 1 ==> WorthAnother(rep.attempts[i]))
    && (rep.retriesExhausted <==> stop.BudgetSpent?)
    && (stop.Refused? ==>
          (n > 0 ==> WorthAnother(rep.attempts[n - 1])) && ClaimGaveUp(w, asked, config, rep.deferrals, rep.kind))
    && (!stop.Refused? ==> n > 0 && EndsWith(rep, rep.attempts[n - 1], stop, w, end, config))
  }

  /** What the last attempt has to do with it. */
  predicate EndsWith(rep: Report, rec: AttemptRecord, stop: Stop, w: World, end: nat, config: Config) {
    && (stop.Unrecorded? ==> !rec.recorded && rep.kind == KindUnrecorded)
    && (stop in {Final, Interrupted, SleepFailed, BudgetSpent} ==>
          rec.recorded && rec.exit.Some? && rep.kind == OfExit(rec.exit.value))
    && (stop.Final? ==> !WorthAnother(rec))
    && (stop.Interrupted? ==> LastSawCancelled(w, end))
    && (stop.SleepFailed? ==> WorthAnother(rec) && |rep.attempts| < config.maxAttempts && LastSleepFailed(w, end))
    && (stop.BudgetSpent? ==> WorthAnother(rec) && |rep.attempts| == config.maxAttempts)
  }

  class Runner {
    const backend: Backend
    const config: Config

    constructor (backend: Backend, config: Config)
      requires ValidConfig(config)
      ensures this.backend == backend && this.config == config
    {
      this.backend, this.config := backend, config;
    }

    ghost function Most(): nat {
      config.finalizeRetries + 2
    }

    /** claim: refusals are waited out within MaxDeferrals over the whole run, as long as none asks for
        longer than MaxDeferWait. */
    method Claim(deferrals: nat) returns (attempt: Option<nat>, kind: Kind, deferrals': nat, ghost asked: nat)
      requires deferrals < config.maxDeferrals
      requires Settled(ReadAll(backend.log, Most()))
      modifies backend
      ensures var before, after := ReadAll(old(backend.log), Most()), ReadAll(backend.log, Most());
        && after.orderly && after.current == attempt && after.finals == 0
        && after.grants == before.grants + (if attempt.Some? then 1 else 0)
        && before.claims <= after.claims
        && (attempt.Some? ==> after.claims == before.claims + deferrals' - deferrals + 1)
        && (attempt.None? ==> after.claims - before.claims <= config.maxDeferrals - deferrals)
      ensures deferrals <= deferrals' <= config.maxDeferrals
      ensures attempt.Some? ==> deferrals' < config.maxDeferrals
      ensures attempt.None? ==> kind != KindUnrecorded
      ensures old(backend.log) <= backend.log && old(backend.log) != backend.log
      ensures forall i :: |old(backend.log)| <= i < |backend.log| - 1 ==> MayWait(backend.log[i], config)
      ensures backend.log[|backend.log| - 1] == ClaimCall(backend.world.claim(asked))
      ensures attempt == GrantOf(backend.world.claim(asked))
      ensures attempt.None? ==> ClaimGaveUp(backend.world, asked, config, deferrals', kind)
    {
      attempt, kind, deferrals', asked := None, KindHostError, deferrals, 0;
      ghost var start := ReadAll(backend.log, Most());
      while true
        invariant deferrals <= deferrals' < config.maxDeferrals && old(backend.log) <= backend.log
        invariant Settled(ReadAll(backend.log, Most()))
        invariant ReadAll(backend.log, Most()).grants == start.grants
        invariant ReadAll(backend.log, Most()).claims == start.claims + deferrals' - deferrals
        invariant forall i :: |old(backend.log)| <= i < |backend.log| ==> MayWait(backend.log[i], config)
        decreases config.maxDeferrals - deferrals'
      {
        ghost var before := backend.log;
        asked := backend.clock;
        var answer := backend.Claim();
        ReadSnoc(before, ClaimCall(answer), Most());
        if answer.Granted? {
          attempt := Some(answer.attempt);
          return;
        }
        var done := backend.ContextDone();
        if done {
          kind := OfExit(Cancelled);
          return;
        }
        match answer {
          case Denied(wait) =>
            deferrals' := deferrals' + 1;
            if deferrals' >= config.maxDeferrals || wait > config.maxDeferWait {
              kind := KindDeferred;
              return;
            }
            var ok := backend.Sleep();
            if !ok {
              kind := OfExit(Cancelled);
              return;
            }
          case CapacityExhausted =>
            kind := KindCapacityExhausted;
            return;
          case Paused =>
            kind := KindPaused;
            return;
          case PoolNotConfigured =>
            kind := KindPoolNotConfigured;
            return;
          case AttemptLive =>
            kind := KindAttemptLive;
            return;
          case _ =>
            return;
        }
      }
    }

    /** Run: against any world it ends, within MaxAttempts + MaxDeferrals - 1 claims, every attempt it
        was granted has been finalized, at most FinalizeRetries + 2 times and before the next claim, and
        it goes on exactly after attempts that are worth another. */
    method Run() returns (rep: Report, panicked: bool, ghost stop: Stop, ghost asked: nat)
      requires ValidConfig(config) && backend.log == []
      modifies backend
      ensures var end := ReadAll(backend.log, Most());
        && Settled(end)
        && end.claims <= config.maxAttempts + config.maxDeferrals - 1
        && end.grants <= config.maxAttempts
        && end.grants == |rep.attempts|
      ensures rep.deferrals <= config.maxDeferrals
      ensures AllWritten(rep.attempts, backend.log)
      ensures panicked <==> stop.Panicked?
      ensures Reported(rep, stop, backend.world, asked, backend.clock, config)
    {
      rep, panicked, stop, asked := Report(0, [], KindHostError, false), false, Refused, 0;
      var n := 1;
      while true
        invariant 1 <= n <= config.maxAttempts && |rep.attempts| == n - 1
        invariant rep.deferrals < config.maxDeferrals && !rep.retriesExhausted && !panicked
        invariant Settled(ReadAll(backend.log, Most()))
        invariant ReadAll(backend.log, Most()).grants == n - 1
        invariant ReadAll(backend.log, Most()).claims == n - 1 + rep.deferrals
        invariant AllWritten(rep.attempts, backend.log)
        invariant forall i :: 0 <= i < n - 1 ==> WorthAnother(rep.attempts[i])
        decreases config.maxAttempts - n
      {
        ghost var written := backend.log;
        var attempt, kind, deferrals;
        attempt, kind, deferrals, asked := Claim(rep.deferrals);
        rep := rep.(deferrals := deferrals);
        if attempt.None? {
          rep := rep.(kind := kind);
          stop := Refused;
          return;
        }
        var rec;
        rec, panicked := Attempt(attempt.value);
        StillWritten(rep.attempts, rec, written, backend.log);
        rep := rep.(attempts := rep.attempts + [rec]);
        if panicked {
          stop := Panicked;
          return;
        }
        if !rec.recorded {
          rep := rep.(kind := KindUnrecorded);
          stop := Unrecorded;
          return;
        }
        rep := rep.(kind := OfExit(rec.exit.value));
        RetryableIsWorthAnother(rec);
        var done := backend.ContextDone();
        if done || !Retryable(rec) {
          stop := if done then Interrupted else Final;
          return;
        }
        if n >= config.maxAttempts {
          rep := rep.(retriesExhausted := true);
          stop := BudgetSpent;
          return;
        }
        var ok := backend.Sleep();
        if !ok {
          stop := SleepFailed;
          return;
        }
        n := n + 1;
      }
    }

    /** One attempt of the loop. */
    method Attempt(granted: nat) returns (rec: AttemptRecord, panicked: bool)
      requires var r := ReadAll(backend.log, Most()); r.orderly && r.current == Some(granted) && r.finals == 0
      modifies backend
      ensures old(backend.log) <= backend.log && Said(rec, backend.log)
      ensures Settled(ReadAll(backend.log, Most()))
      ensures ReadAll(backend.log, Most()).grants == ReadAll(old(backend.log), Most()).grants
      ensures ReadAll(backend.log, Most()).claims == ReadAll(old(backend.log), Most()).claims
    {
      var a := new AttemptRun(backend, config, granted);
      ghost var before := backend.log;
      ghost var e;
      panicked, e := a.Run();
      ReadFinals(before, backend.log, granted, Most());
      rec := a.rec;
    }
  }

  lemma StillWritten(attempts: seq<AttemptRecord>, rec: AttemptRecord, before: seq<Call>, after: seq<Call>)
    requires AllWritten(attempts, before) && before <= after && Said(rec, after)
    ensures AllWritten(attempts + [rec], after)
  {
    forall r | r in attempts + [rec] && r.recorded
      ensures Written(r, after)
    {
      if r in attempts { assert Written(r, before); } else { SaidIsWritten(r, after); }
    }
  }
}
