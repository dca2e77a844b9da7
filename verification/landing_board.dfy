/** Every step of the board keeps the world consistent. */
module LandingBoard {
  import opened Wrappers
  import opened Landing
  import opened LandingInvariant

  // ---------------------------------------------------------------------------------------------
  // A task that ends up with no reservation
  // ---------------------------------------------------------------------------------------------

  predicate TaskFreed(w: World, t: TaskId, task: Task) {
    t in w.tasks && task.slug == w.tasks[t].slug && task.landing.None? && LandedOk(w, task) &&
    (w.tasks[t].state.Done? ==> task.state.Done?)
  }

  lemma TaskFreedKeepsConsistent(w: World, t: TaskId, task: Task)
    requires Consistent(w) && TaskFreed(w, t, task)
    ensures Consistent(w.(tasks := w.tasks[t := task]))
  {
    var w' := w.(tasks := w.tasks[t := task]);
    forall p | p in w'.runs ensures RunOk(w', p, w'.runs[p]) {
      RunAt(w, p);
    }
    forall x | x in w'.tasks ensures TaskOk(w', x, w'.tasks[x]) {
      if x != t { TaskAt(w, x); }
    }
    forall entry | entry in w'.log ensures Placed(w', entry) {
      PlacedAt(w, entry);
    }
  }

  lemma TransitionFrees(w: World, t: TaskId, to: TaskState)
    requires t in w.tasks && TaskOk(w, t, w.tasks[t]) && Transition(w.tasks[t], to).Ok?
    ensures TaskFreed(w, t, Transition(w.tasks[t], to).value)
    ensures w.tasks[t].landing.None? && !w.tasks[t].state.Done?
  {
  }

  lemma SubmitFrees(w: World, t: TaskId, links: seq<Link>)
    requires t in w.tasks && TaskOk(w, t, w.tasks[t]) && Submit(w.tasks[t], links).Ok?
    ensures TaskFreed(w, t, Submit(w.tasks[t], links).value)
    ensures w.tasks[t].landing.None? && !w.tasks[t].state.Done?
  {
  }

  lemma ConvergeFrees(w: World, t: TaskId)
    requires t in w.tasks && TaskOk(w, t, w.tasks[t]) && ConvergeMerged(w.tasks[t]).Ok?
    ensures TaskFreed(w, t, ConvergeMerged(w.tasks[t]).value) && ConvergeMerged(w.tasks[t]).value.state.Done?
  {
  }

  lemma TransitionKeepsConsistent(w: World, t: TaskId, to: TaskState)
    requires Consistent(w) && t in w.tasks
    ensures Consistent(UpdateTask(w, t, Transition(w.tasks[t], to)))
  {
    TaskAt(w, t);
    if Transition(w.tasks[t], to).Ok? {
      TransitionFrees(w, t, to);
      TaskFreedKeepsConsistent(w, t, Transition(w.tasks[t], to).value);
    }
  }

  lemma SubmitKeepsConsistent(w: World, t: TaskId, links: seq<Link>)
    requires Consistent(w) && t in w.tasks
    ensures Consistent(UpdateTask(w, t, Submit(w.tasks[t], links)))
  {
    TaskAt(w, t);
    if Submit(w.tasks[t], links).Ok? {
      SubmitFrees(w, t, links);
      TaskFreedKeepsConsistent(w, t, Submit(w.tasks[t], links).value);
    }
  }

  lemma ConvergeKeepsConsistent(w: World, t: TaskId)
    requires Consistent(w) && t in w.tasks
    ensures Consistent(UpdateTask(w, t, ConvergeMerged(w.tasks[t])))
  {
    TaskAt(w, t);
    if ConvergeMerged(w.tasks[t]).Ok? {
      ConvergeFrees(w, t);
      TaskFreedKeepsConsistent(w, t, ConvergeMerged(w.tasks[t]).value);
    }
  }

  // ---------------------------------------------------------------------------------------------
  // Delivered calls
  // ---------------------------------------------------------------------------------------------

  function Delivered(r: Run, call: Call, ok: bool, heard: bool): Run {
    r.(flight := None,
       begun := r.begun || (call.BeginCall? && ok),
       phase := if heard then AfterAnswer(r, call, ok) else r.phase)
  }

  lemma DeliveredQuiet(w: World, p: Token, r: Run, call: Call, ok: bool, heard: bool)
    requires RunOk(w, p, r) && r.flight == Some(call) && !(call.BeginCall? && ok)
    ensures var s := Delivered(r, call, ok, heard); RunOk(w, p, s) && Quiet(w, p, r, s)
  {
  }

  lemma DeliveredKeepsConsistent(w: World, p: Token, call: Call, ok: bool, heard: bool)
    requires Consistent(w) && p in w.runs && w.runs[p].flight == Some(call) && !(call.BeginCall? && ok)
    ensures var s := Delivered(w.runs[p], call, ok, heard); Quiet(w, p, w.runs[p], s) && Consistent(SetRun(w, p, s))
  {
    RunAt(w, p);
    DeliveredQuiet(w, p, w.runs[p], call, ok, heard);
    LocalKeepsConsistent(w, p, Delivered(w.runs[p], call, ok, heard));
  }

  /** The landing is complete: the reserved commit is the one the run published or found there. */
  lemma CompleteFrees(w: World, p: Token, r: Run)
    requires RunOk(w, p, r) && r.flight == Some(CompleteCall) && p in w.runs && w.runs[p] == r
    requires TaskOk(w, r.task, w.tasks[r.task]) && CompleteLanding(w.tasks[r.task], p).Ok?
    ensures TaskFreed(w, r.task, CompleteLanding(w.tasks[r.task], p).value)
    ensures CompleteLanding(w.tasks[r.task], p).value.state.Done?
  {
  }

  function CompletedWorld(w: World, p: Token, heard: bool): World
    requires p in w.runs && w.runs[p].task in w.tasks && CompleteLanding(w.tasks[w.runs[p].task], p).Ok?
  {
    var r := w.runs[p];
    SetRun(w.(tasks := w.tasks[r.task := CompleteLanding(w.tasks[r.task], p).value]), p, Delivered(r, CompleteCall, true, heard))
  }

  lemma CompleteKeepsConsistent(w: World, p: Token, heard: bool)
    requires Consistent(w) && p in w.runs && w.runs[p].flight == Some(CompleteCall)
    requires w.runs[p].task in w.tasks && CompleteLanding(w.tasks[w.runs[p].task], p).Ok?
    ensures Consistent(CompletedWorld(w, p, heard))
  {
    var r := w.runs[p];
    RunAt(w, p);
    TaskAt(w, r.task);
    CompleteFrees(w, p, r);
    DeliveredKeepsConsistent(w, p, CompleteCall, true, heard);
    TaskFreedKeepsConsistent(SetRun(w, p, Delivered(r, CompleteCall, true, heard)), r.task, CompleteLanding(w.tasks[r.task], p).value);
  }

  function CancelledWorld(w: World, p: Token, heard: bool): World
    requires p in w.runs && w.runs[p].task in w.tasks
    requires CancelLanding(w.tasks[w.runs[p].task], NamedAttempt(w.runs[p], p)).Ok?
  {
    var r := w.runs[p];
    SetRun(w.(tasks := w.tasks[r.task := CancelLanding(w.tasks[r.task], NamedAttempt(r, p)).value]), p, Delivered(r, CancelCall, true, heard))
  }

  lemma CancelKeepsConsistent(w: World, p: Token, heard: bool)
    requires Consistent(w) && p in w.runs && w.runs[p].flight == Some(CancelCall)
    requires w.runs[p].task in w.tasks && CancelLanding(w.tasks[w.runs[p].task], NamedAttempt(w.runs[p], p)).Ok?
    ensures Consistent(CancelledWorld(w, p, heard))
  {
    var r := w.runs[p];
    var w1 := SetRun(w, p, Delivered(r, CancelCall, true, heard));
    DeliveredKeepsConsistent(w, p, CancelCall, true, heard);
    TaskAt(w, r.task);
    TaskAt(w1, r.task);
    if w.tasks[r.task].landing.Some? {
      TaskFreedKeepsConsistent(w1, r.task, CancelLanding(w.tasks[r.task], NamedAttempt(r, p)).value);
    } else {
      assert w.tasks[r.task := w.tasks[r.task]] == w.tasks;
    }
  }

  // BeginLanding

  predicate BeginAccepted(w: World, p: Token, r: Run) {
    r.flight == Some(BeginCall) && r.plan.Some? && r.task in w.tasks &&
    BeginLanding(w.tasks[r.task], |r.seen.rounds|, r.plan.value.source, p).Ok?
  }

  function BegunTask(w: World, p: Token, r: Run): Task
    requires BeginAccepted(w, p, r)
  {
    BeginLanding(w.tasks[r.task], |r.seen.rounds|, r.plan.value.source, p).value
  }

  function BegunWorld(w: World, p: Token, r: Run, heard: bool): World
    requires BeginAccepted(w, p, r)
  {
    SetRun(w.(tasks := w.tasks[r.task := BegunTask(w, p, r)]), p, Delivered(r, BeginCall, true, heard))
  }

  /** What an accepted BeginLanding does to its task. */
  lemma BegunTaskIs(w: World, p: Token, r: Run)
    requires BeginAccepted(w, p, r)
    ensures var task := BegunTask(w, p, r);
      task == w.tasks[r.task].(landing := Some(Reservation(|r.seen.rounds|, r.plan.value.source, p))) &&
      task.state.Approved? && 1 <= |r.seen.rounds| == |task.rounds|
    ensures w.tasks[r.task].landing.Some? ==> w.tasks[r.task].landing.value.commit == r.plan.value.source
    ensures w.tasks[r.task].landing.None? ==> r.plan.value.source in CommitLinks(CurrentLinks(w.tasks[r.task]))
  {
  }

  lemma BegunOtherRun(w: World, p: Token, r: Run, heard: bool, q: Token, s: Run)
    requires BeginAccepted(w, p, r) && p in w.runs && w.runs[p] == r && RunOk(w, p, r) && RunOk(w, q, s)
    ensures RunOk(BegunWorld(w, p, r, heard), q, s)
  {
    BegunTaskIs(w, p, r);
    if s.seen.landing.Some? {
      BegunStays(w, p, Delivered(r, BeginCall, true, heard), s.seen.landing.value.attempt, s.task, s.seen.landing.value.commit);
    }
  }

  lemma BegunShape(w: World, p: Token, r: Run, heard: bool)
    requires BeginAccepted(w, p, r) && RunOk(w, p, r) && p in w.runs && w.runs[p] == r
    ensures var s := Delivered(r, BeginCall, true, heard);
      ShapeOk(s) && Continues(r, s) && !Canceller(s) && s.plan == r.plan && PlanOk(w, s) && PublishedOk(w, s)
  {
  }

  lemma BegunOwnRun(w: World, p: Token, r: Run, heard: bool)
    requires BeginAccepted(w, p, r) && RunOk(w, p, r) && p in w.runs && w.runs[p] == r
    ensures RunOk(BegunWorld(w, p, r, heard), p, Delivered(r, BeginCall, true, heard))
  {
    BegunShape(w, p, r, heard);
    BegunTaskIs(w, p, r);
    BegunOtherRun(w, p, r, heard, p, r);
  }

  lemma BegunTaskOk(w: World, p: Token, r: Run, heard: bool, t: TaskId)
    requires BeginAccepted(w, p, r) && p in w.runs && w.runs[p] == r && t in w.tasks && TaskOk(w, t, w.tasks[t])
    requires RunOk(w, p, r)
    ensures var w' := BegunWorld(w, p, r, heard); TaskOk(w', t, w'.tasks[t])
  {
    BegunTaskIs(w, p, r);
    if t != r.task && w.tasks[t].landing.Some? {
      BegunStays(w, p, Delivered(r, BeginCall, true, heard), w.tasks[t].landing.value.attempt, t, w.tasks[t].landing.value.commit);
    }
  }

  lemma BeginKeepsStores(w: World, p: Token, r: Run, heard: bool)
    requires Consistent(w) && p in w.runs && w.runs[p] == r && BeginAccepted(w, p, r)
    ensures TasksOk(BegunWorld(w, p, r, heard)) && LogOk(BegunWorld(w, p, r, heard)) && LocksOk(BegunWorld(w, p, r, heard))
  {
    var w' := BegunWorld(w, p, r, heard);
    RunAt(w, p);
    BegunShape(w, p, r, heard);
    BegunTaskIs(w, p, r);
    forall t | t in w'.tasks ensures TaskOk(w', t, w'.tasks[t]) {
      TaskAt(w, t);
      BegunTaskOk(w, p, r, heard, t);
    }
    forall entry | entry in w'.log ensures Placed(w', entry) {
      PlacedAt(w, entry);
    }
  }

  lemma BeginKeepsConsistent(w: World, p: Token, heard: bool)
    requires Consistent(w) && p in w.runs && BeginAccepted(w, p, w.runs[p])
    ensures Consistent(BegunWorld(w, p, w.runs[p], heard))
  {
    var r := w.runs[p];
    var w' := BegunWorld(w, p, r, heard);
    RunAt(w, p);
    BeginKeepsStores(w, p, r, heard);
    BegunOwnRun(w, p, r, heard);
    forall q | q in w'.runs ensures RunOk(w', q, w'.runs[q]) {
      if q != p {
        RunAt(w, q);
        BegunOtherRun(w, p, r, heard, q, w.runs[q]);
      }
    }
  }

  lemma DeliverKeepsConsistent(w: World, p: Token, call: Call, fate: Fate)
    requires Consistent(w)
    ensures Consistent(DeliverCall(w, p, call, fate))
  {
    if p in w.runs && w.runs[p].flight == Some(call) && w.runs[p].task in w.tasks {
      var answer := if fate.Failed? then Err(InvalidLanding) else BoardAnswer(w, p, call);
      if answer.Err? {
        DeliveredKeepsConsistent(w, p, call, false, !fate.Unheard?);
      } else {
        match call
        case BeginCall => BeginKeepsConsistent(w, p, !fate.Unheard?);
        case CompleteCall => CompleteKeepsConsistent(w, p, !fate.Unheard?);
        case CancelCall => CancelKeepsConsistent(w, p, !fate.Unheard?);
      }
    }
  }
}
