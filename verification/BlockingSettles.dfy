/** A closed blocking service comes to rest: every step that is due brings it closer.

    Task and closer steps shrink a first measure.  They may wake waiters and retriers, whose own steps shrink a
    second measure that is bounded as long as nobody new arrives; the two together bound every run. */
module BlockingSettles {
  import opened Selections
  import opened TaskCounts
  import opened BlockingTask
  import opened BlockingModel
  import opened BlockingInvariant
  import opened BlockingRuns
  import opened BlockingTermination
  import opened BlockingStop
  import opened BlockingDrain
  import TaskSteps = BlockingTaskSteps
  import BlockingTaskFacts

  /** Steps that the environment may choose never to take: a user cancellation, the drop of a handle, and the
      runtime dropping a closure that it could run. */
  predicate IsOptional(x: TaskStep) {
    x == ByCancel(CancelWin) || x == ByCancel(DropHandle) || x == ByJob(DropJob)
  }

  /** A submitting thread, a waiter or a closer that has arrived goes on. */
  predicate IsThreadStep(a: Action) {
    || a.Lock? || a.CheckRunning? || a.LeaveFull? || a.Reject? || a.Retry?
    || a.Enable? || a.LoadLifecycle? || a.ReadCounts? || a.LeaveRead? || a.Resume?
    || a.Enter? || a.Decide?
  }

  /** Steps that somebody takes sooner or later.  New submissions, closers and waiters and spurious wake-ups are
      not among them. */
  predicate IsDue(a: Action) {
    (a.OnTask? && !IsOptional(a.step)) || (IsCloserStep(a) && !a.Close?) || IsThreadStep(a)
  }

  /** Nobody new arrives in this step. */
  predicate IsSettling(a: Action) {
    a.OnTask? || IsDue(a)
  }

  // ----- the first measure

  function CloserRank(cl: Closer): nat {
    match cl.pc
    case Holding => 11
    case Stored => 10
    case Snapping => 9
    case Snapped => 8
    case Unlocked => 7
    case Looping => 6
    case Bumping => 5
    case Checking => 4
    case Examining(_) => 3
    case NotifyingSync => 2
    case NotifyingAsync => 1
    case Reported => 0
  }

  ghost function Effort(s: State): nat {
    Measure(s) + Sum(s.closers.Keys, s.closers, CloserRank)
  }

  lemma CloserDecreases(s: State, a: Action)
    requires Enabled(s, a) && IsCloserStep(a) && !a.Close?
    ensures CloserOf(a) in s.closers && CloserOf(a) in Apply(s, a).closers
    ensures CloserRank(Apply(s, a).closers[CloserOf(a)]) < CloserRank(s.closers[CloserOf(a)])
  {
    OnlyOneCloserMoves(s, a);
    hide Apply;
    PcIsEnabled(s, a);
  }

  lemma PcIsEnabled(s: State, a: Action)
    requires Enabled(s, a) && IsCloserStep(a) && !a.Close? && CloserOf(a) in s.closers
    ensures var pc := s.closers[CloserOf(a)].pc;
            && (a.StoreLifecycle? ==> pc.Holding?) && (a.Snapshot? ==> pc.Stored?) && (a.LeaveSnapshot? ==> pc.Snapping?)
            && (a.ReleaseAdmission? ==> pc.Snapped? || (pc.Stored? && !s.closers[CloserOf(a)].stop))
            && (a.TakeHandles? ==> pc.Unlocked?) && (a.EndLoop? ==> pc.Looping?) && (a.BumpCapacity? ==> pc.Bumping?)
            && (a.CheckLifecycle? ==> pc.Checking?) && (a.CheckTerminated? ==> pc.Examining?)
            && (a.NotifySync? ==> pc.NotifyingSync?) && (a.NotifyAsync? ==> pc.NotifyingAsync?)
  {
    hide HasHook;
  }

  lemma CloserStepWorks(s: State, a: Action)
    requires Inv(s) && Enabled(s, a) && IsCloserStep(a) && !a.Close? && !s.life.Running?
    ensures Effort(Apply(s, a)) < Effort(s)
  {
    hide Inv, Apply, Enabled, Sum, Measure, CloserRank, PcAfter;
    StepDrains(s, a);
    CloserDecreases(s, a);
    OnlyOneCloserMoves(s, a);
    var c := CloserOf(a);
    SumUpdateDecreases(s.closers, c, Apply(s, a).closers[c], CloserRank);
  }

  lemma CountingKeepsRanks(s: State, t: nat, x: TaskStep)
    requires CanStepTask(s, t, x)
    ensures var closers := StepTask(s, t, x).closers;
            closers.Keys == s.closers.Keys && forall c :: c in s.closers ==> CloserRank(closers[c]) == CloserRank(s.closers[c])
  {
    hide Step, CanStep, StepTask;
    TaskSteps.StepFrame(s, t, x);
  }

  lemma TaskStepWorks(s: State, a: Action)
    requires Inv(s) && Enabled(s, a) && a.OnTask? && !s.life.Running?
    ensures Effort(Apply(s, a)) < Effort(s)
  {
    hide Inv, StepTask, CanStepTask, Sum, Measure, CloserRank;
    StepDrains(s, a);
    CountingKeepsRanks(s, a.task, a.step);
    SumPointwise(s.closers, Apply(s, a).closers, CloserRank);
  }

  // ----- the second measure

  /** A woken waiter looks once more. */
  function AsyncRank(w: AsyncWaiter): nat {
    match w
    case Enabling => 5
    case Loading(woken) => if woken then 11 else 4
    case Reading(_, woken) => if woken then 10 else 3
    case Answering(_, woken) => if woken then 9 else 2
    case Parked(woken) => if woken then 8 else 0
    case Resolved => 0
  }

  function SyncRank(w: SyncWaiter): nat {
    match w
    case Entering => 2
    case Deciding(_) => 1
    case _ => 0
  }

  function SubmitterRank(b: Submitter): nat {
    match b
    case Checked(_) => 7
    case Rejecting(_) => 6
    case Full(_) => 5
    case Waiting(_) => 4
    case Ready(_) => 3
    case Locked(_) => 2
    case Refused => 1
    case _ => 0
  }

  ghost function Unrest(s: State): nat {
    Sum(s.asyncs.Keys, s.asyncs, AsyncRank) + Sum(s.syncs.Keys, s.syncs, SyncRank)
    + Sum(s.submitters.Keys, s.submitters, SubmitterRank)
  }

  /** The most unrest that the threads that have arrived can make. */
  function MostUnrest(s: State): nat {
    11 * |s.asyncs.Keys| + 2 * |s.syncs.Keys| + 7 * |s.submitters.Keys|
  }

  lemma UnrestIsBounded(s: State)
    ensures Unrest(s) <= MostUnrest(s)
  {
    SumBound(s.asyncs.Keys, s.asyncs, AsyncRank, 11);
    SumBound(s.syncs.Keys, s.syncs, SyncRank, 2);
    SumBound(s.submitters.Keys, s.submitters, SubmitterRank, 7);
  }

  predicate SameThreads(s: State, s': State) {
    s'.asyncs.Keys == s.asyncs.Keys && s'.syncs.Keys == s.syncs.Keys && s'.submitters.Keys == s.submitters.Keys
  }

  lemma TaskStepBringsNobody(s: State, t: nat, x: TaskStep)
    requires TasksOk(s) && AdmissionOk(s) && CanStepTask(s, t, x)
    ensures SameThreads(s, StepTask(s, t, x))
  {
    hide TaskInv, Step, StepTask, CanStepTask, AllTasks, WokenAsyncs, WokenSyncs;
    TaskSteps.StepFrame(s, t, x);
    TaskSteps.CanStepOfTask(s, t, x);
    TaskSteps.WokenAsyncFacts(s.asyncs);
    TaskSteps.WokenSyncFacts(s.syncs);
    BlockingTaskFacts.StepMoves(s.tasks[t], x);
  }

  lemma CloserStepBringsNobody(s: State, a: Action)
    requires Enabled(s, a) && IsCloserStep(a)
    ensures SameThreads(s, Apply(s, a))
  {
    hide HasHook, WokenAsyncs, WokenSyncs, QueuedTasks, Counts.IsEmpty;
    TaskSteps.WokenAsyncFacts(s.asyncs);
    TaskSteps.WokenSyncFacts(s.syncs);
    if a.TakeHandles? {
      assert SameThreads(s, TakeEntries(s, a.closer));
    }
  }

  lemma SubmitterStepCalms(s: State, a: Action)
    requires LifeOk(s) && Enabled(s, a) && !s.life.Running?
    requires a.Lock? || a.CheckRunning? || a.LeaveFull? || a.Reject? || a.Retry?
    ensures SameThreads(s, Apply(s, a)) && Unrest(Apply(s, a)) < Unrest(s) && Effort(Apply(s, a)) == Effort(s)
  {
    hide Sum, Remaining, InAdmission;
    SumUpdateDecreases(s.submitters, a.thread, Apply(s, a).submitters[a.thread], SubmitterRank);
  }

  lemma AsyncStepCalms(s: State, a: Action)
    requires Enabled(s, a) && (a.Enable? || a.LoadLifecycle? || a.ReadCounts? || a.LeaveRead? || a.Resume?)
    ensures SameThreads(s, Apply(s, a)) && Unrest(Apply(s, a)) < Unrest(s) && Effort(Apply(s, a)) == Effort(s)
  {
    hide Sum, Remaining, Counts.IsEmpty;
    SumUpdateDecreases(s.asyncs, a.waiter, Apply(s, a).asyncs[a.waiter], AsyncRank);
  }

  lemma SyncStepCalms(s: State, a: Action)
    requires Enabled(s, a) && (a.Enter? || a.Decide?)
    ensures SameThreads(s, Apply(s, a)) && Unrest(Apply(s, a)) < Unrest(s) && Effort(Apply(s, a)) == Effort(s)
  {
    hide Sum, Remaining, Counts.IsEmpty;
    SumUpdateDecreases(s.syncs, a.waiter, Apply(s, a).syncs[a.waiter], SyncRank);
  }

  lemma ThreadStepCalms(s: State, a: Action)
    requires LifeOk(s) && Enabled(s, a) && IsThreadStep(a) && !s.life.Running?
    ensures SameThreads(s, Apply(s, a)) && Unrest(Apply(s, a)) < Unrest(s) && Effort(Apply(s, a)) == Effort(s)
  {
    hide Apply, Enabled, Staged, Unrest, Effort, SameThreads;
    if a.Enter? || a.Decide? {
      SyncStepCalms(s, a);
    } else if a.Enable? || a.LoadLifecycle? || a.ReadCounts? || a.LeaveRead? || a.Resume? {
      AsyncStepCalms(s, a);
    } else {
      SubmitterStepCalms(s, a);
    }
  }

  // ----- both together

  ghost function Potential(s: State): nat {
    Weigh(Effort(s), MostUnrest(s), Unrest(s))
  }

  /** Every step of a closed service in which nobody new arrives shrinks its potential. */
  lemma SettlingShrinks(s: State, a: Action)
    requires Inv(s) && Enabled(s, a) && IsSettling(a) && !s.life.Running?
    ensures Potential(Apply(s, a)) < Potential(s)
  {
    hide Inv, Apply, Enabled, Effort, Unrest, MostUnrest, Staged, Weigh, IsDue;
    InvParts(s);
    var s' := Apply(s, a);
    UnrestIsBounded(s');
    if IsThreadStep(a) {
      ThreadStepCalms(s, a);
      SameThreadsSameBound(s, s');
      SecondGoesDown(Effort(s), MostUnrest(s), Unrest(s), Unrest(s'));
    } else {
      WorkShrinks(s, a);
      SameThreadsSameBound(s, s');
      FirstGoesDown(Effort(s), Effort(s'), MostUnrest(s), Unrest(s), Unrest(s'));
    }
  }

  lemma SameThreadsSameBound(s: State, s': State)
    requires SameThreads(s, s')
    ensures MostUnrest(s') == MostUnrest(s)
  {
  }

  lemma WorkShrinks(s: State, a: Action)
    requires Inv(s) && Enabled(s, a) && IsSettling(a) && !IsThreadStep(a) && !s.life.Running?
    ensures Effort(Apply(s, a)) < Effort(s) && SameThreads(s, Apply(s, a))
  {
    hide Inv, Effort, StepTask, CanStepTask;
    if a.OnTask? {
      InvParts(s);
      TaskStepWorks(s, a);
      TaskStepBringsNobody(s, a.task, a.step);
    } else {
      CloserStepWorks(s, a);
      CloserStepBringsNobody(s, a);
    }
  }

  /** A run of a closed service in which nobody new arrives has at most as many steps as the potential says, whatever
      the order in which tasks, closers, waiters and retriers move. */
  lemma {:induction false} SettlingIsBounded(states: seq<State>, actions: seq<Action>, i: nat, j: nat)
    requires IsExecution(states, actions) && i <= j < |states| && !states[i].life.Running?
    requires forall n :: i <= n < j ==> IsSettling(actions[n])
    ensures j - i + Potential(states[j]) <= Potential(states[i])
    decreases j
  {
    hide Inv, Apply, Enabled, Potential, IsSettling;
    if i < j {
      SettlingIsBounded(states, actions, i, j - 1);
      ExecutionsKeepInv(states, actions, j - 1);
      NothingAcceptedAfterClose(states, actions, i, j - 1);
      SettlingShrinks(states[j - 1], actions[j - 1]);
    }
  }
}
