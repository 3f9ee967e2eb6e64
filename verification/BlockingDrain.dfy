/** A closed blocking service drains: its tasks take boundedly many further steps and are never stuck. */
module BlockingDrain {
  import opened Selections
  import opened BlockingTask
  import opened BlockingTaskFacts
  import opened BlockingModel
  import opened BlockingInvariant
  import opened BlockingRuns
  import opened BlockingTermination
  import opened BlockingAccounting
  import opened BlockingStop
  import TaskSteps = BlockingTaskSteps
  import CloserSteps = BlockingCloserSteps

  // ----- what a task still has ahead of it

  function StageRank(x: Stage): nat {
    match x
    case Accepted => 7
    case Reserved => 6
    case Marked => 5
    case Spawned => 4
    case Registered => 3
    case Handoff => 2
    case Dropping => 1
    case Sent => 1
    case Returned => 0
  }

  function JobRank(x: Job): nat {
    match x
    case Unspawned => 10
    case Pending => 9
    case Receiving => 8
    case Starting => 7
    case Counting => 6
    case Leaving => 5
    case Taking => 4
    case Launching => 3
    case UserBody => 2
    case Unwinding => 1
    case Gone => 0
  }

  function GuardRank(x: Guard): nat {
    match x
    case WithSubmitter => 7
    case InChannel => 6
    case WithWorker => 5
    case ToMark => 4
    case ToRemove => 3
    case ToSwap => 2
    case Releasing => 1
    case Dropped => 0
  }

  function ReleaseRank(x: Release): nat {
    match x
    case NotReleased => 6
    case ToWrite(_) => 5
    case Written => 4
    case ToBump(_) => 3
    case ToNotifySync => 2
    case ToNotifyAsync => 1
    case Released => 0
  }

  function CancelRank(x: Cancel): nat {
    match x
    case NotCancelled => 6
    case CancelMark => 5
    case CancelRemove => 4
    case CancelCas => 3
    case CancelReleasing => 2
    case CancelAbort => 1
    case CancelDone => 0
  }

  function EntryRank(x: Entry): nat {
    match x
    case Unregistered => 7
    case InMap => 6
    case Taken(_) => 5
    case HookAbort(_) => 4
    case HookCas(_) => 3
    case HookReleasing(_) => 2
    case HookSlot(_) => 1
    case NoEntry => 0
  }

  /** A task whose handles are gone can no longer be cancelled. */
  function Remaining(k: Task): nat {
    StageRank(k.stage) + JobRank(k.job) + GuardRank(k.guard) + ReleaseRank(k.release) + EntryRank(k.entry)
    + if k.handle then 1 + CancelRank(k.cancel) else 0
  }

  lemma SubmitDecreases(k: Task, a: SubmitterAct)
    requires TaskInv(k) && CanSubmit(k, a)
    ensures Remaining(Submit(k, a)) < Remaining(k)
  {
  }

  lemma HandoffDecreases(k: Task, a: JobAct)
    requires CanWork(k, a) && (a.StartJob? || a.Receive? || a.MarkCount? || a.LeaveCount? || a.EndJob?)
    ensures Remaining(Work(k, a)) < Remaining(k)
  {
    hide StageRank, ReleaseRank, CancelRank, EntryRank;
  }

  lemma StartingDecreases(k: Task)
    requires k.job.Starting? && k.guard.WithWorker?
    ensures Remaining(Work(k, MarkCas)) < Remaining(k)
  {
    hide StageRank, ReleaseRank, CancelRank, EntryRank;
    if MayRun(k.cas) {}
  }

  lemma TakeSlotDecreases(k: Task)
    requires k.job.Taking? && k.guard.WithWorker?
    ensures Remaining(Work(k, TakeSlot)) < Remaining(k)
  {
    hide StageRank, ReleaseRank, CancelRank, EntryRank;
    if k.kind.Runnable? {}
  }

  lemma LaunchDecreases(k: Task)
    requires k.job.Launching? && k.guard.WithWorker?
    ensures Remaining(Work(k, Launch)) < Remaining(k)
  {
    hide StageRank, ReleaseRank, CancelRank, EntryRank;
    if k.endpoint.EndpointPending? {}
  }

  lemma EndBodyDecreases(k: Task)
    requires k.job.UserBody? && k.guard.WithWorker?
    ensures Remaining(Work(k, EndBody)) < Remaining(k)
  {
    hide StageRank, ReleaseRank, CancelRank, EntryRank;
  }

  lemma DropJobDecreases(k: Task)
    requires CanWork(k, DropJob)
    ensures Remaining(Work(k, DropJob)) < Remaining(k)
  {
    hide StageRank, ReleaseRank, CancelRank, EntryRank;
    if k.guard.InChannel? {}
  }

  lemma WorkDecreases(k: Task, a: JobAct)
    requires StagesAgree(k) && CanWork(k, a)
    ensures Remaining(Work(k, a)) < Remaining(k)
  {
    hide Remaining, Work;
    if a.StartJob? || a.Receive? || a.MarkCount? || a.LeaveCount? || a.EndJob? {
      HandoffDecreases(k, a);
    } else if a.MarkCas? {
      StartingDecreases(k);
    } else if a.TakeSlot? {
      TakeSlotDecreases(k);
    } else if a.Launch? {
      LaunchDecreases(k);
    } else if a.EndBody? {
      EndBodyDecreases(k);
    } else {
      DropJobDecreases(k);
    }
  }

  lemma DropDecreases(k: Task, a: GuardAct)
    requires CasAgrees(k) && CanDrop(k, a)
    ensures Remaining(DropGuard(k, a)) < Remaining(k)
  {
  }

  lemma ReleaseDecreases(k: Task, a: ReleaseAct)
    requires CanRelease(k, a)
    ensures Remaining(ReleaseStep(k, a)) < Remaining(k)
  {
  }

  lemma CancelDecreases(k: Task, a: CancelAct)
    requires CasAgrees(k) && SlotAgrees(k) && CanCancel(k, a)
    ensures Remaining(CancelTask(k, a)) < Remaining(k)
  {
  }

  lemma HookDecreases(k: Task, a: HookAct)
    requires CasAgrees(k) && CanHook(k, a)
    ensures Remaining(RunHook(k, a)) < Remaining(k)
  {
    match a
    case HookCompare => if k.cas.CasQueued? {}
    case HookCancelSlot => if k.kind.Runnable? {}
    case _ =>
  }

  /** Every step of every party brings its task closer to rest. */
  lemma StepDecreases(k: Task, a: TaskStep)
    requires TaskInv(k) && CanStep(k, a)
    ensures Remaining(Step(k, a)) < Remaining(k)
  {
    TaskParts(k);
    hide TaskInv, Remaining, Submit, Work, DropGuard, ReleaseStep, CancelTask, RunHook;
    match a
    case BySubmitter(x) => SubmitDecreases(k, x);
    case ByJob(x) => WorkDecreases(k, x);
    case OnGuard(x) => DropDecreases(k, x);
    case OnRelease(x) => ReleaseDecreases(k, x);
    case ByCancel(x) => CancelDecreases(k, x);
    case ByStop(x) => HookDecreases(k, x);
  }

  lemma TaskParts(k: Task)
    requires TaskInv(k)
    ensures StagesAgree(k) && EntryAgrees(k) && CasAgrees(k) && ReleaseAgrees(k) && SlotAgrees(k) && CutOffAgrees(k)
  {
  }

  // ----- the whole service

  ghost function Measure(s: State): nat {
    Sum(s.tasks.Keys, s.tasks, Remaining)
  }

  lemma TaskStepDrains(s: State, t: nat, x: TaskStep)
    requires Inv(s) && Enabled(s, OnTask(t, x))
    ensures Measure(Apply(s, OnTask(t, x))) < Measure(s)
  {
    hide Inv, TaskInv, Step, StepTask, Remaining, Sum;
    TaskOfRun(s, t);
    TaskSteps.StepFrame(s, t, x);
    StepDecreases(s.tasks[t], x);
    SumUpdateDecreases(s.tasks, t, Step(s.tasks[t], x), Remaining);
  }

  lemma TakenDecreases(k: Task, c: nat)
    requires k.entry.InMap?
    ensures Remaining(k.(entry := Taken(c))) <= Remaining(k)
  {
  }

  lemma TakeDrains(s: State, c: nat)
    requires MapOk(s)
    ensures Sum(TakeEntries(s, c).tasks.Keys, TakeEntries(s, c).tasks, Remaining) <= Measure(s)
  {
    hide TakeEntries, Remaining, Sum, ExactMap;
    CloserSteps.TakenTasks(s, c);
    var tasks := TakeEntries(s, c).tasks;
    forall t | t in s.tasks
      ensures Remaining(tasks[t]) <= Remaining(s.tasks[t])
    {
      if s.tasks[t].entry.InMap? {
        TakenDecreases(s.tasks[t], c);
      }
    }
    SumMonotone(s.tasks.Keys, s.tasks, tasks, Remaining);
  }

  /** In a closed service the measure never grows, and every task step shrinks it. */
  lemma StepDrains(s: State, a: Action)
    requires Inv(s) && Enabled(s, a) && !s.life.Running?
    ensures Measure(Apply(s, a)) <= Measure(s)
    ensures a.OnTask? ==> Measure(Apply(s, a)) < Measure(s)
  {
    hide Inv, Apply, Enabled, TakeEntries, Sum, Remaining;
    InvParts(s);
    if a.OnTask? {
      TaskStepDrains(s, a.task, a.step);
    } else if a.TryAccept? {
      AcceptanceNeedsRunning(s, a);
    } else {
      TasksFrame(s, a);
      if a.TakeHandles? {
        TakeDrains(s, a.closer);
      }
    }
  }

  function StepsTaken(actions: seq<Action>, i: nat, j: nat): nat
    requires i <= j <= |actions|
  {
    if i == j then 0 else StepsTaken(actions, i, j - 1) + if actions[j - 1].OnTask? then 1 else 0
  }

  /** From a closed state on, a run contains at most Measure many task steps. */
  lemma {:induction false} DrainIsBounded(states: seq<State>, actions: seq<Action>, i: nat, j: nat)
    requires IsExecution(states, actions) && i <= j < |states| && !states[i].life.Running?
    ensures StepsTaken(actions, i, j) + Measure(states[j]) <= Measure(states[i])
    decreases j
  {
    hide Inv, Apply, Enabled, Sum, Remaining;
    if i < j {
      DrainIsBounded(states, actions, i, j - 1);
      ExecutionsKeepInv(states, actions, j - 1);
      NothingAcceptedAfterClose(states, actions, i, j - 1);
      StepDrains(states[j - 1], actions[j - 1]);
    }
  }

  // ----- nobody is stuck

  /** The last steps of the sections of the monitor. */
  predicate LeavesSection(a: Action) {
    || (a.OnTask? && LeavesMonitor(a.step))
    || a.LeaveFull? || a.LeaveSnapshot? || a.CheckTerminated? || a.LeaveRead? || a.Decide?
  }

  /** How the holder of the monitor leaves it. */
  function LeaveOf(s: State): Action
    requires s.monitor.HeldBy?
  {
    match s.monitor.section
    case OfTask(u) =>
      OnTask(u, if u in s.tasks && s.tasks[u].stage.Accepted? then BySubmitter(LeaveAccept)
                else if u in s.tasks && s.tasks[u].job.Leaving? then ByJob(LeaveCount)
                else OnRelease(LeaveWrite(IsTerminated(s))))
    case OfSubmitter(th) => LeaveFull(th)
    case OfCloser(c) => if c in s.closers && s.closers[c].pc.Snapping? then LeaveSnapshot(c) else CheckTerminated(c)
    case OfAsync(w) => LeaveRead(w)
    case OfSync(w) => Decide(w)
  }

  /** Nothing keeps the holder of the monitor inside. */
  lemma HolderCanLeave(s: State)
    requires MonitorOk(s) && s.monitor.HeldBy?
    ensures Enabled(s, LeaveOf(s)) && LeavesSection(LeaveOf(s))
  {
    hide Mutex, IsTerminated, Releaser;
    HolderIsInside(s);
  }

  /** The next step of the protocol for an unfinished task that has left admission. */
  function NextStep(k: Task): TaskStep {
    if k.release.ToWrite? then OnRelease(WriteCounts)
    else match k.guard
      case WithSubmitter => BySubmitter(Send)
      case InChannel => ByJob(if k.job.Pending? then StartJob else Receive)
      case WithWorker =>
        ByJob(match k.job
              case Starting => MarkCas
              case Counting => MarkCount
              case Leaving => LeaveCount
              case Taking => TakeSlot
              case Launching => Launch
              case _ => EndBody)
      case ToMark => OnGuard(GuardMark)
      case ToRemove => OnGuard(GuardRemove)
      case _ => OnGuard(GuardSwap)
  }

  lemma UnfinishedTasksCanStep(k: Task)
    requires TaskInv(k) && !InAdmission(k) && !PhaseOf(k).Done?
    ensures CanStep(k, NextStep(k))
    ensures NextStep(k).BySubmitter? ==> NextStep(k) == BySubmitter(Send)
    ensures !IsLeave(NextStep(k)) && !NextStep(k).ByStop?
  {
    hide EntryAgrees, SlotAgrees, CutOffAgrees;
  }

  /** Every unfinished task of a closed service has an enabled step of its own, unless some thread is inside the
      monitor, and then that thread can leave it. */
  lemma UnfinishedTasksAreNotStuck(states: seq<State>, actions: seq<Action>, n: nat, t: nat)
    requires IsExecution(states, actions) && n < |states| && !states[n].life.Running?
    requires t in states[n].tasks && !PhaseOf(states[n].tasks[t]).Done?
    ensures (exists x :: Enabled(states[n], OnTask(t, x))) || (exists a :: LeavesSection(a) && Enabled(states[n], a))
  {
    hide Inv, Apply, Enabled, LeavesSection;
    ExecutionsKeepInv(states, actions, n);
    TaskIsNotStuck(states[n], t);
  }

  lemma NothingInAdmission(s: State, t: nat)
    requires LifeOk(s) && !s.life.Running? && t in s.tasks
    ensures !InAdmission(s.tasks[t])
  {
    hide InAdmission;
  }

  lemma StepIsEnabled(s: State, t: nat, x: TaskStep)
    requires s.monitor.Vacant? && t in s.tasks && CanStep(s.tasks[t], x)
    requires !IsAllocate(x) && !IsLeave(x) && x != ByStop(HookCheck)
    ensures Enabled(s, OnTask(t, x))
  {
    hide CanStep;
  }

  lemma TaskIsNotStuck(s: State, t: nat)
    requires Inv(s) && !s.life.Running? && t in s.tasks && !PhaseOf(s.tasks[t]).Done?
    ensures (exists x :: Enabled(s, OnTask(t, x))) || (exists a :: LeavesSection(a) && Enabled(s, a))
  {
    hide Inv, TaskInv, PhaseOf, NextStep, CanStep, InAdmission, Enabled, LeavesSection, LeaveOf, Staged, Mutex;
    InvParts(s);
    TaskOfRun(s, t);
    NothingInAdmission(s, t);
    if s.monitor.HeldBy? {
      HolderCanLeave(s);
    } else {
      UnfinishedTasksCanStep(s.tasks[t]);
      StepIsEnabled(s, t, NextStep(s.tasks[t]));
    }
  }

  /** When every task is done, a closed service is terminated, its abort map is empty and whoever is still
      parked is owed a notification. */
  lemma DrainedServiceIsTerminated(states: seq<State>, actions: seq<Action>, n: nat)
    requires IsExecution(states, actions) && n < |states| && !states[n].life.Running?
    requires forall t :: t in states[n].tasks ==> PhaseOf(states[n].tasks[t]).Done?
    ensures IsTerminated(states[n]) && states[n].handles == map[]
    ensures forall w :: w in states[n].asyncs && states[n].asyncs[w] == Parked(false) ==>
              OwesAsync(states[n].tasks, states[n].closers)
    ensures forall w :: w in states[n].syncs && states[n].syncs[w].Blocked? ==>
              OwesSync(states[n].tasks, states[n].closers)
  {
    hide Inv, Apply, Enabled, OwesSync, OwesAsync, PhaseOf;
    ExecutionsKeepInv(states, actions, n);
    CountsAreExact(states, actions, n);
    assert QueuedTasks(states[n].tasks) == {};
    assert ActiveTasks(states[n].tasks) == {};
    MapIsKeyedByIdentity(states, actions, n);
    forall w
      ensures w in states[n].asyncs && states[n].asyncs[w] == Parked(false) ==>
                OwesAsync(states[n].tasks, states[n].closers)
      ensures w in states[n].syncs && states[n].syncs[w].Blocked? ==> OwesSync(states[n].tasks, states[n].closers)
    {
      ParkedWaitersAreOwed(states, actions, n, w);
    }
  }

  lemma AtRestIsDone(k: Task)
    requires TaskInv(k) && Remaining(k) == 0
    ensures PhaseOf(k).Done?
  {
  }

  lemma ZeroMeasureIsDone(s: State, t: nat)
    requires Inv(s) && Measure(s) == 0 && t in s.tasks
    ensures PhaseOf(s.tasks[t]).Done?
  {
    hide Inv, TaskInv, PhaseOf, Remaining, Sum;
    TaskOfRun(s, t);
    SumRemove(s.tasks.Keys, s.tasks, Remaining, t);
    AtRestIsDone(s.tasks[t]);
  }

  /** In particular a closed service whose measure has come down to zero is terminated, its map is empty and its
      termination notifications have been sent or are owed. */
  lemma ZeroMeasureMeansTerminated(states: seq<State>, actions: seq<Action>, n: nat)
    requires IsExecution(states, actions) && n < |states| && !states[n].life.Running? && Measure(states[n]) == 0
    ensures IsTerminated(states[n]) && states[n].handles == map[]
    ensures forall w :: w in states[n].asyncs && states[n].asyncs[w] == Parked(false) ==>
              OwesAsync(states[n].tasks, states[n].closers)
    ensures forall w :: w in states[n].syncs && states[n].syncs[w].Blocked? ==>
              OwesSync(states[n].tasks, states[n].closers)
  {
    hide Inv, Apply, Enabled, OwesSync, OwesAsync, PhaseOf, Measure;
    ExecutionsKeepInv(states, actions, n);
    forall t | t in states[n].tasks
      ensures PhaseOf(states[n].tasks[t]).Done?
    {
      ZeroMeasureIsDone(states[n], t);
    }
    DrainedServiceIsTerminated(states, actions, n);
  }
}
