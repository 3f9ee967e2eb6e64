/** Deadlock freedom: a closed blocking service comes to rest only when everybody who waits for it has returned. */
module BlockingProgress {
  import opened BlockingTask
  import opened BlockingTaskFacts
  import opened BlockingModel
  import opened BlockingInvariant
  import opened BlockingRuns
  import opened BlockingAccounting
  import opened BlockingDrain
  import opened BlockingStop
  import opened BlockingSettles

  /** No step is due any more. */
  ghost predicate AtRest(s: State) {
    forall a :: IsDue(a) ==> !Enabled(s, a)
  }

  // ----- tasks

  lemma LeavesAreDue(a: Action)
    requires LeavesSection(a)
    ensures IsDue(a)
  {
  }

  lemma MonitorIsVacant(s: State)
    requires MonitorOk(s) && AtRest(s)
    ensures s.monitor.Vacant?
  {
    hide Enabled, Mutex, LeavesSection, IsDue, LeaveOf;
    if s.monitor.HeldBy? {
      HolderCanLeave(s);
      LeavesAreDue(LeaveOf(s));
    }
  }

  lemma StepIsDue(s: State, t: nat, x: TaskStep)
    requires AtRest(s) && s.monitor.Vacant? && t in s.tasks
    requires !IsOptional(x) && !IsAllocate(x) && !IsLeave(x) && x != ByStop(HookCheck)
    ensures !CanStep(s.tasks[t], x)
  {
    hide CanStep, Enabled;
    assert IsDue(OnTask(t, x));
    if CanStep(s.tasks[t], x) {
      StepIsEnabled(s, t, x);
    }
  }

  lemma PartsOfRun(s: State)
    requires Inv(s)
    ensures LifeOk(s) && MonitorOk(s) && AdmissionOk(s) && HintsOk(s) && AsyncsOk(s) && SyncsOk(s)
  {
    hide Staged, Mutex, Exclusive, HintsServed, AsyncsServed, SyncsServed, AllTasks, Counted, DistinctAddresses,
         ExactMap, Swept, HonestReports, GenerationsSeen, OneAtATime;
  }

  lemma ReleasesAreDone(s: State, t: nat)
    requires MonitorOk(s) && AtRest(s) && s.monitor.Vacant? && t in s.tasks
    ensures s.tasks[t].release.NotReleased? || s.tasks[t].release.Released?
  {
    NobodyIsInside(s, t);
    hide AtRest, Mutex;
    match s.tasks[t].release
    case NotReleased =>
    case ToWrite(_) => StepIsDue(s, t, OnRelease(WriteCounts));
    case Written =>
    case ToBump(_) => StepIsDue(s, t, OnRelease(BumpGeneration));
    case ToNotifySync => StepIsDue(s, t, OnRelease(WakeSync));
    case ToNotifyAsync => StepIsDue(s, t, OnRelease(WakeAsync));
    case Released =>
  }

  lemma NobodyIsInside(s: State, t: nat)
    requires MonitorOk(s) && s.monitor.Vacant? && t in s.tasks
    ensures !s.tasks[t].release.Written? && !s.tasks[t].job.Leaving? && !s.tasks[t].stage.Accepted?
  {
    hide SubmittersInside, ClosersInside, AsyncsInside, SyncsInside;
    assert TaskSection(t, s.tasks[t]).Vacant?;
  }

  /** A task with no hook step enabled and no release under way. */
  lemma IdleHook(k: Task, c: nat)
    requires ReleaseAgrees(k) && CasAgrees(k) && (k.release.NotReleased? || k.release.Released?)
    requires !CanStep(k, ByStop(HookAbortJob)) && !CanStep(k, ByStop(HookCompare))
    requires !CanStep(k, ByStop(HookReleased)) && !CanStep(k, ByStop(HookCancelSlot))
    ensures !Engaged(k, c)
  {
  }

  lemma NobodyIsEngaged(s: State, t: nat, c: nat)
    requires Inv(s) && AtRest(s) && s.monitor.Vacant? && t in s.tasks
    ensures !Engaged(s.tasks[t], c)
  {
    hide Inv, AtRest, MonitorOk, CanStep, TaskInv, StagesAgree, EntryAgrees, CasAgrees, ReleaseAgrees, SlotAgrees,
         CutOffAgrees, Engaged, Enabled, IsDue;
    PartsOfRun(s);
    TaskOfRun(s, t);
    TaskParts(s.tasks[t]);
    ReleasesAreDone(s, t);
    StepIsDue(s, t, ByStop(HookAbortJob));
    StepIsDue(s, t, ByStop(HookCompare));
    StepIsDue(s, t, ByStop(HookReleased));
    StepIsDue(s, t, ByStop(HookCancelSlot));
    IdleHook(s.tasks[t], c);
  }

  lemma CheckIsEnabled(s: State, t: nat, c: nat)
    requires t in s.tasks && s.tasks[t].entry == Taken(c) && forall u :: u in s.tasks ==> !Engaged(s.tasks[u], c)
    ensures Enabled(s, OnTask(t, ByStop(HookCheck)))
  {
    hide Engaged;
  }

  lemma HooksAreDone(s: State, t: nat, c: nat)
    requires Inv(s) && AtRest(s) && s.monitor.Vacant? && t in s.tasks
    ensures !HasHook(s.tasks[t], c)
  {
    forall u | u in s.tasks
      ensures !Engaged(s.tasks[u], c)
    {
      NobodyIsEngaged(s, u, c);
    }
    hide Inv, Enabled;
    assert IsDue(OnTask(t, ByStop(HookCheck)));
    if s.tasks[t].entry == Taken(c) {
      CheckIsEnabled(s, t, c);
    }
  }

  lemma NextStepIsNotOptional(k: Task)
    requires !PhaseOf(k).Done?
    ensures !IsOptional(NextStep(k)) && !IsAllocate(NextStep(k)) && !IsLeave(NextStep(k)) && !NextStep(k).ByStop?
  {
  }

  lemma TasksAreDone(s: State, t: nat)
    requires Inv(s) && AtRest(s) && s.monitor.Vacant? && !s.life.Running? && t in s.tasks
    ensures PhaseOf(s.tasks[t]).Done?
  {
    hide Inv, AtRest, PhaseOf, NextStep, TaskInv, Staged, InAdmission;
    InvParts(s);
    TaskOfRun(s, t);
    NothingInAdmission(s, t);
    if !PhaseOf(s.tasks[t]).Done? {
      UnfinishedTasksCanStep(s.tasks[t]);
      NextStepIsNotOptional(s.tasks[t]);
      StepIsDue(s, t, NextStep(s.tasks[t]));
    }
  }

  /** The guard of a task whose hand-off failed is dropped, so its submission returns. */
  lemma IdleSubmission(k: Task)
    requires StagesAgree(k) && ReleaseAgrees(k) && CasAgrees(k)
    requires !InAdmission(k) && (k.release.NotReleased? || k.release.Released?)
    requires !CanStep(k, BySubmitter(Send)) && !CanStep(k, BySubmitter(Return)) && !CanStep(k, OnGuard(GuardMark))
    requires !CanStep(k, OnGuard(GuardRemove)) && !CanStep(k, OnGuard(GuardSwap)) && !CanStep(k, OnGuard(GuardDone))
    ensures k.stage.Returned?
  {
  }

  lemma SubmissionsHaveReturned(s: State, t: nat)
    requires Inv(s) && AtRest(s) && s.monitor.Vacant? && !s.life.Running? && t in s.tasks
    ensures s.tasks[t].stage.Returned?
  {
    hide Inv, AtRest, MonitorOk, CanStep, InAdmission, TaskInv, StagesAgree, EntryAgrees, CasAgrees, ReleaseAgrees,
         SlotAgrees, CutOffAgrees, Enabled, IsDue, LifeOk;
    PartsOfRun(s);
    TaskOfRun(s, t);
    NothingInAdmission(s, t);
    ReleasesAreDone(s, t);
    TaskParts(s.tasks[t]);
    StepIsDue(s, t, BySubmitter(Send));
    StepIsDue(s, t, BySubmitter(Return));
    StepIsDue(s, t, OnGuard(GuardMark));
    StepIsDue(s, t, OnGuard(GuardRemove));
    StepIsDue(s, t, OnGuard(GuardSwap));
    StepIsDue(s, t, OnGuard(GuardDone));
    IdleSubmission(s.tasks[t]);
  }

  // ----- closers

  function NextOfCloser(c: nat, cl: Closer): Action {
    match cl.pc
    case Holding => StoreLifecycle(c)
    case Stored => if cl.stop then Snapshot(c) else ReleaseAdmission(c)
    case Snapping => LeaveSnapshot(c)
    case Snapped => ReleaseAdmission(c)
    case Unlocked => TakeHandles(c)
    case Looping => EndLoop(c)
    case Bumping => BumpCapacity(c)
    case Checking => CheckLifecycle(c)
    case Examining(_) => CheckTerminated(c)
    case NotifyingSync => NotifySync(c)
    case _ => NotifyAsync(c)
  }

  /** No closer waits for anything but the monitor and the hooks it is running. */
  lemma CloserCanMove(s: State, c: nat)
    requires c in s.closers && s.monitor.Vacant? && forall t :: t in s.tasks ==> !HasHook(s.tasks[t], c)
    ensures s.closers[c].pc.Reported? || Enabled(s, NextOfCloser(c, s.closers[c]))
    ensures IsDue(NextOfCloser(c, s.closers[c]))
  {
    hide HasHook, IsTerminated;
  }

  lemma ClosersAreDone(s: State, c: nat)
    requires Inv(s) && AtRest(s) && s.monitor.Vacant? && c in s.closers
    ensures s.closers[c].pc.Reported?
  {
    hide Inv, HasHook, Enabled, IsDue, NextOfCloser;
    forall t | t in s.tasks
      ensures !HasHook(s.tasks[t], c)
    {
      HooksAreDone(s, t, c);
    }
    CloserCanMove(s, c);
  }

  lemma NobodyOwes(s: State)
    requires forall t :: t in s.tasks ==> s.tasks[t].release.NotReleased? || s.tasks[t].release.Released?
    requires forall c :: c in s.closers ==> s.closers[c].pc.Reported?
    ensures !OwesBump(s.tasks, s.closers) && !OwesSync(s.tasks, s.closers) && !OwesAsync(s.tasks, s.closers)
  {
  }

  lemma NothingIsOwed(s: State)
    requires Inv(s) && AtRest(s) && s.monitor.Vacant?
    ensures !OwesBump(s.tasks, s.closers) && !OwesSync(s.tasks, s.closers) && !OwesAsync(s.tasks, s.closers)
  {
    hide Inv, AtRest, MonitorOk, OwesBump, OwesSync, OwesAsync;
    PartsOfRun(s);
    forall t | t in s.tasks
      ensures s.tasks[t].release.NotReleased? || s.tasks[t].release.Released?
    {
      ReleasesAreDone(s, t);
    }
    forall c | c in s.closers
      ensures s.closers[c].pc.Reported?
    {
      ClosersAreDone(s, c);
    }
    NobodyOwes(s);
  }

  // ----- waiters

  function NextOfAsync(w: nat, x: AsyncWaiter): Action {
    match x
    case Enabling => Enable(w)
    case Loading(_) => LoadLifecycle(w)
    case Reading(_, _) => ReadCounts(w)
    case Answering(_, _) => LeaveRead(w)
    case _ => Resume(w)
  }

  lemma AsyncCanMove(s: State, w: nat)
    requires w in s.asyncs && s.monitor.Vacant? && s.asyncs[w] != Parked(false)
    ensures s.asyncs[w].Resolved? || Enabled(s, NextOfAsync(w, s.asyncs[w]))
    ensures IsDue(NextOfAsync(w, s.asyncs[w]))
  {
  }

  lemma AsyncIsDone(s: State, w: nat)
    requires AsyncsOk(s) && AtRest(s) && IsTerminated(s) && s.monitor.Vacant? && !OwesAsync(s.tasks, s.closers)
    requires w in s.asyncs
    ensures s.asyncs[w].Resolved?
  {
    hide OwesAsync, Enabled, IsDue, NextOfAsync;
    assert AsyncSafe(s.asyncs[w]);
    AsyncCanMove(s, w);
  }

  function NextOfSync(w: nat, x: SyncWaiter): Action {
    if x.Entering? then Enter(w) else Decide(w)
  }

  lemma SyncCanMove(s: State, w: nat)
    requires w in s.syncs && s.monitor.Vacant? && !s.syncs[w].Blocked?
    ensures s.syncs[w].Unblocked? || Enabled(s, NextOfSync(w, s.syncs[w]))
    ensures IsDue(NextOfSync(w, s.syncs[w]))
  {
  }

  lemma SyncIsDone(s: State, w: nat)
    requires SyncsOk(s) && AtRest(s) && IsTerminated(s) && s.monitor.Vacant? && !OwesSync(s.tasks, s.closers)
    requires w in s.syncs
    ensures s.syncs[w].Unblocked?
  {
    hide OwesSync, SomeCloserWillCheck, Enabled, IsDue, NextOfSync;
    assert !s.syncs[w].Blocked?;
    SyncCanMove(s, w);
  }

  // ----- submitters

  function NextOfSubmitter(th: nat, b: Submitter): Action {
    match b
    case Ready(_) => Lock(th)
    case Locked(_) => CheckRunning(th)
    case Rejecting(_) => LeaveFull(th)
    case Waiting(_) => Retry(th)
    case _ => Reject(th)
  }

  lemma SubmitterCanMove(s: State, th: nat)
    requires HintsOk(s) && LifeOk(s) && !s.life.Running? && !OwesBump(s.tasks, s.closers) && th in s.submitters
    ensures || s.submitters[th].Idle? || s.submitters[th].Busy? || Enabled(s, NextOfSubmitter(th, s.submitters[th]))
            || (s.submitters[th].Ready? && s.admission.Admitted?)
    ensures IsDue(NextOfSubmitter(th, s.submitters[th]))
  {
    hide OwesBump, InAdmission;
  }

  /** Nobody is still on its way from acceptance to the release of admission in a closed service. */
  lemma OwnerIsInside(s: State)
    requires LifeOk(s) && AdmissionOk(s) && !s.life.Running? && s.admission.Admitted?
    ensures match s.admission.owner
            case CloserThread(c) => c in s.closers && !s.closers[c].pc.Reported?
            case SubmitterThread(th) => th in s.submitters && HoldsAdmission(s.submitters[th])
            case _ => false
  {
    hide InAdmission;
  }

  /** Nobody holds admission at rest: whoever does has a step of its own. */
  lemma AdmissionIsFree(s: State)
    requires Inv(s) && AtRest(s) && s.monitor.Vacant? && !s.life.Running?
    ensures s.admission.Free?
  {
    hide Inv, Enabled, AtRest, OwesBump, OwesSync, OwesAsync, LifeOk, AdmissionOk, HintsOk, MonitorOk, AsyncsOk,
         SyncsOk, NextOfSubmitter, IsDue;
    PartsOfRun(s);
    NothingIsOwed(s);
    if s.admission.Admitted? {
      OwnerIsInside(s);
      match s.admission.owner
      case CloserThread(c) => ClosersAreDone(s, c);
      case SubmitterThread(th) =>
        SubmitterCanMove(s, th);
        RestDisables(s, NextOfSubmitter(th, s.submitters[th]));
      case _ =>
    }
  }

  lemma RestDisables(s: State, a: Action)
    requires AtRest(s)
    ensures IsDue(a) ==> !Enabled(s, a)
  {
    hide Enabled, IsDue;
  }

  lemma SubmitterIsDone(s: State, th: nat)
    requires Inv(s) && AtRest(s) && s.monitor.Vacant? && !s.life.Running? && th in s.submitters
    ensures s.submitters[th].Idle?
  {
    hide Inv, Enabled, AtRest, OwesBump, OwesSync, OwesAsync, LifeOk, HintsOk, MonitorOk, AsyncsOk, SyncsOk,
         NextOfSubmitter, IsDue;
    PartsOfRun(s);
    NothingIsOwed(s);
    AdmissionIsFree(s);
    SubmitterCanMove(s, th);
    RestDisables(s, NextOfSubmitter(th, s.submitters[th]));
    if s.submitters[th].Busy? {
      assert IsSubmitting(th, s.submitters[th].task, s.tasks);
      SubmissionsHaveReturned(s, s.submitters[th].task);
    }
  }

  // ----- everybody

  lemma RestIsTermination(s: State)
    requires Inv(s) && AtRest(s) && !s.life.Running?
    ensures IsTerminated(s) && s.handles == map[] && s.monitor.Vacant?
  {
    hide Inv, AtRest, PhaseOf, Mutex, Counted;
    InvParts(s);
    MonitorIsVacant(s);
    forall t | t in s.tasks
      ensures PhaseOf(s.tasks[t]).Done?
    {
      TasksAreDone(s, t);
    }
    DoneMeansEmpty(s);
    MapFacts(s);
  }

  lemma DoneMeansEmpty(s: State)
    requires CountsOk(s) && forall t :: t in s.tasks ==> PhaseOf(s.tasks[t]).Done?
    ensures s.counts.IsEmpty()
  {
    hide PhaseOf;
    assert QueuedTasks(s.tasks) == {};
    assert ActiveTasks(s.tasks) == {};
  }

  ghost predicate EverybodyReturned(s: State) {
    && IsTerminated(s) && s.handles == map[] && s.monitor.Vacant? && s.admission.Free?
    && (forall c :: c in s.closers ==> s.closers[c].pc.Reported?)
    && (forall w :: w in s.asyncs ==> s.asyncs[w].Resolved?)
    && (forall w :: w in s.syncs ==> s.syncs[w].Unblocked?)
    && (forall th :: th in s.submitters ==> s.submitters[th].Idle?)
  }

  lemma RestIsReturn(s: State)
    requires Inv(s) && AtRest(s) && !s.life.Running?
    ensures EverybodyReturned(s)
  {
    hide Inv, AtRest, OwesBump, OwesSync, OwesAsync, AsyncsServed, SyncsServed, HintsServed, Mutex;
    InvParts(s);
    RestIsTermination(s);
    NothingIsOwed(s);
    AdmissionIsFree(s);
    forall c | c in s.closers
      ensures s.closers[c].pc.Reported?
    {
      ClosersAreDone(s, c);
    }
    forall w | w in s.asyncs
      ensures s.asyncs[w].Resolved?
    {
      AsyncIsDone(s, w);
    }
    forall w | w in s.syncs
      ensures s.syncs[w].Unblocked?
    {
      SyncIsDone(s, w);
    }
    forall th | th in s.submitters
      ensures s.submitters[th].Idle?
    {
      SubmitterIsDone(s, th);
    }
  }

  /** Deadlock freedom: when no due step is left in a closed service, it is terminated, both locks are free, its abort
      map is empty, every closer has reported, every termination waiter and every submission has returned and no retrier
      is parked. */
  lemma RestMeansEverybodyReturned(states: seq<State>, actions: seq<Action>, n: nat)
    requires IsExecution(states, actions) && n < |states| && !states[n].life.Running? && AtRest(states[n])
    ensures EverybodyReturned(states[n])
  {
    hide Inv, Apply, Enabled, AtRest, EverybodyReturned;
    ExecutionsKeepInv(states, actions, n);
    RestIsReturn(states[n]);
  }

  lemma ExhaustedIsAtRest(s: State)
    requires Inv(s) && !s.life.Running? && Potential(s) == 0
    ensures AtRest(s)
  {
    hide Inv, Enabled, IsDue, Apply, Potential;
    forall a | IsDue(a)
      ensures !Enabled(s, a)
    {
      if Enabled(s, a) {
        DueIsSettling(a);
        SettlingShrinks(s, a);
      }
    }
  }

  lemma DueIsSettling(a: Action)
    requires IsDue(a)
    ensures IsSettling(a)
  {
  }

  /** Rest is reached: after as many steps as the potential of the closed service says, or as soon as no due step is
      left, everybody has returned, whatever the order of the steps was. */
  lemma EverybodyReturnsInBoundedSteps(states: seq<State>, actions: seq<Action>, i: nat, j: nat)
    requires IsExecution(states, actions) && i <= j < |states| && !states[i].life.Running?
    requires forall n :: i <= n < j ==> IsSettling(actions[n])
    ensures j - i <= Potential(states[i])
    ensures j - i == Potential(states[i]) || AtRest(states[j]) ==> EverybodyReturned(states[j])
  {
    hide Inv, Apply, Enabled, AtRest, EverybodyReturned, Potential, IsSettling;
    SettlingIsBounded(states, actions, i, j);
    NothingAcceptedAfterClose(states, actions, i, j);
    ExecutionsKeepInv(states, actions, j);
    if j - i == Potential(states[i]) {
      ExhaustedIsAtRest(states[j]);
    }
    if AtRest(states[j]) {
      RestIsReturn(states[j]);
    }
  }
}
