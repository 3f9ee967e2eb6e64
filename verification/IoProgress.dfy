/** Deadlock freedom: a closed IO service comes to rest only when everybody who waits for it has returned. */
module IoProgress {
  import opened IoTask
  import opened IoModel
  import opened IoInvariant
  import opened IoRuns
  import opened IoTermination
  import opened IoSettles

  /** No step is due any more. */
  ghost predicate AtRest(s: State) {
    forall a :: IsDue(a) ==> !Enabled(s, a)
  }

  // ----- who can move

  /** The next step of the protocol for a future that has left admission and still holds its guard. */
  function NextStep(k: Task): TaskStep {
    match k.future
    case WithSubmitter => BySubmitter(Send)
    case InChannel => ByJob(Receive)
    case InTask => ByJob(Complete)
    case BeingDropped => ByJob(Destroy)
    case Destroyed =>
      OnGuard(match k.guard
              case ToRemove => GuardRemove
              case ToDecrement => Decrement
              case ToBump => BumpGeneration
              case ToNotify => Notify
              case _ => GuardMark)
  }

  lemma GuardedTasksCanStep(k: Task)
    requires TaskInv(k) && !InAdmission(k)
    ensures k.guard.Released? || CanStep(k, NextStep(k))
    ensures !IsOptional(NextStep(k)) && !IsAllocate(NextStep(k))
  {
  }

  lemma EntriesCanStep(k: Task, c: nat)
    requires HasEntry(k, c)
    ensures CanStep(k, ByAbort(StopCheck)) || CanStep(k, ByAbort(StopAbort))
  {
  }

  lemma StepIsDue(s: State, t: nat, x: TaskStep)
    requires AtRest(s) && t in s.tasks && !IsOptional(x) && !IsAllocate(x)
    ensures !CanStep(s.tasks[t], x)
  {
    hide CanStep;
    assert IsDue(OnTask(t, x));
    assert Enabled(s, OnTask(t, x)) <==> CanStepTask(s, t, x);
  }

  lemma EntriesAreDone(s: State, t: nat, c: nat)
    requires AtRest(s) && t in s.tasks
    ensures !HasEntry(s.tasks[t], c)
  {
    hide AtRest, CanStep, HasEntry;
    StepIsDue(s, t, ByAbort(StopCheck));
    StepIsDue(s, t, ByAbort(StopAbort));
    if HasEntry(s.tasks[t], c) {
      EntriesCanStep(s.tasks[t], c);
    }
  }

  lemma NothingInAdmission(s: State, t: nat)
    requires LifeOk(s) && !s.life.Running? && t in s.tasks
    ensures !InAdmission(s.tasks[t])
  {
    hide InAdmission;
  }

  lemma GuardsAreReleased(s: State, t: nat)
    requires Inv(s) && AtRest(s) && !s.life.Running? && t in s.tasks
    ensures s.tasks[t].guard.Released?
  {
    hide Inv, AtRest, NextStep, TaskInv, Staged, InAdmission, CanStep;
    InvParts(s);
    TaskOfRun(s, t);
    NothingInAdmission(s, t);
    GuardedTasksCanStep(s.tasks[t]);
    StepIsDue(s, t, NextStep(s.tasks[t]));
  }

  function NextOfCloser(c: nat, cl: Closer): Action {
    match cl.pc
    case Holding => StoreLifecycle(c)
    case Stored => if cl.stop then Snapshot(c) else ReleaseAdmission(c)
    case Snapped => ReleaseAdmission(c)
    case Unlocked => TakeHandles(c)
    case Looping => EndLoop(c)
    case Bumping => BumpCapacity(c)
    case _ => NotifyWaiters(c)
  }

  lemma CloserCanMove(s: State, c: nat)
    requires c in s.closers && forall t :: t in s.tasks ==> !HasEntry(s.tasks[t], c)
    ensures s.closers[c].pc.Reported? || Enabled(s, NextOfCloser(c, s.closers[c]))
    ensures IsDue(NextOfCloser(c, s.closers[c]))
  {
    hide HasEntry;
  }

  lemma ClosersAreDone(s: State, c: nat)
    requires AtRest(s) && c in s.closers
    ensures s.closers[c].pc.Reported?
  {
    hide HasEntry, Enabled, IsDue, NextOfCloser;
    forall t | t in s.tasks
      ensures !HasEntry(s.tasks[t], c)
    {
      EntriesAreDone(s, t, c);
    }
    CloserCanMove(s, c);
  }

  function NextOfWaiter(w: nat, x: Waiter): Action {
    match x
    case Enabling => Enable(w)
    case Loading(_) => LoadLifecycle(w)
    case Reading(_, _) => ReadCount(w)
    case _ => Resume(w)
  }

  lemma WaiterCanMove(s: State, w: nat)
    requires w in s.waiters && s.waiters[w] != Parked(false)
    ensures s.waiters[w].Resolved? || Enabled(s, NextOfWaiter(w, s.waiters[w]))
    ensures IsDue(NextOfWaiter(w, s.waiters[w]))
  {
  }

  lemma WaiterIsDone(s: State, w: nat)
    requires WaitersOk(s) && AtRest(s) && IsTerminated(s) && !OwesNotify(s.tasks, s.closers) && w in s.waiters
    ensures s.waiters[w].Resolved?
  {
    hide OwesNotify, Enabled, IsDue, NextOfWaiter;
    assert WaiterSafe(s.waiters[w]);
    WaiterCanMove(s, w);
  }

  // ----- submissions

  /** The payload of a task whose hand-off failed is dropped, so its submission returns. */
  lemma IdleSubmission(k: Task)
    requires TaskInv(k) && !InAdmission(k) && k.guard.Released?
    requires !CanStep(k, BySubmitter(Send)) && !CanStep(k, BySubmitter(Return))
    ensures k.stage.Returned?
  {
  }

  lemma SubmissionsHaveReturned(s: State, t: nat)
    requires Inv(s) && AtRest(s) && !s.life.Running? && t in s.tasks
    ensures s.tasks[t].stage.Returned?
  {
    hide Inv, AtRest, TaskInv, Staged, InAdmission, CanStep;
    InvParts(s);
    TaskOfRun(s, t);
    NothingInAdmission(s, t);
    GuardsAreReleased(s, t);
    StepIsDue(s, t, BySubmitter(Send));
    StepIsDue(s, t, BySubmitter(Return));
    IdleSubmission(s.tasks[t]);
  }

  lemma PartsOfRun(s: State)
    requires Inv(s)
    ensures LifeOk(s) && AdmissionOk(s) && HintsOk(s) && WaitersOk(s) && CountOk(s) && TasksOk(s) && MapOk(s)
  {
    hide Staged, Exclusive, HintsServed, WaitersServed, AllTasks, Counted, DistinctAddresses, ExactMap, Owned,
         HonestReports, GenerationsSeen;
  }

  lemma NobodyOwes(s: State)
    requires forall t :: t in s.tasks ==> s.tasks[t].guard.Released?
    requires forall c :: c in s.closers ==> s.closers[c].pc.Reported?
    ensures !OwesBump(s.tasks, s.closers) && !OwesNotify(s.tasks, s.closers)
  {
  }

  lemma NothingIsOwed(s: State)
    requires Inv(s) && AtRest(s) && !s.life.Running?
    ensures !OwesBump(s.tasks, s.closers) && !OwesNotify(s.tasks, s.closers)
  {
    hide Inv, AtRest, OwesBump, OwesNotify;
    forall t | t in s.tasks
      ensures s.tasks[t].guard.Released?
    {
      GuardsAreReleased(s, t);
    }
    forall c | c in s.closers
      ensures s.closers[c].pc.Reported?
    {
      ClosersAreDone(s, c);
    }
    NobodyOwes(s);
  }

  function NextOfSubmitter(th: nat, b: Submitter): Action {
    match b
    case Ready(_) => Lock(th)
    case Locked(_) => CheckRunning(th)
    case Parking(_) => Retry(th)
    case _ => Reject(th)
  }

  lemma SubmitterCanMove(s: State, th: nat)
    requires HintsOk(s) && LifeOk(s) && !s.life.Running? && !OwesBump(s.tasks, s.closers)
    requires th in s.submitters && !s.submitters[th].HasRoom?
    ensures || s.submitters[th].Idle? || s.submitters[th].Busy? || Enabled(s, NextOfSubmitter(th, s.submitters[th]))
            || (s.submitters[th].Ready? && s.admission.Admitted?)
    ensures IsDue(NextOfSubmitter(th, s.submitters[th]))
  {
    hide OwesBump, InAdmission;
  }

  /** Nobody is still on its way to acceptance, or from there to the release of admission, in a closed service. */
  lemma NobodyHasRoom(s: State, th: nat)
    requires LifeOk(s) && !s.life.Running? && th in s.submitters
    ensures !PastCheck(s.submitters[th])
  {
    hide InAdmission;
  }

  lemma OwnerIsInside(s: State)
    requires LifeOk(s) && AdmissionOk(s) && !s.life.Running? && s.admission.Admitted?
    ensures match s.admission.owner
            case CloserThread(c) => c in s.closers && !s.closers[c].pc.Reported?
            case SubmitterThread(th) => th in s.submitters && HoldsAdmission(s.submitters[th])
            case _ => false
  {
    hide InAdmission;
  }

  lemma RestDisables(s: State, a: Action)
    requires AtRest(s)
    ensures IsDue(a) ==> !Enabled(s, a)
  {
    hide Enabled, IsDue;
  }

  /** Nobody holds admission at rest: whoever does has a step of its own. */
  lemma AdmissionIsFree(s: State)
    requires Inv(s) && AtRest(s) && !s.life.Running?
    ensures s.admission.Free?
  {
    hide Inv, Enabled, AtRest, OwesBump, OwesNotify, LifeOk, AdmissionOk, HintsOk, WaitersOk, NextOfSubmitter, IsDue,
         Counted, AllTasks, ExactMap;
    PartsOfRun(s);
    NothingIsOwed(s);
    if s.admission.Admitted? {
      OwnerIsInside(s);
      match s.admission.owner
      case CloserThread(c) => ClosersAreDone(s, c);
      case SubmitterThread(th) =>
        NobodyHasRoom(s, th);
        SubmitterCanMove(s, th);
        RestDisables(s, NextOfSubmitter(th, s.submitters[th]));
      case _ =>
    }
  }

  lemma SubmitterIsDone(s: State, th: nat)
    requires Inv(s) && AtRest(s) && !s.life.Running? && th in s.submitters
    ensures s.submitters[th].Idle?
  {
    hide Inv, Enabled, AtRest, OwesBump, OwesNotify, LifeOk, HintsOk, WaitersOk, NextOfSubmitter, IsDue, Counted,
         AllTasks, ExactMap;
    PartsOfRun(s);
    NothingIsOwed(s);
    AdmissionIsFree(s);
    NobodyHasRoom(s, th);
    SubmitterCanMove(s, th);
    RestDisables(s, NextOfSubmitter(th, s.submitters[th]));
    if s.submitters[th].Busy? {
      assert IsSubmitting(th, s.submitters[th].task, s.tasks);
      SubmissionsHaveReturned(s, s.submitters[th].task);
    }
  }

  // ----- everybody

  lemma ReleasedOccupyNothing(s: State)
    requires CountOk(s) && forall t :: t in s.tasks ==> s.tasks[t].guard.Released?
    ensures s.active == 0
  {
    assert Occupying(s.tasks) == {};
  }

  lemma RestIsTermination(s: State)
    requires Inv(s) && AtRest(s) && !s.life.Running?
    ensures IsTerminated(s) && AliveFutures(s) == {} && s.handles == map[]
  {
    hide Inv, AtRest, Counted, AliveFutures, ExactMap, AllTasks;
    PartsOfRun(s);
    forall t | t in s.tasks
      ensures s.tasks[t].guard.Released?
    {
      GuardsAreReleased(s, t);
    }
    ReleasedOccupyNothing(s);
    NothingLivesAtTermination(s);
  }

  ghost predicate EverybodyReturned(s: State) {
    && IsTerminated(s) && AliveFutures(s) == {} && s.handles == map[] && s.admission.Free?
    && (forall c :: c in s.closers ==> s.closers[c].pc.Reported?)
    && (forall w :: w in s.waiters ==> s.waiters[w].Resolved?)
    && (forall th :: th in s.submitters ==> s.submitters[th].Idle?)
  }

  lemma RestIsReturn(s: State)
    requires Inv(s) && AtRest(s) && !s.life.Running?
    ensures EverybodyReturned(s)
  {
    hide Inv, AtRest, OwesBump, OwesNotify, WaitersServed, HintsServed, Counted, AliveFutures, AllTasks, ExactMap,
         Exclusive;
    PartsOfRun(s);
    RestIsTermination(s);
    NothingIsOwed(s);
    AdmissionIsFree(s);
    forall c | c in s.closers
      ensures s.closers[c].pc.Reported?
    {
      ClosersAreDone(s, c);
    }
    forall w | w in s.waiters
      ensures s.waiters[w].Resolved?
    {
      WaiterIsDone(s, w);
    }
    forall th | th in s.submitters
      ensures s.submitters[th].Idle?
    {
      SubmitterIsDone(s, th);
    }
  }

  /** Deadlock freedom: when no due step is left in a closed service, it is terminated, no accepted future is alive,
      the submission lock is free, every closer has reported, every termination waiter and every submission has
      returned and no retrier is parked. */
  lemma RestMeansEverybodyReturned(states: seq<State>, actions: seq<Action>, n: nat)
    requires IsExecution(states, actions) && n < |states| && !states[n].life.Running? && AtRest(states[n])
    ensures EverybodyReturned(states[n])
  {
    hide Inv, Apply, Enabled, AtRest, EverybodyReturned;
    ExecutionsKeepInv(states, actions, n);
    RestIsReturn(states[n]);
  }

  lemma ExhaustedIsAtRest(s: State)
    requires Inv(s) && !s.life.Running? && Potential(s) == 0
    ensures AtRest(s)
  {
    hide Inv, Enabled, IsDue, Apply, Potential;
    forall a | IsDue(a)
      ensures !Enabled(s, a)
    {
      if Enabled(s, a) {
        SettlingShrinks(s, a);
      }
    }
  }

  /** Rest is reached: after as many steps as the potential of the closed service says, or as soon as no due step is
      left, everybody has returned, whatever the order of the steps was. */
  lemma EverybodyReturnsInBoundedSteps(states: seq<State>, actions: seq<Action>, i: nat, j: nat)
    requires IsExecution(states, actions) && i <= j < |states| && !states[i].life.Running?
    requires forall n :: i <= n < j ==> IsSettling(actions[n])
    ensures j - i <= Potential(states[i])
    ensures j - i == Potential(states[i]) || AtRest(states[j]) ==> EverybodyReturned(states[j])
  {
    hide Inv, Apply, Enabled, AtRest, EverybodyReturned, Potential, IsSettling;
    SettlingIsBounded(states, actions, i, j);
    ExecutionsKeepInv(states, actions, j);
    if j - i == Potential(states[i]) {
      ExhaustedIsAtRest(states[j]);
    }
    if AtRest(states[j]) {
      RestIsReturn(states[j]);
    }
  }
}
