/** In the IO service, caller code (wakers, polls, destructors) never runs on a thread that holds admission. */
module IoReentrancy {
  import opened IoTask
  import opened IoModel
  import opened IoInvariant
  import opened IoRuns
  import opened IoTermination

  function ActorOf(s: State, a: Action): Actor
    requires Enabled(s, a)
  {
    match a
    case OnTask(t, x) => TaskActor(t, s.tasks[t], x)
    case Subscribe(th) => SubmitterThread(th)
    case Lock(th) => SubmitterThread(th)
    case CheckRunning(th) => SubmitterThread(th)
    case CheckCapacity(th) => SubmitterThread(th)
    case Increment(th, _) => SubmitterThread(th)
    case Reject(th) => SubmitterThread(th)
    case Retry(th) => SubmitterThread(th)
    case Close(c, _) => CloserThread(c)
    case StoreLifecycle(c) => CloserThread(c)
    case Snapshot(c) => CloserThread(c)
    case ReleaseAdmission(c) => CloserThread(c)
    case TakeHandles(c) => CloserThread(c)
    case EndLoop(c) => CloserThread(c)
    case BumpCapacity(c) => CloserThread(c)
    case NotifyWaiters(c) => CloserThread(c)
    case Await(w) => FutureThread(w)
    case Enable(w) => FutureThread(w)
    case LoadLifecycle(w) => FutureThread(w)
    case ReadCount(w) => FutureThread(w)
    case Resume(w) => FutureThread(w)
  }

  /** Whatever kind of thread it is: the lock is held by the thread that its state names. */
  predicate HoldsAdmission(s: State, actor: Actor) {
    s.admission == Admitted(actor)
  }

  /** Steps in which a waker, the user future or its destructor may run, an abort reaches its Tokio task, or an entry
      goes and with it perhaps the last reference to that task. */
  predicate TaskRunsCallerCode(k: Task, x: TaskStep)
    requires CanStep(k, x)
  {
    || x == OnGuard(BumpGeneration)
    || x == OnGuard(Notify)
    || x == ByJob(Receive)
    || x == ByJob(Complete)
    || x == ByJob(Destroy)
    || x == OnGuard(GuardRemove)
    || x == ByAbort(StopCheck)
    || x == ByAbort(StopAbort)
    || x == ByAbort(UserAbort)
    || (!k.future.BeingDropped? && Step(k, x).future.BeingDropped?)
  }

  predicate RunsCallerCode(s: State, a: Action)
    requires Enabled(s, a)
  {
    match a
    case OnTask(t, x) => TaskRunsCallerCode(s.tasks[t], x)
    case BumpCapacity(_) => true
    case NotifyWaiters(_) => true
    case Retry(_) => true
    case Resume(_) => true
    case _ => false
  }

  /** The submitting thread runs caller code only after it has given admission back. */
  lemma SubmitterCode(k: Task, x: TaskStep, t: nat)
    requires TaskInv(k) && CanStep(k, x) && TaskRunsCallerCode(k, x) && TaskActor(t, k, x).SubmitterThread?
    ensures !InAdmission(k) && !k.stage.Returned?
  {
    match x
    case BySubmitter(y) =>
    case ByJob(y) =>
    case OnGuard(y) =>
    case ByAbort(y) =>
  }

  lemma TaskCodeRunsUnlocked(s: State, t: nat, x: TaskStep)
    requires Inv(s) && CanStepTask(s, t, x) && TaskRunsCallerCode(s.tasks[t], x)
    ensures !HoldsAdmission(s, TaskActor(t, s.tasks[t], x))
  {
    hide Inv, TaskInv, Step, TaskRunsCallerCode, AllTasks, Counted, InAdmission;
    InvParts(s);
    TaskOfRun(s, t);
    var k := s.tasks[t];
    if TaskActor(t, k, x).SubmitterThread? {
      SubmitterCode(k, x, t);
    } else if TaskActor(t, k, x).CloserThread? {
      assert HasEntry(k, k.entry.closer);
      assert IsLooping(s.closers, k.entry.closer);
    }
  }

  lemma StepRunsUnlocked(s: State, a: Action)
    requires Inv(s) && Enabled(s, a) && RunsCallerCode(s, a)
    ensures !HoldsAdmission(s, ActorOf(s, a))
  {
    hide Inv, TaskRunsCallerCode, CanStepTask, AllTasks, Counted, InAdmission, HasEntry, TaskActor;
    InvParts(s);
    if a.OnTask? {
      TaskCodeRunsUnlocked(s, a.task, a.step);
    }
  }

  /** On accept, reject, failed send, shutdown, stop, abort and finish paths, the thread that runs caller code does
      not hold the submission lock, so a waker or destructor may call the service again. */
  lemma CallerCodeRunsUnlocked(states: seq<State>, actions: seq<Action>, i: nat)
    requires IsExecution(states, actions) && i < |actions|
    requires RunsCallerCode(states[i], actions[i])
    ensures !HoldsAdmission(states[i], ActorOf(states[i], actions[i]))
  {
    hide Inv, Apply;
    ExecutionsKeepInv(states, actions, i);
    StepRunsUnlocked(states[i], actions[i]);
  }
}
