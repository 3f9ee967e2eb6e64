/** Caller code (wakers, task bodies, payload drops) never runs on a thread that holds admission or the monitor. */
module BlockingReentrancy {
  import opened BlockingTask
  import opened BlockingModel
  import opened BlockingInvariant
  import opened BlockingRuns
  import opened BlockingAccounting

  function ActorOf(s: State, a: Action): Actor
    requires Enabled(s, a)
  {
    match a
    case OnTask(t, x) => TaskActor(t, s.tasks[t], x)
    case Subscribe(th) => SubmitterThread(th)
    case Lock(th) => SubmitterThread(th)
    case CheckRunning(th) => SubmitterThread(th)
    case TryAccept(th, _, _) => SubmitterThread(th)
    case LeaveFull(th) => SubmitterThread(th)
    case Reject(th) => SubmitterThread(th)
    case Retry(th) => SubmitterThread(th)
    case Close(c, _) => CloserThread(c)
    case StoreLifecycle(c) => CloserThread(c)
    case Snapshot(c) => CloserThread(c)
    case LeaveSnapshot(c) => CloserThread(c)
    case ReleaseAdmission(c) => CloserThread(c)
    case TakeHandles(c) => CloserThread(c)
    case EndLoop(c) => CloserThread(c)
    case BumpCapacity(c) => CloserThread(c)
    case CheckLifecycle(c) => CloserThread(c)
    case CheckTerminated(c) => CloserThread(c)
    case NotifySync(c) => CloserThread(c)
    case NotifyAsync(c) => CloserThread(c)
    case Await(w) => FutureThread(w)
    case Enable(w) => FutureThread(w)
    case LoadLifecycle(w) => FutureThread(w)
    case ReadCounts(w) => FutureThread(w)
    case LeaveRead(w) => FutureThread(w)
    case Resume(w) => FutureThread(w)
    case Wait(w) => WaiterThread(w)
    case Enter(w) => WaiterThread(w)
    case Decide(w) => WaiterThread(w)
    case SpuriousWake(w) => WaiterThread(w)
  }

  /** The thread holds the submission lock or the monitor of the counts. */
  predicate HoldsLock(s: State, x: Actor) {
    s.admission == Admitted(x) || (s.monitor.HeldBy? && s.monitor.owner == x)
  }

  /** The step begins to drop a payload.  The user closure goes with the tuple, before the guard, or, if it was
      already unpacked, after it: that is before EndJob at the latest. */
  predicate DropsPayload(k: Task, x: TaskStep)
    requires CanStep(k, x)
  {
    (!k.guard.ToMark? && Step(k, x).guard.ToMark?) || x == ByJob(EndJob)
  }

  /** The step runs a hook or drops it, and with it perhaps the last reference to a result slot. */
  predicate TouchesHook(x: TaskStep) {
    x.ByStop? || x == OnGuard(GuardRemove) || x == ByCancel(CancelRemoveEntry)
  }

  /** Steps in which a waker, a task body or a destructor of the caller may run, among them every step of a stop on an
      entry. */
  predicate TaskRunsCallerCode(k: Task, x: TaskStep)
    requires CanStep(k, x)
  {
    || x == OnRelease(BumpGeneration)
    || x == OnRelease(WakeAsync)
    || (!k.job.UserBody? && Step(k, x).job.UserBody?)
    || x == ByJob(EndBody)
    || x == ByCancel(CancelWin)
    || x == ByCancel(CancelAbortJob)
    || x == ByCancel(DropHandle)
    || TouchesHook(x)
    || DropsPayload(k, x)
  }

  predicate RunsCallerCode(s: State, a: Action)
    requires Enabled(s, a)
  {
    match a
    case OnTask(t, x) => TaskRunsCallerCode(s.tasks[t], x)
    case BumpCapacity(_) => true
    case NotifyAsync(_) => true
    case Retry(_) => true
    case Resume(_) => true
    case _ => false
  }

  // ----- one task

  /** The submitting thread runs caller code only after it has given admission back. */
  lemma SubmitterCode(t: nat, k: Task, x: TaskStep)
    requires TaskInv(k) && CanStep(k, x) && TaskRunsCallerCode(k, x) && TaskActor(t, k, x).SubmitterThread?
    ensures !InAdmission(k) && !k.stage.Returned?
  {
    hide TaskInv, CanStep, TaskRunsCallerCode, GuardDropper, Releaser, InAdmission;
    match x
    case BySubmitter(y) => HandingIsOutside(k, y);
    case OnGuard(y) => DropperIsOutside(t, k, x);
    case OnRelease(y) => ReleaserIsOutside(t, k, x);
    case _ =>
  }

  /** Only the failed send makes the submitting thread drop a payload. */
  lemma HandingIsOutside(k: Task, y: SubmitterAct)
    requires CanStep(k, BySubmitter(y)) && TaskRunsCallerCode(k, BySubmitter(y))
    ensures !InAdmission(k) && !k.stage.Returned?
  {
  }

  lemma DropperIsOutside(t: nat, k: Task, x: TaskStep)
    requires TaskInv(k) && CanStep(k, x) && x.OnGuard? && GuardDropper(t, k).SubmitterThread?
    ensures !InAdmission(k) && !k.stage.Returned?
  {
    hide EntryAgrees, CasAgrees, ReleaseAgrees, SlotAgrees, CutOffAgrees;
  }

  lemma ReleaserIsOutside(t: nat, k: Task, x: TaskStep)
    requires TaskInv(k) && CanStep(k, x) && x.OnRelease? && Releaser(t, k).SubmitterThread?
    ensures !InAdmission(k) && !k.stage.Returned?
  {
    hide EntryAgrees, SlotAgrees, CutOffAgrees;
    assert k.guard.Releasing?;
  }

  /** A closer that touches a task owns its hook, and works on it unless it only checks it. */
  lemma HookActor(t: nat, k: Task, x: TaskStep, c: nat)
    requires TaskInv(k) && CanStep(k, x) && TaskActor(t, k, x) == CloserThread(c)
    ensures HasHook(k, c) && (Engaged(k, c) || (x == ByStop(HookCheck) && k.entry == Taken(c)))
  {
    hide Step;
  }

  /** The thread that is inside a section of a task is the one whose program counter is there ... */
  lemma SectionOwner(t: nat, k: Task)
    requires TaskInv(k) && TaskSection(t, k).HeldBy?
    ensures var x := TaskSection(t, k).owner;
            match x
            case SubmitterThread(th) => th == k.owner && !k.stage.Returned?
            case CloserThread(c) => Engaged(k, c)
            case PoolThread(u) => u == t
            case HandleThread(u) => u == t
            case _ => false
  {
  }

  /** ... and that thread is nowhere near a step on this task that runs caller code. */
  lemma SectionRunsNoCallerCode(t: nat, k: Task, x: TaskStep)
    requires TaskInv(k) && CanStep(k, x) && TaskRunsCallerCode(k, x) && TaskSection(t, k).HeldBy?
    ensures TaskActor(t, k, x) != TaskSection(t, k).owner
  {
    hide TaskInv, CanStep, TaskRunsCallerCode, TaskActor, Releaser;
    if k.stage.Accepted? {
      AcceptorRunsNoCallerCode(t, k, x);
    } else if k.job.Leaving? {
      StarterRunsNoCallerCode(t, k, x);
    } else {
      FinisherRunsNoCallerCode(t, k, x);
    }
  }

  lemma AcceptorRunsNoCallerCode(t: nat, k: Task, x: TaskStep)
    requires TaskInv(k) && CanStep(k, x) && TaskRunsCallerCode(k, x) && k.stage.Accepted?
    ensures TaskActor(t, k, x) != SubmitterThread(k.owner)
  {
    hide TaskRunsCallerCode;
    if TaskActor(t, k, x).SubmitterThread? {
      SubmitterCode(t, k, x);
    }
  }

  lemma StarterRunsNoCallerCode(t: nat, k: Task, x: TaskStep)
    requires TaskInv(k) && CanStep(k, x) && TaskRunsCallerCode(k, x) && k.job.Leaving?
    ensures TaskActor(t, k, x) != PoolThread(t)
  {
    match x
    case BySubmitter(y) =>
    case ByJob(y) =>
    case OnGuard(y) =>
    case OnRelease(y) =>
    case ByCancel(y) =>
    case ByStop(y) =>
  }

  lemma FinisherRunsNoCallerCode(t: nat, k: Task, x: TaskStep)
    requires TaskInv(k) && CanStep(k, x) && TaskRunsCallerCode(k, x) && k.release.Written?
    ensures TaskActor(t, k, x) != Releaser(t, k)
  {
    match x
    case BySubmitter(y) =>
    case ByJob(y) =>
    case OnGuard(y) =>
    case OnRelease(y) =>
    case ByCancel(y) =>
    case ByStop(y) =>
  }

  // ----- the submission lock

  lemma TaskCodeOutsideAdmission(s: State, t: nat, x: TaskStep)
    requires Inv(s) && CanStepTask(s, t, x) && TaskRunsCallerCode(s.tasks[t], x)
    ensures s.admission != Admitted(TaskActor(t, s.tasks[t], x))
  {
    hide Inv, TaskInv, Step, TaskRunsCallerCode, AllTasks, InAdmission, SomeStopBeforeTake, HasHook, Engaged,
         TaskActor, HonestReports, AsyncsServed, SyncsServed, HintsServed, Mutex, OneAtATime, Counted;
    InvParts(s);
    TaskOfRun(s, t);
    var k := s.tasks[t];
    if TaskActor(t, k, x).SubmitterThread? {
      SubmitterCode(t, k, x);
      SubmitterIsOutside(s, t, k);
      SubmitterOfTask(t, k, x);
    } else if TaskActor(t, k, x).CloserThread? {
      HookActor(t, k, x, TaskActor(t, k, x).closer);
      assert IsLooping(s.closers, TaskActor(t, k, x).closer);
    }
  }

  lemma SubmitterOfTask(t: nat, k: Task, x: TaskStep)
    requires CanStep(k, x) && TaskActor(t, k, x).SubmitterThread?
    ensures TaskActor(t, k, x) == SubmitterThread(k.owner)
  {
  }

  lemma SubmitterIsOutside(s: State, t: nat, k: Task)
    requires AdmissionOk(s) && t in s.tasks && k == s.tasks[t] && !InAdmission(k) && !k.stage.Returned?
    ensures s.admission != Admitted(SubmitterThread(k.owner)) && k.owner in s.submitters
    ensures s.submitters[k.owner] == Busy(t)
  {
    hide InAdmission;
  }

  // ----- the monitor

  lemma ActorsOfTasks(t: nat, k: Task, x: TaskStep)
    requires CanStep(k, x)
    ensures match TaskActor(t, k, x)
            case PoolThread(u) => u == t
            case HandleThread(u) => u == t
            case FutureThread(_) => false
            case WaiterThread(_) => false
            case _ => true
  {
  }

  lemma SubmittersMeetOnce(s: State, t: nat, u: nat)
    requires AdmissionOk(s) && t in s.tasks && u in s.tasks && s.tasks[t].owner == s.tasks[u].owner
    requires !s.tasks[t].stage.Returned? && !s.tasks[u].stage.Returned?
    ensures t == u
  {
    hide InAdmission;
  }

  lemma StopsMeetOnce(s: State, t: nat, x: TaskStep, u: nat, c: nat)
    requires HooksOk(s) && CanStepTask(s, t, x) && u in s.tasks && Engaged(s.tasks[u], c)
    requires Engaged(s.tasks[t], c) || (x == ByStop(HookCheck) && s.tasks[t].entry == Taken(c))
    ensures t == u
  {
    hide Engaged, HasHook, CanStep;
  }

  /** Two steps of one thread on two tasks cannot meet: a submission is of one task, a stop works on one entry. */
  lemma TaskCodeOutsideTaskSection(s: State, t: nat, x: TaskStep, u: nat)
    requires Inv(s) && CanStepTask(s, t, x) && TaskRunsCallerCode(s.tasks[t], x)
    requires u in s.tasks && TaskSection(u, s.tasks[u]).HeldBy?
    ensures TaskSection(u, s.tasks[u]).owner != TaskActor(t, s.tasks[t], x)
  {
    hide Inv, TaskInv, Step, TaskRunsCallerCode, AllTasks, InAdmission, HasHook, Engaged, TaskActor, TaskSection,
         Exclusive, OneAtATime, HonestReports, AsyncsServed, SyncsServed, HintsServed, Mutex, Counted;
    InvParts(s);
    TaskOfRun(s, t);
    TaskOfRun(s, u);
    var k, actor := s.tasks[t], TaskActor(t, s.tasks[t], x);
    if u == t {
      SectionRunsNoCallerCode(t, k, x);
    } else if TaskSection(u, s.tasks[u]).owner == actor {
      SectionOwner(u, s.tasks[u]);
      ActorsOfTasks(t, k, x);
      if actor.SubmitterThread? {
        SubmitterCode(t, k, x);
        SubmitterOfTask(t, k, x);
        SubmittersMeetOnce(s, t, u);
      } else if actor.CloserThread? {
        HookActor(t, k, x, actor.closer);
        StopsMeetOnce(s, t, x, u, actor.closer);
      }
    }
  }

  /** A thread that works on a task is not inside a section of its own. */
  lemma TaskCodeOutsideOwnSection(s: State, t: nat, x: TaskStep)
    requires Inv(s) && CanStepTask(s, t, x) && TaskRunsCallerCode(s.tasks[t], x)
    requires s.monitor.HeldBy? && !s.monitor.section.OfTask?
    ensures s.monitor.owner != TaskActor(t, s.tasks[t], x)
  {
    hide Inv, TaskInv, Step, TaskRunsCallerCode, AllTasks, InAdmission, HasHook, Engaged, TaskActor, TaskSection,
         OneAtATime, HonestReports, AsyncsServed, SyncsServed, HintsServed, Mutex, Counted, SomeStopBeforeTake;
    InvParts(s);
    TaskOfRun(s, t);
    HolderIsInside(s);
    ActorsOfTasks(t, s.tasks[t], x);
    var k, actor := s.tasks[t], TaskActor(t, s.tasks[t], x);
    if actor.SubmitterThread? {
      SubmitterCode(t, k, x);
      SubmitterOfTask(t, k, x);
      SubmitterIsOutside(s, t, k);
    } else if actor.CloserThread? {
      HookActor(t, k, x, actor.closer);
      assert IsLooping(s.closers, actor.closer);
    }
  }

  lemma TaskCodeOutsideMonitor(s: State, t: nat, x: TaskStep)
    requires Inv(s) && CanStepTask(s, t, x) && TaskRunsCallerCode(s.tasks[t], x) && s.monitor.HeldBy?
    ensures s.monitor.owner != TaskActor(t, s.tasks[t], x)
  {
    hide Inv, TaskInv, Step, TaskRunsCallerCode, TaskActor, TaskSection, Mutex, CanStepTask;
    InvParts(s);
    HolderIsInside(s);
    if s.monitor.section.OfTask? {
      TaskCodeOutsideTaskSection(s, t, x, s.monitor.section.task);
    } else {
      TaskCodeOutsideOwnSection(s, t, x);
    }
  }

  // ----- the threads outside their tasks

  /** A closer, a retrier or a waiter that runs caller code is at a program counter outside both locks. */
  lemma ThreadCodeRunsUnlocked(s: State, a: Action)
    requires Inv(s) && Enabled(s, a) && RunsCallerCode(s, a) && !a.OnTask?
    ensures !HoldsLock(s, ActorOf(s, a))
  {
    hide Inv, Enabled, RunsCallerCode, ActorOf;
    ThreadCodeOutsideAdmission(s, a);
    ThreadCodeOutsideMonitor(s, a);
  }

  lemma ThreadCodeOutsideAdmission(s: State, a: Action)
    requires Inv(s) && Enabled(s, a) && RunsCallerCode(s, a) && !a.OnTask?
    ensures s.admission != Admitted(ActorOf(s, a))
  {
    hide Inv, TaskRunsCallerCode, CanStepTask, AllTasks, Counted, InAdmission, HasHook, TaskActor, Mutex, OneAtATime,
         HonestReports, AsyncsServed, SyncsServed, HintsServed, Swept, Staged, ExactMap;
    InvParts(s);
  }

  lemma ThreadCodeOutsideMonitor(s: State, a: Action)
    requires Inv(s) && Enabled(s, a) && RunsCallerCode(s, a) && !a.OnTask?
    ensures !(s.monitor.HeldBy? && s.monitor.owner == ActorOf(s, a))
  {
    hide Inv, TaskRunsCallerCode, CanStepTask, AllTasks, Counted, InAdmission, HasHook, TaskActor, Mutex, OneAtATime,
         HonestReports, AsyncsServed, SyncsServed, HintsServed, TaskSection, Swept, Staged, ExactMap, Exclusive;
    InvParts(s);
    if s.monitor.HeldBy? {
      HolderIsInside(s);
      if s.monitor.section.OfTask? {
        TaskSectionIsElsewhere(s, s.monitor.section.task);
      }
    }
  }

  /** The owner of a task's section is a thread that is busy with that task. */
  lemma TaskSectionIsElsewhere(s: State, u: nat)
    requires Inv(s) && u in s.tasks && TaskSection(u, s.tasks[u]).HeldBy?
    ensures match TaskSection(u, s.tasks[u]).owner
            case SubmitterThread(th) => th in s.submitters && s.submitters[th] == Busy(u)
            case CloserThread(c) => IsLooping(s.closers, c)
            case FutureThread(_) => false
            case WaiterThread(_) => false
            case _ => true
  {
    hide Inv, TaskInv, AllTasks, InAdmission, HasHook, TaskSection, OneAtATime, HonestReports, AsyncsServed,
         SyncsServed, HintsServed, Mutex, Counted, SomeStopBeforeTake;
    InvParts(s);
    TaskOfRun(s, u);
    SectionOwner(u, s.tasks[u]);
    if TaskSection(u, s.tasks[u]).owner.CloserThread? {
      assert HasHook(s.tasks[u], TaskSection(u, s.tasks[u]).owner.closer);
    }
  }

  lemma TaskCodeRunsUnlocked(s: State, a: Action)
    requires Inv(s) && Enabled(s, a) && RunsCallerCode(s, a) && a.OnTask?
    ensures !HoldsLock(s, ActorOf(s, a))
  {
    hide Inv, TaskRunsCallerCode, TaskActor;
    TaskCodeOutsideAdmission(s, a.task, a.step);
    if s.monitor.HeldBy? {
      TaskCodeOutsideMonitor(s, a.task, a.step);
    }
  }

  /** On accept, reject, failed send, shutdown, stop, cancellation and finish paths, the thread that runs caller
      code holds neither the submission lock nor the counts monitor. */
  lemma CallerCodeRunsUnlocked(states: seq<State>, actions: seq<Action>, i: nat)
    requires IsExecution(states, actions) && i < |actions|
    requires RunsCallerCode(states[i], actions[i])
    ensures !HoldsLock(states[i], ActorOf(states[i], actions[i]))
  {
    hide Inv, Apply, Enabled, RunsCallerCode, ActorOf;
    ExecutionsKeepInv(states, actions, i);
    if actions[i].OnTask? {
      TaskCodeRunsUnlocked(states[i], actions[i]);
    } else {
      ThreadCodeRunsUnlocked(states[i], actions[i]);
    }
  }

  /** The claim is about real sections: a finisher that has written the counts, a worker that has counted its start
      and an acceptor hold the monitor until they leave, and nobody else can take it. */
  lemma SectionsHoldTheMonitor(states: seq<State>, actions: seq<Action>, n: nat, t: nat)
    requires IsExecution(states, actions) && n < |states| && t in states[n].tasks
    requires var k := states[n].tasks[t]; k.release.Written? || k.job.Leaving? || k.stage.Accepted?
    ensures states[n].monitor == TaskSection(t, states[n].tasks[t]) && states[n].monitor.HeldBy?
    ensures HoldsLock(states[n], states[n].monitor.owner)
  {
    hide Inv, Apply, Enabled, Mutex;
    ExecutionsKeepInv(states, actions, n);
    InvParts(states[n]);
    TasksHoldTheMonitor(states[n], t);
  }

  lemma TasksHoldTheMonitor(s: State, t: nat)
    requires MonitorOk(s) && t in s.tasks && TaskSection(t, s.tasks[t]).HeldBy?
    ensures s.monitor == TaskSection(t, s.tasks[t])
  {
    hide TaskSection;
  }
}
