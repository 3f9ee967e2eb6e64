/** The blocking service as a step-level transition system over unboundedly many tasks and threads.

    Atomics are sequentially consistent.  A monitor section spans two steps: its thread takes the monitor with
    the first access and leaves it with the last, and in between every other thread may move. */
module BlockingModel {
  import opened Lifecycles
  import opened TaskCounts
  import opened BlockingTask

  /** Who holds the submission lock. */
  datatype Admission = Free | Admitted(owner: Actor)

  /** A submitting thread that retries on saturation; `seen` is the generation it has observed. */
  datatype Submitter =
    | Ready(seen: nat)
    | Locked(seen: nat)
    | Checked(seen: nat)      // the service was running
    | Rejecting(seen: nat)    // found the service full and is still inside the monitor
    | Full(seen: nat)         // rejected with Saturated, admission not yet released
    | Refused                 // rejected with Shutdown, admission not yet released
    | Busy(task: nat)
    | Waiting(seen: nat)      // parked on the capacity hint
    | Idle

  datatype ClosePc =
    | Holding
    | Stored
    | Snapping                     // has read the counts and is still inside the monitor
    | Snapped
    | Unlocked
    | Looping
    | Bumping
    | Checking
    | Examining(notRunning: bool)  // has loaded the lifecycle inside the monitor
    | NotifyingSync
    | NotifyingAsync
    | Reported

  /** A shutdown or stop call.  `snap` and `counted` are histories: the tasks queued at the snapshot
      and the tasks whose hook answered true. */
  datatype Closer = Closer(
    stop: bool, pc: ClosePc, queued: nat, running: nat, cancelled: nat, snap: set<nat>, counted: set<nat>)

  /** An await_termination future; `woken` says that its enabled notification has fired. */
  datatype AsyncWaiter =
    | Enabling
    | Loading(woken: bool)
    | Reading(seen: Lifecycle, woken: bool)
    | Answering(terminated: bool, woken: bool)   // has read the counts and is still inside the monitor
    | Parked(woken: bool)
    | Resolved

  /** A thread inside wait_termination; Deciding has loaded the lifecycle inside the monitor. */
  datatype SyncWaiter = Entering | Deciding(notRunning: bool) | Blocked | Unblocked

  datatype State = State(
    capacity: nat,
    life: Lifecycle,
    counts: Counts,
    generation: nat,
    admission: Admission,
    monitor: Monitor,
    handles: map<nat, nat>,        // marker address to the task whose entry is stored there
    tasks: map<nat, Task>,
    submitters: map<nat, Submitter>,
    closers: map<nat, Closer>,
    asyncs: map<nat, AsyncWaiter>,
    syncs: map<nat, SyncWaiter>)

  datatype Action =
    | OnTask(task: nat, step: TaskStep)
    // submitting threads before acceptance
    | Subscribe(thread: nat)
    | Lock(thread: nat)
    | CheckRunning(thread: nat)
    | TryAccept(thread: nat, task: nat, kind: Kind)
    | LeaveFull(thread: nat)
    | Reject(thread: nat)
    | Retry(thread: nat)
    // shutdown and stop calls
    | Close(closer: nat, stop: bool)
    | StoreLifecycle(closer: nat)
    | Snapshot(closer: nat)
    | LeaveSnapshot(closer: nat)
    | ReleaseAdmission(closer: nat)
    | TakeHandles(closer: nat)
    | EndLoop(closer: nat)
    | BumpCapacity(closer: nat)
    | CheckLifecycle(closer: nat)
    | CheckTerminated(closer: nat)
    | NotifySync(closer: nat)
    | NotifyAsync(closer: nat)
    // await_termination
    | Await(waiter: nat)
    | Enable(waiter: nat)
    | LoadLifecycle(waiter: nat)
    | ReadCounts(waiter: nat)
    | LeaveRead(waiter: nat)
    | Resume(waiter: nat)
    // wait_termination
    | Wait(waiter: nat)
    | Enter(waiter: nat)
    | Decide(waiter: nat)
    | SpuriousWake(waiter: nat)

  /** Observable termination. */
  predicate IsTerminated(s: State) {
    !s.life.Running? && s.counts.IsEmpty()
  }

  function Initial(capacity: nat): State {
    State(capacity, Running, Counts(0, 0), 0, Free, Vacant, map[], map[], map[], map[], map[], map[])
  }

  // ----- admission

  /** Shutdown is checked before this, capacity here. */
  predicate HasCapacity(s: State) {
    s.counts.Total() < s.capacity
  }

  // ----- notifications

  function WakeSyncWaiter(w: SyncWaiter): SyncWaiter {
    if w.Blocked? then Entering else w
  }

  /** notify_waiters fires exactly the enabled notifications. */
  function WakeAsyncWaiter(w: AsyncWaiter): AsyncWaiter {
    match w
    case Loading(_) => Loading(true)
    case Reading(seen, _) => Reading(seen, true)
    case Answering(terminated, _) => Answering(terminated, true)
    case Parked(_) => Parked(true)
    case _ => w
  }

  function WokenSyncs(m: map<nat, SyncWaiter>): map<nat, SyncWaiter> {
    map w | w in m :: WakeSyncWaiter(m[w])
  }

  function WokenAsyncs(m: map<nat, AsyncWaiter>): map<nat, AsyncWaiter> {
    map w | w in m :: WakeAsyncWaiter(m[w])
  }

  // ----- task steps

  predicate AddressIsFree(s: State, addr: nat) {
    forall u :: u in s.tasks && Live(s.tasks[u]) ==> s.tasks[u].addr != addr
  }

  predicate CanStepTask(s: State, t: nat, a: TaskStep) {
    && t in s.tasks
    && CanStep(s.tasks[t], a)
    && (TakesMonitor(a) ==> s.monitor.Vacant?)
    && (a.BySubmitter? && a.submitter.Allocate? ==> AddressIsFree(s, a.submitter.addr))
    && (a.OnRelease? && a.release.LeaveWrite? ==> a.release.verdict == IsTerminated(s))
    && (a == ByStop(HookCheck) && s.tasks[t].entry.Taken? ==> NobodyEngaged(s.tasks, s.tasks[t].entry.closer))
  }

  /** A stop call works on one entry at a time. */
  predicate NobodyEngaged(tasks: map<nat, Task>, c: nat) {
    forall u :: u in tasks ==> !Engaged(tasks[u], c)
  }

  function CountsAfter(c: Counts, k: Task, a: TaskStep): Counts
    requires CanStep(k, a)
  {
    if a == ByJob(MarkCount) then c.Start()
    else if a == OnRelease(WriteCounts) then c.Finish(k.release.started)
    else c
  }

  function MonitorAfter(m: Monitor, t: nat, k: Task, a: TaskStep): Monitor
    requires CanStep(k, a)
  {
    if TakesMonitor(a) then HeldBy(TaskActor(t, k, a), OfTask(t)) else if LeavesMonitor(a) then Vacant else m
  }

  /** The address-keyed abort map: insert and remove know addresses only. */
  function HandlesAfter(h: map<nat, nat>, t: nat, k: Task, a: TaskStep): map<nat, nat> {
    if a == BySubmitter(Register) && !k.finished && !k.job.Gone? then h[k.addr := t]
    else if a == OnGuard(GuardRemove) || a == ByCancel(CancelRemoveEntry) then h - {k.addr}
    else h
  }

  function ClosersAfter(c: map<nat, Closer>, t: nat, k: Task, a: TaskStep): map<nat, Closer> {
    if a == ByStop(HookCancelSlot) && k.entry.HookSlot? && k.entry.closer in c then
      var cl := c[k.entry.closer];
      c[k.entry.closer := cl.(cancelled := cl.cancelled + 1, counted := cl.counted + {t})]
    else c
  }

  function StepTask(s: State, t: nat, a: TaskStep): State
    requires CanStepTask(s, t, a)
  {
    var k := s.tasks[t];
    s.(tasks := s.tasks[t := Step(k, a)],
       counts := CountsAfter(s.counts, k, a),
       monitor := MonitorAfter(s.monitor, t, k, a),
       handles := HandlesAfter(s.handles, t, k, a),
       closers := ClosersAfter(s.closers, t, k, a),
       admission := if a == BySubmitter(Unlock) then Free else s.admission,
       submitters := if a == BySubmitter(Return) then s.submitters[k.owner := Idle] else s.submitters,
       generation := if a == OnRelease(BumpGeneration) then s.generation + 1 else s.generation,
       syncs := if a == OnRelease(WakeSync) then WokenSyncs(s.syncs) else s.syncs,
       asyncs := if a == OnRelease(WakeAsync) then WokenAsyncs(s.asyncs) else s.asyncs)
  }

  // ----- shutdown and stop

  predicate AtClose(s: State, c: nat, pc: ClosePc) {
    c in s.closers && s.closers[c].pc == pc
  }

  function QueuedTasks(tasks: map<nat, Task>): set<nat> {
    set t | t in tasks && PhaseOf(tasks[t]).Queued?
  }

  function ActiveTasks(tasks: map<nat, Task>): set<nat> {
    set t | t in tasks && PhaseOf(tasks[t]).Active?
  }

  /** Every entry that the map holds now belongs to this stop. */
  function TakeEntries(s: State, c: nat): State {
    s.(tasks := map t | t in s.tasks ::
         if t in s.handles.Values then s.tasks[t].(entry := Taken(c)) else s.tasks[t],
       handles := map[])
  }

  function SetClose(s: State, c: nat, pc: ClosePc): State
    requires c in s.closers
  {
    s.(closers := s.closers[c := s.closers[c].(pc := pc)])
  }

  // ----- enabling conditions and effects

  predicate Enabled(s: State, a: Action) {
    match a
    case OnTask(t, x) => CanStepTask(s, t, x)
    case Subscribe(th) => th !in s.submitters || s.submitters[th].Idle?
    case Lock(th) => th in s.submitters && s.submitters[th].Ready? && s.admission.Free?
    case CheckRunning(th) => th in s.submitters && s.submitters[th].Locked?
    case TryAccept(th, t, _) => th in s.submitters && s.submitters[th].Checked? && t !in s.tasks && s.monitor.Vacant?
    case LeaveFull(th) => th in s.submitters && s.submitters[th].Rejecting?
    case Reject(th) => th in s.submitters && (s.submitters[th].Full? || s.submitters[th].Refused?)
    case Retry(th) => th in s.submitters && s.submitters[th].Waiting? && s.submitters[th].seen != s.generation
    case Close(c, _) => c !in s.closers && s.admission.Free?
    case StoreLifecycle(c) => AtClose(s, c, Holding)
    case Snapshot(c) => AtClose(s, c, Stored) && s.closers[c].stop && s.monitor.Vacant?
    case LeaveSnapshot(c) => AtClose(s, c, Snapping)
    case ReleaseAdmission(c) => AtClose(s, c, Snapped) || (AtClose(s, c, Stored) && !s.closers[c].stop)
    case TakeHandles(c) => AtClose(s, c, Unlocked)
    case EndLoop(c) => AtClose(s, c, Looping) && forall t :: t in s.tasks ==> !HasHook(s.tasks[t], c)
    case BumpCapacity(c) => AtClose(s, c, Bumping)
    case CheckLifecycle(c) => AtClose(s, c, Checking) && s.monitor.Vacant?
    case CheckTerminated(c) => c in s.closers && s.closers[c].pc.Examining?
    case NotifySync(c) => AtClose(s, c, NotifyingSync)
    case NotifyAsync(c) => AtClose(s, c, NotifyingAsync)
    case Await(w) => w !in s.asyncs
    case Enable(w) => w in s.asyncs && s.asyncs[w].Enabling?
    case LoadLifecycle(w) => w in s.asyncs && s.asyncs[w].Loading?
    case ReadCounts(w) => w in s.asyncs && s.asyncs[w].Reading? && s.monitor.Vacant?
    case LeaveRead(w) => w in s.asyncs && s.asyncs[w].Answering?
    case Resume(w) => w in s.asyncs && s.asyncs[w] == Parked(true)
    case Wait(w) => w !in s.syncs
    case Enter(w) => w in s.syncs && s.syncs[w].Entering? && s.monitor.Vacant?
    case Decide(w) => w in s.syncs && s.syncs[w].Deciding?
    case SpuriousWake(w) => w in s.syncs && s.syncs[w].Blocked?
  }

  function Apply(s: State, a: Action): State
    requires Enabled(s, a)
  {
    match a
    case OnTask(t, x) => StepTask(s, t, x)
    case Subscribe(th) => s.(submitters := s.submitters[th := Ready(s.generation)])
    case Lock(th) => s.(admission := Admitted(SubmitterThread(th)),
                        submitters := s.submitters[th := Locked(s.submitters[th].seen)])
    case CheckRunning(th) =>
      s.(submitters := s.submitters[th := if s.life.Running? then Checked(s.submitters[th].seen) else Refused])
    case TryAccept(th, t, kind) =>
      if HasCapacity(s) then
        s.(counts := s.counts.Accept(), monitor := HeldBy(SubmitterThread(th), OfTask(t)),
           tasks := s.tasks[t := NewTask(kind, th)], submitters := s.submitters[th := Busy(t)])
      else
        s.(monitor := HeldBy(SubmitterThread(th), OfSubmitter(th)),
           submitters := s.submitters[th := Rejecting(s.submitters[th].seen)])
    case LeaveFull(th) => s.(monitor := Vacant, submitters := s.submitters[th := Full(s.submitters[th].seen)])
    case Reject(th) =>
      s.(admission := Free,
         submitters := s.submitters[th := if s.submitters[th].Full? then Waiting(s.submitters[th].seen) else Idle])
    case Retry(th) => s.(submitters := s.submitters[th := Ready(s.generation)])
    case Close(c, stop) =>
      s.(admission := Admitted(CloserThread(c)), closers := s.closers[c := Closer(stop, Holding, 0, 0, 0, {}, {})])
    case StoreLifecycle(c) =>
      SetClose(s, c, Stored).(life := if s.closers[c].stop then Stopping else ShutdownOf(s.life))
    case Snapshot(c) =>
      s.(monitor := HeldBy(CloserThread(c), OfCloser(c)),
         closers := s.closers[c := s.closers[c].(pc := Snapping, queued := s.counts.queued, running := s.counts.running,
                                                 snap := QueuedTasks(s.tasks))])
    case LeaveSnapshot(c) => SetClose(s, c, Snapped).(monitor := Vacant)
    case ReleaseAdmission(c) => SetClose(s, c, if s.closers[c].stop then Unlocked else Bumping).(admission := Free)
    case TakeHandles(c) => SetClose(TakeEntries(s, c), c, Looping)
    case EndLoop(c) => SetClose(s, c, Bumping)
    case BumpCapacity(c) => SetClose(s, c, Checking).(generation := s.generation + 1)
    case CheckLifecycle(c) =>
      SetClose(s, c, Examining(!s.life.Running?)).(monitor := HeldBy(CloserThread(c), OfCloser(c)))
    case CheckTerminated(c) =>
      SetClose(s, c, if s.closers[c].pc.notRunning && s.counts.IsEmpty() then NotifyingSync else Reported).(
        monitor := Vacant)
    case NotifySync(c) => SetClose(s, c, NotifyingAsync).(syncs := WokenSyncs(s.syncs))
    case NotifyAsync(c) => SetClose(s, c, Reported).(asyncs := WokenAsyncs(s.asyncs))
    case Await(w) => s.(asyncs := s.asyncs[w := Enabling])
    case Enable(w) => s.(asyncs := s.asyncs[w := Loading(false)])
    case LoadLifecycle(w) => s.(asyncs := s.asyncs[w := Reading(s.life, s.asyncs[w].woken)])
    case ReadCounts(w) =>
      s.(monitor := HeldBy(FutureThread(w), OfAsync(w)),
         asyncs := s.asyncs[w := Answering(Derived(s.asyncs[w].seen, s.counts.IsEmpty()).Terminated?,
                                           s.asyncs[w].woken)])
    case LeaveRead(w) =>
      s.(monitor := Vacant,
         asyncs := s.asyncs[w := if s.asyncs[w].terminated then Resolved else Parked(s.asyncs[w].woken)])
    case Resume(w) => s.(asyncs := s.asyncs[w := Enabling])
    case Wait(w) => s.(syncs := s.syncs[w := Entering])
    case Enter(w) => s.(monitor := HeldBy(WaiterThread(w), OfSync(w)),
                        syncs := s.syncs[w := Deciding(!s.life.Running?)])
    case Decide(w) =>
      s.(monitor := Vacant,
         syncs := s.syncs[w := if s.syncs[w].notRunning && s.counts.IsEmpty() then Unblocked else Blocked])
    case SpuriousWake(w) => s.(syncs := s.syncs[w := Entering])
  }

  // ----- runs

  ghost predicate IsRun(states: seq<State>, actions: seq<Action>) {
    && |states| == |actions| + 1
    && forall i :: 0 <= i < |actions| ==> Enabled(states[i], actions[i]) && states[i + 1] == Apply(states[i], actions[i])
  }

  /** A run of a new service. */
  ghost predicate IsExecution(states: seq<State>, actions: seq<Action>) {
    IsRun(states, actions) && states[0] == Initial(states[0].capacity)
  }
}
