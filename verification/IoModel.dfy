/** The IO service as a step-level transition system over unboundedly many tasks and threads.

    Accounting is one atomic count: the capacity check and the increment are separate steps, and so are the
    decrement, the generation bump and the termination notification of a dropped guard. */
module IoModel {
  import opened Lifecycles
  import opened IoTask

  /** Who holds the submission lock. */
  datatype Admission = Free | Admitted(owner: Actor)

  datatype Submitter =
    | Ready(seen: nat)
    | Locked(seen: nat)
    | Checked(seen: nat)      // the service was running
    | HasRoom                 // the count was below the capacity
    | Full(seen: nat)         // rejected with Saturated, admission not yet released
    | Refused                 // rejected with Shutdown, admission not yet released
    | Busy(task: nat)
    | Parking(seen: nat)      // parked on the capacity hint
    | Idle

  datatype ClosePc = Holding | Stored | Snapped | Unlocked | Looping | Bumping | Notifying | Reported

  /** A shutdown or stop call.  `snap` and `counted` are histories. */
  datatype Closer = Closer(stop: bool, pc: ClosePc, running: nat, cancelled: nat, snap: set<nat>, counted: set<nat>)

  datatype Waiter =
    | Enabling
    | Loading(woken: bool)
    | Reading(seen: Lifecycle, woken: bool)
    | Parked(woken: bool)
    | Resolved

  datatype State = State(
    capacity: nat,
    life: Lifecycle,
    active: nat,
    generation: nat,
    admission: Admission,
    handles: map<nat, nat>,
    tasks: map<nat, Task>,
    submitters: map<nat, Submitter>,
    closers: map<nat, Closer>,
    waiters: map<nat, Waiter>)

  datatype Action =
    | OnTask(task: nat, step: TaskStep)
    | Subscribe(thread: nat)
    | Lock(thread: nat)
    | CheckRunning(thread: nat)
    | CheckCapacity(thread: nat)
    | Increment(thread: nat, task: nat)
    | Reject(thread: nat)
    | Retry(thread: nat)
    | Close(closer: nat, stop: bool)
    | StoreLifecycle(closer: nat)
    | Snapshot(closer: nat)
    | ReleaseAdmission(closer: nat)
    | TakeHandles(closer: nat)
    | EndLoop(closer: nat)
    | BumpCapacity(closer: nat)
    | NotifyWaiters(closer: nat)
    | Await(waiter: nat)
    | Enable(waiter: nat)
    | LoadLifecycle(waiter: nat)
    | ReadCount(waiter: nat)
    | Resume(waiter: nat)

  predicate IsTerminated(s: State) {
    !s.life.Running? && s.active == 0
  }

  function Initial(capacity: nat): State {
    State(capacity, Running, 0, 0, Free, map[], map[], map[], map[], map[])
  }

  /** notify_waiters fires exactly the enabled notifications. */
  function WakeWaiter(w: Waiter): Waiter {
    match w
    case Loading(_) => Loading(true)
    case Reading(seen, _) => Reading(seen, true)
    case Parked(_) => Parked(true)
    case _ => w
  }

  function WokenWaiters(m: map<nat, Waiter>): map<nat, Waiter> {
    map w | w in m :: WakeWaiter(m[w])
  }

  predicate AddressIsFree(s: State, addr: nat) {
    forall u :: u in s.tasks && Live(s.tasks[u]) ==> s.tasks[u].addr != addr
  }

  predicate CanStepTask(s: State, t: nat, a: TaskStep) {
    && t in s.tasks
    && CanStep(s.tasks[t], a)
    && (IsAllocate(a) ==> AddressIsFree(s, a.submitter.addr))
  }

  function HandlesAfter(h: map<nat, nat>, t: nat, k: Task, a: TaskStep): map<nat, nat> {
    if a == BySubmitter(Register) && !k.finished && !k.job.Gone? then h[k.addr := t]
    else if a == OnGuard(GuardRemove) then h - {k.addr}
    else h
  }

  function ClosersAfter(c: map<nat, Closer>, t: nat, k: Task, a: TaskStep): map<nat, Closer> {
    if a == ByAbort(StopAbort) && k.entry.ToAbort? && k.entry.closer in c then
      var cl := c[k.entry.closer];
      c[k.entry.closer := cl.(cancelled := cl.cancelled + 1, counted := cl.counted + {t})]
    else c
  }

  /** An atomic count wraps at zero; the invariant shows that it never gets there. */
  function Pred(n: nat): nat {
    if n == 0 then 0xffff_ffff_ffff_ffff else n - 1
  }

  function StepTask(s: State, t: nat, a: TaskStep): State
    requires CanStepTask(s, t, a)
  {
    var k := s.tasks[t];
    s.(tasks := s.tasks[t := Step(k, a)],
       active := if a == OnGuard(Decrement) then Pred(s.active) else s.active,
       handles := HandlesAfter(s.handles, t, k, a),
       closers := ClosersAfter(s.closers, t, k, a),
       admission := if a == BySubmitter(Unlock) then Free else s.admission,
       submitters := if a == BySubmitter(Return) then s.submitters[k.owner := Idle] else s.submitters,
       generation := if a == OnGuard(BumpGeneration) then s.generation + 1 else s.generation,
       waiters := if a == OnGuard(Notify) then WokenWaiters(s.waiters) else s.waiters)
  }

  predicate AtClose(s: State, c: nat, pc: ClosePc) {
    c in s.closers && s.closers[c].pc == pc
  }

  function Occupying(tasks: map<nat, Task>): set<nat> {
    set t | t in tasks && Occupies(tasks[t])
  }

  function TakeEntries(s: State, c: nat): State {
    s.(tasks := map t | t in s.tasks ::
         if t in s.handles.Values then s.tasks[t].(entry := Taken(c)) else s.tasks[t],
       handles := map[])
  }

  function SetClose(s: State, c: nat, pc: ClosePc): State
    requires c in s.closers
  {
    s.(closers := s.closers[c := s.closers[c].(pc := pc)])
  }

  predicate Enabled(s: State, a: Action) {
    match a
    case OnTask(t, x) => CanStepTask(s, t, x)
    case Subscribe(th) => th !in s.submitters || s.submitters[th].Idle?
    case Lock(th) => th in s.submitters && s.submitters[th].Ready? && s.admission.Free?
    case CheckRunning(th) => th in s.submitters && s.submitters[th].Locked?
    case CheckCapacity(th) => th in s.submitters && s.submitters[th].Checked?
    case Increment(th, t) => th in s.submitters && s.submitters[th].HasRoom? && t !in s.tasks
    case Reject(th) => th in s.submitters && (s.submitters[th].Full? || s.submitters[th].Refused?)
    case Retry(th) => th in s.submitters && s.submitters[th].Parking? && s.submitters[th].seen != s.generation
    case Close(c, _) => c !in s.closers && s.admission.Free?
    case StoreLifecycle(c) => AtClose(s, c, Holding)
    case Snapshot(c) => AtClose(s, c, Stored) && s.closers[c].stop
    case ReleaseAdmission(c) => AtClose(s, c, Snapped) || (AtClose(s, c, Stored) && !s.closers[c].stop)
    case TakeHandles(c) => AtClose(s, c, Unlocked)
    case EndLoop(c) => AtClose(s, c, Looping) && forall t :: t in s.tasks ==> !HasEntry(s.tasks[t], c)
    case BumpCapacity(c) => AtClose(s, c, Bumping)
    case NotifyWaiters(c) => AtClose(s, c, Notifying)
    case Await(w) => w !in s.waiters
    case Enable(w) => w in s.waiters && s.waiters[w].Enabling?
    case LoadLifecycle(w) => w in s.waiters && s.waiters[w].Loading?
    case ReadCount(w) => w in s.waiters && s.waiters[w].Reading?
    case Resume(w) => w in s.waiters && s.waiters[w] == Parked(true)
  }

  function Apply(s: State, a: Action): State
    requires Enabled(s, a)
  {
    match a
    case OnTask(t, x) => StepTask(s, t, x)
    case Subscribe(th) => s.(submitters := s.submitters[th := Ready(s.generation)])
    case Lock(th) => s.(admission := Admitted(SubmitterThread(th)),
                        submitters := s.submitters[th := Locked(s.submitters[th].seen)])
    case CheckRunning(th) =>
      s.(submitters := s.submitters[th := if s.life.Running? then Checked(s.submitters[th].seen) else Refused])
    case CheckCapacity(th) =>
      s.(submitters := s.submitters[th := if s.active >= s.capacity then Full(s.submitters[th].seen) else HasRoom])
    case Increment(th, t) =>
      s.(active := s.active + 1, tasks := s.tasks[t := NewTask(th)], submitters := s.submitters[th := Busy(t)])
    case Reject(th) =>
      s.(admission := Free,
         submitters := s.submitters[th := if s.submitters[th].Full? then Parking(s.submitters[th].seen) else Idle])
    case Retry(th) => s.(submitters := s.submitters[th := Ready(s.generation)])
    case Close(c, stop) =>
      s.(admission := Admitted(CloserThread(c)), closers := s.closers[c := Closer(stop, Holding, 0, 0, {}, {})])
    case StoreLifecycle(c) =>
      SetClose(s, c, Stored).(life := if s.closers[c].stop then Stopping else ShutdownOf(s.life))
    case Snapshot(c) =>
      s.(closers := s.closers[c := s.closers[c].(pc := Snapped, running := s.active, snap := Occupying(s.tasks))])
    case ReleaseAdmission(c) => SetClose(s, c, if s.closers[c].stop then Unlocked else Bumping).(admission := Free)
    case TakeHandles(c) => SetClose(TakeEntries(s, c), c, Looping)
    case EndLoop(c) => SetClose(s, c, Bumping)
    case BumpCapacity(c) => SetClose(s, c, Notifying).(generation := s.generation + 1)
    case NotifyWaiters(c) => SetClose(s, c, Reported).(waiters := WokenWaiters(s.waiters))
    case Await(w) => s.(waiters := s.waiters[w := Enabling])
    case Enable(w) => s.(waiters := s.waiters[w := Loading(false)])
    case LoadLifecycle(w) => s.(waiters := s.waiters[w := Reading(s.life, s.waiters[w].woken)])
    case ReadCount(w) =>
      s.(waiters := s.waiters[w :=
           if Derived(s.waiters[w].seen, s.active == 0).Terminated? then Resolved else Parked(s.waiters[w].woken)])
    case Resume(w) => s.(waiters := s.waiters[w := Enabling])
  }

  ghost predicate IsRun(states: seq<State>, actions: seq<Action>) {
    && |states| == |actions| + 1
    && forall i :: 0 <= i < |actions| ==> Enabled(states[i], actions[i]) && states[i + 1] == Apply(states[i], actions[i])
  }

  /** A run of a new service. */
  ghost predicate IsExecution(states: seq<State>, actions: seq<Action>) {
    IsRun(states, actions) && states[0] == Initial(states[0].capacity)
  }
}
