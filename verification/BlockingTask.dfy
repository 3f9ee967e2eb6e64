/** One accepted task of the blocking service, with the program counter of every party that touches it.

    The parties are the submitting thread (`stage`), the Tokio closure (`job`), whoever drops the
    lifecycle guard (`guard`), the winner of a user cancellation (`cancel`) and the `stop` call that
    owns the abort hook (`entry`).  Whoever moves `cas` to finished walks through `release`: the
    monitor section, the generation bump and the two termination notifications.

    A monitor section spans two steps: the first takes the monitor with its first access, the last leaves
    it with its last one. */
module BlockingTask {

  datatype Kind = Runnable | Callable | Tracked

  /** The one-way state of the tracker. */
  datatype Cas = CasQueued | CasRunning | CasFinished

  /** Accepted is still inside the monitor section that reserved the slot. */
  datatype Stage = Accepted | Reserved | Marked | Spawned | Registered | Handoff | Dropping | Sent | Returned

  /** Leaving is inside the monitor section that has counted the start. */
  datatype Job =
    | Unspawned
    | Pending
    | Receiving
    | Starting
    | Counting
    | Leaving
    | Taking
    | Launching
    | UserBody
    | Unwinding
    | Gone

  datatype Guard = WithSubmitter | InChannel | WithWorker | ToMark | ToRemove | ToSwap | Releasing | Dropped

  /** Written is inside the monitor section that has released the count. */
  datatype Release =
    | NotReleased
    | ToWrite(started: bool)
    | Written
    | ToBump(terminated: bool)
    | ToNotifySync
    | ToNotifyAsync
    | Released

  datatype Party = Nobody | ByTheGuard | ByTheHook(closer: nat) | ByTheHandle

  datatype Cancel = NotCancelled | CancelMark | CancelRemove | CancelCas | CancelReleasing | CancelAbort | CancelDone

  /** Where the abort hook of the task is, keyed by task identity. */
  datatype Entry =
    | Unregistered
    | InMap
    | Taken(closer: nat)
    | HookAbort(closer: nat)
    | HookCas(closer: nat)
    | HookReleasing(closer: nat)
    | HookSlot(closer: nat)
    | NoEntry

  /** The result endpoint: Pending to Running to Done, or Pending to Cancelled. */
  datatype Endpoint = EndpointPending | EndpointRunning | EndpointDone | EndpointCancelled

  datatype Task = Task(
    kind: Kind,
    owner: nat,            // submitting thread
    addr: nat,             // address of the registration marker
    finished: bool,        // the marker's completion flag
    cas: Cas,
    stage: Stage,
    job: Job,
    guard: Guard,
    release: Release,
    releasedBy: Party,
    cancel: Cancel,
    entry: Entry,
    slotFull: bool,
    endpoint: Endpoint,
    handle: bool,          // a handle or cancellation endpoint of a tracked task still exists
    aborted: bool,         // Tokio was asked to abort the closure
    won: bool,             // history: mark_started has won the compare-exchange
    ran: bool)             // history: the user body has begun

  /** A task whose slot is just being reserved; its marker and guard do not exist yet. */
  function NewTask(kind: Kind, owner: nat): Task {
    Task(kind, owner, 0, false, CasQueued, Accepted, Unspawned, WithSubmitter, NotReleased, Nobody, NotCancelled,
         Unregistered, true, EndpointPending, kind == Tracked, false, false, false)
  }

  // ----- the tracker's compare-exchange and swap

  /** mark_started: only queued moves, to running. */
  function AfterStart(c: Cas): Cas {
    if c.CasQueued? then CasRunning else c
  }

  /** The answer of mark_started. */
  predicate MayRun(c: Cas) {
    !c.CasFinished?
  }

  /** finish_queued: only queued moves, to finished; the answer is whether it moved. */
  function AfterFinishQueued(c: Cas): Cas {
    if c.CasQueued? then CasFinished else c
  }

  /** finish: the swap tells which count still has to be released. */
  function ReleaseOwed(c: Cas): Release {
    match c
    case CasQueued => ToWrite(false)
    case CasRunning => ToWrite(true)
    case CasFinished => NotReleased
  }

  // ----- what the counts should say about the task

  datatype Phase = Queued | Active | Done

  /** The count that holds the task, including the gap between a tracker transition and its count update. */
  function PhaseOf(k: Task): Phase {
    match k.cas
    case CasQueued => Queued
    case CasRunning => if k.job.Counting? then Queued else Active
    case CasFinished =>
      match k.release
      case ToWrite(started) => if started then Active else Queued
      case _ => Done
  }

  /** Whether some reference to the marker still exists, so that its address cannot be reused. */
  predicate Live(k: Task) {
    && k.stage != Accepted && k.stage != Reserved
    && (k.guard != Dropped || !(k.entry == Unregistered || k.entry == NoEntry) || k.handle)
  }

  /** Stages in which the submitting thread holds admission. */
  predicate InAdmission(k: Task) {
    k.stage == Accepted || k.stage == Reserved || k.stage == Marked || k.stage == Spawned || k.stage == Registered
  }

  predicate HasHook(k: Task, c: nat) {
    match k.entry
    case Taken(d) => d == c
    case HookAbort(d) => d == c
    case HookCas(d) => d == c
    case HookReleasing(d) => d == c
    case HookSlot(d) => d == c
    case _ => false
  }

  /** The stop call c is working on this entry. */
  predicate Engaged(k: Task, c: nat) {
    HasHook(k, c) && !k.entry.Taken?
  }

  // ----- steps

  /** The submitting thread, from the reservation of a slot to the return of the submission. */
  datatype SubmitterAct = LeaveAccept | Allocate(addr: nat) | Spawn(closed: bool) | Register | Unlock | Send | Return

  /** Tokio's blocking pool, which runs the closure at most once or drops it unstarted. */
  datatype JobAct =
    | StartJob | Receive | MarkCas | MarkCount | LeaveCount | TakeSlot | Launch | EndBody | DropJob | EndJob

  /** The drop of the lifecycle guard, wherever the guard is. */
  datatype GuardAct = GuardMark | GuardRemove | GuardSwap | GuardDone

  /** The accounting that follows a transition to finished. */
  datatype ReleaseAct = WriteCounts | LeaveWrite(verdict: bool) | BumpGeneration | WakeSync | WakeAsync

  /** A cancellation through a tracked handle. */
  datatype CancelAct =
    | CancelWin
    | CancelMarkFinished
    | CancelRemoveEntry
    | CancelCompare
    | CancelReleased
    | CancelAbortJob
    | DropHandle

  /** The stop call that took the entry. */
  datatype HookAct = HookCheck | HookAbortJob | HookCompare | HookReleased | HookCancelSlot

  datatype TaskStep =
    | BySubmitter(submitter: SubmitterAct)
    | ByJob(job: JobAct)
    | OnGuard(guard: GuardAct)
    | OnRelease(release: ReleaseAct)
    | ByCancel(cancel: CancelAct)
    | ByStop(hook: HookAct)

  predicate CanSubmit(k: Task, a: SubmitterAct) {
    match a
    case LeaveAccept => k.stage.Accepted?
    case Allocate(_) => k.stage.Reserved?
    case Spawn(_) => k.stage.Marked?
    case Register => k.stage.Spawned?
    case Unlock => k.stage.Registered?
    case Send => k.stage.Handoff?
    case Return => k.stage.Sent? || (k.stage.Dropping? && k.guard.Dropped?)
  }

  predicate CanWork(k: Task, a: JobAct) {
    match a
    case StartJob => k.job.Pending?
    case Receive => k.job.Receiving? && k.guard.InChannel?
    case MarkCas => k.job.Starting?
    case MarkCount => k.job.Counting?
    case LeaveCount => k.job.Leaving?
    case TakeSlot => k.job.Taking?
    case Launch => k.job.Launching?
    case EndBody => k.job.UserBody?
    case DropJob => k.job.Pending?
    case EndJob => k.job.Unwinding? && k.guard.Dropped?
  }

  predicate CanDrop(k: Task, a: GuardAct) {
    match a
    case GuardMark => k.guard.ToMark?
    case GuardRemove => k.guard.ToRemove?
    case GuardSwap => k.guard.ToSwap?
    case GuardDone => k.guard.Releasing? && k.release.Released?
  }

  predicate CanRelease(k: Task, a: ReleaseAct) {
    match a
    case WriteCounts => k.release.ToWrite?
    case LeaveWrite(_) => k.release.Written?
    case BumpGeneration => k.release.ToBump?
    case WakeSync => k.release.ToNotifySync?
    case WakeAsync => k.release.ToNotifyAsync?
  }

  predicate CanCancel(k: Task, a: CancelAct) {
    match a
    case CancelWin => k.kind.Tracked? && k.handle && k.stage.Returned? && k.endpoint.EndpointPending?
    case CancelMarkFinished => k.cancel.CancelMark?
    case CancelRemoveEntry => k.cancel.CancelRemove?
    case CancelCompare => k.cancel.CancelCas?
    case CancelReleased => k.cancel.CancelReleasing? && k.release.Released?
    case CancelAbortJob => k.cancel.CancelAbort?
    case DropHandle => k.handle && k.stage.Returned? && (k.cancel.NotCancelled? || k.cancel.CancelDone?)
  }

  predicate CanHook(k: Task, a: HookAct) {
    match a
    case HookCheck => k.entry.Taken?
    case HookAbortJob => k.entry.HookAbort?
    case HookCompare => k.entry.HookCas?
    case HookReleased => k.entry.HookReleasing? && k.release.Released?
    case HookCancelSlot => k.entry.HookSlot?
  }

  predicate CanStep(k: Task, a: TaskStep) {
    match a
    case BySubmitter(x) => CanSubmit(k, x)
    case ByJob(x) => CanWork(k, x)
    case OnGuard(x) => CanDrop(k, x)
    case OnRelease(x) => CanRelease(k, x)
    case ByCancel(x) => CanCancel(k, x)
    case ByStop(x) => CanHook(k, x)
  }

  function Submit(k: Task, a: SubmitterAct): Task {
    match a
    case LeaveAccept => k.(stage := Reserved)
    case Allocate(addr) => k.(stage := Marked, addr := addr)
    case Spawn(closed) => k.(stage := Spawned, job := if closed then Gone else Pending)
    case Register =>
      k.(stage := Registered, entry := if !k.finished && !k.job.Gone? then InMap else NoEntry)
    case Unlock => k.(stage := Handoff)
    case Send =>
      // the send fails iff the receiver is gone; the payload is then dropped here
      if k.job.Gone? then k.(stage := Dropping, guard := ToMark) else k.(stage := Sent, guard := InChannel)
    case Return => k.(stage := Returned)
  }

  function Work(k: Task, a: JobAct): Task {
    match a
    case StartJob => k.(job := Receiving)
    case Receive => k.(job := Starting, guard := WithWorker)
    case MarkCas =>
      if !MayRun(k.cas) then k.(job := Unwinding, guard := ToMark)
      else if k.cas.CasQueued? then k.(cas := AfterStart(k.cas), won := true, job := Counting)
      else k.(job := Taking)
    case MarkCount => k.(job := Leaving)
    case LeaveCount => k.(job := Taking)
    case TakeSlot =>
      if k.kind.Runnable? then k.(job := UserBody, ran := true)
      else if k.slotFull then k.(slotFull := false, job := Launching)
      else k.(job := Unwinding, guard := ToMark)
    case Launch =>
      if k.endpoint.EndpointPending? then k.(endpoint := EndpointRunning, job := UserBody, ran := true)
      else k.(job := Unwinding, guard := ToMark)
    case EndBody =>
      k.(job := Unwinding, guard := ToMark, endpoint := if k.kind.Runnable? then k.endpoint else EndpointDone)
    case DropJob =>
      // dropping the receiver drops a delivered payload
      if k.guard.InChannel? then k.(job := Unwinding, guard := ToMark) else k.(job := Gone)
    case EndJob => k.(job := Gone)
  }

  /** The task's own entry leaves the identity-keyed table. */
  function Unlisted(e: Entry): Entry {
    if e.InMap? then NoEntry else e
  }

  function DropGuard(k: Task, a: GuardAct): Task {
    match a
    case GuardMark => k.(guard := ToRemove, finished := true)
    case GuardRemove => k.(guard := ToSwap, entry := Unlisted(k.entry))
    case GuardSwap =>
      if ReleaseOwed(k.cas).NotReleased? then k.(guard := Dropped)
      else k.(cas := CasFinished, release := ReleaseOwed(k.cas), releasedBy := ByTheGuard, guard := Releasing)
    case GuardDone => k.(guard := Dropped)
  }

  function ReleaseStep(k: Task, a: ReleaseAct): Task
    requires CanRelease(k, a)
  {
    match a
    case WriteCounts => k.(release := Written)
    case LeaveWrite(verdict) => k.(release := ToBump(verdict))
    case BumpGeneration => k.(release := if k.release.terminated then ToNotifySync else Released)
    case WakeSync => k.(release := ToNotifyAsync)
    case WakeAsync => k.(release := Released)
  }

  function CancelTask(k: Task, a: CancelAct): Task {
    match a
    case CancelWin => k.(endpoint := EndpointCancelled, cancel := CancelMark)
    case CancelMarkFinished => k.(cancel := CancelRemove, finished := true)
    case CancelRemoveEntry => k.(cancel := CancelCas, entry := Unlisted(k.entry))
    case CancelCompare =>
      if k.cas.CasQueued? then
        k.(cas := AfterFinishQueued(k.cas), release := ToWrite(false), releasedBy := ByTheHandle,
           cancel := CancelReleasing)
      else k.(cancel := CancelAbort)
    case CancelReleased => k.(cancel := CancelAbort)
    case CancelAbortJob => k.(cancel := CancelDone, aborted := true)
    case DropHandle => k.(handle := false)
  }

  function RunHook(k: Task, a: HookAct): Task
    requires CanHook(k, a)
  {
    match a
    case HookCheck => k.(entry := if k.job.Gone? then NoEntry else HookAbort(k.entry.closer))
    case HookAbortJob => k.(entry := HookCas(k.entry.closer), aborted := true)
    case HookCompare =>
      if k.cas.CasQueued? then
        k.(cas := AfterFinishQueued(k.cas), release := ToWrite(false), releasedBy := ByTheHook(k.entry.closer),
           entry := HookReleasing(k.entry.closer))
      else k.(entry := NoEntry)
    case HookReleased => k.(entry := HookSlot(k.entry.closer))
    case HookCancelSlot =>
      if k.kind.Runnable? then k.(entry := NoEntry)
      else k.(entry := NoEntry, slotFull := false, endpoint := CancelUnstarted(k.slotFull, k.endpoint))
  }

  /** Cancelling the slot publishes the cancellation only if the slot was still there and still pending. */
  function CancelUnstarted(slotFull: bool, endpoint: Endpoint): Endpoint {
    if slotFull && endpoint.EndpointPending? then EndpointCancelled else endpoint
  }

  /** The task after one atomic step. */
  function Step(k: Task, a: TaskStep): Task
    requires CanStep(k, a)
  {
    match a
    case BySubmitter(x) => Submit(k, x)
    case ByJob(x) => Work(k, x)
    case OnGuard(x) => DropGuard(k, x)
    case OnRelease(x) => ReleaseStep(k, x)
    case ByCancel(x) => CancelTask(k, x)
    case ByStop(x) => RunHook(k, x)
  }

  // ----- threads and the monitor

  /** The thread that takes a step; a pool thread and a cancelling thread are named by their task. */
  datatype Actor =
    | SubmitterThread(thread: nat)
    | CloserThread(closer: nat)
    | PoolThread(task: nat)
    | HandleThread(task: nat)
    | FutureThread(waiter: nat)
    | WaiterThread(waiter: nat)

  /** The program counter through which a thread is inside the monitor. */
  datatype Section =
    | OfTask(task: nat)
    | OfSubmitter(thread: nat)
    | OfCloser(closer: nat)
    | OfAsync(waiter: nat)
    | OfSync(waiter: nat)

  /** Who holds the monitor of the counts. */
  datatype Monitor = Vacant | HeldBy(owner: Actor, section: Section)

  /** Whoever drops the guard: Tokio's pool, or the submitting thread after a failed send. */
  function GuardDropper(t: nat, k: Task): Actor {
    if k.job.Unwinding? then PoolThread(t) else SubmitterThread(k.owner)
  }

  /** Whoever releases the accounting. */
  function Releaser(t: nat, k: Task): Actor {
    match k.releasedBy
    case ByTheHook(c) => CloserThread(c)
    case ByTheHandle => HandleThread(t)
    case _ => GuardDropper(t, k)
  }

  function TaskActor(t: nat, k: Task, a: TaskStep): Actor
    requires CanStep(k, a)
  {
    match a
    case BySubmitter(_) => SubmitterThread(k.owner)
    case ByJob(_) => PoolThread(t)
    case OnGuard(_) => GuardDropper(t, k)
    case OnRelease(_) => Releaser(t, k)
    case ByCancel(_) => HandleThread(t)
    case ByStop(_) => CloserThread(k.entry.closer)
  }

  /** The monitor as the program counters of this task say it is held. */
  function TaskSection(t: nat, k: Task): Monitor {
    if k.stage.Accepted? then HeldBy(SubmitterThread(k.owner), OfTask(t))
    else if k.job.Leaving? then HeldBy(PoolThread(t), OfTask(t))
    else if k.release.Written? then HeldBy(Releaser(t, k), OfTask(t))
    else Vacant
  }

  /** The first steps of the sections of a task. */
  predicate TakesMonitor(a: TaskStep) {
    a == ByJob(MarkCount) || a == OnRelease(WriteCounts)
  }

  /** The last steps of the sections of a task. */
  predicate LeavesMonitor(a: TaskStep) {
    a == BySubmitter(LeaveAccept) || a == ByJob(LeaveCount) || (a.OnRelease? && a.release.LeaveWrite?)
  }

  // ----- what holds of every task at all times

  /** The closure won mark_started and has not begun to unwind. */
  predicate Started(j: Job) {
    j.Counting? || j.Leaving? || j.Taking? || j.Launching? || j.UserBody?
  }

  /** The guard is being dropped and has not passed the removal of the map entry. */
  predicate BeforeRemoval(g: Guard) {
    g.ToMark? || g.ToRemove?
  }

  predicate AfterRemoval(g: Guard) {
    g.ToSwap? || g.Releasing? || g.Dropped?
  }

  ghost predicate StagesAgree(k: Task) {
    && (k.stage.Accepted? || k.stage.Reserved? || k.stage.Marked? <==> k.job.Unspawned?)
    && (k.guard.WithSubmitter? <==> InAdmission(k) || k.stage.Handoff?)
    && (k.guard.InChannel? ==> k.job.Pending? || k.job.Receiving?)
    && (k.guard.WithWorker? <==> k.job.Starting? || Started(k.job))
    && (k.guard.WithSubmitter? ==> k.job.Unspawned? || k.job.Pending? || k.job.Receiving? || k.job.Gone?)
    && (k.job.Unwinding? ==> BeforeRemoval(k.guard) || AfterRemoval(k.guard))
    && (k.stage.Dropping? ==> k.job.Gone?)
    && (BeforeRemoval(k.guard) || k.guard.ToSwap? || k.guard.Releasing? ==> k.job.Unwinding? || k.stage.Dropping?)
    && (k.job.Gone? ==> k.guard.WithSubmitter? || k.stage.Dropping? || k.guard.Dropped?)
  }

  ghost predicate EntryAgrees(k: Task) {
    && (k.entry.Unregistered? <==> k.stage.Accepted? || k.stage.Reserved? || k.stage.Marked? || k.stage.Spawned?)
    && (k.finished ==> k.guard.ToRemove? || AfterRemoval(k.guard) || !(k.cancel.NotCancelled? || k.cancel.CancelMark?))
    && (k.entry.InMap? ==> !AfterRemoval(k.guard) && (k.cancel.NotCancelled? || k.cancel.CancelMark? || k.cancel.CancelRemove?))
    && (k.entry.InMap? && k.finished ==> k.guard.ToRemove? || k.cancel.CancelRemove?)
    && (!k.cancel.NotCancelled? ==> k.stage.Returned?)
  }

  ghost predicate CasAgrees(k: Task) {
    && (k.cas.CasQueued? ==> !k.won && !Started(k.job) && !k.guard.Releasing? && !k.guard.Dropped?)
    && (k.cas.CasRunning? ==> k.won && (Started(k.job) || (k.job.Unwinding? && (BeforeRemoval(k.guard) || k.guard.ToSwap?))))
    && (k.cas.CasFinished? <==> !k.release.NotReleased?)
    && (k.cas.CasFinished? <==> !k.releasedBy.Nobody?)
    && (Started(k.job) ==> k.cas.CasRunning?)
    && (k.won ==> Started(k.job) || k.job.Unwinding? || k.job.Gone?)
    && (k.release.ToWrite? ==> k.release.started == k.won)
    && (k.won && k.cas.CasFinished? ==> k.releasedBy.ByTheGuard?)
  }

  ghost predicate ReleaseAgrees(k: Task) {
    && (k.releasedBy.ByTheGuard? ==> k.guard.Releasing? || (k.guard.Dropped? && k.release.Released?))
    && (k.guard.Releasing? ==> k.releasedBy.ByTheGuard?)
    && (k.releasedBy.ByTheHandle? ==>
          k.cancel.CancelReleasing? || (k.release.Released? && (k.cancel.CancelAbort? || k.cancel.CancelDone?)))
    && (k.cancel.CancelReleasing? ==> k.releasedBy.ByTheHandle?)
    && (k.releasedBy.ByTheHook? ==>
          k.entry == HookReleasing(k.releasedBy.closer)
          || (k.release.Released? && (k.entry == HookSlot(k.releasedBy.closer) || k.entry.NoEntry?)))
    && (k.entry.HookReleasing? || k.entry.HookSlot? ==> k.releasedBy == ByTheHook(k.entry.closer))
  }

  ghost predicate SlotAgrees(k: Task) {
    && (k.job.Launching? ==> !k.kind.Runnable?)
    && (!k.kind.Runnable? ==>
          (k.slotFull <==> !((k.won && !k.job.Counting? && !k.job.Leaving? && !k.job.Taking?)
                             || (k.releasedBy.ByTheHook? && k.entry.NoEntry?))))
    && (k.job.UserBody? ==> k.ran)
    && (k.ran ==> k.won && (k.job.UserBody? || k.job.Unwinding? || k.job.Gone?))
    && (!k.kind.Runnable? ==> (k.endpoint.EndpointRunning? <==> k.job.UserBody?))
    && (!k.kind.Runnable? ==> (k.ran <==> k.endpoint.EndpointRunning? || k.endpoint.EndpointDone?))
    && (k.kind.Runnable? ==> k.endpoint.EndpointPending?)
    && (!k.cancel.NotCancelled? ==> k.kind.Tracked? && k.endpoint.EndpointCancelled?)
    && (k.endpoint.EndpointCancelled? ==> !k.cancel.NotCancelled? || k.releasedBy.ByTheHook?)
    && (k.releasedBy.ByTheHook? && k.entry.NoEntry? && !k.kind.Runnable? ==> k.endpoint.EndpointCancelled?)
    && (k.handle ==> k.kind.Tracked?)
    && (!k.cancel.NotCancelled? && !k.cancel.CancelDone? ==> k.handle)
  }

  /** The user body has not begun and never will. */
  predicate NeverRuns(k: Task) {
    && !k.ran
    && (k.endpoint.EndpointCancelled? || k.job.Unwinding? || k.job.Gone? || (k.cas.CasFinished? && !k.won))
  }

  /** A task whose hook is out of the reach of every later stop has started or never runs. */
  ghost predicate CutOffAgrees(k: Task) {
    && (k.entry.NoEntry? ==> k.won || NeverRuns(k))
    && (k.releasedBy.ByTheHook? ==> !k.won)
  }

  ghost predicate TaskInv(k: Task) {
    && StagesAgree(k)
    && EntryAgrees(k)
    && CasAgrees(k)
    && ReleaseAgrees(k)
    && SlotAgrees(k)
    && CutOffAgrees(k)
  }

  lemma NewTaskInv(kind: Kind, owner: nat)
    ensures TaskInv(NewTask(kind, owner)) && PhaseOf(NewTask(kind, owner)) == Queued && !Live(NewTask(kind, owner))
    ensures InAdmission(NewTask(kind, owner))
  {
  }

  lemma PreparingKeepsTaskInv(k: Task, a: SubmitterAct)
    requires TaskInv(k) && CanSubmit(k, a) && (a.LeaveAccept? || a.Allocate? || a.Spawn? || a.Register?)
    ensures TaskInv(Submit(k, a))
  {
    if a.Register? {
      if k.job.Gone? {}
    }
  }

  lemma HandingKeepsTaskInv(k: Task, a: SubmitterAct)
    requires TaskInv(k) && CanSubmit(k, a) && (a.Unlock? || a.Send? || a.Return?)
    ensures TaskInv(Submit(k, a))
  {
    if a.Send? {
      if k.job.Gone? {}
    }
  }

  lemma SubmitKeepsTaskInv(k: Task, a: SubmitterAct)
    requires TaskInv(k) && CanSubmit(k, a)
    ensures TaskInv(Submit(k, a))
  {
    hide TaskInv, Submit, CanSubmit;
    if a.Unlock? || a.Send? || a.Return? {
      HandingKeepsTaskInv(k, a);
    } else {
      PreparingKeepsTaskInv(k, a);
    }
  }

  /** The part of the closure's life in which it becomes a started task. */
  predicate IsStarting(a: JobAct) {
    a.StartJob? || a.Receive? || a.MarkCas? || a.MarkCount? || a.LeaveCount?
  }

  lemma StartingKeepsTaskInv(k: Task, a: JobAct)
    requires TaskInv(k) && CanWork(k, a) && IsStarting(a)
    ensures TaskInv(Work(k, a))
  {
    if a.MarkCas? {
      if MayRun(k.cas) {}
    }
  }

  lemma RunningKeepsTaskInv(k: Task, a: JobAct)
    requires TaskInv(k) && CanWork(k, a) && (a.TakeSlot? || a.Launch?)
    ensures TaskInv(Work(k, a))
  {
    if a.TakeSlot? {
      if k.kind.Runnable? {}
    } else {
      if k.endpoint.EndpointPending? {}
    }
  }

  lemma EndingKeepsTaskInv(k: Task, a: JobAct)
    requires TaskInv(k) && CanWork(k, a) && (a.EndBody? || a.DropJob? || a.EndJob?)
    ensures TaskInv(Work(k, a))
  {
    match a
    case EndBody => if k.kind.Runnable? {}
    case DropJob => if k.guard.InChannel? {}
    case EndJob =>
  }

  lemma WorkKeepsTaskInv(k: Task, a: JobAct)
    requires TaskInv(k) && CanWork(k, a)
    ensures TaskInv(Work(k, a))
  {
    hide TaskInv, Work, CanWork;
    if IsStarting(a) {
      StartingKeepsTaskInv(k, a);
    } else if a.TakeSlot? || a.Launch? {
      RunningKeepsTaskInv(k, a);
    } else {
      EndingKeepsTaskInv(k, a);
    }
  }

  lemma EmptySwapKeepsTaskInv(k: Task)
    requires TaskInv(k) && k.guard.ToSwap? && k.cas.CasFinished?
    ensures TaskInv(DropGuard(k, GuardSwap))
  {
    var k' := DropGuard(k, GuardSwap);
    assert k' == k.(guard := Dropped);
    hide DropGuard;
    assert !k.releasedBy.ByTheGuard? && !k.won;
    assert StagesAgree(k') && EntryAgrees(k');
  }

  lemma SwapKeepsTaskInv(k: Task)
    requires TaskInv(k) && k.guard.ToSwap? && !k.cas.CasFinished?
    ensures TaskInv(DropGuard(k, GuardSwap))
  {
    var k' := DropGuard(k, GuardSwap);
    assert k' == k.(cas := CasFinished, release := ToWrite(k.cas.CasRunning?), releasedBy := ByTheGuard,
                    guard := Releasing);
    hide DropGuard;
    assert StagesAgree(k') && EntryAgrees(k');
    assert k.cas.CasRunning? <==> k.won;
  }

  lemma UnlistKeepsTaskInv(k: Task, a: GuardAct)
    requires TaskInv(k) && CanDrop(k, a) && !a.GuardSwap?
    ensures TaskInv(DropGuard(k, a))
  {
    if a.GuardRemove? {
      if k.entry.InMap? {}
    }
  }

  lemma DropGuardKeepsTaskInv(k: Task, a: GuardAct)
    requires TaskInv(k) && CanDrop(k, a)
    ensures TaskInv(DropGuard(k, a))
  {
    hide TaskInv, DropGuard;
    if a.GuardSwap? && k.cas.CasFinished? {
      EmptySwapKeepsTaskInv(k);
    } else if a.GuardSwap? {
      SwapKeepsTaskInv(k);
    } else {
      UnlistKeepsTaskInv(k, a);
    }
  }

  lemma ReleaseStepKeepsTaskInv(k: Task, a: ReleaseAct)
    requires TaskInv(k) && CanRelease(k, a)
    ensures TaskInv(ReleaseStep(k, a))
  {
  }

  lemma CancelTaskKeepsTaskInv(k: Task, a: CancelAct)
    requires TaskInv(k) && CanCancel(k, a)
    ensures TaskInv(CancelTask(k, a))
  {
    match a
    case CancelRemoveEntry => if k.entry.InMap? {}
    case CancelCompare => if k.cas.CasQueued? {}
    case _ =>
  }

  lemma AbortKeepsTaskInv(k: Task, a: HookAct)
    requires TaskInv(k) && CanHook(k, a) && (a.HookCheck? || a.HookAbortJob? || a.HookCompare?)
    ensures TaskInv(RunHook(k, a))
  {
    match a
    case HookCheck => if k.job.Gone? {}
    case HookCompare => if k.cas.CasQueued? {}
    case HookAbortJob =>
  }

  lemma HookEndKeepsTaskInv(k: Task, a: HookAct)
    requires TaskInv(k) && CanHook(k, a) && (a.HookReleased? || a.HookCancelSlot?)
    ensures TaskInv(RunHook(k, a))
  {
    if a.HookCancelSlot? {
      if k.kind.Runnable? {} else if k.endpoint.EndpointPending? {}
    }
  }

  lemma RunHookKeepsTaskInv(k: Task, a: HookAct)
    requires TaskInv(k) && CanHook(k, a)
    ensures TaskInv(RunHook(k, a))
  {
    hide TaskInv, RunHook, CanHook;
    if a.HookReleased? || a.HookCancelSlot? {
      HookEndKeepsTaskInv(k, a);
    } else {
      AbortKeepsTaskInv(k, a);
    }
  }
}
