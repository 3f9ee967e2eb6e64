/** One accepted future of the IO service, with the program counter of every party that touches it. */
module IoTask {

  datatype Stage = Reserved | Marked | Spawned | Registered | Handoff | Dropping | Sent | Returned

  /** The Tokio task that was registered under admission. */
  datatype Job = Unspawned | Waiting | Polling | Unwinding | Gone

  /** Where the user future is; it lives until it is destroyed. */
  datatype Future = WithSubmitter | InChannel | InTask | BeingDropped | Destroyed

  /** The capacity guard, whose drop removes the entry, decrements the count and notifies. */
  datatype Guard = Held | ToMark | ToRemove | ToDecrement | ToBump | ToNotify | Released

  datatype Entry = Unregistered | InMap | Taken(closer: nat) | ToAbort(closer: nat) | NoEntry

  /** History: the stop call that counted the task as cancelled. */
  datatype Counter = Uncounted | CountedBy(closer: nat)

  datatype Task = Task(
    owner: nat,
    addr: nat,
    finished: bool,
    stage: Stage,
    job: Job,
    future: Future,
    guard: Guard,
    entry: Entry,
    aborted: bool,
    counter: Counter)

  function NewTask(owner: nat): Task {
    Task(owner, 0, false, Reserved, Unspawned, WithSubmitter, Held, Unregistered, false, Uncounted)
  }

  /** The task occupies a slot of the active count. */
  predicate Occupies(k: Task) {
    k.guard.Held? || k.guard.ToMark? || k.guard.ToRemove? || k.guard.ToDecrement?
  }

  predicate Alive(k: Task) {
    !k.future.Destroyed?
  }

  predicate Live(k: Task) {
    !k.stage.Reserved? && (!k.guard.Released? || k.entry.InMap? || k.entry.Taken? || k.entry.ToAbort?)
  }

  predicate InAdmission(k: Task) {
    k.stage.Reserved? || k.stage.Marked? || k.stage.Spawned? || k.stage.Registered?
  }

  predicate HasEntry(k: Task, c: nat) {
    (k.entry.Taken? && k.entry.closer == c) || (k.entry.ToAbort? && k.entry.closer == c)
  }

  datatype SubmitterAct = Allocate(addr: nat) | Spawn(closed: bool) | Register | Unlock | Send | Return

  /** Tokio may drop the task whenever it has been aborted or the runtime closes, also while it is polled. */
  datatype JobAct = Receive | Complete | DropJob | Destroy | EndJob

  datatype GuardAct = GuardMark | GuardRemove | Decrement | BumpGeneration | Notify

  /** The user's handle, and the stop call that took the entry. */
  datatype AbortAct = UserAbort | StopCheck | StopAbort

  datatype TaskStep =
    | BySubmitter(submitter: SubmitterAct)
    | ByJob(job: JobAct)
    | OnGuard(guard: GuardAct)
    | ByAbort(abort: AbortAct)

  predicate CanSubmit(k: Task, a: SubmitterAct) {
    match a
    case Allocate(_) => k.stage.Reserved?
    case Spawn(_) => k.stage.Marked?
    case Register => k.stage.Spawned?
    case Unlock => k.stage.Registered?
    case Send => k.stage.Handoff?
    case Return => k.stage.Sent? || (k.stage.Dropping? && k.guard.Released?)
  }

  predicate CanWork(k: Task, a: JobAct) {
    match a
    case Receive => k.job.Waiting? && k.future.InChannel?
    case Complete => k.job.Polling?
    case DropJob => k.job.Waiting? || k.job.Polling?
    case Destroy => k.future.BeingDropped?
    case EndJob => k.job.Unwinding? && k.guard.Released?
  }

  predicate CanDrop(k: Task, a: GuardAct) {
    match a
    case GuardMark => k.guard.ToMark?
    case GuardRemove => k.guard.ToRemove?
    case Decrement => k.guard.ToDecrement?
    case BumpGeneration => k.guard.ToBump?
    case Notify => k.guard.ToNotify?
  }

  predicate CanAbort(k: Task, a: AbortAct) {
    match a
    case UserAbort => k.stage.Returned?
    case StopCheck => k.entry.Taken?
    case StopAbort => k.entry.ToAbort?
  }

  predicate CanStep(k: Task, a: TaskStep) {
    match a
    case BySubmitter(x) => CanSubmit(k, x)
    case ByJob(x) => CanWork(k, x)
    case OnGuard(x) => CanDrop(k, x)
    case ByAbort(x) => CanAbort(k, x)
  }

  function Submit(k: Task, a: SubmitterAct): Task {
    match a
    case Allocate(addr) => k.(stage := Marked, addr := addr)
    case Spawn(closed) => k.(stage := Spawned, job := if closed then Gone else Waiting)
    case Register => k.(stage := Registered, entry := if !k.finished && !k.job.Gone? then InMap else NoEntry)
    case Unlock => k.(stage := Handoff)
    case Send =>
      // the send fails iff the receiver is gone; the payload is then dropped here
      if k.job.Gone? then k.(stage := Dropping, future := BeingDropped) else k.(stage := Sent, future := InChannel)
    case Return => k.(stage := Returned)
  }

  function Work(k: Task, a: JobAct): Task {
    match a
    case Receive => k.(job := Polling, future := InTask)
    case Complete => k.(job := Unwinding, future := BeingDropped)
    case DropJob =>
      // dropping the receiver drops a delivered payload
      if k.future.WithSubmitter? then k.(job := Gone) else k.(job := Unwinding, future := BeingDropped)
    case Destroy =>
      // the user future is the first field of the guarded future, the guard the second
      k.(future := Destroyed, guard := ToMark)
    case EndJob => k.(job := Gone)
  }

  function Unlisted(e: Entry): Entry {
    if e.InMap? then NoEntry else e
  }

  function DropGuard(k: Task, a: GuardAct): Task {
    match a
    case GuardMark => k.(guard := ToRemove, finished := true)
    case GuardRemove => k.(guard := ToDecrement, entry := Unlisted(k.entry))
    case Decrement => k.(guard := ToBump)
    case BumpGeneration => k.(guard := ToNotify)
    case Notify => k.(guard := Released)
  }

  function AbortTask(k: Task, a: AbortAct): Task
    requires CanAbort(k, a)
  {
    match a
    case UserAbort => k.(aborted := true)
    case StopCheck => k.(entry := if k.job.Gone? then NoEntry else ToAbort(k.entry.closer))
    case StopAbort => k.(entry := NoEntry, aborted := true, counter := CountedBy(k.entry.closer))
  }

  function Step(k: Task, a: TaskStep): Task
    requires CanStep(k, a)
  {
    match a
    case BySubmitter(x) => Submit(k, x)
    case ByJob(x) => Work(k, x)
    case OnGuard(x) => DropGuard(k, x)
    case ByAbort(x) => AbortTask(k, x)
  }

  // ----- threads

  /** The thread that takes a step; a runtime thread and an aborting thread are named by their task. */
  datatype Actor =
    | SubmitterThread(thread: nat)
    | CloserThread(closer: nat)
    | RuntimeThread(task: nat)
    | HandleThread(task: nat)
    | FutureThread(waiter: nat)

  /** Whoever drops the guarded future: the runtime, or the submitting thread after a failed send. */
  function PayloadDropper(t: nat, k: Task): Actor {
    if k.stage.Dropping? then SubmitterThread(k.owner) else RuntimeThread(t)
  }

  function TaskActor(t: nat, k: Task, a: TaskStep): Actor
    requires CanStep(k, a)
  {
    match a
    case BySubmitter(_) => SubmitterThread(k.owner)
    case ByJob(x) => if x.Destroy? then PayloadDropper(t, k) else RuntimeThread(t)
    case OnGuard(_) => PayloadDropper(t, k)
    case ByAbort(x) => if x.UserAbort? then HandleThread(t) else CloserThread(k.entry.closer)
  }

  // ----- what holds of every task at all times

  ghost predicate TaskInv(k: Task) {
    && (k.stage.Reserved? || k.stage.Marked? <==> k.job.Unspawned?)
    && (k.future.WithSubmitter? <==> InAdmission(k) || k.stage.Handoff?)
    && (k.future.WithSubmitter? ==> k.job.Unspawned? || k.job.Waiting? || k.job.Gone?)
    && (k.future.InChannel? ==> k.job.Waiting?)
    && (k.future.InTask? <==> k.job.Polling?)
    && (k.future.BeingDropped? || (k.future.Destroyed? && !k.guard.Released?) ==> k.job.Unwinding? || k.stage.Dropping?)
    && (k.job.Unwinding? ==> k.future.BeingDropped? || k.future.Destroyed?)
    && (k.job.Waiting? ==> k.future.WithSubmitter? || k.future.InChannel?)
    && (k.stage.Dropping? ==> k.job.Gone? && (k.future.BeingDropped? || k.future.Destroyed?))
    && (k.job.Gone? ==> k.future.WithSubmitter? || k.stage.Dropping? || k.guard.Released?)
    // the guard is dropped after the user future
    && (k.guard.Held? <==> !k.future.Destroyed?)
    && (k.entry.Unregistered? <==> k.stage.Reserved? || k.stage.Marked? || k.stage.Spawned?)
    && (k.finished <==> !k.guard.Held? && !k.guard.ToMark?)
    && (k.entry.InMap? ==> k.guard.Held? || k.guard.ToMark? || k.guard.ToRemove?)
    && (k.counter.CountedBy? ==> k.entry.NoEntry?)
  }

  lemma NewTaskInv(owner: nat)
    ensures TaskInv(NewTask(owner)) && Occupies(NewTask(owner)) && !Live(NewTask(owner))
  {
  }

  // ----- what a step does to the parts of a task that the shared state mirrors

  predicate IsAllocate(a: TaskStep) {
    a.BySubmitter? && a.submitter.Allocate?
  }

  /** The slot is released by the decrement and by nothing else, after the user future is gone. */
  predicate SlotMoves(k: Task, a: TaskStep, k': Task) {
    && (a == OnGuard(Decrement) ==> Occupies(k) && !Occupies(k') && !Alive(k))
    && (a != OnGuard(Decrement) ==> Occupies(k') == Occupies(k))
    && (Alive(k') ==> Alive(k))
    && (Alive(k) ==> Occupies(k))
  }

  predicate LivenessMoves(k: Task, a: TaskStep, k': Task) {
    if IsAllocate(a) then !Live(k) && k'.addr == a.submitter.addr && !k'.entry.InMap?
    else k'.addr == k.addr && (Live(k') ==> Live(k))
  }

  predicate ListingMoves(k: Task, a: TaskStep, k': Task) {
    && (k.entry.InMap? ==> Live(k) && Occupies(k))
    && (if a == BySubmitter(Register) then
          Live(k) && !k.entry.InMap? && !k.finished && (k'.entry.InMap? <==> !k.job.Gone?)
        else if a == OnGuard(GuardRemove) then Live(k) && !k'.entry.InMap?
        else k'.entry.InMap? <==> k.entry.InMap?)
  }

  predicate SubmitterMoves(k: Task, a: TaskStep, k': Task) {
    && k'.owner == k.owner
    && (InAdmission(k') <==> InAdmission(k) && a != BySubmitter(Unlock))
    && (a == BySubmitter(Unlock) || a == BySubmitter(Register) ==> InAdmission(k))
    && (k'.stage.Returned? <==> k.stage.Returned? || a == BySubmitter(Return))
    && (a == BySubmitter(Return) ==> !k.stage.Returned? && !InAdmission(k))
    && (InAdmission(k) ==> !k.stage.Returned?)
  }

  ghost predicate EntryMoves(k: Task, a: TaskStep, k': Task) {
    && (forall c :: HasEntry(k', c) ==> HasEntry(k, c))
    && (k.counter.CountedBy? ==> k'.counter == k.counter)
    && (if a == ByAbort(StopAbort) then
          k.entry.ToAbort? && k.counter.Uncounted? && k'.counter == CountedBy(k.entry.closer) && k'.entry.NoEntry?
        else k'.counter == k.counter)
  }

  predicate DebtMoves(k: Task, a: TaskStep, k': Task) {
    && (a == OnGuard(Decrement) ==> k'.guard.ToBump?)
    && (k.guard.ToBump? && a != OnGuard(BumpGeneration) ==> k'.guard.ToBump?)
    && (a == OnGuard(BumpGeneration) ==> k'.guard.ToNotify?)
    && (k.guard.ToNotify? && a != OnGuard(Notify) ==> k'.guard.ToNotify?)
  }

  ghost predicate Moves(k: Task, a: TaskStep, k': Task) {
    && SlotMoves(k, a, k')
    && LivenessMoves(k, a, k')
    && ListingMoves(k, a, k')
    && SubmitterMoves(k, a, k')
    && EntryMoves(k, a, k')
    && DebtMoves(k, a, k')
  }

  lemma SubmitKeeps(k: Task, a: SubmitterAct)
    requires TaskInv(k) && CanSubmit(k, a)
    ensures TaskInv(Submit(k, a)) && Moves(k, BySubmitter(a), Submit(k, a))
  {
    match a
    case Register => if k.job.Gone? {}
    case Send => if k.job.Gone? {}
    case _ =>
  }

  lemma WorkKeeps(k: Task, a: JobAct)
    requires TaskInv(k) && CanWork(k, a)
    ensures TaskInv(Work(k, a)) && Moves(k, ByJob(a), Work(k, a))
  {
    match a
    case DropJob => if k.future.WithSubmitter? {}
    case _ =>
  }

  lemma DropKeeps(k: Task, a: GuardAct)
    requires TaskInv(k) && CanDrop(k, a)
    ensures TaskInv(DropGuard(k, a)) && Moves(k, OnGuard(a), DropGuard(k, a))
  {
    match a
    case GuardRemove => if k.entry.InMap? {}
    case _ =>
  }

  lemma AbortKeeps(k: Task, a: AbortAct)
    requires TaskInv(k) && CanAbort(k, a)
    ensures TaskInv(AbortTask(k, a)) && Moves(k, ByAbort(a), AbortTask(k, a))
  {
    match a
    case StopCheck => if k.job.Gone? {}
    case _ =>
  }

  /** Every atomic step of every party keeps the task's invariant; this is all the shared state needs to know. */
  lemma StepMoves(k: Task, a: TaskStep)
    requires TaskInv(k) && CanStep(k, a)
    ensures TaskInv(Step(k, a)) && Moves(k, a, Step(k, a))
  {
    hide TaskInv, Moves, Submit, Work, DropGuard, AbortTask;
    match a
    case BySubmitter(x) => SubmitKeeps(k, x);
    case ByJob(x) => WorkKeeps(k, x);
    case OnGuard(x) => DropKeeps(k, x);
    case ByAbort(x) => AbortKeeps(k, x);
  }

  lemma TakenKeepsTaskInv(k: Task, c: nat)
    requires TaskInv(k) && k.entry.InMap?
    ensures TaskInv(k.(entry := Taken(c))) && Live(k) && Occupies(k)
  {
  }
}
