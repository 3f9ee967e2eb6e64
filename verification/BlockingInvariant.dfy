/** The inductive invariant of the blocking service. */
module BlockingInvariant {
  import opened Lifecycles
  import opened Selections
  import opened TaskCounts
  import opened BlockingTask
  import opened BlockingModel

  // Each part of the invariant names exactly the components it reads, so that a step which leaves those
  // components alone keeps it by congruence.

  // ----- tasks and accounting

  ghost predicate AllTasks(tasks: map<nat, Task>) {
    forall t :: t in tasks ==> TaskInv(tasks[t])
  }

  /** Each counter equals the number of tasks in the matching phase. */
  ghost predicate Counted(capacity: nat, counts: Counts, tasks: map<nat, Task>) {
    && counts.queued == |QueuedTasks(tasks)|
    && counts.running == |ActiveTasks(tasks)|
    && counts.Total() <= capacity
  }

  // ----- the abort map

  /** No two markers that are still referenced share an address. */
  ghost predicate DistinctAddresses(tasks: map<nat, Task>) {
    forall t, u :: t in tasks && u in tasks && Live(tasks[t]) && Live(tasks[u]) && tasks[t].addr == tasks[u].addr ==> t == u
  }

  /** The address-keyed map holds exactly the tasks that are listed by identity. */
  ghost predicate ExactMap(handles: map<nat, nat>, tasks: map<nat, Task>) {
    && (forall a :: a in handles ==>
          handles[a] in tasks && tasks[handles[a]].entry.InMap? && tasks[handles[a]].addr == a)
    && (forall t :: t in tasks && tasks[t].entry.InMap? ==> tasks[t].addr in handles && handles[tasks[t].addr] == t)
  }

  // ----- admission and lifecycle

  predicate HoldsAdmission(b: Submitter) {
    b.Locked? || b.Checked? || b.Rejecting? || b.Full? || b.Refused?
  }

  predicate ClosesUnderAdmission(c: Closer) {
    c.pc.Holding? || c.pc.Stored? || c.pc.Snapping? || c.pc.Snapped?
  }

  /** A submitting thread inside the critical section, before or after its slot is reserved. */
  predicate SubmitsUnderAdmission(b: Submitter, tasks: map<nat, Task>) {
    HoldsAdmission(b) || (b.Busy? && b.task in tasks && InAdmission(tasks[b.task]))
  }

  /** Admission is held exactly by the thread that is inside the critical section. */
  ghost predicate Exclusive(
    admission: Admission, submitters: map<nat, Submitter>, tasks: map<nat, Task>, closers: map<nat, Closer>)
  {
    && (forall th :: th in submitters && HoldsAdmission(submitters[th]) ==> admission == Admitted(SubmitterThread(th)))
    && (forall t :: t in tasks && InAdmission(tasks[t]) ==> admission == Admitted(SubmitterThread(tasks[t].owner)))
    && (forall c :: c in closers && ClosesUnderAdmission(closers[c]) ==> admission == Admitted(CloserThread(c)))
    && (forall t :: t in tasks && !tasks[t].stage.Returned? ==>
          tasks[t].owner in submitters && submitters[tasks[t].owner] == Busy(t))
    && (forall th :: th in submitters && submitters[th].Busy? ==> IsSubmitting(th, submitters[th].task, tasks))
    && (admission.Admitted? ==> IsAdmitted(admission.owner, submitters, tasks, closers))
  }

  /** The thread has not returned from the submission of this task. */
  predicate IsSubmitting(th: nat, t: nat, tasks: map<nat, Task>) {
    t in tasks && tasks[t].owner == th && !tasks[t].stage.Returned?
  }

  /** The thread is inside the critical section. */
  predicate IsAdmitted(x: Actor, submitters: map<nat, Submitter>, tasks: map<nat, Task>, closers: map<nat, Closer>) {
    match x
    case SubmitterThread(th) => th in submitters && SubmitsUnderAdmission(submitters[th], tasks)
    case CloserThread(c) => c in closers && ClosesUnderAdmission(closers[c])
    case _ => false
  }

  // ----- the monitor

  /** The monitor as the program counter of a party says it is held. */
  function SubmitterSection(th: nat, b: Submitter): Monitor {
    if b.Rejecting? then HeldBy(SubmitterThread(th), OfSubmitter(th)) else Vacant
  }

  function CloserSection(c: nat, cl: Closer): Monitor {
    if cl.pc.Snapping? || cl.pc.Examining? then HeldBy(CloserThread(c), OfCloser(c)) else Vacant
  }

  function AsyncSection(w: nat, x: AsyncWaiter): Monitor {
    if x.Answering? then HeldBy(FutureThread(w), OfAsync(w)) else Vacant
  }

  function SyncSection(w: nat, x: SyncWaiter): Monitor {
    if x.Deciding? then HeldBy(WaiterThread(w), OfSync(w)) else Vacant
  }

  /** Whoever is inside a section holds the monitor ... */
  ghost predicate TasksInside(monitor: Monitor, tasks: map<nat, Task>) {
    && (forall t :: t in tasks && TaskSection(t, tasks[t]) != Vacant ==> monitor == TaskSection(t, tasks[t]))
    && (monitor.HeldBy? && monitor.section.OfTask? ==>
          monitor.section.task in tasks && monitor == TaskSection(monitor.section.task, tasks[monitor.section.task]))
  }

  ghost predicate SubmittersInside(monitor: Monitor, submitters: map<nat, Submitter>) {
    && (forall th :: th in submitters && submitters[th].Rejecting? ==> monitor == SubmitterSection(th, submitters[th]))
    && (monitor.HeldBy? && monitor.section.OfSubmitter? ==>
          && monitor.section.thread in submitters
          && monitor == SubmitterSection(monitor.section.thread, submitters[monitor.section.thread]))
  }

  ghost predicate ClosersInside(monitor: Monitor, closers: map<nat, Closer>) {
    && (forall c :: c in closers && CloserSection(c, closers[c]) != Vacant ==> monitor == CloserSection(c, closers[c]))
    && (monitor.HeldBy? && monitor.section.OfCloser? ==>
          && monitor.section.closer in closers
          && monitor == CloserSection(monitor.section.closer, closers[monitor.section.closer]))
  }

  ghost predicate AsyncsInside(monitor: Monitor, asyncs: map<nat, AsyncWaiter>) {
    && (forall w :: w in asyncs && asyncs[w].Answering? ==> monitor == AsyncSection(w, asyncs[w]))
    && (monitor.HeldBy? && monitor.section.OfAsync? ==>
          && monitor.section.waiter in asyncs
          && monitor == AsyncSection(monitor.section.waiter, asyncs[monitor.section.waiter]))
  }

  ghost predicate SyncsInside(monitor: Monitor, syncs: map<nat, SyncWaiter>) {
    && (forall w :: w in syncs && syncs[w].Deciding? ==> monitor == SyncSection(w, syncs[w]))
    && (monitor.HeldBy? && monitor.section.OfSync? ==>
          && monitor.section.waiter in syncs
          && monitor == SyncSection(monitor.section.waiter, syncs[monitor.section.waiter]))
  }

  /** ... and whoever holds the monitor is inside a section: it has one owner, and that thread has not left it. */
  ghost predicate Mutex(
    monitor: Monitor, tasks: map<nat, Task>, submitters: map<nat, Submitter>, closers: map<nat, Closer>,
    asyncs: map<nat, AsyncWaiter>, syncs: map<nat, SyncWaiter>)
  {
    && TasksInside(monitor, tasks)
    && SubmittersInside(monitor, submitters)
    && ClosersInside(monitor, closers)
    && AsyncsInside(monitor, asyncs)
    && SyncsInside(monitor, syncs)
  }

  predicate PastCheck(b: Submitter) {
    b.Checked? || b.Rejecting? || b.Full?
  }

  /** Admission past the running check means a running service; a closer past its store means a closed one. */
  ghost predicate Staged(
    life: Lifecycle, submitters: map<nat, Submitter>, tasks: map<nat, Task>, closers: map<nat, Closer>)
  {
    && !life.Terminated?
    && (forall th :: th in submitters && PastCheck(submitters[th]) ==> life.Running?)
    && (forall t :: t in tasks && InAdmission(tasks[t]) ==> life.Running?)
    && (forall c :: c in closers && !closers[c].pc.Holding? ==> !life.Running?)
    && (forall c :: c in closers && !closers[c].pc.Holding? && closers[c].stop ==> life.Stopping?)
    && (forall c :: c in closers && closers[c].pc.Examining? ==> closers[c].pc.notRunning)
  }

  // ----- stop

  /** A stop that has stored its lifecycle and not yet taken the map. */
  predicate BeforeTake(c: Closer) {
    c.stop && (c.pc.Stored? || c.pc.Snapping? || c.pc.Snapped? || c.pc.Unlocked?)
  }

  ghost predicate SomeStopBeforeTake(closers: map<nat, Closer>) {
    exists c :: c in closers && BeforeTake(closers[c])
  }

  predicate IsLooping(closers: map<nat, Closer>, c: nat) {
    c in closers && closers[c].pc.Looping?
  }

  ghost predicate Swept(life: Lifecycle, handles: map<nat, nat>, tasks: map<nat, Task>, closers: map<nat, Closer>) {
    && (forall t, c {:trigger HasHook(tasks[t], c)} :: t in tasks && HasHook(tasks[t], c) ==> IsLooping(closers, c))
    && (life.Stopping? ==> handles == map[] || SomeStopBeforeTake(closers))
    && (forall c :: c in closers && OnlyStops(closers[c].pc) ==> closers[c].stop)
  }

  /** Program counters that only a stop call reaches. */
  predicate OnlyStops(pc: ClosePc) {
    pc.Snapping? || pc.Snapped? || pc.Unlocked? || pc.Looping?
  }

  /** A stop call works on one entry at a time. */
  ghost predicate OneAtATime(tasks: map<nat, Task>) {
    forall t, u, c {:trigger Engaged(tasks[t], c), Engaged(tasks[u], c)} ::
      t in tasks && u in tasks && Engaged(tasks[t], c) && Engaged(tasks[u], c) ==> t == u
  }

  predicate HasSnapshot(c: Closer) {
    c.stop && !c.pc.Holding? && !c.pc.Stored?
  }

  /** What a stop has counted so far, against what was queued when it took its snapshot. */
  ghost predicate HonestReport(tasks: map<nat, Task>, c: nat, cl: Closer) {
    && cl.counted <= cl.snap
    && cl.queued == |cl.snap|
    && cl.cancelled == |cl.counted|
    && (forall t :: t in cl.counted ==> t in tasks && tasks[t].releasedBy == ByTheHook(c) && tasks[t].entry.NoEntry?)
    && (HasSnapshot(cl) ==> forall t :: t in tasks && PhaseOf(tasks[t]).Queued? ==> t in cl.snap)
    && (HasSnapshot(cl) ==> forall t :: t in tasks && tasks[t].releasedBy == ByTheHook(c) ==> t in cl.snap)
    && (!HasSnapshot(cl) ==> cl.counted == {} && cl.snap == {} && cl.queued == 0)
  }

  ghost predicate HonestReports(tasks: map<nat, Task>, closers: map<nat, Closer>) {
    && (forall c :: c in closers ==> HonestReport(tasks, c, closers[c]))
    && (forall t :: t in tasks && tasks[t].releasedBy.ByTheHook? ==>
          tasks[t].releasedBy.closer in closers && HasSnapshot(closers[tasks[t].releasedBy.closer]))
  }

  // ----- notifications

  /** A closer that has published its lifecycle and not yet bumped the generation. */
  predicate CloserOwesBump(c: Closer) {
    c.pc.Stored? || c.pc.Snapping? || c.pc.Snapped? || c.pc.Unlocked? || c.pc.Looping? || c.pc.Bumping?
  }

  /** A closer that has published its lifecycle and not yet checked for termination. */
  predicate CloserWillCheck(c: Closer) {
    CloserOwesBump(c) || c.pc.Checking? || c.pc.Examining?
  }

  predicate TaskOwesBump(k: Task) {
    k.release.Written? || k.release.ToBump?
  }

  ghost predicate OwesBump(tasks: map<nat, Task>, closers: map<nat, Closer>) {
    || (exists t :: t in tasks && TaskOwesBump(tasks[t]))
    || (exists c :: c in closers && CloserOwesBump(closers[c]))
  }

  /** A finisher inside its section notifies if the service is over by then, which nobody else can change. */
  predicate TaskOwesSync(k: Task) {
    k.release.Written? || (k.release.ToBump? && k.release.terminated) || k.release.ToNotifySync?
  }

  ghost predicate SomeCloserWillCheck(closers: map<nat, Closer>) {
    exists c :: c in closers && CloserWillCheck(closers[c])
  }

  /** Some finisher or closer still has to call notify_all. */
  ghost predicate OwesSync(tasks: map<nat, Task>, closers: map<nat, Closer>) {
    || (exists t :: t in tasks && TaskOwesSync(tasks[t]))
    || SomeCloserWillCheck(closers)
    || (exists c :: c in closers && closers[c].pc.NotifyingSync?)
  }

  /** Some finisher or closer still has to call notify_waiters. */
  ghost predicate OwesAsync(tasks: map<nat, Task>, closers: map<nat, Closer>) {
    || OwesSync(tasks, closers)
    || (exists t :: t in tasks && tasks[t].release.ToNotifyAsync?)
    || (exists c :: c in closers && closers[c].pc.NotifyingAsync?)
  }

  predicate AsyncSafe(w: AsyncWaiter) {
    match w
    case Reading(seen, woken) => !seen.Running? || woken
    case Answering(terminated, woken) => terminated || woken
    case Parked(woken) => woken
    case _ => true
  }

  predicate Ended(life: Lifecycle, counts: Counts) {
    !life.Running? && counts.IsEmpty()
  }

  /** No await_termination stays parked on a terminated service unless a notification is still owed. */
  ghost predicate AsyncsServed(
    life: Lifecycle, counts: Counts, tasks: map<nat, Task>, closers: map<nat, Closer>, asyncs: map<nat, AsyncWaiter>)
  {
    && (Ended(life, counts) ==> OwesAsync(tasks, closers) || forall w :: w in asyncs ==> AsyncSafe(asyncs[w]))
    && (forall w :: w in asyncs && asyncs[w].Reading? ==> Rank(asyncs[w].seen) <= Rank(life) && !asyncs[w].seen.Terminated?)
    && (forall w :: w in asyncs && HasAnswer(asyncs[w]) ==> Ended(life, counts))
  }

  /** The waiter has found the service terminated. */
  predicate HasAnswer(w: AsyncWaiter) {
    w.Resolved? || (w.Answering? && w.terminated)
  }

  /** The same for synchronous waiters, one of which may be between its check and its parking. */
  ghost predicate SyncsServed(
    life: Lifecycle, counts: Counts, tasks: map<nat, Task>, closers: map<nat, Closer>, syncs: map<nat, SyncWaiter>)
  {
    && (Ended(life, counts) ==> OwesSync(tasks, closers) || forall w :: w in syncs ==> !syncs[w].Blocked?)
    && (forall w :: w in syncs && syncs[w] == Deciding(false) && !life.Running? ==> SomeCloserWillCheck(closers))
    && (forall w :: w in syncs && syncs[w] == Deciding(true) ==> !life.Running?)
    && (forall w :: w in syncs && syncs[w].Unblocked? ==> Ended(life, counts))
  }

  /** A retrier parked on the current generation faces a running, full service, or a bump is owed. */
  ghost predicate HintsServed(
    capacity: nat, life: Lifecycle, counts: Counts, generation: nat, tasks: map<nat, Task>, closers: map<nat, Closer>,
    submitters: map<nat, Submitter>)
  {
    forall th :: th in submitters && IsSaturated(submitters[th]) && submitters[th].seen == generation ==>
      (life.Running? && counts.Total() == capacity) || OwesBump(tasks, closers)
  }

  /** The thread was rejected as saturated and has not been woken since. */
  predicate IsSaturated(b: Submitter) {
    b.Rejecting? || b.Full? || b.Waiting?
  }

  predicate HasSeen(b: Submitter, generation: nat) {
    match b
    case Ready(seen) => seen <= generation
    case Locked(seen) => seen <= generation
    case Checked(seen) => seen <= generation
    case Rejecting(seen) => seen <= generation
    case Full(seen) => seen <= generation
    case Waiting(seen) => seen <= generation
    case _ => true
  }

  /** Nobody has observed a generation that was not published yet. */
  ghost predicate GenerationsSeen(submitters: map<nat, Submitter>, generation: nat) {
    forall th :: th in submitters ==> HasSeen(submitters[th], generation)
  }

  // ----- the parts at a state

  ghost predicate TasksOk(s: State) { AllTasks(s.tasks) }

  ghost predicate CountsOk(s: State) { Counted(s.capacity, s.counts, s.tasks) }

  ghost predicate AddressesOk(s: State) { DistinctAddresses(s.tasks) }

  ghost predicate MapOk(s: State) { ExactMap(s.handles, s.tasks) }

  ghost predicate AdmissionOk(s: State) { Exclusive(s.admission, s.submitters, s.tasks, s.closers) }

  ghost predicate LifeOk(s: State) { Staged(s.life, s.submitters, s.tasks, s.closers) }

  ghost predicate StopOk(s: State) { Swept(s.life, s.handles, s.tasks, s.closers) }

  ghost predicate HooksOk(s: State) { OneAtATime(s.tasks) }

  ghost predicate MonitorOk(s: State) { Mutex(s.monitor, s.tasks, s.submitters, s.closers, s.asyncs, s.syncs) }

  ghost predicate ReportsOk(s: State) { HonestReports(s.tasks, s.closers) }

  ghost predicate AsyncsOk(s: State) { AsyncsServed(s.life, s.counts, s.tasks, s.closers, s.asyncs) }

  ghost predicate SyncsOk(s: State) { SyncsServed(s.life, s.counts, s.tasks, s.closers, s.syncs) }

  ghost predicate HintsOk(s: State) {
    HintsServed(s.capacity, s.life, s.counts, s.generation, s.tasks, s.closers, s.submitters)
  }

  ghost predicate SeenOk(s: State) { GenerationsSeen(s.submitters, s.generation) }

  /** The inductive invariant. */
  ghost predicate Inv(s: State) {
    && TasksOk(s)
    && CountsOk(s)
    && AddressesOk(s)
    && MapOk(s)
    && AdmissionOk(s)
    && LifeOk(s)
    && StopOk(s)
    && ReportsOk(s)
    && AsyncsOk(s)
    && SyncsOk(s)
    && HintsOk(s)
    && SeenOk(s)
    && HooksOk(s)
    && MonitorOk(s)
  }

  lemma InvParts(s: State)
    requires Inv(s)
    ensures TasksOk(s) && CountsOk(s) && AddressesOk(s) && MapOk(s) && AdmissionOk(s) && LifeOk(s) && StopOk(s)
    ensures ReportsOk(s) && AsyncsOk(s) && SyncsOk(s) && HintsOk(s) && SeenOk(s) && HooksOk(s) && MonitorOk(s)
  {
  }

  /** The holder of the monitor is inside the section through which it holds it. */
  lemma HolderIsInside(s: State)
    requires MonitorOk(s) && s.monitor.HeldBy?
    ensures match s.monitor.section
            case OfTask(u) => u in s.tasks && s.monitor == TaskSection(u, s.tasks[u])
            case OfSubmitter(th) => th in s.submitters && s.submitters[th].Rejecting? && s.monitor.owner == SubmitterThread(th)
            case OfCloser(c) =>
              c in s.closers && (s.closers[c].pc.Snapping? || s.closers[c].pc.Examining?) && s.monitor.owner == CloserThread(c)
            case OfAsync(w) => w in s.asyncs && s.asyncs[w].Answering? && s.monitor.owner == FutureThread(w)
            case OfSync(w) => w in s.syncs && s.syncs[w].Deciding? && s.monitor.owner == WaiterThread(w)
  {
    hide TaskSection;
  }

  /** Updating one task changes the queued count by at most one. */
  lemma QueuedUpdate(tasks: map<nat, Task>, t: nat, k: Task)
    ensures |QueuedTasks(tasks[t := k])| ==
            |QueuedTasks(tasks)| - One(t in tasks && PhaseOf(tasks[t]).Queued?) + One(PhaseOf(k).Queued?)
  {
    hide PhaseOf;
    var rest := QueuedTasks(tasks) - {t};
    Membership(QueuedTasks(tasks), rest, t, t in tasks && PhaseOf(tasks[t]).Queued?);
    Membership(QueuedTasks(tasks[t := k]), rest, t, PhaseOf(k).Queued?);
  }

  /** Updating one task changes the running count by at most one. */
  lemma ActiveUpdate(tasks: map<nat, Task>, t: nat, k: Task)
    ensures |ActiveTasks(tasks[t := k])| ==
            |ActiveTasks(tasks)| - One(t in tasks && PhaseOf(tasks[t]).Active?) + One(PhaseOf(k).Active?)
  {
    hide PhaseOf;
    var rest := ActiveTasks(tasks) - {t};
    Membership(ActiveTasks(tasks), rest, t, t in tasks && PhaseOf(tasks[t]).Active?);
    Membership(ActiveTasks(tasks[t := k]), rest, t, PhaseOf(k).Active?);
  }

  lemma CountsArePositive(tasks: map<nat, Task>, t: nat)
    requires t in tasks
    ensures PhaseOf(tasks[t]).Queued? ==> |QueuedTasks(tasks)| > 0
    ensures PhaseOf(tasks[t]).Active? ==> |ActiveTasks(tasks)| > 0
  {
    hide PhaseOf;
    assert PhaseOf(tasks[t]).Queued? ==> t in QueuedTasks(tasks);
    assert PhaseOf(tasks[t]).Active? ==> t in ActiveTasks(tasks);
  }

  lemma InitialInv(capacity: nat)
    ensures Inv(Initial(capacity))
  {
  }
}
