/** The inductive invariant of the IO service. */
module IoInvariant {
  import opened Lifecycles
  import opened Selections
  import opened IoTask
  import opened IoModel

  ghost predicate AllTasks(tasks: map<nat, Task>) {
    forall t :: t in tasks ==> TaskInv(tasks[t])
  }

  // ----- accounting

  predicate AboutToIncrement(submitters: map<nat, Submitter>, admission: Admission) {
    && admission.Admitted? && admission.owner.SubmitterThread?
    && admission.owner.thread in submitters && submitters[admission.owner.thread].HasRoom?
  }

  /** The atomic count is the number of occupied slots, and a thread that found room still has it. */
  ghost predicate Counted(
    capacity: nat, active: nat, tasks: map<nat, Task>, admission: Admission, submitters: map<nat, Submitter>)
  {
    && active == |Occupying(tasks)|
    && active <= capacity
    && (AboutToIncrement(submitters, admission) ==> active < capacity)
  }

  // ----- the abort map

  ghost predicate DistinctAddresses(tasks: map<nat, Task>) {
    forall t, u :: t in tasks && u in tasks && Live(tasks[t]) && Live(tasks[u]) && tasks[t].addr == tasks[u].addr ==> t == u
  }

  ghost predicate ExactMap(handles: map<nat, nat>, tasks: map<nat, Task>) {
    && (forall a :: a in handles ==>
          handles[a] in tasks && tasks[handles[a]].entry.InMap? && tasks[handles[a]].addr == a)
    && (forall t :: t in tasks && tasks[t].entry.InMap? ==> tasks[t].addr in handles && handles[tasks[t].addr] == t)
  }

  // ----- admission and lifecycle

  predicate HoldsAdmission(b: Submitter) {
    b.Locked? || b.Checked? || b.HasRoom? || b.Full? || b.Refused?
  }

  predicate ClosesUnderAdmission(c: Closer) {
    c.pc.Holding? || c.pc.Stored? || c.pc.Snapped?
  }

  predicate SubmitsUnderAdmission(b: Submitter, tasks: map<nat, Task>) {
    HoldsAdmission(b) || (b.Busy? && b.task in tasks && InAdmission(tasks[b.task]))
  }

  /** Admission is held exactly by the thread that is inside the critical section. */
  ghost predicate Exclusive(
    admission: Admission, submitters: map<nat, Submitter>, tasks: map<nat, Task>, closers: map<nat, Closer>)
  {
    && (forall th :: th in submitters && HoldsAdmission(submitters[th]) ==> admission == Admitted(SubmitterThread(th)))
    && (forall t :: t in tasks && InAdmission(tasks[t]) ==> admission == Admitted(SubmitterThread(tasks[t].owner)))
    && (forall c :: c in closers && ClosesUnderAdmission(closers[c]) ==> admission == Admitted(CloserThread(c)))
    && (forall t :: t in tasks && !tasks[t].stage.Returned? ==>
          tasks[t].owner in submitters && submitters[tasks[t].owner] == Busy(t))
    && (forall th :: th in submitters && submitters[th].Busy? ==> IsSubmitting(th, submitters[th].task, tasks))
    && (admission.Admitted? ==> IsAdmitted(admission.owner, submitters, tasks, closers))
  }

  /** The thread has not returned from the submission of this task. */
  predicate IsSubmitting(th: nat, t: nat, tasks: map<nat, Task>) {
    t in tasks && tasks[t].owner == th && !tasks[t].stage.Returned?
  }

  /** The thread is inside the critical section. */
  predicate IsAdmitted(x: Actor, submitters: map<nat, Submitter>, tasks: map<nat, Task>, closers: map<nat, Closer>) {
    match x
    case SubmitterThread(th) => th in submitters && SubmitsUnderAdmission(submitters[th], tasks)
    case CloserThread(c) => c in closers && ClosesUnderAdmission(closers[c])
    case _ => false
  }

  predicate PastCheck(b: Submitter) {
    b.Checked? || b.HasRoom? || b.Full?
  }

  /** Admission past the running check means a running service; a closer past its store means a closed one. */
  ghost predicate Staged(
    life: Lifecycle, submitters: map<nat, Submitter>, tasks: map<nat, Task>, closers: map<nat, Closer>)
  {
    && !life.Terminated?
    && (forall th :: th in submitters && PastCheck(submitters[th]) ==> life.Running?)
    && (forall t :: t in tasks && InAdmission(tasks[t]) ==> life.Running?)
    && (forall c :: c in closers && !closers[c].pc.Holding? ==> !life.Running? && (closers[c].stop ==> life.Stopping?))
  }

  // ----- stop

  predicate IsLooping(closers: map<nat, Closer>, c: nat) {
    c in closers && closers[c].pc.Looping?
  }

  predicate HasSnapshot(c: Closer) {
    c.stop && !c.pc.Holding? && !c.pc.Stored?
  }

  ghost predicate Owned(tasks: map<nat, Task>, closers: map<nat, Closer>) {
    && (forall t, c {:trigger HasEntry(tasks[t], c)} :: t in tasks && HasEntry(tasks[t], c) ==> IsLooping(closers, c))
    && (forall c :: c in closers && (closers[c].pc.Unlocked? || closers[c].pc.Looping? || closers[c].pc.Snapped?) ==>
          closers[c].stop)
  }

  /** What a stop has counted so far, against what was active when it took its snapshot. */
  ghost predicate HonestReport(tasks: map<nat, Task>, c: nat, cl: Closer) {
    && cl.counted <= cl.snap
    && cl.running == |cl.snap|
    && cl.cancelled == |cl.counted|
    && (forall t :: t in cl.counted ==> t in tasks && tasks[t].counter == CountedBy(c))
    && (HasSnapshot(cl) ==> forall t :: t in tasks && (Occupies(tasks[t]) || HasEntry(tasks[t], c)) ==> t in cl.snap)
    && (!HasSnapshot(cl) ==> cl.counted == {} && cl.snap == {} && cl.running == 0)
  }

  ghost predicate HonestReports(tasks: map<nat, Task>, closers: map<nat, Closer>) {
    forall c :: c in closers ==> HonestReport(tasks, c, closers[c])
  }

  // ----- notifications

  predicate CloserOwesBump(c: Closer) {
    c.pc.Stored? || c.pc.Snapped? || c.pc.Unlocked? || c.pc.Looping? || c.pc.Bumping?
  }

  predicate CloserOwesNotify(c: Closer) {
    CloserOwesBump(c) || c.pc.Notifying?
  }

  ghost predicate OwesBump(tasks: map<nat, Task>, closers: map<nat, Closer>) {
    || (exists t :: t in tasks && tasks[t].guard.ToBump?)
    || (exists c :: c in closers && CloserOwesBump(closers[c]))
  }

  predicate TaskOwesNotify(k: Task) {
    k.guard.ToBump? || k.guard.ToNotify?
  }

  /** Some guard or closer still has to call notify_waiters. */
  ghost predicate OwesNotify(tasks: map<nat, Task>, closers: map<nat, Closer>) {
    || (exists t :: t in tasks && TaskOwesNotify(tasks[t]))
    || (exists c :: c in closers && CloserOwesNotify(closers[c]))
  }

  predicate WaiterSafe(w: Waiter) {
    match w
    case Reading(seen, woken) => !seen.Running? || woken
    case Parked(woken) => woken
    case _ => true
  }

  ghost predicate WaitersServed(
    life: Lifecycle, active: nat, tasks: map<nat, Task>, closers: map<nat, Closer>, waiters: map<nat, Waiter>)
  {
    && (!life.Running? && active == 0 ==> OwesNotify(tasks, closers) || forall w :: w in waiters ==> WaiterSafe(waiters[w]))
    && (forall w :: w in waiters && waiters[w].Reading? ==> Rank(waiters[w].seen) <= Rank(life) && !waiters[w].seen.Terminated?)
    && (forall w :: w in waiters && waiters[w].Resolved? ==> !life.Running? && active == 0)
  }

  ghost predicate HintsServed(
    capacity: nat, life: Lifecycle, active: nat, generation: nat, tasks: map<nat, Task>, closers: map<nat, Closer>,
    submitters: map<nat, Submitter>)
  {
    forall th :: th in submitters && (submitters[th].Full? || submitters[th].Parking?) && submitters[th].seen == generation ==>
      (life.Running? && active == capacity) || OwesBump(tasks, closers)
  }

  predicate HasSeen(b: Submitter, generation: nat) {
    match b
    case Ready(seen) => seen <= generation
    case Locked(seen) => seen <= generation
    case Checked(seen) => seen <= generation
    case Full(seen) => seen <= generation
    case Parking(seen) => seen <= generation
    case _ => true
  }

  ghost predicate GenerationsSeen(submitters: map<nat, Submitter>, generation: nat) {
    forall th :: th in submitters ==> HasSeen(submitters[th], generation)
  }

  // ----- the parts at a state

  ghost predicate TasksOk(s: State) { AllTasks(s.tasks) }

  ghost predicate CountOk(s: State) { Counted(s.capacity, s.active, s.tasks, s.admission, s.submitters) }

  ghost predicate AddressesOk(s: State) { DistinctAddresses(s.tasks) }

  ghost predicate MapOk(s: State) { ExactMap(s.handles, s.tasks) }

  ghost predicate AdmissionOk(s: State) { Exclusive(s.admission, s.submitters, s.tasks, s.closers) }

  ghost predicate LifeOk(s: State) { Staged(s.life, s.submitters, s.tasks, s.closers) }

  ghost predicate EntriesOk(s: State) { Owned(s.tasks, s.closers) }

  ghost predicate ReportsOk(s: State) { HonestReports(s.tasks, s.closers) }

  ghost predicate WaitersOk(s: State) { WaitersServed(s.life, s.active, s.tasks, s.closers, s.waiters) }

  ghost predicate HintsOk(s: State) {
    HintsServed(s.capacity, s.life, s.active, s.generation, s.tasks, s.closers, s.submitters)
  }

  ghost predicate SeenOk(s: State) { GenerationsSeen(s.submitters, s.generation) }

  /** The inductive invariant. */
  ghost predicate Inv(s: State) {
    && TasksOk(s)
    && CountOk(s)
    && AddressesOk(s)
    && MapOk(s)
    && AdmissionOk(s)
    && LifeOk(s)
    && EntriesOk(s)
    && ReportsOk(s)
    && WaitersOk(s)
    && HintsOk(s)
    && SeenOk(s)
  }

  lemma InvParts(s: State)
    requires Inv(s)
    ensures TasksOk(s) && CountOk(s) && AddressesOk(s) && MapOk(s) && AdmissionOk(s) && LifeOk(s)
    ensures EntriesOk(s) && ReportsOk(s)
    ensures WaitersOk(s) && HintsOk(s) && SeenOk(s)
  {
  }

  /** Updating one task changes the number of occupied slots by at most one. */
  lemma OccupyingUpdate(tasks: map<nat, Task>, t: nat, k: Task)
    ensures |Occupying(tasks[t := k])| == |Occupying(tasks)| - One(t in tasks && Occupies(tasks[t])) + One(Occupies(k))
  {
    hide Occupies;
    var rest := Occupying(tasks) - {t};
    Membership(Occupying(tasks), rest, t, t in tasks && Occupies(tasks[t]));
    Membership(Occupying(tasks[t := k]), rest, t, Occupies(k));
  }

  lemma CountIsPositive(tasks: map<nat, Task>, t: nat)
    requires t in tasks && Occupies(tasks[t])
    ensures |Occupying(tasks)| > 0
  {
    hide Occupies;
    assert t in Occupying(tasks);
  }

  lemma InitialInv(capacity: nat)
    ensures Inv(Initial(capacity))
  {
  }
}
