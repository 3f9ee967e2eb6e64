/** Every step of submitters and waiters keeps the invariant of the blocking service.

    Each step changes one entry of one table, and perhaps admission or the monitor.  The lemmas of the first
    part say what such a change must respect; the lemmas of the second part go through the steps. */
module BlockingThreadSteps {
  import opened Lifecycles
  import opened TaskCounts
  import opened BlockingTask
  import opened BlockingModel
  import opened BlockingInvariant

  // ----- one submitter moves

  /** A thread without an unreturned task moves; if admission changes hands, it gets it or gives it back. */
  lemma AdmissionMoves(s: State, admission: Admission, th: nat, b: Submitter)
    requires AdmissionOk(s) && (th in s.submitters ==> !s.submitters[th].Busy?) && !b.Busy?
    requires HoldsAdmission(b) <==> admission == Admitted(SubmitterThread(th))
    requires || admission == s.admission
             || (s.admission.Free? && admission == Admitted(SubmitterThread(th)))
             || (s.admission == Admitted(SubmitterThread(th)) && admission.Free?)
    ensures Exclusive(admission, s.submitters[th := b], s.tasks, s.closers)
  {
    hide InAdmission, ClosesUnderAdmission;
    AdmissionIsNotReturned(s);
  }

  lemma AdmissionIsNotReturned(s: State)
    ensures forall t :: t in s.tasks && InAdmission(s.tasks[t]) ==> !s.tasks[t].stage.Returned?
  {
  }

  lemma LifeMoves(s: State, th: nat, b: Submitter)
    requires LifeOk(s) && (PastCheck(b) ==> s.life.Running?)
    ensures Staged(s.life, s.submitters[th := b], s.tasks, s.closers)
  {
    hide InAdmission;
  }

  lemma HintsMove(s: State, th: nat, b: Submitter)
    requires HintsOk(s) && SeenOk(s) && HasSeen(b, s.generation)
    requires IsSaturated(b) && b.seen == s.generation ==>
               (s.life.Running? && s.counts.Total() == s.capacity) || OwesBump(s.tasks, s.closers)
    ensures HintsServed(
              s.capacity, s.life, s.counts, s.generation, s.tasks, s.closers, s.submitters[th := b])
    ensures GenerationsSeen(s.submitters[th := b], s.generation)
  {
    hide OwesBump, Counts.Total;
  }

  /** A thread enters its section, leaves it, or stays on its side of the monitor. */
  lemma SubmitterSectionMoves(s: State, m: Monitor, th: nat, b: Submitter)
    requires MonitorOk(s)
    requires var held := if th in s.submitters then SubmitterSection(th, s.submitters[th]) else Vacant;
             || (m == s.monitor && SubmitterSection(th, b) == held)
             || (s.monitor.Vacant? && m == SubmitterSection(th, b) != Vacant)
             || (s.monitor == held != Vacant && m.Vacant? && SubmitterSection(th, b).Vacant?)
    ensures Mutex(m, s.tasks, s.submitters[th := b], s.closers, s.asyncs, s.syncs)
  {
    SubmitterOutside(s, m);
    hide TaskSection, CloserSection, AsyncSection, SyncSection, TasksInside, ClosersInside, AsyncsInside,
         SyncsInside;
  }

  lemma SubmitterOutside(s: State, m: Monitor)
    requires MonitorOk(s)
    requires || m == s.monitor
             || ((s.monitor.Vacant? || s.monitor.section.OfSubmitter?) && (m.Vacant? || m.section.OfSubmitter?))
    ensures TasksInside(m, s.tasks)
    ensures ClosersInside(m, s.closers)
    ensures AsyncsInside(m, s.asyncs)
    ensures SyncsInside(m, s.syncs)
  {
    SectionsOfTasks(s);
    hide TaskSection;
  }

  lemma SectionsOfTasks(s: State)
    ensures forall t :: t in s.tasks && TaskSection(t, s.tasks[t]).HeldBy? ==>
              TaskSection(t, s.tasks[t]).section.OfTask?
  {
  }

  // ----- one waiter moves

  lemma AsyncsMove(s: State, w: nat, x: AsyncWaiter)
    requires AsyncsOk(s)
    requires Ended(s.life, s.counts) ==> OwesAsync(s.tasks, s.closers) || AsyncSafe(x)
    requires x.Reading? ==> Rank(x.seen) <= Rank(s.life) && !x.seen.Terminated?
    requires HasAnswer(x) ==> Ended(s.life, s.counts)
    ensures AsyncsServed(s.life, s.counts, s.tasks, s.closers, s.asyncs[w := x])
  {
    hide OwesAsync, Ended;
  }

  lemma AsyncSectionMoves(s: State, m: Monitor, w: nat, x: AsyncWaiter)
    requires MonitorOk(s)
    requires var held := if w in s.asyncs then AsyncSection(w, s.asyncs[w]) else Vacant;
             || (m == s.monitor && AsyncSection(w, x) == held)
             || (s.monitor.Vacant? && m == AsyncSection(w, x) != Vacant)
             || (s.monitor == held != Vacant && m.Vacant? && AsyncSection(w, x).Vacant?)
    ensures Mutex(m, s.tasks, s.submitters, s.closers, s.asyncs[w := x], s.syncs)
  {
    AsyncOutside(s, m);
    hide TaskSection, CloserSection, SubmitterSection, SyncSection, TasksInside, ClosersInside, SubmittersInside,
         SyncsInside;
  }

  lemma AsyncOutside(s: State, m: Monitor)
    requires MonitorOk(s)
    requires || m == s.monitor
             || ((s.monitor.Vacant? || s.monitor.section.OfAsync?) && (m.Vacant? || m.section.OfAsync?))
    ensures TasksInside(m, s.tasks)
    ensures SubmittersInside(m, s.submitters)
    ensures ClosersInside(m, s.closers)
    ensures SyncsInside(m, s.syncs)
  {
    SectionsOfTasks(s);
    hide TaskSection;
  }

  lemma SyncsMove(s: State, w: nat, x: SyncWaiter)
    requires SyncsOk(s)
    requires x.Blocked? && Ended(s.life, s.counts) ==> OwesSync(s.tasks, s.closers)
    requires x == Deciding(false) && !s.life.Running? ==> SomeCloserWillCheck(s.closers)
    requires x == Deciding(true) ==> !s.life.Running?
    requires x.Unblocked? ==> Ended(s.life, s.counts)
    ensures SyncsServed(s.life, s.counts, s.tasks, s.closers, s.syncs[w := x])
  {
    hide OwesSync, SomeCloserWillCheck, Ended;
  }

  lemma SyncSectionMoves(s: State, m: Monitor, w: nat, x: SyncWaiter)
    requires MonitorOk(s)
    requires var held := if w in s.syncs then SyncSection(w, s.syncs[w]) else Vacant;
             || (m == s.monitor && SyncSection(w, x) == held)
             || (s.monitor.Vacant? && m == SyncSection(w, x) != Vacant)
             || (s.monitor == held != Vacant && m.Vacant? && SyncSection(w, x).Vacant?)
    ensures Mutex(m, s.tasks, s.submitters, s.closers, s.asyncs, s.syncs[w := x])
  {
    SyncOutside(s, m);
    hide TaskSection, CloserSection, SubmitterSection, AsyncSection, TasksInside, ClosersInside, SubmittersInside,
         AsyncsInside;
  }

  lemma SyncOutside(s: State, m: Monitor)
    requires MonitorOk(s)
    requires || m == s.monitor
             || ((s.monitor.Vacant? || s.monitor.section.OfSync?) && (m.Vacant? || m.section.OfSync?))
    ensures TasksInside(m, s.tasks)
    ensures SubmittersInside(m, s.submitters)
    ensures ClosersInside(m, s.closers)
    ensures AsyncsInside(m, s.asyncs)
  {
    SectionsOfTasks(s);
    hide TaskSection;
  }

  // ----- what the invariant says about one party

  lemma SubmitterFacts(s: State, th: nat)
    requires Inv(s) && th in s.submitters
    ensures HoldsAdmission(s.submitters[th]) ==> s.admission == Admitted(SubmitterThread(th))
    ensures PastCheck(s.submitters[th]) ==> s.life.Running?
    ensures s.submitters[th].Rejecting? ==> s.monitor == SubmitterSection(th, s.submitters[th])
    ensures HasSeen(s.submitters[th], s.generation)
    ensures s.counts.Total() <= s.capacity
    ensures IsSaturated(s.submitters[th]) && s.submitters[th].seen == s.generation ==>
              (s.life.Running? && s.counts.Total() == s.capacity) || OwesBump(s.tasks, s.closers)
  {
    hide OwesBump, InAdmission, AllTasks, AsyncsServed, SyncsServed, HonestReports, ExactMap, DistinctAddresses,
         Swept;
  }

  lemma NobodyAdmitted(s: State, th: nat)
    requires AdmissionOk(s) && th in s.submitters && !HoldsAdmission(s.submitters[th]) && !s.submitters[th].Busy?
    ensures s.admission != Admitted(SubmitterThread(th))
  {
  }

  lemma NewcomerIsNotAdmitted(s: State, th: nat)
    requires AdmissionOk(s) && th !in s.submitters
    ensures s.admission != Admitted(SubmitterThread(th))
  {
  }

  // ----- the steps of submitters

  /** A thread that subscribes, or that wakes up, has seen the current generation. */
  lemma SubscribeKeepsInv(s: State, a: Action)
    requires Inv(s) && Enabled(s, a) && (a.Subscribe? || a.Retry?)
    ensures Inv(Apply(s, a))
  {
    hide AllTasks, Counted, DistinctAddresses, ExactMap, Exclusive, Staged, Swept, OneAtATime, HonestReports,
         AsyncsServed, SyncsServed, HintsServed, GenerationsSeen, Mutex;
    var th, b := a.thread, Ready(s.generation);
    if th in s.submitters {
      NobodyAdmitted(s, th);
    } else {
      NewcomerIsNotAdmitted(s, th);
    }
    AdmissionMoves(s, s.admission, th, b);
    LifeMoves(s, th, b);
    HintsMove(s, th, b);
    SubmitterSectionMoves(s, s.monitor, th, b);
  }

  lemma LockKeepsInv(s: State, a: Action)
    requires Inv(s) && Enabled(s, a) && a.Lock?
    ensures Inv(Apply(s, a))
  {
    hide AllTasks, Counted, DistinctAddresses, ExactMap, Exclusive, Staged, Swept, OneAtATime, HonestReports,
         AsyncsServed, SyncsServed, HintsServed, GenerationsSeen, Mutex;
    var th, b := a.thread, Locked(s.submitters[a.thread].seen);
    SubmitterFacts(s, th);
    AdmissionMoves(s, Admitted(SubmitterThread(th)), th, b);
    LifeMoves(s, th, b);
    HintsMove(s, th, b);
    SubmitterSectionMoves(s, s.monitor, th, b);
  }

  lemma CheckKeepsInv(s: State, a: Action)
    requires Inv(s) && Enabled(s, a) && a.CheckRunning?
    ensures Inv(Apply(s, a))
  {
    hide AllTasks, Counted, DistinctAddresses, ExactMap, Exclusive, Staged, Swept, OneAtATime, HonestReports,
         AsyncsServed, SyncsServed, HintsServed, GenerationsSeen, Mutex;
    var th, b := a.thread, if s.life.Running? then Checked(s.submitters[a.thread].seen) else Refused;
    SubmitterFacts(s, th);
    AdmissionMoves(s, s.admission, th, b);
    LifeMoves(s, th, b);
    HintsMove(s, th, b);
    SubmitterSectionMoves(s, s.monitor, th, b);
  }

  /** A rejected submission faces a full service: the counts are those of the verdict. */
  lemma SaturationKeepsInv(s: State, a: Action)
    requires Inv(s) && Enabled(s, a) && a.TryAccept? && !HasCapacity(s)
    ensures Inv(Apply(s, a)) && s.life.Running? && s.counts.Total() == s.capacity
  {
    hide AllTasks, Counted, DistinctAddresses, ExactMap, Exclusive, Staged, Swept, OneAtATime, HonestReports,
         AsyncsServed, SyncsServed, HintsServed, GenerationsSeen, Mutex, Counts.Total;
    var th, b := a.thread, Rejecting(s.submitters[a.thread].seen);
    SubmitterFacts(s, th);
    AdmissionMoves(s, s.admission, th, b);
    LifeMoves(s, th, b);
    HintsMove(s, th, b);
    SubmitterSectionMoves(s, HeldBy(SubmitterThread(th), OfSubmitter(th)), th, b);
  }

  lemma LeaveFullKeepsInv(s: State, a: Action)
    requires Inv(s) && Enabled(s, a) && a.LeaveFull?
    ensures Inv(Apply(s, a))
  {
    hide AllTasks, Counted, DistinctAddresses, ExactMap, Exclusive, Staged, Swept, OneAtATime, HonestReports,
         AsyncsServed, SyncsServed, HintsServed, GenerationsSeen, Mutex;
    var th, b := a.thread, Full(s.submitters[a.thread].seen);
    SubmitterFacts(s, th);
    AdmissionMoves(s, s.admission, th, b);
    LifeMoves(s, th, b);
    HintsMove(s, th, b);
    SubmitterSectionMoves(s, Vacant, th, b);
  }

  lemma RejectKeepsInv(s: State, a: Action)
    requires Inv(s) && Enabled(s, a) && a.Reject?
    ensures Inv(Apply(s, a))
  {
    hide AllTasks, Counted, DistinctAddresses, ExactMap, Exclusive, Staged, Swept, OneAtATime, HonestReports,
         AsyncsServed, SyncsServed, HintsServed, GenerationsSeen, Mutex;
    var th := a.thread;
    var b := if s.submitters[th].Full? then Waiting(s.submitters[th].seen) else Idle;
    SubmitterFacts(s, th);
    AdmissionMoves(s, Free, th, b);
    LifeMoves(s, th, b);
    HintsMove(s, th, b);
    SubmitterSectionMoves(s, s.monitor, th, b);
  }

  // ----- acceptance

  lemma AcceptKeepsCounts(s: State, t: nat, k: Task)
    requires CountsOk(s) && HasCapacity(s) && t !in s.tasks && PhaseOf(k).Queued?
    ensures Counted(s.capacity, s.counts.Accept(), s.tasks[t := k])
  {
    hide PhaseOf, QueuedTasks, ActiveTasks;
    QueuedUpdate(s.tasks, t, k);
    ActiveUpdate(s.tasks, t, k);
  }

  lemma BumpDebtOfNewTask(tasks: map<nat, Task>, closers: map<nat, Closer>, t: nat, k: Task)
    requires t !in tasks && OwesBump(tasks, closers)
    ensures OwesBump(tasks[t := k], closers)
  {
    if u :| u in tasks && TaskOwesBump(tasks[u]) {
      assert TaskOwesBump(tasks[t := k][u]);
    }
  }

  /** An accepted task is not yet reachable by anybody but its submitter. */
  lemma AcceptKeepsTables(s: State, t: nat, k: Task)
    requires AddressesOk(s) && MapOk(s) && StopOk(s) && HooksOk(s) && s.life.Running? && t !in s.tasks
    requires k.stage.Accepted? && k.entry.Unregistered? && !Live(k)
    ensures DistinctAddresses(s.tasks[t := k])
    ensures ExactMap(s.handles, s.tasks[t := k])
    ensures Swept(s.life, s.handles, s.tasks[t := k], s.closers)
    ensures OneAtATime(s.tasks[t := k])
  {
    hide Live, SomeStopBeforeTake;
  }

  lemma AcceptKeepsReports(s: State, t: nat, k: Task)
    requires ReportsOk(s) && LifeOk(s) && s.life.Running? && t !in s.tasks && k.releasedBy.Nobody?
    ensures HonestReports(s.tasks[t := k], s.closers)
  {
    hide PhaseOf;
    forall c | c in s.closers
      ensures HonestReport(s.tasks[t := k], c, s.closers[c])
    {
      assert HonestReport(s.tasks, c, s.closers[c]);
    }
  }

  /** The acceptor keeps admission: it now holds it on behalf of its task. */
  lemma AcceptKeepsAdmission(s: State, th: nat, t: nat, k: Task)
    requires AdmissionOk(s) && LifeOk(s) && th in s.submitters && s.submitters[th].Checked? && t !in s.tasks
    requires k.owner == th && InAdmission(k) && k.stage.Accepted?
    ensures Exclusive(s.admission, s.submitters[th := Busy(t)], s.tasks[t := k], s.closers)
    ensures Staged(s.life, s.submitters[th := Busy(t)], s.tasks[t := k], s.closers) && s.life.Running?
  {
    hide InAdmission;
  }

  lemma AcceptKeepsHints(s: State, th: nat, t: nat, k: Task)
    requires HintsOk(s) && SeenOk(s) && CountsOk(s) && HasCapacity(s) && t !in s.tasks
    ensures HintsServed(
              s.capacity, s.life, s.counts.Accept(), s.generation, s.tasks[t := k], s.closers, s.submitters[th := Busy(t)])
    ensures GenerationsSeen(s.submitters[th := Busy(t)], s.generation)
  {
    hide OwesBump, QueuedTasks, ActiveTasks;
    if OwesBump(s.tasks, s.closers) {
      BumpDebtOfNewTask(s.tasks, s.closers, t, k);
    }
  }

  lemma AcceptKeepsWaiters(s: State, t: nat, k: Task)
    requires AsyncsOk(s) && SyncsOk(s) && s.life.Running?
    ensures AsyncsServed(s.life, s.counts.Accept(), s.tasks[t := k], s.closers, s.asyncs)
    ensures SyncsServed(s.life, s.counts.Accept(), s.tasks[t := k], s.closers, s.syncs)
  {
    hide OwesAsync, OwesSync, SomeCloserWillCheck;
  }

  lemma AcceptKeepsMonitor(s: State, th: nat, t: nat, k: Task)
    requires MonitorOk(s) && s.monitor.Vacant? && t !in s.tasks && k.stage.Accepted? && k.owner == th
    requires th in s.submitters && s.submitters[th].Checked?
    ensures Mutex(HeldBy(SubmitterThread(th), OfTask(t)), s.tasks[t := k], s.submitters[th := Busy(t)], s.closers,
                  s.asyncs, s.syncs)
  {
    assert TaskSection(t, k) == HeldBy(SubmitterThread(th), OfTask(t));
    hide TaskSection;
  }

  lemma AcceptKeepsTasks(tasks: map<nat, Task>, t: nat, k: Task)
    requires AllTasks(tasks) && TaskInv(k)
    ensures AllTasks(tasks[t := k])
  {
    hide TaskInv;
  }

  lemma AcceptedState(s: State, a: Action)
    requires Enabled(s, a) && a.TryAccept? && HasCapacity(s)
    ensures s.monitor.Vacant? && a.task !in s.tasks && a.thread in s.submitters && s.submitters[a.thread].Checked?
    ensures Apply(s, a) ==
            s.(counts := s.counts.Accept(), monitor := HeldBy(SubmitterThread(a.thread), OfTask(a.task)),
               tasks := s.tasks[a.task := NewTask(a.kind, a.thread)],
               submitters := s.submitters[a.thread := Busy(a.task)])
  {
    hide HasCapacity, Counts.Accept;
  }

  lemma NewTaskFacts(kind: Kind, owner: nat)
    ensures var k := NewTask(kind, owner);
            && TaskInv(k) && PhaseOf(k).Queued? && !Live(k) && InAdmission(k)
            && k.owner == owner && k.stage.Accepted? && k.entry.Unregistered? && k.releasedBy.Nobody?
  {
  }

  lemma AcceptKeepsInv(s: State, a: Action)
    requires Inv(s) && Enabled(s, a) && a.TryAccept? && HasCapacity(s)
    ensures Inv(Apply(s, a))
  {
    hide Apply, Enabled, NewTask, TaskInv, PhaseOf, AllTasks, DistinctAddresses, ExactMap, Swept, OneAtATime,
         HonestReports, AsyncsServed, SyncsServed, HintsServed, GenerationsSeen, Counted, Exclusive, Staged, Mutex,
         InAdmission, Live, HasCapacity, Counts.Accept;
    var th, t, k := a.thread, a.task, NewTask(a.kind, a.thread);
    AcceptedState(s, a);
    NewTaskFacts(a.kind, a.thread);
    InvParts(s);
    AcceptKeepsTasks(s.tasks, t, k);
    AcceptKeepsAdmission(s, th, t, k);
    AcceptKeepsCounts(s, t, k);
    AcceptKeepsTables(s, t, k);
    AcceptKeepsReports(s, t, k);
    AcceptKeepsHints(s, th, t, k);
    AcceptKeepsWaiters(s, t, k);
    AcceptKeepsMonitor(s, th, t, k);
  }

  // ----- the steps of await_termination

  lemma AsyncFacts(s: State, w: nat)
    requires Inv(s) && w in s.asyncs
    ensures Ended(s.life, s.counts) ==> OwesAsync(s.tasks, s.closers) || AsyncSafe(s.asyncs[w])
    ensures s.asyncs[w].Reading? ==> Rank(s.asyncs[w].seen) <= Rank(s.life) && !s.asyncs[w].seen.Terminated?
    ensures HasAnswer(s.asyncs[w]) ==> Ended(s.life, s.counts)
    ensures s.asyncs[w].Answering? ==> s.monitor == AsyncSection(w, s.asyncs[w])
    ensures !s.life.Terminated?
  {
    hide OwesAsync, OwesBump, InAdmission, AllTasks, SyncsServed, HonestReports, ExactMap, DistinctAddresses, Swept,
         HintsServed, Counted, Exclusive, OneAtATime;
  }

  /** A waiter that has not looked yet is safe, and so is one that was just created. */
  lemma BeginKeepsInv(s: State, a: Action)
    requires Inv(s) && Enabled(s, a) && (a.Await? || a.Enable? || a.Resume?)
    ensures Inv(Apply(s, a))
  {
    hide AllTasks, Counted, DistinctAddresses, ExactMap, Exclusive, Staged, Swept, OneAtATime, HonestReports,
         AsyncsServed, SyncsServed, HintsServed, GenerationsSeen, Mutex;
    var w, x := a.waiter, if a.Enable? then Loading(false) else Enabling;
    AsyncsMove(s, w, x);
    AsyncSectionMoves(s, s.monitor, w, x);
  }

  /** A closed lifecycle makes the reader safe; an open one is read while the service is not over. */
  lemma LoadKeepsInv(s: State, a: Action)
    requires Inv(s) && Enabled(s, a) && a.LoadLifecycle?
    ensures Inv(Apply(s, a))
  {
    hide AllTasks, Counted, DistinctAddresses, ExactMap, Exclusive, Staged, Swept, OneAtATime, HonestReports,
         AsyncsServed, SyncsServed, HintsServed, GenerationsSeen, Mutex;
    var w, x := a.waiter, Reading(s.life, s.asyncs[a.waiter].woken);
    AsyncFacts(s, w);
    AsyncsMove(s, w, x);
    AsyncSectionMoves(s, s.monitor, w, x);
  }

  /** The stored lifecycle is still closed when the counts are read, so a Terminated answer is true. */
  lemma ReadKeepsInv(s: State, a: Action)
    requires Inv(s) && Enabled(s, a) && a.ReadCounts?
    ensures Inv(Apply(s, a))
  {
    hide AllTasks, Counted, DistinctAddresses, ExactMap, Exclusive, Staged, Swept, OneAtATime, HonestReports,
         AsyncsServed, SyncsServed, HintsServed, GenerationsSeen, Mutex;
    var w := a.waiter;
    var x := Answering(Derived(s.asyncs[w].seen, s.counts.IsEmpty()).Terminated?, s.asyncs[w].woken);
    AsyncFacts(s, w);
    AsyncsMove(s, w, x);
    AsyncSectionMoves(s, HeldBy(FutureThread(w), OfAsync(w)), w, x);
  }

  lemma LeaveReadKeepsInv(s: State, a: Action)
    requires Inv(s) && Enabled(s, a) && a.LeaveRead?
    ensures Inv(Apply(s, a))
  {
    hide AllTasks, Counted, DistinctAddresses, ExactMap, Exclusive, Staged, Swept, OneAtATime, HonestReports,
         AsyncsServed, SyncsServed, HintsServed, GenerationsSeen, Mutex, Ended;
    var w := a.waiter;
    var x := if s.asyncs[w].terminated then Resolved else Parked(s.asyncs[w].woken);
    AsyncFacts(s, w);
    AsyncsMove(s, w, x);
    AsyncSectionMoves(s, Vacant, w, x);
  }

  // ----- the steps of wait_termination

  lemma SyncFacts(s: State, w: nat)
    requires Inv(s) && w in s.syncs
    ensures s.syncs[w].Blocked? && Ended(s.life, s.counts) ==> OwesSync(s.tasks, s.closers)
    ensures s.syncs[w] == Deciding(false) && !s.life.Running? ==> SomeCloserWillCheck(s.closers)
    ensures s.syncs[w] == Deciding(true) ==> !s.life.Running?
    ensures s.syncs[w].Deciding? ==> s.monitor == SyncSection(w, s.syncs[w])
  {
    hide OwesSync, OwesAsync, OwesBump, InAdmission, AllTasks, AsyncsServed, HonestReports, ExactMap,
         DistinctAddresses, Swept, HintsServed, Counted, Exclusive, OneAtATime, SomeCloserWillCheck;
  }

  lemma WillCheckOwesSync(tasks: map<nat, Task>, closers: map<nat, Closer>)
    requires SomeCloserWillCheck(closers)
    ensures OwesSync(tasks, closers)
  {
  }

  lemma WaitKeepsInv(s: State, a: Action)
    requires Inv(s) && Enabled(s, a) && (a.Wait? || a.SpuriousWake?)
    ensures Inv(Apply(s, a))
  {
    hide AllTasks, Counted, DistinctAddresses, ExactMap, Exclusive, Staged, Swept, OneAtATime, HonestReports,
         AsyncsServed, SyncsServed, HintsServed, GenerationsSeen, Mutex;
    SyncsMove(s, a.waiter, Entering);
    SyncSectionMoves(s, s.monitor, a.waiter, Entering);
  }

  lemma EnterKeepsInv(s: State, a: Action)
    requires Inv(s) && Enabled(s, a) && a.Enter?
    ensures Inv(Apply(s, a))
  {
    hide AllTasks, Counted, DistinctAddresses, ExactMap, Exclusive, Staged, Swept, OneAtATime, HonestReports,
         AsyncsServed, SyncsServed, HintsServed, GenerationsSeen, Mutex;
    var w, x := a.waiter, Deciding(!s.life.Running?);
    SyncsMove(s, w, x);
    SyncSectionMoves(s, HeldBy(WaiterThread(w), OfSync(w)), w, x);
  }

  /** Whoever parks has either seen tasks, which cannot have left since, or a lifecycle whose closer will check. */
  lemma DecideKeepsInv(s: State, a: Action)
    requires Inv(s) && Enabled(s, a) && a.Decide?
    ensures Inv(Apply(s, a))
  {
    hide AllTasks, Counted, DistinctAddresses, ExactMap, Exclusive, Staged, Swept, OneAtATime, HonestReports,
         AsyncsServed, SyncsServed, HintsServed, GenerationsSeen, Mutex;
    var w := a.waiter;
    var x := if s.syncs[w].notRunning && s.counts.IsEmpty() then Unblocked else Blocked;
    SyncFacts(s, w);
    if SomeCloserWillCheck(s.closers) {
      WillCheckOwesSync(s.tasks, s.closers);
    }
    SyncsMove(s, w, x);
    SyncSectionMoves(s, Vacant, w, x);
  }
}
