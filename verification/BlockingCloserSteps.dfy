/** Every step of a shutdown or stop call keeps the invariant of the blocking service. */
module BlockingCloserSteps {
  import opened Lifecycles
  import opened TaskCounts
  import opened BlockingTask
  import opened BlockingTaskFacts
  import opened BlockingModel
  import opened BlockingInvariant
  import TaskSteps = BlockingTaskSteps

  // ----- debts while one closer moves

  lemma BumpDebtMoves(tasks: map<nat, Task>, closers: map<nat, Closer>, c: nat, cl: Closer)
    ensures CloserOwesBump(cl) ==> OwesBump(tasks, closers[c := cl])
    ensures OwesBump(tasks, closers) && (c in closers && CloserOwesBump(closers[c]) ==> CloserOwesBump(cl)) ==>
              OwesBump(tasks, closers[c := cl])
  {
    var moved := closers[c := cl];
    assert c in moved && moved[c] == cl;
    if OwesBump(tasks, closers) && (c in closers && CloserOwesBump(closers[c]) ==> CloserOwesBump(cl)) {
      if d :| d in closers && CloserOwesBump(closers[d]) {
        assert d in moved && CloserOwesBump(moved[d]);
      }
    }
  }

  lemma CheckDebtMoves(closers: map<nat, Closer>, c: nat, cl: Closer)
    ensures CloserWillCheck(cl) ==> SomeCloserWillCheck(closers[c := cl])
    ensures SomeCloserWillCheck(closers) && (c in closers && CloserWillCheck(closers[c]) ==> CloserWillCheck(cl)) ==>
              SomeCloserWillCheck(closers[c := cl])
  {
    var moved := closers[c := cl];
    assert c in moved && moved[c] == cl;
    if SomeCloserWillCheck(closers) && (c in closers && CloserWillCheck(closers[c]) ==> CloserWillCheck(cl)) {
      var d :| d in closers && CloserWillCheck(closers[d]);
      assert d in moved && CloserWillCheck(moved[d]);
    }
  }

  predicate CloserOwesSync(cl: Closer) {
    CloserWillCheck(cl) || cl.pc.NotifyingSync?
  }

  lemma SyncDebtMoves(tasks: map<nat, Task>, closers: map<nat, Closer>, c: nat, cl: Closer)
    ensures CloserOwesSync(cl) ==> OwesSync(tasks, closers[c := cl])
    ensures OwesSync(tasks, closers) && (c in closers && CloserOwesSync(closers[c]) ==> CloserOwesSync(cl)) ==>
              OwesSync(tasks, closers[c := cl])
  {
    var moved := closers[c := cl];
    assert c in moved && moved[c] == cl;
    CheckDebtMoves(closers, c, cl);
    if OwesSync(tasks, closers) && !CloserOwesSync(cl)
       && (c in closers && CloserOwesSync(closers[c]) ==> CloserOwesSync(cl)) {
      if d :| d in closers && closers[d].pc.NotifyingSync? {
        assert d in moved && moved[d].pc.NotifyingSync?;
      }
    }
  }

  predicate CloserOwesAsync(cl: Closer) {
    CloserOwesSync(cl) || cl.pc.NotifyingAsync?
  }

  lemma AsyncDebtMoves(tasks: map<nat, Task>, closers: map<nat, Closer>, c: nat, cl: Closer)
    ensures CloserOwesAsync(cl) ==> OwesAsync(tasks, closers[c := cl])
    ensures OwesAsync(tasks, closers) && (c in closers && CloserOwesAsync(closers[c]) ==> CloserOwesAsync(cl)) ==>
              OwesAsync(tasks, closers[c := cl])
  {
    hide OwesSync;
    var moved := closers[c := cl];
    assert c in moved && moved[c] == cl;
    SyncDebtMoves(tasks, closers, c, cl);
    if OwesAsync(tasks, closers) && !CloserOwesAsync(cl)
       && (c in closers && CloserOwesAsync(closers[c]) ==> CloserOwesAsync(cl)) {
      if d :| d in closers && closers[d].pc.NotifyingAsync? {
        assert d in moved && moved[d].pc.NotifyingAsync?;
      }
    }
  }

  lemma TakeDebtMoves(closers: map<nat, Closer>, c: nat, cl: Closer)
    ensures BeforeTake(cl) ==> SomeStopBeforeTake(closers[c := cl])
    ensures SomeStopBeforeTake(closers) && (c in closers && BeforeTake(closers[c]) ==> BeforeTake(cl)) ==>
              SomeStopBeforeTake(closers[c := cl])
  {
    var moved := closers[c := cl];
    assert c in moved && moved[c] == cl;
    if SomeStopBeforeTake(closers) && (c in closers && BeforeTake(closers[c]) ==> BeforeTake(cl)) {
      var d :| d in closers && BeforeTake(closers[d]);
      assert d in moved && BeforeTake(moved[d]);
    }
  }

  lemma DebtsMove(tasks: map<nat, Task>, closers: map<nat, Closer>, c: nat, cl: Closer)
    ensures CloserOwesBump(cl) ==> OwesBump(tasks, closers[c := cl])
    ensures OwesBump(tasks, closers) && (c in closers && CloserOwesBump(closers[c]) ==> CloserOwesBump(cl)) ==>
              OwesBump(tasks, closers[c := cl])
    ensures CloserWillCheck(cl) ==> SomeCloserWillCheck(closers[c := cl])
    ensures SomeCloserWillCheck(closers) && (c in closers && CloserWillCheck(closers[c]) ==> CloserWillCheck(cl)) ==>
              SomeCloserWillCheck(closers[c := cl])
    ensures CloserOwesSync(cl) ==> OwesSync(tasks, closers[c := cl])
    ensures OwesSync(tasks, closers) && (c in closers && CloserOwesSync(closers[c]) ==> CloserOwesSync(cl)) ==>
              OwesSync(tasks, closers[c := cl])
    ensures CloserOwesAsync(cl) ==> OwesAsync(tasks, closers[c := cl])
    ensures OwesAsync(tasks, closers) && (c in closers && CloserOwesAsync(closers[c]) ==> CloserOwesAsync(cl)) ==>
              OwesAsync(tasks, closers[c := cl])
    ensures BeforeTake(cl) ==> SomeStopBeforeTake(closers[c := cl])
    ensures SomeStopBeforeTake(closers) && (c in closers && BeforeTake(closers[c]) ==> BeforeTake(cl)) ==>
              SomeStopBeforeTake(closers[c := cl])
  {
    hide *;
    BumpDebtMoves(tasks, closers, c, cl);
    CheckDebtMoves(closers, c, cl);
    SyncDebtMoves(tasks, closers, c, cl);
    AsyncDebtMoves(tasks, closers, c, cl);
    TakeDebtMoves(closers, c, cl);
  }

  // ----- reports while one closer moves

  /** A closer that only advances its program counter keeps its report honest. */
  lemma ReportsMove(tasks: map<nat, Task>, closers: map<nat, Closer>, c: nat, cl: Closer)
    requires HonestReports(tasks, closers)
    requires if c in closers then cl == closers[c].(pc := cl.pc) && HasSnapshot(cl) == HasSnapshot(closers[c])
             else !HasSnapshot(cl) && cl.counted == {} && cl.snap == {} && cl.queued == 0 && cl.cancelled == 0
    ensures HonestReports(tasks, closers[c := cl])
  {
    hide PhaseOf;
    if c in closers {
      assert HonestReport(tasks, c, closers[c]);
    }
    assert HonestReport(tasks, c, cl);
  }

  lemma SnapshotIsHonest(tasks: map<nat, Task>, c: nat, cl: Closer)
    requires cl.snap == QueuedTasks(tasks) && cl.queued == |QueuedTasks(tasks)| && cl.counted == {} && cl.cancelled == 0
    requires HasSnapshot(cl) && forall t :: t in tasks ==> tasks[t].releasedBy != ByTheHook(c)
    ensures HonestReport(tasks, c, cl)
  {
    hide PhaseOf;
  }

  lemma SnapshotKeepsReports(s: State, c: nat, cl: Closer)
    requires CountsOk(s) && ReportsOk(s) && c in s.closers && s.closers[c].stop && s.closers[c].pc.Stored?
    requires cl == s.closers[c].(pc := Snapping, queued := s.counts.queued, running := s.counts.running,
                                 snap := QueuedTasks(s.tasks))
    ensures HonestReports(s.tasks, s.closers[c := cl])
  {
    hide PhaseOf, ActiveTasks, QueuedTasks;
    NobodyReleasedByThisStop(s.tasks, s.closers, c);
    NothingCountedYet(s.tasks, s.closers, c);
    SnapshotIsHonest(s.tasks, c, cl);
    hide HonestReport;
  }

  lemma NothingCountedYet(tasks: map<nat, Task>, closers: map<nat, Closer>, c: nat)
    requires HonestReports(tasks, closers) && c in closers && !HasSnapshot(closers[c])
    ensures closers[c].counted == {} && closers[c].cancelled == 0
  {
    hide PhaseOf;
    assert HonestReport(tasks, c, closers[c]);
  }

  lemma NobodyReleasedByThisStop(tasks: map<nat, Task>, closers: map<nat, Closer>, c: nat)
    requires HonestReports(tasks, closers) && c in closers && !HasSnapshot(closers[c])
    ensures forall t :: t in tasks ==> tasks[t].releasedBy != ByTheHook(c)
  {
    hide HonestReport;
  }

  // ----- the other tables while one closer moves

  /** The closer that leaves the critical section is the one that gives admission back. */
  lemma ExclusiveMoves(s: State, admission: Admission, c: nat, cl: Closer)
    requires AdmissionOk(s)
    requires ClosesUnderAdmission(cl) ==> admission == Admitted(CloserThread(c))
    requires if admission == s.admission then admission == Admitted(CloserThread(c)) ==> ClosesUnderAdmission(cl)
             else || (s.admission.Free? && admission == Admitted(CloserThread(c)) && ClosesUnderAdmission(cl))
                  || (s.admission == Admitted(CloserThread(c)) && admission.Free?)
    ensures Exclusive(admission, s.submitters, s.tasks, s.closers[c := cl])
  {
    hide InAdmission;
  }

  lemma StagedMoves(s: State, c: nat, cl: Closer)
    requires LifeOk(s) && (!cl.pc.Holding? ==> !s.life.Running? && (cl.stop ==> s.life.Stopping?))
    requires cl.pc.Examining? ==> cl.pc.notRunning
    ensures Staged(s.life, s.submitters, s.tasks, s.closers[c := cl])
  {
    hide InAdmission;
  }

  /** A stop keeps its hooks until its loop has ended and its turn until it has taken the map. */
  lemma SweptMoves(s: State, c: nat, cl: Closer)
    requires StopOk(s)
    requires c in s.closers && BeforeTake(s.closers[c]) ==> BeforeTake(cl)
    requires OnlyStops(cl.pc) ==> cl.stop
    requires IsLooping(s.closers, c) && !cl.pc.Looping? ==> forall t :: t in s.tasks ==> !HasHook(s.tasks[t], c)
    ensures Swept(s.life, s.handles, s.tasks, s.closers[c := cl])
  {
    hide HasHook, SomeStopBeforeTake;
    TakeDebtMoves(s.closers, c, cl);
  }

  lemma AsyncsMove(s: State, c: nat, cl: Closer)
    requires AsyncsOk(s)
    requires IsTerminated(s) && c in s.closers && CloserOwesAsync(s.closers[c]) ==> CloserOwesAsync(cl)
    ensures AsyncsServed(s.life, s.counts, s.tasks, s.closers[c := cl], s.asyncs)
  {
    hide OwesAsync;
    AsyncDebtMoves(s.tasks, s.closers, c, cl);
  }

  /** A check may be skipped only while nobody is between reading the lifecycle and parking. */
  lemma SyncsMove(s: State, c: nat, cl: Closer)
    requires SyncsOk(s)
    requires IsTerminated(s) && c in s.closers && CloserOwesSync(s.closers[c]) ==> CloserOwesSync(cl)
    requires || (forall w :: w in s.syncs ==> !s.syncs[w].Deciding?)
             || (c in s.closers && CloserWillCheck(s.closers[c]) ==> CloserWillCheck(cl))
    ensures SyncsServed(s.life, s.counts, s.tasks, s.closers[c := cl], s.syncs)
  {
    hide OwesSync, SomeCloserWillCheck;
    SyncDebtMoves(s.tasks, s.closers, c, cl);
    CheckDebtMoves(s.closers, c, cl);
  }

  /** A closer enters its section, leaves it, or stays on its side of the monitor. */
  lemma SectionMoves(s: State, m: Monitor, c: nat, cl: Closer)
    requires MonitorOk(s)
    requires var held := if c in s.closers then CloserSection(c, s.closers[c]) else Vacant;
             || (m == s.monitor && CloserSection(c, cl) == held)
             || (s.monitor.Vacant? && m == CloserSection(c, cl) != Vacant)
             || (s.monitor == held != Vacant && m.Vacant? && CloserSection(c, cl).Vacant?)
    ensures Mutex(m, s.tasks, s.submitters, s.closers[c := cl], s.asyncs, s.syncs)
  {
    OthersOutside(s, m);
    hide TaskSection, AsyncSection, SubmitterSection, SyncSection, TasksInside, AsyncsInside, SubmittersInside,
         SyncsInside;
  }

  lemma OthersOutside(s: State, m: Monitor)
    requires MonitorOk(s)
    requires || m == s.monitor
             || ((s.monitor.Vacant? || s.monitor.section.OfCloser?) && (m.Vacant? || m.section.OfCloser?))
    ensures TasksInside(m, s.tasks)
    ensures SubmittersInside(m, s.submitters)
    ensures AsyncsInside(m, s.asyncs)
    ensures SyncsInside(m, s.syncs)
  {
    SectionsOfTasks(s);
    hide TaskSection;
  }

  lemma SectionsOfTasks(s: State)
    ensures forall t :: t in s.tasks && TaskSection(t, s.tasks[t]).HeldBy? ==>
              TaskSection(t, s.tasks[t]).section.OfTask?
  {
  }

  lemma HintsMove(s: State, c: nat, cl: Closer)
    requires HintsOk(s)
    requires c in s.closers && CloserOwesBump(s.closers[c]) ==> CloserOwesBump(cl)
    ensures HintsServed(s.capacity, s.life, s.counts, s.generation, s.tasks, s.closers[c := cl], s.submitters)
  {
    hide OwesBump;
    BumpDebtMoves(s.tasks, s.closers, c, cl);
  }

  // ----- steps

  lemma CloseKeepsInv(s: State, a: Action)
    requires Inv(s) && Enabled(s, a) && a.Close?
    ensures Inv(Apply(s, a))
  {
    hide AllTasks, Counted, DistinctAddresses, ExactMap, Exclusive, Staged, Swept, HonestReports, AsyncsServed,
         SyncsServed, HintsServed, GenerationsSeen, OneAtATime, Mutex;
    var c, cl := a.closer, Closer(a.stop, Holding, 0, 0, 0, {}, {});
    ExclusiveMoves(s, Admitted(CloserThread(c)), c, cl);
    StagedMoves(s, c, cl);
    SweptMoves(s, c, cl);
    ReportsMove(s.tasks, s.closers, c, cl);
    AsyncsMove(s, c, cl);
    SyncsMove(s, c, cl);
    HintsMove(s, c, cl);
    SectionMoves(s, s.monitor, c, cl);
  }

  /** Publishing the closed lifecycle makes this closer owe every notification. */
  lemma StoreKeepsWaiters(s: State, life: Lifecycle, c: nat, cl: Closer)
    requires AsyncsOk(s) && SyncsOk(s) && HintsOk(s)
    requires cl.pc.Stored? && !life.Running? && Rank(s.life) <= Rank(life)
    ensures AsyncsServed(life, s.counts, s.tasks, s.closers[c := cl], s.asyncs)
    ensures SyncsServed(life, s.counts, s.tasks, s.closers[c := cl], s.syncs)
    ensures HintsServed(s.capacity, life, s.counts, s.generation, s.tasks, s.closers[c := cl], s.submitters)
  {
    hide OwesAsync, OwesSync, OwesBump, SomeCloserWillCheck;
    DebtsMove(s.tasks, s.closers, c, cl);
  }

  /** The lifecycle is stored by the holder of admission, so nobody is past the running check. */
  lemma StoreKeepsStages(s: State, life: Lifecycle, c: nat, cl: Closer)
    requires AdmissionOk(s) && LifeOk(s) && StopOk(s) && AtClose(s, c, Holding)
    requires cl == s.closers[c].(pc := Stored) && life == (if cl.stop then Stopping else ShutdownOf(s.life))
    ensures Staged(life, s.submitters, s.tasks, s.closers[c := cl])
    ensures Swept(life, s.handles, s.tasks, s.closers[c := cl])
  {
    hide InAdmission, HasHook, SomeStopBeforeTake;
    TakeDebtMoves(s.closers, c, cl);
  }

  lemma StoreKeepsInv(s: State, a: Action)
    requires Inv(s) && Enabled(s, a) && a.StoreLifecycle?
    ensures Inv(Apply(s, a))
  {
    hide AllTasks, Counted, DistinctAddresses, ExactMap, Exclusive, Staged, Swept, HonestReports, AsyncsServed,
         SyncsServed, HintsServed, GenerationsSeen, OneAtATime, Mutex;
    var c, cl := a.closer, s.closers[a.closer].(pc := Stored);
    ClosersHoldAdmission(s, c);
    var life := if cl.stop then Stopping else ShutdownOf(s.life);
    LifecycleIsStored(s);
    ExclusiveMoves(s, s.admission, c, cl);
    StoreKeepsStages(s, life, c, cl);
    StoreKeepsWaiters(s, life, c, cl);
    ReportsMove(s.tasks, s.closers, c, cl);
    SectionMoves(s, s.monitor, c, cl);
  }

  lemma ClosersHoldAdmission(s: State, c: nat)
    requires AdmissionOk(s) && LifeOk(s) && c in s.closers
    ensures ClosesUnderAdmission(s.closers[c]) <==> s.admission == Admitted(CloserThread(c))
    ensures !s.closers[c].pc.Holding? ==> !s.life.Running? && (s.closers[c].stop ==> s.life.Stopping?)
  {
  }

  lemma LifecycleIsStored(s: State)
    requires LifeOk(s)
    ensures !s.life.Terminated?
  {
  }

  lemma SnapshotKeepsInv(s: State, a: Action)
    requires Inv(s) && Enabled(s, a) && a.Snapshot?
    ensures Inv(Apply(s, a))
  {
    hide AllTasks, Counted, DistinctAddresses, ExactMap, Exclusive, Staged, Swept, HonestReports, AsyncsServed,
         SyncsServed, HintsServed, GenerationsSeen, OneAtATime, Mutex, QueuedTasks;
    var c := a.closer;
    var cl := s.closers[c].(pc := Snapping, queued := s.counts.queued, running := s.counts.running,
                            snap := QueuedTasks(s.tasks));
    ClosersHoldAdmission(s, c);
    ExclusiveMoves(s, s.admission, c, cl);
    StagedMoves(s, c, cl);
    SweptMoves(s, c, cl);
    SnapshotKeepsReports(s, c, cl);
    AsyncsMove(s, c, cl);
    SyncsMove(s, c, cl);
    HintsMove(s, c, cl);
    SectionMoves(s, HeldBy(CloserThread(c), OfCloser(c)), c, cl);
  }

  lemma LeaveSnapshotKeepsInv(s: State, a: Action)
    requires Inv(s) && Enabled(s, a) && a.LeaveSnapshot?
    ensures Inv(Apply(s, a))
  {
    hide AllTasks, Counted, DistinctAddresses, ExactMap, Exclusive, Staged, Swept, HonestReports, AsyncsServed,
         SyncsServed, HintsServed, GenerationsSeen, OneAtATime, Mutex;
    var c, cl := a.closer, s.closers[a.closer].(pc := Snapped);
    ClosersHoldAdmission(s, c);
    CloserIsInside(s, c);
    ExclusiveMoves(s, s.admission, c, cl);
    StagedMoves(s, c, cl);
    SweptMoves(s, c, cl);
    ReportsMove(s.tasks, s.closers, c, cl);
    AsyncsMove(s, c, cl);
    SyncsMove(s, c, cl);
    HintsMove(s, c, cl);
    SectionMoves(s, Vacant, c, cl);
  }

  lemma CloserIsInside(s: State, c: nat)
    requires MonitorOk(s) && StopOk(s) && c in s.closers && CloserSection(c, s.closers[c]).HeldBy?
    ensures s.monitor == CloserSection(c, s.closers[c])
    ensures forall w :: w in s.syncs ==> !s.syncs[w].Deciding?
    ensures OnlyStops(s.closers[c].pc) ==> s.closers[c].stop
  {
    hide TasksInside, SubmittersInside, AsyncsInside, SomeStopBeforeTake;
  }

  lemma ReleaseAdmissionKeepsInv(s: State, a: Action)
    requires Inv(s) && Enabled(s, a) && a.ReleaseAdmission?
    ensures Inv(Apply(s, a))
  {
    hide AllTasks, Counted, DistinctAddresses, ExactMap, Exclusive, Staged, Swept, HonestReports, AsyncsServed,
         SyncsServed, HintsServed, GenerationsSeen, OneAtATime, Mutex;
    var c, cl := a.closer, s.closers[a.closer].(pc := if s.closers[a.closer].stop then Unlocked else Bumping);
    ClosersHoldAdmission(s, c);
    ExclusiveMoves(s, Free, c, cl);
    StagedMoves(s, c, cl);
    SweptMoves(s, c, cl);
    ReportsMove(s.tasks, s.closers, c, cl);
    AsyncsMove(s, c, cl);
    SyncsMove(s, c, cl);
    HintsMove(s, c, cl);
    SectionMoves(s, s.monitor, c, cl);
  }

  lemma EndLoopKeepsInv(s: State, a: Action)
    requires Inv(s) && Enabled(s, a) && a.EndLoop?
    ensures Inv(Apply(s, a))
  {
    hide AllTasks, Counted, DistinctAddresses, ExactMap, Exclusive, Staged, Swept, HonestReports, AsyncsServed,
         SyncsServed, HintsServed, GenerationsSeen, OneAtATime, Mutex, HasHook;
    var c, cl := a.closer, s.closers[a.closer].(pc := Bumping);
    ClosersHoldAdmission(s, c);
    ExclusiveMoves(s, s.admission, c, cl);
    StagedMoves(s, c, cl);
    SweptMoves(s, c, cl);
    ReportsMove(s.tasks, s.closers, c, cl);
    AsyncsMove(s, c, cl);
    SyncsMove(s, c, cl);
    HintsMove(s, c, cl);
    SectionMoves(s, s.monitor, c, cl);
  }

  /** After a bump nobody has seen the current generation. */
  lemma BumpServesHints(s: State, closers: map<nat, Closer>)
    requires SeenOk(s)
    ensures HintsServed(s.capacity, s.life, s.counts, s.generation + 1, s.tasks, closers, s.submitters)
    ensures GenerationsSeen(s.submitters, s.generation + 1)
  {
    hide OwesBump;
  }

  lemma BumpKeepsInv(s: State, a: Action)
    requires Inv(s) && Enabled(s, a) && a.BumpCapacity?
    ensures Inv(Apply(s, a))
  {
    hide AllTasks, Counted, DistinctAddresses, ExactMap, Exclusive, Staged, Swept, HonestReports, AsyncsServed,
         SyncsServed, HintsServed, GenerationsSeen, OneAtATime, Mutex;
    var c, cl := a.closer, s.closers[a.closer].(pc := Checking);
    ClosersHoldAdmission(s, c);
    ExclusiveMoves(s, s.admission, c, cl);
    StagedMoves(s, c, cl);
    SweptMoves(s, c, cl);
    ReportsMove(s.tasks, s.closers, c, cl);
    AsyncsMove(s, c, cl);
    SyncsMove(s, c, cl);
    BumpServesHints(s, s.closers[c := cl]);
    SectionMoves(s, s.monitor, c, cl);
  }

  /** The closer published its own lifecycle long before, so it finds the service closed. */
  lemma CheckLifecycleKeepsInv(s: State, a: Action)
    requires Inv(s) && Enabled(s, a) && a.CheckLifecycle?
    ensures Inv(Apply(s, a))
  {
    hide AllTasks, Counted, DistinctAddresses, ExactMap, Exclusive, Staged, Swept, HonestReports, AsyncsServed,
         SyncsServed, HintsServed, GenerationsSeen, OneAtATime, Mutex;
    var c, cl := a.closer, s.closers[a.closer].(pc := Examining(!s.life.Running?));
    ClosersHoldAdmission(s, c);
    ExclusiveMoves(s, s.admission, c, cl);
    StagedMoves(s, c, cl);
    SweptMoves(s, c, cl);
    ReportsMove(s.tasks, s.closers, c, cl);
    AsyncsMove(s, c, cl);
    SyncsMove(s, c, cl);
    HintsMove(s, c, cl);
    SectionMoves(s, HeldBy(CloserThread(c), OfCloser(c)), c, cl);
  }

  lemma ExaminesClosed(s: State, c: nat)
    requires LifeOk(s) && c in s.closers && s.closers[c].pc.Examining?
    ensures s.closers[c].pc.notRunning && !s.life.Running?
  {
  }

  /** A check that finds tasks may be the last one: whoever finishes them sees the closed lifecycle. */
  lemma CheckKeepsInv(s: State, a: Action)
    requires Inv(s) && Enabled(s, a) && a.CheckTerminated?
    ensures Inv(Apply(s, a))
  {
    hide AllTasks, Counted, DistinctAddresses, ExactMap, Exclusive, Staged, Swept, HonestReports, AsyncsServed,
         SyncsServed, HintsServed, GenerationsSeen, OneAtATime, Mutex;
    var c := a.closer;
    var cl := s.closers[c].(pc := if s.closers[c].pc.notRunning && s.counts.IsEmpty() then NotifyingSync else Reported);
    ClosersHoldAdmission(s, c);
    ExaminesClosed(s, c);
    CloserIsInside(s, c);
    ExclusiveMoves(s, s.admission, c, cl);
    StagedMoves(s, c, cl);
    SweptMoves(s, c, cl);
    ReportsMove(s.tasks, s.closers, c, cl);
    AsyncsMove(s, c, cl);
    SyncsMove(s, c, cl);
    HintsMove(s, c, cl);
    SectionMoves(s, Vacant, c, cl);
  }

  /** A notification moves nobody into the monitor or out of it. */
  lemma WakingKeepsSections(s: State, closers: map<nat, Closer>)
    requires Mutex(s.monitor, s.tasks, s.submitters, closers, s.asyncs, s.syncs)
    ensures Mutex(s.monitor, s.tasks, s.submitters, closers, s.asyncs, WokenSyncs(s.syncs))
    ensures Mutex(s.monitor, s.tasks, s.submitters, closers, WokenAsyncs(s.asyncs), s.syncs)
  {
    hide WokenSyncs, WokenAsyncs, TasksInside, SubmittersInside, ClosersInside;
    TaskSteps.WokenSyncFacts(s.syncs);
    TaskSteps.WokenAsyncFacts(s.asyncs);
  }

  /** notify_all leaves nobody blocked. */
  lemma NotifyAllServesSyncs(s: State, c: nat, cl: Closer)
    requires SyncsOk(s) && AtClose(s, c, NotifyingSync) && cl.pc.NotifyingAsync?
    ensures SyncsServed(s.life, s.counts, s.tasks, s.closers[c := cl], WokenSyncs(s.syncs))
  {
    hide OwesSync, SomeCloserWillCheck, WokenSyncs;
    TaskSteps.WokenSyncFacts(s.syncs);
    CheckDebtMoves(s.closers, c, cl);
  }

  lemma NotifySyncKeepsInv(s: State, a: Action)
    requires Inv(s) && Enabled(s, a) && a.NotifySync?
    ensures Inv(Apply(s, a))
  {
    hide AllTasks, Counted, DistinctAddresses, ExactMap, Exclusive, Staged, Swept, HonestReports, AsyncsServed,
         SyncsServed, HintsServed, GenerationsSeen, OneAtATime, Mutex, WokenSyncs;
    var c, cl := a.closer, s.closers[a.closer].(pc := NotifyingAsync);
    ClosersHoldAdmission(s, c);
    ExclusiveMoves(s, s.admission, c, cl);
    StagedMoves(s, c, cl);
    SweptMoves(s, c, cl);
    ReportsMove(s.tasks, s.closers, c, cl);
    AsyncsMove(s, c, cl);
    NotifyAllServesSyncs(s, c, cl);
    HintsMove(s, c, cl);
    SectionMoves(s, s.monitor, c, cl);
    WakingKeepsSections(s, s.closers[c := cl]);
  }

  /** notify_waiters leaves no enabled notification unfired. */
  lemma NotifyWaitersServesAsyncs(s: State, closers: map<nat, Closer>)
    requires AsyncsOk(s)
    ensures AsyncsServed(s.life, s.counts, s.tasks, closers, WokenAsyncs(s.asyncs))
  {
    hide OwesAsync, WokenAsyncs;
    TaskSteps.WokenAsyncFacts(s.asyncs);
  }

  lemma NotifyAsyncKeepsInv(s: State, a: Action)
    requires Inv(s) && Enabled(s, a) && a.NotifyAsync?
    ensures Inv(Apply(s, a))
  {
    hide AllTasks, Counted, DistinctAddresses, ExactMap, Exclusive, Staged, Swept, HonestReports, AsyncsServed,
         SyncsServed, HintsServed, GenerationsSeen, OneAtATime, Mutex, WokenAsyncs;
    var c, cl := a.closer, s.closers[a.closer].(pc := Reported);
    ClosersHoldAdmission(s, c);
    ExclusiveMoves(s, s.admission, c, cl);
    StagedMoves(s, c, cl);
    SweptMoves(s, c, cl);
    ReportsMove(s.tasks, s.closers, c, cl);
    NotifyWaitersServesAsyncs(s, s.closers[c := cl]);
    SyncsMove(s, c, cl);
    HintsMove(s, c, cl);
    SectionMoves(s, s.monitor, c, cl);
    WakingKeepsSections(s, s.closers[c := cl]);
  }

  // ----- taking the map

  /** Exactly the listed tasks change hands, whatever the addresses were. */
  lemma TakenTasks(s: State, c: nat)
    requires MapOk(s)
    ensures var tasks := TakeEntries(s, c).tasks;
            && tasks.Keys == s.tasks.Keys
            && forall t :: t in s.tasks ==>
                 tasks[t] == if s.tasks[t].entry.InMap? then s.tasks[t].(entry := Taken(c)) else s.tasks[t]
  {
    forall t | t in s.tasks && s.tasks[t].entry.InMap?
      ensures t in s.handles.Values
    {
      assert s.tasks[t].addr in s.handles && s.handles[s.tasks[t].addr] == t;
    }
  }

  lemma TakenKeepsEachTask(s: State, c: nat, t: nat)
    requires TasksOk(s) && MapOk(s) && t in s.tasks
    ensures t in TakeEntries(s, c).tasks
    ensures var k, k' := s.tasks[t], TakeEntries(s, c).tasks[t];
            TaskInv(k') && PhaseOf(k') == PhaseOf(k) && Live(k') == Live(k) && k'.addr == k.addr && !k'.entry.InMap?
    ensures TaskSection(t, TakeEntries(s, c).tasks[t]) == TaskSection(t, s.tasks[t])
    ensures forall d :: Engaged(TakeEntries(s, c).tasks[t], d) <==> Engaged(s.tasks[t], d)
  {
    hide TaskInv, TakeEntries;
    TakenTasks(s, c);
    if s.tasks[t].entry.InMap? {
      TakenKeepsTaskInv(s.tasks[t], c);
    }
  }

  lemma SamePhases(tasks: map<nat, Task>, tasks': map<nat, Task>)
    requires tasks'.Keys == tasks.Keys && forall t :: t in tasks ==> PhaseOf(tasks'[t]) == PhaseOf(tasks[t])
    ensures QueuedTasks(tasks') == QueuedTasks(tasks) && ActiveTasks(tasks') == ActiveTasks(tasks)
  {
    hide PhaseOf;
  }

  lemma TakeKeepsCounts(s: State, c: nat)
    requires TasksOk(s) && CountsOk(s) && MapOk(s)
    ensures Counted(s.capacity, s.counts, TakeEntries(s, c).tasks)
  {
    hide TaskInv, TakeEntries, PhaseOf, Live, QueuedTasks, ActiveTasks, AllTasks, ExactMap, Counts.Total;
    TakenTasks(s, c);
    var tasks := TakeEntries(s, c).tasks;
    forall t | t in s.tasks
      ensures PhaseOf(tasks[t]) == PhaseOf(s.tasks[t])
    {
      TakenKeepsEachTask(s, c, t);
    }
    SamePhases(s.tasks, tasks);
  }

  lemma TakeKeepsTasks(s: State, c: nat)
    requires TasksOk(s) && AddressesOk(s) && MapOk(s)
    ensures var s' := TakeEntries(s, c);
            AllTasks(s'.tasks) && DistinctAddresses(s'.tasks) && ExactMap(s'.handles, s'.tasks)
  {
    var tasks := TakeEntries(s, c).tasks;
    assert TakeEntries(s, c).handles == map[];
    hide TaskInv, TakeEntries, PhaseOf, Live;
    TakenTasks(s, c);
    forall t | t in s.tasks
      ensures TaskInv(tasks[t]) && Live(tasks[t]) == Live(s.tasks[t]) && tasks[t].addr == s.tasks[t].addr
      ensures !tasks[t].entry.InMap?
    {
      TakenKeepsEachTask(s, c, t);
    }
  }

  /** Nothing but the entries changes when the map is taken. */
  lemma TakenIsOnlyTaken(s: State, c: nat)
    requires MapOk(s)
    ensures TakeEntries(s, c) == s.(tasks := TakeEntries(s, c).tasks, handles := map[])
    ensures forall t :: t in s.tasks ==>
              TakeEntries(s, c).tasks[t] == s.tasks[t].(entry := TakeEntries(s, c).tasks[t].entry)
  {
    assert TakeEntries(s, c) == s.(tasks := TakeEntries(s, c).tasks, handles := map[]);
    hide TakeEntries, ExactMap;
    TakenTasks(s, c);
  }

  /** Neither admission nor the lifecycle looks at the entry of a task. */
  lemma TakeKeepsStanding(s: State, c: nat)
    requires MapOk(s)
    ensures var tasks := TakeEntries(s, c).tasks;
            && tasks.Keys == s.tasks.Keys
            && forall t :: t in s.tasks ==>
                 && InAdmission(tasks[t]) == InAdmission(s.tasks[t]) && tasks[t].stage == s.tasks[t].stage
                 && tasks[t].owner == s.tasks[t].owner
  {
    hide TakeEntries, ExactMap;
    TakenTasks(s, c);
    var tasks := TakeEntries(s, c).tasks;
    forall t | t in s.tasks
      ensures InAdmission(tasks[t]) == InAdmission(s.tasks[t])
    {
      assert tasks[t].stage == s.tasks[t].stage;
    }
  }

  lemma TakeKeepsExclusion(s: State, c: nat)
    requires MapOk(s) && AdmissionOk(s)
    ensures Exclusive(s.admission, s.submitters, TakeEntries(s, c).tasks, s.closers)
  {
    TakeKeepsStanding(s, c);
    hide TakeEntries, ExactMap, InAdmission, ClosesUnderAdmission;
  }

  lemma TakeKeepsStages(s: State, c: nat)
    requires MapOk(s) && LifeOk(s)
    ensures Staged(s.life, s.submitters, TakeEntries(s, c).tasks, s.closers)
  {
    TakeKeepsStanding(s, c);
    hide TakeEntries, ExactMap, InAdmission;
  }

  lemma TakeKeepsAdmission(s: State, c: nat)
    requires MapOk(s) && AdmissionOk(s) && LifeOk(s)
    ensures var tasks := TakeEntries(s, c).tasks;
            Exclusive(s.admission, s.submitters, tasks, s.closers) && Staged(s.life, s.submitters, tasks, s.closers)
  {
    hide TakeEntries, ExactMap, Exclusive, Staged;
    TakeKeepsExclusion(s, c);
    TakeKeepsStages(s, c);
  }

  lemma TakeKeepsReports(s: State, c: nat)
    requires MapOk(s) && ReportsOk(s)
    ensures HonestReports(TakeEntries(s, c).tasks, s.closers)
  {
    hide TakeEntries;
    TakenTasks(s, c);
    var tasks := TakeEntries(s, c).tasks;
    forall d | d in s.closers
      ensures HonestReport(tasks, d, s.closers[d])
    {
      assert HonestReport(s.tasks, d, s.closers[d]);
    }
  }

  lemma TakeKeepsDebts(s: State, c: nat)
    requires MapOk(s)
    ensures var tasks := TakeEntries(s, c).tasks;
            && (OwesBump(s.tasks, s.closers) ==> OwesBump(tasks, s.closers))
            && (OwesSync(s.tasks, s.closers) ==> OwesSync(tasks, s.closers))
            && (OwesAsync(s.tasks, s.closers) ==> OwesAsync(tasks, s.closers))
  {
    TakenTasks(s, c);
    TakenIsOnlyTaken(s, c);
    hide TakeEntries;
    var tasks := TakeEntries(s, c).tasks;
    assert forall t :: t in s.tasks ==> tasks[t].release == s.tasks[t].release;
    if t :| t in s.tasks && TaskOwesBump(s.tasks[t]) { assert TaskOwesBump(tasks[t]); }
    if t :| t in s.tasks && TaskOwesSync(s.tasks[t]) { assert TaskOwesSync(tasks[t]); }
    if t :| t in s.tasks && s.tasks[t].release.ToNotifyAsync? { assert tasks[t].release.ToNotifyAsync?; }
  }

  lemma TakeKeepsWaiters(s: State, c: nat)
    requires MapOk(s) && AsyncsOk(s) && SyncsOk(s) && HintsOk(s)
    ensures var tasks := TakeEntries(s, c).tasks;
            && AsyncsServed(s.life, s.counts, tasks, s.closers, s.asyncs)
            && SyncsServed(s.life, s.counts, tasks, s.closers, s.syncs)
            && HintsServed(s.capacity, s.life, s.counts, s.generation, tasks, s.closers, s.submitters)
  {
    hide OwesBump, OwesSync, OwesAsync, TakeEntries;
    TakeKeepsDebts(s, c);
  }

  /** After the take the map is empty and every entry belongs to this stop. */
  lemma TakeSweeps(s: State, c: nat, cl: Closer)
    requires MapOk(s) && StopOk(s) && AtClose(s, c, Unlocked) && cl == s.closers[c].(pc := Looping)
    ensures Swept(s.life, map[], TakeEntries(s, c).tasks, s.closers[c := cl])
  {
    hide TakeEntries, SomeStopBeforeTake, ExactMap;
    TakenTasks(s, c);
    var tasks := TakeEntries(s, c).tasks;
    forall t, d | t in tasks && HasHook(tasks[t], d)
      ensures IsLooping(s.closers[c := cl], d)
    {
      if d != c {
        assert HasHook(s.tasks[t], d);
      }
    }
  }

  lemma TakeKeepsSections(s: State, c: nat)
    requires TasksOk(s) && MapOk(s) && HooksOk(s) && MonitorOk(s)
    ensures OneAtATime(TakeEntries(s, c).tasks)
    ensures Mutex(s.monitor, TakeEntries(s, c).tasks, s.submitters, s.closers, s.asyncs, s.syncs)
  {
    hide TaskInv, TakeEntries, TaskSection, Engaged, HasHook, AllTasks, ExactMap, SubmittersInside, ClosersInside,
         AsyncsInside, SyncsInside, PhaseOf, Live;
    TakenTasks(s, c);
    var tasks := TakeEntries(s, c).tasks;
    forall t | t in s.tasks
      ensures TaskSection(t, tasks[t]) == TaskSection(t, s.tasks[t])
      ensures forall d :: Engaged(tasks[t], d) <==> Engaged(s.tasks[t], d)
    {
      TakenKeepsEachTask(s, c, t);
    }
  }

  lemma TakeKeepsInv(s: State, a: Action)
    requires Inv(s) && Enabled(s, a) && a.TakeHandles?
    ensures Inv(Apply(s, a))
  {
    hide AllTasks, Counted, DistinctAddresses, ExactMap, Exclusive, Staged, Swept, HonestReports, AsyncsServed,
         SyncsServed, HintsServed, GenerationsSeen, OneAtATime, Mutex, TakeEntries;
    var c, cl := a.closer, s.closers[a.closer].(pc := Looping);
    var s1 := TakeEntries(s, c);
    TakenIsOnlyTaken(s, c);
    ClosersHoldAdmission(s, c);
    TakeKeepsCounts(s, c);
    TakeKeepsTasks(s, c);
    TakeKeepsAdmission(s, c);
    TakeKeepsReports(s, c);
    TakeKeepsWaiters(s, c);
    TakeSweeps(s, c, cl);
    ExclusiveMoves(s1, s1.admission, c, cl);
    StagedMoves(s1, c, cl);
    ReportsMove(s1.tasks, s1.closers, c, cl);
    AsyncsMove(s1, c, cl);
    SyncsMove(s1, c, cl);
    HintsMove(s1, c, cl);
    TakeKeepsSections(s, c);
    SectionMoves(s1, s1.monitor, c, cl);
  }
}
