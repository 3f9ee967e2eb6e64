/** Every step of a shutdown or stop call keeps the invariant of the IO service. */
module IoCloserSteps {
  import opened Lifecycles
  import opened IoTask
  import opened IoModel
  import opened IoInvariant
  import Steps = IoTaskSteps

  // ----- the parts of the invariant while one closer moves

  lemma BumpDebtMoves(tasks: map<nat, Task>, closers: map<nat, Closer>, c: nat, cl: Closer)
    ensures CloserOwesBump(cl) ==> OwesBump(tasks, closers[c := cl])
    ensures OwesBump(tasks, closers) && (c in closers && CloserOwesBump(closers[c]) ==> CloserOwesBump(cl)) ==>
              OwesBump(tasks, closers[c := cl])
  {
    var moved := closers[c := cl];
    assert c in moved && moved[c] == cl;
    if OwesBump(tasks, closers) && (c in closers && CloserOwesBump(closers[c]) ==> CloserOwesBump(cl)) {
      if d :| d in closers && CloserOwesBump(closers[d]) {
        assert d in moved && CloserOwesBump(moved[d]);
      }
    }
  }

  lemma NotifyDebtMoves(tasks: map<nat, Task>, closers: map<nat, Closer>, c: nat, cl: Closer)
    ensures CloserOwesNotify(cl) ==> OwesNotify(tasks, closers[c := cl])
    ensures OwesNotify(tasks, closers) && (c in closers && CloserOwesNotify(closers[c]) ==> CloserOwesNotify(cl)) ==>
              OwesNotify(tasks, closers[c := cl])
  {
    var moved := closers[c := cl];
    assert c in moved && moved[c] == cl;
    if OwesNotify(tasks, closers) && (c in closers && CloserOwesNotify(closers[c]) ==> CloserOwesNotify(cl)) {
      if d :| d in closers && CloserOwesNotify(closers[d]) {
        assert d in moved && CloserOwesNotify(moved[d]);
      }
    }
  }

  lemma ReportsMove(tasks: map<nat, Task>, closers: map<nat, Closer>, c: nat, cl: Closer)
    requires HonestReports(tasks, closers)
    requires if c in closers then cl == closers[c].(pc := cl.pc) && HasSnapshot(cl) == HasSnapshot(closers[c])
             else !HasSnapshot(cl) && cl.counted == {} && cl.snap == {} && cl.running == 0 && cl.cancelled == 0
    ensures HonestReports(tasks, closers[c := cl])
  {
    hide Occupies, HasEntry;
    if c in closers {
      assert HonestReport(tasks, c, closers[c]);
    }
    assert HonestReport(tasks, c, cl);
  }

  /** The closer that leaves the critical section is the one that gives admission back. */
  lemma ExclusiveMoves(s: State, admission: Admission, c: nat, cl: Closer)
    requires AdmissionOk(s)
    requires ClosesUnderAdmission(cl) ==> admission == Admitted(CloserThread(c))
    requires if admission == s.admission then admission == Admitted(CloserThread(c)) ==> ClosesUnderAdmission(cl)
             else || (s.admission.Free? && admission == Admitted(CloserThread(c)) && ClosesUnderAdmission(cl))
                  || (s.admission == Admitted(CloserThread(c)) && admission.Free?)
    ensures Exclusive(admission, s.submitters, s.tasks, s.closers[c := cl])
  {
    hide InAdmission;
  }

  lemma CountMoves(s: State, admission: Admission)
    requires CountOk(s) && (admission == s.admission || (admission.Admitted? ==> !admission.owner.SubmitterThread?))
    ensures Counted(s.capacity, s.active, s.tasks, admission, s.submitters)
  {
    hide Occupying;
  }

  lemma StagedMoves(s: State, c: nat, cl: Closer)
    requires LifeOk(s) && (!cl.pc.Holding? ==> !s.life.Running? && (cl.stop ==> s.life.Stopping?))
    ensures Staged(s.life, s.submitters, s.tasks, s.closers[c := cl])
  {
    hide InAdmission;
  }

  lemma OwnedMoves(s: State, c: nat, cl: Closer)
    requires EntriesOk(s)
    requires cl.pc.Unlocked? || cl.pc.Looping? || cl.pc.Snapped? ==> cl.stop
    requires IsLooping(s.closers, c) && !cl.pc.Looping? ==> forall t :: t in s.tasks ==> !HasEntry(s.tasks[t], c)
    ensures Owned(s.tasks, s.closers[c := cl])
  {
    hide HasEntry;
  }

  lemma WaitersMove(s: State, c: nat, cl: Closer)
    requires WaitersOk(s)
    requires c in s.closers && CloserOwesNotify(s.closers[c]) ==> CloserOwesNotify(cl)
    ensures WaitersServed(s.life, s.active, s.tasks, s.closers[c := cl], s.waiters)
  {
    hide OwesNotify;
    NotifyDebtMoves(s.tasks, s.closers, c, cl);
  }

  lemma HintsMove(s: State, c: nat, cl: Closer)
    requires HintsOk(s)
    requires c in s.closers && CloserOwesBump(s.closers[c]) ==> CloserOwesBump(cl)
    ensures HintsServed(s.capacity, s.life, s.active, s.generation, s.tasks, s.closers[c := cl], s.submitters)
  {
    hide OwesBump;
    BumpDebtMoves(s.tasks, s.closers, c, cl);
  }

  lemma ClosersHoldAdmission(s: State, c: nat)
    requires AdmissionOk(s) && LifeOk(s)
    ensures c in s.closers ==> (ClosesUnderAdmission(s.closers[c]) <==> s.admission == Admitted(CloserThread(c)))
    ensures c in s.closers && !s.closers[c].pc.Holding? ==> !s.life.Running? && (s.closers[c].stop ==> s.life.Stopping?)
    ensures !s.life.Terminated?
  {
  }

  // ----- steps

  lemma CloseKeepsInv(s: State, a: Action)
    requires Inv(s) && Enabled(s, a) && a.Close?
    ensures Inv(Apply(s, a))
  {
    hide AllTasks, Counted, DistinctAddresses, ExactMap, Exclusive, Staged, Owned, HonestReports, WaitersServed,
         HintsServed, GenerationsSeen;
    var c := a.closer;
    var cl := Closer(a.stop, Holding, 0, 0, {}, {});
    ClosersHoldAdmission(s, c);
    ExclusiveMoves(s, Admitted(CloserThread(c)), c, cl);
    CountMoves(s, Admitted(CloserThread(c)));
    StagedMoves(s, c, cl);
    OwnedMoves(s, c, cl);
    ReportsMove(s.tasks, s.closers, c, cl);
    WaitersMove(s, c, cl);
    HintsMove(s, c, cl);
  }

  /** Publishing the closed lifecycle makes this closer owe both notifications. */
  lemma StoreKeepsWaiters(s: State, life: Lifecycle, c: nat, cl: Closer)
    requires WaitersOk(s) && HintsOk(s) && cl.pc.Stored? && !life.Running? && Rank(s.life) <= Rank(life)
    ensures WaitersServed(life, s.active, s.tasks, s.closers[c := cl], s.waiters)
    ensures HintsServed(s.capacity, life, s.active, s.generation, s.tasks, s.closers[c := cl], s.submitters)
  {
    hide OwesNotify, OwesBump;
    NotifyDebtMoves(s.tasks, s.closers, c, cl);
    BumpDebtMoves(s.tasks, s.closers, c, cl);
  }

  /** The lifecycle is stored by the holder of admission, so nobody is past the running check. */
  lemma StoreKeepsStages(s: State, life: Lifecycle, c: nat, cl: Closer)
    requires AdmissionOk(s) && LifeOk(s) && AtClose(s, c, Holding)
    requires cl == s.closers[c].(pc := Stored) && life == (if cl.stop then Stopping else ShutdownOf(s.life))
    ensures Staged(life, s.submitters, s.tasks, s.closers[c := cl])
  {
    hide InAdmission;
  }

  lemma StoreKeepsInv(s: State, a: Action)
    requires Inv(s) && Enabled(s, a) && a.StoreLifecycle?
    ensures Inv(Apply(s, a))
  {
    hide AllTasks, Counted, DistinctAddresses, ExactMap, Exclusive, Staged, Owned, HonestReports, WaitersServed,
         HintsServed, GenerationsSeen;
    var c := a.closer;
    var cl := s.closers[c].(pc := Stored);
    var life := if cl.stop then Stopping else ShutdownOf(s.life);
    ClosersHoldAdmission(s, c);
    ExclusiveMoves(s, s.admission, c, cl);
    StoreKeepsStages(s, life, c, cl);
    OwnedMoves(s, c, cl);
    ReportsMove(s.tasks, s.closers, c, cl);
    StoreKeepsWaiters(s, life, c, cl);
  }

  lemma NothingCountedYet(tasks: map<nat, Task>, closers: map<nat, Closer>, c: nat)
    requires HonestReports(tasks, closers) && c in closers && !HasSnapshot(closers[c])
    ensures closers[c].counted == {} && closers[c].cancelled == 0
  {
    hide Occupies, HasEntry;
    assert HonestReport(tasks, c, closers[c]);
  }

  lemma SnapshotIsHonest(tasks: map<nat, Task>, c: nat, cl: Closer)
    requires cl.snap == Occupying(tasks) && cl.running == |Occupying(tasks)| && cl.counted == {} && cl.cancelled == 0
    requires HasSnapshot(cl) && forall t :: t in tasks ==> !HasEntry(tasks[t], c)
    ensures HonestReport(tasks, c, cl)
  {
    hide Occupies, HasEntry;
  }

  lemma NoEntriesBeforeLoop(s: State, c: nat)
    requires EntriesOk(s) && !IsLooping(s.closers, c)
    ensures forall t :: t in s.tasks ==> !HasEntry(s.tasks[t], c)
  {
    hide HasEntry;
  }

  lemma SnapshotKeepsReports(s: State, c: nat, cl: Closer)
    requires CountOk(s) && ReportsOk(s) && EntriesOk(s) && c in s.closers && s.closers[c].stop
    requires s.closers[c].pc.Stored?
    requires cl == s.closers[c].(pc := Snapped, running := s.active, snap := Occupying(s.tasks))
    ensures HonestReports(s.tasks, s.closers[c := cl])
  {
    hide Occupies, Occupying, HasEntry, Owned, HonestReport;
    NoEntriesBeforeLoop(s, c);
    NothingCountedYet(s.tasks, s.closers, c);
    SnapshotIsHonest(s.tasks, c, cl);
  }

  lemma SnapshotKeepsInv(s: State, a: Action)
    requires Inv(s) && Enabled(s, a) && a.Snapshot?
    ensures Inv(Apply(s, a))
  {
    hide AllTasks, Counted, DistinctAddresses, ExactMap, Exclusive, Staged, Owned, HonestReports, WaitersServed,
         HintsServed, GenerationsSeen, Occupying;
    var c := a.closer;
    var cl := s.closers[c].(pc := Snapped, running := s.active, snap := Occupying(s.tasks));
    ClosersHoldAdmission(s, c);
    ExclusiveMoves(s, s.admission, c, cl);
    CountMoves(s, s.admission);
    StagedMoves(s, c, cl);
    OwnedMoves(s, c, cl);
    SnapshotKeepsReports(s, c, cl);
    WaitersMove(s, c, cl);
    HintsMove(s, c, cl);
  }

  lemma ReleaseAdmissionKeepsInv(s: State, a: Action)
    requires Inv(s) && Enabled(s, a) && a.ReleaseAdmission?
    ensures Inv(Apply(s, a))
  {
    hide AllTasks, Counted, DistinctAddresses, ExactMap, Exclusive, Staged, Owned, HonestReports, WaitersServed,
         HintsServed, GenerationsSeen;
    var c := a.closer;
    var cl := s.closers[c].(pc := if s.closers[c].stop then Unlocked else Bumping);
    ClosersHoldAdmission(s, c);
    ExclusiveMoves(s, Free, c, cl);
    CountMoves(s, Free);
    StagedMoves(s, c, cl);
    OwnedMoves(s, c, cl);
    ReportsMove(s.tasks, s.closers, c, cl);
    WaitersMove(s, c, cl);
    HintsMove(s, c, cl);
  }

  lemma EndLoopKeepsInv(s: State, a: Action)
    requires Inv(s) && Enabled(s, a) && a.EndLoop?
    ensures Inv(Apply(s, a))
  {
    hide AllTasks, Counted, DistinctAddresses, ExactMap, Exclusive, Staged, Owned, HonestReports, WaitersServed,
         HintsServed, GenerationsSeen, HasEntry;
    var c := a.closer;
    var cl := s.closers[c].(pc := Bumping);
    ClosersHoldAdmission(s, c);
    ExclusiveMoves(s, s.admission, c, cl);
    CountMoves(s, s.admission);
    StagedMoves(s, c, cl);
    OwnedMoves(s, c, cl);
    ReportsMove(s.tasks, s.closers, c, cl);
    WaitersMove(s, c, cl);
    HintsMove(s, c, cl);
  }

  /** After a bump nobody has seen the current generation. */
  lemma BumpServesHints(s: State, closers: map<nat, Closer>)
    requires SeenOk(s)
    ensures HintsServed(s.capacity, s.life, s.active, s.generation + 1, s.tasks, closers, s.submitters)
    ensures GenerationsSeen(s.submitters, s.generation + 1)
  {
    hide OwesBump;
  }

  lemma BumpKeepsInv(s: State, a: Action)
    requires Inv(s) && Enabled(s, a) && a.BumpCapacity?
    ensures Inv(Apply(s, a))
  {
    hide AllTasks, Counted, DistinctAddresses, ExactMap, Exclusive, Staged, Owned, HonestReports, WaitersServed,
         HintsServed, GenerationsSeen;
    var c := a.closer;
    var cl := s.closers[c].(pc := Notifying);
    ClosersHoldAdmission(s, c);
    ExclusiveMoves(s, s.admission, c, cl);
    CountMoves(s, s.admission);
    StagedMoves(s, c, cl);
    OwnedMoves(s, c, cl);
    ReportsMove(s.tasks, s.closers, c, cl);
    WaitersMove(s, c, cl);
    BumpServesHints(s, s.closers[c := cl]);
  }

  /** notify_waiters leaves no enabled notification unfired. */
  lemma NotifyServesWaiters(s: State, closers: map<nat, Closer>)
    requires WaitersOk(s)
    ensures WaitersServed(s.life, s.active, s.tasks, closers, WokenWaiters(s.waiters))
  {
    hide OwesNotify, WokenWaiters;
    Steps.WokenFacts(s.waiters);
  }

  lemma NotifyKeepsInv(s: State, a: Action)
    requires Inv(s) && Enabled(s, a) && a.NotifyWaiters?
    ensures Inv(Apply(s, a))
  {
    hide AllTasks, Counted, DistinctAddresses, ExactMap, Exclusive, Staged, Owned, HonestReports, WaitersServed,
         HintsServed, GenerationsSeen, WokenWaiters;
    var c := a.closer;
    var cl := s.closers[c].(pc := Reported);
    ClosersHoldAdmission(s, c);
    ExclusiveMoves(s, s.admission, c, cl);
    CountMoves(s, s.admission);
    StagedMoves(s, c, cl);
    OwnedMoves(s, c, cl);
    ReportsMove(s.tasks, s.closers, c, cl);
    NotifyServesWaiters(s, s.closers[c := cl]);
    HintsMove(s, c, cl);
  }

  // ----- taking the map

  /** Exactly the listed tasks change hands, whatever the addresses were. */
  lemma TakenTasks(s: State, c: nat)
    requires MapOk(s)
    ensures TakeEntries(s, c) == s.(tasks := TakeEntries(s, c).tasks, handles := map[])
    ensures TakeEntries(s, c).tasks.Keys == s.tasks.Keys
    ensures forall t :: t in s.tasks ==>
              TakeEntries(s, c).tasks[t] ==
              if s.tasks[t].entry.InMap? then s.tasks[t].(entry := Taken(c)) else s.tasks[t]
  {
    forall t | t in s.tasks && s.tasks[t].entry.InMap?
      ensures t in s.handles.Values
    {
      assert s.tasks[t].addr in s.handles && s.handles[s.tasks[t].addr] == t;
    }
  }

  lemma TakenKeepsEachTask(s: State, c: nat, t: nat)
    requires TasksOk(s) && MapOk(s) && t in s.tasks
    ensures t in TakeEntries(s, c).tasks
    ensures var k, k' := s.tasks[t], TakeEntries(s, c).tasks[t];
            && TaskInv(k') && Occupies(k') == Occupies(k) && Live(k') == Live(k) && k'.addr == k.addr && !k'.entry.InMap?
            && (HasEntry(k', c) ==> HasEntry(k, c) || Occupies(k))
            && (forall d :: d != c && HasEntry(k', d) ==> HasEntry(k, d))
  {
    hide TaskInv, TakeEntries;
    TakenTasks(s, c);
    if s.tasks[t].entry.InMap? {
      TakenKeepsTaskInv(s.tasks[t], c);
    }
  }

  lemma TakeKeepsCount(s: State, c: nat)
    requires TasksOk(s) && CountOk(s) && MapOk(s)
    ensures Counted(s.capacity, s.active, TakeEntries(s, c).tasks, s.admission, s.submitters)
  {
    hide TaskInv, TakeEntries, Occupies, Live;
    TakenTasks(s, c);
    var tasks := TakeEntries(s, c).tasks;
    forall t | t in s.tasks
      ensures Occupies(tasks[t]) == Occupies(s.tasks[t])
    {
      TakenKeepsEachTask(s, c, t);
    }
    assert Occupying(tasks) == Occupying(s.tasks);
  }

  lemma TakeKeepsTasks(s: State, c: nat)
    requires TasksOk(s) && AddressesOk(s) && MapOk(s)
    ensures var s' := TakeEntries(s, c);
            AllTasks(s'.tasks) && DistinctAddresses(s'.tasks) && ExactMap(s'.handles, s'.tasks)
  {
    hide TaskInv, TakeEntries, Occupies, Live;
    TakenTasks(s, c);
    var tasks := TakeEntries(s, c).tasks;
    forall t | t in s.tasks
      ensures TaskInv(tasks[t]) && Live(tasks[t]) == Live(s.tasks[t]) && tasks[t].addr == s.tasks[t].addr
      ensures !tasks[t].entry.InMap?
    {
      TakenKeepsEachTask(s, c, t);
    }
  }

  /** Neither admission nor the lifecycle looks at the entry of a task. */
  lemma TakeKeepsStanding(s: State, c: nat)
    requires MapOk(s)
    ensures var tasks := TakeEntries(s, c).tasks;
            && tasks.Keys == s.tasks.Keys
            && forall t :: t in s.tasks ==>
                 && InAdmission(tasks[t]) == InAdmission(s.tasks[t]) && tasks[t].stage == s.tasks[t].stage
                 && tasks[t].owner == s.tasks[t].owner
  {
    hide TakeEntries, ExactMap;
    TakenTasks(s, c);
    var tasks := TakeEntries(s, c).tasks;
    forall t | t in s.tasks
      ensures InAdmission(tasks[t]) == InAdmission(s.tasks[t])
    {
      assert tasks[t].stage == s.tasks[t].stage;
    }
  }

  lemma TakeKeepsExclusion(s: State, c: nat)
    requires MapOk(s) && AdmissionOk(s)
    ensures Exclusive(s.admission, s.submitters, TakeEntries(s, c).tasks, s.closers)
  {
    TakeKeepsStanding(s, c);
    hide TakeEntries, ExactMap, InAdmission, ClosesUnderAdmission;
  }

  lemma TakeKeepsStages(s: State, c: nat)
    requires MapOk(s) && LifeOk(s)
    ensures Staged(s.life, s.submitters, TakeEntries(s, c).tasks, s.closers)
  {
    TakeKeepsStanding(s, c);
    hide TakeEntries, ExactMap, InAdmission;
  }

  lemma TakeKeepsAdmission(s: State, c: nat)
    requires MapOk(s) && AdmissionOk(s) && LifeOk(s)
    ensures var tasks := TakeEntries(s, c).tasks;
            Exclusive(s.admission, s.submitters, tasks, s.closers) && Staged(s.life, s.submitters, tasks, s.closers)
  {
    hide TakeEntries, ExactMap, Exclusive, Staged;
    TakeKeepsExclusion(s, c);
    TakeKeepsStages(s, c);
  }

  /** Every listed task was active at the snapshot, because nothing is accepted after it. */
  lemma TakeKeepsReports(s: State, c: nat)
    requires TasksOk(s) && MapOk(s) && ReportsOk(s) && AtClose(s, c, Unlocked) && s.closers[c].stop
    ensures HonestReports(TakeEntries(s, c).tasks, s.closers)
  {
    hide TakeEntries, TaskInv, Occupies, Live, HasEntry;
    TakenTasks(s, c);
    var tasks := TakeEntries(s, c).tasks;
    forall d | d in s.closers
      ensures HonestReport(tasks, d, s.closers[d])
    {
      assert HonestReport(s.tasks, d, s.closers[d]);
      forall t | t in s.tasks && HasSnapshot(s.closers[d]) && (Occupies(tasks[t]) || HasEntry(tasks[t], d))
        ensures t in s.closers[d].snap
      {
        TakenKeepsEachTask(s, c, t);
      }
    }
  }

  lemma TakeKeepsWaiters(s: State, c: nat)
    requires MapOk(s) && WaitersOk(s) && HintsOk(s)
    ensures var tasks := TakeEntries(s, c).tasks;
            && WaitersServed(s.life, s.active, tasks, s.closers, s.waiters)
            && HintsServed(s.capacity, s.life, s.active, s.generation, tasks, s.closers, s.submitters)
  {
    hide TakeEntries, OwesBump, OwesNotify;
    TakeKeepsDebts(s, c);
  }

  lemma TakeKeepsDebts(s: State, c: nat)
    requires MapOk(s)
    ensures OwesBump(s.tasks, s.closers) ==> OwesBump(TakeEntries(s, c).tasks, s.closers)
    ensures OwesNotify(s.tasks, s.closers) ==> OwesNotify(TakeEntries(s, c).tasks, s.closers)
  {
    hide TakeEntries, ExactMap;
    TakenTasks(s, c);
    var tasks := TakeEntries(s, c).tasks;
    assert forall t :: t in s.tasks ==> tasks[t].guard == s.tasks[t].guard;
    if t :| t in s.tasks && s.tasks[t].guard.ToBump? { assert tasks[t].guard.ToBump?; }
    if t :| t in s.tasks && TaskOwesNotify(s.tasks[t]) { assert TaskOwesNotify(tasks[t]); }
  }

  lemma TakeKeepsOwners(s: State, c: nat, cl: Closer)
    requires TasksOk(s) && MapOk(s) && EntriesOk(s) && AtClose(s, c, Unlocked) && cl == s.closers[c].(pc := Looping)
    ensures Owned(TakeEntries(s, c).tasks, s.closers[c := cl])
  {
    hide TakeEntries, TaskInv, Occupies, Live, HasEntry, ExactMap;
    TakenTasks(s, c);
    var tasks := TakeEntries(s, c).tasks;
    forall t, d | t in tasks && HasEntry(tasks[t], d)
      ensures IsLooping(s.closers[c := cl], d)
    {
      if d != c {
        TakenKeepsEachTask(s, c, t);
        assert HasEntry(s.tasks[t], d);
      }
    }
  }

  lemma StopsHaveLoops(s: State, c: nat)
    requires EntriesOk(s) && AtClose(s, c, Unlocked)
    ensures s.closers[c].stop
  {
  }

  lemma TakeKeepsInv(s: State, a: Action)
    requires Inv(s) && Enabled(s, a) && a.TakeHandles?
    ensures Inv(Apply(s, a))
  {
    hide AllTasks, Counted, DistinctAddresses, ExactMap, Exclusive, Staged, Owned, HonestReports, WaitersServed,
         HintsServed, GenerationsSeen, TakeEntries;
    var c := a.closer;
    var cl := s.closers[c].(pc := Looping);
    var s1 := TakeEntries(s, c);
    TakenTasks(s, c);
    ClosersHoldAdmission(s, c);
    StopsHaveLoops(s, c);
    TakeKeepsCount(s, c);
    TakeKeepsTasks(s, c);
    TakeKeepsAdmission(s, c);
    TakeKeepsReports(s, c);
    TakeKeepsWaiters(s, c);
    TakeKeepsOwners(s, c, cl);
    ExclusiveMoves(s1, s1.admission, c, cl);
    StagedMoves(s1, c, cl);
    ReportsMove(s1.tasks, s1.closers, c, cl);
    WaitersMove(s1, c, cl);
    HintsMove(s1, c, cl);
  }
}
