/** Every step of submitters and waiters keeps the invariant of the IO service. */
module IoThreadSteps {
  import opened Lifecycles
  import opened IoTask
  import opened IoModel
  import opened IoInvariant
  import Steps = IoTaskSteps

  // ----- one submitter moves

  /** A thread without an unreturned task moves; if admission changes hands, it gets it or gives it back. */
  lemma AdmissionMoves(s: State, admission: Admission, th: nat, b: Submitter)
    requires AdmissionOk(s) && (th in s.submitters ==> !s.submitters[th].Busy?) && !b.Busy?
    requires HoldsAdmission(b) <==> admission == Admitted(SubmitterThread(th))
    requires || admission == s.admission
             || (s.admission.Free? && admission == Admitted(SubmitterThread(th)))
             || (s.admission == Admitted(SubmitterThread(th)) && admission.Free?)
    ensures Exclusive(admission, s.submitters[th := b], s.tasks, s.closers)
  {
    hide InAdmission, ClosesUnderAdmission;
    Steps.AdmissionIsNotReturned(s);
  }

  lemma LifeMoves(s: State, th: nat, b: Submitter)
    requires LifeOk(s) && (PastCheck(b) ==> s.life.Running?)
    ensures Staged(s.life, s.submitters[th := b], s.tasks, s.closers)
  {
    hide InAdmission;
  }

  lemma HintsMove(s: State, th: nat, b: Submitter)
    requires HintsOk(s) && SeenOk(s) && HasSeen(b, s.generation)
    requires (b.Full? || b.Parking?) && b.seen == s.generation ==>
               (s.life.Running? && s.active == s.capacity) || OwesBump(s.tasks, s.closers)
    ensures HintsServed(s.capacity, s.life, s.active, s.generation, s.tasks, s.closers, s.submitters[th := b])
    ensures GenerationsSeen(s.submitters[th := b], s.generation)
  {
    hide OwesBump;
  }

  /** The thread that has found room is the one that holds admission. */
  lemma CountMoves(s: State, admission: Admission, th: nat, b: Submitter)
    requires CountOk(s) && (admission == s.admission || admission == Admitted(SubmitterThread(th)) || admission.Free?)
    requires b.HasRoom? ==> s.active < s.capacity
    ensures Counted(s.capacity, s.active, s.tasks, admission, s.submitters[th := b])
  {
    hide Occupying;
  }

  /** Moving one submitter touches no other part of the invariant. */
  lemma SubmitterMoves(s: State, admission: Admission, th: nat, b: Submitter)
    requires Inv(s) && (th in s.submitters ==> !s.submitters[th].Busy?) && !b.Busy?
    requires HoldsAdmission(b) <==> admission == Admitted(SubmitterThread(th))
    requires || admission == s.admission
             || (s.admission.Free? && admission == Admitted(SubmitterThread(th)))
             || (s.admission == Admitted(SubmitterThread(th)) && admission.Free?)
    requires PastCheck(b) ==> s.life.Running?
    requires b.HasRoom? ==> s.active < s.capacity
    requires HasSeen(b, s.generation)
    requires (b.Full? || b.Parking?) && b.seen == s.generation ==>
               (s.life.Running? && s.active == s.capacity) || OwesBump(s.tasks, s.closers)
    ensures Inv(s.(admission := admission, submitters := s.submitters[th := b]))
  {
    hide AllTasks, Counted, DistinctAddresses, ExactMap, Exclusive, Staged, Owned, HonestReports, WaitersServed,
         HintsServed, GenerationsSeen, OwesBump;
    AdmissionMoves(s, admission, th, b);
    LifeMoves(s, th, b);
    HintsMove(s, th, b);
    CountMoves(s, admission, th, b);
  }

  lemma SubmitterFacts(s: State, th: nat)
    requires Inv(s)
    ensures th in s.submitters ==>
              var b := s.submitters[th];
              && HasSeen(b, s.generation) && (HoldsAdmission(b) <==> s.admission == Admitted(SubmitterThread(th)) && !b.Busy?)
              && (PastCheck(b) ==> s.life.Running?)
              && ((b.Full? || b.Parking?) && b.seen == s.generation ==>
                    (s.life.Running? && s.active == s.capacity) || OwesBump(s.tasks, s.closers))
    ensures th !in s.submitters ==> s.admission != Admitted(SubmitterThread(th))
    ensures s.active <= s.capacity
  {
    hide AllTasks, DistinctAddresses, ExactMap, Owned, HonestReports, WaitersServed, OwesBump, InAdmission,
         Occupying;
  }

  // ----- steps before acceptance

  lemma SubscribeKeepsInv(s: State, a: Action)
    requires Inv(s) && Enabled(s, a) && (a.Subscribe? || a.Retry?)
    ensures Inv(Apply(s, a))
  {
    hide Inv, OwesBump;
    SubmitterFacts(s, a.thread);
    SubmitterMoves(s, s.admission, a.thread, Ready(s.generation));
  }

  lemma LockKeepsInv(s: State, a: Action)
    requires Inv(s) && Enabled(s, a) && a.Lock?
    ensures Inv(Apply(s, a))
  {
    hide Inv, OwesBump;
    SubmitterFacts(s, a.thread);
    SubmitterMoves(s, Admitted(SubmitterThread(a.thread)), a.thread, Locked(s.submitters[a.thread].seen));
  }

  lemma CheckRunningKeepsInv(s: State, a: Action)
    requires Inv(s) && Enabled(s, a) && a.CheckRunning?
    ensures Inv(Apply(s, a))
  {
    hide Inv, OwesBump;
    SubmitterFacts(s, a.thread);
    SubmitterMoves(s, s.admission, a.thread, if s.life.Running? then Checked(s.submitters[a.thread].seen) else Refused);
  }

  /** A saturated verdict is that of the count at the read, and room found under admission lasts. */
  lemma CheckCapacityKeepsInv(s: State, a: Action)
    requires Inv(s) && Enabled(s, a) && a.CheckCapacity?
    ensures Inv(Apply(s, a))
    ensures s.life.Running? && (s.active >= s.capacity ==> s.active == s.capacity)
  {
    hide Inv, OwesBump;
    SubmitterFacts(s, a.thread);
    SubmitterMoves(s, s.admission, a.thread,
                   if s.active >= s.capacity then Full(s.submitters[a.thread].seen) else HasRoom);
  }

  lemma RejectKeepsInv(s: State, a: Action)
    requires Inv(s) && Enabled(s, a) && a.Reject?
    ensures Inv(Apply(s, a))
  {
    hide Inv, OwesBump;
    SubmitterFacts(s, a.thread);
    var b := s.submitters[a.thread];
    SubmitterMoves(s, Free, a.thread, if b.Full? then Parking(b.seen) else Idle);
  }

  // ----- acceptance

  lemma BumpDebtOfNewTask(tasks: map<nat, Task>, closers: map<nat, Closer>, t: nat, k: Task)
    requires t !in tasks && OwesBump(tasks, closers)
    ensures OwesBump(tasks[t := k], closers)
  {
    if u :| u in tasks && tasks[u].guard.ToBump? {
      assert tasks[t := k][u].guard.ToBump?;
    }
  }

  lemma IncrementKeepsTables(s: State, t: nat, k: Task)
    requires Inv(s) && s.life.Running? && t !in s.tasks && k.stage.Reserved? && k.entry.Unregistered?
    requires k.counter.Uncounted?
    ensures DistinctAddresses(s.tasks[t := k])
    ensures ExactMap(s.handles, s.tasks[t := k])
    ensures Owned(s.tasks[t := k], s.closers)
    ensures HonestReports(s.tasks[t := k], s.closers)
  {
    hide AllTasks, Occupies, Counted, WaitersServed, HintsServed, Exclusive;
    assert !Live(k);
    forall c | c in s.closers
      ensures HonestReport(s.tasks[t := k], c, s.closers[c])
    {
      assert HonestReport(s.tasks, c, s.closers[c]);
    }
  }

  lemma IncrementKeepsCount(s: State, t: nat, k: Task, submitters: map<nat, Submitter>)
    requires CountOk(s) && AboutToIncrement(s.submitters, s.admission) && t !in s.tasks && Occupies(k)
    requires submitters == s.submitters[s.admission.owner.thread := Busy(t)]
    ensures s.active < s.capacity && Counted(s.capacity, s.active + 1, s.tasks[t := k], s.admission, submitters)
  {
    hide Occupies, Occupying;
    OccupyingUpdate(s.tasks, t, k);
  }

  /** The new task belongs to the thread that holds admission and is in admission itself. */
  lemma IncrementKeepsAdmission(s: State, t: nat, th: nat, k: Task)
    requires AdmissionOk(s) && LifeOk(s) && t !in s.tasks && s.life.Running?
    requires th in s.submitters && s.submitters[th].HasRoom? && k.owner == th && InAdmission(k) && !k.stage.Returned?
    ensures Exclusive(s.admission, s.submitters[th := Busy(t)], s.tasks[t := k], s.closers)
    ensures Staged(s.life, s.submitters[th := Busy(t)], s.tasks[t := k], s.closers)
  {
    hide InAdmission, ClosesUnderAdmission;
    Steps.AdmissionIsNotReturned(s);
  }

  lemma IncrementKeepsHints(s: State, t: nat, th: nat, k: Task)
    requires HintsOk(s) && SeenOk(s) && t !in s.tasks && s.active < s.capacity
    ensures HintsServed(s.capacity, s.life, s.active + 1, s.generation, s.tasks[t := k], s.closers,
                        s.submitters[th := Busy(t)])
    ensures GenerationsSeen(s.submitters[th := Busy(t)], s.generation)
  {
    hide OwesBump;
    if OwesBump(s.tasks, s.closers) {
      BumpDebtOfNewTask(s.tasks, s.closers, t, k);
    }
  }

  lemma RoomIsHeld(s: State, th: nat)
    requires AdmissionOk(s) && LifeOk(s) && th in s.submitters && s.submitters[th].HasRoom?
    ensures s.admission == Admitted(SubmitterThread(th)) && s.life.Running?
  {
    hide InAdmission;
  }

  lemma IncrementKeepsInv(s: State, a: Action)
    requires Inv(s) && Enabled(s, a) && a.Increment?
    ensures Inv(Apply(s, a))
  {
    hide TaskInv, DistinctAddresses, ExactMap, Exclusive, Staged, Owned, HonestReports, HintsServed, GenerationsSeen,
         OwesNotify, Counted, Occupies, InAdmission;
    var k := NewTask(a.thread);
    NewTaskInv(a.thread);
    RoomIsHeld(s, a.thread);
    IncrementKeepsCount(s, a.task, k, s.submitters[a.thread := Busy(a.task)]);
    IncrementKeepsTables(s, a.task, k);
    NewTaskIsInside(a.thread);
    IncrementKeepsAdmission(s, a.task, a.thread, k);
    IncrementKeepsHints(s, a.task, a.thread, k);
  }

  lemma NewTaskIsInside(owner: nat)
    ensures InAdmission(NewTask(owner)) && !NewTask(owner).stage.Returned?
  {
  }

  // ----- waiters

  /** Moving one waiter touches no other part of the invariant. */
  lemma WaiterMoves(s: State, w: nat, x: Waiter)
    requires Inv(s)
    requires IsTerminated(s) && !WaiterSafe(x) ==> OwesNotify(s.tasks, s.closers)
    requires x.Reading? ==> Rank(x.seen) <= Rank(s.life) && !x.seen.Terminated?
    requires x.Resolved? ==> IsTerminated(s)
    ensures Inv(s.(waiters := s.waiters[w := x]))
  {
    hide AllTasks, Counted, DistinctAddresses, ExactMap, Exclusive, Staged, Owned, HonestReports, HintsServed,
         OwesNotify, GenerationsSeen;
  }

  lemma AwaitKeepsInv(s: State, a: Action)
    requires Inv(s) && Enabled(s, a) && (a.Await? || a.Resume?)
    ensures Inv(Apply(s, a))
  {
    hide Inv, OwesNotify;
    WaiterMoves(s, a.waiter, Enabling);
  }

  lemma EnableKeepsInv(s: State, a: Action)
    requires Inv(s) && Enabled(s, a) && a.Enable?
    ensures Inv(Apply(s, a))
  {
    hide Inv, OwesNotify;
    WaiterMoves(s, a.waiter, Loading(false));
  }

  /** What a waiter sees may be old, and then a notification it has enabled is owed or has fired. */
  lemma WaiterFacts(s: State, w: nat)
    requires Inv(s) && w in s.waiters
    ensures IsTerminated(s) && !WaiterSafe(s.waiters[w]) ==> OwesNotify(s.tasks, s.closers)
    ensures s.waiters[w].Reading? ==> Rank(s.waiters[w].seen) <= Rank(s.life) && !s.waiters[w].seen.Terminated?
    ensures !s.life.Terminated?
  {
    hide AllTasks, Counted, DistinctAddresses, ExactMap, Exclusive, Owned, HonestReports, HintsServed, OwesNotify,
         GenerationsSeen, InAdmission;
  }

  lemma LoadLifecycleKeepsInv(s: State, a: Action)
    requires Inv(s) && Enabled(s, a) && a.LoadLifecycle?
    ensures Inv(Apply(s, a))
  {
    hide Inv, OwesNotify;
    WaiterFacts(s, a.waiter);
    WaiterMoves(s, a.waiter, Reading(s.life, s.waiters[a.waiter].woken));
  }

  lemma ReadCountKeepsInv(s: State, a: Action)
    requires Inv(s) && Enabled(s, a) && a.ReadCount?
    ensures Inv(Apply(s, a))
  {
    hide Inv, OwesNotify;
    WaiterFacts(s, a.waiter);
    var x := s.waiters[a.waiter];
    WaiterMoves(s, a.waiter, if Derived(x.seen, s.active == 0).Terminated? then Resolved else Parked(x.woken));
  }
}
