/** A stop of the blocking service that nobody interrupts is a run of the transition system, in whatever order it
    goes through the entries, and it does what the method of the service does. */
module BlockingStopCalls {
  import opened Lifecycles
  import opened TaskCounts
  import opened BlockingTask
  import opened BlockingModel
  import opened BlockingInvariant
  import opened BlockingCalls
  import opened BlockingServiceCalls
  import BlockingState

  // ----- one entry

  function Hooking(t: nat, a: HookAct): Action {
    OnTask(t, ByStop(a))
  }

  lemma HookStep(s: State, t: nat, a: HookAct)
    requires t in s.tasks && CanHook(s.tasks[t], a) && !a.HookCancelSlot?
    requires a.HookCheck? ==> NobodyEngaged(s.tasks, s.tasks[t].entry.closer)
    ensures Enabled(s, Hooking(t, a))
    ensures Apply(s, Hooking(t, a)) == s.(tasks := s.tasks[t := RunHook(s.tasks[t], a)])
  {
    hide RunHook, NobodyEngaged;
  }

  /** The task that the hook cancels: Tokio still knows it and it has not started. */
  predicate IsHit(k: Task) {
    !k.job.Gone? && k.cas.CasQueued?
  }

  /** The task after Tokio was asked to abort it and the hook has tried the compare-exchange. */
  function Compared(k: Task, c: nat): Task {
    if k.job.Gone? then k.(entry := NoEntry)
    else if k.cas.CasQueued? then
      k.(aborted := true, cas := CasFinished, release := ToWrite(false), releasedBy := ByTheHook(c),
         entry := HookReleasing(c))
    else k.(aborted := true, entry := NoEntry)
  }

  function CompareHookSteps(t: nat, k: Task): seq<Action> {
    if k.job.Gone? then [Hooking(t, HookCheck)]
    else [Hooking(t, HookCheck)] + [Hooking(t, HookAbortJob)] + [Hooking(t, HookCompare)]
  }

  lemma ComparedFacts(k: Task, c: nat)
    requires k.entry == Taken(c)
    ensures CanHook(k, HookCheck) && (k.job.Gone? ==> RunHook(k, HookCheck) == Compared(k, c))
    ensures !k.job.Gone? ==>
              var k1 := RunHook(k, HookCheck);
              && CanHook(k1, HookAbortJob)
              && var k2 := RunHook(k1, HookAbortJob);
                 CanHook(k2, HookCompare) && RunHook(k2, HookCompare) == Compared(k, c)
  {
  }

  lemma ComparedIsARun(s: State, t: nat, c: nat)
    requires t in s.tasks && s.tasks[t].entry == Taken(c) && NobodyEngaged(s.tasks, c)
    ensures Solo(s, CompareHookSteps(t, s.tasks[t]), s.(tasks := s.tasks[t := Compared(s.tasks[t], c)]))
  {
    var k := s.tasks[t];
    hide Apply, Enabled, Solo, RunHook, CanHook, NobodyEngaged, Hooking, Compared;
    ComparedFacts(k, c);
    HookStep(s, t, HookCheck);
    SoloOne(s, Hooking(t, HookCheck));
    if !k.job.Gone? {
      var k1 := RunHook(k, HookCheck);
      var k2 := RunHook(k1, HookAbortJob);
      var s1 := s.(tasks := s.tasks[t := k1]);
      HookStep(s1, t, HookAbortJob);
      SoloAndOne(s, [Hooking(t, HookCheck)], s1, Hooking(t, HookAbortJob));
      Overwrite(s.tasks, t, k1, k2);
      var s2 := s.(tasks := s.tasks[t := k2]);
      HookStep(s2, t, HookCompare);
      SoloAndOne(s, [Hooking(t, HookCheck)] + [Hooking(t, HookAbortJob)], s2, Hooking(t, HookCompare));
      Overwrite(s.tasks, t, k2, Compared(k, c));
    }
  }

  /** The hit task at the end: its count is released, its slot is cancelled and its hook is gone. */
  function Aborted(k: Task, c: nat): Task {
    if !IsHit(k) then Compared(k, c)
    else
      Compared(k, c).(release := Released, entry := NoEntry,
                      slotFull := if k.kind.Runnable? then k.slotFull else false,
                      endpoint := if k.kind.Runnable? then k.endpoint else CancelUnstarted(k.slotFull, k.endpoint))
  }

  function Counted(cl: Closer, t: nat): Closer {
    cl.(cancelled := cl.cancelled + 1, counted := cl.counted + {t})
  }

  function SlotSteps(t: nat): seq<Action> {
    [Hooking(t, HookReleased)] + [Hooking(t, HookCancelSlot)]
  }

  lemma ReleasedFacts(k: Task, c: nat)
    requires IsHit(k)
    ensures var k1 := Reaching(Compared(k, c), Released);
            && CanHook(k1, HookReleased)
            && var k2 := RunHook(k1, HookReleased);
               CanHook(k2, HookCancelSlot) && k2.entry == HookSlot(c) && RunHook(k2, HookCancelSlot) == Aborted(k, c)
  {
  }

  lemma SlotStep(s: State, t: nat, c: nat)
    requires t in s.tasks && s.tasks[t].entry == HookSlot(c) && c in s.closers
    ensures Enabled(s, Hooking(t, HookCancelSlot))
    ensures Apply(s, Hooking(t, HookCancelSlot)) ==
            s.(tasks := s.tasks[t := RunHook(s.tasks[t], HookCancelSlot)],
               closers := s.closers[c := Counted(s.closers[c], t)])
  {
    hide RunHook;
  }

  lemma SlotIsARun(s: State, t: nat, k: Task, c: nat)
    requires t in s.tasks && IsHit(k) && s.tasks[t] == Reaching(Compared(k, c), Released) && c in s.closers
    ensures Solo(s, SlotSteps(t),
                 s.(tasks := s.tasks[t := Aborted(k, c)], closers := s.closers[c := Counted(s.closers[c], t)]))
  {
    hide Apply, Enabled, Solo, RunHook, CanHook, Hooking, Compared, Reaching, IsHit, Aborted, Counted;
    ReleasedFacts(k, c);
    HookStep(s, t, HookReleased);
    SoloOne(s, Hooking(t, HookReleased));
    var k2 := RunHook(s.tasks[t], HookReleased);
    var s1 := s.(tasks := s.tasks[t := k2]);
    SlotStep(s1, t, c);
    SoloAndOne(s, [Hooking(t, HookReleased)], s1, Hooking(t, HookCancelSlot));
    Overwrite(s.tasks, t, k2, Aborted(k, c));
  }

  /** The state when the compare-exchange of the hook is over. */
  function AfterCompared(s: State, t: nat, c: nat): State
    requires t in s.tasks
  {
    s.(tasks := s.tasks[t := Compared(s.tasks[t], c)])
  }

  /** The state after the abort of one entry. */
  function AfterAbort(s: State, c: nat, t: nat): State
    requires t in s.tasks && c in s.closers
  {
    var s1 := AfterCompared(s, t, c);
    if !IsHit(s.tasks[t]) then s1
    else
      AfterFinish(s1, t).(tasks := s.tasks[t := Aborted(s.tasks[t], c)],
                          closers := s.closers[c := Counted(s.closers[c], t)])
  }

  function AbortSteps(s: State, c: nat, t: nat): seq<Action>
    requires t in s.tasks
  {
    CompareHookSteps(t, s.tasks[t])
    + if IsHit(s.tasks[t]) then FinishSteps(t, FinishVerdict(AfterCompared(s, t, c), t)) + SlotSteps(t) else []
  }

  lemma ReleaseHitIsARun(s: State, c: nat, t: nat)
    requires t in s.tasks && c in s.closers && IsHit(s.tasks[t]) && s.monitor.Vacant?
    ensures var s1 := AfterCompared(s, t, c);
            Solo(s1, FinishSteps(t, FinishVerdict(s1, t)) + SlotSteps(t), AfterAbort(s, c, t))
  {
    var k, s1 := s.tasks[t], AfterCompared(s, t, c);
    assert s1.tasks[t].release.ToWrite?;
    hide Solo, FinishVerdict, FinishSteps, SlotSteps, Compared, IsHit, Aborted, Counted, WokenSyncs, WokenAsyncs,
         Counts.Finish, Reaching;
    FinishTaskIsARun(s1, t);
    var s2 := AfterFinish(s1, t);
    assert s2.tasks[t] == Reaching(Compared(k, c), Released);
    SlotIsARun(s2, t, k, c);
    Overwrite(s.tasks, t, Compared(k, c), s2.tasks[t]);
    Overwrite(s.tasks, t, s2.tasks[t], Aborted(k, c));
    SoloThen(s1, FinishSteps(t, FinishVerdict(s1, t)), s2, SlotSteps(t), AfterAbort(s, c, t));
  }

  /** The abort of one taken entry is a run ... */
  lemma AbortIsARun(s: State, c: nat, t: nat)
    requires t in s.tasks && s.tasks[t].entry == Taken(c) && NobodyEngaged(s.tasks, c) && c in s.closers
    requires s.monitor.Vacant?
    ensures Solo(s, AbortSteps(s, c, t), AfterAbort(s, c, t))
  {
    var k, s1 := s.tasks[t], AfterCompared(s, t, c);
    assert IsHit(k) ==> s1.tasks[t].release.ToWrite?;
    hide Solo, CompareHookSteps, FinishSteps, SlotSteps, FinishVerdict, Compared, NobodyEngaged, Aborted, Counted,
         AfterFinish;
    ComparedIsARun(s, t, c);
    if IsHit(k) {
      hide IsHit;
      ReleaseHitIsARun(s, c, t);
      SoloThen(s, CompareHookSteps(t, k), s1, FinishSteps(t, FinishVerdict(s1, t)) + SlotSteps(t), AfterAbort(s, c, t));
    } else {
      assert AbortSteps(s, c, t) == CompareHookSteps(t, k);
    }
  }

  /** ... and counts exactly the hits. */
  lemma AbortAgrees(s: State, c: nat, t: nat, v: View)
    requires t in s.tasks && c in s.closers && Shows(s, v)
    ensures var s' := AfterAbort(s, c, t);
            var v' := if IsHit(s.tasks[t]) then BlockingState.AfterFinish(v, false) else v;
            && Shows(s', v') && Woke(s, s', v, v') && v'.syncWakes >= v.syncWakes
  {
    var k, s1 := s.tasks[t], AfterCompared(s, t, c);
    assert IsHit(k) ==> s1.tasks[t].release == ToWrite(false);
    hide WokenSyncs, WokenAsyncs, Compared, Aborted, Counted, Counts.Finish;
    if IsHit(k) {
      FinishTaskAgrees(s1, t, v);
    }
  }

  lemma AbortFrame(s: State, c: nat, t: nat)
    requires t in s.tasks && c in s.closers
    ensures var s' := AfterAbort(s, c, t);
            && s'.tasks == s.tasks[t := Aborted(s.tasks[t], c)]
            && s'.closers == s.closers[c := if IsHit(s.tasks[t]) then Counted(s.closers[c], t) else s.closers[c]]
            && s'.monitor == s.monitor && s'.admission == s.admission && s'.handles == s.handles && s'.life == s.life
            && s'.submitters == s.submitters && s'.capacity == s.capacity
  {
    hide WokenSyncs, WokenAsyncs, Compared, FinishVerdict, Counts.Finish;
    if !IsHit(s.tasks[t]) {
      assert s.closers[c := s.closers[c]] == s.closers;
    }
  }

  // ----- all entries, in any order

  /** The stop call c has taken exactly the entries of these tasks and has worked on none of them. */
  ghost predicate HasTaken(tasks: map<nat, Task>, c: nat, order: seq<nat>) {
    && (forall i, j :: 0 <= i < j < |order| ==> order[i] != order[j])
    && (forall t :: t in order ==> t in tasks && tasks[t].entry == Taken(c))
    && (forall t :: t in tasks && HasHook(tasks[t], c) ==> t in order)
  }

  lemma TakenIsNotEngaged(tasks: map<nat, Task>, c: nat, order: seq<nat>)
    requires HasTaken(tasks, c, order)
    ensures NobodyEngaged(tasks, c)
  {
  }

  lemma AbortedHasNoHook(k: Task, c: nat)
    ensures !HasHook(Aborted(k, c), c)
  {
  }

  lemma AbortKeepsTaken(s: State, c: nat, order: seq<nat>)
    requires order != [] && HasTaken(s.tasks, c, order) && c in s.closers
    ensures HasTaken(AfterAbort(s, c, order[0]).tasks, c, order[1..]) && c in AfterAbort(s, c, order[0]).closers
  {
    hide Aborted, HasHook, AfterAbort, Counted, IsHit;
    AbortFrame(s, c, order[0]);
    AbortedHasNoHook(s.tasks[order[0]], c);
    var tasks := s.tasks[order[0] := Aborted(s.tasks[order[0]], c)];
    forall t | t in order[1..]
      ensures t in tasks && tasks[t] == s.tasks[t] && t in order
    {
      var i :| 0 <= i < |order[1..]| && order[1..][i] == t;
      assert order[i + 1] == t && order[0] != order[i + 1];
    }
    forall t | t in tasks && HasHook(tasks[t], c)
      ensures t in order[1..]
    {
      assert t in order && t != order[0];
    }
  }

  function LoopSteps(s: State, c: nat, order: seq<nat>): seq<Action>
    requires HasTaken(s.tasks, c, order) && c in s.closers
    decreases |order|
  {
    if order == [] then []
    else
      AbortKeepsTaken(s, c, order);
      AbortSteps(s, c, order[0]) + LoopSteps(AfterAbort(s, c, order[0]), c, order[1..])
  }

  function AfterLoop(s: State, c: nat, order: seq<nat>): State
    requires HasTaken(s.tasks, c, order) && c in s.closers
    decreases |order|
  {
    if order == [] then s
    else
      AbortKeepsTaken(s, c, order);
      AfterLoop(AfterAbort(s, c, order[0]), c, order[1..])
  }

  lemma {:induction false} LoopIsARun(s: State, c: nat, order: seq<nat>)
    requires HasTaken(s.tasks, c, order) && c in s.closers && s.monitor.Vacant?
    ensures Solo(s, LoopSteps(s, c, order), AfterLoop(s, c, order))
    decreases |order|
  {
    hide HasTaken, AfterAbort, AbortSteps, Aborted, Counted, IsHit, NobodyEngaged;
    if order != [] {
      var t := order[0];
      FirstIsTaken(s.tasks, c, order);
      TakenIsNotEngaged(s.tasks, c, order);
      var s1 := AfterAbort(s, c, t);
      AbortKeepsTaken(s, c, order);
      AbortFrame(s, c, t);
      AbortIsARun(s, c, t);
      LoopIsARun(s1, c, order[1..]);
      SoloThen(s, AbortSteps(s, c, t), s1, LoopSteps(s1, c, order[1..]), AfterLoop(s, c, order));
    }
  }

  lemma FirstIsTaken(tasks: map<nat, Task>, c: nat, order: seq<nat>)
    requires HasTaken(tasks, c, order) && order != []
    ensures order[0] in tasks && tasks[order[0]].entry == Taken(c)
  {
  }

  /** How many of these tasks the stop cancels. */
  function Hits(tasks: map<nat, Task>, order: seq<nat>): nat {
    if order == [] then 0
    else Hits(tasks, order[1..]) + if order[0] in tasks && IsHit(tasks[order[0]]) then 1 else 0
  }

  function HitTasks(tasks: map<nat, Task>, order: seq<nat>): set<nat> {
    set t | t in order && t in tasks && IsHit(tasks[t])
  }

  lemma {:induction false} HitsAreTheHitTasks(tasks: map<nat, Task>, order: seq<nat>)
    requires forall i, j :: 0 <= i < j < |order| ==> order[i] != order[j]
    ensures Hits(tasks, order) == |HitTasks(tasks, order)|
    decreases |order|
  {
    hide IsHit;
    if order != [] {
      HitsAreTheHitTasks(tasks, order[1..]);
      assert order[0] !in order[1..];
      assert order == [order[0]] + order[1..];
      var hit := order[0] in tasks && IsHit(tasks[order[0]]);
      assert HitTasks(tasks, order) == HitTasks(tasks, order[1..]) + if hit then {order[0]} else {};
    }
  }

  lemma {:induction false} HitsOfOthers(tasks: map<nat, Task>, t: nat, k: Task, order: seq<nat>)
    requires t !in order
    ensures Hits(tasks[t := k], order) == Hits(tasks, order)
    decreases |order|
  {
    hide IsHit;
    if order != [] {
      HitsOfOthers(tasks, t, k, order[1..]);
    }
  }

  lemma {:induction false} CancelsCompose(v: View, n: nat)
    ensures BlockingState.AfterCancels(BlockingState.AfterFinish(v, false), n) == BlockingState.AfterCancels(v, n + 1)
    decreases n
  {
    hide BlockingState.AfterFinish;
    if n > 0 {
      CancelsCompose(v, n - 1);
    }
  }

  lemma {:induction false} CancelsOnlyWake(v: View, n: nat)
    ensures v.syncWakes <= BlockingState.AfterCancels(v, n).syncWakes
    decreases n
  {
    if n > 0 {
      CancelsOnlyWake(v, n - 1);
    }
  }

  lemma WokenTwice(syncs: map<nat, SyncWaiter>, asyncs: map<nat, AsyncWaiter>)
    ensures WokenSyncs(WokenSyncs(syncs)) == WokenSyncs(syncs)
    ensures WokenAsyncs(WokenAsyncs(asyncs)) == WokenAsyncs(asyncs)
  {
  }

  /** Two calls in a row wake whoever one of them wakes. */
  lemma WokeInARow(s: State, s1: State, s2: State, v: View, v1: View, v2: View)
    requires Woke(s, s1, v, v1) && Woke(s1, s2, v1, v2) && v.syncWakes <= v1.syncWakes <= v2.syncWakes
    ensures Woke(s, s2, v, v2)
  {
    hide WokenSyncs, WokenAsyncs;
    WokenTwice(s.syncs, s.asyncs);
  }

  /** The loop counts the hits, whatever the order, and wakes the waiters exactly when the method notifies them. */
  lemma {:induction false} LoopAgrees(s: State, c: nat, order: seq<nat>, v: View)
    requires HasTaken(s.tasks, c, order) && c in s.closers && Shows(s, v)
    ensures var s', v' := AfterLoop(s, c, order), BlockingState.AfterCancels(v, Hits(s.tasks, order));
            Shows(s', v') && Woke(s, s', v, v')
    decreases |order|
  {
    hide HasTaken, AfterAbort, Aborted, Counted, IsHit, Shows, Woke, BlockingState.AfterFinish;
    if order == [] {
      NothingWoke(s, v);
    } else {
      var t := order[0];
      FirstIsTaken(s.tasks, c, order);
      FirstIsFirst(s.tasks, c, order);
      AbortKeepsTaken(s, c, order);
      AbortFrame(s, c, t);
      AbortAgrees(s, c, t, v);
      HitsOfOthers(s.tasks, t, Aborted(s.tasks[t], c), order[1..]);
      var n := Hits(s.tasks, order[1..]);
      var s1, v1 := AfterAbort(s, c, t), if IsHit(s.tasks[t]) then BlockingState.AfterFinish(v, false) else v;
      LoopAgrees(s1, c, order[1..], v1);
      CancelsCompose(v, n);
      CancelsOnlyWake(v1, n);
      WokeInARow(s, s1, AfterLoop(s, c, order), v, v1, BlockingState.AfterCancels(v1, n));
    }
  }

  lemma NothingWoke(s: State, v: View)
    ensures Woke(s, s, v, v)
  {
  }

  lemma FirstIsFirst(tasks: map<nat, Task>, c: nat, order: seq<nat>)
    requires HasTaken(tasks, c, order) && order != []
    ensures order[0] !in order[1..]
  {
  }

  /** What the loop does to the tasks and to the report, and what it leaves alone. */
  lemma {:induction false} LoopFrame(s: State, c: nat, order: seq<nat>)
    requires HasTaken(s.tasks, c, order) && c in s.closers
    ensures var s' := AfterLoop(s, c, order);
            && s'.tasks.Keys == s.tasks.Keys
            && (forall t :: t in s.tasks ==> s'.tasks[t] == if t in order then Aborted(s.tasks[t], c) else s.tasks[t])
            && s'.monitor == s.monitor && s'.admission == s.admission && s'.handles == s.handles && s'.life == s.life
            && c in s'.closers && s'.closers[c].cancelled == s.closers[c].cancelled + Hits(s.tasks, order)
            && s'.closers[c].pc == s.closers[c].pc && s'.closers[c].queued == s.closers[c].queued
            && s'.closers[c].running == s.closers[c].running && s'.closers[c].stop == s.closers[c].stop
    decreases |order|
  {
    hide HasTaken, AfterAbort, Aborted, IsHit;
    if order != [] {
      var t := order[0];
      FirstIsTaken(s.tasks, c, order);
      FirstIsFirst(s.tasks, c, order);
      AbortKeepsTaken(s, c, order);
      AbortFrame(s, c, t);
      HitsOfOthers(s.tasks, t, Aborted(s.tasks[t], c), order[1..]);
      LoopFrame(AfterAbort(s, c, t), c, order[1..]);
    }
  }

  // ----- the whole stop

  function SnapshotSteps(c: nat): seq<Action> {
    [Snapshot(c)] + [LeaveSnapshot(c)] + [ReleaseAdmission(c)]
  }

  function OpeningSteps(c: nat): seq<Action> {
    Closing(c, true) + SnapshotSteps(c) + [TakeHandles(c)]
  }

  function Reporting(s: State, c: nat, pc: ClosePc): Closer {
    Closer(true, pc, s.counts.queued, s.counts.running, 0, QueuedTasks(s.tasks), {})
  }

  /** The counts are read under admission, which is free again. */
  function Snapshotted(s: State, c: nat): State {
    s.(life := Stopping, closers := s.closers[c := Reporting(s, c, Unlocked)])
  }

  /** The map is moved out and its entries belong to this stop. */
  function Opened(s: State, c: nat): State {
    TakeEntries(s, c).(life := Stopping, closers := s.closers[c := Reporting(s, c, Looping)])
  }

  lemma SnapshotStep(s: State, c: nat)
    requires AtClose(s, c, Stored) && s.closers[c].stop && s.monitor.Vacant?
    ensures Enabled(s, Snapshot(c))
    ensures Apply(s, Snapshot(c)) ==
            s.(monitor := HeldBy(CloserThread(c), OfCloser(c)),
               closers := s.closers[c := s.closers[c].(pc := Snapping,
                                                       queued := s.counts.queued, running := s.counts.running,
                                                       snap := QueuedTasks(s.tasks))])
  {
    hide QueuedTasks;
  }

  lemma LeaveSnapshotStep(s: State, c: nat)
    requires AtClose(s, c, Snapping)
    ensures Enabled(s, LeaveSnapshot(c))
    ensures Apply(s, LeaveSnapshot(c)) == SetClose(s, c, Snapped).(monitor := Vacant)
  {
  }

  lemma ReleaseAdmissionStep(s: State, c: nat)
    requires AtClose(s, c, Snapped) && s.closers[c].stop
    ensures Enabled(s, ReleaseAdmission(c))
    ensures Apply(s, ReleaseAdmission(c)) == SetClose(s, c, Unlocked).(admission := Free)
  {
  }

  lemma SnapshotIsARun(s: State, c: nat)
    requires c !in s.closers && s.admission.Free? && s.monitor.Vacant?
    ensures Solo(s, Closing(c, true) + SnapshotSteps(c), Snapshotted(s, c))
  {
    hide Solo, Apply, Enabled, QueuedTasks, Closing;
    ClosingIsARun(s, c, true);
    var s1 := Published(s, c, true);
    SnapshotStep(s1, c);
    SoloOne(s1, Snapshot(c));
    var s2 := Apply(s1, Snapshot(c));
    LeaveSnapshotStep(s2, c);
    SoloAndOne(s1, [Snapshot(c)], s2, LeaveSnapshot(c));
    var s3 := Apply(s2, LeaveSnapshot(c));
    assert s3.closers == s.closers[c := Reporting(s, c, Snapped)];
    ReleaseAdmissionStep(s3, c);
    SoloAndOne(s1, [Snapshot(c)] + [LeaveSnapshot(c)], s3, ReleaseAdmission(c));
    assert SetClose(s3, c, Unlocked).closers == s.closers[c := Reporting(s, c, Unlocked)];
    SoloThen(s, Closing(c, true), s1, SnapshotSteps(c), Snapshotted(s, c));
  }

  lemma OpeningIsARun(s: State, c: nat)
    requires c !in s.closers && s.admission.Free? && s.monitor.Vacant?
    ensures Solo(s, OpeningSteps(c), Opened(s, c))
  {
    hide Solo, QueuedTasks, Closing, SnapshotSteps;
    SnapshotIsARun(s, c);
    var s1 := Snapshotted(s, c);
    assert Enabled(s1, TakeHandles(c)) && Apply(s1, TakeHandles(c)) == SetClose(TakeEntries(s1, c), c, Looping);
    hide Apply, Enabled;
    assert TakeEntries(s1, c).tasks == TakeEntries(s, c).tasks;
    assert SetClose(TakeEntries(s1, c), c, Looping).closers == Opened(s, c).closers;
    SoloAndOne(s, Closing(c, true) + SnapshotSteps(c), s1, TakeHandles(c));
  }

  /** An order in which a stop may go through the listed tasks. */
  ghost predicate IsOrder(handles: map<nat, nat>, order: seq<nat>) {
    && (forall i, j :: 0 <= i < j < |order| ==> order[i] != order[j])
    && (forall t :: t in order <==> t in handles.Values)
  }

  lemma OpenedHasTaken(s: State, c: nat, order: seq<nat>)
    requires MapOk(s) && IsOrder(s.handles, order) && forall t :: t in s.tasks ==> !HasHook(s.tasks[t], c)
    ensures HasTaken(Opened(s, c).tasks, c, order)
    ensures forall t :: t in order ==> t in s.tasks && s.tasks[t].entry.InMap?
  {
    hide QueuedTasks;
    forall t | t in order
      ensures t in s.tasks && s.tasks[t].entry.InMap?
    {
      var a :| a in s.handles && s.handles[a] == t;
    }
  }

  function StopSteps(s: State, c: nat, order: seq<nat>): seq<Action>
    requires HasTaken(Opened(s, c).tasks, c, order)
  {
    OpeningSteps(c) + LoopSteps(Opened(s, c), c, order) + [EndLoop(c)]
    + TailSteps(c, IsTerminated(LoopEnded(s, c, order)))
  }

  function LoopEnded(s: State, c: nat, order: seq<nat>): State
    requires HasTaken(Opened(s, c).tasks, c, order)
  {
    LoopFrame(Opened(s, c), c, order);
    SetClose(AfterLoop(Opened(s, c), c, order), c, Bumping)
  }

  /** The state after an uninterrupted stop. */
  function AfterStop(s: State, c: nat, order: seq<nat>): State
    requires HasTaken(Opened(s, c).tasks, c, order)
  {
    AfterTail(LoopEnded(s, c, order), c)
  }

  lemma EndLoopStep(s: State, c: nat)
    requires AtClose(s, c, Looping) && forall t :: t in s.tasks ==> !HasHook(s.tasks[t], c)
    ensures Enabled(s, EndLoop(c)) && Apply(s, EndLoop(c)) == SetClose(s, c, Bumping)
  {
    hide HasHook;
  }

  lemma LoopIsOver(s: State, c: nat, order: seq<nat>)
    requires HasTaken(s.tasks, c, order) && AtClose(s, c, Looping)
    ensures c in AfterLoop(s, c, order).closers && Enabled(AfterLoop(s, c, order), EndLoop(c))
    ensures Apply(AfterLoop(s, c, order), EndLoop(c)) == SetClose(AfterLoop(s, c, order), c, Bumping)
  {
    hide AfterLoop, HasHook, Aborted, Apply, Enabled;
    LoopFrame(s, c, order);
    var s' := AfterLoop(s, c, order);
    forall t | t in s'.tasks
      ensures !HasHook(s'.tasks[t], c)
    {
      AbortedHasNoHook(s.tasks[t], c);
    }
    EndLoopStep(s', c);
  }

  /** An uninterrupted stop is a run: store, snapshot, admission released, map moved out, every entry aborted in the
      given order, bump, monitor section and notifications ... */
  lemma StopIsARun(s: State, c: nat, order: seq<nat>)
    requires c !in s.closers && s.admission.Free? && s.monitor.Vacant? && HasTaken(Opened(s, c).tasks, c, order)
    ensures Solo(s, StopSteps(s, c, order), AfterStop(s, c, order))
  {
    hide Solo, OpeningSteps, LoopSteps, AfterLoop, TailSteps, AfterTail, IsTerminated, HasTaken, Apply, Enabled,
         QueuedTasks, TakeEntries;
    OpeningIsARun(s, c);
    OpenedFacts(s, c);
    var s1 := Opened(s, c);
    LoopIsARun(s1, c, order);
    var s2 := AfterLoop(s1, c, order);
    SoloThen(s, OpeningSteps(c), s1, LoopSteps(s1, c, order), s2);
    LoopIsOver(s1, c, order);
    SoloAndOne(s, OpeningSteps(c) + LoopSteps(s1, c, order), s2, EndLoop(c));
    LoopFrame(s1, c, order);
    var s3 := LoopEnded(s, c, order);
    TailIsARun(s3, c);
    SoloThen(s, OpeningSteps(c) + LoopSteps(s1, c, order) + [EndLoop(c)], s3, TailSteps(c, IsTerminated(s3)),
             AfterTail(s3, c));
  }

  lemma OpenedFacts(s: State, c: nat)
    ensures var s' := Opened(s, c);
            && s'.monitor == s.monitor && s'.admission == s.admission && s'.handles == map[] && s'.life == Stopping
            && s'.tasks == TakeEntries(s, c).tasks && s'.counts == s.counts && s'.generation == s.generation
            && s'.syncs == s.syncs && s'.asyncs == s.asyncs
            && AtClose(s', c, Looping) && s'.closers[c] == Reporting(s, c, Looping)
  {
    hide QueuedTasks;
  }

  lemma {:induction false} OpenedHits(s: State, c: nat, order: seq<nat>)
    ensures Hits(Opened(s, c).tasks, order) == Hits(s.tasks, order)
    decreases |order|
  {
    hide QueuedTasks;
    if order != [] {
      OpenedHits(s, c, order[1..]);
    }
  }

  /** ... and does what the method does: it cancels exactly the hits and notifies whom the method notifies. */
  lemma StopAgrees(s: State, c: nat, order: seq<nat>, v: View)
    requires HasTaken(Opened(s, c).tasks, c, order) && Shows(s, v)
    ensures var s', hits := AfterStop(s, c, order), |HitTasks(s.tasks, order)|;
            var v1 := BlockingState.AfterCancels(v.(life := Stopping), hits);
            var v' := BlockingState.AfterNotify(BlockingState.AfterBump(v1));
            Shows(s', v') && Woke(s, s', v, v')
  {
    var hits, s1, v1 := Hits(s.tasks, order), Opened(s, c), v.(life := Stopping);
    assert hits == |HitTasks(s.tasks, order)| by {
      HitsAreTheHitTasks(s.tasks, order);
    }
    assert Shows(s1, v1) && Woke(s, s1, v, v1) by {
      OpenedFacts(s, c);
      NothingWoke(s, v);
    }
    hide Shows, Woke, HasTaken, BlockingState.AfterCancels, BlockingState.AfterBump, BlockingState.AfterNotify,
         AfterLoop, Opened, AfterTail;
    OpenedFacts(s, c);
    OpenedHits(s, c, order);
    LoopAgrees(s1, c, order, v1);
    LoopFrame(s1, c, order);
    var s2, v2 := AfterLoop(s1, c, order), BlockingState.AfterCancels(v1, hits);
    CancelsOnlyWake(v1, hits);
    WokeInARow(s, s1, s2, v, v1, v2);
    var s3 := LoopEnded(s, c, order);
    PcIsUnseen(s2, c, v, v2, s);
    TailAgrees(s3, c, v2);
    TailOnlyWakes(v2);
    WokeInARow(s, s3, AfterTail(s3, c), v, v2, BlockingState.AfterNotify(BlockingState.AfterBump(v2)));
  }

  lemma PcIsUnseen(s: State, c: nat, before: View, v: View, start: State)
    requires c in s.closers
    ensures Shows(s, v) ==> Shows(SetClose(s, c, Bumping), v)
    ensures Woke(start, s, before, v) ==> Woke(start, SetClose(s, c, Bumping), before, v)
  {
  }

  lemma TailOnlyWakes(v: View)
    ensures v.syncWakes <= BlockingState.AfterNotify(BlockingState.AfterBump(v)).syncWakes
  {
  }

  /** What a stop owes to a listed task, part by part: the hook is gone; Tokio was asked to abort what it still knows; a
      queued task is released by this stop, and the handle of a callable sees a pending result cancelled. */
  predicate IsStopped(k: Task, k': Task, c: nat) {
    && k'.entry.NoEntry?
    && k'.aborted == (k.aborted || !k.job.Gone?)
    && (!k.job.Gone? && k.cas.CasQueued? ==>
          && k'.cas.CasFinished? && k'.release.Released? && k'.releasedBy == ByTheHook(c)
          && (!k.kind.Runnable? ==> !k'.slotFull)
          && (!k.kind.Runnable? && k.slotFull && k.endpoint.EndpointPending? ==> k'.endpoint.EndpointCancelled?)
          && (k.kind.Runnable? || !k.slotFull || !k.endpoint.EndpointPending? ==> k'.endpoint == k.endpoint))
    && (k.job.Gone? || !k.cas.CasQueued? ==>
          && k'.cas == k.cas && k'.release == k.release && k'.releasedBy == k.releasedBy
          && k'.slotFull == k.slotFull && k'.endpoint == k.endpoint)
    && k'.stage == k.stage && k'.job == k.job && k'.guard == k.guard && k'.cancel == k.cancel && k'.ran == k.ran
  }

  lemma HitIsStopped(k: Task, c: nat)
    requires IsHit(k)
    ensures IsStopped(k, Aborted(k.(entry := Taken(c)), c), c)
  {
  }

  lemma MissIsStopped(k: Task, c: nat)
    requires !IsHit(k)
    ensures IsStopped(k, Aborted(k.(entry := Taken(c)), c), c)
  {
  }

  lemma AbortedIsStopped(k: Task, c: nat)
    ensures IsStopped(k, Aborted(k.(entry := Taken(c)), c), c)
  {
    hide IsStopped, Aborted, IsHit;
    if IsHit(k) {
      HitIsStopped(k, c);
    } else {
      MissIsStopped(k, c);
    }
  }

  /** It aborts the listed tasks and no others, leaves the map empty and both locks as they were, and its report is
      the snapshot with the number of hits. */
  lemma StopReports(s: State, c: nat, order: seq<nat>)
    requires MapOk(s) && HasTaken(Opened(s, c).tasks, c, order) && IsOrder(s.handles, order)
    ensures var s' := AfterStop(s, c, order);
            && s'.tasks.Keys == s.tasks.Keys && s'.handles == map[] && s'.life.Stopping?
            && s'.admission == s.admission && s'.monitor == s.monitor
            && (forall t :: t in s.tasks ==>
                  s'.tasks[t] == if t in order then Aborted(s.tasks[t].(entry := Taken(c)), c) else s.tasks[t])
    ensures forall t :: t in order && t in s.tasks ==> IsStopped(s.tasks[t], AfterStop(s, c, order).tasks[t], c)
    ensures var s' := AfterStop(s, c, order);
            && c in s'.closers && s'.closers[c].pc.Reported? && s'.closers[c].queued == s.counts.queued
            && s'.closers[c].running == s.counts.running && s'.closers[c].cancelled == |HitTasks(s.tasks, order)|
  {
    hide IsStopped, HasTaken, Opened, AfterLoop, IsTerminated, WokenSyncs, WokenAsyncs, Aborted, HitTasks, QueuedTasks,
         ExactMap;
    OpenedFacts(s, c);
    OpenedHits(s, c, order);
    OrderHasNoDuplicates(s.handles, order);
    HitsAreTheHitTasks(s.tasks, order);
    LoopFrame(Opened(s, c), c, order);
    forall t | t in order && t in s.tasks
      ensures IsStopped(s.tasks[t], AfterStop(s, c, order).tasks[t], c)
    {
      AbortedIsStopped(s.tasks[t], c);
    }
  }

  lemma OrderHasNoDuplicates(handles: map<nat, nat>, order: seq<nat>)
    requires IsOrder(handles, order)
    ensures forall i, j :: 0 <= i < j < |order| ==> order[i] != order[j]
  {
  }

  /** In every reachable state a new stop may go through the listed tasks in any order. */
  lemma EveryOrderIsTaken(s: State, c: nat, order: seq<nat>)
    requires MapOk(s) && StopOk(s) && c !in s.closers && IsOrder(s.handles, order)
    ensures HasTaken(Opened(s, c).tasks, c, order)
    ensures forall t :: t in order <==> t in s.tasks && s.tasks[t].entry.InMap?
  {
    hide Opened, HasTaken, HasHook, SomeStopBeforeTake;
    assert forall t :: t in s.tasks ==> !HasHook(s.tasks[t], c);
    OpenedHasTaken(s, c, order);
  }
}
