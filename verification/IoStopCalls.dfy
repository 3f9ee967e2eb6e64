/** A stop of the IO service that nobody interrupts is a run of the transition system, in whatever order it goes
    through the entries, and it does what the method of the service does. */
module IoStopCalls {
  import opened Lifecycles
  import opened IoTask
  import opened IoModel
  import opened IoInvariant
  import opened IoCalls
  import opened IoServiceCalls
  import IoState

  // ----- one entry

  function Aborting(t: nat, a: AbortAct): Action {
    OnTask(t, ByAbort(a))
  }

  /** Tokio still knows the task. */
  predicate IsKnown(k: Task) {
    !k.job.Gone?
  }

  /** Only a known task is aborted and counted; the entry is gone in either case. */
  function Aborted(k: Task, c: nat): Task {
    if IsKnown(k) then k.(entry := NoEntry, aborted := true, counter := CountedBy(c)) else k.(entry := NoEntry)
  }

  function Counted(cl: Closer, t: nat): Closer {
    cl.(cancelled := cl.cancelled + 1, counted := cl.counted + {t})
  }

  function AbortSteps(t: nat, k: Task): seq<Action> {
    [Aborting(t, StopCheck)] + if IsKnown(k) then [Aborting(t, StopAbort)] else []
  }

  /** The state after the abort of one entry. */
  function AfterAbort(s: State, c: nat, t: nat): State
    requires t in s.tasks && c in s.closers
  {
    s.(tasks := s.tasks[t := Aborted(s.tasks[t], c)],
       closers := s.closers[c := if IsKnown(s.tasks[t]) then Counted(s.closers[c], t) else s.closers[c]])
  }

  lemma CheckStep(s: State, t: nat, c: nat)
    requires t in s.tasks && s.tasks[t].entry == Taken(c)
    ensures Enabled(s, Aborting(t, StopCheck))
    ensures Apply(s, Aborting(t, StopCheck)) ==
            s.(tasks := s.tasks[t := s.tasks[t].(entry := if IsKnown(s.tasks[t]) then ToAbort(c) else NoEntry)])
  {
  }

  lemma AbortStep(s: State, t: nat, c: nat)
    requires t in s.tasks && s.tasks[t].entry == ToAbort(c) && c in s.closers
    ensures Enabled(s, Aborting(t, StopAbort))
    ensures Apply(s, Aborting(t, StopAbort)) ==
            s.(tasks := s.tasks[t := s.tasks[t].(entry := NoEntry, aborted := true, counter := CountedBy(c))],
               closers := s.closers[c := Counted(s.closers[c], t)])
  {
  }

  /** The abort of one taken entry is a run. */
  lemma AbortIsARun(s: State, c: nat, t: nat)
    requires t in s.tasks && s.tasks[t].entry == Taken(c) && c in s.closers
    ensures Solo(s, AbortSteps(t, s.tasks[t]), AfterAbort(s, c, t))
  {
    hide Apply, Enabled, Solo, Aborting, Counted;
    var k := s.tasks[t];
    CheckStep(s, t, c);
    SoloOne(s, Aborting(t, StopCheck));
    if IsKnown(k) {
      var k1 := k.(entry := ToAbort(c));
      var s1 := s.(tasks := s.tasks[t := k1]);
      AbortStep(s1, t, c);
      SoloAndOne(s, [Aborting(t, StopCheck)], s1, Aborting(t, StopAbort));
      Overwrite(s.tasks, t, k1, Aborted(k, c));
    } else {
      assert AbortSteps(t, k) == [Aborting(t, StopCheck)];
      assert s.closers[c := s.closers[c]] == s.closers;
    }
  }

  // ----- all entries, in any order

  /** The stop call c has taken exactly the entries of these tasks and has dealt with none of them. */
  ghost predicate HasTaken(tasks: map<nat, Task>, c: nat, order: seq<nat>) {
    && (forall i, j :: 0 <= i < j < |order| ==> order[i] != order[j])
    && (forall t :: t in order ==> t in tasks && tasks[t].entry == Taken(c))
    && (forall t :: t in tasks && HasEntry(tasks[t], c) ==> t in order)
  }

  lemma AbortedHasNoEntry(k: Task, c: nat)
    ensures !HasEntry(Aborted(k, c), c)
  {
  }

  lemma AbortKeepsTaken(s: State, c: nat, order: seq<nat>)
    requires order != [] && HasTaken(s.tasks, c, order) && c in s.closers
    ensures HasTaken(AfterAbort(s, c, order[0]).tasks, c, order[1..]) && c in AfterAbort(s, c, order[0]).closers
  {
    hide Aborted, HasEntry, Counted, IsKnown;
    AbortedHasNoEntry(s.tasks[order[0]], c);
    var tasks := s.tasks[order[0] := Aborted(s.tasks[order[0]], c)];
    forall t | t in order[1..]
      ensures t in tasks && tasks[t] == s.tasks[t] && t in order
    {
      var i :| 0 <= i < |order[1..]| && order[1..][i] == t;
      assert order[i + 1] == t && order[0] != order[i + 1];
    }
    forall t | t in tasks && HasEntry(tasks[t], c)
      ensures t in order[1..]
    {
      assert t in order && t != order[0];
    }
  }

  function LoopSteps(s: State, c: nat, order: seq<nat>): seq<Action>
    requires HasTaken(s.tasks, c, order) && c in s.closers
    decreases |order|
  {
    if order == [] then []
    else
      AbortKeepsTaken(s, c, order);
      AbortSteps(order[0], s.tasks[order[0]]) + LoopSteps(AfterAbort(s, c, order[0]), c, order[1..])
  }

  function AfterLoop(s: State, c: nat, order: seq<nat>): State
    requires HasTaken(s.tasks, c, order) && c in s.closers
    decreases |order|
  {
    if order == [] then s
    else
      AbortKeepsTaken(s, c, order);
      AfterLoop(AfterAbort(s, c, order[0]), c, order[1..])
  }

  lemma {:induction false} LoopIsARun(s: State, c: nat, order: seq<nat>)
    requires HasTaken(s.tasks, c, order) && c in s.closers
    ensures Solo(s, LoopSteps(s, c, order), AfterLoop(s, c, order))
    decreases |order|
  {
    hide HasTaken, AfterAbort, AbortSteps, Aborted, Counted, IsKnown;
    if order != [] {
      var t := order[0];
      FirstIsTaken(s.tasks, c, order);
      AbortKeepsTaken(s, c, order);
      var s1 := AfterAbort(s, c, t);
      AbortIsARun(s, c, t);
      LoopIsARun(s1, c, order[1..]);
      SoloThen(s, AbortSteps(t, s.tasks[t]), s1, LoopSteps(s1, c, order[1..]), AfterLoop(s, c, order));
    }
  }

  lemma FirstIsTaken(tasks: map<nat, Task>, c: nat, order: seq<nat>)
    requires HasTaken(tasks, c, order) && order != []
    ensures order[0] in tasks && tasks[order[0]].entry == Taken(c)
  {
  }

  /** How many of these tasks the stop aborts and counts. */
  function Known(tasks: map<nat, Task>, order: seq<nat>): nat {
    if order == [] then 0
    else Known(tasks, order[1..]) + if order[0] in tasks && IsKnown(tasks[order[0]]) then 1 else 0
  }

  function KnownTasks(tasks: map<nat, Task>, order: seq<nat>): set<nat> {
    set t | t in order && t in tasks && IsKnown(tasks[t])
  }

  lemma {:induction false} KnownAreCounted(tasks: map<nat, Task>, order: seq<nat>)
    requires forall i, j :: 0 <= i < j < |order| ==> order[i] != order[j]
    ensures Known(tasks, order) == |KnownTasks(tasks, order)|
    decreases |order|
  {
    hide IsKnown;
    if order != [] {
      KnownAreCounted(tasks, order[1..]);
      assert order[0] !in order[1..];
      assert order == [order[0]] + order[1..];
      var known := order[0] in tasks && IsKnown(tasks[order[0]]);
      assert KnownTasks(tasks, order) == KnownTasks(tasks, order[1..]) + if known then {order[0]} else {};
    }
  }

  lemma {:induction false} KnownOfOthers(tasks: map<nat, Task>, t: nat, k: Task, order: seq<nat>)
    requires t !in order
    ensures Known(tasks[t := k], order) == Known(tasks, order)
    decreases |order|
  {
    hide IsKnown;
    if order != [] {
      KnownOfOthers(tasks, t, k, order[1..]);
    }
  }

  lemma FirstIsFirst(tasks: map<nat, Task>, c: nat, order: seq<nat>)
    requires HasTaken(tasks, c, order) && order != []
    ensures order[0] !in order[1..]
  {
  }

  /** What the loop does to the tasks and to the report; it touches nothing else. */
  lemma {:induction false} LoopFrame(s: State, c: nat, order: seq<nat>)
    requires HasTaken(s.tasks, c, order) && c in s.closers
    ensures var s' := AfterLoop(s, c, order);
            && s' == s.(tasks := s'.tasks, closers := s'.closers)
            && s'.tasks.Keys == s.tasks.Keys
            && (forall t :: t in s.tasks ==> s'.tasks[t] == if t in order then Aborted(s.tasks[t], c) else s.tasks[t])
            && c in s'.closers && s'.closers[c].cancelled == s.closers[c].cancelled + Known(s.tasks, order)
            && s'.closers[c].pc == s.closers[c].pc && s'.closers[c].running == s.closers[c].running
            && s'.closers[c].stop == s.closers[c].stop
    decreases |order|
  {
    hide HasTaken, Aborted, IsKnown;
    if order != [] {
      var t := order[0];
      FirstIsTaken(s.tasks, c, order);
      FirstIsFirst(s.tasks, c, order);
      AbortKeepsTaken(s, c, order);
      KnownOfOthers(s.tasks, t, Aborted(s.tasks[t], c), order[1..]);
      LoopFrame(AfterAbort(s, c, t), c, order[1..]);
    }
  }

  // ----- the whole stop

  function SnapshotSteps(c: nat): seq<Action> {
    [Snapshot(c)] + [ReleaseAdmission(c)]
  }

  function OpeningSteps(c: nat): seq<Action> {
    Closing(c, true) + SnapshotSteps(c) + [TakeHandles(c)]
  }

  function Reporting(s: State, c: nat, pc: ClosePc): Closer {
    Closer(true, pc, s.active, 0, Occupying(s.tasks), {})
  }

  /** The count is read under admission, which is free again. */
  function Snapshotted(s: State, c: nat): State {
    s.(life := Stopping, closers := s.closers[c := Reporting(s, c, Unlocked)])
  }

  /** The map is moved out and its entries belong to this stop. */
  function Opened(s: State, c: nat): State {
    TakeEntries(s, c).(life := Stopping, closers := s.closers[c := Reporting(s, c, Looping)])
  }

  lemma SnapshotStep(s: State, c: nat)
    requires AtClose(s, c, Stored) && s.closers[c].stop
    ensures Enabled(s, Snapshot(c))
    ensures Apply(s, Snapshot(c)) ==
            s.(closers := s.closers[c := s.closers[c].(pc := Snapped, running := s.active, snap := Occupying(s.tasks))])
  {
    hide Occupying;
  }

  lemma ReleaseAdmissionStep(s: State, c: nat)
    requires AtClose(s, c, Snapped) && s.closers[c].stop
    ensures Enabled(s, ReleaseAdmission(c))
    ensures Apply(s, ReleaseAdmission(c)) == SetClose(s, c, Unlocked).(admission := Free)
  {
  }

  lemma SnapshotIsARun(s: State, c: nat)
    requires c !in s.closers && s.admission.Free?
    ensures Solo(s, Closing(c, true) + SnapshotSteps(c), Snapshotted(s, c))
  {
    hide Solo, Apply, Enabled, Occupying, Closing;
    ClosingIsARun(s, c, true);
    var s1 := Published(s, c, true);
    SnapshotStep(s1, c);
    SoloOne(s1, Snapshot(c));
    var s2 := Apply(s1, Snapshot(c));
    assert s2.closers == s.closers[c := Reporting(s, c, Snapped)];
    ReleaseAdmissionStep(s2, c);
    SoloAndOne(s1, [Snapshot(c)], s2, ReleaseAdmission(c));
    assert SetClose(s2, c, Unlocked).closers == s.closers[c := Reporting(s, c, Unlocked)];
    SoloThen(s, Closing(c, true), s1, SnapshotSteps(c), Snapshotted(s, c));
  }

  lemma OpeningIsARun(s: State, c: nat)
    requires c !in s.closers && s.admission.Free?
    ensures Solo(s, OpeningSteps(c), Opened(s, c))
  {
    hide Solo, Occupying, Closing, SnapshotSteps;
    SnapshotIsARun(s, c);
    var s1 := Snapshotted(s, c);
    assert Enabled(s1, TakeHandles(c)) && Apply(s1, TakeHandles(c)) == SetClose(TakeEntries(s1, c), c, Looping);
    hide Apply, Enabled;
    assert TakeEntries(s1, c).tasks == TakeEntries(s, c).tasks;
    assert SetClose(TakeEntries(s1, c), c, Looping).closers == Opened(s, c).closers;
    SoloAndOne(s, Closing(c, true) + SnapshotSteps(c), s1, TakeHandles(c));
  }

  /** An order in which a stop may go through the listed tasks. */
  ghost predicate IsOrder(handles: map<nat, nat>, order: seq<nat>) {
    && (forall i, j :: 0 <= i < j < |order| ==> order[i] != order[j])
    && (forall t :: t in order <==> t in handles.Values)
  }

  lemma OpenedHasTaken(s: State, c: nat, order: seq<nat>)
    requires MapOk(s) && IsOrder(s.handles, order) && forall t :: t in s.tasks ==> !HasEntry(s.tasks[t], c)
    ensures HasTaken(Opened(s, c).tasks, c, order)
    ensures forall t :: t in order ==> t in s.tasks && s.tasks[t].entry.InMap?
  {
    hide Occupying;
    forall t | t in order
      ensures t in s.tasks && s.tasks[t].entry.InMap?
    {
      var a :| a in s.handles && s.handles[a] == t;
    }
  }

  function StopSteps(s: State, c: nat, order: seq<nat>): seq<Action>
    requires HasTaken(Opened(s, c).tasks, c, order)
  {
    OpeningSteps(c) + LoopSteps(Opened(s, c), c, order) + [EndLoop(c)] + TailSteps(c)
  }

  function LoopEnded(s: State, c: nat, order: seq<nat>): State
    requires HasTaken(Opened(s, c).tasks, c, order)
  {
    LoopFrame(Opened(s, c), c, order);
    SetClose(AfterLoop(Opened(s, c), c, order), c, Bumping)
  }

  /** The state after an uninterrupted stop. */
  function AfterStop(s: State, c: nat, order: seq<nat>): State
    requires HasTaken(Opened(s, c).tasks, c, order)
  {
    AfterTail(LoopEnded(s, c, order), c)
  }

  lemma EndLoopStep(s: State, c: nat)
    requires AtClose(s, c, Looping) && forall t :: t in s.tasks ==> !HasEntry(s.tasks[t], c)
    ensures Enabled(s, EndLoop(c)) && Apply(s, EndLoop(c)) == SetClose(s, c, Bumping)
  {
    hide HasEntry;
  }

  lemma LoopIsOver(s: State, c: nat, order: seq<nat>)
    requires HasTaken(s.tasks, c, order) && AtClose(s, c, Looping)
    ensures c in AfterLoop(s, c, order).closers && Enabled(AfterLoop(s, c, order), EndLoop(c))
    ensures Apply(AfterLoop(s, c, order), EndLoop(c)) == SetClose(AfterLoop(s, c, order), c, Bumping)
  {
    hide AfterLoop, HasEntry, Aborted, Apply, Enabled;
    LoopFrame(s, c, order);
    var s' := AfterLoop(s, c, order);
    forall t | t in s'.tasks
      ensures !HasEntry(s'.tasks[t], c)
    {
      AbortedHasNoEntry(s.tasks[t], c);
    }
    EndLoopStep(s', c);
  }

  /** An uninterrupted stop is a run: store, snapshot, admission released, map moved out, every entry dealt with in
      the given order, bump and notification ... */
  lemma StopIsARun(s: State, c: nat, order: seq<nat>)
    requires c !in s.closers && s.admission.Free? && HasTaken(Opened(s, c).tasks, c, order)
    ensures Solo(s, StopSteps(s, c, order), AfterStop(s, c, order))
  {
    hide Solo, OpeningSteps, LoopSteps, AfterLoop, TailSteps, AfterTail, HasTaken, Apply, Enabled, Occupying,
         TakeEntries;
    OpeningIsARun(s, c);
    OpenedFacts(s, c);
    var s1 := Opened(s, c);
    LoopIsARun(s1, c, order);
    var s2 := AfterLoop(s1, c, order);
    SoloThen(s, OpeningSteps(c), s1, LoopSteps(s1, c, order), s2);
    LoopIsOver(s1, c, order);
    SoloAndOne(s, OpeningSteps(c) + LoopSteps(s1, c, order), s2, EndLoop(c));
    LoopFrame(s1, c, order);
    var s3 := LoopEnded(s, c, order);
    TailIsARun(s3, c);
    SoloThen(s, OpeningSteps(c) + LoopSteps(s1, c, order) + [EndLoop(c)], s3, TailSteps(c), AfterTail(s3, c));
  }

  lemma OpenedFacts(s: State, c: nat)
    ensures var s' := Opened(s, c);
            && s'.admission == s.admission && s'.handles == map[] && s'.life == Stopping
            && s'.tasks == TakeEntries(s, c).tasks && s'.active == s.active && s'.generation == s.generation
            && s'.waiters == s.waiters && AtClose(s', c, Looping) && s'.closers[c] == Reporting(s, c, Looping)
  {
    hide Occupying;
  }

  lemma {:induction false} OpenedKnown(s: State, c: nat, order: seq<nat>)
    ensures Known(Opened(s, c).tasks, order) == Known(s.tasks, order)
    decreases |order|
  {
    hide Occupying;
    if order != [] {
      OpenedKnown(s, c, order[1..]);
    }
  }

  /** ... and does what the method does: the lifecycle, the bump and one notification. */
  lemma StopAgrees(s: State, c: nat, order: seq<nat>, v: View)
    requires HasTaken(Opened(s, c).tasks, c, order) && Shows(s, v)
    ensures var s', v' := AfterStop(s, c, order), IoState.AfterNotify(IoState.AfterBump(v.(life := Stopping)));
            Shows(s', v') && Woke(s, s', v, v')
  {
    hide HasTaken, Opened, AfterLoop, WokenWaiters, Known;
    OpenedFacts(s, c);
    LoopFrame(Opened(s, c), c, order);
    TailAgrees(LoopEnded(s, c, order), c, v.(life := Stopping));
  }

  /** It aborts the listed tasks that Tokio still knows and no others, leaves the map empty and admission as it was,
      and its report is the count at the snapshot with the number of aborted tasks. */
  lemma StopReports(s: State, c: nat, order: seq<nat>)
    requires MapOk(s) && HasTaken(Opened(s, c).tasks, c, order) && IsOrder(s.handles, order)
    ensures var s' := AfterStop(s, c, order);
            && s'.tasks.Keys == s.tasks.Keys && s'.handles == map[] && s'.life.Stopping? && s'.admission == s.admission
            && (forall t :: t in s.tasks ==>
                  s'.tasks[t] == if t in order then Aborted(s.tasks[t].(entry := Taken(c)), c) else s.tasks[t])
    ensures forall t :: t in order && t in s.tasks ==>
              var k, k' := s.tasks[t], AfterStop(s, c, order).tasks[t];
              && k'.entry.NoEntry? && k'.aborted == (k.aborted || !k.job.Gone?)
              && k'.stage == k.stage && k'.job == k.job && k'.future == k.future && k'.guard == k.guard
    ensures var s' := AfterStop(s, c, order);
            && c in s'.closers && s'.closers[c].pc.Reported? && s'.closers[c].running == s.active
            && s'.closers[c].cancelled == |KnownTasks(s.tasks, order)|
  {
    hide HasTaken, Opened, AfterLoop, WokenWaiters, Aborted, KnownTasks, Occupying, ExactMap;
    OpenedFacts(s, c);
    OpenedKnown(s, c, order);
    OrderHasNoDuplicates(s.handles, order);
    KnownAreCounted(s.tasks, order);
    LoopFrame(Opened(s, c), c, order);
    forall t | t in order && t in s.tasks
      ensures var k, k' := s.tasks[t], AfterStop(s, c, order).tasks[t];
              && k'.entry.NoEntry? && k'.aborted == (k.aborted || !k.job.Gone?)
              && k'.stage == k.stage && k'.job == k.job && k'.future == k.future && k'.guard == k.guard
    {
      AbortedFields(s.tasks[t], c);
    }
  }

  lemma AbortedFields(k: Task, c: nat)
    ensures var k' := Aborted(k.(entry := Taken(c)), c);
            && k'.entry.NoEntry? && k'.aborted == (k.aborted || !k.job.Gone?)
            && k'.stage == k.stage && k'.job == k.job && k'.future == k.future && k'.guard == k.guard
  {
  }

  lemma OrderHasNoDuplicates(handles: map<nat, nat>, order: seq<nat>)
    requires IsOrder(handles, order)
    ensures forall i, j :: 0 <= i < j < |order| ==> order[i] != order[j]
  {
  }

  /** In every reachable state a new stop may go through the listed tasks in any order. */
  lemma EveryOrderIsTaken(s: State, c: nat, order: seq<nat>)
    requires MapOk(s) && EntriesOk(s) && c !in s.closers && IsOrder(s.handles, order)
    ensures HasTaken(Opened(s, c).tasks, c, order)
    ensures forall t :: t in order <==> t in s.tasks && s.tasks[t].entry.InMap?
  {
    hide Opened, HasTaken, HasEntry;
    assert forall t :: t in s.tasks ==> !HasEntry(s.tasks[t], c);
    OpenedHasTaken(s, c, order);
  }
}
