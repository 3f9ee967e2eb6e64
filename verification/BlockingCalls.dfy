/** The methods of the blocking service, run without interruption, are runs of the transition system. */
module BlockingCalls {
  import opened TaskCounts
  import opened BlockingTask
  import opened BlockingModel
  import opened BlockingInvariant
  import opened Submissions
  import BlockingState

  type View = BlockingState.View

  /** The state of the service seen as the methods see it; the stored generation wraps around. */
  predicate Shows(s: State, v: View) {
    s.life == v.life && s.counts == v.counts && s.generation % GENERATIONS == v.generation
  }

  /** The waiters after a call that turned `before` into `after`: woken if and only if it notified them. */
  predicate Woke(s: State, s': State, before: View, after: View) {
    && after.syncWakes - before.syncWakes == after.asyncWakes - before.asyncWakes
    && (if after.syncWakes > before.syncWakes then s'.syncs == WokenSyncs(s.syncs) && s'.asyncs == WokenAsyncs(s.asyncs)
        else s'.syncs == s.syncs && s'.asyncs == s.asyncs)
  }

  /** A run that nobody interrupts. */
  ghost predicate Solo(s: State, actions: seq<Action>, s': State)
    decreases |actions|
  {
    if actions == [] then s' == s
    else Enabled(s, actions[0]) && Solo(Apply(s, actions[0]), actions[1..], s')
  }

  lemma {:induction false} SoloThen(s: State, actions: seq<Action>, s': State, more: seq<Action>, s'': State)
    requires Solo(s, actions, s') && Solo(s', more, s'')
    ensures Solo(s, actions + more, s'')
    decreases |actions|
  {
    hide Apply, Enabled;
    if actions == [] {
      assert actions + more == more;
    } else {
      SoloThen(Apply(s, actions[0]), actions[1..], s', more, s'');
      assert (actions + more)[1..] == actions[1..] + more;
    }
  }

  lemma SoloOne(s: State, a: Action)
    requires Enabled(s, a)
    ensures Solo(s, [a], Apply(s, a))
  {
    hide Apply, Enabled;
    assert Solo(Apply(s, a), [], Apply(s, a));
    assert [a][1..] == [];
  }

  lemma SoloAndOne(s: State, actions: seq<Action>, s': State, a: Action)
    requires Solo(s, actions, s') && Enabled(s', a)
    ensures Solo(s, actions + [a], Apply(s', a))
  {
    hide Apply, Enabled, Solo;
    SoloOne(s', a);
    SoloThen(s, actions, s', [a], Apply(s', a));
  }

  lemma {:induction false} SoloIsARun(s: State, actions: seq<Action>, s': State) returns (states: seq<State>)
    requires Solo(s, actions, s')
    ensures IsRun(states, actions) && states[0] == s && states[|actions|] == s'
    decreases |actions|
  {
    hide Apply, Enabled;
    if actions == [] {
      states := [s];
    } else {
      var rest := SoloIsARun(Apply(s, actions[0]), actions[1..], s');
      states := [s] + rest;
    }
  }

  /** What one thread does without interruption continues every execution that leads up to it. */
  lemma CallsContinueExecutions(states: seq<State>, actions: seq<Action>, more: seq<Action>, s': State)
    requires IsExecution(states, actions) && Solo(states[|actions|], more, s')
    ensures exists longer :: IsExecution(longer, actions + more) && longer[|actions + more|] == s'
  {
    hide Apply, Enabled, Solo;
    var rest := SoloIsARun(states[|actions|], more, s');
    var longer := states + rest[1..];
    assert forall i :: 0 <= i <= |more| ==> longer[|actions| + i] == rest[i];
    assert IsExecution(longer, actions + more);
  }

  lemma BumpWraps(n: nat)
    ensures (n + 1) % GENERATIONS == NextGeneration(n % GENERATIONS)
  {
  }

  lemma Overwrite(tasks: map<nat, Task>, t: nat, k: Task, k': Task)
    ensures tasks[t := k][t := k'] == tasks[t := k']
  {
  }

  // ----- finish_task

  function Releasing(t: nat, a: ReleaseAct): Action {
    OnTask(t, OnRelease(a))
  }

  /** The steps of finish_task: the monitor section, the bump and, if it saw termination, both notifications. */
  function FinishSteps(t: nat, verdict: bool): seq<Action> {
    ReleaseSteps(t, verdict) + NotifySteps(t, verdict)
  }

  function ReleaseSteps(t: nat, verdict: bool): seq<Action> {
    [Releasing(t, WriteCounts)] + [Releasing(t, LeaveWrite(verdict))] + [Releasing(t, BumpGeneration)]
  }

  function NotifySteps(t: nat, verdict: bool): seq<Action> {
    if verdict then [Releasing(t, WakeSync)] + [Releasing(t, WakeAsync)] else []
  }

  function Reaching(k: Task, release: Release): Task {
    k.(release := release)
  }

  /** The state after a step of the release pipeline, whatever else it changes. */
  function AtRelease(s: State, t: nat, release: Release): State
    requires t in s.tasks
  {
    s.(tasks := s.tasks[t := Reaching(s.tasks[t], release)])
  }

  lemma WriteStep(s: State, t: nat)
    requires t in s.tasks && s.tasks[t].release.ToWrite? && s.monitor.Vacant?
    ensures Enabled(s, Releasing(t, WriteCounts))
    ensures Apply(s, Releasing(t, WriteCounts)) ==
            AtRelease(s, t, Written).(counts := s.counts.Finish(s.tasks[t].release.started),
                                      monitor := HeldBy(Releaser(t, s.tasks[t]), OfTask(t)))
  {
    hide Releaser, Counts.Finish;
  }

  lemma LeaveStep(s: State, t: nat)
    requires t in s.tasks && s.tasks[t].release.Written?
    ensures Enabled(s, Releasing(t, LeaveWrite(IsTerminated(s))))
    ensures Apply(s, Releasing(t, LeaveWrite(IsTerminated(s)))) ==
            AtRelease(s, t, ToBump(IsTerminated(s))).(monitor := Vacant)
  {
    hide IsTerminated;
  }

  lemma BumpStep(s: State, t: nat)
    requires t in s.tasks && s.tasks[t].release.ToBump?
    ensures Enabled(s, Releasing(t, BumpGeneration))
    ensures Apply(s, Releasing(t, BumpGeneration)) ==
            AtRelease(s, t, if s.tasks[t].release.terminated then ToNotifySync else Released).(
              generation := s.generation + 1)
  {
  }

  lemma WakeSyncStep(s: State, t: nat)
    requires t in s.tasks && s.tasks[t].release.ToNotifySync?
    ensures Enabled(s, Releasing(t, WakeSync))
    ensures Apply(s, Releasing(t, WakeSync)) == AtRelease(s, t, ToNotifyAsync).(syncs := WokenSyncs(s.syncs))
  {
    hide WokenSyncs;
  }

  lemma WakeAsyncStep(s: State, t: nat)
    requires t in s.tasks && s.tasks[t].release.ToNotifyAsync?
    ensures Enabled(s, Releasing(t, WakeAsync))
    ensures Apply(s, Releasing(t, WakeAsync)) == AtRelease(s, t, Released).(asyncs := WokenAsyncs(s.asyncs))
  {
    hide WokenAsyncs;
  }

  lemma ReachAgain(k: Task, x: Release, y: Release)
    ensures Reaching(Reaching(k, x), y) == Reaching(k, y)
  {
  }

  lemma Again(s: State, t: nat, x: Release, y: Release)
    requires t in s.tasks
    ensures AtRelease(s, t, x).tasks[t := Reaching(AtRelease(s, t, x).tasks[t], y)] == AtRelease(s, t, y).tasks
  {
    hide Reaching;
    ReachAgain(s.tasks[t], x, y);
    Overwrite(s.tasks, t, Reaching(s.tasks[t], x), Reaching(s.tasks[t], y));
  }

  lemma NotifyIsARun(s: State, t: nat, verdict: bool) returns (s': State)
    requires t in s.tasks && s.tasks[t].release == if verdict then ToNotifySync else Released
    ensures Solo(s, NotifySteps(t, verdict), s')
    ensures s' == if !verdict then s
                  else AtRelease(s, t, Released).(syncs := WokenSyncs(s.syncs), asyncs := WokenAsyncs(s.asyncs))
  {
    if verdict {
      hide Apply, Enabled, WokenSyncs, WokenAsyncs, Solo, Releasing;
      WakeSyncStep(s, t);
      SoloOne(s, Releasing(t, WakeSync));
      var s1 := Apply(s, Releasing(t, WakeSync));
      WakeAsyncStep(s1, t);
      SoloAndOne(s, [Releasing(t, WakeSync)], s1, Releasing(t, WakeAsync));
      s' := Apply(s1, Releasing(t, WakeAsync));
      Again(s, t, ToNotifyAsync, Released);
    } else {
      s' := s;
    }
  }

  /** Whether finish_task finds the service over when it leaves the monitor. */
  predicate FinishVerdict(s: State, t: nat)
    requires t in s.tasks && s.tasks[t].release.ToWrite?
  {
    Ended(s.life, s.counts.Finish(s.tasks[t].release.started))
  }

  /** The state after an uninterrupted finish_task. */
  function AfterFinish(s: State, t: nat): State
    requires t in s.tasks && s.tasks[t].release.ToWrite?
  {
    var verdict := FinishVerdict(s, t);
    AtRelease(s, t, Released).(
      counts := s.counts.Finish(s.tasks[t].release.started),
      generation := s.generation + 1,
      syncs := if verdict then WokenSyncs(s.syncs) else s.syncs,
      asyncs := if verdict then WokenAsyncs(s.asyncs) else s.asyncs)
  }

  /** After the monitor section and the bump, before the notifications. */
  function AfterBump(s: State, t: nat): State
    requires t in s.tasks && s.tasks[t].release.ToWrite?
  {
    AtRelease(s, t, if FinishVerdict(s, t) then ToNotifySync else Released).(
      counts := s.counts.Finish(s.tasks[t].release.started), generation := s.generation + 1)
  }

  /** After the monitor section. */
  function WrittenState(s: State, t: nat): State
    requires t in s.tasks && s.tasks[t].release.ToWrite?
  {
    AtRelease(s, t, ToBump(FinishVerdict(s, t))).(counts := s.counts.Finish(s.tasks[t].release.started))
  }

  lemma WrittenFacts(s: State, t: nat)
    requires t in s.tasks && s.tasks[t].release.ToWrite?
    ensures WrittenState(s, t) ==
            AtRelease(s, t, ToBump(FinishVerdict(s, t))).(counts := s.counts.Finish(s.tasks[t].release.started))
    ensures t in WrittenState(s, t).tasks && WrittenState(s, t).tasks[t].release == ToBump(FinishVerdict(s, t))
  {
    hide FinishVerdict, Counts.Finish;
  }

  lemma WriteIsARun(s: State, t: nat)
    requires t in s.tasks && s.tasks[t].release.ToWrite? && s.monitor.Vacant?
    ensures Solo(s, [Releasing(t, WriteCounts)] + [Releasing(t, LeaveWrite(FinishVerdict(s, t)))], WrittenState(s, t))
  {
    hide Apply, Enabled, Solo, Releasing, Counts.Finish, Counts.IsEmpty, Releaser;
    WriteStep(s, t);
    SoloOne(s, Releasing(t, WriteCounts));
    var s1 := Apply(s, Releasing(t, WriteCounts));
    assert s1.tasks[t].release.Written?;
    LeaveStep(s1, t);
    SoloAndOne(s, [Releasing(t, WriteCounts)], s1, Releasing(t, LeaveWrite(FinishVerdict(s, t))));
    Again(s, t, Written, ToBump(FinishVerdict(s, t)));
  }

  lemma ReleaseIsARun(s: State, t: nat)
    requires t in s.tasks && s.tasks[t].release.ToWrite? && s.monitor.Vacant?
    ensures Solo(s, ReleaseSteps(t, FinishVerdict(s, t)), AfterBump(s, t))
  {
    hide Apply, Enabled, Solo, Releasing, Counts.Finish, Counts.IsEmpty, FinishVerdict, WrittenState;
    var verdict := FinishVerdict(s, t);
    WriteIsARun(s, t);
    var s2 := WrittenState(s, t);
    WrittenFacts(s, t);
    BumpStep(s2, t);
    SoloAndOne(s, [Releasing(t, WriteCounts)] + [Releasing(t, LeaveWrite(verdict))], s2, Releasing(t, BumpGeneration));
    Again(s, t, ToBump(verdict), if verdict then ToNotifySync else Released);
  }

  lemma FinishTaskIsARun(s: State, t: nat)
    requires t in s.tasks && s.tasks[t].release.ToWrite? && s.monitor.Vacant?
    ensures Solo(s, FinishSteps(t, FinishVerdict(s, t)), AfterFinish(s, t))
  {
    hide WokenSyncs, WokenAsyncs, FinishVerdict, Solo, NotifySteps, ReleaseSteps, Counts.Finish;
    var verdict, s1 := FinishVerdict(s, t), AfterBump(s, t);
    ReleaseIsARun(s, t);
    var s' := NotifyIsARun(s1, t, verdict);
    Again(s, t, if verdict then ToNotifySync else Released, Released);
    SoloThen(s, ReleaseSteps(t, verdict), s1, NotifySteps(t, verdict), s');
  }

  /** finish_task, run without interruption, does what the method does, and wakes the waiters exactly when the
      method notifies them. */
  lemma FinishTaskAgrees(s: State, t: nat, v: View)
    requires t in s.tasks && s.tasks[t].release.ToWrite? && Shows(s, v)
    ensures var v' := BlockingState.AfterFinish(v, s.tasks[t].release.started);
            Shows(AfterFinish(s, t), v') && Woke(s, AfterFinish(s, t), v, v')
  {
    hide WokenSyncs, WokenAsyncs;
    BumpWraps(s.generation);
  }

  // ----- the guard's drop

  function Dropping(t: nat, a: GuardAct): Action {
    OnTask(t, OnGuard(a))
  }

  lemma GuardStep(s: State, t: nat, a: GuardAct)
    requires t in s.tasks && CanDrop(s.tasks[t], a)
    ensures Enabled(s, Dropping(t, a))
    ensures Apply(s, Dropping(t, a)) ==
            s.(tasks := s.tasks[t := DropGuard(s.tasks[t], a)],
               handles := if a.GuardRemove? then s.handles - {s.tasks[t].addr} else s.handles)
  {
    hide DropGuard;
  }

  /** The task after its guard has marked it finished, unlisted it and swapped the tracker. */
  function Swapped(k: Task): Task {
    DropGuard(DropGuard(DropGuard(k, GuardMark), GuardRemove), GuardSwap)
  }

  lemma SwappedFacts(k: Task)
    requires k.guard.ToMark?
    ensures CanDrop(k, GuardMark) && CanDrop(DropGuard(k, GuardMark), GuardRemove)
    ensures CanDrop(DropGuard(DropGuard(k, GuardMark), GuardRemove), GuardSwap)
    ensures DropGuard(k, GuardMark).addr == k.addr
    ensures Swapped(k).finished && !Swapped(k).entry.InMap? && Swapped(k).cas == CasFinished
    ensures if k.cas.CasFinished? then Swapped(k).guard.Dropped? && Swapped(k).release == k.release
            else Swapped(k).guard.Releasing? && Swapped(k).release == ReleaseOwed(k.cas) == ToWrite(k.cas.CasRunning?)
    ensures Swapped(k).addr == k.addr && Swapped(k).stage == k.stage && Swapped(k).owner == k.owner
    ensures Swapped(k).job == k.job
  {
  }

  function AfterSwap(s: State, t: nat): State
    requires t in s.tasks
  {
    s.(tasks := s.tasks[t := Swapped(s.tasks[t])], handles := s.handles - {s.tasks[t].addr})
  }

  function SwapSteps(t: nat): seq<Action> {
    [Dropping(t, GuardMark)] + [Dropping(t, GuardRemove)] + [Dropping(t, GuardSwap)]
  }

  lemma SwapIsARun(s: State, t: nat)
    requires t in s.tasks && s.tasks[t].guard.ToMark?
    ensures Solo(s, SwapSteps(t), AfterSwap(s, t))
  {
    hide Apply, Enabled, DropGuard, Solo, CanDrop, Dropping;
    SwappedFacts(s.tasks[t]);
    var k1 := DropGuard(s.tasks[t], GuardMark);
    var k2 := DropGuard(k1, GuardRemove);
    GuardStep(s, t, GuardMark);
    SoloOne(s, Dropping(t, GuardMark));
    var s1 := Apply(s, Dropping(t, GuardMark));
    GuardStep(s1, t, GuardRemove);
    SoloAndOne(s, [Dropping(t, GuardMark)], s1, Dropping(t, GuardRemove));
    var s2 := Apply(s1, Dropping(t, GuardRemove));
    GuardStep(s2, t, GuardSwap);
    SoloAndOne(s, [Dropping(t, GuardMark)] + [Dropping(t, GuardRemove)], s2, Dropping(t, GuardSwap));
    Overwrite(s.tasks, t, k1, k2);
    Overwrite(s.tasks, t, k2, Swapped(s.tasks[t]));
  }

  /** The state after an uninterrupted drop of the guard. */
  function AfterDrop(s: State, t: nat): State
    requires t in s.tasks && s.tasks[t].guard.ToMark?
  {
    var s1 := AfterSwap(s, t);
    if s.tasks[t].cas.CasFinished? then s1
    else
      SwappedFacts(s.tasks[t]);
      var s2 := AfterFinish(s1, t);
      s2.(tasks := s2.tasks[t := DropGuard(s2.tasks[t], GuardDone)])
  }

  function DropSteps(t: nat, cas: Cas, verdict: bool): seq<Action> {
    SwapSteps(t) + if cas.CasFinished? then [] else FinishSteps(t, verdict) + [Dropping(t, GuardDone)]
  }

  lemma ReleasingIsARun(s: State, t: nat)
    requires t in s.tasks && s.tasks[t].release.ToWrite? && s.tasks[t].guard.Releasing? && s.monitor.Vacant?
    ensures var s2 := AfterFinish(s, t);
            Solo(s, FinishSteps(t, FinishVerdict(s, t)) + [Dropping(t, GuardDone)],
                 s2.(tasks := s2.tasks[t := DropGuard(s2.tasks[t], GuardDone)]))
  {
    hide Apply, Enabled, DropGuard, Solo, FinishVerdict, FinishSteps, WokenSyncs, WokenAsyncs, Dropping,
         Counts.Finish;
    var s2 := AfterFinish(s, t);
    assert s2.tasks[t].release.Released? && s2.tasks[t].guard.Releasing?;
    FinishTaskIsARun(s, t);
    GuardStep(s2, t, GuardDone);
    SoloAndOne(s, FinishSteps(t, FinishVerdict(s, t)), s2, Dropping(t, GuardDone));
  }

  /** Whether an uninterrupted drop of the guard ends the service. */
  predicate DropVerdict(s: State, t: nat)
    requires t in s.tasks && s.tasks[t].guard.ToMark?
  {
    !s.tasks[t].cas.CasFinished? && (SwappedFacts(s.tasks[t]); FinishVerdict(AfterSwap(s, t), t))
  }

  /** The guard's drop is a run of the transition system ... */
  lemma GuardDropIsARun(s: State, t: nat)
    requires t in s.tasks && s.tasks[t].guard.ToMark? && s.monitor.Vacant?
    ensures Solo(s, DropSteps(t, s.tasks[t].cas, DropVerdict(s, t)), AfterDrop(s, t))
  {
    hide Solo, DropGuard, FinishVerdict, FinishSteps, AfterFinish, Swapped, SwapSteps;
    var k, s1 := s.tasks[t], AfterSwap(s, t);
    SwappedFacts(k);
    SwapIsARun(s, t);
    if k.cas.CasFinished? {
      assert DropSteps(t, k.cas, false) == SwapSteps(t);
    } else {
      var verdict := FinishVerdict(s1, t);
      ReleasingIsARun(s1, t);
      SoloThen(s, SwapSteps(t), s1, FinishSteps(t, verdict) + [Dropping(t, GuardDone)], AfterDrop(s, t));
    }
  }

  /** ... and does what the method does to the shared state, to the marker and to the abort map. */
  lemma GuardDropAgrees(s: State, t: nat, v: View)
    requires t in s.tasks && s.tasks[t].guard.ToMark? && Shows(s, v)
    ensures var s', v' := AfterDrop(s, t), BlockingState.AfterRelease(v, s.tasks[t].cas);
            && Shows(s', v') && Woke(s, s', v, v')
            && s'.handles == s.handles - {s.tasks[t].addr}
            && s'.tasks[t].finished && s'.tasks[t].cas.CasFinished? && s'.tasks[t].guard.Dropped?
            && forall u :: u in s.tasks && u != t ==> s'.tasks[u] == s.tasks[u]
  {
    hide WokenSyncs, WokenAsyncs, Swapped;
    SwappedFacts(s.tasks[t]);
    if !s.tasks[t].cas.CasFinished? {
      FinishTaskAgrees(AfterSwap(s, t), t, v);
    }
  }

  // ----- cancel_queued

  function Cancelling(t: nat, a: CancelAct): Action {
    OnTask(t, ByCancel(a))
  }

  lemma CancelStep(s: State, t: nat, a: CancelAct)
    requires t in s.tasks && CanCancel(s.tasks[t], a)
    ensures Enabled(s, Cancelling(t, a))
    ensures Apply(s, Cancelling(t, a)) ==
            s.(tasks := s.tasks[t := CancelTask(s.tasks[t], a)],
               handles := if a.CancelRemoveEntry? then s.handles - {s.tasks[t].addr} else s.handles)
  {
    hide CancelTask;
  }

  /** The task after the cancel callback has marked it finished, unlisted it and tried the compare-exchange. */
  function Cancelled(k: Task): Task {
    CancelTask(CancelTask(CancelTask(k, CancelMarkFinished), CancelRemoveEntry), CancelCompare)
  }

  lemma CancelledFacts(k: Task)
    requires k.cancel.CancelMark?
    ensures CanCancel(k, CancelMarkFinished) && CanCancel(CancelTask(k, CancelMarkFinished), CancelRemoveEntry)
    ensures CanCancel(CancelTask(CancelTask(k, CancelMarkFinished), CancelRemoveEntry), CancelCompare)
    ensures CancelTask(k, CancelMarkFinished).addr == k.addr
    ensures Cancelled(k).finished && !Cancelled(k).entry.InMap? && Cancelled(k).cas == AfterFinishQueued(k.cas)
    ensures if k.cas.CasQueued? then Cancelled(k).cancel.CancelReleasing? && Cancelled(k).release == ToWrite(false)
            else Cancelled(k).cancel.CancelAbort? && Cancelled(k).release == k.release
  {
  }

  function AfterCompare(s: State, t: nat): State
    requires t in s.tasks
  {
    s.(tasks := s.tasks[t := Cancelled(s.tasks[t])], handles := s.handles - {s.tasks[t].addr})
  }

  function CompareSteps(t: nat): seq<Action> {
    [Cancelling(t, CancelMarkFinished)] + [Cancelling(t, CancelRemoveEntry)] + [Cancelling(t, CancelCompare)]
  }

  lemma CompareIsARun(s: State, t: nat)
    requires t in s.tasks && s.tasks[t].cancel.CancelMark?
    ensures Solo(s, CompareSteps(t), AfterCompare(s, t))
  {
    hide Apply, Enabled, CancelTask, Solo, CanCancel, Cancelling;
    CancelledFacts(s.tasks[t]);
    var k1 := CancelTask(s.tasks[t], CancelMarkFinished);
    var k2 := CancelTask(k1, CancelRemoveEntry);
    CancelStep(s, t, CancelMarkFinished);
    SoloOne(s, Cancelling(t, CancelMarkFinished));
    var s1 := Apply(s, Cancelling(t, CancelMarkFinished));
    CancelStep(s1, t, CancelRemoveEntry);
    SoloAndOne(s, [Cancelling(t, CancelMarkFinished)], s1, Cancelling(t, CancelRemoveEntry));
    var s2 := Apply(s1, Cancelling(t, CancelRemoveEntry));
    CancelStep(s2, t, CancelCompare);
    SoloAndOne(s, [Cancelling(t, CancelMarkFinished)] + [Cancelling(t, CancelRemoveEntry)], s2,
               Cancelling(t, CancelCompare));
    Overwrite(s.tasks, t, k1, k2);
    Overwrite(s.tasks, t, k2, Cancelled(s.tasks[t]));
  }

  /** The state after an uninterrupted cancel_queued. */
  function AfterCancel(s: State, t: nat): State
    requires t in s.tasks && s.tasks[t].cancel.CancelMark?
  {
    var s1 := AfterCompare(s, t);
    if !s.tasks[t].cas.CasQueued? then s1
    else
      CancelledFacts(s.tasks[t]);
      var s2 := AfterFinish(s1, t);
      s2.(tasks := s2.tasks[t := CancelTask(s2.tasks[t], CancelReleased)])
  }

  function CancelSteps(t: nat, cas: Cas, verdict: bool): seq<Action> {
    CompareSteps(t) + if cas.CasQueued? then FinishSteps(t, verdict) + [Cancelling(t, CancelReleased)] else []
  }

  lemma CancellingIsARun(s: State, t: nat)
    requires t in s.tasks && s.tasks[t].release.ToWrite? && s.tasks[t].cancel.CancelReleasing? && s.monitor.Vacant?
    ensures var s2 := AfterFinish(s, t);
            Solo(s, FinishSteps(t, FinishVerdict(s, t)) + [Cancelling(t, CancelReleased)],
                 s2.(tasks := s2.tasks[t := CancelTask(s2.tasks[t], CancelReleased)]))
  {
    hide Apply, Enabled, CancelTask, Solo, FinishVerdict, FinishSteps, WokenSyncs, WokenAsyncs, Cancelling,
         Counts.Finish;
    var s2 := AfterFinish(s, t);
    assert s2.tasks[t].release.Released? && s2.tasks[t].cancel.CancelReleasing?;
    FinishTaskIsARun(s, t);
    CancelStep(s2, t, CancelReleased);
    SoloAndOne(s, FinishSteps(t, FinishVerdict(s, t)), s2, Cancelling(t, CancelReleased));
  }

  /** Whether an uninterrupted cancel_queued ends the service. */
  predicate CancelVerdict(s: State, t: nat)
    requires t in s.tasks && s.tasks[t].cancel.CancelMark?
  {
    s.tasks[t].cas.CasQueued? && (CancelledFacts(s.tasks[t]); FinishVerdict(AfterCompare(s, t), t))
  }

  /** cancel_queued is a run of the transition system ... */
  lemma CancelQueuedIsARun(s: State, t: nat)
    requires t in s.tasks && s.tasks[t].cancel.CancelMark? && s.monitor.Vacant?
    ensures Solo(s, CancelSteps(t, s.tasks[t].cas, CancelVerdict(s, t)), AfterCancel(s, t))
  {
    hide Solo, CancelTask, FinishVerdict, FinishSteps, AfterFinish, Cancelled, CompareSteps;
    var k, s1 := s.tasks[t], AfterCompare(s, t);
    CancelledFacts(k);
    CompareIsARun(s, t);
    if k.cas.CasQueued? {
      var verdict := FinishVerdict(s1, t);
      CancellingIsARun(s1, t);
      SoloThen(s, CompareSteps(t), s1, FinishSteps(t, verdict) + [Cancelling(t, CancelReleased)], AfterCancel(s, t));
    } else {
      assert CancelSteps(t, k.cas, false) == CompareSteps(t);
    }
  }

  /** ... and does what the method does, whether or not the queued accounting was still there to release. */
  lemma CancelQueuedAgrees(s: State, t: nat, v: View)
    requires t in s.tasks && s.tasks[t].cancel.CancelMark? && Shows(s, v)
    ensures var s', k := AfterCancel(s, t), s.tasks[t];
            var v' := if k.cas.CasQueued? then BlockingState.AfterFinish(v, false) else v;
            && Shows(s', v') && Woke(s, s', v, v')
            && s'.handles == s.handles - {k.addr}
            && s'.tasks[t].finished && s'.tasks[t].cas == (if k.cas.CasQueued? then CasFinished else k.cas)
            && s'.tasks[t].cancel.CancelAbort?
            && forall u :: u in s.tasks && u != t ==> s'.tasks[u] == s.tasks[u]
  {
    hide WokenSyncs, WokenAsyncs, Cancelled;
    CancelledFacts(s.tasks[t]);
    if s.tasks[t].cas.CasQueued? {
      FinishTaskAgrees(AfterCompare(s, t), t, v);
    }
  }

  // ----- mark_started

  /** The task after the compare-exchange and, if it won, the monitor section that counts the start. */
  function StartedTask(k: Task): Task {
    if k.cas.CasQueued? then Work(Work(Work(k, MarkCas), MarkCount), LeaveCount) else Work(k, MarkCas)
  }

  /** The state after an uninterrupted mark_started. */
  function AfterMark(s: State, t: nat): State
    requires t in s.tasks && s.tasks[t].job.Starting?
  {
    s.(tasks := s.tasks[t := StartedTask(s.tasks[t])],
       counts := if s.tasks[t].cas.CasQueued? then s.counts.Start() else s.counts)
  }

  lemma StartedTaskFacts(k: Task)
    ensures StartedTask(k).cas == AfterStart(k.cas)
    ensures StartedTask(k).job.Taking? <==> MayRun(k.cas)
    ensures !MayRun(k.cas) ==> StartedTask(k).guard.ToMark?
  {
  }

  function Marking(t: nat, a: JobAct): Action {
    OnTask(t, ByJob(a))
  }

  lemma MarkStep(s: State, t: nat, a: JobAct)
    requires t in s.tasks && CanWork(s.tasks[t], a)
    requires (a.MarkCas? || a.LeaveCount? || (a.MarkCount? && s.monitor.Vacant?))
    ensures Enabled(s, Marking(t, a))
    ensures Apply(s, Marking(t, a)) ==
            s.(tasks := s.tasks[t := Work(s.tasks[t], a)],
               counts := if a.MarkCount? then s.counts.Start() else s.counts,
               monitor := if a.MarkCount? then HeldBy(PoolThread(t), OfTask(t))
                          else if a.LeaveCount? then Vacant else s.monitor)
  {
    hide Work, Counts.Start, CanWork;
  }

  function MarkSteps(t: nat, cas: Cas): seq<Action> {
    [Marking(t, MarkCas)] + if cas.CasQueued? then [Marking(t, MarkCount)] + [Marking(t, LeaveCount)] else []
  }

  lemma CountingStages(k: Task)
    requires k.job.Starting? && k.cas.CasQueued?
    ensures CanWork(Work(k, MarkCas), MarkCount) && CanWork(Work(Work(k, MarkCas), MarkCount), LeaveCount)
  {
  }

  lemma CountingIsARun(s: State, t: nat)
    requires t in s.tasks && s.tasks[t].job.Starting? && s.tasks[t].cas.CasQueued? && s.monitor.Vacant?
    ensures Solo(s, [Marking(t, MarkCas)] + [Marking(t, MarkCount)] + [Marking(t, LeaveCount)], AfterMark(s, t))
  {
    hide Apply, Enabled, Work, Solo, Counts.Start, Marking;
    CountingStages(s.tasks[t]);
    var k1 := Work(s.tasks[t], MarkCas);
    var k2 := Work(k1, MarkCount);
    MarkStep(s, t, MarkCas);
    SoloOne(s, Marking(t, MarkCas));
    var s1 := Apply(s, Marking(t, MarkCas));
    MarkStep(s1, t, MarkCount);
    SoloAndOne(s, [Marking(t, MarkCas)], s1, Marking(t, MarkCount));
    var s2 := Apply(s1, Marking(t, MarkCount));
    Overwrite(s.tasks, t, k1, k2);
    MarkStep(s2, t, LeaveCount);
    SoloAndOne(s, [Marking(t, MarkCas)] + [Marking(t, MarkCount)], s2, Marking(t, LeaveCount));
    Overwrite(s.tasks, t, k2, StartedTask(s.tasks[t]));
  }

  /** mark_started is a run of the transition system: the compare-exchange and, if it won, the count update. */
  lemma MarkStartedIsARun(s: State, t: nat)
    requires t in s.tasks && s.tasks[t].job.Starting? && s.monitor.Vacant?
    ensures Solo(s, MarkSteps(t, s.tasks[t].cas), AfterMark(s, t))
  {
    hide Apply, Enabled, Work, Solo, Counts.Start, Marking;
    if s.tasks[t].cas.CasQueued? {
      CountingIsARun(s, t);
      assert MarkSteps(t, CasQueued) == [Marking(t, MarkCas)] + [Marking(t, MarkCount)] + [Marking(t, LeaveCount)];
    } else {
      MarkStep(s, t, MarkCas);
      SoloOne(s, Marking(t, MarkCas));
      assert MarkSteps(t, s.tasks[t].cas) == [Marking(t, MarkCas)];
    }
  }

  /** It does what the method does; the worker goes on to the body exactly when the method answers true, and drops
      its guard otherwise. */
  lemma MarkStartedAgrees(s: State, t: nat, v: View)
    requires t in s.tasks && s.tasks[t].job.Starting? && Shows(s, v)
    ensures var s', k := AfterMark(s, t), s.tasks[t];
            && Shows(s', BlockingState.AfterMark(v, k.cas))
            && s'.tasks[t].cas == (if k.cas.CasQueued? then CasRunning else k.cas)
            && (s'.tasks[t].job.Taking? <==> !k.cas.CasFinished?)
            && (k.cas.CasFinished? ==> s'.tasks[t].guard.ToMark?)
            && forall u :: u in s.tasks && u != t ==> s'.tasks[u] == s.tasks[u]
  {
    StartedTaskFacts(s.tasks[t]);
    hide Counts.Start, Work;
  }
}
