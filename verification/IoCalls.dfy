/** The methods of the IO service, run without interruption, are runs of the transition system. */
module IoCalls {
  import opened IoTask
  import opened IoModel
  import opened Submissions
  import IoState

  type View = IoState.View

  /** The state of the service seen as the methods see it; the stored generation wraps around. */
  predicate Shows(s: State, v: View) {
    s.life == v.life && s.active == v.active && s.generation % GENERATIONS == v.generation
  }

  /** The waiters after a call that turned `before` into `after`: woken if and only if it notified them. */
  predicate Woke(s: State, s': State, before: View, after: View) {
    if after.wakes > before.wakes then s'.waiters == WokenWaiters(s.waiters) else s'.waiters == s.waiters
  }

  /** A run that nobody interrupts. */
  ghost predicate Solo(s: State, actions: seq<Action>, s': State)
    decreases |actions|
  {
    if actions == [] then s' == s
    else Enabled(s, actions[0]) && Solo(Apply(s, actions[0]), actions[1..], s')
  }

  lemma {:induction false} SoloThen(s: State, actions: seq<Action>, s': State, more: seq<Action>, s'': State)
    requires Solo(s, actions, s') && Solo(s', more, s'')
    ensures Solo(s, actions + more, s'')
    decreases |actions|
  {
    hide Apply, Enabled;
    if actions == [] {
      assert actions + more == more;
    } else {
      SoloThen(Apply(s, actions[0]), actions[1..], s', more, s'');
      assert (actions + more)[1..] == actions[1..] + more;
    }
  }

  lemma SoloOne(s: State, a: Action)
    requires Enabled(s, a)
    ensures Solo(s, [a], Apply(s, a))
  {
    hide Apply, Enabled;
    assert Solo(Apply(s, a), [], Apply(s, a));
    assert [a][1..] == [];
  }

  lemma SoloAndOne(s: State, actions: seq<Action>, s': State, a: Action)
    requires Solo(s, actions, s') && Enabled(s', a)
    ensures Solo(s, actions + [a], Apply(s', a))
  {
    hide Apply, Enabled, Solo;
    SoloOne(s', a);
    SoloThen(s, actions, s', [a], Apply(s', a));
  }

  lemma {:induction false} SoloIsARun(s: State, actions: seq<Action>, s': State) returns (states: seq<State>)
    requires Solo(s, actions, s')
    ensures IsRun(states, actions) && states[0] == s && states[|actions|] == s'
    decreases |actions|
  {
    hide Apply, Enabled;
    if actions == [] {
      states := [s];
    } else {
      var rest := SoloIsARun(Apply(s, actions[0]), actions[1..], s');
      states := [s] + rest;
    }
  }

  /** What one thread does without interruption continues every execution that leads up to it. */
  lemma CallsContinueExecutions(states: seq<State>, actions: seq<Action>, more: seq<Action>, s': State)
    requires IsExecution(states, actions) && Solo(states[|actions|], more, s')
    ensures exists longer :: IsExecution(longer, actions + more) && longer[|actions + more|] == s'
  {
    hide Apply, Enabled, Solo;
    var rest := SoloIsARun(states[|actions|], more, s');
    var longer := states + rest[1..];
    assert forall i :: 0 <= i <= |more| ==> longer[|actions| + i] == rest[i];
    assert IsExecution(longer, actions + more);
  }

  lemma BumpWraps(n: nat)
    ensures (n + 1) % GENERATIONS == NextGeneration(n % GENERATIONS)
  {
  }

  lemma Overwrite(tasks: map<nat, Task>, t: nat, k: Task, k': Task)
    ensures tasks[t := k][t := k'] == tasks[t := k']
  {
  }

  // ----- the guard's drop

  function Dropping(t: nat, a: GuardAct): Action {
    OnTask(t, OnGuard(a))
  }

  lemma GuardStep(s: State, t: nat, a: GuardAct)
    requires t in s.tasks && CanDrop(s.tasks[t], a)
    ensures Enabled(s, Dropping(t, a))
    ensures Apply(s, Dropping(t, a)) ==
            s.(tasks := s.tasks[t := DropGuard(s.tasks[t], a)],
               handles := if a.GuardRemove? then s.handles - {s.tasks[t].addr} else s.handles,
               active := if a.Decrement? then Pred(s.active) else s.active,
               generation := if a.BumpGeneration? then s.generation + 1 else s.generation,
               waiters := if a.Notify? then WokenWaiters(s.waiters) else s.waiters)
  {
    hide DropGuard, WokenWaiters, Pred;
  }

  /** The entry and the slot are given back before anybody is told. */
  function ReleaseSteps(t: nat): seq<Action> {
    [Dropping(t, GuardMark)] + [Dropping(t, GuardRemove)] + [Dropping(t, Decrement)]
  }

  function DropSteps(t: nat): seq<Action> {
    ReleaseSteps(t) + [Dropping(t, BumpGeneration)] + [Dropping(t, Notify)]
  }

  /** The task after its guard has marked it finished, unlisted it and decremented the count. */
  function Unlisting(k: Task): Task {
    DropGuard(DropGuard(DropGuard(k, GuardMark), GuardRemove), Decrement)
  }

  function Dropped(k: Task): Task {
    DropGuard(DropGuard(Unlisting(k), BumpGeneration), Notify)
  }

  lemma DroppedFacts(k: Task)
    requires k.guard.ToMark?
    ensures CanDrop(k, GuardMark) && CanDrop(DropGuard(k, GuardMark), GuardRemove)
    ensures CanDrop(DropGuard(DropGuard(k, GuardMark), GuardRemove), Decrement)
    ensures DropGuard(k, GuardMark).addr == k.addr
    ensures CanDrop(Unlisting(k), BumpGeneration) && CanDrop(DropGuard(Unlisting(k), BumpGeneration), Notify)
    ensures Dropped(k) == k.(finished := true, entry := Unlisted(k.entry), guard := Released)
  {
  }

  function AfterUnlisting(s: State, t: nat): State
    requires t in s.tasks
  {
    s.(tasks := s.tasks[t := Unlisting(s.tasks[t])], handles := s.handles - {s.tasks[t].addr}, active := Pred(s.active))
  }

  lemma UnlistingIsARun(s: State, t: nat)
    requires t in s.tasks && s.tasks[t].guard.ToMark?
    ensures Solo(s, ReleaseSteps(t), AfterUnlisting(s, t))
  {
    hide Apply, Enabled, DropGuard, Solo, CanDrop, Dropping, Pred;
    DroppedFacts(s.tasks[t]);
    var k1 := DropGuard(s.tasks[t], GuardMark);
    var k2 := DropGuard(k1, GuardRemove);
    GuardStep(s, t, GuardMark);
    SoloOne(s, Dropping(t, GuardMark));
    var s1 := Apply(s, Dropping(t, GuardMark));
    GuardStep(s1, t, GuardRemove);
    SoloAndOne(s, [Dropping(t, GuardMark)], s1, Dropping(t, GuardRemove));
    var s2 := Apply(s1, Dropping(t, GuardRemove));
    GuardStep(s2, t, Decrement);
    SoloAndOne(s, [Dropping(t, GuardMark)] + [Dropping(t, GuardRemove)], s2, Dropping(t, Decrement));
    Overwrite(s.tasks, t, k1, k2);
    Overwrite(s.tasks, t, k2, Unlisting(s.tasks[t]));
  }

  /** The state after an uninterrupted drop of the guard. */
  function AfterDrop(s: State, t: nat): State
    requires t in s.tasks
  {
    s.(tasks := s.tasks[t := Dropped(s.tasks[t])], handles := s.handles - {s.tasks[t].addr}, active := Pred(s.active),
       generation := s.generation + 1, waiters := WokenWaiters(s.waiters))
  }

  /** The guard's drop is a run of the transition system: marked, unlisted, decremented, bumped and notified. */
  lemma GuardDropIsARun(s: State, t: nat)
    requires t in s.tasks && s.tasks[t].guard.ToMark?
    ensures Solo(s, DropSteps(t), AfterDrop(s, t))
  {
    hide Apply, Enabled, DropGuard, Solo, CanDrop, Dropping, Pred, WokenWaiters, ReleaseSteps, Unlisting;
    DroppedFacts(s.tasks[t]);
    UnlistingIsARun(s, t);
    var k1 := Unlisting(s.tasks[t]);
    var k2 := DropGuard(k1, BumpGeneration);
    var s1 := AfterUnlisting(s, t);
    GuardStep(s1, t, BumpGeneration);
    SoloAndOne(s, ReleaseSteps(t), s1, Dropping(t, BumpGeneration));
    var s2 := Apply(s1, Dropping(t, BumpGeneration));
    GuardStep(s2, t, Notify);
    SoloAndOne(s, ReleaseSteps(t) + [Dropping(t, BumpGeneration)], s2, Dropping(t, Notify));
    Overwrite(s.tasks, t, k1, k2);
    Overwrite(s.tasks, t, k2, Dropped(s.tasks[t]));
  }

  /** It does what the method does to the shared state, to the marker and to the abort map, and wakes the waiters. */
  lemma GuardDropAgrees(s: State, t: nat, v: View)
    requires t in s.tasks && s.tasks[t].guard.ToMark? && Shows(s, v) && v.active > 0
    ensures var s', v' := AfterDrop(s, t), IoState.AfterRelease(v);
            && Shows(s', v') && Woke(s, s', v, v')
            && s'.handles == s.handles - {s.tasks[t].addr}
            && s'.tasks[t].finished && s'.tasks[t].guard.Released? && !s'.tasks[t].entry.InMap?
            && forall u :: u in s.tasks && u != t ==> s'.tasks[u] == s.tasks[u]
  {
    hide WokenWaiters, Dropped;
    DroppedFacts(s.tasks[t]);
    BumpWraps(s.generation);
  }

  // ----- the drop of a guarded future

  /** The user future is gone and the guard is about to be dropped. */
  function Emptied(k: Task): Task {
    k.(future := Destroyed, guard := ToMark)
  }

  lemma DestroyStep(s: State, t: nat)
    requires t in s.tasks && s.tasks[t].future.BeingDropped?
    ensures Enabled(s, OnTask(t, ByJob(Destroy)))
    ensures Apply(s, OnTask(t, ByJob(Destroy))) == s.(tasks := s.tasks[t := Emptied(s.tasks[t])])
  {
  }

  /** The user future first, the guard second. */
  function PayloadSteps(t: nat): seq<Action> {
    [OnTask(t, ByJob(Destroy))] + DropSteps(t)
  }

  function AfterPayload(s: State, t: nat): State
    requires t in s.tasks
  {
    AfterDrop(s.(tasks := s.tasks[t := Emptied(s.tasks[t])]), t)
  }

  /** The drop of a guarded future is a run whose first step destroys the user future. */
  lemma PayloadDropIsARun(s: State, t: nat)
    requires t in s.tasks && s.tasks[t].future.BeingDropped?
    ensures Solo(s, PayloadSteps(t), AfterPayload(s, t))
  {
    hide Apply, Enabled, Solo, DropSteps, AfterDrop;
    DestroyStep(s, t);
    SoloOne(s, OnTask(t, ByJob(Destroy)));
    var s1 := s.(tasks := s.tasks[t := Emptied(s.tasks[t])]);
    GuardDropIsARun(s1, t);
    SoloThen(s, [OnTask(t, ByJob(Destroy))], s1, DropSteps(t), AfterDrop(s1, t));
  }

  lemma PayloadDropAgrees(s: State, t: nat, v: View)
    requires t in s.tasks && Shows(s, v) && v.active > 0
    ensures var s', v' := AfterPayload(s, t), IoState.AfterRelease(v);
            && Shows(s', v') && Woke(s, s', v, v')
            && s'.handles == s.handles - {s.tasks[t].addr}
            && s'.tasks[t] == s.tasks[t].(future := Destroyed, finished := true, entry := Unlisted(s.tasks[t].entry),
                                          guard := Released)
            && s'.submitters == s.submitters && s'.admission == s.admission && s'.tasks.Keys == s.tasks.Keys
            && forall u :: u in s.tasks && u != t ==> s'.tasks[u] == s.tasks[u]
  {
    hide WokenWaiters, Dropped;
    var s1 := s.(tasks := s.tasks[t := Emptied(s.tasks[t])]);
    DroppedFacts(s1.tasks[t]);
    GuardDropAgrees(s1, t, v);
  }

  // ----- a delivered future

  /** The Tokio task has received the future, polled it to its end and begun to drop it. */
  function Completed(k: Task): Task {
    k.(job := Unwinding, future := BeingDropped)
  }

  lemma JobStep(s: State, t: nat, a: JobAct)
    requires t in s.tasks && CanWork(s.tasks[t], a)
    ensures Enabled(s, OnTask(t, ByJob(a)))
    ensures Apply(s, OnTask(t, ByJob(a))) == s.(tasks := s.tasks[t := Work(s.tasks[t], a)])
  {
    hide Work, CanWork;
  }

  lemma CompletedFacts(k: Task)
    requires k.job.Waiting? && k.future.InChannel?
    ensures CanWork(k, Receive) && CanWork(Work(k, Receive), Complete) && Work(Work(k, Receive), Complete) == Completed(k)
  {
  }

  function PollSteps(t: nat): seq<Action> {
    [OnTask(t, ByJob(Receive))] + [OnTask(t, ByJob(Complete))]
  }

  lemma PollIsARun(s: State, t: nat)
    requires t in s.tasks && s.tasks[t].job.Waiting? && s.tasks[t].future.InChannel?
    ensures Solo(s, PollSteps(t), s.(tasks := s.tasks[t := Completed(s.tasks[t])]))
  {
    hide Solo, Apply, Enabled, Work, CanWork;
    CompletedFacts(s.tasks[t]);
    JobStep(s, t, Receive);
    SoloOne(s, OnTask(t, ByJob(Receive)));
    var k1 := Work(s.tasks[t], Receive);
    var s1 := s.(tasks := s.tasks[t := k1]);
    JobStep(s1, t, Complete);
    SoloAndOne(s, [OnTask(t, ByJob(Receive))], s1, OnTask(t, ByJob(Complete)));
    Overwrite(s.tasks, t, k1, Completed(s.tasks[t]));
  }

  function CompletionSteps(t: nat): seq<Action> {
    PollSteps(t) + PayloadSteps(t) + [OnTask(t, ByJob(EndJob))]
  }

  function AfterCompletion(s: State, t: nat): State
    requires t in s.tasks
  {
    var s1 := AfterPayload(s.(tasks := s.tasks[t := Completed(s.tasks[t])]), t);
    s1.(tasks := s1.tasks[t := Work(s1.tasks[t], EndJob)])
  }

  lemma PayloadIsOver(s: State, t: nat)
    requires t in s.tasks
    ensures t in AfterPayload(s, t).tasks
    ensures AfterPayload(s, t).tasks[t].job == s.tasks[t].job && AfterPayload(s, t).tasks[t].guard.Released?
  {
    hide WokenWaiters, Pred, Dropped;
    DroppedFacts(Emptied(s.tasks[t]));
  }

  /** A delivered future is a run to its end: received, polled until ready, destroyed, its slot given back ... */
  lemma CompletionIsARun(s: State, t: nat)
    requires t in s.tasks && s.tasks[t].job.Waiting? && s.tasks[t].future.InChannel?
    ensures Solo(s, CompletionSteps(t), AfterCompletion(s, t))
  {
    hide Solo, Apply, Enabled, Work, PollSteps, PayloadSteps, AfterPayload;
    PollIsARun(s, t);
    var s1 := s.(tasks := s.tasks[t := Completed(s.tasks[t])]);
    PayloadDropIsARun(s1, t);
    var s2 := AfterPayload(s1, t);
    SoloThen(s, PollSteps(t), s1, PayloadSteps(t), s2);
    PayloadIsOver(s1, t);
    JobStep(s2, t, EndJob);
    SoloAndOne(s, PollSteps(t) + PayloadSteps(t), s2, OnTask(t, ByJob(EndJob)));
  }

  /** ... which leaves the service as it was before the acceptance, but for the bump and the notification. */
  lemma CompletionAgrees(s: State, t: nat, v: View)
    requires t in s.tasks && Shows(s, v) && v.active > 0
    ensures var s', v' := AfterCompletion(s, t), IoState.AfterRelease(v);
            && Shows(s', v') && Woke(s, s', v, v') && s'.active == s.active - 1
            && s'.handles == s.handles - {s.tasks[t].addr}
            && s'.tasks[t].future.Destroyed? && s'.tasks[t].finished && s'.tasks[t].guard.Released? && s'.tasks[t].job.Gone?
            && forall u :: u in s.tasks && u != t ==> s'.tasks[u] == s.tasks[u]
  {
    hide WokenWaiters, AfterPayload, IoState.AfterRelease;
    var s1 := s.(tasks := s.tasks[t := Completed(s.tasks[t])]);
    PayloadDropAgrees(s1, t, v);
    ReleaseCountsDown(v);
  }

  lemma ReleaseCountsDown(v: View)
    requires v.active > 0
    ensures IoState.AfterRelease(v).active == v.active - 1
  {
  }

  // ----- try_accept_task

  /** The check and, if it found room, the increment. */
  function AcceptSteps(th: nat, t: nat, accepted: bool): seq<Action> {
    [CheckCapacity(th)] + if accepted then [Increment(th, t)] else []
  }

  function AfterAccept(s: State, th: nat, t: nat): State
    requires th in s.submitters && s.submitters[th].Checked?
  {
    if s.active < s.capacity then
      s.(active := s.active + 1, tasks := s.tasks[t := NewTask(th)], submitters := s.submitters[th := Busy(t)])
    else s.(submitters := s.submitters[th := Full(s.submitters[th].seen)])
  }

  lemma CheckCapacityStep(s: State, th: nat)
    requires th in s.submitters && s.submitters[th].Checked?
    ensures Enabled(s, CheckCapacity(th))
    ensures Apply(s, CheckCapacity(th)) ==
            s.(submitters := s.submitters[th := if s.active < s.capacity then HasRoom else Full(s.submitters[th].seen)])
  {
  }

  lemma IncrementStep(s: State, th: nat, t: nat)
    requires th in s.submitters && s.submitters[th].HasRoom? && t !in s.tasks
    ensures Enabled(s, Increment(th, t))
    ensures Apply(s, Increment(th, t)) ==
            s.(active := s.active + 1, tasks := s.tasks[t := NewTask(th)], submitters := s.submitters[th := Busy(t)])
  {
    hide NewTask;
  }

  /** try_accept_task under admission is a run of the check and the increment ... */
  lemma TryAcceptIsARun(s: State, th: nat, t: nat)
    requires th in s.submitters && s.submitters[th].Checked? && t !in s.tasks
    ensures Solo(s, AcceptSteps(th, t, s.active < s.capacity), AfterAccept(s, th, t))
  {
    hide Apply, Enabled, Solo, NewTask;
    CheckCapacityStep(s, th);
    SoloOne(s, CheckCapacity(th));
    if s.active < s.capacity {
      var s1 := s.(submitters := s.submitters[th := HasRoom]);
      IncrementStep(s1, th, t);
      SoloAndOne(s, [CheckCapacity(th)], s1, Increment(th, t));
      assert s1.submitters[th := Busy(t)] == s.submitters[th := Busy(t)];
    } else {
      assert AcceptSteps(th, t, false) == [CheckCapacity(th)];
    }
  }

  /** ... and does what the method does: the count grows exactly when it was below the capacity. */
  lemma TryAcceptAgrees(s: State, th: nat, t: nat, v: View)
    requires th in s.submitters && s.submitters[th].Checked? && t !in s.tasks && Shows(s, v)
    ensures var s' := AfterAccept(s, th, t);
            && Shows(s', if s.active < s.capacity then v.(active := v.active + 1) else v)
            && (s'.submitters[th] == Busy(t) <==> s.active < s.capacity)
            && (s'.submitters[th].Full? <==> s.active >= s.capacity)
            && (t in s'.tasks <==> s.active < s.capacity) && s'.handles == s.handles && s'.waiters == s.waiters
            && forall u :: u in s.tasks ==> s'.tasks[u] == s.tasks[u]
  {
  }
}
