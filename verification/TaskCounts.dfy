/** Queued and running counters of the blocking service. */
module TaskCounts {

  datatype Counts = Counts(queued: nat, running: nat) {

    predicate IsEmpty() {
      queued == 0 && running == 0
    }

    function Total(): nat {
      queued + running
    }

    function Accept(): Counts {
      Counts(queued + 1, running)
    }

    function Start(): Counts {
      Counts(SaturatingPred(queued), running + 1)
    }

    function Finish(started: bool): Counts {
      if started then Counts(queued, SaturatingPred(running)) else Counts(SaturatingPred(queued), running)
    }
  }

  function SaturatingPred(n: nat): nat {
    if n == 0 then 0 else n - 1
  }

  /** The counters as the service mutates them inside its monitor. */
  class TaskCounters {
    var queued: nat
    var running: nat

    ghost function View(): Counts
      reads this
    {
      Counts(queued, running)
    }

    constructor ()
      ensures View() == Counts(0, 0)
    {
      queued, running := 0, 0;
    }

    method AcceptTask()
      modifies this
      ensures View() == old(View()).Accept()
      ensures queued == old(queued) + 1 && running == old(running)
    {
      queued := queued + 1;
    }

    /** The caller must know of a queued task: this is the debug assertion. */
    method MarkStarted()
      requires queued > 0
      modifies this
      ensures View() == old(View()).Start()
      ensures queued == old(queued) - 1 && running == old(running) + 1
    {
      queued := SaturatingPred(queued);
      running := running + 1;
    }

    method FinishTask(started: bool)
      requires if started then running > 0 else queued > 0
      modifies this
      ensures View() == old(View()).Finish(started)
      ensures queued == old(queued) - (if started then 0 else 1) && running == old(running) - if started then 1 else 0
    {
      if started {
        running := SaturatingPred(running);
      } else {
        queued := SaturatingPred(queued);
      }
    }

    method IsEmpty() returns (empty: bool)
      ensures empty <==> View().IsEmpty()
      ensures empty <==> queued + running == 0
    {
      empty := queued == 0 && running == 0;
    }
  }
}
