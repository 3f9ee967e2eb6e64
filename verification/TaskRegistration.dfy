/** The registration marker of an accepted task. */
module Registrations {

  /** A marker is identified by its address; the address may be used again once the marker is freed. */
  class TaskRegistration {
    const address: nat
    var finished: bool

    constructor (address: nat)
      ensures this.address == address && !finished
    {
      this.address, finished := address, false;
    }

    method Finish()
      modifies this
      ensures finished
    {
      finished := true;
    }

    method IsFinished() returns (answer: bool)
      ensures answer <==> finished
    {
      answer := finished;
    }

    /** The key of the marker in the abort map. */
    function Key(): nat {
      address
    }
  }

  /** Tokio's handle of a spawned task: it knows whether the task is gone and can ask for its abort. */
  class AbortHandle {
    var gone: bool
    var aborted: bool

    constructor (gone: bool)
      ensures this.gone == gone && !aborted
    {
      this.gone, aborted := gone, false;
    }

    method IsFinished() returns (answer: bool)
      ensures answer <==> gone
    {
      answer := gone;
    }

    method Abort()
      modifies this`aborted
      ensures aborted
    {
      aborted := true;
    }
  }
}
