/** The result slot of a callable: one owner takes it, and cancels or completes its result. */
module TaskSlots {
  import opened BlockingTask

  /** A one-shot cell around the runner's end of a result, whose state the user's handle shares. */
  class TaskSlotCell {
    var full: bool
    var endpoint: Endpoint

    constructor ()
      ensures full && endpoint == EndpointPending
    {
      full, endpoint := true, EndpointPending;
    }

    method Take() returns (taken: bool)
      modifies this`full
      ensures taken <==> old(full)
      ensures !full
    {
      taken := full;
      full := false;
    }

    /** The handle's side: cancellation wins only while the result is pending. */
    method Cancel() returns (won: bool)
      modifies this`endpoint
      ensures won <==> old(endpoint).EndpointPending?
      ensures endpoint == if won then EndpointCancelled else old(endpoint)
    {
      won := endpoint.EndpointPending?;
      if won {
        endpoint := EndpointCancelled;
      }
    }

    /** Takes the slot and publishes the cancellation if the result is still pending. */
    method CancelUnstarted() returns (cancelled: bool)
      modifies this
      ensures !full && endpoint == BlockingTask.CancelUnstarted(old(full), old(endpoint))
      ensures endpoint == if cancelled then EndpointCancelled else old(endpoint)
      ensures cancelled <==> old(full) && old(endpoint).EndpointPending?
    {
      cancelled := false;
      var taken := Take();
      if taken {
        cancelled := Cancel();
      }
    }

    /** The runner's side: the body runs only if the slot was still there and its result still pending. */
    method RunTask() returns (ran: bool)
      modifies this
      ensures ran <==> old(full) && old(endpoint).EndpointPending?
      ensures !full && endpoint == if ran then EndpointDone else old(endpoint)
    {
      ran := false;
      var taken := Take();
      if taken && endpoint.EndpointPending? {
        endpoint := EndpointRunning;
        ran := true;
        endpoint := EndpointDone;
      }
    }
  }
}
