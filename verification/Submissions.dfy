/** What submissions and stop calls of both services answer, and the machine limits both share. */
module Submissions {

  const USIZE_MAX: nat := 0xffff_ffff_ffff_ffff

  /** The stored generation is a 64-bit counter that wraps around. */
  const GENERATIONS: nat := 0x1_0000_0000_0000_0000

  function NextGeneration(generation: nat): nat {
    (generation + 1) % GENERATIONS
  }

  datatype SubmissionError = Shutdown | Saturated

  datatype Result<T, E> = Ok(value: T) | Err(error: E)

  datatype StopReport = StopReport(queued: nat, running: nat, cancelled: nat)
}
