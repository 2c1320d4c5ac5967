/** How far the timers and the channel sends of a Pipe depart from an ideal clock. Times are in
    nanoseconds, as in time.Duration. */
module Timing {
  const MILLISECOND := 1_000_000

  /** How late each timer fires, and how long each send to Output blocks, in the order they come.
      No timer is early. */
  datatype Clock = Clock(late: nat -> nat, blocked: nat -> nat)

  /** The timers and sends from one to another are on time. */
  predicate Exact(clock: Clock, from: nat, to: nat) {
    forall i :: from <= i < to ==> clock.late(i) == 0 && clock.blocked(i) == 0
  }
}
