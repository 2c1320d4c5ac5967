/** The latency toxic: toxics/latency.go. Times are in nanoseconds. */
module Latency {
  import opened Streams
  import opened Timing
  import opened Rand

  /** LatencyToxic's fields, in milliseconds. */
  datatype Config = Config(latency: int, jitter: int)

  /** A chunk, the time stamped on it by its Write, and when Pipe can first find it in its input. */
  datatype Arrival = Arrival(data: Chunk, stamp: int, ready: int)

  /** A chunk sent to Output, with its rewritten stamp, and when. */
  datatype Departure = Departure(data: Chunk, stamp: int, at: int)

  function Max(a: int, b: int): int { if a >= b then a else b }

  function Min(a: int, b: int): int { if a <= b then a else b }

  /** delay, for one outcome of rand.Int63n. */
  function Delay(c: Config, draw: int): (d: int)
    ensures c.jitter <= 0 ==> d == c.latency * MILLISECOND
    ensures c.jitter > 0 ==> (c.latency - c.jitter) * MILLISECOND <= d < (c.latency + c.jitter) * MILLISECOND
  {
    (c.latency + (if c.jitter > 0 then Intn(2 * c.jitter, draw) - c.jitter else 0)) * MILLISECOND
  }

  /** rand reaches every delay, in whole milliseconds, that the jitter allows. */
  lemma DelayReaches(c: Config, ms: int)
    requires c.jitter > 0 && c.latency - c.jitter <= ms < c.latency + c.jitter
    ensures exists draw: int :: 0 <= draw < 2 * c.jitter && Delay(c, draw) == ms * MILLISECOND
  {
    var draw := ms - c.latency + c.jitter;
    assert Delay(c, draw) == ms * MILLISECOND;
  }

  /** When Pipe is back at its outer select after i chunks. */
  function FreeAt(sent: seq<Departure>, clock: Clock, start: int, i: nat): int
    requires i <= |sent|
  {
    if i == 0 then start else sent[i - 1].at + clock.blocked(i - 1)
  }

  /** When Pipe receives chunk i. */
  function GotAt(arrivals: seq<Arrival>, sent: seq<Departure>, clock: Clock, start: int, i: nat): int
    requires i < |arrivals| && i <= |sent|
  {
    Max(FreeAt(sent, clock, start, i), arrivals[i].ready)
  }

  /** Chunk i leaves with its data, at its delay behind its stamp or as soon as it has been received,
      whichever is later, but for the lateness of its timer. */
  ghost predicate LeavesWhenDue(c: Config, arrivals: seq<Arrival>, sent: seq<Departure>, draws: nat -> int,
                                clock: Clock, start: int, i: nat)
    requires i < |arrivals| && i < |sent|
  {
    var got := GotAt(arrivals, sent, clock, start, i);
    var delay := Delay(c, draws(i));
    && sent[i].data == arrivals[i].data
    && sent[i].at == Max(got, arrivals[i].stamp + delay) + clock.late(i)
    && sent[i].stamp == arrivals[i].stamp + delay - (got - arrivals[i].stamp)
  }

  ghost predicate AllLeaveWhenDue(c: Config, arrivals: seq<Arrival>, sent: seq<Departure>, draws: nat -> int,
                                  clock: Clock, start: int, n: nat)
    requires n <= |arrivals| && n <= |sent|
  {
    forall i :: 0 <= i < n ==> LeavesWhenDue(c, arrivals, sent, draws, clock, start, i)
  }

  /** Interrupted in its inner select `waited` ns after it has received the chunk, Pipe sends it without
      further delay and leaves its stamp alone; the interrupt loses to a timer that fires first. */
  ghost predicate LeavesAtOnce(c: Config, arrivals: seq<Arrival>, sent: seq<Departure>, draws: nat -> int,
                               clock: Clock, start: int, i: nat, waited: nat)
    requires i < |arrivals| && i < |sent|
  {
    var got := GotAt(arrivals, sent, clock, start, i);
    && sent[i].data == arrivals[i].data && sent[i].stamp == arrivals[i].stamp
    && sent[i].at == Min(got + waited, Max(got, arrivals[i].stamp + Delay(c, draws(i))) + clock.late(i))
  }

  lemma DueAppend(c: Config, arrivals: seq<Arrival>, sent: seq<Departure>, draws: nat -> int, clock: Clock, start: int,
                  d: Departure)
    requires |sent| < |arrivals| && AllLeaveWhenDue(c, arrivals, sent, draws, clock, start, |sent|)
    ensures AllLeaveWhenDue(c, arrivals, sent + [d], draws, clock, start, |sent|)
  {
    var all := sent + [d];
    forall i | 0 <= i < |sent| ensures LeavesWhenDue(c, arrivals, all, draws, clock, start, i) {
      assert LeavesWhenDue(c, arrivals, sent, draws, clock, start, i);
    }
  }

  datatype Ending = Idle | Closed | Interrupted

  /** Pipe over the chunks that reach it. An interrupt comes, if at all, while Pipe waits for the timer
      of chunk `interrupt`, `waited` ns after it has received it; after the last chunk the input is
      closed or Pipe is interrupted, as eof says. */
  method Pipe(c: Config, arrivals: seq<Arrival>, draws: nat -> int, clock: Clock, start: int,
              interrupt: nat, waited: nat, eof: bool)
    returns (sent: seq<Departure>, ending: Ending)
    ensures ending.Interrupted? <==> interrupt < |arrivals|
    ensures ending.Closed? ==> eof
    ensures ending.Idle? ==> !eof
    ensures |sent| == if interrupt < |arrivals| then interrupt + 1 else |arrivals|
    ensures AllLeaveWhenDue(c, arrivals, sent, draws, clock, start, if interrupt < |arrivals| then interrupt else |arrivals|)
    ensures interrupt < |arrivals| ==> LeavesAtOnce(c, arrivals, sent, draws, clock, start, interrupt, waited)
  {
    sent := [];
    var now := start;
    while |sent| < |arrivals|
      invariant |sent| <= |arrivals| && |sent| <= interrupt
      invariant now == FreeAt(sent, clock, start, |sent|)
      invariant AllLeaveWhenDue(c, arrivals, sent, draws, clock, start, |sent|)
    {
      var i := |sent|;
      var chunk := arrivals[i];
      now := Max(now, chunk.ready);
      var sleep := Delay(c, draws(i)) - (now - chunk.stamp);
      var timer := Max(sleep, 0) + clock.late(i);
      if i == interrupt {
        var d := Departure(chunk.data, chunk.stamp, now + if waited <= timer then waited else timer);
        DueAppend(c, arrivals, sent, draws, clock, start, d);
        return sent + [d], Interrupted;
      }
      now := now + timer;
      var d := Departure(chunk.data, chunk.stamp + sleep, now);
      DueAppend(c, arrivals, sent, draws, clock, start, d);
      sent := sent + [d];
      now := now + clock.blocked(i);
      assert LeavesWhenDue(c, arrivals, sent, draws, clock, start, i);
    }
    ending := if eof then Closed else Idle;
  }

  /** Chunks leave in the order in which they arrived, wherever the interrupt comes. */
  lemma {:induction false} InOrder(c: Config, arrivals: seq<Arrival>, sent: seq<Departure>, draws: nat -> int, clock: Clock,
                                   start: int, interrupt: nat, waited: nat, i: nat, j: nat)
    requires |sent| <= |arrivals| && (interrupt < |arrivals| ==> |sent| == interrupt + 1)
    requires AllLeaveWhenDue(c, arrivals, sent, draws, clock, start, if interrupt < |sent| then interrupt else |sent|)
    requires interrupt < |arrivals| ==> LeavesAtOnce(c, arrivals, sent, draws, clock, start, interrupt, waited)
    requires i <= j < |sent| && j <= interrupt
    ensures sent[i].at <= sent[j].at
  {
    if i < j {
      InOrder(c, arrivals, sent, draws, clock, start, interrupt, waited, i, j - 1);
      if j < interrupt { assert LeavesWhenDue(c, arrivals, sent, draws, clock, start, j); }
    }
  }

  // ---- the bound ------------------------------------------------------------------------------------------

  /** Each chunk can be received by the later of its stamp and the previous departure. */
  ghost predicate Prompt(arrivals: seq<Arrival>, sent: seq<Departure>, start: int)
    requires |sent| <= |arrivals|
  {
    && (sent != [] ==> start <= arrivals[0].stamp && arrivals[0].ready <= arrivals[0].stamp)
    && (forall i, j :: 0 <= i && i + 1 == j < |sent| ==> arrivals[j].ready <= Max(arrivals[j].stamp, sent[i].at))
    && (forall i, j :: 0 <= i && i + 1 == j < |sent| ==> arrivals[i].stamp <= arrivals[j].stamp)
  }

  /** A chunk never leaves before its stamp plus the least delay, whatever the clock and the output do. */
  lemma NeverEarly(c: Config, arrivals: seq<Arrival>, sent: seq<Departure>, draws: nat -> int, clock: Clock, start: int, i: nat)
    requires |sent| <= |arrivals| && i < |sent| && LeavesWhenDue(c, arrivals, sent, draws, clock, start, i)
    ensures arrivals[i].stamp + (c.latency - Max(c.jitter, 0)) * MILLISECOND <= sent[i].at
  {
  }

  /** The latency bound, although chunks are delayed one at a time: with exact timers and a ready
      output, chunk i leaves within [stamp + L - J, stamp + L + J) ms, and at stamp + L when J is 0. */
  lemma {:induction false} LeavesWithinBounds(c: Config, arrivals: seq<Arrival>, sent: seq<Departure>, draws: nat -> int,
                                              clock: Clock, start: int, i: nat)
    requires c.latency >= c.jitter >= 0 && |sent| <= |arrivals| && i < |sent|
    requires AllLeaveWhenDue(c, arrivals, sent, draws, clock, start, |sent|)
    requires Prompt(arrivals, sent, start) && Exact(clock, 0, |sent|)
    ensures arrivals[i].stamp + (c.latency - c.jitter) * MILLISECOND <= sent[i].at
    ensures c.jitter > 0 ==> sent[i].at < arrivals[i].stamp + (c.latency + c.jitter) * MILLISECOND
    ensures c.jitter == 0 ==> sent[i].at == arrivals[i].stamp + c.latency * MILLISECOND
  {
    assert LeavesWhenDue(c, arrivals, sent, draws, clock, start, i);
    assert clock.late(i) == 0;
    if i > 0 {
      LeavesWithinBounds(c, arrivals, sent, draws, clock, start, i - 1);
      assert clock.blocked(i - 1) == 0;
      assert arrivals[i].ready <= Max(arrivals[i].stamp, sent[i - 1].at);
      assert arrivals[i - 1].stamp <= arrivals[i].stamp;
    }
  }

  /** The stamp that a chunk leaves with is the time it leaves exactly when it was received at the very
      time of its stamp, its delay was not negative and its timer on time: for a chunk that has queued
      it is an earlier time. */
  lemma StampIsDepartureIff(c: Config, arrivals: seq<Arrival>, sent: seq<Departure>, draws: nat -> int, clock: Clock, start: int,
                            i: nat)
    requires |sent| <= |arrivals| && i < |sent| && LeavesWhenDue(c, arrivals, sent, draws, clock, start, i)
    requires arrivals[i].stamp <= GotAt(arrivals, sent, clock, start, i)
    ensures sent[i].stamp == sent[i].at <==>
      GotAt(arrivals, sent, clock, start, i) == arrivals[i].stamp && clock.late(i) == 0 && Delay(c, draws(i)) >= 0
    ensures sent[i].stamp <= sent[i].at
  {
  }
}
