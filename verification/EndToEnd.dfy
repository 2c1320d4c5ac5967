/** From the source's writes to the blocks that the destination gets: a link and its ChanReader. */
module EndToEnd {
  import opened Streams
  import opened LinkState
  import opened LinkFlow
  import opened LinkLimits
  import opened LinkTheorems
  import IoChan

  /** Only noop and latency may run, and no WriteOutput has timed out. */
  ghost predicate Untroubled(actions: seq<Action>, i: nat, l: Limits) {
    && (forall k: Kind :: l.kinds(k) ==> k == Noop || k == Latency)
    && (forall j :: 0 <= j < i && j < |actions| ==> !actions[j].Timeout?)
  }

  /** The chunks that the sink has received are the writes that its ChanReader sees, however it reads
      them, as long as it reads with the buffer size of the source. Every block that it returns is one
      of those chunks, and none is cut or joined with another. If moreover the link is untroubled, the
      blocks are the source's writes, one by one, and all of them once the stream has ended. */
  lemma BlocksAreWrites(states: seq<State>, actions: seq<Action>, i: nat, l: Limits, events: seq<IoChan.Event>)
    requires LimitedRun(states, actions, l) && i < |states| && l.size > 0
    requires IoChan.Runs(events, (io, e) => IoChan.ReadsOf(l.size, e))
    requires IoChan.After(events).written == states[i].delivered
    ensures var io := IoChan.After(events);
      && io.blocks + io.queue == states[i].delivered && IoChan.Remaining(io.buffer, []) == []
      && (Untroubled(actions, i, l) ==>
            && io.blocks <= states[i].written
            && (states[i].sinkDone && io.queue == [] ==> io.blocks == states[i].written))
  {
    var s := states[i];
    var io := IoChan.After(events);
    DatagramsSurvive(states, actions, i, l);
    IoChan.OneChunkPerReadOf(events, l.size);
    if Untroubled(actions, i, l) {
      assert Line(s) == s.written;
      assert io.blocks <= s.delivered <= Line(s);
      if s.sinkDone { EndsEmpty(states, actions, i, l); }
    }
  }

  lemma EndsEmpty(states: seq<State>, actions: seq<Action>, i: nat, l: Limits)
    requires LimitedRun(states, actions, l) && i < |states| && Untroubled(actions, i, l) && states[i].sinkDone
    ensures Line(states[i]) == states[i].delivered
  {
    assert !l.kinds(ResetPeer);
    NoResetNoDiscard(states, actions, i, l);
    var lost := EndOfStream(states, actions, i);
  }

  /** Whatever toxics run: while nothing is lost, the blocks, what the reader has still to return and
      what is in flight are together the bytes written. */
  lemma BlocksAreBytes(states: seq<State>, actions: seq<Action>, i: nat, events: seq<IoChan.Event>)
    requires IsRun(states, actions) && i < |states| && states[i].dropped == [] && states[i].discarded == []
    requires IoChan.Runs(events, IoChan.Fits) && IoChan.After(events).written == states[i].delivered
    ensures var io := IoChan.After(events);
      Flat(io.blocks) + IoChan.Remaining(io.buffer, io.queue) + InFlight(states[i]) == Flat(states[i].written)
  {
    Lossless(states, actions, i);
    IoChan.RoundTrip(events);
  }
}
