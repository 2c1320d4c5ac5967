/** Data and the end of the stream are never stuck: while there are any in a link some step other than
    the source's or the beginning of an operation is possible. */
module LinkProgress {
  import opened Streams
  import opened LinkState
  import opened LinkInvariant
  import opened LinkFlow
  import opened LinkEffect
  import opened LinkLossless
  import opened LinkClose
  import opened LinkRemoval
  import opened LinkTheorems
  import Slicer

  // ---- the goroutine that copies the source ---------------------------------------------------------------

  /** It waits for the source, or to send a chunk, or is done. */
  ghost predicate SourceOk(s: State) {
    && s.nodes != [] && s.nodes[0].pipe.Noop?
    && (s.nodes[0].pc.Listening? || s.nodes[0].pc.Sending? || s.nodes[0].pc.Stopped?)
  }

  lemma SourceDelivered(s: State, to: Receiver, c: Chunk)
    requires SourceOk(s) && Ready(s, to) && (to.ToDrain? ==> s.ctl.index >= 1)
    ensures SourceOk(Deliver(s, to, c))
  {
  }

  lemma SourceSent(s: State, i: nat)
    requires SourceOk(s) && PipesOk(s) && NodesOk(s) && Wiring(s) && i < |s.nodes| && Offering(s.nodes[i])
    requires ModeOf(s, 0) == Free
    ensures SourceOk(SetNode(s, i, Sent(s.nodes[i])))
  {
    assert NodeOk(s.nodes[0], ModeOf(s, 0)) && PipeOk(s.nodes[0].pipe, s.nodes[0].pc);
  }

  /** Neither the controller nor its helper ever touches it. */
  lemma SourceFree(s: State)
    requires Wiring(s) && PendingOk(s) && ControlOk(s)
    ensures ModeOf(s, 0) == Free
    ensures s.ctl.Interrupting? || s.ctl.Awaiting? ==> Target(s, s.ctl.op) >= 1
  {
  }

  lemma SourceByReceive(s: State, a: Action, s': State)
    requires SourceOk(s) && Inv(s) && PipesOk(s) && Next(s, a, s') && (a.Queued? || a.Direct?)
    ensures SourceOk(s')
  {
    SourceFree(s);
    if a.Queued? {
      SourceDelivered(TakeOut(s, Source(s, a.to)), a.to, s.chans[Source(s, a.to)].queue[0]);
    } else {
      SourceSent(s, a.i);
      SourceDelivered(SetNode(s, a.i, Sent(s.nodes[a.i])), a.to, Offered(s.nodes[a.i]));
    }
  }

  lemma SourceByPipe(s: State, a: Action, s': State)
    requires SourceOk(s) && Inv(s) && PipesOk(s) && Next(s, a, s') && !ByController(a) && !a.Queued? && !a.Direct?
    ensures SourceOk(s')
  {
    if a.Deposit? || a.Timeout? {
      SourceFree(s);
      SourceSent(s, a.i);
    } else if a.Nil? {
      SourceByNil(s, a.to, s');
    } else {
      SourceElsewhere(s, a, s');
    }
  }

  lemma SourceByNil(s: State, to: Receiver, s': State)
    requires SourceOk(s) && ControlOk(s) && Next(s, Nil(to), s')
    ensures SourceOk(s')
  {
  }

  lemma SourceElsewhere(s: State, a: Action, s': State)
    requires SourceOk(s) && Next(s, a, s')
    requires a.SourceWrite? || a.SourceClose? || a.Start? || a.Timer? || a.CloseOutput? || a.Exit?
    ensures SourceOk(s')
  {
  }

  lemma SourceByController(s: State, a: Action, s': State)
    requires SourceOk(s) && Inv(s) && Next(s, a, s') && ByController(a)
    ensures SourceOk(s')
  {
    SourceFree(s);
    if a.Resume? && s.ctl.op.Adding? {
      ConnectNode(s, 0);
    } else if a.Finish? {
      FinishNode(s, s.ctl.index, 0);
    } else {
      SourceByOperation(s, a, s');
    }
  }

  lemma SourceByOperation(s: State, a: Action, s': State)
    requires SourceOk(s) && ControlOk(s) && PendingOk(s) && Next(s, a, s') && ByController(a) && !a.Finish?
    requires !(a.Resume? && s.ctl.op.Adding?)
    ensures SourceOk(s')
  {
  }

  lemma SourceKept(s: State, a: Action, s': State)
    requires SourceOk(s) && Inv(s) && PipesOk(s) && Next(s, a, s')
    ensures SourceOk(s')
  {
    if a.Queued? || a.Direct? { SourceByReceive(s, a, s'); }
    else if ByController(a) { SourceByController(s, a, s'); }
    else { SourceByPipe(s, a, s'); }
  }

  // ---- the sink -----------------------------------------------------------------------------------------------

  /** It sees the end of the stream only once the last stub of the spine is closed, and that one stays. */
  ghost predicate SinkOk(s: State) {
    s.sinkDone ==> 1 <= s.spine <= |s.nodes| && s.nodes[s.spine - 1].closed
  }

  lemma SinkByReceive(s: State, a: Action, s': State)
    requires SinkOk(s) && Wiring(s) && Next(s, a, s') && (a.Queued? || a.Direct?)
    ensures SinkOk(s')
  {
    ReceiveKeepsClosed(s, a, s');
    assert s'.sinkDone == s.sinkDone && s'.spine == s.spine;
  }

  lemma SinkByNil(s: State, to: Receiver, s': State)
    requires SinkOk(s) && Wiring(s) && ChansOk(s) && Next(s, Nil(to), s')
    ensures SinkOk(s')
  {
    var last := s.spine - 1;
    assert to.ToSink? ==> ChanOk(s.nodes[last], s.chans[s.nodes[last].output]);
  }

  lemma SinkByPipe(s: State, a: Action, s': State)
    requires SinkOk(s) && Next(s, a, s') && !ByController(a) && !a.Queued? && !a.Direct? && !a.Nil?
    ensures SinkOk(s')
  {
  }

  lemma SinkByConnect(s: State, s': State)
    requires Wiring(s) && NodesOk(s) && PendingOk(s) && Next(s, Resume, s') && s.ctl.op.Adding?
    ensures s.sinkDone ==> !SinkOk(s)
    ensures s'.sinkDone == s.sinkDone
  {
    assert NodeOk(s.nodes[s.spine - 1], ModeOf(s, s.spine - 1));
  }

  /** The stub that RemoveToxic takes out is open, so that it is not the one that the sink has seen close. */
  lemma SinkByFinish(s: State, k: nat)
    requires SinkOk(s) && Wiring(s) && s.ctl == Emptying(k) && 1 <= k && k + 1 < s.spine && k - 1 < |s.chain|
    requires NodeOk(s.nodes[k + 1], Drained)
    ensures SinkOk(Disconnect(s, k))
  {
    FinishNode(s, k, s.spine - 2);
  }

  lemma SinkByRemoval(s: State, s': State)
    requires SinkOk(s) && Wiring(s) && NodesOk(s) && ControlOk(s) && Next(s, Finish, s')
    ensures SinkOk(s')
  {
    var k := s.ctl.index;
    assert NodeOk(s.nodes[k + 1], ModeOf(s, k + 1));
    SinkByFinish(s, k);
  }

  lemma SinkByController(s: State, a: Action, s': State)
    requires SinkOk(s) && Inv(s) && Next(s, a, s') && ByController(a)
    ensures SinkOk(s')
  {
    if a.Resume? && s.ctl.op.Adding? { SinkByConnect(s, s'); }
    else if a.Finish? { SinkByRemoval(s, s'); }
    else { SinkByOperation(s, a, s'); }
  }

  lemma SinkByOperation(s: State, a: Action, s': State)
    requires SinkOk(s) && ControlOk(s) && PendingOk(s) && Wiring(s) && Next(s, a, s') && ByController(a) && !a.Finish?
    requires !(a.Resume? && s.ctl.op.Adding?)
    ensures SinkOk(s')
  {
  }

  lemma SinkKept(s: State, a: Action, s': State)
    requires SinkOk(s) && Inv(s) && Next(s, a, s')
    ensures SinkOk(s')
  {
    if a.Queued? || a.Direct? { SinkByReceive(s, a, s'); }
    else if ByController(a) { SinkByController(s, a, s'); }
    else if a.Nil? { SinkByNil(s, a.to, s'); }
    else { SinkByPipe(s, a, s'); }
  }

  lemma AtStart(chain: seq<Toxic>)
    requires chain != []
    ensures SourceOk(Build(chain)) && SinkOk(Build(chain))
  {
  }

  lemma {:induction false} EndsAlongRun(states: seq<State>, actions: seq<Action>, i: nat)
    requires IsRun(states, actions) && i < |states|
    ensures SourceOk(states[i]) && SinkOk(states[i])
  {
    if i == 0 {
      AtStart(states[0].chain);
    } else {
      EndsAlongRun(states, actions, i - 1);
      GoodAlongRun(states, actions, i - 1);
      EndsStep(states, actions, i - 1);
    }
  }

  lemma EndsStep(states: seq<State>, actions: seq<Action>, i: nat)
    requires IsRun(states, actions) && i < |actions| && Good(states[i]) && SourceOk(states[i]) && SinkOk(states[i])
    ensures SourceOk(states[i + 1]) && SinkOk(states[i + 1])
  {
    assert StepAt(states, actions, i);
    SourceKept(states[i], actions[i], states[i + 1]);
    SinkKept(states[i], actions[i], states[i + 1]);
  }

  // ---- data moves on ----------------------------------------------------------------------------------------

  /** A step that neither brings in data nor begins an operation. */
  predicate Onward(a: Action) {
    !a.SourceWrite? && !a.SourceClose? && !a.BeginAdd? && !a.BeginUpdate? && !a.BeginRemove?
  }

  /** A bandwidth of rate 0 that holds data: it sends empty pieces for ever, and receives no more. */
  predicate Starving(n: Node) {
    && n.pipe.Bandwidth? && n.pipe.rate == 0
    && ((n.pc.Delaying? && n.pc.rest != [] && n.pc.rest[0] != [])
        || (n.pc.Sending? && !n.pc.leaving && n.pc.rest != [] && n.pc.rest[0] != []))
  }

  predicate Starved(s: State) { exists k :: 1 <= k < s.spine && k < |s.nodes| && Starving(s.nodes[k]) }

  /** A step onward that is not a turn of such a loop. */
  predicate Productive(s: State, a: Action) {
    Onward(a) && !(a.Timer? && a.i < |s.nodes| && Starving(s.nodes[a.i]))
  }

  /** Some productive step is possible, be it one at which Go would panic. */
  ghost predicate Stirs(s: State) { exists a :: Enabled(s, a) && Productive(s, a) }

  ghost predicate CanGoOn(s: State) { exists a :: Enabled(s, a) && Productive(s, a) && !Panics(s, a) }

  /** AddToxic is about to restart a stub for which the chain has no toxic any more. */
  predicate Crashing(s: State) {
    && s.ctl.Awaiting? && s.ctl.op.Adding? && Enabled(s, Resume) && |s.nodes| - 1 >= |s.chain| + 2
  }

  /** And nothing else can be done. */
  ghost predicate OnlyCrash(s: State) { Crashing(s) && forall a :: Enabled(s, a) && Productive(s, a) ==> a == Resume }

  lemma PanicIsCrash(s: State, a: Action)
    requires Inv(s) && Enabled(s, a)
    ensures Panics(s, a) <==> a == Resume && Crashing(s)
  {
    PanicsExactlyWhen(s, a);
  }

  /** A link that stirs can go on, exactly unless it is about to crash and has nothing else to do. */
  lemma GoesOnIff(s: State)
    requires Inv(s) && Stirs(s)
    ensures CanGoOn(s) <==> !OnlyCrash(s)
  {
    forall a | Enabled(s, a) ensures Panics(s, a) <==> a == Resume && Crashing(s) { PanicIsCrash(s, a); }
  }

  /** Node i holds something, or the channel behind it does. */
  ghost predicate Loaded(s: State, i: nat) {
    i < |s.nodes| && (Held(s.nodes[i].pc) != [] || (s.nodes[i].output < |s.chans| && s.chans[s.nodes[i].output].queue != []))
  }

  /** A state in which no handoff is under way. */
  ghost predicate Calm(s: State) {
    Wiring(s) && NodesOk(s) && ChansOk(s) && ControlOk(s) && SourceOk(s) && !HandingOff(s)
  }

  /** A node that is not blocked can take a step, or hands what it has to the next node. */
  lemma NodeMoves(s: State, i: nat)
    requires Calm(s) && 1 <= i < s.spine && !s.nodes[i].closed
    ensures Stirs(s) || s.nodes[i].pc.Listening? || s.nodes[i].pc.Sending? || Starving(s.nodes[i])
  {
    var n := s.nodes[i];
    assert NodeOk(n, ModeOf(s, i));
    if n.pc.Launched? { assert Enabled(s, Start(i, true)); }
    else if (n.pc.Delaying? && !Starving(n)) || n.pc.Discarding? { assert Enabled(s, Timer(i)); }
    else if n.pc.Returned? { assert Enabled(s, Exit(i)); }
    else if n.pc.Stopped? { assert Enabled(s, Resume); }
  }

  /** The sender of node i is blocked only by a full channel. */
  lemma SenderMoves(s: State, i: nat)
    requires Calm(s) && i < s.spine && Loaded(s, i)
    ensures Stirs(s) || Starving(s.nodes[i]) || s.chans[s.nodes[i].output].queue != []
      || (s.nodes[i].pc.Sending? && s.chans[s.nodes[i].output].capacity == 0)
  {
    var n := s.nodes[i];
    assert NodeOk(n, ModeOf(s, i));
    if n.pc.Delaying? && !Starving(n) { assert Enabled(s, Timer(i)); }
    else if n.pc.Sending? {
      var ch := s.chans[n.output];
      if |ch.queue| < ch.capacity { assert Enabled(s, Deposit(i)); }
    }
  }

  /** What is ready at node i is received by a receiver that is ready. */
  lemma ReceiverMoves(s: State, i: nat, to: Receiver)
    requires i < |s.nodes| && s.nodes[i].output < |s.chans|
    requires Ready(s, to) && Source(s, to) == s.nodes[i].output && !to.ToDrain?
    requires s.chans[s.nodes[i].output].queue != []
      || (s.nodes[i].pc.Sending? && s.chans[s.nodes[i].output].capacity == 0)
    ensures Stirs(s)
  {
    if s.chans[s.nodes[i].output].queue != [] { assert Enabled(s, Queued(to)); } else { assert Enabled(s, Direct(to, i)); }
  }

  /** Every later stub on the spine is open. */
  predicate OpenBehind(s: State, i: nat) { forall j :: i < j < s.spine && j < |s.nodes| ==> !s.nodes[j].closed }

  lemma {:induction false} DataMoves(s: State, i: nat)
    requires Calm(s) && !s.sinkDone && i < s.spine && Loaded(s, i) && OpenBehind(s, i)
    ensures Stirs(s) || Starved(s)
    decreases s.spine - i
  {
    SenderMoves(s, i);
    if !Stirs(s) && !Starved(s) {
      if i + 1 == s.spine {
        ReceiverMoves(s, i, ToSink);
      } else {
        assert s.nodes[i + 1].input == s.nodes[i].output;
        NodeMoves(s, i + 1);
        if s.nodes[i + 1].pc.Listening? {
          ReceiverMoves(s, i, ToStub(i + 1, Slicer.NoDraws()));
        } else {
          DataMoves(s, i + 1);
        }
      }
    }
  }

  /** A closed stub finishes its Close. */
  lemma ClosedRests(s: State, k: nat)
    requires Calm(s) && k < s.spine && s.nodes[k].closed
    ensures Stirs(s) || (s.nodes[k].pc.Stopped? && s.chans[s.nodes[k].output].closed)
  {
    assert NodeOk(s.nodes[k], ModeOf(s, k)) && ChanOk(s.nodes[k], s.chans[s.nodes[k].output]);
    if s.nodes[k].pc.Closing? { assert Enabled(s, CloseOutput(k)); }
    else if s.nodes[k].pc.Returned? { assert Enabled(s, Exit(k)); }
  }

  /** Whoever reads a closed channel gets what is left in it, or sees the end. */
  lemma EndReceived(s: State, k: nat, to: Receiver)
    requires k < |s.nodes| && s.nodes[k].output < |s.chans| && s.chans[s.nodes[k].output].closed
    requires Ready(s, to) && Source(s, to) == s.nodes[k].output && !to.ToDrain?
    ensures Stirs(s)
  {
    if s.chans[s.nodes[k].output].queue == [] { assert Enabled(s, Nil(to)); } else { assert Enabled(s, Queued(to)); }
  }

  /** The end of the stream moves on from the last closed stub. */
  lemma EndMoves(s: State, k: nat)
    requires Calm(s) && !s.sinkDone && k < s.spine && s.nodes[k].closed && OpenBehind(s, k)
    ensures Stirs(s) || Starved(s)
  {
    ClosedRests(s, k);
    if !Stirs(s) && !Starved(s) {
      if k + 1 == s.spine {
        EndReceived(s, k, ToSink);
      } else {
        assert s.nodes[k + 1].input == s.nodes[k].output;
        NodeMoves(s, k + 1);
        if s.nodes[k + 1].pc.Listening? { EndReceived(s, k, ToStub(k + 1, Slicer.NoDraws())); } else { DataMoves(s, k + 1); }
      }
    }
  }

  lemma {:induction false} LastClosed(s: State, k: nat, n: nat) returns (last: nat)
    requires k < n <= s.spine <= |s.nodes| && s.nodes[k].closed
    requires forall j :: n <= j < s.spine ==> !s.nodes[j].closed
    ensures k <= last < n && s.nodes[last].closed && OpenBehind(s, last)
  {
    if s.nodes[n - 1].closed { last := n - 1; } else { last := LastClosed(s, k, n - 1); }
  }

  /** Until the sink has seen the end of the stream, whatever is in the link moves towards it. */
  lemma LinkMoves(s: State, i: nat)
    requires Calm(s) && !s.sinkDone && i < s.spine && (Loaded(s, i) || s.nodes[i].closed)
    ensures Stirs(s) || Starved(s)
  {
    if k: nat :| k < s.spine && s.nodes[k].closed {
      var last := LastClosed(s, k, s.spine);
      EndMoves(s, last);
    } else {
      DataMoves(s, i);
    }
  }

  lemma HandoffMoves(s: State)
    requires Inv(s) && HandingOff(s)
    ensures Stirs(s)
  {
    NeverStuck(s);
    assert NodeOk(s.nodes[s.ctl.index], ModeOf(s, s.ctl.index));
    assert Enabled(s, Move(s)) && Productive(s, Move(s));
  }

  lemma {:induction false} SomethingLoaded(s: State) returns (i: nat)
    requires Wiring(s) && Flow(Cells(s), true) != []
    ensures i < s.spine && Loaded(s, i)
  {
    if forall j :: 0 <= j < |Cells(s)| ==> Cells(s)[j].queue == [] && Cells(s)[j].held == [] {
      EmptyFlow(Cells(s), true);
    }
    i :| 0 <= i < |Cells(s)| && !(Cells(s)[i].queue == [] && Cells(s)[i].held == []);
    assert Cells(s)[i] == CellAt(s, i);
  }

  /** The source, or some stub, has ended. */
  ghost predicate Ending(s: State) { exists i :: 0 <= i < s.spine && i < |s.nodes| && s.nodes[i].closed }

  /** While anything is in flight, or the end of the stream is on its way to the sink, some step can be
      taken that neither brings in data nor begins an operation, in the middle of AddToxic, UpdateToxic
      and RemoveToxic too, unless a bandwidth of rate 0 holds data: and there is one that does not
      panic, exactly unless AddToxic is about to crash and nothing else can be done. */
  lemma DataNeverStuck(states: seq<State>, actions: seq<Action>, i: nat)
    requires IsRun(states, actions) && i < |states| && !states[i].sinkDone
    requires Flow(Cells(states[i]), true) != [] || Ending(states[i])
    ensures Starved(states[i]) || (Stirs(states[i]) && (CanGoOn(states[i]) <==> !OnlyCrash(states[i])))
  {
    var s := states[i];
    GoodAlongRun(states, actions, i);
    EndsAlongRun(states, actions, i);
    if HandingOff(s) {
      HandoffMoves(s);
    } else {
      var j := SomethingMoves(s);
      LinkMoves(s, j);
    }
    if Stirs(s) { GoesOnIff(s); }
  }

  lemma SomethingMoves(s: State) returns (i: nat)
    requires Wiring(s) && (Flow(Cells(s), true) != [] || Ending(s))
    ensures i < s.spine && (Loaded(s, i) || s.nodes[i].closed)
  {
    if Ending(s) { i :| i < s.spine && s.nodes[i].closed; } else { i := SomethingLoaded(s); }
  }
}
