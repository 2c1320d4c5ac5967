/** How the end of the stream travels: a stub closes only behind an input that is closed and drained,
    unless a reset_peer has discarded something. */
module LinkClose {
  import opened Streams
  import opened LinkState
  import opened LinkInvariant
  import opened LinkFlow
  import opened LinkEffect
  import opened LinkSteps
  import opened LinkLossless

  /** Nothing more will ever come out of node i. */
  predicate Dry(s: State, i: int) {
    && 0 <= i < |s.nodes| && s.nodes[i].closed && Held(s.nodes[i].pc) == []
    && s.nodes[i].output < |s.chans|
    && s.chans[s.nodes[i].output].closed && s.chans[s.nodes[i].output].queue == []
  }

  /** The sink's end of stream counts as one more node at the end of the spine. */
  predicate Ended(s: State, i: int) {
    if i == s.spine then s.sinkDone else 0 <= i < |s.nodes| && Blocked(s.nodes[i])
  }

  ghost predicate ClosedInOrder(s: State) {
    s.discarded == [] ==> forall i :: 1 <= i <= s.spine && Ended(s, i) ==> Dry(s, i - 1)
  }

  lemma DryByPipe(s: State, a: Action, s': State, i: int)
    requires Wiring(s) && NodesOk(s) && ChansOk(s) && Next(s, a, s') && !ByController(a)
      && !(a.Queued? || a.Direct? || a.Nil?)
    requires 0 <= i < s.spine
    ensures Dry(s, i) ==> Dry(s', i)
    ensures i > 0 && Ended(s', i) ==> Ended(s, i)
    ensures s'.sinkDone == s.sinkDone && s'.spine == s.spine
    ensures Blocked(s.nodes[i]) ==> Blocked(s'.nodes[i])
  {
    var j := if a.SourceWrite? || a.SourceClose? then 0 else a.i;
    if i == j { DryOwnStep(s, a, s', i); }
    else {
      assert j < s.spine ==> s.nodes[i].output != s.nodes[j].output;
    }
  }

  lemma DryOwnStep(s: State, a: Action, s': State, i: int)
    requires Wiring(s) && NodesOk(s) && ChansOk(s) && Next(s, a, s') && !ByController(a)
      && !(a.Queued? || a.Direct? || a.Nil?)
    requires 0 <= i < s.spine && i == if a.SourceWrite? || a.SourceClose? then 0 else a.i
    ensures Dry(s, i) ==> Dry(s', i)
    ensures i > 0 && Ended(s', i) ==> Ended(s, i)
    ensures Blocked(s.nodes[i]) ==> Blocked(s'.nodes[i])
  {
    assert NodeOk(s.nodes[i], ModeOf(s, i)) && ChanOk(s.nodes[i], s.chans[s.nodes[i].output]);
  }

  lemma DryByReceive(s: State, a: Action, c0: Chunk, s': State, i: int)
    requires Inv(s) && Enabled(s, a) && (a.Queued? || a.Direct?) && Received(s, a.to, c0, s')
    requires 0 <= i < s.spine
    requires s'.sinkDone == s.sinkDone && (forall j :: 0 <= j < |s.nodes| && s.nodes[j].closed ==> s'.nodes[j].closed)
    requires s.chans[s.nodes[i].output].closed ==> s'.chans[s.nodes[i].output].closed
    ensures Dry(s, i) ==> Dry(s', i)
    ensures i > 0 && Ended(s', i) && s'.discarded == [] ==> Ended(s, i)
  {
    var k := Feeder(s, a.to);
    if i < k { assert s.nodes[i].output != s.nodes[k].output; }
    if k < i { assert s.nodes[k].output != s.nodes[i].output; }
    if a.to.ToStub? { ReceivedBlocked(s.nodes[a.to.i].pipe, c0, a.to.draws); }
  }

  lemma BlockedByReceive(s: State, a: Action, c0: Chunk, s': State)
    requires Wiring(s) && Enabled(s, a) && (a.Queued? || a.Direct?) && Received(s, a.to, c0, s')
    ensures SomeBlocked(s) || s'.discarded != s.discarded ==> SomeBlocked(s')
  {
    if i :| 0 <= i < s.spine <= |s.nodes| && Blocked(s.nodes[i]) { assert Blocked(s'.nodes[i]); }
    if a.to.ToStub? && s.nodes[a.to.i].pipe.ResetPeer? {
      ReceivedBlocked(s.nodes[a.to.i].pipe, c0, a.to.draws);
      assert Blocked(s'.nodes[a.to.i]);
    }
  }

  /** A closed channel's sender has finished its Close. */
  lemma ClosedIsDry(s: State, k: int)
    requires Wiring(s) && NodesOk(s) && ChansOk(s) && 0 <= k < s.spine
    requires var ch := s.chans[s.nodes[k].output]; ch.closed && ch.queue == []
    ensures Dry(s, k)
  {
    assert NodeOk(s.nodes[k], ModeOf(s, k)) && ChanOk(s.nodes[k], s.chans[s.nodes[k].output]);
  }

  lemma DryByNil(s: State, to: Receiver, s': State, i: int)
    requires Wiring(s) && NodesOk(s) && ChansOk(s) && ControlOk(s) && Enabled(s, Nil(to)) && s' == DeliverNil(s, to)
      && 0 <= i < s.spine
    ensures Dry(s, i) ==> Dry(s', i)
    ensures i > 0 && Ended(s', i) ==> Ended(s, i) || Dry(s, i - 1)
    ensures s'.sinkDone ==> s.sinkDone || Dry(s, s.spine - 1)
    ensures s'.spine == s.spine && s'.discarded == s.discarded
    ensures Blocked(s.nodes[i]) ==> Blocked(s'.nodes[i])
  {
    NilFeeder(s, to);
    if to.ToDrain? { DryByNilDrain(s, s', i); } else if to.ToStub? { DryByNilStub(s, to, s', i); }
  }

  lemma DryByNilStub(s: State, to: Receiver, s': State, i: int)
    requires Wiring(s) && Ready(s, to) && to.ToStub? && to.i < s.spine && s' == DeliverNil(s, to) && 0 <= i < s.spine
    requires !Dry(s, to.i) && !Blocked(s.nodes[to.i])
    ensures Dry(s, i) ==> Dry(s', i)
    ensures i > 0 && Ended(s', i) ==> Ended(s, i) || i == to.i
    ensures Blocked(s.nodes[i]) ==> Blocked(s'.nodes[i])
  {
  }

  lemma NilFeeder(s: State, to: Receiver)
    requires Wiring(s) && NodesOk(s) && ChansOk(s) && ControlOk(s) && Enabled(s, Nil(to))
    ensures Dry(s, Feeder(s, to))
    ensures to.ToStub? ==> Feeder(s, to) == to.i - 1 && to.i < s.spine && !Dry(s, to.i) && !Blocked(s.nodes[to.i])
    ensures to.ToDrain? ==> Feeder(s, to) == s.ctl.index
    ensures to.ToSink? ==> Feeder(s, to) == s.spine - 1
  {
    ReceiverFree(s, to);
    ClosedIsDry(s, Feeder(s, to));
  }

  lemma DryByNilDrain(s: State, s': State, i: int)
    requires Wiring(s) && NodesOk(s) && ControlOk(s) && Enabled(s, Nil(ToDrain)) && s' == DeliverNil(s, ToDrain)
      && 0 <= i < s.spine
    ensures Dry(s, i) ==> Dry(s', i)
    ensures i > 0 && Ended(s', i) ==> Ended(s, i) || i == s.ctl.index + 1
    ensures Blocked(s.nodes[i]) ==> Blocked(s'.nodes[i])
  {
    assert NodeOk(s.nodes[i], ModeOf(s, i));
    var j := s.ctl.index + 1;
    if i < j { assert s.nodes[i].output != s.nodes[j].output; }
    if j < i { assert s.nodes[j].output != s.nodes[i].output; }
  }

  lemma DryByInterrupt(s: State, a: Action, s': State, i: int)
    requires Inv(s) && Next(s, a, s') && (a.Accept? || a.HelperAccept?) && 0 <= i < s.spine
    ensures Dry(s, i) ==> Dry(s', i)
    ensures i > 0 && Ended(s', i) ==> Ended(s, i)
    ensures s'.sinkDone == s.sinkDone && s'.spine == s.spine
    ensures Blocked(s.nodes[i]) ==> Blocked(s'.nodes[i])
  {
    assert NodeOk(s.nodes[i], ModeOf(s, i));
  }

  lemma DryByController(s: State, a: Action, s': State, i: int)
    requires Inv(s) && Next(s, a, s') && 0 <= i < s.spine
    requires ByController(a) && !a.Finish? && !a.Resume? && !a.Accept? && !a.HelperAccept?
    ensures Dry(s, i) ==> Dry(s', i)
    ensures i > 0 && Ended(s', i) ==> Ended(s, i)
    ensures s'.sinkDone == s.sinkDone && s'.spine == s.spine
    ensures Blocked(s.nodes[i]) ==> Blocked(s'.nodes[i])
  {
    if a.Refuse? { DryByRefuse(s, s', i); }
    else if a.BeginAdd? { DryByAppend(s, a.toxic, i); }
  }

  lemma DryByAppend(s: State, toxic: Toxic, i: int)
    requires Wiring(s) && 0 <= i < s.spine
    ensures Dry(s, i) ==> Dry(Append(s, toxic), i)
    ensures i > 0 && Ended(Append(s, toxic), i) ==> Ended(s, i)
  {
  }

  lemma DryByRefuse(s: State, s': State, i: int)
    requires Wiring(s) && Next(s, Refuse, s') && 0 <= i < s.spine
    ensures Dry(s, i) ==> Dry(s', i)
    ensures i > 0 && Ended(s', i) ==> Ended(s, i)
  {
    if Pending(s) { assert s.nodes[i].output != s.nodes[|s.nodes| - 1].input; }
  }

  lemma DryByResume(s: State, s': State, i: int)
    requires Inv(s) && Next(s, Resume, s') && !s.ctl.op.Adding? && 0 <= i < s.spine
    ensures Dry(s, i) ==> Dry(s', i)
    ensures i > 0 && Ended(s', i) ==> Ended(s, i)
    ensures s'.sinkDone == s.sinkDone && s'.spine == s.spine
    ensures Blocked(s.nodes[i]) ==> Blocked(s'.nodes[i])
  {
    var t := Target(s, s.ctl.op);
    assert NodeOk(s.nodes[t], ModeOf(s, t));
  }

  lemma DryByConnect(s: State, s': State, i: int)
    requires Wiring(s) && NodesOk(s) && PendingOk(s) && Next(s, Resume, s') && s.ctl.op.Adding? && 0 <= i <= s.spine
    ensures s'.spine == s.spine + 1 && s'.sinkDone == s.sinkDone && !Dry(s, s.spine - 1)
    ensures i < s.spine && Dry(s, i) ==> Dry(s', i)
    ensures i > 0 && Ended(s', i) ==> i < s.spine && Ended(s, i)
    ensures Blocked(s.nodes[i]) ==> Blocked(s'.nodes[i])
  {
    var n := |s.nodes|;
    assert NodeOk(s.nodes[n - 2], ModeOf(s, n - 2)) && NodeOk(s.nodes[n - 1], ModeOf(s, n - 1));
    ConnectNode(s, i);
  }

  lemma DryByFinish(s: State, k: nat, s': State, i: int)
    requires Wiring(s) && NodesOk(s) && ControlOk(s) && s.ctl.Emptying? && k == s.ctl.index && k - 1 < |s.chain|
    requires s' == Disconnect(s, k) && 0 <= i < s.spine - 1
    ensures s'.spine == s.spine - 1 && s'.sinkDone == s.sinkDone && !Dry(s, k) && !Dry(s, k + 1)
    ensures Dry(s, if i <= k then i else i + 1) ==> Dry(s', i)
    ensures Ended(s', i) ==> Ended(s, if i <= k then i else i + 1)
    ensures !Blocked(s.nodes[k]) && !Blocked(s.nodes[k + 1])
    ensures Blocked(s.nodes[if i <= k then i else i + 1]) ==> Blocked(s'.nodes[i])
  {
    assert NodeOk(s.nodes[k], ModeOf(s, k)) && NodeOk(s.nodes[k + 1], ModeOf(s, k + 1));
    FinishNode(s, k, i);
  }

  // ---- all steps -----------------------------------------------------------------------------------------

  lemma OrderKept(s: State, s': State)
    requires s'.spine == s.spine >= 1 && (s'.discarded == [] ==> s.discarded == []) && ClosedInOrder(s)
    requires s'.discarded == [] ==> forall i :: 0 <= i < s.spine ==>
      (Dry(s, i) ==> Dry(s', i)) && (i > 0 && Ended(s', i) ==> Ended(s, i) || Dry(s, i - 1))
    requires s'.sinkDone ==> s.sinkDone || Dry(s, s.spine - 1)
    ensures ClosedInOrder(s')
  {
  }

  /** The receive actions, as what they leave behind. */
  lemma ReceivedBy(s: State, a: Action, s': State) returns (c0: Chunk)
    requires GoodStep(s, a, s') && (a.Queued? || a.Direct?)
    ensures Received(s, a.to, c0, s') && s'.sinkDone == s.sinkDone
  {
    if a.Queued? {
      c0 := QueuedReceived(s, a.to, s');
    } else {
      DirectIsFeeder(s, a.to, a.i);
      c0 := DirectReceived(s, a.to, a.i, s');
    }
  }

  lemma ClosedByReceive(s: State, a: Action, s': State)
    requires GoodStep(s, a, s') && ClosedInOrder(s) && (a.Queued? || a.Direct?)
    ensures ClosedInOrder(s') && (SomeBlocked(s) || s'.discarded != s.discarded ==> SomeBlocked(s'))
  {
    var c0 := ReceivedBy(s, a, s');
    ReceiveKeepsClosed(s, a, s');
    BlockedByReceive(s, a, c0, s');
    OrderByReceive(s, a, c0, s');
  }

  lemma OrderByReceive(s: State, a: Action, c0: Chunk, s': State)
    requires Inv(s) && ClosedInOrder(s) && Enabled(s, a) && (a.Queued? || a.Direct?) && Received(s, a.to, c0, s')
    requires s'.sinkDone == s.sinkDone && (forall j :: 0 <= j < |s.nodes| && s.nodes[j].closed ==> s'.nodes[j].closed)
    requires forall c :: 0 <= c < |s.chans| && s.chans[c].closed ==> s'.chans[c].closed
    ensures ClosedInOrder(s')
  {
    AllDryByReceive(s, a, c0, s');
    OrderKept(s, s');
  }

  lemma AllDryByReceive(s: State, a: Action, c0: Chunk, s': State)
    requires Inv(s) && Enabled(s, a) && (a.Queued? || a.Direct?) && Received(s, a.to, c0, s')
    requires s'.sinkDone == s.sinkDone && (forall j :: 0 <= j < |s.nodes| && s.nodes[j].closed ==> s'.nodes[j].closed)
    requires forall c :: 0 <= c < |s.chans| && s.chans[c].closed ==> s'.chans[c].closed
    ensures forall i :: 0 <= i < s.spine ==>
      (Dry(s, i) ==> Dry(s', i)) && (i > 0 && Ended(s', i) && s'.discarded == [] ==> Ended(s, i))
  {
    forall i | 0 <= i < s.spine
      ensures (Dry(s, i) ==> Dry(s', i)) && (i > 0 && Ended(s', i) && s'.discarded == [] ==> Ended(s, i))
    {
      DryByReceive(s, a, c0, s', i);
    }
  }

  lemma ReceiveKeepsClosed(s: State, a: Action, s': State)
    requires Wiring(s) && Next(s, a, s') && (a.Queued? || a.Direct?)
    ensures |s'.nodes| == |s.nodes| && |s'.chans| == |s.chans|
    ensures forall j :: 0 <= j < |s.nodes| && s.nodes[j].closed ==> s'.nodes[j].closed
    ensures forall c :: 0 <= c < |s.chans| && s.chans[c].closed ==> s'.chans[c].closed
  {
    if a.Queued? { QueuedKeepsClosed(s, a.to); } else { DirectKeepsClosed(s, a.to, a.i); }
  }

  lemma QueuedKeepsClosed(s: State, to: Receiver)
    requires Enabled(s, Queued(to))
    ensures var s' := Apply(s, Queued(to));
      && |s'.nodes| == |s.nodes| && |s'.chans| == |s.chans|
      && (forall j :: 0 <= j < |s.nodes| ==> s'.nodes[j].closed == s.nodes[j].closed)
      && (forall c :: 0 <= c < |s.chans| ==> s'.chans[c].closed == s.chans[c].closed)
  {
    DeliverKeepsClosed(TakeOut(s, Source(s, to)), to, s.chans[Source(s, to)].queue[0]);
  }

  lemma DirectKeepsClosed(s: State, to: Receiver, i: nat)
    requires Enabled(s, Direct(to, i)) && !Panics(s, Direct(to, i))
    ensures var s' := Apply(s, Direct(to, i));
      && |s'.nodes| == |s.nodes| && s'.chans == s.chans
      && (forall j :: 0 <= j < |s.nodes| ==> s'.nodes[j].closed == s.nodes[j].closed)
  {
    DeliverKeepsClosed(SetNode(s, i, Sent(s.nodes[i])), to, Offered(s.nodes[i]));
  }

  lemma DeliverKeepsClosed(s: State, to: Receiver, c: Chunk)
    requires Ready(s, to)
    ensures var s' := Deliver(s, to, c);
      && s'.chans == s.chans && |s'.nodes| == |s.nodes|
      && forall j :: 0 <= j < |s.nodes| ==> s'.nodes[j].closed == s.nodes[j].closed
  {
  }

  lemma ClosedByNil(s: State, a: Action, s': State)
    requires GoodStep(s, a, s') && ClosedInOrder(s) && a.Nil?
    ensures ClosedInOrder(s') && (SomeBlocked(s) || s'.discarded != s.discarded ==> SomeBlocked(s'))
  {
    OrderByNil(s, a.to, s');
  }

  lemma OrderByNil(s: State, to: Receiver, s': State)
    requires Wiring(s) && NodesOk(s) && ChansOk(s) && ControlOk(s) && ClosedInOrder(s)
    requires Enabled(s, Nil(to)) && s' == DeliverNil(s, to) && s'.spine == s.spine <= |s'.nodes|
    ensures s'.discarded == s.discarded && ClosedInOrder(s') && (SomeBlocked(s) ==> SomeBlocked(s'))
  {
    forall i | 0 <= i < s.spine
      ensures Dry(s, i) ==> Dry(s', i)
      ensures i > 0 && Ended(s', i) ==> Ended(s, i) || Dry(s, i - 1)
      ensures Blocked(s.nodes[i]) ==> Blocked(s'.nodes[i])
    {
      DryByNil(s, to, s', i);
    }
    DryByNil(s, to, s', 0);
    OrderKept(s, s');
  }

  lemma ClosedByOther(s: State, a: Action, s': State)
    requires GoodStep(s, a, s') && ClosedInOrder(s) && s'.discarded == s.discarded
    requires !(a.Queued? || a.Direct? || a.Nil? || a.Finish? || Connects(s, a))
    ensures ClosedInOrder(s') && (SomeBlocked(s) ==> SomeBlocked(s'))
  {
    forall i | 0 <= i < s.spine
      ensures Dry(s, i) ==> Dry(s', i)
      ensures i > 0 && Ended(s', i) ==> Ended(s, i)
      ensures Blocked(s.nodes[i]) ==> Blocked(s'.nodes[i])
      ensures s'.sinkDone == s.sinkDone && s'.spine == s.spine
    {
      OtherNode(s, a, s', i);
    }
    OtherNode(s, a, s', 0);
    OrderKept(s, s');
  }

  predicate Connects(s: State, a: Action) { a.Resume? && s.ctl.Awaiting? && s.ctl.op.Adding? }

  lemma OtherNode(s: State, a: Action, s': State, i: int)
    requires GoodStep(s, a, s') && 0 <= i < s.spine
    requires !(a.Queued? || a.Direct? || a.Nil? || a.Finish? || Connects(s, a))
    ensures Dry(s, i) ==> Dry(s', i)
    ensures i > 0 && Ended(s', i) ==> Ended(s, i)
    ensures Blocked(s.nodes[i]) ==> Blocked(s'.nodes[i])
    ensures s'.sinkDone == s.sinkDone && s'.spine == s.spine
  {
    if !ByController(a) { DryByPipe(s, a, s', i); }
    else if a.Accept? || a.HelperAccept? { DryByInterrupt(s, a, s', i); }
    else if a.Resume? { DryByResume(s, s', i); }
    else { DryByController(s, a, s', i); }
  }

  lemma ClosedByConnect(s: State, s': State)
    requires GoodStep(s, Resume, s') && ClosedInOrder(s) && s.ctl.op.Adding? && s'.discarded == s.discarded
    ensures ClosedInOrder(s') && (SomeBlocked(s) ==> SomeBlocked(s'))
  {
    forall i | 0 <= i <= s.spine ensures Extends(s, s', i) { DryByConnect(s, s', i); }
    ExtendOrder(s, s');
  }

  ghost predicate Extends(s: State, s': State, i: int) {
    && s'.spine == s.spine + 1 <= |s.nodes| <= |s'.nodes| && s'.sinkDone == s.sinkDone && !Dry(s, s.spine - 1)
    && 0 <= i <= s.spine
    && (i < s.spine && Dry(s, i) ==> Dry(s', i))
    && (i > 0 && Ended(s', i) ==> i < s.spine && Ended(s, i))
    && (Blocked(s.nodes[i]) ==> Blocked(s'.nodes[i]))
  }

  lemma ExtendOrder(s: State, s': State)
    requires s.spine >= 1 && ClosedInOrder(s) && s'.discarded == s.discarded
    requires forall i :: 0 <= i <= s.spine ==> Extends(s, s', i)
    ensures ClosedInOrder(s') && (SomeBlocked(s) ==> SomeBlocked(s'))
  {
    assert Extends(s, s', 0);
    if SomeBlocked(s) {
      var i :| 0 <= i < s.spine && Blocked(s.nodes[i]);
      assert Extends(s, s', i);
    }
    if s.discarded == [] {
      forall i | 1 <= i <= s'.spine && Ended(s', i) ensures Dry(s', i - 1) {
        assert Extends(s, s', i - 1);
        if i < s'.spine { assert Extends(s, s', i); } else { assert Ended(s, s.spine); }
      }
    }
  }

  lemma ClosedByFinish(s: State, s': State)
    requires GoodStep(s, Finish, s') && ClosedInOrder(s) && s'.discarded == s.discarded
    ensures ClosedInOrder(s') && (SomeBlocked(s) ==> SomeBlocked(s'))
  {
    var k := s.ctl.index;
    forall i | 0 <= i < s.spine - 1 ensures Shrinks(s, k, s', i) { DryByFinish(s, k, s', i); }
    ShrinkOrder(s, k, s');
  }

  ghost predicate Shrinks(s: State, k: nat, s': State, i: int) {
    && s'.spine == s.spine - 1 <= |s'.nodes| && s'.sinkDone == s.sinkDone && k + 1 < s.spine <= |s.nodes|
    && !Dry(s, k) && !Dry(s, k + 1) && !Blocked(s.nodes[k]) && !Blocked(s.nodes[k + 1])
    && 0 <= i < s.spine - 1
    && (Dry(s, if i <= k then i else i + 1) ==> Dry(s', i))
    && (Ended(s', i) ==> Ended(s, if i <= k then i else i + 1))
    && (Blocked(s.nodes[if i <= k then i else i + 1]) ==> Blocked(s'.nodes[i]))
  }

  lemma ShrinkBlocked(s: State, k: nat, s': State)
    requires s.spine >= 2 && forall i :: 0 <= i < s.spine - 1 ==> Shrinks(s, k, s', i)
    ensures SomeBlocked(s) ==> SomeBlocked(s')
  {
    if SomeBlocked(s) {
      var j :| 0 <= j < s.spine && Blocked(s.nodes[j]);
      assert Shrinks(s, k, s', 0);
      assert Shrinks(s, k, s', if j <= k then j else j - 1);
    }
  }

  lemma ShrinkOrder(s: State, k: nat, s': State)
    requires ClosedInOrder(s) && s'.discarded == s.discarded && s.spine >= 2
    requires forall i :: 0 <= i < s.spine - 1 ==> Shrinks(s, k, s', i)
    ensures ClosedInOrder(s') && (SomeBlocked(s) ==> SomeBlocked(s'))
  {
    ShrinkBlocked(s, k, s');
    assert Shrinks(s, k, s', 0);
    if s.discarded == [] {
      forall i | 1 <= i <= s'.spine && Ended(s', i) ensures Dry(s', i - 1) {
        var j := if i <= k then i else i + 1;
        assert Shrinks(s, k, s', i - 1);
        if i < s'.spine { assert Shrinks(s, k, s', i); }
        assert Ended(s, j);
        assert Dry(s, j - 1);
      }
    }
  }

  lemma DiscardsReceive(s: State, a: Action, s': State)
    requires Next(s, a, s') && !a.Queued? && !a.Direct?
    ensures s'.discarded == s.discarded
  {
  }

  lemma ClosedKept(s: State, a: Action, s': State, change: Change)
    requires GoodStep(s, a, s') && ClosedInOrder(s) && Effect(s, a, s', change)
    ensures ClosedInOrder(s')
    ensures SomeBlocked(s) || (change.Lose? && !a.Timeout?) ==> SomeBlocked(s')
  {
    if a.Queued? || a.Direct? { ClosedByReceive(s, a, s'); }
    else {
      DiscardsReceive(s, a, s');
      if a.Nil? { ClosedByNil(s, a, s'); }
      else if a.Finish? { ClosedByFinish(s, s'); }
      else if Connects(s, a) { ClosedByConnect(s, s'); }
      else { ClosedByOther(s, a, s'); }
    }
  }
}
