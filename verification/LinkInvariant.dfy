/** What every step of every goroutine keeps: who may touch which stub and which channel. */
module LinkInvariant {
  import opened Streams
  import opened LinkState

  /** What the controller and its helper have done to a stub. */
  datatype Mode =
    | Free        // nothing: its own goroutine runs it, or has closed it
    | Yielding    // its Pipe has taken an interrupt and is on its way out
    | Parked      // its Pipe is gone and the controller will restart it
    | Drained     // its Pipe is gone and RemoveToxic empties its input

  function ModeOf(s: State, i: int): Mode {
    if s.ctl.Awaiting? && i == Target(s, s.ctl.op) then Yielding
    else if Pending(s) && i == |s.nodes| - 1 then Parked
    else if InRemoval(s) && i == s.ctl.index + 1 then Drained
    else if s.ctl.Draining? && i == s.ctl.index then
      if s.helper.HelperAwaiting? then Yielding
      else if s.helper.HelperSending? && s.helper.result then Parked
      else Free
    else if s.ctl.Emptying? && i == s.ctl.index then Parked
    else Free
  }

  /** At most one goroutine runs a stub, and its mode says which one that can be. */
  predicate NodeOk(n: Node, m: Mode) {
    match m
    case Free =>
      if n.closed then n.pc.Closing? || n.pc.Returned? || n.pc.Stopped?
      else || n.pc.Launched? || n.pc.Listening? || n.pc.Delaying? || n.pc.Discarding?
           || (n.pc.Sending? && !n.pc.leaving)
    case Yielding => !n.closed && (n.pc.Returned? || n.pc.Stopped? || (n.pc.Sending? && n.pc.leaving && n.pc.rest == []))
    case Parked => !n.closed && n.pc.Stopped?
    case Drained => !n.closed && (n.pc.Stopped? || n.pc.Flushing?)
  }

  /** The first spine nodes form a chain of distinct channels from the source to outChan; the
      channels of the other nodes are not on it. */
  ghost predicate Wiring(s: State) {
    && 2 <= s.spine <= |s.nodes|
    && (forall i :: 0 <= i < s.spine ==> s.nodes[i].output < |s.chans|)
    && (forall i, j :: 0 <= i < j < s.spine ==> s.nodes[i].output != s.nodes[j].output)
    && (forall i, j :: 0 <= i && i + 1 == j < s.spine ==> s.nodes[j].input == s.nodes[i].output)
    && s.nodes[s.spine - 1].output == s.outChan
    && (forall i, j :: 0 <= i < s.spine <= j < |s.nodes| ==> s.nodes[i].output != s.nodes[j].input)
    && (forall j :: s.spine <= j < |s.nodes| ==> s.nodes[j].input < |s.chans|)
    && (Pending(s) ==> s.spine < |s.nodes|)
  }

  ghost predicate NodesOk(s: State) {
    && (forall i :: 0 <= i < |s.nodes| ==> NodeOk(s.nodes[i], ModeOf(s, i)))
    && (forall i :: 0 <= s.spine <= i < |s.nodes| ==> s.nodes[i].pc.Stopped?)
  }

  /** A stub's output is closed exactly when its Close has finished; buffers respect their size. */
  predicate ChanOk(n: Node, ch: Chan) {
    && (ch.closed <==> n.closed && !n.pc.Closing?)
    && |ch.queue| <= ch.capacity
  }

  ghost predicate ChansOk(s: State) {
    forall i :: 0 <= i < s.spine && i < |s.nodes| && s.nodes[i].output < |s.chans| ==>
      ChanOk(s.nodes[i], s.chans[s.nodes[i].output])
  }

  /** The stub that AddToxic has appended but not connected: its input channel is new and unused. */
  ghost predicate PendingOk(s: State) {
    Pending(s) ==>
      && |s.nodes| >= 3
      && var n := s.nodes[|s.nodes| - 1];
      && n.input < |s.chans| && s.chans[n.input] == Chan(s.ctl.op.toxic.bufferSize, [], false)
      && (s.spine == |s.nodes| - 1 ==> n.output == s.outChan)
      && (s.ctl.Awaiting? ==> s.spine == |s.nodes| - 1)
  }

  predicate IndexOk(s: State, index: nat) { 1 <= index && index + 1 < s.spine <= |s.nodes| }

  ghost predicate ControlOk(s: State) {
    && s.helpers.started == s.helpers.received + (if s.helper.NoHelper? then 0 else 1)
    && match s.ctl
       case Idle => s.helper.NoHelper?
       case Interrupting(op) => s.helper.NoHelper? && (!op.Adding? ==> 1 <= op.index && op.index + 1 < |s.nodes|)
       case Awaiting(op) => s.helper.NoHelper? && (!op.Adding? ==> IndexOk(s, op.index))
       case Draining(index, stopped) =>
         && IndexOk(s, index)
         && (stopped <==> s.helper.NoHelper?)
         && (stopped || (s.helper.HelperSending? && !s.helper.result) ==> s.nodes[index].closed)
         && (!stopped ==> s.helper.node == index)
       case AwaitingStop(index) =>
         && IndexOk(s, index) && s.nodes[index].closed && s.nodes[index + 1].closed
         && (s.helper.HelperInterrupting? || (s.helper.HelperSending? && !s.helper.result))
         && s.helper.node == index
       case Emptying(index) => IndexOk(s, index) && s.helper.NoHelper?
  }

  /** RemoveToxic is under way: the toxic is out of the chain, its stub is still in the link. */
  predicate Removal(s: State) {
    match s.ctl
    case Idle => false
    case Interrupting(op) => op.Removing?
    case Awaiting(op) => op.Removing?
    case _ => true
  }

  function RemovalIndex(s: State): nat
    requires Removal(s)
  {
    match s.ctl
    case Interrupting(op) => op.index
    case Awaiting(op) => op.index
    case Draining(index, _) => index
    case AwaitingStop(index) => index
    case Emptying(index) => index
  }

  /** link.stubs is never shorter than the chain. */
  ghost predicate IndexSafe(s: State) {
    && s.chain != []
    && |s.nodes| >= |s.chain| + (if Removal(s) then 2 else 1)
    && (Removal(s) ==> RemovalIndex(s) <= |s.chain|)
  }

  ghost predicate Inv(s: State) {
    Wiring(s) && NodesOk(s) && ChansOk(s) && PendingOk(s) && ControlOk(s) && IndexSafe(s)
  }

  /** The fields that no step of a Pipe, the source or the sink changes. */
  predicate SameControl(s: State, s': State) {
    && s'.spine == s.spine && s'.outChan == s.outChan && s'.chain == s.chain
    && s'.ctl == s.ctl && s'.helper == s.helper && s'.helpers == s.helpers
  }

  ghost predicate SameWires(s: State, s': State) {
    && |s'.nodes| == |s.nodes| && |s'.chans| == |s.chans|
    && s'.spine == s.spine && s'.outChan == s.outChan && (Pending(s') ==> Pending(s))
    && (forall i :: 0 <= i < |s.nodes| ==> s'.nodes[i].input == s.nodes[i].input && s'.nodes[i].output == s.nodes[i].output)
  }

  lemma WiringFrame(s: State, s': State)
    requires Wiring(s) && SameWires(s, s')
    ensures Wiring(s')
  {
  }

  /** Channels other than one on the spine are as they were. */
  lemma ChansFrame(s: State, s': State, i: nat, k: nat)
    requires Wiring(s) && ChansOk(s) && SameWires(s, s') && Wiring(s')
    requires i < |s.nodes| && s'.nodes == s.nodes[i := s'.nodes[i]]
    requires k < s.spine
    requires var c := s.nodes[k].output; s'.chans == s.chans[c := s'.chans[c]] && ChanOk(s'.nodes[k], s'.chans[c])
    requires i < s.spine && i != k ==> ChanOk(s'.nodes[i], s.chans[s.nodes[i].output])
    ensures ChansOk(s')
  {
    forall j | 0 <= j < s.spine ensures ChanOk(s'.nodes[j], s'.chans[s'.nodes[j].output]) {
      if j < k { assert s.nodes[j].output != s.nodes[k].output; }
      if k < j { assert s.nodes[k].output != s.nodes[j].output; }
    }
  }

  /** A step that changes one node, short of its wires, and one channel of the spine. */
  lemma LocalStep(s: State, s': State, i: nat, k: nat)
    requires Inv(s) && SameControl(s, s')
    requires i < |s.nodes| && |s'.nodes| == |s.nodes| && s'.nodes == s.nodes[i := s'.nodes[i]]
    requires s'.nodes[i].input == s.nodes[i].input && s'.nodes[i].output == s.nodes[i].output
    requires s.nodes[i].closed ==> s'.nodes[i].closed
    requires NodeOk(s'.nodes[i], ModeOf(s, i)) && (i >= s.spine ==> s'.nodes[i].pc.Stopped?)
    requires k < s.spine && |s'.chans| == |s.chans|
    requires var c := s.nodes[k].output; s'.chans == s.chans[c := s'.chans[c]] && ChanOk(s'.nodes[k], s'.chans[c])
    requires i < s.spine && i != k ==> ChanOk(s'.nodes[i], s.chans[s.nodes[i].output])
    ensures Inv(s')
  {
    LocalWires(s, s', i, k);
    NodesFrame(s, s', i);
    PendingFrame(s, s', s.nodes[k].output, k);
    ControlFrame(s, s');
  }

  lemma LocalWires(s: State, s': State, i: nat, k: nat)
    requires Wiring(s) && ChansOk(s) && SameControl(s, s')
    requires i < |s.nodes| && |s'.nodes| == |s.nodes| && s'.nodes == s.nodes[i := s'.nodes[i]]
    requires s'.nodes[i].input == s.nodes[i].input && s'.nodes[i].output == s.nodes[i].output
    requires k < s.spine && |s'.chans| == |s.chans|
    requires var c := s.nodes[k].output; s'.chans == s.chans[c := s'.chans[c]] && ChanOk(s'.nodes[k], s'.chans[c])
    requires i < s.spine && i != k ==> ChanOk(s'.nodes[i], s.chans[s.nodes[i].output])
    ensures SameWires(s, s') && Wiring(s') && ChansOk(s')
  {
    WiringFrame(s, s');
    ChansFrame(s, s', i, k);
  }

  lemma NodesFrame(s: State, s': State, i: nat)
    requires Wiring(s) && NodesOk(s) && SameControl(s, s')
    requires i < |s.nodes| && |s'.nodes| == |s.nodes| && s'.nodes == s.nodes[i := s'.nodes[i]]
    requires NodeOk(s'.nodes[i], ModeOf(s, i)) && (i >= s.spine ==> s'.nodes[i].pc.Stopped?)
    ensures NodesOk(s')
  {
    forall j | 0 <= j < |s.nodes| ensures NodeOk(s'.nodes[j], ModeOf(s', j)) {
      assert ModeOf(s', j) == ModeOf(s, j);
    }
  }

  lemma PendingFrame(s: State, s': State, c: nat, k: nat)
    requires Wiring(s) && PendingOk(s) && SameControl(s, s') && SameWires(s, s')
    requires k < s.spine && c == s.nodes[k].output && s'.chans == s.chans[c := s'.chans[c]]
    ensures PendingOk(s')
  {
    if Pending(s) {
      assert s.nodes[k].output != s.nodes[|s.nodes| - 1].input;
    }
  }

  lemma ControlFrame(s: State, s': State)
    requires ControlOk(s) && IndexSafe(s) && SameControl(s, s') && |s'.nodes| == |s.nodes|
    requires forall i :: 0 <= i < |s.nodes| && s.nodes[i].closed ==> s'.nodes[i].closed
    ensures ControlOk(s') && IndexSafe(s')
  {
  }

  // ---- steps of the source, the pipes and the sink ------------------------------------------------

  lemma StepDeposit(s: State, i: nat)
    requires Inv(s) && Enabled(s, Deposit(i)) && !Panics(s, Deposit(i))
    ensures Inv(PutIn(s, i))
  {
    LocalStep(s, PutIn(s, i), i, i);
  }

  /** The node whose output a receiver reads. */
  function Feeder(s: State, to: Receiver): int
    requires Ready(s, to)
  {
    match to
    case ToStub(i, _) => i - 1
    case ToSink => s.spine - 1
    case ToDrain => s.ctl.index
  }

  lemma FeederFeeds(s: State, to: Receiver)
    requires Inv(s) && Ready(s, to)
    ensures 0 <= Feeder(s, to) < s.spine
    ensures Source(s, to) == s.nodes[Feeder(s, to)].output
    ensures to.ToStub? ==> to.i < s.spine
  {
  }

  lemma ReceiveOk(n: Node, pc: Pc)
    requires NodeOk(n, Free) && n.pc.Listening?
    requires pc.Delaying? || pc.Discarding? || (pc.Sending? && !pc.leaving)
    ensures NodeOk(n.(pc := pc), Free)
  {
  }

  lemma StepDeliver(s: State, to: Receiver, c: Chunk)
    requires Inv(s) && Ready(s, to)
    ensures Inv(Deliver(s, to, c))
  {
    if to.ToStub? { DeliverStub(s, to, c); }
    else if to.ToDrain? { DeliverDrain(s, c); }
    else { LocalStep(s, Deliver(s, to, c), 0, 0); }
  }

  lemma DeliverStub(s: State, to: Receiver, c: Chunk)
    requires Inv(s) && Ready(s, to) && to.ToStub?
    ensures Inv(Deliver(s, to, c))
  {
    var i := to.i;
    var pc := OnReceive(s.nodes[i].pipe, c, to.draws);
    ReceivedPc(s.nodes[i].pipe, c, to);
    assert i < s.spine && ModeOf(s, i) == Free by { assert NodeOk(s.nodes[i], ModeOf(s, i)); }
    ReceiveOk(s.nodes[i], pc);
    LocalStep(s, Deliver(s, to, c), i, i);
  }

  lemma ReceivedPc(pipe: Kind, c: Chunk, to: Receiver)
    requires to.ToStub?
    ensures var pc := OnReceive(pipe, c, to.draws); pc.Delaying? || pc.Discarding? || (pc.Sending? && !pc.leaving)
  {
  }

  lemma DeliverDrain(s: State, c: Chunk)
    requires Inv(s) && Ready(s, ToDrain)
    ensures Inv(Deliver(s, ToDrain, c))
  {
    var i := s.ctl.index + 1;
    assert ModeOf(s, i) == Drained;
    LocalStep(s, Deliver(s, ToDrain, c), i, i);
  }

  lemma StepQueued(s: State, to: Receiver)
    requires Inv(s) && Enabled(s, Queued(to))
    ensures Inv(Apply(s, Queued(to)))
  {
    StepTake(s, to);
    StepDeliver(TakeOut(s, Source(s, to)), to, s.chans[Source(s, to)].queue[0]);
  }

  lemma StepTake(s: State, to: Receiver)
    requires Inv(s) && Enabled(s, Queued(to))
    ensures var s1 := TakeOut(s, Source(s, to)); Inv(s1) && Ready(s1, to)
  {
    FeederFeeds(s, to);
    LocalStep(s, TakeOut(s, Source(s, to)), Feeder(s, to), Feeder(s, to));
  }

  /** A blocked sender's partner is the next goroutine down the spine. */
  lemma DirectIsFeeder(s: State, to: Receiver, i: nat)
    requires Inv(s) && Enabled(s, Direct(to, i))
    ensures i == Feeder(s, to) && i < s.spine
  {
    FeederFeeds(s, to);
    var k := Feeder(s, to);
    assert i < s.spine;
  }

  lemma StepSent(s: State, i: nat)
    requires Inv(s) && i < |s.nodes| && Offering(s.nodes[i])
    ensures i < s.spine && Inv(SetNode(s, i, Sent(s.nodes[i])))
  {
    assert i < s.spine;
    LocalStep(s, SetNode(s, i, Sent(s.nodes[i])), i, i);
  }

  lemma StepDirect(s: State, to: Receiver, i: nat)
    requires Inv(s) && Enabled(s, Direct(to, i)) && !Panics(s, Direct(to, i))
    ensures Inv(Apply(s, Direct(to, i)))
  {
    DirectIsFeeder(s, to, i);
    StepSent(s, i);
    StepDeliver(SetNode(s, i, Sent(s.nodes[i])), to, Offered(s.nodes[i]));
  }

  lemma StepSource(s: State, a: Action)
    requires Inv(s) && Enabled(s, a) && !Panics(s, a)
    requires a.SourceWrite? || a.SourceClose?
    ensures Inv(Apply(s, a))
  {
    LocalStep(s, Apply(s, a), 0, 0);
  }

  lemma StepTimer(s: State, i: nat)
    requires Inv(s) && Enabled(s, Timer(i))
    ensures Inv(Fire(s, i))
  {
    assert i < s.spine;
    LocalStep(s, Fire(s, i), i, i);
  }

  lemma StepCloseOutput(s: State, i: nat)
    requires Inv(s) && Enabled(s, CloseOutput(i))
    ensures Inv(CloseChan(s, i))
  {
    assert i < s.spine;
    LocalStep(s, CloseChan(s, i), i, i);
  }

  lemma OnlyNode(s: State, i: nat, n: Node)
    requires Inv(s) && i < s.spine && n.input == s.nodes[i].input && n.output == s.nodes[i].output
    requires NodeOk(n, ModeOf(s, i)) && n.closed == s.nodes[i].closed && n.pc.Closing? == s.nodes[i].pc.Closing?
    ensures Inv(SetNode(s, i, n))
  {
    LocalStep(s, SetNode(s, i, n), i, i);
  }

  lemma StepRun(s: State, a: Action)
    requires Inv(s) && Enabled(s, a)
    requires a.Start? || a.Exit?
    ensures Inv(Apply(s, a))
  {
    assert a.i < s.spine;
    OnlyNode(s, a.i, Apply(s, a).nodes[a.i]);
  }

  lemma LogKept(s: State, log: seq<Chunk>)
    requires Inv(s)
    ensures Inv(s.(dropped := log))
  {
    LocalStep(s, s.(dropped := log), 0, 0);
  }

  lemma StepTimeout(s: State, i: nat)
    requires Inv(s) && Enabled(s, Timeout(i))
    ensures Inv(GiveUp(s, i))
  {
    StepSent(s, i);
    LogKept(SetNode(s, i, Sent(s.nodes[i])), s.dropped + [Offered(s.nodes[i])]);
  }

  lemma StepNil(s: State, to: Receiver)
    requires Inv(s) && Enabled(s, Nil(to)) && !Panics(s, Nil(to)) && !to.ToDrain?
    ensures Inv(DeliverNil(s, to))
  {
    if to.ToStub? { NilStub(s, to); } else { LocalStep(s, DeliverNil(s, to), 0, 0); }
  }

  lemma NilStub(s: State, to: Receiver)
    requires Inv(s) && Ready(s, to) && to.ToStub?
    ensures Inv(DeliverNil(s, to))
  {
    var i := to.i;
    assert i < s.spine && ModeOf(s, i) == Free by { assert NodeOk(s.nodes[i], ModeOf(s, i)); }
    LocalStep(s, DeliverNil(s, to), i, i);
  }

  // ---- steps of the controller and its helper ------------------------------------------------------

  /** A step that changes one node and the mode of that node only. */
  lemma OneNode(s: State, s': State, i: nat)
    requires Wiring(s) && NodesOk(s) && SameWires(s, s') && i < |s.nodes|
    requires forall j :: 0 <= j < |s.nodes| && j != i ==> s'.nodes[j] == s.nodes[j] && ModeOf(s', j) == ModeOf(s, j)
    requires NodeOk(s'.nodes[i], ModeOf(s', i)) && (i >= s.spine ==> s'.nodes[i].pc.Stopped?)
    ensures NodesOk(s')
  {
  }

  lemma StepNilDrain(s: State)
    requires Inv(s) && Enabled(s, Nil(ToDrain)) && !Panics(s, Nil(ToDrain))
    ensures Inv(DeliverNil(s, ToDrain))
  {
    var s' := DeliverNil(s, ToDrain);
    var i := s.ctl.index + 1;
    WiringFrame(s, s');
    FeederFeeds(s, ToDrain);
    assert s.nodes[i - 1].closed;
    NilDrainParts(s, s', i);
  }

  lemma NilDrainParts(s: State, s': State, i: nat)
    requires Wiring(s) && NodesOk(s) && ChansOk(s) && ControlOk(s) && IndexSafe(s) && Wiring(s')
    requires Enabled(s, Nil(ToDrain)) && s' == DeliverNil(s, ToDrain) && i == s.ctl.index + 1 && s.nodes[i - 1].closed
    ensures NodesOk(s') && ChansOk(s') && ControlOk(s') && IndexSafe(s') && PendingOk(s')
  {
    NilDrainNodes(s, s', i);
    ChansFrame(s, s', i, i);
  }

  lemma NilDrainNodes(s: State, s': State, i: nat)
    requires Wiring(s) && NodesOk(s) && ControlOk(s) && IndexSafe(s)
    requires Enabled(s, Nil(ToDrain)) && s' == DeliverNil(s, ToDrain) && i == s.ctl.index + 1 && s.nodes[i - 1].closed
    ensures NodesOk(s') && ControlOk(s') && IndexSafe(s') && PendingOk(s')
  {
    assert NodeOk(s.nodes[i - 1], ModeOf(s, i - 1));
    OneNode(s, s', i);
  }

  lemma StepAppend(s: State, toxic: Toxic)
    requires Inv(s) && Enabled(s, BeginAdd(toxic))
    ensures Inv(Append(s, toxic))
  {
    AppendWires(s, toxic);
    AppendNodes(s, toxic);
    AppendChans(s, toxic);
  }

  lemma AppendWires(s: State, toxic: Toxic)
    requires Wiring(s) && s.ctl.Idle?
    ensures Wiring(Append(s, toxic))
  {
    var s' := Append(s, toxic);
    forall i | 0 <= i < |s.nodes| ensures s'.nodes[i] == s.nodes[i] {}
    forall i, j | 0 <= i < s'.spine <= j < |s'.nodes| ensures s'.nodes[i].output != s'.nodes[j].input {
      AppendOffSpine(s, toxic, i, j);
    }
  }

  lemma AppendOffSpine(s: State, toxic: Toxic, i: nat, j: nat)
    requires Wiring(s) && i < s.spine <= j <= |s.nodes|
    ensures Append(s, toxic).nodes[i].output != Append(s, toxic).nodes[j].input
  {
    assert Append(s, toxic).nodes[i] == s.nodes[i];
    if j < |s.nodes| { assert Append(s, toxic).nodes[j] == s.nodes[j]; }
  }

  lemma AppendNodes(s: State, toxic: Toxic)
    requires Wiring(s) && NodesOk(s) && ControlOk(s) && s.ctl.Idle?
    ensures NodesOk(Append(s, toxic))
  {
    var s' := Append(s, toxic);
    forall i | 0 <= i < |s'.nodes| ensures NodeOk(s'.nodes[i], ModeOf(s', i)) {
      if i < |s.nodes| { assert ModeOf(s', i) == ModeOf(s, i) && s'.nodes[i] == s.nodes[i]; }
    }
  }

  lemma AppendChans(s: State, toxic: Toxic)
    requires Wiring(s) && ChansOk(s) && s.ctl.Idle? && Wiring(Append(s, toxic))
    ensures ChansOk(Append(s, toxic)) && PendingOk(Append(s, toxic))
  {
    var s' := Append(s, toxic);
    forall i | 0 <= i < s'.spine ensures ChanOk(s'.nodes[i], s'.chans[s'.nodes[i].output]) {
      assert s'.nodes[i] == s.nodes[i];
    }
  }

  /** A step that changes no node, no channel and no mode. */
  lemma NoNode(s: State, s': State)
    requires Wiring(s) && NodesOk(s) && ChansOk(s)
    requires s'.nodes == s.nodes && s'.chans == s.chans && s'.spine == s.spine && s'.outChan == s.outChan
    requires (Pending(s') ==> Pending(s)) && forall j :: 0 <= j < |s.nodes| ==> ModeOf(s', j) == ModeOf(s, j)
    ensures Wiring(s') && NodesOk(s') && ChansOk(s')
  {
    WiringFrame(s, s');
    OneNode(s, s', 0);
    ChansFrame(s, s', 0, 0);
  }

  lemma StepBegin(s: State, a: Action)
    requires Inv(s) && Enabled(s, a) && !Panics(s, a)
    requires a.BeginUpdate? || a.BeginRemove?
    ensures Inv(Apply(s, a))
  {
    if a.BeginUpdate? { StepBeginUpdate(s, a.index, a.toxic); } else { StepBeginRemove(s, a.index); }
  }

  lemma StepBeginUpdate(s: State, index: nat, toxic: Toxic)
    requires Inv(s) && Enabled(s, BeginUpdate(index, toxic)) && !Panics(s, BeginUpdate(index, toxic))
    ensures Inv(Apply(s, BeginUpdate(index, toxic)))
  {
    NoNode(s, Apply(s, BeginUpdate(index, toxic)));
  }

  lemma StepBeginRemove(s: State, index: nat)
    requires Inv(s) && Enabled(s, BeginRemove(index)) && !Panics(s, BeginRemove(index))
    ensures Inv(Apply(s, BeginRemove(index)))
  {
    NoNode(s, Apply(s, BeginRemove(index)));
  }

  lemma StepAccept(s: State)
    requires Inv(s) && Enabled(s, Accept)
    ensures Inv(Apply(s, Accept))
  {
    AcceptWires(s, Apply(s, Accept));
    AcceptNodes(s, Apply(s, Accept), Target(s, s.ctl.op));
    AcceptControl(s, Apply(s, Accept), Target(s, s.ctl.op));
  }

  lemma AcceptWires(s: State, s': State)
    requires Wiring(s) && NodesOk(s) && ChansOk(s) && Enabled(s, Accept) && s' == Apply(s, Accept)
    ensures Target(s, s.ctl.op) < s.spine && Wiring(s') && ChansOk(s')
  {
    var t := Target(s, s.ctl.op);
    assert t < s.spine;
    assert !s.nodes[t].closed by { assert NodeOk(s.nodes[t], ModeOf(s, t)); }
    InterruptWires(s, s', t);
  }

  /** A stub that is not closed goes on elsewhere. */
  lemma InterruptWires(s: State, s': State, t: nat)
    requires Wiring(s) && ChansOk(s) && t < s.spine && !s.nodes[t].closed
    requires |s'.nodes| == |s.nodes| && s'.nodes == s.nodes[t := s.nodes[t].(pc := s'.nodes[t].pc)]
    requires s'.chans == s.chans && s'.spine == s.spine && s'.outChan == s.outChan && (Pending(s') ==> Pending(s))
    ensures SameWires(s, s') && Wiring(s') && ChansOk(s')
  {
    WiringFrame(s, s');
    ChansFrame(s, s', t, t);
  }

  lemma AcceptControl(s: State, s': State, t: nat)
    requires Wiring(s) && PendingOk(s) && ControlOk(s) && IndexSafe(s)
    requires Enabled(s, Accept) && s' == Apply(s, Accept) && t == Target(s, s.ctl.op) < s.spine
    ensures PendingOk(s') && ControlOk(s') && IndexSafe(s')
  {
    if Pending(s) { assert s'.nodes[|s.nodes| - 1] == s.nodes[|s.nodes| - 1]; }
  }

  lemma AcceptNodes(s: State, s': State, t: nat)
    requires Wiring(s) && NodesOk(s) && Enabled(s, Accept) && s' == Apply(s, Accept)
      && t == Target(s, s.ctl.op) < s.spine
    ensures NodesOk(s')
  {
    assert NodeOk(s.nodes[t], ModeOf(s, t));
    OneNode(s, s', t);
  }

  lemma StepSeal(s: State)
    requires Inv(s) && Enabled(s, Refuse) && s.ctl.op.Adding? && !Panics(s, Refuse)
    ensures Inv(Seal(s))
  {
    SealWires(s);
    SealNodes(s);
    SealChans(s);
  }

  lemma SealWires(s: State)
    requires Wiring(s) && Pending(s) && s.nodes[|s.nodes| - 1].input < |s.chans|
    ensures Wiring(Seal(s))
  {
    var s' := Seal(s);
    assert forall i :: 0 <= i < |s.nodes| ==>
      s'.nodes[i].input == s.nodes[i].input && (i < s.spine ==> s'.nodes[i].output == s.nodes[i].output);
  }

  lemma SealNodes(s: State)
    requires Wiring(s) && NodesOk(s) && ControlOk(s) && Enabled(s, Refuse) && Pending(s)
      && s.nodes[|s.nodes| - 1].input < |s.chans|
    ensures NodesOk(Seal(s)) && ControlOk(Seal(s))
  {
    var s' := Seal(s);
    forall i | 0 <= i < |s'.nodes| ensures NodeOk(s'.nodes[i], ModeOf(s', i)) {
      assert NodeOk(s.nodes[i], ModeOf(s, i));
      if i < |s.nodes| - 1 { assert ModeOf(s', i) == ModeOf(s, i) && s'.nodes[i] == s.nodes[i]; }
    }
  }

  lemma SealChans(s: State)
    requires Wiring(s) && ChansOk(s) && Pending(s) && s.nodes[|s.nodes| - 1].input < |s.chans| && Wiring(Seal(s))
    ensures ChansOk(Seal(s))
  {
    var s' := Seal(s);
    forall i | 0 <= i < s'.spine ensures ChanOk(s'.nodes[i], s'.chans[s'.nodes[i].output]) {
      assert s'.nodes[i] == s.nodes[i] && s.nodes[i].output != s.nodes[|s.nodes| - 1].input;
    }
  }

  lemma StepRefuse(s: State)
    requires Inv(s) && Enabled(s, Refuse) && !s.ctl.op.Adding?
    ensures Inv(Apply(s, Refuse))
  {
    NoNode(s, Apply(s, Refuse));
  }

  lemma StepConnect(s: State)
    requires Inv(s) && Enabled(s, Resume) && s.ctl.op.Adding? && !Panics(s, Resume)
    ensures Inv(Connect(s, s.ctl.op.toxic))
  {
    ConnectWires(s);
    ConnectNodes(s);
    ConnectChans(s);
  }

  /** What AddToxic's success branch does to the nodes. */
  lemma ConnectNode(s: State, j: nat)
    requires |s.nodes| >= 3 && !ChainTooShort(s) && Pending(s) && j < |s.nodes|
    ensures var s' := Connect(s, s.ctl.op.toxic);
            var i := |s.nodes| - 1;
            && |s'.nodes| == |s.nodes|
            && s'.nodes[j] ==
               if j == i then s.nodes[i].(pc := Launched, toxic := s.ctl.op.toxic)
               else if j == i - 1 then s.nodes[j].(output := s.nodes[i].input, pc := Launched, toxic := s.chain[i - 2])
               else s.nodes[j]
  {
  }

  lemma ConnectWires(s: State)
    requires Wiring(s) && PendingOk(s) && Pending(s) && s.ctl.Awaiting? && !ChainTooShort(s)
    ensures Wiring(Connect(s, s.ctl.op.toxic))
  {
    var s' := Connect(s, s.ctl.op.toxic);
    var i := |s.nodes| - 1;
    forall j | 0 <= j < |s.nodes|
      ensures s'.nodes[j].input == s.nodes[j].input
      ensures s'.nodes[j].output == if j == i - 1 then s.nodes[i].input else s.nodes[j].output
    {
      ConnectNode(s, j);
    }
  }

  lemma ConnectNodes(s: State)
    requires Wiring(s) && NodesOk(s) && PendingOk(s) && ControlOk(s) && IndexSafe(s)
    requires Enabled(s, Resume) && Pending(s) && !ChainTooShort(s)
    ensures NodesOk(Connect(s, s.ctl.op.toxic)) && ControlOk(Connect(s, s.ctl.op.toxic))
      && IndexSafe(Connect(s, s.ctl.op.toxic))
  {
    var s' := Connect(s, s.ctl.op.toxic);
    forall j | 0 <= j < |s'.nodes| ensures NodeOk(s'.nodes[j], ModeOf(s', j)) {
      ConnectNode(s, j);
      assert NodeOk(s.nodes[j], ModeOf(s, j));
    }
  }

  lemma ConnectChans(s: State)
    requires Wiring(s) && NodesOk(s) && ChansOk(s) && PendingOk(s)
    requires Enabled(s, Resume) && Pending(s) && !ChainTooShort(s) && Wiring(Connect(s, s.ctl.op.toxic))
    ensures ChansOk(Connect(s, s.ctl.op.toxic))
  {
    var s' := Connect(s, s.ctl.op.toxic);
    forall j | 0 <= j < s'.spine ensures ChanOk(s'.nodes[j], s'.chans[s'.nodes[j].output]) {
      ConnectNode(s, j);
      var i := |s.nodes| - 1;
      assert NodeOk(s.nodes[i], ModeOf(s, i)) && NodeOk(s.nodes[i - 1], ModeOf(s, i - 1));
      if j == i { assert ChanOk(s.nodes[i - 1], s.chans[s.outChan]); }
    }
  }

  lemma StepResume(s: State)
    requires Inv(s) && Enabled(s, Resume) && !s.ctl.op.Adding?
    ensures Inv(Apply(s, Resume))
  {
    ResumeIs(s);
    if s.ctl.op.Updating? { ResumeUpdate(s, s.ctl.op.index, s.ctl.op.toxic); } else { ResumeRemove(s, s.ctl.op.index); }
  }

  lemma ResumeIs(s: State)
    requires Enabled(s, Resume) && !s.ctl.op.Adding?
    ensures s.ctl == Awaiting(s.ctl.op) && s.ctl.op.index + 1 < |s.nodes| && s.nodes[s.ctl.op.index + 1].pc.Stopped?
    ensures Apply(s, Resume) ==
      if s.ctl.op.Updating? then Launch(s, s.ctl.op.index + 1, s.ctl.op.toxic).(ctl := Idle) else SpawnHelper(s, s.ctl.op.index)
  {
  }

  lemma ResumeUpdate(s: State, index: nat, toxic: Toxic)
    requires Inv(s) && s.ctl == Awaiting(Updating(index, toxic)) && index + 1 < |s.nodes|
    ensures Inv(Launch(s, index + 1, toxic).(ctl := Idle))
  {
    UpdateWires(s, index, toxic);
    UpdateNodes(s, index, toxic);
  }

  lemma ResumeRemove(s: State, index: nat)
    requires Inv(s) && s.ctl == Awaiting(Removing(index)) && index + 1 < |s.nodes| && s.nodes[index + 1].pc.Stopped?
    ensures Inv(SpawnHelper(s, index))
  {
    RemoveWires(s, index);
    RemoveNodes(s, index);
  }

  /** UpdateToxic restarts its stub. */
  lemma UpdateWires(s: State, index: nat, toxic: Toxic)
    requires Wiring(s) && NodesOk(s) && ChansOk(s) && ControlOk(s) && s.ctl == Awaiting(Updating(index, toxic))
    ensures var s' := Launch(s, index + 1, toxic).(ctl := Idle); Wiring(s') && ChansOk(s') && PendingOk(s')
  {
    var t := index + 1;
    var s' := Launch(s, t, toxic).(ctl := Idle);
    assert !s.nodes[t].closed by { assert NodeOk(s.nodes[t], ModeOf(s, t)); }
    WiringFrame(s, s');
    ChansFrame(s, s', t, t);
  }

  lemma UpdateNodes(s: State, index: nat, toxic: Toxic)
    requires Wiring(s) && NodesOk(s) && ControlOk(s) && IndexSafe(s) && s.ctl == Awaiting(Updating(index, toxic))
    ensures var s' := Launch(s, index + 1, toxic).(ctl := Idle); NodesOk(s') && ControlOk(s') && IndexSafe(s')
  {
    var t := index + 1;
    assert NodeOk(s.nodes[t], ModeOf(s, t));
    OneNode(s, Launch(s, t, toxic).(ctl := Idle), t);
  }

  /** RemoveToxic starts its helper. */
  lemma RemoveWires(s: State, index: nat)
    requires Wiring(s) && ChansOk(s) && s.ctl == Awaiting(Removing(index))
    ensures var s' := SpawnHelper(s, index); Wiring(s') && ChansOk(s') && PendingOk(s')
  {
    WiringFrame(s, SpawnHelper(s, index));
    ChansFrame(s, SpawnHelper(s, index), 0, 0);
  }

  lemma RemoveNodes(s: State, index: nat)
    requires Wiring(s) && NodesOk(s) && ControlOk(s) && IndexSafe(s)
    requires s.ctl == Awaiting(Removing(index)) && index + 1 < |s.nodes| && s.nodes[index + 1].pc.Stopped?
    ensures var s' := SpawnHelper(s, index); NodesOk(s') && ControlOk(s') && IndexSafe(s')
  {
    assert NodeOk(s.nodes[index + 1], ModeOf(s, index + 1));
    OneNode(s, SpawnHelper(s, index), index + 1);
  }

  lemma StepHelperAccept(s: State)
    requires Inv(s) && Enabled(s, HelperAccept)
    ensures Inv(Apply(s, HelperAccept))
  {
    HelperAcceptWires(s, Apply(s, HelperAccept), s.helper.node);
    HelperAcceptNodes(s, Apply(s, HelperAccept), s.helper.node);
  }

  lemma HelperAcceptWires(s: State, s': State, k: nat)
    requires Wiring(s) && NodesOk(s) && ChansOk(s) && PendingOk(s) && ControlOk(s)
    requires Enabled(s, HelperAccept) && s' == Apply(s, HelperAccept) && k == s.helper.node
    ensures Wiring(s') && ChansOk(s') && PendingOk(s')
  {
    HelperFree(s, k);
    InterruptWires(s, s', k);
  }

  lemma HelperFree(s: State, k: nat)
    requires Wiring(s) && NodesOk(s) && ControlOk(s)
    requires s.helper.HelperInterrupting? && k == s.helper.node
    ensures k < s.spine && NodeOk(s.nodes[k], Free)
    ensures s.ctl.Draining? || s.ctl.AwaitingStop?
    ensures k == s.ctl.index && (s.ctl.AwaitingStop? ==> s.nodes[k].closed)
  {
    assert NodeOk(s.nodes[k], ModeOf(s, k));
  }

  lemma HelperAcceptNodes(s: State, s': State, k: nat)
    requires Wiring(s) && NodesOk(s) && ControlOk(s) && IndexSafe(s)
    requires Enabled(s, HelperAccept) && s' == Apply(s, HelperAccept) && k == s.helper.node
    ensures NodesOk(s') && ControlOk(s') && IndexSafe(s')
  {
    HelperFree(s, k);
    OneNode(s, s', k);
  }

  lemma StepHelperRefuse(s: State)
    requires Inv(s) && Enabled(s, HelperRefuse)
    ensures Inv(Apply(s, HelperRefuse))
  {
    var s' := Apply(s, HelperRefuse);
    HelperRefuseNodes(s, s');
    SameNodes(s, s');
  }

  lemma HelperRefuseNodes(s: State, s': State)
    requires Wiring(s) && NodesOk(s) && ControlOk(s) && Enabled(s, HelperRefuse) && s' == Apply(s, HelperRefuse)
    ensures NodesOk(s') && ControlOk(s')
  {
    OneNode(s, s', 0);
  }

  lemma StepHelperStopped(s: State)
    requires Inv(s) && Enabled(s, HelperStopped)
    ensures Inv(Apply(s, HelperStopped))
  {
    var s' := Apply(s, HelperStopped);
    HelperStoppedNodes(s, s', s.helper.node);
    SameNodes(s, s');
  }

  lemma SameNodes(s: State, s': State)
    requires Wiring(s) && ChansOk(s) && PendingOk(s) && IndexSafe(s)
    requires s'.nodes == s.nodes && s'.chans == s.chans && s'.spine == s.spine && s'.outChan == s.outChan
    requires s'.ctl == s.ctl && s'.chain == s.chain
    ensures Wiring(s') && ChansOk(s') && PendingOk(s') && IndexSafe(s')
  {
    SameNodesWires(s, s');
  }

  lemma SameNodesWires(s: State, s': State)
    requires Wiring(s) && ChansOk(s) && s'.ctl == s.ctl
    requires s'.nodes == s.nodes && s'.chans == s.chans && s'.spine == s.spine && s'.outChan == s.outChan
    ensures Wiring(s') && ChansOk(s')
  {
    WiringFrame(s, s');
    ChansFrame(s, s', 0, 0);
  }

  lemma HelperStoppedNodes(s: State, s': State, k: nat)
    requires Wiring(s) && NodesOk(s) && ControlOk(s) && Enabled(s, HelperStopped) && s' == Apply(s, HelperStopped)
      && k == s.helper.node
    ensures NodesOk(s') && ControlOk(s')
  {
    assert NodeOk(s.nodes[k], ModeOf(s, k));
    OneNode(s, s', k);
  }

  lemma StepStop(s: State)
    requires Inv(s) && Enabled(s, StopReceived)
    ensures Inv(HearStop(s))
  {
    NoNode(s, HearStop(s));
  }

  lemma StepFinish(s: State)
    requires Inv(s) && Enabled(s, Finish) && !Panics(s, Finish)
    ensures Inv(Disconnect(s, s.ctl.index))
  {
    var k := s.ctl.index;
    assert k - 1 < |s.chain|;
    FinishWires(s, k);
    FinishNodes(s, k);
    FinishChans(s, k);
    assert !Pending(Disconnect(s, k));
  }

  /** What RemoveToxic's last lines do to the nodes. */
  lemma FinishNode(s: State, k: nat, j: nat)
    requires 1 <= k && k + 1 < |s.nodes| && k - 1 < |s.chain| && j < |s.nodes| - 1
    ensures var s' := Disconnect(s, k);
            && |s'.nodes| == |s.nodes| - 1
            && s'.nodes[j] ==
               if j < k then s.nodes[j]
               else if j == k then s.nodes[k].(output := s.nodes[k + 1].output, pc := Launched, toxic := s.chain[k - 1])
               else s.nodes[j + 1]
  {
  }

  lemma FinishWires(s: State, k: nat)
    requires Wiring(s) && s.ctl.Emptying? && k == s.ctl.index && IndexOk(s, k) && k - 1 < |s.chain|
    ensures Wiring(Disconnect(s, k))
  {
    var s' := Disconnect(s, k);
    forall j | 0 <= j < |s.nodes| - 1
      ensures s'.nodes[j].input == s.nodes[InBefore(k, j)].input
      ensures s'.nodes[j].output == s.nodes[OutBefore(k, j)].output
    {
      FinishNode(s, k, j);
    }
    CutWires(s, s', k);
  }

  /** Where the input and the output of a node were before stub k + 1 was cut out. */
  function InBefore(k: nat, j: nat): nat { if j <= k then j else j + 1 }

  function OutBefore(k: nat, j: nat): nat { if j < k then j else j + 1 }

  /** The wires of s' are those of s without the input and output between nodes k and k + 1. */
  ghost predicate Cut(s: State, s': State, k: nat) {
    && 1 <= k && k + 1 < s.spine <= |s.nodes|
    && |s'.nodes| == |s.nodes| - 1 && s'.spine == s.spine - 1
    && forall j :: 0 <= j < |s'.nodes| ==>
         s'.nodes[j].input == s.nodes[InBefore(k, j)].input && s'.nodes[j].output == s.nodes[OutBefore(k, j)].output
  }

  lemma CutOutputs(s: State, s': State, k: nat, i: nat, j: nat)
    requires Wiring(s) && Cut(s, s', k) && i < j < s'.spine
    ensures s'.nodes[i].output != s'.nodes[j].output
  {
    assert s.nodes[OutBefore(k, i)].output != s.nodes[OutBefore(k, j)].output;
  }

  lemma CutOffSpine(s: State, s': State, k: nat, i: nat, j: nat)
    requires Wiring(s) && Cut(s, s', k) && i < s'.spine <= j < |s'.nodes|
    ensures s'.nodes[i].output != s'.nodes[j].input
  {
    assert s.nodes[OutBefore(k, i)].output != s.nodes[InBefore(k, j)].input;
  }

  lemma CutNeighbours(s: State, s': State, k: nat, i: nat)
    requires Wiring(s) && Cut(s, s', k) && i + 1 < s'.spine
    ensures s'.nodes[i + 1].input == s'.nodes[i].output
  {
    assert InBefore(k, i + 1) == OutBefore(k, i) + 1;
  }

  lemma CutRanges(s: State, s': State, k: nat)
    requires Wiring(s) && Cut(s, s', k) && |s'.chans| == |s.chans| && s'.outChan == s.outChan
    ensures forall i :: 0 <= i < s'.spine ==> s'.nodes[i].output < |s'.chans|
    ensures forall j :: s'.spine <= j < |s'.nodes| ==> s'.nodes[j].input < |s'.chans|
    ensures s'.nodes[s'.spine - 1].output == s'.outChan
  {
  }

  lemma CutWires(s: State, s': State, k: nat)
    requires Wiring(s) && Cut(s, s', k) && |s'.chans| == |s.chans| && s'.outChan == s.outChan && !Pending(s')
    ensures Wiring(s')
  {
    CutRanges(s, s', k);
    forall i, j | 0 <= i < j < s'.spine ensures s'.nodes[i].output != s'.nodes[j].output { CutOutputs(s, s', k, i, j); }
    forall i, j | 0 <= i < s'.spine <= j < |s'.nodes| ensures s'.nodes[i].output != s'.nodes[j].input {
      CutOffSpine(s, s', k, i, j);
    }
    forall i, j | 0 <= i && i + 1 == j < s'.spine ensures s'.nodes[j].input == s'.nodes[i].output {
      CutNeighbours(s, s', k, i);
    }
  }

  lemma FinishNodes(s: State, k: nat)
    requires Wiring(s) && NodesOk(s) && ControlOk(s) && IndexSafe(s)
    requires s.ctl.Emptying? && k == s.ctl.index && k - 1 < |s.chain|
    ensures NodesOk(Disconnect(s, k)) && ControlOk(Disconnect(s, k)) && IndexSafe(Disconnect(s, k))
  {
    var s' := Disconnect(s, k);
    forall j | 0 <= j < |s'.nodes| ensures NodeOk(s'.nodes[j], ModeOf(s', j)) && (j >= s'.spine ==> s'.nodes[j].pc.Stopped?) {
      FinishNode(s, k, j);
      var i := if j <= k then j else j + 1;
      assert NodeOk(s.nodes[i], ModeOf(s, i));
    }
  }

  lemma FinishChans(s: State, k: nat)
    requires Wiring(s) && NodesOk(s) && ChansOk(s) && ControlOk(s)
    requires s.ctl.Emptying? && k == s.ctl.index && k - 1 < |s.chain| && Wiring(Disconnect(s, k))
    ensures ChansOk(Disconnect(s, k))
  {
    var s' := Disconnect(s, k);
    forall j | 0 <= j < s'.spine ensures ChanOk(s'.nodes[j], s'.chans[s'.nodes[j].output]) {
      FinishNode(s, k, j);
      var i := if j < k then j else j + 1;
      assert ChanOk(s.nodes[i], s.chans[s.nodes[i].output]);
      assert NodeOk(s.nodes[k], ModeOf(s, k)) && NodeOk(s.nodes[k + 1], ModeOf(s, k + 1));
    }
  }

  // ---- all steps ------------------------------------------------------------------------------------

  predicate ByController(a: Action) {
    || a.BeginAdd? || a.BeginUpdate? || a.BeginRemove? || a.Accept? || a.Refuse? || a.Resume?
    || a.HelperAccept? || a.HelperRefuse? || a.HelperStopped? || a.StopReceived? || a.Finish?
  }

  lemma InvKept(s: State, a: Action, s': State)
    requires Inv(s) && Next(s, a, s')
    ensures Inv(s')
  {
    if a.Queued? || a.Direct? || a.Nil? { KeptByReceive(s, a); }
    else if ByController(a) { KeptByController(s, a); }
    else { KeptByPipe(s, a); }
  }

  lemma KeptByReceive(s: State, a: Action)
    requires Inv(s) && Enabled(s, a) && !Panics(s, a) && (a.Queued? || a.Direct? || a.Nil?)
    ensures Inv(Apply(s, a))
  {
    match a
    case Queued(to) => StepQueued(s, to);
    case Direct(to, i) => StepDirect(s, to, i);
    case Nil(to) => if to.ToDrain? { StepNilDrain(s); } else { StepNil(s, to); }
  }

  lemma KeptByPipe(s: State, a: Action)
    requires Inv(s) && Enabled(s, a) && !Panics(s, a) && !(a.Queued? || a.Direct? || a.Nil?) && !ByController(a)
    ensures Inv(Apply(s, a))
  {
    match a
    case SourceWrite(_) => StepSource(s, a);
    case SourceClose => StepSource(s, a);
    case Start(_, _) => StepRun(s, a);
    case Deposit(i) => StepDeposit(s, i);
    case Timer(i) => StepTimer(s, i);
    case CloseOutput(i) => StepCloseOutput(s, i);
    case Exit(_) => StepRun(s, a);
    case Timeout(i) => StepTimeout(s, i);
  }

  lemma KeptByController(s: State, a: Action)
    requires Inv(s) && Enabled(s, a) && !Panics(s, a) && ByController(a)
    ensures Inv(Apply(s, a))
  {
    match a
    case BeginAdd(toxic) => StepAppend(s, toxic);
    case BeginUpdate(_, _) => StepBegin(s, a);
    case BeginRemove(_) => StepBegin(s, a);
    case Accept => StepAccept(s);
    case Refuse => if s.ctl.op.Adding? { StepSeal(s); } else { StepRefuse(s); }
    case Resume => if s.ctl.op.Adding? { StepConnect(s); } else { StepResume(s); }
    case HelperAccept => StepHelperAccept(s);
    case HelperRefuse => StepHelperRefuse(s);
    case HelperStopped => StepHelperStopped(s);
    case StopReceived => StepStop(s);
    case Finish => StepFinish(s);
  }

  lemma InvAtStart(chain: seq<Toxic>)
    requires chain != []
    ensures Inv(Build(chain))
  {
    WiredAtStart(chain);
    ReadyAtStart(chain);
  }

  lemma WiredAtStart(chain: seq<Toxic>)
    requires chain != []
    ensures Wiring(Build(chain))
  {
  }

  lemma ReadyAtStart(chain: seq<Toxic>)
    requires chain != []
    ensures var s := Build(chain); NodesOk(s) && ChansOk(s) && PendingOk(s) && ControlOk(s) && IndexSafe(s)
  {
  }

  lemma {:induction false} InvAlongRun(states: seq<State>, actions: seq<Action>, i: nat)
    requires IsRun(states, actions) && i < |states|
    ensures Inv(states[i])
  {
    if i == 0 {
      InvAtStart(states[0].chain);
    } else {
      InvAlongRun(states, actions, i - 1);
      assert StepAt(states, actions, i - 1);
      InvKept(states[i - 1], actions[i - 1], states[i]);
    }
  }

  // ---- what the invariant means ---------------------------------------------------------------------

  /** Nothing is sent on a closed channel, no channel is closed twice, no second Pipe is started on
      a stub and no index is out of range, with one exception: AddToxic indexes the chain by the
      number of stubs, and panics exactly when the chain is too short for that. */
  lemma PanicsExactlyWhen(s: State, a: Action)
    requires Inv(s) && Enabled(s, a)
    ensures Panics(s, a) <==> a.Resume? && s.ctl.op.Adding? && |s.nodes| - 3 >= |s.chain|
  {
    if a.Queued? {}
    else if a.Direct? { DirectIsFeeder(s, a.to, a.i); NoPanicInDirect(s, a.to, a.i); }
    else if a.Nil? { NoPanicInNil(s, a.to); }
    else if a.Finish? { assert NodeOk(s.nodes[s.ctl.index], ModeOf(s, s.ctl.index)); }
    else if ByController(a) { PanicsOfController(s, a); }
    else { NoPanicInPipe(s, a); }
  }

  lemma NoPanicInDirect(s: State, to: Receiver, i: nat)
    requires Wiring(s) && NodesOk(s) && ChansOk(s) && Enabled(s, Direct(to, i)) && i < s.spine
    ensures !Panics(s, Direct(to, i))
  {
    assert NodeOk(s.nodes[i], ModeOf(s, i)) && ChanOk(s.nodes[i], s.chans[s.nodes[i].output]);
  }

  lemma NoPanicInNil(s: State, to: Receiver)
    requires Wiring(s) && NodesOk(s) && ChansOk(s) && ControlOk(s) && Enabled(s, Nil(to))
    ensures !Panics(s, Nil(to))
  {
    if to.ToDrain? {
      var i := s.ctl.index + 1;
      assert NodeOk(s.nodes[i], ModeOf(s, i)) && ChanOk(s.nodes[i], s.chans[s.nodes[i].output]);
    }
  }

  lemma NoPanicInPipe(s: State, a: Action)
    requires Wiring(s) && NodesOk(s) && ChansOk(s) && Enabled(s, a)
    requires !(a.Queued? || a.Direct? || a.Nil?) && !ByController(a)
    ensures !Panics(s, a)
  {
    var i := if a.SourceWrite? || a.SourceClose? then 0 else a.i;
    assert NodeOk(s.nodes[i], ModeOf(s, i));
    assert i < s.spine ==> ChanOk(s.nodes[i], s.chans[s.nodes[i].output]);
  }

  lemma PanicsOfController(s: State, a: Action)
    requires Wiring(s) && NodesOk(s) && PendingOk(s) && ControlOk(s) && IndexSafe(s)
    requires Enabled(s, a) && ByController(a) && !a.Finish?
    ensures Panics(s, a) <==> a.Resume? && s.ctl.op.Adding? && |s.nodes| - 3 >= |s.chain|
  {
    if Pending(s) { assert NodeOk(s.nodes[|s.nodes| - 1], ModeOf(s, |s.nodes| - 1)); }
  }
}
