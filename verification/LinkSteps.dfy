/** The effect of every step on the line, by goroutine. */
module LinkSteps {
  import opened Streams
  import Slicer
  import opened LinkState
  import opened LinkInvariant
  import opened LinkFlow
  import opened LinkEffect

  /** Unless data is lost to a timeout, what can still be delivered only ever loses its tail, and
      what the source writes cannot get past a blocked node. */
  ghost predicate FrontOk(s: State, a: Action, s': State)
  {
    if a.SourceWrite? then AnyBlocked(Cells(s)) ==> FrontSame(s, s')
    else !a.Timeout? ==> Flat(FrontLine(s')) <= Flat(FrontLine(s))
  }

  /** Both states are as the invariants say, and a leads from one to the other. */
  ghost predicate GoodStep(s: State, a: Action, s': State) {
    Inv(s) && PipesOk(s) && Inv(s') && Next(s, a, s')
  }

  lemma CellLocal(s: State, s': State, i: nat)
    requires Wiring(s) && SameWires(s, s')
    requires i < s.spine && s'.nodes == s.nodes[i := s'.nodes[i]]
    requires var c := s.nodes[i].output; s'.chans == s.chans[c := s'.chans[c]]
    ensures Cells(s') == Cells(s)[i := CellAt(s', i)]
  {
    CellsLocal(s, s', i, i);
  }

  // ---- pipes, source and sink -----------------------------------------------------------------------

  lemma WriteCells(pre: seq<Chunk>, cells: seq<Cell>, chunk: Chunk)
    requires cells != [] && cells[0].held == [] && !cells[0].blocked
    ensures var cells' := cells[0 := cells[0].(held := [chunk])];
      && pre + Flow(cells', true) == pre + Flow(cells, true) + [chunk]
      && (AnyBlocked(cells) ==> Flow(cells', false) == Flow(cells, false))
  {
    var c := cells[0].(held := [chunk]);
    var x, y, seen := OneCell(cells, 0, c, true);
    assert pre + (x + (c.queue + [chunk]) + []) == pre + (x + (c.queue + []) + []) + [chunk];
    if AnyBlocked(cells) {
      var j :| 0 <= j < |cells| && cells[j].blocked;
      assert cells[1..][j - 1].blocked;
      x, y, seen := OneCell(cells, 0, c, false);
    }
  }

  lemma WriteLine(s: State, c: Chunk, s': State)
    requires Wiring(s) && Held(s.nodes[0].pc) == [] && !Blocked(s.nodes[0])
    requires s' == SetPc(s, 0, Sending(c, [], false)).(written := s.written + [c])
    ensures Line(s') == Line(s) + [c]
    ensures AnyBlocked(Cells(s)) ==> FrontSame(s, s')
  {
    CellLocal(s, s', 0);
    WriteCells(s.delivered, Cells(s), c);
    assert CellAt(s', 0) == Cells(s)[0].(held := [c]);
  }

  lemma WriteEffect(s: State, c: Chunk, s': State) returns (change: Change)
    requires Wiring(s) && NodesOk(s) && Enabled(s, SourceWrite(c))
    requires s' == SetPc(s, 0, Sending(c, [], false)).(written := s.written + [c])
    ensures Effect(s, SourceWrite(c), s', change) && FrontOk(s, SourceWrite(c), s')
  {
    assert NodeOk(s.nodes[0], ModeOf(s, 0));
    WriteLine(s, c, s');
    change := Gain(c);
  }

  lemma CloseLine(s: State, s': State, i: nat)
    requires Wiring(s) && SameWires(s, s') && i < s.spine && s'.nodes == s.nodes[i := s'.nodes[i]]
    requires var c := s.nodes[i].output;
             s'.chans == s.chans[c := s'.chans[c]] && s'.chans[c].queue == s.chans[c].queue
    requires Held(s.nodes[i].pc) == [] && Held(s'.nodes[i].pc) == [] && Blocked(s'.nodes[i])
      && s'.delivered == s.delivered
    ensures Line(s') == Line(s) && Flat(FrontLine(s')) <= Flat(FrontLine(s))
  {
    CellLocal(s, s', i);
    BlockOne(s, s', i, CellAt(s', i));
  }

  lemma SourceCloseEffect(s: State, s': State) returns (change: Change)
    requires Wiring(s) && NodesOk(s) && Next(s, SourceClose, s')
    ensures Effect(s, SourceClose, s', change) && FrontOk(s, SourceClose, s')
  {
    CloseLine(s, s', 0);
    change := Same;
  }

  lemma ResetEffect(s: State, i: nat, s': State) returns (change: Change)
    requires Wiring(s) && NodesOk(s) && Enabled(s, Timer(i)) && s.nodes[i].pc.Discarding? && s' == Fire(s, i)
    ensures Effect(s, Timer(i), s', change) && FrontOk(s, Timer(i), s')
  {
    assert i < s.spine;
    CloseLine(s, s', i);
    change := Same;
  }

  lemma QuietEffect(s: State, a: Action, s': State) returns (change: Change)
    requires Wiring(s) && NodesOk(s) && Next(s, a, s') && (a.Start? || a.CloseOutput? || a.Exit?)
    ensures Effect(s, a, s', change) && FrontOk(s, a, s')
  {
    change := Same;
    if a.CloseOutput? {
      ClosesQuietly(s, a.i, s');
    } else {
      RunsQuietly(s, a, s');
    }
  }

  lemma RunsQuietly(s: State, a: Action, s': State)
    requires Wiring(s) && NodesOk(s) && Next(s, a, s') && (a.Start? || a.Exit?)
    ensures Line(s') == Line(s) && FrontSame(s, s')
  {
    assert a.i < s.spine && NodeOk(s.nodes[a.i], ModeOf(s, a.i));
    QuietLine(s, s', a.i);
  }

  lemma ClosesQuietly(s: State, i: nat, s': State)
    requires Wiring(s) && NodesOk(s) && Next(s, CloseOutput(i), s')
    ensures Line(s') == Line(s) && FrontSame(s, s')
  {
    assert i < s.spine && NodeOk(s.nodes[i], ModeOf(s, i));
    CellLocal(s, s', i);
    assert CellAt(s', i) == CellAt(s, i);
    SameCells(s, s');
  }

  lemma DepositEffect(s: State, a: Action, s': State) returns (change: Change)
    requires GoodStep(s, a, s') && a.Deposit?
    ensures Effect(s, a, s', change) && FrontOk(s, a, s')
  {
    var i := a.i;
    assert i < s.spine;
    CellLocal(s, s', i);
    SentHeld(s.nodes[i], ModeOf(s, i));
    var q, c := s.chans[s.nodes[i].output].queue, Offered(s.nodes[i]);
    assert (q + [c]) + Held(s'.nodes[i].pc) == q + ([c] + Held(s'.nodes[i].pc));
    SameBody(s, s', i, CellAt(s', i));
    change := Same;
  }

  /** A send takes the first of the chunks that the stub holds. */
  lemma SentHeld(n: Node, m: Mode)
    requires NodeOk(n, m) && Offering(n)
    ensures Held(n.pc) == [Offered(n)] + Held(Sent(n).pc) && !Blocked(n) && !Blocked(Sent(n))
  {
  }

  lemma TimerEffect(s: State, a: Action, s': State) returns (change: Change)
    requires GoodStep(s, a, s') && a.Timer? && s.nodes[a.i].pc.Delaying?
    ensures Effect(s, a, s', change) && FrontOk(s, a, s')
  {
    var i := a.i;
    assert i < s.spine;
    CellLocal(s, s', i);
    assert PipeOk(s.nodes[i].pipe, s.nodes[i].pc);
    HeldKept(s.nodes[i].pipe, s.nodes[i].pc);
    if s.nodes[i].pipe.Bandwidth? || s.nodes[i].pipe.Slice? {
      change := RecutCell(s, s', i, CellAt(s', i));
    } else {
      SameBody(s, s', i, CellAt(s', i));
      change := Same;
    }
  }

  lemma LoseCell(pre: seq<Chunk>, cells: seq<Cell>, i: nat, c0: Chunk, c: Cell) returns (x: seq<Chunk>, y: seq<Chunk>)
    requires i < |cells| && c.queue == cells[i].queue && cells[i].held == [c0] + c.held
    ensures pre + Flow(cells, true) == x + [c0] + y && pre + Flow(cells[i := c], true) == x + y
  {
    var x0, y0, seen := OneCell(cells, i, c, true);
    x, y := pre + x0 + c.queue, c.held + y0;
    Regroup(pre, x0, c.queue, [c0], c.held, y0);
    Regroup(pre, x0, c.queue, [], c.held, y0);
    assert Body(cells[i]) == (c.queue + [c0]) + c.held && Body(c) == (c.queue + []) + c.held;
    assert x + [] + y == x + y;
  }

  /** A send that times out takes the chunk that it offered out of the line, and nothing else. */
  lemma TimeoutEffect(s: State, a: Action, s': State) returns (change: Change)
    requires Wiring(s) && NodesOk(s) && Next(s, a, s') && a.Timeout?
    ensures Effect(s, a, s', change) && FrontOk(s, a, s')
    ensures change.Lose? && change.chunk == Offered(s.nodes[a.i])
  {
    var i := a.i;
    assert i < s.spine;
    CellLocal(s, s', i);
    SentHeld(s.nodes[i], ModeOf(s, i));
    var x, y := LoseCell(s.delivered, Cells(s), i, Offered(s.nodes[i]), CellAt(s', i));
    change := Lose(x, Offered(s.nodes[i]), y);
  }

  // ---- receiving ------------------------------------------------------------------------------------

  /** s' is s after c0 has left cell k, which is now c, and reached the next cell, which is now d. */
  ghost predicate Passed(s: State, k: int, c0: Chunk, c: Cell, d: Cell, s': State)
  {
    && 0 <= k && k + 1 < s.spine
    && Body(Cells(s)[k]) == [c0] + Body(c) && c.blocked == Cells(s)[k].blocked
    && Cells(s)[k + 1].held == [] && !Cells(s)[k + 1].blocked && d.queue == Cells(s)[k + 1].queue
    && Cells(s') == Cells(s)[k := c][k + 1 := d]
    && s'.delivered == s.delivered
  }

  lemma KeptEffect(s: State, k: int, c0: Chunk, c: Cell, d: Cell, s': State) returns (change: Change)
    requires Wiring(s) && Passed(s, k, c0, c, d, s') && !d.blocked && Flat(d.held) == c0
    ensures Changes(Line(s), change, Line(s')) && FrontSame(s, s')
    ensures if d.held == [c0] then change.Same? else change.Recut?
  {
    FlatSingle(c0);
    var x, y := PassOnFlow(s.delivered, Cells(s), k, c0, c, d, false);
    x, y := PassOnFlow(s.delivered, Cells(s), k, c0, c, d, true);
    change := if d.held == [c0] then Same else Recut(x, [c0], d.held, y);
  }

  lemma DropsOut(line: seq<Chunk>, x: seq<Chunk>, y: seq<Chunk>)
    requires line == x + [] + y
    ensures line == x + y
  {
  }

  lemma DiscardFront(s: State, k: int, c0: Chunk, c: Cell, d: Cell, s': State)
    requires Wiring(s) && Passed(s, k, c0, c, d, s') && d.blocked && d.held == []
    ensures Flat(FrontLine(s')) <= Flat(FrontLine(s))
  {
    PassOnBlock(s.delivered, Cells(s), k, c, d);
  }

  lemma DiscardEffect(s: State, k: int, c0: Chunk, c: Cell, d: Cell, s': State) returns (change: Change)
    requires Wiring(s) && Passed(s, k, c0, c, d, s') && d.blocked && d.held == []
    ensures change.Lose? && change.chunk == c0 && Changes(Line(s), change, Line(s'))
    ensures Flat(FrontLine(s')) <= Flat(FrontLine(s))
  {
    DiscardFront(s, k, c0, c, d, s');
    var x, y := PassOnFlow(s.delivered, Cells(s), k, c0, c, d, true);
    change := Lose(x, c0, y);
    DropsOut(Line(s'), x, y);
  }

  /** Every Pipe but reset_peer's keeps the bytes it has received; only slicer recuts them. */
  lemma ReceivedHeld(pipe: Kind, c: Chunk, draws: Slicer.Draws)
    ensures var held := Held(OnReceive(pipe, c, draws));
      if pipe.ResetPeer? then held == []
      else Flat(held) == c && (!pipe.Slice? ==> held == [c])
  {
    FlatSingle(c);
    if pipe.Slice? {
      var pieces := Slicer.Pieces(pipe.settings, c, draws);
      assert [pieces[0]] + pieces[1..] == pieces;
      FlatAppend([pieces[0]], pieces[1..]);
      FlatAppend([pieces[0]], Together(pieces[1..]));
    }
  }

  /** A receive changes the node that receives, and the node or the channel that feeds it. */
  lemma PairLocal(s: State, s': State, k: nat)
    requires Wiring(s) && SameWires(s, s') && k + 1 < s.spine
    requires s'.nodes == s.nodes[k := s'.nodes[k]][k + 1 := s'.nodes[k + 1]]
    requires var c := s.nodes[k].output; s'.chans == s.chans[c := s'.chans[c]]
    ensures Cells(s') == Cells(s)[k := CellAt(s', k)][k + 1 := CellAt(s', k + 1)]
  {
    forall j | 0 <= j < s.spine && j != k + 1 && j != k ensures CellAt(s', j) == CellAt(s, j) {
      if j < k { assert s.nodes[j].output != s.nodes[k].output; }
      if k < j { assert s.nodes[k].output != s.nodes[j].output; }
    }
    assert s.nodes[k].output != s.nodes[k + 1].output;
  }

  /** Node k no longer holds c0, in its buffer or in its goroutine; nothing else at k changes. */
  ghost predicate Left(s: State, k: nat, c0: Chunk, s': State)
    requires Wiring(s) && k < s.spine && SameWires(s, s')
  {
    && (var c := s.nodes[k].output; s'.chans == s.chans[c := s'.chans[c]])
    && Body(CellAt(s, k)) == [c0] + Body(CellAt(s', k))
    && Blocked(s'.nodes[k]) == Blocked(s.nodes[k])
  }

  lemma PopLeaves(s: State, k: nat, s': State)
    requires Wiring(s) && k < s.spine && SameWires(s, s')
    requires var c := s.nodes[k].output; s.chans[c].queue != [] && s'.chans == TakeOut(s, c).chans
    requires s'.nodes[k] == s.nodes[k]
    ensures Left(s, k, s.chans[s.nodes[k].output].queue[0], s')
  {
    var q, h := s.chans[s.nodes[k].output].queue, Held(s.nodes[k].pc);
    assert q + h == [q[0]] + (q[1..] + h);
  }

  lemma OfferLeaves(s: State, k: nat, s': State)
    requires Wiring(s) && k < s.spine && SameWires(s, s')
    requires NodeOk(s.nodes[k], ModeOf(s, k)) && Offering(s.nodes[k]) && s'.nodes[k] == Sent(s.nodes[k])
    requires s.chans[s.nodes[k].output].queue == [] && s'.chans == s.chans
    ensures Left(s, k, Offered(s.nodes[k]), s')
  {
    SentHeld(s.nodes[k], ModeOf(s, k));
    var h := Held(Sent(s.nodes[k]).pc);
    assert [] + ([Offered(s.nodes[k])] + h) == [Offered(s.nodes[k])] + ([] + h);
  }

  /** The stub after node k, or RemoveToxic on its behalf, has received c0. */
  lemma NodeReceives(s: State, k: nat, c0: Chunk, s': State)
    requires Wiring(s) && SameWires(s, s') && k + 1 < s.spine && Left(s, k, c0, s')
    requires s'.nodes == s.nodes[k := s'.nodes[k]][k + 1 := s'.nodes[k + 1]]
    requires Held(s.nodes[k + 1].pc) == [] && !Blocked(s.nodes[k + 1])
    requires s'.delivered == s.delivered
    ensures Passed(s, k, c0, CellAt(s', k), CellAt(s', k + 1), s')
  {
    PairLocal(s, s', k);
    assert s.nodes[k].output != s.nodes[k + 1].output;
  }

  /** What a receive leaves behind, whoever the receiver is. */
  ghost predicate Received(s: State, to: Receiver, c0: Chunk, s': State)
    requires Wiring(s) && Ready(s, to)
  {
    var k := Feeder(s, to);
    && 0 <= k < s.spine && SameWires(s, s') && Left(s, k, c0, s')
    && s'.written == s.written && s'.dropped == s.dropped
    && s'.delivered == (if to.ToSink? then s.delivered + [c0] else s.delivered)
    && s'.discarded == (if to.ToStub? && s.nodes[to.i].pipe.ResetPeer? then s.discarded + [c0] else s.discarded)
    && (if to.ToSink? then s'.nodes == s.nodes[k := s'.nodes[k]]
        else && k + 1 < s.spine && Held(s.nodes[k + 1].pc) == [] && !Blocked(s.nodes[k + 1])
             && s'.nodes == s.nodes[k := s'.nodes[k]][k + 1 := s'.nodes[k + 1]]
             && s'.nodes[k + 1] == s.nodes[k + 1].(pc :=
                  if to.ToStub? then OnReceive(s.nodes[k + 1].pipe, c0, to.draws) else Flushing(c0))
             && (to.ToStub? ==> to.i == k + 1))
  }

  lemma SinkEffect(s: State, a: Action, c0: Chunk, s': State) returns (change: Change)
    requires Wiring(s) && Enabled(s, a) && (a.Queued? || a.Direct?)
    requires a.to.ToSink? && Received(s, a.to, c0, s')
    ensures Effect(s, a, s', change) && FrontOk(s, a, s')
  {
    SinkLine(s, c0, s');
    change := Same;
  }

  /** The sink has taken c0 from the last channel. */
  lemma SinkLine(s: State, c0: Chunk, s': State)
    requires Wiring(s) && SameWires(s, s') && Left(s, s.spine - 1, c0, s')
    requires s'.nodes == s.nodes[s.spine - 1 := s'.nodes[s.spine - 1]] && s'.delivered == s.delivered + [c0]
    ensures Line(s') == Line(s) && FrontLine(s') == FrontLine(s)
  {
    var k := s.spine - 1;
    CellLocal(s, s', k);
    TakeLast(s.delivered, Cells(s), c0, CellAt(s', k), true);
    TakeLast(s.delivered, Cells(s), c0, CellAt(s', k), false);
  }

  lemma DrainLine(s: State, k: nat, c0: Chunk, s': State)
    requires Wiring(s) && SameWires(s, s') && k + 1 < s.spine && Left(s, k, c0, s')
    requires s'.nodes == s.nodes[k := s'.nodes[k]][k + 1 := s.nodes[k + 1].(pc := Flushing(c0))]
    requires Held(s.nodes[k + 1].pc) == [] && !Blocked(s.nodes[k + 1]) && s'.delivered == s.delivered
    ensures Line(s') == Line(s) && FrontSame(s, s')
  {
    NodeReceives(s, k, c0, s');
    FlatSingle(c0);
    var change := KeptEffect(s, k, c0, CellAt(s', k), CellAt(s', k + 1), s');
  }

  lemma DrainEffect(s: State, a: Action, c0: Chunk, s': State) returns (change: Change)
    requires Wiring(s) && Enabled(s, a) && (a.Queued? || a.Direct?)
    requires a.to.ToDrain? && Received(s, a.to, c0, s')
    ensures Effect(s, a, s', change) && FrontOk(s, a, s')
  {
    DrainLine(s, s.ctl.index, c0, s');
    change := Same;
  }

  lemma StubEffect(s: State, a: Action, c0: Chunk, s': State) returns (change: Change)
    requires Wiring(s) && Enabled(s, a) && (a.Queued? || a.Direct?)
    requires a.to.ToStub? && Received(s, a.to, c0, s')
    ensures Effect(s, a, s', change) && FrontOk(s, a, s')
  {
    var k := a.to.i - 1;
    var pipe := s.nodes[k + 1].pipe;
    NodeReceives(s, k, c0, s');
    ReceivedHeld(pipe, c0, a.to.draws);
    ReceivedBlocked(pipe, c0, a.to.draws);
    if pipe.ResetPeer? {
      change := DiscardEffect(s, k, c0, CellAt(s', k), CellAt(s', k + 1), s');
    } else {
      change := KeptEffect(s, k, c0, CellAt(s', k), CellAt(s', k + 1), s');
    }
  }

  lemma ReceivedBlocked(pipe: Kind, c: Chunk, draws: Slicer.Draws)
    ensures OnReceive(pipe, c, draws).Discarding? <==> pipe.ResetPeer?
  {
  }

  lemma ReceiveEffect(s: State, a: Action, c0: Chunk, s': State) returns (change: Change)
    requires Wiring(s) && Enabled(s, a) && (a.Queued? || a.Direct?) && Received(s, a.to, c0, s')
    ensures Effect(s, a, s', change) && FrontOk(s, a, s')
  {
    match a.to
    case ToSink => change := SinkEffect(s, a, c0, s');
    case ToDrain => change := DrainEffect(s, a, c0, s');
    case ToStub(_, _) => change := StubEffect(s, a, c0, s');
  }

  /** The node that receives is on the spine and holds nothing. */
  lemma ReceiverFree(s: State, to: Receiver)
    requires Wiring(s) && NodesOk(s) && ControlOk(s) && Ready(s, to)
    ensures 0 <= Feeder(s, to) < s.spine && Source(s, to) == s.nodes[Feeder(s, to)].output
    ensures !to.ToSink? ==>
      var i := Feeder(s, to) + 1;
      i < s.spine && Held(s.nodes[i].pc) == [] && !Blocked(s.nodes[i]) && (to.ToStub? ==> to.i == i)
  {
    if !to.ToSink? {
      var i := if to.ToStub? then to.i else s.ctl.index + 1;
      assert NodeOk(s.nodes[i], ModeOf(s, i));
    }
  }

  /** What delivering does to nodes and history. */
  lemma DeliverParts(s: State, to: Receiver, c0: Chunk)
    requires Ready(s, to)
    ensures var s' := Deliver(s, to, c0);
      && s'.chans == s.chans && s'.spine == s.spine && s'.outChan == s.outChan && s'.ctl == s.ctl
      && s'.written == s.written && s'.dropped == s.dropped
      && s'.delivered == (if to.ToSink? then s.delivered + [c0] else s.delivered)
      && s'.discarded == (if to.ToStub? && s.nodes[to.i].pipe.ResetPeer? then s.discarded + [c0] else s.discarded)
      && s'.nodes == if to.ToSink? then s.nodes
                     else var i := if to.ToStub? then to.i else s.ctl.index + 1;
                          s.nodes[i := s.nodes[i].(pc :=
                            if to.ToStub? then OnReceive(s.nodes[i].pipe, c0, to.draws) else Flushing(c0))]
  {
  }

  /** The two halves of a receive: s1 is s without the chunk, s' is s1 with it delivered. */
  lemma Compose(s: State, to: Receiver, c0: Chunk, s1: State)
    requires Wiring(s) && NodesOk(s) && ControlOk(s) && Ready(s, to) && Ready(s1, to) && s1.ctl == s.ctl
    requires s1.written == s.written && s1.dropped == s.dropped && s1.delivered == s.delivered
      && s1.discarded == s.discarded
    requires var k := Feeder(s, to);
      && 0 <= k < s.spine && SameWires(s, s1) && s1.nodes == s.nodes[k := s1.nodes[k]] && Left(s, k, c0, s1)
    ensures Received(s, to, c0, Deliver(s1, to, c0))
  {
    ReceiverFree(s, to);
    DeliverParts(s1, to, c0);
    var s' := Deliver(s1, to, c0);
    var k := Feeder(s, to);
    ComposeWires(s, s1, s', if to.ToSink? then 0 else k + 1);
    ComposeLeft(s, k, c0, s1, s');
  }

  /** The receiver's node is not the one that the chunk has left. */
  lemma ComposeLeft(s: State, k: nat, c0: Chunk, s1: State, s': State)
    requires Wiring(s) && k < s.spine && SameWires(s, s1) && SameWires(s, s') && Left(s, k, c0, s1)
    requires s'.chans == s1.chans && s'.nodes[k] == s1.nodes[k]
    ensures Left(s, k, c0, s')
  {
  }

  lemma ComposeWires(s: State, s1: State, s': State, i: nat)
    requires SameWires(s, s1) && i < |s1.nodes| == |s'.nodes|
    requires s'.nodes == s1.nodes[i := s'.nodes[i]]
    requires s'.nodes[i].input == s1.nodes[i].input && s'.nodes[i].output == s1.nodes[i].output
    requires s'.chans == s1.chans && s'.spine == s1.spine && s'.outChan == s1.outChan && s'.ctl == s1.ctl
    ensures SameWires(s, s')
  {
  }

  lemma QueuedLeft(s: State, to: Receiver)
    requires Wiring(s) && NodesOk(s) && ControlOk(s) && Enabled(s, Queued(to))
    ensures var s1 := TakeOut(s, Source(s, to));
      && SameWires(s, s1) && 0 <= Feeder(s, to) < s.spine && Ready(s1, to)
      && s1.nodes == s.nodes[Feeder(s, to) := s1.nodes[Feeder(s, to)]]
      && Left(s, Feeder(s, to), s.chans[Source(s, to)].queue[0], s1)
  {
    ReceiverFree(s, to);
    var s1 := TakeOut(s, Source(s, to));
    PopLeaves(s, Feeder(s, to), s1);
  }

  lemma QueuedReceived(s: State, to: Receiver, s': State) returns (c0: Chunk)
    requires Wiring(s) && NodesOk(s) && ControlOk(s) && Enabled(s, Queued(to))
    requires s' == Deliver(TakeOut(s, Source(s, to)), to, s.chans[Source(s, to)].queue[0])
    ensures Received(s, to, c0, s')
  {
    QueuedLeft(s, to);
    var s1 := TakeOut(s, Source(s, to));
    c0 := s.chans[Source(s, to)].queue[0];
    Compose(s, to, c0, s1);
  }

  lemma DirectLeft(s: State, to: Receiver, i: nat)
    requires Wiring(s) && NodesOk(s) && ChansOk(s) && Enabled(s, Direct(to, i)) && i < s.spine
    ensures var s1 := SetNode(s, i, Sent(s.nodes[i]));
      SameWires(s, s1) && Left(s, i, Offered(s.nodes[i]), s1)
  {
    var s1 := SetNode(s, i, Sent(s.nodes[i]));
    assert ChanOk(s.nodes[i], s.chans[s.nodes[i].output]);
    assert NodeOk(s.nodes[i], ModeOf(s, i));
    OfferLeaves(s, i, s1);
  }

  lemma DirectReceived(s: State, to: Receiver, i: nat, s': State) returns (c0: Chunk)
    requires Wiring(s) && NodesOk(s) && ChansOk(s) && ControlOk(s) && Enabled(s, Direct(to, i))
    requires i == Feeder(s, to) && i < s.spine
    requires s' == Deliver(SetNode(s, i, Sent(s.nodes[i])), to, Offered(s.nodes[i]))
    ensures Received(s, to, c0, s')
  {
    c0 := Offered(s.nodes[i]);
    DirectLeft(s, to, i);
    Compose(s, to, c0, SetNode(s, i, Sent(s.nodes[i])));
  }

  // ---- end of stream ----------------------------------------------------------------------------------

  lemma NilStub(s: State, to: Receiver)
    requires Wiring(s) && NodesOk(s) && ControlOk(s) && Enabled(s, Nil(to)) && to.ToStub?
    ensures var s' := DeliverNil(s, to); Line(s') == Line(s) && Flat(FrontLine(s')) <= Flat(FrontLine(s))
  {
    ReceiverFree(s, to);
    CloseNode(s, to.i, DeliverNil(s, to).nodes[to.i]);
  }

  lemma CloseNode(s: State, i: nat, n: Node)
    requires Wiring(s) && i < s.spine && n.input == s.nodes[i].input && n.output == s.nodes[i].output
    requires Held(s.nodes[i].pc) == [] && Held(n.pc) == [] && Blocked(n)
    ensures var s' := SetNode(s, i, n); Line(s') == Line(s) && Flat(FrontLine(s')) <= Flat(FrontLine(s))
  {
    CloseLine(s, SetNode(s, i, n), i);
  }

  lemma NilDrain(s: State)
    requires Wiring(s) && NodesOk(s) && ControlOk(s) && Enabled(s, Nil(ToDrain))
    ensures var s' := DeliverNil(s, ToDrain); Line(s') == Line(s) && Flat(FrontLine(s')) <= Flat(FrontLine(s))
  {
    ReceiverFree(s, ToDrain);
    CloseLine(s, DeliverNil(s, ToDrain), s.ctl.index + 1);
  }

  lemma NilEffect(s: State, a: Action, s': State) returns (change: Change)
    requires Wiring(s) && NodesOk(s) && ControlOk(s) && Enabled(s, a) && a.Nil? && s' == DeliverNil(s, a.to)
    ensures Effect(s, a, s', change) && FrontOk(s, a, s')
  {
    change := Same;
    NilLine(s, a.to);
  }

  /** The end of the stream takes nothing from the line. */
  lemma NilLine(s: State, to: Receiver)
    requires Wiring(s) && NodesOk(s) && ControlOk(s) && Enabled(s, Nil(to))
    ensures var s' := DeliverNil(s, to); Line(s') == Line(s) && Flat(FrontLine(s')) <= Flat(FrontLine(s))
  {
    if to.ToSink? { SameCells(s, DeliverNil(s, to)); }
    else if to.ToDrain? { NilDrain(s); }
    else { NilStub(s, to); }
  }

  // ---- the controller -----------------------------------------------------------------------------------

  /** Nothing on the spine changes. */
  lemma SpineSame(s: State, s': State)
    requires Wiring(s) && s'.spine == s.spine && s'.delivered == s.delivered
    requires |s'.nodes| >= |s.nodes| && |s'.chans| >= |s.chans|
    requires forall i :: 0 <= i < s.spine ==> s'.nodes[i] == s.nodes[i] && s'.chans[s.nodes[i].output] == s.chans[s.nodes[i].output]
    ensures Line(s') == Line(s) && FrontSame(s, s')
  {
    assert forall i :: 0 <= i < s.spine ==> CellAt(s', i) == CellAt(s, i);
    SameCells(s, s');
  }

  /** A Pipe takes an interrupt; a slicer sends what is left of a packet as one chunk. */
  lemma InterruptLine(s: State, s': State, i: nat) returns (change: Change)
    requires Wiring(s) && i < s.spine && PipeOk(s.nodes[i].pipe, s.nodes[i].pc) && Interruptible(s.nodes[i])
      && !s.nodes[i].closed
    requires SameWires(s, s') && s'.chans == s.chans && s'.delivered == s.delivered
    requires s'.nodes == s.nodes[i := s.nodes[i].(pc := OnInterrupt(s.nodes[i].pc))]
    ensures Changes(Line(s), change, Line(s')) && FrontSame(s, s')
    ensures change.Same? || (change.Recut? && s.nodes[i].pipe.Slice?)
  {
    CellLocal(s, s', i);
    if s.nodes[i].pc.Delaying? { HeldKept(s.nodes[i].pipe, s.nodes[i].pc); }
    if s.nodes[i].pipe.Slice? {
      change := RecutCell(s, s', i, CellAt(s', i));
    } else {
      SameBody(s, s', i, CellAt(s', i));
      change := Same;
    }
  }

  lemma AcceptEffect(s: State, a: Action, s': State) returns (change: Change)
    requires Inv(s) && PipesOk(s) && Next(s, a, s') && (a.Accept? || a.HelperAccept?)
    ensures Effect(s, a, s', change) && FrontOk(s, a, s')
  {
    var i := if a.Accept? then Target(s, s.ctl.op) else s.helper.node;
    assert i < s.spine && !s.nodes[i].closed by { assert NodeOk(s.nodes[i], ModeOf(s, i)); }
    change := InterruptLine(s, s', i);
  }

  lemma BeginEffect(s: State, a: Action, s': State) returns (change: Change)
    requires Wiring(s) && Next(s, a, s') && (a.BeginAdd? || a.BeginUpdate? || a.BeginRemove?)
    ensures Effect(s, a, s', change) && FrontOk(s, a, s')
  {
    SpineSame(s, s');
    change := Same;
  }

  lemma HelperEffect(s: State, a: Action, s': State) returns (change: Change)
    requires Wiring(s) && Next(s, a, s') && (a.HelperRefuse? || a.HelperStopped? || a.StopReceived?)
    ensures Effect(s, a, s', change) && FrontOk(s, a, s')
  {
    SpineSame(s, s');
    change := Same;
  }

  lemma RefuseEffect(s: State, a: Action, s': State) returns (change: Change)
    requires Wiring(s) && Next(s, a, s') && a.Refuse?
    ensures Effect(s, a, s', change) && FrontOk(s, a, s')
  {
    change := Same;
    if s.ctl.op.Adding? {
      assert forall i :: 0 <= i < s.spine ==> s.nodes[i].output != s.nodes[|s.nodes| - 1].input;
    }
    SpineSame(s, s');
  }

  lemma ResumeEffect(s: State, a: Action, s': State) returns (change: Change)
    requires Wiring(s) && NodesOk(s) && ControlOk(s) && Next(s, a, s') && a.Resume? && !s.ctl.op.Adding?
    ensures Effect(s, a, s', change) && FrontOk(s, a, s')
  {
    change := Same;
    var t := Target(s, s.ctl.op);
    assert NodeOk(s.nodes[t], ModeOf(s, t));
    QuietLine(s, s', t);
  }

  /** A goroutine with empty hands goes on elsewhere. */
  lemma QuietLine(s: State, s': State, i: nat)
    requires Wiring(s) && SameWires(s, s') && i < s.spine && s'.nodes == s.nodes[i := s'.nodes[i]]
    requires s'.chans == s.chans && s'.delivered == s.delivered
    requires Held(s'.nodes[i].pc) == Held(s.nodes[i].pc) && Blocked(s'.nodes[i]) == Blocked(s.nodes[i])
    ensures Line(s') == Line(s) && FrontSame(s, s')
  {
    CellLocal(s, s', i);
    assert CellAt(s', i) == CellAt(s, i);
    SameCells(s, s');
  }

  /** AddToxic puts an empty stub into the line, and rewires the one before it. */
  lemma ConnectLine(s: State)
    requires Wiring(s) && NodesOk(s) && PendingOk(s) && Pending(s) && Enabled(s, Resume) && !ChainTooShort(s)
    ensures var s' := Connect(s, s.ctl.op.toxic); Line(s') == Line(s) && FrontSame(s, s')
  {
    var s' := Connect(s, s.ctl.op.toxic);
    var i := |s.nodes| - 1;
    var cells := Cells(s);
    assert NodeOk(s.nodes[i - 1], ModeOf(s, i - 1)) && NodeOk(s.nodes[i], ModeOf(s, i));
    var cells' := cells[i - 1 := Cell([], [], false)] + [Cell(cells[i - 1].queue, [], false)];
    forall j | 0 <= j < s'.spine ensures CellAt(s', j) == cells'[j] { ConnectNode(s, j); }
    assert Cells(s') == cells';
    ExtendCells(cells, true);
    ExtendCells(cells, false);
  }

  /** RemoveToxic takes a stub out of the line, and gives its output to the one before it. */
  lemma FinishLine(s: State, k: nat)
    requires Wiring(s) && NodesOk(s) && ControlOk(s) && Enabled(s, Finish) && k == s.ctl.index && k - 1 < |s.chain|
    ensures var s' := Disconnect(s, k); Line(s') == Line(s) && FrontSame(s, s')
  {
    FinishCells(s, k);
    MergeCells(Cells(s), k, true);
    MergeCells(Cells(s), k, false);
  }

  /** RemoveToxic takes out a cell that has become empty. */
  lemma FinishCells(s: State, k: nat)
    requires Wiring(s) && NodesOk(s) && ControlOk(s) && Enabled(s, Finish) && k == s.ctl.index && k - 1 < |s.chain|
    ensures var cells := Cells(s);
      && k + 1 < |cells| && Cells(Disconnect(s, k)) == cells[..k] + [cells[k + 1]] + cells[k + 2..]
      && cells[k] == Cell([], [], false) && cells[k + 1].held == [] && !cells[k + 1].blocked
  {
    EmptiedNodes(s, k);
    CutCells(s, k);
  }

  /** The stub before the removed one has stopped, and the removed one holds nothing. */
  lemma EmptiedNodes(s: State, k: nat)
    requires Wiring(s) && NodesOk(s) && ControlOk(s) && Enabled(s, Finish) && k == s.ctl.index
    ensures 1 <= k && k + 1 < s.spine && s.nodes[k].output < |s.chans|
    ensures s.chans[s.nodes[k].output].queue == []
    ensures forall i :: k <= i <= k + 1 ==> Held(s.nodes[i].pc) == [] && !Blocked(s.nodes[i]) && !s.nodes[i].closed
  {
    assert NodeOk(s.nodes[k], ModeOf(s, k)) && NodeOk(s.nodes[k + 1], ModeOf(s, k + 1));
    assert s.nodes[k + 1].input == s.nodes[k].output;
  }

  lemma CutCells(s: State, k: nat)
    requires Wiring(s) && 1 <= k && k + 1 < s.spine && k - 1 < |s.chain|
    requires forall i :: k <= i <= k + 1 ==> Held(s.nodes[i].pc) == [] && !Blocked(s.nodes[i]) && !s.nodes[i].closed
    ensures var cells := Cells(s);
      k + 1 < |cells| && Cells(Disconnect(s, k)) == cells[..k] + [cells[k + 1]] + cells[k + 2..]
  {
    var cells := Cells(s);
    var cells' := cells[..k] + [cells[k + 1]] + cells[k + 2..];
    var s' := Disconnect(s, k);
    forall j | 0 <= j < s'.spine ensures Cells(s')[j] == cells'[j] { FinishCell(s, k, j); }
  }

  lemma FinishCell(s: State, k: nat, j: nat)
    requires Wiring(s) && 1 <= k && k + 1 < s.spine && k - 1 < |s.chain| && j < s.spine - 1
    requires Held(s.nodes[k + 1].pc) == [] && !Blocked(s.nodes[k + 1]) && !s.nodes[k].closed
    ensures CellAt(Disconnect(s, k), j) == CellAt(s, if j < k then j else j + 1)
  {
    FinishNode(s, k, j);
  }

  lemma RewireEffect(s: State, a: Action, s': State) returns (change: Change)
    requires Inv(s) && Next(s, a, s') && ((a.Resume? && s.ctl.op.Adding?) || a.Finish?)
    ensures Effect(s, a, s', change) && FrontOk(s, a, s')
  {
    change := Same;
    if a.Finish? { FinishLine(s, s.ctl.index); } else { ConnectLine(s); }
  }

  // ---- all steps ------------------------------------------------------------------------------------------

  lemma StepEffect(s: State, a: Action, s': State) returns (change: Change)
    requires GoodStep(s, a, s')
    ensures Effect(s, a, s', change) && FrontOk(s, a, s')
  {
    if a.Queued? { change := QueuedEffect(s, a.to, s'); }
    else if a.Direct? { change := DirectEffect(s, a.to, a.i, s'); }
    else if a.Nil? { change := NilEffect(s, a, s'); }
    else if ByController(a) { change := ControlEffect(s, a, s'); }
    else { change := PipeEffect(s, a, s'); }
  }

  lemma PipeEffect(s: State, a: Action, s': State) returns (change: Change)
    requires GoodStep(s, a, s') && !ByController(a) && !(a.Queued? || a.Direct? || a.Nil?)
    ensures Effect(s, a, s', change) && FrontOk(s, a, s')
  {
    if a.SourceWrite? { change := WriteEffect(s, a.chunk, s'); }
    else if a.SourceClose? { change := SourceCloseEffect(s, s'); }
    else if a.Deposit? { change := DepositEffect(s, a, s'); }
    else if a.Timer? && s.nodes[a.i].pc.Discarding? { change := ResetEffect(s, a.i, s'); }
    else if a.Timer? { change := TimerEffect(s, a, s'); }
    else if a.Timeout? { change := TimeoutEffect(s, a, s'); }
    else { change := QuietEffect(s, a, s'); }
  }

  lemma QueuedEffect(s: State, to: Receiver, s': State) returns (change: Change)
    requires GoodStep(s, Queued(to), s')
    ensures Effect(s, Queued(to), s', change) && FrontOk(s, Queued(to), s')
  {
    var c0 := QueuedReceived(s, to, s');
    change := ReceiveEffect(s, Queued(to), c0, s');
  }

  lemma DirectEffect(s: State, to: Receiver, i: nat, s': State) returns (change: Change)
    requires GoodStep(s, Direct(to, i), s')
    ensures Effect(s, Direct(to, i), s', change) && FrontOk(s, Direct(to, i), s')
  {
    DirectIsFeeder(s, to, i);
    var c0 := DirectReceived(s, to, i, s');
    change := ReceiveEffect(s, Direct(to, i), c0, s');
  }

  lemma ControlEffect(s: State, a: Action, s': State) returns (change: Change)
    requires GoodStep(s, a, s') && ByController(a)
    ensures Effect(s, a, s', change) && FrontOk(s, a, s')
  {
    if a.BeginAdd? || a.BeginUpdate? || a.BeginRemove? { change := BeginEffect(s, a, s'); }
    else if a.Accept? || a.HelperAccept? { change := AcceptEffect(s, a, s'); }
    else if a.HelperRefuse? || a.HelperStopped? || a.StopReceived? { change := HelperEffect(s, a, s'); }
    else if a.Refuse? { change := RefuseEffect(s, a, s'); }
    else if a.Resume? && !s.ctl.op.Adding? { change := ResumeEffect(s, a, s'); }
    else { change := RewireEffect(s, a, s'); }
  }
}
