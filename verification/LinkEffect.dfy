/** What each step does to the line of data, chunk by chunk. */
module LinkEffect {
  import opened Streams
  import opened LinkState
  import opened LinkInvariant
  import opened LinkFlow

  /** The four things that can happen to the line. */
  datatype Change =
    | Same
    | Gain(chunk: Chunk)                                                            // at its end
    | Recut(x: seq<Chunk>, was: seq<Chunk>, now: seq<Chunk>, y: seq<Chunk>)          // of one chunk, or none
    | Lose(x: seq<Chunk>, chunk: Chunk, y: seq<Chunk>)

  ghost predicate Changes(line: seq<Chunk>, change: Change, line': seq<Chunk>) {
    match change
    case Same => line' == line
    case Gain(c) => line' == line + [c]
    case Recut(x, was, now, y) => line == x + was + y && line' == x + now + y && |was| <= 1 && Flat(was) == Flat(now)
    case Lose(x, c, y) => line == x + [c] + y && line' == x + y
  }

  /** Only bandwidth and slicer ever put other chunks in the place of those they got. */
  predicate Recuts(s: State, a: Action)
    requires Enabled(s, a)
  {
    match a
    case Timer(i) => s.nodes[i].pipe.Bandwidth? || s.nodes[i].pipe.Slice?
    case Queued(to) => to.ToStub? && s.nodes[to.i].pipe.Slice?
    case Direct(to, _) => to.ToStub? && s.nodes[to.i].pipe.Slice?
    case Accept => s.nodes[Target(s, s.ctl.op)].pipe.Slice?
    case HelperAccept => s.nodes[s.helper.node].pipe.Slice?
    case _ => false
  }

  /** A change of the line and the books that are kept of it. */
  ghost predicate Effect(s: State, a: Action, s': State, change: Change)
    requires Enabled(s, a)
  {
    && Changes(Line(s), change, Line(s'))
    && (a.SourceWrite? <==> change.Gain?)
    && s'.written == (if a.SourceWrite? then s.written + [a.chunk] else s.written)
    && (a.SourceWrite? ==> change.chunk == a.chunk)
    && (change.Recut? ==> Recuts(s, a))
    && (a.Timeout? ==> change.Lose?)
    && s'.dropped == (if a.Timeout? then s.dropped + [change.chunk] else s.dropped)
    && s'.discarded == (if change.Lose? && !a.Timeout? then s.discarded + [change.chunk] else s.discarded)
  }

  /** A local step changes the cell of its node and that of its channel. */
  lemma CellsLocal(s: State, s': State, i: nat, k: nat)
    requires Wiring(s) && SameWires(s, s')
    requires i < s.spine && k < s.spine && s'.nodes == s.nodes[i := s'.nodes[i]]
    requires var c := s.nodes[k].output; s'.chans == s.chans[c := s'.chans[c]]
    ensures Cells(s') == Cells(s)[k := CellAt(s', k)][i := CellAt(s', i)]
  {
    forall j | 0 <= j < s.spine && j != i && j != k ensures CellAt(s', j) == CellAt(s, j) {
      if j < k { assert s.nodes[j].output != s.nodes[k].output; }
      if k < j { assert s.nodes[k].output != s.nodes[j].output; }
    }
  }

  /** What an interrupted or timed select does to what a Pipe holds. */
  lemma HeldKept(pipe: Kind, pc: Pc)
    requires pc.Delaying? && PipeOk(pipe, pc)
    ensures Flat(Held(OnTimer(pipe, pc.rest))) == Flat(Held(pc))
    ensures !pipe.Bandwidth? && !pipe.Slice? ==> Held(OnTimer(pipe, pc.rest)) == Held(pc)
    ensures Flat(Held(OnInterrupt(pc))) == Flat(Held(pc))
    ensures !pipe.Slice? ==> Held(OnInterrupt(pc)) == Held(pc)
  {
    var rest := pc.rest;
    FlatSingle(Flat(rest));
    if rest != [] {
      FlatSingle(rest[0]);
      FlatAppend([rest[0]], rest[1..]);
      assert [rest[0]] + rest[1..] == rest;
      FlatAppend([rest[0]], Together(rest[1..]));
      if pipe.Bandwidth? && |rest[0]| > pipe.rate * 100 {
        BandwidthCuts(rest[0], pipe.rate * 100);
      }
    }
  }

  lemma BandwidthCuts(c: Chunk, cut: nat)
    requires cut <= |c|
    ensures Flat([c[..cut]] + Together([c[cut..]])) == c
  {
    FlatAppend([c[..cut]], Together([c[cut..]]));
    FlatSingle(c[..cut]);
    FlatSingle(c[cut..]);
    assert c == c[..cut] + c[cut..];
  }

  /** Latency and bandwidth hold one chunk at a time; noop and reset_peer never wait with one. */
  predicate PipeOk(pipe: Kind, pc: Pc) {
    && (pc.Delaying? ==> pipe.Slice? || (|pc.rest| == 1 && (pipe.Latency? || pipe.Bandwidth?)))
    && (pc.Sending? ==> pipe.Slice? || pc.rest == [] || (|pc.rest| == 1 && pipe.Bandwidth?))
    && (pc.Discarding? ==> pipe.ResetPeer?)
  }

  ghost predicate PipesOk(s: State) {
    forall i :: 0 <= i < |s.nodes| ==> PipeOk(s.nodes[i].pipe, s.nodes[i].pc)
  }

  lemma PipeSteps(n: Node)
    requires PipeOk(n.pipe, n.pc)
    ensures Offering(n) ==> PipeOk(Sent(n).pipe, Sent(n).pc)
    ensures n.pc.Delaying? ==> PipeOk(n.pipe, OnTimer(n.pipe, n.pc.rest))
    ensures Interruptible(n) ==> PipeOk(n.pipe, OnInterrupt(n.pc))
  {
  }

  lemma PipeReceives(pipe: Kind, c: Chunk, to: Receiver)
    requires to.ToStub?
    ensures PipeOk(pipe, OnReceive(pipe, c, to.draws))
  {
  }

  lemma OnePipe(s: State, s': State, i: nat)
    requires PipesOk(s) && i < |s.nodes| == |s'.nodes| && s'.nodes == s.nodes[i := s'.nodes[i]]
    requires PipeOk(s'.nodes[i].pipe, s'.nodes[i].pc)
    ensures PipesOk(s')
  {
  }

  lemma PipesDeliver(s: State, to: Receiver, c: Chunk)
    requires PipesOk(s) && Ready(s, to)
    ensures PipesOk(Deliver(s, to, c))
  {
    if to.ToStub? {
      PipeReceives(s.nodes[to.i].pipe, c, to);
      OnePipe(s, Deliver(s, to, c), to.i);
    } else if to.ToDrain? {
      OnePipe(s, Deliver(s, to, c), s.ctl.index + 1);
    }
  }

  lemma PipesSent(s: State, i: nat)
    requires PipesOk(s) && i < |s.nodes| && Offering(s.nodes[i])
    ensures PipesOk(SetNode(s, i, Sent(s.nodes[i])))
  {
    PipeSteps(s.nodes[i]);
    OnePipe(s, SetNode(s, i, Sent(s.nodes[i])), i);
  }

  lemma PipesByReceive(s: State, a: Action)
    requires PipesOk(s) && Enabled(s, a) && !Panics(s, a) && (a.Queued? || a.Direct? || a.Nil?)
    ensures PipesOk(Apply(s, a))
  {
    match a
    case Queued(to) => PipesDeliver(TakeOut(s, Source(s, to)), to, s.chans[Source(s, to)].queue[0]);
    case Direct(to, i) =>
      PipesSent(s, i);
      PipesDeliver(SetNode(s, i, Sent(s.nodes[i])), to, Offered(s.nodes[i]));
    case Nil(to) =>
  }

  lemma PipesByPipe(s: State, a: Action)
    requires PipesOk(s) && Inv(s) && Enabled(s, a) && !Panics(s, a) && !(a.Queued? || a.Direct? || a.Nil?)
      && !ByController(a)
    ensures PipesOk(Apply(s, a))
  {
    var i := if a.SourceWrite? || a.SourceClose? then 0 else a.i;
    PipeSteps(s.nodes[i]);
    OnePipe(s, Apply(s, a), i);
  }

  lemma PipesByController(s: State, a: Action)
    requires PipesOk(s) && Inv(s) && Enabled(s, a) && !Panics(s, a) && ByController(a)
    ensures PipesOk(Apply(s, a))
  {
    if a.Accept? {
      var t := Target(s, s.ctl.op);
      PipeSteps(s.nodes[t]);
      OnePipe(s, Apply(s, a), t);
    } else if a.HelperAccept? {
      PipeSteps(s.nodes[s.helper.node]);
      OnePipe(s, Apply(s, a), s.helper.node);
    } else if a.Resume? && s.ctl.op.Adding? {
      PipesConnect(s);
    } else if a.Finish? {
      PipesFinish(s, s.ctl.index);
    } else if a.BeginAdd? {
      PipesAppend(s, a.toxic);
    }
  }

  lemma PipesAppend(s: State, toxic: Toxic)
    requires PipesOk(s) && s.nodes != []
    ensures PipesOk(Append(s, toxic))
  {
  }

  lemma PipesConnect(s: State)
    requires PipesOk(s) && |s.nodes| >= 3 && !ChainTooShort(s) && Pending(s)
    ensures PipesOk(Connect(s, s.ctl.op.toxic))
  {
    forall j | 0 <= j < |s.nodes| ensures var n := Connect(s, s.ctl.op.toxic).nodes[j]; PipeOk(n.pipe, n.pc) {
      ConnectNode(s, j);
    }
  }

  lemma PipesFinish(s: State, k: nat)
    requires PipesOk(s) && 1 <= k && k + 1 < |s.nodes| && k - 1 < |s.chain|
    ensures PipesOk(Disconnect(s, k))
  {
    forall j | 0 <= j < |s.nodes| - 1 ensures var n := Disconnect(s, k).nodes[j]; PipeOk(n.pipe, n.pc) {
      FinishNode(s, k, j);
    }
  }

  lemma PipesKept(s: State, a: Action, s': State)
    requires Inv(s) && PipesOk(s) && Next(s, a, s')
    ensures PipesOk(s')
  {
    if a.Queued? || a.Direct? || a.Nil? { PipesByReceive(s, a); }
    else if ByController(a) { PipesByController(s, a); }
    else { PipesByPipe(s, a); }
  }

  // ---- what a change of cells does to the line --------------------------------------------------------

  ghost predicate FrontSame(s: State, s': State)
  {
    Flat(FrontLine(s')) == Flat(FrontLine(s))
  }

  lemma SameCells(s: State, s': State)
    requires Wiring(s) && Cells(s') == Cells(s) && s'.delivered == s.delivered
    ensures Line(s') == Line(s) && FrontSame(s, s')
  {
  }

  /** One cell whose content stays the same. */
  lemma SameBody(s: State, s': State, i: nat, c: Cell)
    requires Wiring(s) && i < s.spine && Cells(s') == Cells(s)[i := c] && s'.delivered == s.delivered
    requires Body(c) == Body(Cells(s)[i]) && c.blocked == Cells(s)[i].blocked
    ensures Line(s') == Line(s) && FrontSame(s, s')
  {
    var x, y, seen := OneCell(Cells(s), i, c, true);
    x, y, seen := OneCell(Cells(s), i, c, false);
  }

  lemma Regroup(pre: seq<Chunk>, x: seq<Chunk>, q: seq<Chunk>, h: seq<Chunk>, b: seq<Chunk>, y: seq<Chunk>)
    ensures pre + (x + ((q + h) + b) + y) == (pre + x + q) + h + (b + y)
  {
  }

  /** One cell whose goroutine turns what it holds into other chunks with the same bytes. */
  lemma RecutCell(s: State, s': State, i: nat, c: Cell) returns (change: Change)
    requires Wiring(s) && i < s.spine && Cells(s') == Cells(s)[i := c] && s'.delivered == s.delivered
    requires var was := Cells(s)[i];
             c.queue == was.queue && |was.held| <= 1 && Flat(c.held) == Flat(was.held) && c.blocked == was.blocked
    ensures change.Recut? && Changes(Line(s), change, Line(s')) && FrontSame(s, s')
  {
    var x, y := RecutFlow(s.delivered, Cells(s), i, c, false);
    x, y := RecutFlow(s.delivered, Cells(s), i, c, true);
    change := Recut(x, Cells(s)[i].held, c.held, y);
  }

  lemma RecutFlow(pre: seq<Chunk>, cells: seq<Cell>, i: nat, c: Cell, all: bool) returns (x: seq<Chunk>, y: seq<Chunk>)
    requires i < |cells| && c.queue == cells[i].queue && c.blocked == cells[i].blocked
      && Flat(c.held) == Flat(cells[i].held)
    ensures Flat(pre + Flow(cells, all)) == Flat(pre + Flow(cells[i := c], all))
    ensures all ==> pre + Flow(cells, all) == x + cells[i].held + y && pre + Flow(cells[i := c], all) == x + c.held + y
  {
    var x0, y0, seen := OneCell(cells, i, c, all);
    x, y := pre + x0 + c.queue, [] + y0;
    if seen {
      Regroup(pre, x0, c.queue, c.held, [], y0);
      Regroup(pre, x0, c.queue, cells[i].held, [], y0);
      assert (c.queue + c.held) + [] == Body(c) && (c.queue + cells[i].held) + [] == Body(cells[i]);
      RecutFlat(x, cells[i].held, c.held, y);
    }
  }

  lemma RecutFlat(x: seq<Chunk>, was: seq<Chunk>, now: seq<Chunk>, y: seq<Chunk>)
    requires Flat(was) == Flat(now)
    ensures Flat(x + was + y) == Flat(x + now + y)
  {
    FlatAround(x, was, y);
    FlatAround(x, now, y);
  }

  /** An empty-handed goroutine that becomes blocked. */
  lemma BlockOne(s: State, s': State, i: nat, c: Cell)
    requires Wiring(s) && i < s.spine && Cells(s') == Cells(s)[i := c] && s'.delivered == s.delivered
    requires Body(c) == Body(Cells(s)[i]) && c.blocked
    ensures Line(s') == Line(s) && Flat(FrontLine(s')) <= Flat(FrontLine(s))
  {
    var x, y, seen := OneCell(Cells(s), i, c, true);
    BlockCell(Cells(s), i, c);
    PrefixFlat(FrontLine(s'), FrontLine(s));
  }

  lemma PrefixFlat(a: seq<Chunk>, b: seq<Chunk>)
    requires a <= b
    ensures Flat(a) <= Flat(b)
  {
    assert b == a + b[|a|..];
    FlatAppend(a, b[|a|..]);
  }

  /** A chunk c0 passes from node k to node k + 1, which then holds d.held for it. */
  lemma PassOnFlow(pre: seq<Chunk>, cells: seq<Cell>, k: nat, c0: Chunk, c: Cell, d: Cell, all: bool) returns (x: seq<Chunk>, y: seq<Chunk>)
    requires k + 1 < |cells| && Body(cells[k]) == [c0] + Body(c) && c.blocked == cells[k].blocked
    requires cells[k + 1].held == [] && !cells[k + 1].blocked && d.queue == cells[k + 1].queue
    requires all || (!d.blocked && Flat(d.held) == c0)
    ensures all ==> pre + Flow(cells, all) == x + [c0] + y
    ensures all ==> pre + Flow(cells[k := c][k + 1 := d], all) == x + d.held + y
    ensures !all ==> Flat(pre + Flow(cells[k := c][k + 1 := d], all)) == Flat(pre + Flow(cells, all))
  {
    var x0, y0, seen := TwoCells(cells, k, c, d, all);
    x, y := pre + x0 + d.queue, Body(c) + y0;
    if seen {
      Regroup(pre, x0, d.queue, [c0], Body(c), y0);
      Regroup(pre, x0, d.queue, d.held, Body(c), y0);
      assert Body(cells[k + 1]) + Body(cells[k]) == (d.queue + [c0]) + Body(c);
      FlatSingle(c0);
      if !all { RecutFlat(x, [c0], d.held, y); }
    }
  }

  lemma PassOnBlock(pre: seq<Chunk>, cells: seq<Cell>, k: nat, c: Cell, d: Cell)
    requires k + 1 < |cells| && d.blocked && d.held == [] && cells[k + 1].held == [] && d.queue == cells[k + 1].queue
    ensures Flat(pre + Flow(cells[k := c][k + 1 := d], false)) <= Flat(pre + Flow(cells, false))
  {
    BlockCell(cells, k + 1, d);
    assert cells[k + 1 := d][k := c] == cells[k := c][k + 1 := d];
    BehindBlocked(cells[k + 1 := d], k + 1, k, c);
    PrefixFlat(pre + Flow(cells[k := c][k + 1 := d], false), pre + Flow(cells, false));
  }

  /** The sink takes the oldest chunk. */
  lemma TakeLast(pre: seq<Chunk>, cells: seq<Cell>, c0: Chunk, c: Cell, all: bool)
    requires cells != [] && Body(cells[|cells| - 1]) == [c0] + Body(c) && c.blocked == cells[|cells| - 1].blocked
    ensures (pre + [c0]) + Flow(cells[|cells| - 1 := c], all) == pre + Flow(cells, all)
  {
    var n := |cells| - 1;
    var behind := if !all && c.blocked then [] else Flow(cells[..n], all);
    assert cells[n := c][..n] == cells[..n];
    assert Flow(cells, all) == ([c0] + Body(c)) + behind;
    assert Flow(cells[n := c], all) == Body(c) + behind;
  }
}
