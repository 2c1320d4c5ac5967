/** What the toxics of a link put on the wire: slices within the slicer's bounds, and bandwidth pieces
    of 100 ms. */
module LinkPieces {
  import opened Streams
  import opened LinkState
  import opened LinkInvariant
  import opened LinkEffect
  import opened LinkLossless
  import opened LinkTheorems
  import opened LinkProgress
  import Slicer

  /** Slices of a packet that was longer than A + V. */
  predicate Slices(c: Slicer.Settings, pieces: seq<Chunk>) {
    forall k :: 0 <= k < |pieces| ==> Slicer.Least(c) <= |pieces[k]| <= c.average + c.variation
  }

  /** What a Pipe that is not on its way out offers and still holds: a slicer slices, or a packet that it
      need not slice; a bandwidth 100 ms worth of data, or the rest of a packet. */
  predicate PieceOk(pipe: Kind, pc: Pc) {
    match pipe
    case Slice(c) =>
      && (pc.Delaying? ==> Slices(c, pc.rest))
      && (pc.Sending? && !pc.leaving ==>
            && |pc.chunk| <= c.average + c.variation && Slices(c, pc.rest)
            && (pc.rest != [] ==> Slices(c, [pc.chunk])))
    case Bandwidth(rate) =>
      pc.Sending? && !pc.leaving ==> |pc.chunk| <= rate * 100 && (pc.rest != [] ==> |pc.chunk| == rate * 100)
    case _ => true
  }

  ghost predicate PiecesOk(s: State) { forall i :: 0 <= i < |s.nodes| ==> PieceOk(s.nodes[i].pipe, s.nodes[i].pc) }

  // ---- one goroutine ------------------------------------------------------------------------------------------

  lemma PieceSteps(n: Node)
    requires PipeOk(n.pipe, n.pc) && PieceOk(n.pipe, n.pc)
    ensures Offering(n) ==> PieceOk(Sent(n).pipe, Sent(n).pc)
    ensures n.pc.Delaying? ==> PieceOk(n.pipe, OnTimer(n.pipe, n.pc.rest))
    ensures Interruptible(n) ==> PieceOk(n.pipe, OnInterrupt(n.pc))
  {
  }

  lemma PieceReceives(pipe: Kind, c: Chunk, draws: Slicer.Draws)
    ensures PieceOk(pipe, OnReceive(pipe, c, draws))
  {
    if pipe.Slice? { SlicesPacket(pipe.settings, c, draws); }
  }

  /** A packet longer than A + V is sliced, and a shorter one is not. */
  lemma SlicesPacket(st: Slicer.Settings, c: Chunk, draws: Slicer.Draws)
    ensures var pieces := Slicer.Pieces(st, c, draws);
      && Flat(pieces) == c && (|pieces| >= 2 <==> |c| > st.average + st.variation)
      && (|pieces| >= 2 ==> Slices(st, pieces)) && |pieces[0]| <= st.average + st.variation
  {
    var pieces := Slicer.Pieces(st, c, draws);
    if |pieces| == 1 { OnlyPiece(pieces); }
    if |c| <= st.average + st.variation { Slicer.WholePiece(st, c, draws); }
  }

  lemma OnlyPiece(pieces: seq<Chunk>)
    requires |pieces| == 1
    ensures Flat(pieces) == pieces[0]
  {
    FlatSingle(pieces[0]);
    assert pieces == [pieces[0]];
  }

  // ---- all of them --------------------------------------------------------------------------------------------

  lemma OnePieces(s: State, s': State, i: nat)
    requires PiecesOk(s) && i < |s.nodes| == |s'.nodes| && s'.nodes == s.nodes[i := s'.nodes[i]]
    requires PieceOk(s'.nodes[i].pipe, s'.nodes[i].pc)
    ensures PiecesOk(s')
  {
  }

  lemma PiecesDeliver(s: State, to: Receiver, c: Chunk)
    requires PiecesOk(s) && Ready(s, to)
    ensures PiecesOk(Deliver(s, to, c))
  {
    if to.ToStub? {
      PieceReceives(s.nodes[to.i].pipe, c, to.draws);
      OnePieces(s, Deliver(s, to, c), to.i);
    } else if to.ToDrain? {
      OnePieces(s, Deliver(s, to, c), s.ctl.index + 1);
    }
  }

  lemma PiecesSent(s: State, i: nat)
    requires PiecesOk(s) && PipesOk(s) && i < |s.nodes| && Offering(s.nodes[i])
    ensures PiecesOk(SetNode(s, i, Sent(s.nodes[i])))
  {
    PieceSteps(s.nodes[i]);
    OnePieces(s, SetNode(s, i, Sent(s.nodes[i])), i);
  }

  lemma PiecesByReceive(s: State, a: Action)
    requires PiecesOk(s) && PipesOk(s) && Enabled(s, a) && !Panics(s, a) && (a.Queued? || a.Direct? || a.Nil?)
    ensures PiecesOk(Apply(s, a))
  {
    match a
    case Queued(to) => PiecesDeliver(TakeOut(s, Source(s, to)), to, s.chans[Source(s, to)].queue[0]);
    case Direct(to, i) =>
      PiecesSent(s, i);
      PiecesDeliver(SetNode(s, i, Sent(s.nodes[i])), to, Offered(s.nodes[i]));
    case Nil(to) =>
  }

  lemma PiecesByPipe(s: State, a: Action)
    requires PiecesOk(s) && PipesOk(s) && SourceOk(s) && Enabled(s, a) && !Panics(s, a) && !(a.Queued? || a.Direct? || a.Nil?)
      && !ByController(a)
    ensures PiecesOk(Apply(s, a))
  {
    var i := if a.SourceWrite? || a.SourceClose? then 0 else a.i;
    PieceSteps(s.nodes[i]);
    OnePieces(s, Apply(s, a), i);
  }

  lemma PiecesByController(s: State, a: Action)
    requires PiecesOk(s) && PipesOk(s) && Inv(s) && Enabled(s, a) && !Panics(s, a) && ByController(a)
    ensures PiecesOk(Apply(s, a))
  {
    if a.Accept? {
      var t := Target(s, s.ctl.op);
      PieceSteps(s.nodes[t]);
      OnePieces(s, Apply(s, a), t);
    } else if a.HelperAccept? {
      PieceSteps(s.nodes[s.helper.node]);
      OnePieces(s, Apply(s, a), s.helper.node);
    } else if a.Resume? && s.ctl.op.Adding? {
      PiecesConnect(s);
    } else if a.Finish? {
      PiecesFinish(s, s.ctl.index);
    } else if a.BeginAdd? {
      PiecesAppend(s, a.toxic);
    }
  }

  lemma PiecesAppend(s: State, toxic: Toxic)
    requires PiecesOk(s) && s.nodes != []
    ensures PiecesOk(Append(s, toxic))
  {
  }

  lemma PiecesConnect(s: State)
    requires PiecesOk(s) && |s.nodes| >= 3 && !ChainTooShort(s) && Pending(s)
    ensures PiecesOk(Connect(s, s.ctl.op.toxic))
  {
    forall j | 0 <= j < |s.nodes| ensures var n := Connect(s, s.ctl.op.toxic).nodes[j]; PieceOk(n.pipe, n.pc) {
      ConnectNode(s, j);
    }
  }

  lemma PiecesFinish(s: State, k: nat)
    requires PiecesOk(s) && 1 <= k && k + 1 < |s.nodes| && k - 1 < |s.chain|
    ensures PiecesOk(Disconnect(s, k))
  {
    forall j | 0 <= j < |s.nodes| - 1 ensures var n := Disconnect(s, k).nodes[j]; PieceOk(n.pipe, n.pc) {
      FinishNode(s, k, j);
    }
  }

  lemma PiecesKept(s: State, a: Action, s': State)
    requires Inv(s) && PipesOk(s) && SourceOk(s) && PiecesOk(s) && Next(s, a, s')
    ensures PiecesOk(s')
  {
    if a.Queued? || a.Direct? || a.Nil? { PiecesByReceive(s, a); }
    else if ByController(a) { PiecesByController(s, a); }
    else { PiecesByPipe(s, a); }
  }

  // ---- over all runs --------------------------------------------------------------------------------------------

  lemma PiecesAtStart(chain: seq<Toxic>)
    requires chain != []
    ensures PiecesOk(Build(chain))
  {
    forall i | 0 <= i < |chain| + 1 ensures PieceOk(Build(chain).nodes[i].pipe, Build(chain).nodes[i].pc) { BuiltNode(chain, i); }
  }

  /** In every state of every run each goroutine offers pieces as its toxic should. */
  lemma {:induction false} PiecesAlongRun(states: seq<State>, actions: seq<Action>, i: nat)
    requires IsRun(states, actions) && i < |states|
    ensures PiecesOk(states[i])
  {
    if i == 0 {
      PiecesAtStart(states[0].chain);
    } else {
      PiecesAlongRun(states, actions, i - 1);
      PiecesStep(states, actions, i - 1);
    }
  }

  lemma PiecesStep(states: seq<State>, actions: seq<Action>, i: nat)
    requires IsRun(states, actions) && i < |actions| && PiecesOk(states[i])
    ensures PiecesOk(states[i + 1])
  {
    GoodAlongRun(states, actions, i);
    EndsAlongRun(states, actions, i);
    assert StepAt(states, actions, i);
    PiecesKept(states[i], actions[i], states[i + 1]);
  }

  /** A slicer that is not on its way out puts at most A + V bytes into one chunk, and at least Least
      bytes into each slice that another one follows; a bandwidth at most what its rate allows in
      100 ms, and exactly that while there is more to follow. */
  lemma OffersPieces(states: seq<State>, actions: seq<Action>, i: nat, k: nat)
    requires IsRun(states, actions) && i < |states| && k < |states[i].nodes|
    requires states[i].nodes[k].pc.Sending? && !states[i].nodes[k].pc.leaving
    ensures var n := states[i].nodes[k]; var c := n.pc.chunk;
      && (n.pipe.Slice? ==> |c| <= n.pipe.settings.average + n.pipe.settings.variation)
      && (n.pipe.Slice? && n.pc.rest != [] ==> Slicer.Least(n.pipe.settings) <= |c|)
      && (n.pipe.Bandwidth? ==> |c| <= n.pipe.rate * 100 && (n.pc.rest != [] ==> |c| == n.pipe.rate * 100))
  {
    PiecesAlongRun(states, actions, i);
    var n := states[i].nodes[k];
    assert PieceOk(n.pipe, n.pc) && [n.pc.chunk][0] == n.pc.chunk;
  }

  /** The chunk that a receive takes. */
  function Taken(s: State, a: Action): Chunk
    requires Enabled(s, a) && (a.Queued? || a.Direct?)
  {
    if a.Queued? then s.chans[Source(s, a.to)].queue[0] else Offered(s.nodes[a.i])
  }

  /** What a stub does with a chunk: a noop offers it on, a reset_peer lets it go, latency and bandwidth
      hold it where they can be interrupted, and a slicer offers the first of its slices, at least two
      exactly if the chunk is longer than A + V. */
  ghost predicate Handles(n: Node, c: Chunk) {
    match n.pipe
    case Noop => n.pc == Sending(c, [], false)
    case ResetPeer => n.pc.Discarding?
    case Slice(st) =>
      && n.pc.Sending? && !n.pc.leaving && Flat([n.pc.chunk] + n.pc.rest) == c
      && (n.pc.rest != [] <==> |c| > st.average + st.variation)
      && (n.pc.rest != [] ==> Slices(st, [n.pc.chunk] + n.pc.rest))
    case _ => n.pc == Delaying([c]) && Interruptible(n)
  }

  lemma HandlesReceived(pipe: Kind, c: Chunk, draws: Slicer.Draws, n: Node)
    requires n.pipe == pipe && n.pc == OnReceive(pipe, c, draws)
    ensures Handles(n, c)
  {
    if pipe.Slice? {
      var pieces := Slicer.Pieces(pipe.settings, c, draws);
      SlicesPacket(pipe.settings, c, draws);
      assert [pieces[0]] + pieces[1..] == pieces;
    }
  }

  /** In every run, a stub that receives a chunk handles it as its toxic should. */
  lemma ReceiverHandles(states: seq<State>, actions: seq<Action>, i: nat)
    requires IsRun(states, actions) && i < |actions| && (actions[i].Queued? || actions[i].Direct?) && actions[i].to.ToStub?
    ensures Enabled(states[i], actions[i]) && actions[i].to.i < |states[i + 1].nodes|
    ensures Handles(states[i + 1].nodes[actions[i].to.i], Taken(states[i], actions[i]))
  {
    var s, a := states[i], actions[i];
    assert StepAt(states, actions, i);
    ReceiveHandles(s, a, states[i + 1]);
  }

  lemma ReceiveHandles(s: State, a: Action, s': State)
    requires Next(s, a, s') && (a.Queued? || a.Direct?) && a.to.ToStub?
    ensures a.to.i < |s'.nodes| && Handles(s'.nodes[a.to.i], Taken(s, a))
  {
    HandlesReceived(s.nodes[a.to.i].pipe, Taken(s, a), a.to.draws, s'.nodes[a.to.i]);
  }

  /** A stub that is interrupted while it holds data offers all of it, as one chunk, and then leaves;
      one that waits for its input leaves at once. */
  lemma InterruptedLeaves(states: seq<State>, actions: seq<Action>, i: nat)
    requires IsRun(states, actions) && i < |actions| && actions[i].Accept?
    ensures var s := states[i];
      && s.ctl.Interrupting? && 0 <= Target(s, s.ctl.op) < |s.nodes| == |states[i + 1].nodes|
      && var was, now := s.nodes[Target(s, s.ctl.op)].pc, states[i + 1].nodes[Target(s, s.ctl.op)].pc;
      && (was.Listening? || was.Delaying?)
      && (if was.Listening? then now.Returned? else now == Sending(Flat(was.rest), [], true))
  {
    assert StepAt(states, actions, i);
  }

  /** A slicer pauses behind every slice, the last one too, and a bandwidth behind every piece but the
      last: there they can be interrupted. */
  lemma PausesBehindPieces(states: seq<State>, actions: seq<Action>, i: nat)
    requires IsRun(states, actions) && i < |actions| && actions[i].Deposit?
    ensures var k := actions[i].i;
      && k < |states[i].nodes| == |states[i + 1].nodes|
      && var n, n' := states[i].nodes[k], states[i + 1].nodes[k];
      && Offering(n)
      && (n.pc.Sending? && !n.pc.leaving ==>
            if n.pipe.Slice? || n.pc.rest != [] then n'.pc == Delaying(n.pc.rest) && Interruptible(n') else n'.pc.Listening?)
  {
    assert StepAt(states, actions, i);
  }

  /** At the end of its input a reset_peer still waits for its timer, and every other stub closes. */
  lemma EndCloses(states: seq<State>, actions: seq<Action>, i: nat)
    requires IsRun(states, actions) && i < |actions| && actions[i].Nil? && actions[i].to.ToStub?
    ensures var k := actions[i].to.i;
      && k < |states[i].nodes| == |states[i + 1].nodes|
      && var n, n' := states[i].nodes[k], states[i + 1].nodes[k];
      if n.pipe.ResetPeer? then n'.pc.Discarding? && n'.closed == n.closed else n'.pc.Closing? && n'.closed
  {
    assert StepAt(states, actions, i);
  }

  /** A stub that starts runs its toxic or a noop, as drawn, and waits for its input. */
  lemma StartRuns(states: seq<State>, actions: seq<Action>, i: nat)
    requires IsRun(states, actions) && i < |actions| && actions[i].Start?
    ensures var k := actions[i].i;
      && k < |states[i].nodes| == |states[i + 1].nodes|
      && var n := states[i + 1].nodes[k];
      n.pc.Listening? && n.toxic == states[i].nodes[k].toxic && n.pipe == if actions[i].chosen then n.toxic.kind else Noop
  {
    assert StepAt(states, actions, i);
  }
}
