/** Two limits that every step keeps: which kinds of toxic ever run, and how long a chunk can be. */
module LinkLimits {
  import opened Streams
  import opened LinkState
  import opened LinkInvariant
  import opened LinkEffect

  /** The kinds that may run, always with the noop among them, and the size of a source read. */
  datatype Limits = Limits(kinds: Kind -> bool, size: nat)

  ghost predicate NodeWithin(n: Node, l: Limits) {
    l.kinds(n.pipe) && l.kinds(n.toxic.kind) && |Flat(Held(n.pc))| <= l.size
  }

  ghost predicate ChunksWithin(cs: seq<Chunk>, l: Limits) { forall k :: 0 <= k < |cs| ==> |cs[k]| <= l.size }

  ghost predicate ChainWithin(chain: seq<Toxic>, l: Limits) { forall k :: 0 <= k < |chain| ==> l.kinds(chain[k].kind) }

  /** Every goroutine holds at most one read's worth of bytes, every buffered or delivered chunk is
      no longer than a read, and only the given kinds run. */
  ghost predicate Within(s: State, l: Limits) {
    && l.kinds(Noop)
    && (forall i :: 0 <= i < |s.nodes| ==> NodeWithin(s.nodes[i], l))
    && (forall c :: 0 <= c < |s.chans| ==> ChunksWithin(s.chans[c].queue, l))
    && ChunksWithin(s.delivered, l) && ChainWithin(s.chain, l)
    && (Pending(s) || ((s.ctl.Interrupting? || s.ctl.Awaiting?) && s.ctl.op.Updating?) ==> l.kinds(s.ctl.op.toxic.kind))
  }

  /** The limits as they bind the source and the operations. */
  predicate Respects(a: Action, l: Limits) {
    match a
    case SourceWrite(c) => |c| <= l.size
    case BeginAdd(toxic) => l.kinds(toxic.kind)
    case BeginUpdate(_, toxic) => l.kinds(toxic.kind)
    case _ => true
  }

  lemma OfferWithin(n: Node, l: Limits)
    requires NodeWithin(n, l) && Offering(n)
    ensures |Offered(n)| <= l.size && NodeWithin(Sent(n), l)
  {
    var c, rest := Offered(n), if n.pc.Sending? then n.pc.rest else [];
    FlatAppend([c], Together(rest));
    FlatSingle(c);
  }

  lemma ReceiveWithin(n: Node, c: Chunk, to: Receiver, l: Limits)
    requires NodeWithin(n, l) && |c| <= l.size && to.ToStub?
    ensures NodeWithin(n.(pc := OnReceive(n.pipe, c, to.draws)), l)
    ensures NodeWithin(n.(pc := Flushing(c)), l)
  {
    FlatSingle(c);
    if n.pipe.Slice? {
      var pc := OnReceive(n.pipe, c, to.draws);
      assert [pc.chunk] + pc.rest == LinkState.Slicer.Pieces(n.pipe.settings, c, to.draws);
      FlatAppend([pc.chunk], pc.rest);
      FlatAppend([pc.chunk], Together(pc.rest));
    }
  }

  lemma WaitWithin(n: Node, l: Limits)
    requires NodeWithin(n, l) && PipeOk(n.pipe, n.pc)
    ensures n.pc.Delaying? ==> NodeWithin(n.(pc := OnTimer(n.pipe, n.pc.rest)), l)
    ensures Interruptible(n) ==> NodeWithin(n.(pc := OnInterrupt(n.pc)), l)
  {
    if n.pc.Delaying? { HeldKept(n.pipe, n.pc); }
  }

  /** A step that changes one node and one channel. */
  lemma OneWithin(s: State, s': State, i: nat, c: nat, l: Limits)
    requires Within(s, l) && i < |s.nodes| == |s'.nodes| && |s'.chans| == |s.chans|
    requires s'.nodes == s.nodes[i := s'.nodes[i]] && NodeWithin(s'.nodes[i], l)
    requires c < |s.chans| && s'.chans == s.chans[c := s'.chans[c]] && ChunksWithin(s'.chans[c].queue, l)
    requires s'.delivered == s.delivered && s'.chain == s.chain
    requires Pending(s') || ((s'.ctl.Interrupting? || s'.ctl.Awaiting?) && s'.ctl.op.Updating?) ==> s'.ctl == s.ctl || l.kinds(s'.ctl.op.toxic.kind)
    ensures Within(s', l)
  {
  }

  lemma DeliverWithin(s: State, to: Receiver, c: Chunk, l: Limits)
    requires Within(s, l) && Ready(s, to) && |c| <= l.size && s.chans != []
    ensures Within(Deliver(s, to, c), l)
  {
    if to.ToStub? {
      ReceiveWithin(s.nodes[to.i], c, to, l);
      OneWithin(s, Deliver(s, to, c), to.i, 0, l);
    } else if to.ToDrain? {
      FlatSingle(c);
      OneWithin(s, Deliver(s, to, c), s.ctl.index + 1, 0, l);
    }
  }

  lemma WithinByQueued(s: State, to: Receiver, l: Limits)
    requires Within(s, l) && Enabled(s, Queued(to))
    ensures Within(Apply(s, Queued(to)), l)
  {
    var c := Source(s, to);
    var s1 := TakeOut(s, c);
    assert ChunksWithin(s.chans[c].queue, l);
    if s.nodes != [] { OneWithin(s, s1, 0, c, l); } else { assert Within(s1, l); }
    DeliverWithin(s1, to, s.chans[c].queue[0], l);
  }

  lemma WithinByDirect(s: State, to: Receiver, i: nat, l: Limits)
    requires Within(s, l) && Enabled(s, Direct(to, i)) && !Panics(s, Direct(to, i))
    ensures Within(Apply(s, Direct(to, i)), l)
  {
    OfferWithin(s.nodes[i], l);
    var s1 := SetNode(s, i, Sent(s.nodes[i]));
    OneWithin(s, s1, i, 0, l);
    DeliverWithin(s1, to, Offered(s.nodes[i]), l);
  }

  lemma WithinByNil(s: State, to: Receiver, l: Limits)
    requires Within(s, l) && Enabled(s, Nil(to)) && !Panics(s, Nil(to))
    ensures Within(DeliverNil(s, to), l)
  {
    if to.ToStub? { WithinByNilStub(s, to, l); }
    else if to.ToDrain? { WithinByNilDrain(s, l); }
  }

  lemma WithinByNilStub(s: State, to: Receiver, l: Limits)
    requires Within(s, l) && Enabled(s, Nil(to)) && to.ToStub?
    ensures Within(DeliverNil(s, to), l)
  {
    assert NodeWithin(s.nodes[to.i], l) && ChunksWithin(s.chans[0].queue, l);
    OneWithin(s, DeliverNil(s, to), to.i, 0, l);
  }

  lemma WithinByNilDrain(s: State, l: Limits)
    requires Within(s, l) && Enabled(s, Nil(ToDrain))
    ensures Within(DeliverNil(s, ToDrain), l)
  {
    var i := s.ctl.index + 1;
    assert NodeWithin(s.nodes[i], l) && ChunksWithin(s.chans[s.nodes[i].output].queue, l);
    OneWithin(s, DeliverNil(s, ToDrain), i, s.nodes[i].output, l);
  }

  lemma WithinByDeposit(s: State, i: nat, l: Limits)
    requires Within(s, l) && Enabled(s, Deposit(i))
    ensures Within(PutIn(s, i), l)
  {
    OfferWithin(s.nodes[i], l);
    OneWithin(s, PutIn(s, i), i, s.nodes[i].output, l);
  }

  lemma WithinByPipe(s: State, a: Action, l: Limits)
    requires Within(s, l) && PipesOk(s) && s.chans != [] && Respects(a, l) && Enabled(s, a) && !Panics(s, a)
    requires a.SourceWrite? || a.SourceClose? || a.Start? || a.Timer? || a.CloseOutput? || a.Exit? || a.Timeout?
    ensures Within(Apply(s, a), l)
  {
    if a.SourceClose? || a.CloseOutput? { WithinByClose(s, a, l); } else { WithinByNode(s, a, l); }
  }

  lemma WithinByClose(s: State, a: Action, l: Limits)
    requires Within(s, l) && Enabled(s, a) && !Panics(s, a) && (a.SourceClose? || a.CloseOutput?)
    ensures Within(Apply(s, a), l)
  {
    var i := if a.SourceClose? then 0 else a.i;
    assert ChunksWithin(s.chans[s.nodes[i].output].queue, l);
    OneWithin(s, Apply(s, a), i, s.nodes[i].output, l);
  }

  lemma WithinByNode(s: State, a: Action, l: Limits)
    requires Within(s, l) && PipesOk(s) && s.chans != [] && Respects(a, l) && Enabled(s, a) && !Panics(s, a)
    requires a.SourceWrite? || a.Start? || a.Timer? || a.Exit? || a.Timeout?
    ensures Within(Apply(s, a), l)
  {
    var i := if a.SourceWrite? then 0 else a.i;
    assert ChunksWithin(s.chans[0].queue, l);
    WaitWithin(s.nodes[i], l);
    if a.SourceWrite? { FlatSingle(a.chunk); }
    if a.Timeout? { OfferWithin(s.nodes[i], l); }
    OneWithin(s, Apply(s, a), i, 0, l);
  }

  lemma WithinByInterrupt(s: State, a: Action, l: Limits)
    requires Within(s, l) && PipesOk(s) && s.chans != [] && Enabled(s, a) && (a.Accept? || a.HelperAccept?)
    ensures Within(Apply(s, a), l)
  {
    var i := if a.Accept? then Target(s, s.ctl.op) else s.helper.node;
    WaitWithin(s.nodes[i], l);
    OneWithin(s, Apply(s, a), i, 0, l);
  }

  lemma WithinByBegin(s: State, a: Action, l: Limits)
    requires Within(s, l) && Respects(a, l) && Enabled(s, a) && !Panics(s, a) && (a.BeginUpdate? || a.BeginRemove?)
    ensures Within(Apply(s, a), l)
  {
  }

  lemma WithinByAppend(s: State, toxic: Toxic, l: Limits)
    requires Within(s, l) && l.kinds(toxic.kind) && s.nodes != []
    ensures Within(Append(s, toxic), l)
  {
    assert NodeWithin(Append(s, toxic).nodes[|s.nodes|], l);
  }

  lemma WithinByControl(s: State, a: Action, l: Limits)
    requires Within(s, l) && Enabled(s, a) && !Panics(s, a)
    requires a.HelperRefuse? || a.HelperStopped? || a.StopReceived? || a.Refuse? || (a.Resume? && !s.ctl.op.Adding?)
    ensures Within(Apply(s, a), l)
  {
  }

  lemma WithinByConnect(s: State, l: Limits)
    requires Within(s, l) && |s.nodes| >= 3 && !ChainTooShort(s) && Pending(s)
    ensures Within(Connect(s, s.ctl.op.toxic), l)
  {
    var s' := Connect(s, s.ctl.op.toxic);
    forall j | 0 <= j < |s'.nodes| ensures NodeWithin(s'.nodes[j], l) {
      ConnectNode(s, j);
      assert NodeWithin(s.nodes[j], l);
    }
  }

  lemma WithinByFinish(s: State, k: nat, l: Limits)
    requires Within(s, l) && 1 <= k && k + 1 < |s.nodes| && k - 1 < |s.chain|
    ensures Within(Disconnect(s, k), l)
  {
    var s' := Disconnect(s, k);
    forall j | 0 <= j < |s'.nodes| ensures NodeWithin(s'.nodes[j], l) {
      FinishNode(s, k, j);
      assert NodeWithin(s.nodes[if j <= k then j else j + 1], l);
    }
  }

  lemma WithinByData(s: State, a: Action, l: Limits)
    requires Inv(s) && PipesOk(s) && Within(s, l) && Respects(a, l) && Enabled(s, a) && !Panics(s, a)
      && !ByController(a)
    ensures Within(Apply(s, a), l)
  {
    match a
    case Queued(to) => WithinByQueued(s, to, l);
    case Direct(to, i) => WithinByDirect(s, to, i, l);
    case Nil(to) => WithinByNil(s, to, l);
    case Deposit(i) => WithinByDeposit(s, i, l);
    case _ => WithinByPipe(s, a, l);
  }

  lemma WithinByController(s: State, a: Action, l: Limits)
    requires Inv(s) && PipesOk(s) && Within(s, l) && Respects(a, l) && Enabled(s, a) && !Panics(s, a) && ByController(a)
    ensures Within(Apply(s, a), l)
  {
    if a.BeginAdd? { WithinByAppend(s, a.toxic, l); }
    else if a.Accept? || a.HelperAccept? { WithinByInterrupt(s, a, l); }
    else if a.Finish? { WithinByFinish(s, s.ctl.index, l); }
    else if a.BeginUpdate? || a.BeginRemove? { WithinByBegin(s, a, l); }
    else if a.Resume? && s.ctl.op.Adding? { WithinByConnect(s, l); }
    else { WithinByControl(s, a, l); }
  }

  lemma WithinKept(s: State, a: Action, s': State, l: Limits)
    requires Inv(s) && PipesOk(s) && Within(s, l) && Respects(a, l) && Next(s, a, s')
    ensures Within(s', l)
  {
    if ByController(a) { WithinByController(s, a, l); } else { WithinByData(s, a, l); }
  }
}
