/** What holds in every state of every run of a link, however its goroutines and the operations on
    it interleave. */
module LinkTheorems {
  import opened Streams
  import opened LinkState
  import opened LinkInvariant
  import opened LinkFlow
  import opened LinkEffect
  import opened LinkSteps
  import opened LinkLossless
  import opened LinkClose
  import opened LinkAlign
  import opened LinkLimits

  /** Who may do what, and where the stubs are. */
  ghost predicate Sound(s: State) { Inv(s) && PipesOk(s) && Aligned(s) }

  /** Where the data is. */
  ghost predicate Balanced(s: State) { Books(s) && FrontBooks(s) && ClosedInOrder(s) }

  ghost predicate Good(s: State) { Sound(s) && Balanced(s) }

  lemma GoodAtStart(chain: seq<Toxic>)
    requires chain != []
    ensures Good(Build(chain))
  {
    InvAtStart(chain);
    EmptyAtStart(chain);
    OpenAtStart(chain);
    AlignedAtStart(chain);
  }

  lemma OpenAtStart(chain: seq<Toxic>)
    requires chain != []
    ensures ClosedInOrder(Build(chain))
  {
    var s := Build(chain);
    BuiltNode(chain, 0);
    forall i | 0 <= i <= s.spine ensures !Ended(s, i) { if i < s.spine { BuiltNode(chain, i); } }
  }

  lemma AlignedAtStart(chain: seq<Toxic>)
    requires chain != []
    ensures Aligned(Build(chain))
  {
    var s := Build(chain);
    BuiltNode(chain, 0);
    BuiltNode(chain, |chain|);
    forall j | 0 <= j < |chain| ensures InPlace(s, j) { BuiltNode(chain, j); BuiltNode(chain, j + 1); }
  }

  lemma SoundKept(s: State, a: Action, s': State)
    requires Sound(s) && Next(s, a, s')
    ensures Sound(s') && GoodStep(s, a, s')
  {
    InvKept(s, a, s');
    PipesKept(s, a, s');
    AlignedKept(s, a, s');
  }

  lemma BalanceKept(s: State, a: Action, s': State)
    requires GoodStep(s, a, s') && Balanced(s)
    ensures Balanced(s')
  {
    var change := StepEffect(s, a, s');
    BooksKept(s, a, s', change);
    ClosedKept(s, a, s', change);
    FrontBooksKept(s, a, s', change);
  }

  lemma GoodFirst(states: seq<State>, actions: seq<Action>)
    requires IsRun(states, actions)
    ensures Good(states[0])
  {
    GoodAtStart(states[0].chain);
  }

  lemma SoundStep(states: seq<State>, actions: seq<Action>, i: nat)
    requires IsPath(states, actions) && 1 <= i < |states| && Sound(states[i - 1])
    ensures Sound(states[i]) && GoodStep(states[i - 1], actions[i - 1], states[i])
  {
    assert StepAt(states, actions, i - 1);
    SoundKept(states[i - 1], actions[i - 1], states[i]);
  }

  lemma {:induction false} SoundAlongPath(states: seq<State>, actions: seq<Action>, i: nat)
    requires IsPath(states, actions) && i < |states| && Sound(states[0])
    ensures Sound(states[i])
  {
    if i > 0 {
      SoundAlongPath(states, actions, i - 1);
      SoundStep(states, actions, i);
    }
  }

  lemma BalanceStep(states: seq<State>, actions: seq<Action>, i: nat)
    requires IsPath(states, actions) && 1 <= i < |states| && Sound(states[0]) && Balanced(states[i - 1])
    ensures Balanced(states[i])
  {
    SoundAlongPath(states, actions, i - 1);
    SoundStep(states, actions, i);
    BalanceKept(states[i - 1], actions[i - 1], states[i]);
  }

  lemma {:induction false} BalanceAlongPath(states: seq<State>, actions: seq<Action>, i: nat)
    requires IsPath(states, actions) && i < |states| && Sound(states[0]) && Balanced(states[0])
    ensures Balanced(states[i])
  {
    if i > 0 {
      BalanceAlongPath(states, actions, i - 1);
      BalanceStep(states, actions, i);
    }
  }

  lemma GoodAlongRun(states: seq<State>, actions: seq<Action>, i: nat)
    requires IsRun(states, actions) && i < |states|
    ensures Good(states[i])
  {
    GoodFirst(states, actions);
    SoundAlongPath(states, actions, i);
    BalanceAlongPath(states, actions, i);
  }

  /** The bytes on their way, from the output end to the input end. */
  ghost function InFlight(s: State): seq<Byte> { Flat(Flow(Cells(s), true)) }

  lemma LineFlat(s: State)
    ensures Flat(Line(s)) == Flat(s.delivered) + InFlight(s)
    ensures Flat(s.delivered) <= Flat(FrontLine(s))
  {
    FlatAppend(s.delivered, Flow(Cells(s), true));
    FlatAppend(s.delivered, Flow(Cells(s), false));
  }

  /** Lossless live reconfiguration: while no WriteOutput has timed out and no reset_peer has
      discarded a chunk, the bytes delivered and those in flight are exactly the bytes written. */
  lemma Lossless(states: seq<State>, actions: seq<Action>, i: nat)
    requires IsRun(states, actions) && i < |states| && states[i].dropped == [] && states[i].discarded == []
    ensures Flat(states[i].delivered) + InFlight(states[i]) == Flat(states[i].written)
  {
    GoodAlongRun(states, actions, i);
    NothingLost(states[i]);
    LineFlat(states[i]);
  }

  /** With both kinds of loss, what was written falls into pieces that are, each as a whole, a chunk
      delivered or in flight, in order, or one of the chunks that the two loss logs have, each once.
      Read as bytes, it is an order-preserving merge of the two. */
  lemma AllAccountedFor(states: seq<State>, actions: seq<Action>, i: nat)
    returns (pieces: seq<Chunk>, lost: seq<Chunk>)
    requires IsRun(states, actions) && i < |states|
    ensures var s := states[i];
      && Flat(pieces) == Flat(s.written) && Merge(pieces, Line(s), lost)
      && multiset(lost) == multiset(s.dropped) + multiset(s.discarded)
      && Merge(Flat(s.written), Flat(s.delivered) + InFlight(s), Flat(lost))
  {
    GoodAlongRun(states, actions, i);
    LineFlat(states[i]);
    pieces, lost :| Accounted(states[i], pieces, lost);
    MergeFlat(pieces, Line(states[i]), lost);
  }

  /** reset_peer cuts the stream off but never reorders it or leaves a hole in it. */
  lemma DeliveredIsPrefix(states: seq<State>, actions: seq<Action>, i: nat)
    requires IsRun(states, actions) && i < |states| && states[i].dropped == []
    ensures Flat(states[i].delivered) <= Flat(states[i].written)
  {
    GoodAlongRun(states, actions, i);
    LineFlat(states[i]);
  }

  // ---- end of stream --------------------------------------------------------------------------------------

  lemma {:induction false} DryBehind(s: State, k: int)
    requires Wiring(s) && ClosedInOrder(s) && s.discarded == [] && 0 <= k <= s.spine && Ended(s, k)
    ensures forall i :: 0 <= i < k ==> Dry(s, i)
  {
    if k > 0 {
      assert Dry(s, k - 1);
      DryBehind(s, k - 1);
    }
  }

  /** Unless a reset_peer has discarded something, a closed stub has only closed stubs before it and
      only closed and drained channels, back to the source. */
  lemma ClosedOnlyBehindClosed(states: seq<State>, actions: seq<Action>, i: nat, k: nat)
    requires IsRun(states, actions) && i < |states| && states[i].discarded == []
    requires k < states[i].spine && k < |states[i].nodes| && states[i].nodes[k].closed
    ensures forall j :: 0 <= j < k ==> Dry(states[i], j)
  {
    GoodAlongRun(states, actions, i);
    DryBehind(states[i], k);
  }

  /** When the sink sees the end of the stream, every byte written has been delivered or is in the
      log of timeouts, unless a reset_peer has discarded something. */
  lemma EndOfStream(states: seq<State>, actions: seq<Action>, i: nat) returns (lost: seq<Chunk>)
    requires IsRun(states, actions) && i < |states| && states[i].sinkDone && states[i].discarded == []
    ensures states[i].nodes != [] && states[i].nodes[0].closed
    ensures InFlight(states[i]) == [] && Line(states[i]) == states[i].delivered
    ensures Merge(Flat(states[i].written), Flat(states[i].delivered), Flat(lost))
    ensures multiset(lost) == multiset(states[i].dropped)
    ensures states[i].dropped == [] ==> Flat(states[i].delivered) == Flat(states[i].written)
  {
    var s := states[i];
    GoodAlongRun(states, actions, i);
    NothingInFlight(s);
    var pieces: seq<Chunk>;
    pieces, lost := AllAccountedFor(states, actions, i);
    assert Flat(s.delivered) + [] == Flat(s.delivered);
    if s.dropped == [] { Lossless(states, actions, i); }
  }

  lemma NothingInFlight(s: State)
    requires Wiring(s) && ClosedInOrder(s) && s.sinkDone && s.discarded == []
    ensures s.nodes[0].closed && InFlight(s) == [] && Line(s) == s.delivered
  {
    DryBehind(s, s.spine);
    forall j | 0 <= j < s.spine ensures Cells(s)[j].queue == [] && Cells(s)[j].held == [] { assert Dry(s, j); }
    assert Dry(s, 0);
    EmptyFlow(Cells(s), true);
    assert s.delivered + [] == s.delivered;
  }


  // ---- chunk boundaries -----------------------------------------------------------------------------------

  lemma StepKeepsChunks(s: State, a: Action, s': State)
    requires GoodStep(s, a, s') && !Recuts(s, a) && s'.dropped == [] && s'.discarded == []
    ensures s.dropped == [] && s.discarded == [] && (Line(s) == s.written ==> Line(s') == s'.written)
  {
    var change := StepEffect(s, a, s');
  }

  lemma GoodStepAt(states: seq<State>, actions: seq<Action>, i: nat)
    requires IsRun(states, actions) && i < |actions|
    ensures GoodStep(states[i], actions[i], states[i + 1])
  {
    GoodAlongRun(states, actions, i);
    GoodAlongRun(states, actions, i + 1);
    assert StepAt(states, actions, i);
  }

  /** While no bandwidth timer and no slicer has handled data, and nothing is lost, the chunks
      delivered and in flight are the chunks written, one by one. */
  lemma {:induction false} ChunksKept(states: seq<State>, actions: seq<Action>, i: nat)
    requires IsRun(states, actions) && i < |states| && states[i].dropped == [] && states[i].discarded == []
    requires forall j :: 0 <= j < i ==> Uncut(states, actions, j)
    ensures Line(states[i]) == states[i].written
  {
    if i == 0 {
      EmptyLineAtStart(states[0].chain);
    } else {
      assert Uncut(states, actions, i - 1);
      ChunksKeptAt(states, actions, i - 1);
      ChunksKept(states, actions, i - 1);
    }
  }

  /** Step j does not recut data. */
  ghost predicate Uncut(states: seq<State>, actions: seq<Action>, j: nat)
    requires j < |actions| && |states| == |actions| + 1
  {
    StepAt(states, actions, j) && !Recuts(states[j], actions[j])
  }

  lemma ChunksKeptAt(states: seq<State>, actions: seq<Action>, j: nat)
    requires IsRun(states, actions) && j < |actions| && Uncut(states, actions, j)
    requires states[j + 1].dropped == [] && states[j + 1].discarded == []
    ensures states[j].dropped == [] && states[j].discarded == []
    ensures Line(states[j]) == states[j].written ==> Line(states[j + 1]) == states[j + 1].written
  {
    GoodStepAt(states, actions, j);
    StepKeepsChunks(states[j], actions[j], states[j + 1]);
  }

  lemma EmptyLineAtStart(chain: seq<Toxic>)
    requires chain != []
    ensures Line(Build(chain)) == [] == Build(chain).written
  {
    EmptyAtStart(chain);
  }

  // ---- ownership ------------------------------------------------------------------------------------------

  /** The node has a goroutine, or the controller is sending on its behalf. */
  predicate Alive(n: Node) { !n.pc.Stopped? }

  /** No two goroutines send on the same channel, and no two receive from the same channel. */
  lemma OneSenderOneReceiver(states: seq<State>, actions: seq<Action>, i: nat, j: nat, k: nat)
    requires IsRun(states, actions) && i < |states|
    requires j < k < |states[i].nodes| && Alive(states[i].nodes[j]) && Alive(states[i].nodes[k])
    ensures states[i].nodes[j].output != states[i].nodes[k].output
    ensures j > 0 ==> states[i].nodes[j].input != states[i].nodes[k].input
    ensures states[i].nodes[k].input != states[i].outChan
  {
    var s := states[i];
    GoodAlongRun(states, actions, i);
    SinkReadsAlone(states, actions, i, k);
    assert k < s.spine;
    if j > 0 {
      assert s.nodes[j].input == s.nodes[j - 1].output && s.nodes[k].input == s.nodes[k - 1].output;
      assert s.nodes[j - 1].output != s.nodes[k - 1].output;
    }
  }

  /** No stub with a goroutine reads the channel that the sink reads, or writes the one that it reads. */
  lemma SinkReadsAlone(states: seq<State>, actions: seq<Action>, i: nat, j: nat)
    requires IsRun(states, actions) && i < |states| && 1 <= j < |states[i].nodes| && Alive(states[i].nodes[j])
    ensures states[i].nodes[j].input != states[i].outChan && states[i].nodes[j].input != states[i].nodes[j].output
  {
    var s := states[i];
    GoodAlongRun(states, actions, i);
    assert j < s.spine;
    assert s.nodes[j].input == s.nodes[j - 1].output;
    assert s.nodes[j - 1].output != s.nodes[s.spine - 1].output;
    assert s.nodes[j - 1].output != s.nodes[j].output;
  }

  /** While RemoveToxic empties a stub's input no other goroutine receives from it. */
  lemma DrainedByOne(states: seq<State>, actions: seq<Action>, i: nat, j: nat)
    requires IsRun(states, actions) && i < |states| && InRemoval(states[i])
    requires 1 <= j < |states[i].nodes| && states[i].nodes[j].pc.Listening?
    ensures states[i].ctl.index + 1 < |states[i].nodes|
    ensures states[i].nodes[j].input != states[i].nodes[states[i].ctl.index + 1].input
    ensures states[i].outChan != states[i].nodes[states[i].ctl.index + 1].input
  {
    var s := states[i];
    GoodAlongRun(states, actions, i);
    var d := s.ctl.index + 1;
    assert NodeOk(s.nodes[d], ModeOf(s, d));
    assert j < s.spine && j != d;
    assert s.nodes[j].input == s.nodes[j - 1].output && s.nodes[d].input == s.nodes[d - 1].output;
    if j < d { assert s.nodes[j - 1].output != s.nodes[d - 1].output; } else { assert s.nodes[d - 1].output != s.nodes[j - 1].output; }
    assert s.nodes[d - 1].output != s.nodes[s.spine - 1].output;
  }

  // ---- a live edit is a rebuild -----------------------------------------------------------------------------

  /** Where the channels of the link that NewToxicLink would build are in this one. */
  ghost function Renaming(s: State): seq<nat> { seq(|s.nodes|, i requires 0 <= i < |s.nodes| => s.nodes[i].output) }

  /** s has the stubs and channels of t, up to the names of the channels, each stub with the same
      toxic and each channel with the same capacity. */
  ghost predicate SameLink(s: State, t: State, names: seq<nat>) {
    && |s.nodes| == |t.nodes| == |names| && t.outChan < |names| && s.outChan == names[t.outChan]
    && (forall i, j :: 0 <= i < j < |names| ==> names[i] != names[j])
    && (forall i :: 0 <= i < |names| ==> SameStub(s, t, names, i))
  }

  ghost predicate SameStub(s: State, t: State, names: seq<nat>, i: nat)
    requires i < |names| == |s.nodes| == |t.nodes|
  {
    var m, n := s.nodes[i], t.nodes[i];
    && n.output < |names| && m.output == names[n.output]
    && m.output < |s.chans| && n.output < |t.chans| && s.chans[m.output].capacity == t.chans[n.output].capacity
    && (i > 0 ==> n.input < |names| && m.input == names[n.input] && m.toxic == n.toxic)
  }

  lemma OffSpineClosed(s: State, i: nat)
    requires NodesOk(s) && s.ctl.Idle? && 0 <= s.spine <= i < |s.nodes|
    ensures s.nodes[i].closed
  {
    assert NodeOk(s.nodes[i], ModeOf(s, i));
  }

  lemma SpineIsAll(s: State)
    requires Inv(s) && NoneClosed(s) && s.ctl.Idle?
    ensures s.spine == |s.nodes|
  {
    if s.spine < |s.nodes| { OffSpineClosed(s, s.spine); }
  }

  /** After any sequence of AddToxic, UpdateToxic and RemoveToxic, with data flowing, a link with no
      closed stub is the link that NewToxicLink would build from the current chain. */
  lemma LiveEditIsRebuild(states: seq<State>, actions: seq<Action>, i: nat)
    requires IsRun(states, actions) && i < |states| && states[i].ctl.Idle? && NoneClosed(states[i])
    ensures states[i].chain != [] && SameLink(states[i], Build(states[i].chain), Renaming(states[i]))
    ensures states[i].nodes[0].output == 0
  {
    GoodAlongRun(states, actions, i);
    RebuildSame(states[i]);
  }

  lemma RebuildSame(s: State)
    requires Inv(s) && Aligned(s) && s.ctl.Idle? && NoneClosed(s)
    ensures SameLink(s, Build(s.chain), Renaming(s))
  {
    var t := Build(s.chain);
    var names := Renaming(s);
    SpineIsAll(s);
    BuiltNode(s.chain, |s.chain|);
    forall i, j | 0 <= i < j < |names| ensures names[i] != names[j] { assert s.nodes[i].output != s.nodes[j].output; }
    forall i | 0 <= i < |names| ensures SameStub(s, t, names, i) {
      BuiltNode(s.chain, i);
      if i > 0 {
        assert s.nodes[i].input == s.nodes[i - 1].output;
        assert InPlace(s, i - 1);
      }
      if i + 1 < |names| {
        assert s.nodes[i + 1].input == s.nodes[i].output;
        assert InPlace(s, i);
      }
    }
  }

  /** Once every toxic but the noop has been removed, a link with no closed stub is one noop stub
      between the channels it was built with. */
  lemma ResetLink(states: seq<State>, actions: seq<Action>, i: nat)
    requires IsRun(states, actions) && i < |states| && states[i].ctl.Idle? && NoneClosed(states[i])
    requires |states[i].chain| == 1
    ensures var s := states[i];
      && |s.nodes| == 2 && s.nodes[1].toxic == s.chain[0]
      && s.nodes[1].input == 0 && s.nodes[1].output == s.outChan == states[0].outChan
  {
    LiveEditIsRebuild(states, actions, i);
    GoodAlongRun(states, actions, i);
    SpineIsAll(states[i]);
    assert InPlace(states[i], 0);
    assert states[i].nodes[1].input == states[i].nodes[0].output;
    OutputFixed(states, actions, i);
  }

  lemma {:induction false} OutputFixed(states: seq<State>, actions: seq<Action>, i: nat)
    requires IsRun(states, actions) && i < |states|
    ensures states[i].outChan == states[0].outChan
  {
    if i > 0 {
      OutputFixed(states, actions, i - 1);
      assert StepAt(states, actions, i - 1);
      OutputKept(states[i - 1], actions[i - 1], states[i]);
    }
  }

  lemma OutputKept(s: State, a: Action, s': State)
    requires Next(s, a, s')
    ensures s'.outChan == s.outChan
  {
  }

  /** The chain of a link's direction is never longer than its stubs, so that the toxic that
      UpdateToxic or RemoveToxic is given always has a stub at its index, and one before it. */
  lemma IndexInRange(states: seq<State>, actions: seq<Action>, i: nat, index: nat)
    requires IsRun(states, actions) && i < |states| && states[i].ctl.Idle? && index < |states[i].chain|
    ensures index + 1 < |states[i].nodes|
  {
    GoodAlongRun(states, actions, i);
  }

  /** In every run, whose bandwidth rates are not negative, the only step at which Go would panic is
      AddToxic's restart of the stub before the new one, and it does exactly when two or more stubs have
      stayed behind in the link after their toxics had left the chain. */
  lemma PanicsOnlyOnShortChain(states: seq<State>, actions: seq<Action>, i: nat, a: Action)
    requires IsRun(states, actions) && i < |states| && Enabled(states[i], a)
    ensures Panics(states[i], a) <==>
      a.Resume? && states[i].ctl.op.Adding? && |states[i].nodes| - 1 >= |states[i].chain| + 2
  {
    InvAlongRun(states, actions, i);
    PanicsExactlyWhen(states[i], a);
  }

  // ---- limits -------------------------------------------------------------------------------------------------

  /** A run whose chain, whose added and updated toxics and whose source reads keep to the limits. */
  ghost predicate LimitedRun(states: seq<State>, actions: seq<Action>, l: Limits) {
    && IsRun(states, actions) && l.kinds(Noop) && ChainWithin(states[0].chain, l)
    && forall j :: 0 <= j < |actions| ==> Respects(actions[j], l)
  }

  lemma {:induction false} WithinAlongRun(states: seq<State>, actions: seq<Action>, i: nat, l: Limits)
    requires LimitedRun(states, actions, l) && i < |states|
    ensures Within(states[i], l)
  {
    if i == 0 {
      WithinAtStart(states[0].chain, l);
    } else {
      WithinAlongRun(states, actions, i - 1, l);
      WithinStep(states, actions, i - 1, l);
    }
  }

  lemma WithinStep(states: seq<State>, actions: seq<Action>, i: nat, l: Limits)
    requires LimitedRun(states, actions, l) && i < |actions| && Within(states[i], l)
    ensures Within(states[i + 1], l)
  {
    GoodAlongRun(states, actions, i);
    assert StepAt(states, actions, i);
    WithinKept(states[i], actions[i], states[i + 1], l);
  }

  lemma WithinAtStart(chain: seq<Toxic>, l: Limits)
    requires chain != [] && l.kinds(Noop) && ChainWithin(chain, l)
    ensures Within(Build(chain), l)
  {
    var s := Build(chain);
    forall i | 0 <= i < |chain| + 1 ensures NodeWithin(s.nodes[i], l) && ChunksWithin(s.chans[i].queue, l) { BuiltNode(chain, i); }
    BuiltNode(chain, 0);
  }

  /** Where no reset_peer may run, none discards. */
  lemma {:induction false} NoResetNoDiscard(states: seq<State>, actions: seq<Action>, i: nat, l: Limits)
    requires LimitedRun(states, actions, l) && i < |states| && !l.kinds(ResetPeer)
    ensures states[i].discarded == []
  {
    if i > 0 {
      NoResetNoDiscard(states, actions, i - 1, l);
      WithinAlongRun(states, actions, i - 1, l);
      assert StepAt(states, actions, i - 1);
      DiscardNeedsReset(states[i - 1], actions[i - 1], states[i], l);
    }
  }

  lemma DiscardNeedsReset(s: State, a: Action, s': State, l: Limits)
    requires Within(s, l) && !l.kinds(ResetPeer) && Next(s, a, s')
    ensures s'.discarded == s.discarded
  {
    if a.Queued? { DeliverParts(TakeOut(s, Source(s, a.to)), a.to, s.chans[Source(s, a.to)].queue[0]); }
    else if a.Direct? { DeliverParts(SetNode(s, a.i, Sent(s.nodes[a.i])), a.to, Offered(s.nodes[a.i])); }
    else { DiscardsReceive(s, a, s'); }
  }

  lemma {:induction false} NoTimeoutNoDrop(states: seq<State>, actions: seq<Action>, i: nat)
    requires IsRun(states, actions) && i < |states| && forall j :: 0 <= j < i ==> !actions[j].Timeout?
    ensures states[i].dropped == []
  {
    if i > 0 {
      NoTimeoutNoDrop(states, actions, i - 1);
      GoodStepAt(states, actions, i - 1);
      DropNeedsTimeout(states[i - 1], actions[i - 1], states[i]);
    }
  }

  lemma DropNeedsTimeout(s: State, a: Action, s': State)
    requires GoodStep(s, a, s') && !a.Timeout?
    ensures s'.dropped == s.dropped
  {
    var change := StepEffect(s, a, s');
  }

  /** In a run without reset_peer toxics in which no WriteOutput times out nothing is ever lost. */
  lemma LosslessWithoutReset(states: seq<State>, actions: seq<Action>, i: nat, l: Limits)
    requires LimitedRun(states, actions, l) && i < |states| && !l.kinds(ResetPeer)
    requires forall j :: 0 <= j < i ==> !actions[j].Timeout?
    ensures Flat(states[i].delivered) + InFlight(states[i]) == Flat(states[i].written)
    ensures states[i].sinkDone ==> Flat(states[i].delivered) == Flat(states[i].written)
  {
    NoResetNoDiscard(states, actions, i, l);
    NoTimeoutNoDrop(states, actions, i);
    Lossless(states, actions, i);
    if states[i].sinkDone { var lost := EndOfStream(states, actions, i); }
  }

  /** Datagram boundaries: if moreover neither bandwidth nor slicer may run, the chunks delivered and
      in flight are the chunks written; whatever runs, no chunk outgrows a source read. */
  lemma DatagramsSurvive(states: seq<State>, actions: seq<Action>, i: nat, l: Limits)
    requires LimitedRun(states, actions, l) && i < |states|
    ensures forall k :: 0 <= k < |states[i].delivered| ==> |states[i].delivered[k]| <= l.size
    ensures (forall k: Kind :: l.kinds(k) ==> k == Noop || k == Latency) && (forall j :: 0 <= j < i ==> !actions[j].Timeout?) ==>
      Line(states[i]) == states[i].written
  {
    WithinAlongRun(states, actions, i, l);
    if (forall k: Kind :: l.kinds(k) ==> k == Noop || k == Latency) && (forall j :: 0 <= j < i ==> !actions[j].Timeout?) {
      assert !l.kinds(ResetPeer);
      NoResetNoDiscard(states, actions, i, l);
      NoTimeoutNoDrop(states, actions, i);
      forall j | 0 <= j < i ensures Uncut(states, actions, j) {
        assert StepAt(states, actions, j);
        WithinAlongRun(states, actions, j, l);
        RecutNeedsCutter(states[j], actions[j], l);
      }
      ChunksKept(states, actions, i);
    }
  }

  lemma RecutNeedsCutter(s: State, a: Action, l: Limits)
    requires Within(s, l) && Enabled(s, a) && forall k: Kind :: l.kinds(k) ==> k == Noop || k == Latency
    ensures !Recuts(s, a)
  {
  }
}
