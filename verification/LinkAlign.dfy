/** A link edited while it runs agrees with the link that would be built from the chain. */
module LinkAlign {
  import opened Streams
  import opened LinkState
  import opened LinkInvariant

  /** No stub of the link is closed; the source may be. */
  ghost predicate NoneClosed(s: State) { forall i :: 1 <= i < |s.nodes| ==> !s.nodes[i].closed }

  /** The stub that RemoveToxic is about to take out. */
  function Leaving(s: State): int { if Removal(s) then RemovalIndex(s) else -1 }

  /** The stub whose toxic UpdateToxic is about to exchange. */
  function Changing(s: State): int {
    if (s.ctl.Interrupting? || s.ctl.Awaiting?) && s.ctl.op.Updating? then s.ctl.op.index else -1
  }

  /** The position in the chain of the toxic of stub j. */
  function Place(s: State, j: int): int { if Leaving(s) >= 0 && j > Leaving(s) then j - 1 else j }

  /** The capacity of the channel into the stub at position p: NewToxicLink's rule. */
  function Capacity(chain: seq<Toxic>, p: int): nat {
    if 0 < p < |chain| then chain[p].bufferSize else 0
  }

  /** Stub j has its toxic and its input the right size. */
  ghost predicate InPlace(s: State, j: int) {
    && 0 <= j && j + 1 < |s.nodes| && s.nodes[j + 1].input < |s.chans|
    && (j == Leaving(s) || (
          && 0 <= Place(s, j) < |s.chain|
          && s.chans[s.nodes[j + 1].input].capacity == Capacity(s.chain, Place(s, j))
          && (j == Changing(s) || s.nodes[j + 1].toxic == s.chain[Place(s, j)])))
  }

  /** The collection has changed the chain before it tells the link. */
  predicate OpInChain(s: State) {
    (s.ctl.Interrupting? || s.ctl.Awaiting?) ==>
      match s.ctl.op
      case Adding(toxic) => s.chain != [] && s.chain[|s.chain| - 1] == toxic
      case Updating(index, toxic) => index < |s.chain| && s.chain[index] == toxic
      case Removing(_) => true
  }

  ghost predicate Aligned(s: State) {
    && OpInChain(s)
    && s.outChan < |s.chans| && s.chans[s.outChan].capacity == 0
    && s.nodes != [] && s.nodes[0].output == 0
    && (NoneClosed(s) ==>
          && |s.nodes| == |s.chain| + (if Leaving(s) >= 0 then 2 else 1)
          && forall j :: 0 <= j < |s.nodes| - 1 ==> InPlace(s, j))
  }

  /** Channels keep their capacity for ever, and none disappears. */
  ghost predicate SameCapacities(s: State, s': State) {
    |s'.chans| >= |s.chans| && forall c :: 0 <= c < |s.chans| ==> s'.chans[c].capacity == s.chans[c].capacity
  }

  /** A step that changes neither the order of the stubs nor their toxics. */
  ghost predicate SamePlaces(s: State, s': State) {
    && |s'.nodes| == |s.nodes| && s'.chain == s.chain && s'.outChan == s.outChan
    && Leaving(s') == Leaving(s) && Changing(s') == Changing(s) && (OpInChain(s) ==> OpInChain(s'))
    && (forall i :: 0 <= i < |s.nodes| ==>
          && s'.nodes[i].input == s.nodes[i].input && s'.nodes[i].toxic == s.nodes[i].toxic
          && (s.nodes[i].closed ==> s'.nodes[i].closed))
    && (s.nodes != [] ==> s'.nodes[0].output == s.nodes[0].output)
  }

  lemma PlacesFrame(s: State, s': State)
    requires Aligned(s) && SamePlaces(s, s') && SameCapacities(s, s')
    ensures Aligned(s')
  {
    if NoneClosed(s') {
      assert NoneClosed(s);
      forall j | 0 <= j < |s'.nodes| - 1 ensures InPlace(s', j) { assert InPlace(s, j); }
    }
  }

  lemma DeliverPlaces(s: State, to: Receiver, c: Chunk)
    requires Ready(s, to)
    ensures SamePlaces(s, Deliver(s, to, c)) && Deliver(s, to, c).chans == s.chans
  {
  }

  lemma AlignedByQueued(s: State, to: Receiver, s': State)
    requires Aligned(s) && Next(s, Queued(to), s')
    ensures Aligned(s')
  {
    var s1 := TakeOut(s, Source(s, to));
    PlacesFrame(s, s1);
    DeliverPlaces(s1, to, s.chans[Source(s, to)].queue[0]);
    PlacesFrame(s1, s');
  }

  lemma AlignedByDirect(s: State, to: Receiver, i: nat, s': State)
    requires Aligned(s) && Next(s, Direct(to, i), s')
    ensures Aligned(s')
  {
    var s1 := SetNode(s, i, Sent(s.nodes[i]));
    PlacesFrame(s, s1);
    DeliverPlaces(s1, to, Offered(s.nodes[i]));
    PlacesFrame(s1, s');
  }

  lemma AlignedByNil(s: State, to: Receiver, s': State)
    requires Aligned(s) && Next(s, Nil(to), s')
    ensures Aligned(s')
  {
    if to.ToDrain? { AlignedByNilDrain(s, s'); }
    else { PlacesFrame(s, s'); }
  }

  lemma AlignedByNilDrain(s: State, s': State)
    requires Aligned(s) && Enabled(s, Nil(ToDrain)) && s' == DeliverNil(s, ToDrain)
    ensures Aligned(s')
  {
    assert s'.nodes[s.ctl.index + 1].closed;
    assert s'.nodes[0].output == s.nodes[0].output;
  }

  lemma AlignedByPipe(s: State, a: Action, s': State)
    requires Aligned(s) && Next(s, a, s') && !(a.Queued? || a.Direct? || a.Nil?) && !ByController(a)
    ensures Aligned(s')
  {
    if a.Deposit? || a.CloseOutput? || a.SourceClose? { AlignedByChan(s, a, s'); } else { AlignedByNode(s, a, s'); }
  }

  lemma AlignedByChan(s: State, a: Action, s': State)
    requires Aligned(s) && Next(s, a, s') && (a.Deposit? || a.CloseOutput? || a.SourceClose?)
    ensures Aligned(s')
  {
    PlacesFrame(s, s');
  }

  lemma AlignedByNode(s: State, a: Action, s': State)
    requires Aligned(s) && Next(s, a, s') && (a.SourceWrite? || a.Start? || a.Timer? || a.Exit? || a.Timeout?)
    ensures Aligned(s')
  {
    var i := if a.SourceWrite? then 0 else a.i;
    assert s'.nodes == s.nodes[i := s'.nodes[i]] && s'.chans == s.chans;
    PlacesFrame(s, s');
  }

  lemma AlignedByHelper(s: State, a: Action, s': State)
    requires Aligned(s) && Next(s, a, s')
    requires a.Accept? || a.HelperAccept? || a.HelperRefuse? || a.HelperStopped?
    ensures Aligned(s')
  {
    PlacesFrame(s, s');
  }

  lemma AlignedByStop(s: State, s': State)
    requires ControlOk(s) && Aligned(s) && Next(s, StopReceived, s')
    ensures Aligned(s')
  {
    if s.ctl.AwaitingStop? {
      assert s'.nodes[s.ctl.index].closed;
    } else {
      PlacesFrame(s, s');
    }
  }

  lemma AlignedByRefuse(s: State, s': State)
    requires Wiring(s) && ControlOk(s) && PendingOk(s) && Aligned(s) && Next(s, Refuse, s')
    ensures Aligned(s')
  {
    var t := Target(s, s.ctl.op);
    assert s'.nodes[t].closed;
  }

  lemma AlignedByAppend(s: State, toxic: Toxic)
    requires Inv(s) && Aligned(s) && s.ctl.Idle?
    ensures Aligned(Append(s, toxic))
  {
    var s' := Append(s, toxic);
    if NoneClosed(s') {
      assert forall i :: 0 <= i < |s.nodes| ==> s'.nodes[i] == s.nodes[i];
      assert NoneClosed(s);
      forall j | 0 <= j < |s'.nodes| - 1 ensures InPlace(s', j) {
        if j < |s.nodes| - 1 { assert InPlace(s, j); }
      }
    }
  }

  lemma AlignedByBeginUpdate(s: State, index: nat, toxic: Toxic, s': State)
    requires Aligned(s) && Next(s, BeginUpdate(index, toxic), s')
    ensures Aligned(s')
  {
    if NoneClosed(s') {
      assert NoneClosed(s);
      forall j | 0 <= j < |s'.nodes| - 1 ensures InPlace(s', j) { assert InPlace(s, j); }
    }
  }

  lemma AlignedByBeginRemove(s: State, index: nat, s': State)
    requires Aligned(s) && Next(s, BeginRemove(index), s')
    ensures Aligned(s')
  {
    if NoneClosed(s') {
      assert NoneClosed(s);
      forall j | 0 <= j < |s'.nodes| - 1 ensures InPlace(s', j) { assert InPlace(s, j); }
    }
  }

  lemma AlignedByConnect(s: State, s': State)
    requires Inv(s) && Aligned(s) && Next(s, Resume, s') && s.ctl.op.Adding?
    ensures Aligned(s')
  {
    forall j | 0 <= j < |s.nodes| ensures
      && s'.nodes[j].input == s.nodes[j].input && s'.nodes[j].closed == s.nodes[j].closed
      && s'.nodes[j].toxic == (if j == |s.nodes| - 1 then s.ctl.op.toxic
                               else if j == |s.nodes| - 2 then s.chain[|s.nodes| - 3] else s.nodes[j].toxic)
    {
      ConnectNode(s, j);
    }
    ConnectPlaces(s, s');
  }

  lemma ConnectPlaces(s: State, s': State)
    requires Aligned(s) && Pending(s) && |s.nodes| >= 3 && |s.nodes| - 3 < |s.chain|
    requires s'.ctl == Idle && s'.chain == s.chain && s'.chans == s.chans && s'.outChan == s.outChan
    requires |s'.nodes| == |s.nodes| && s'.nodes[0].output == s.nodes[0].output
    requires forall j :: 0 <= j < |s.nodes| ==>
      && s'.nodes[j].input == s.nodes[j].input && s'.nodes[j].closed == s.nodes[j].closed
      && s'.nodes[j].toxic == (if j == |s.nodes| - 1 then s.ctl.op.toxic
                               else if j == |s.nodes| - 2 then s.chain[|s.nodes| - 3] else s.nodes[j].toxic)
    ensures Aligned(s')
  {
    if NoneClosed(s') {
      assert NoneClosed(s);
      forall j | 0 <= j < |s'.nodes| - 1 ensures InPlace(s', j) { assert InPlace(s, j); }
    }
  }

  lemma AlignedByResume(s: State, s': State)
    requires Inv(s) && Aligned(s) && Next(s, Resume, s') && !s.ctl.op.Adding?
    ensures Aligned(s')
  {
    if s.ctl.op.Updating? { RelaunchPlaces(s, s', s.ctl.op.index); } else { PlacesFrame(s, s'); }
  }

  lemma RelaunchPlaces(s: State, s': State, index: nat)
    requires Aligned(s) && s.ctl.Awaiting? && s.ctl.op.Updating? && index == s.ctl.op.index && index + 1 < |s.nodes|
    requires s' == Launch(s, index + 1, s.ctl.op.toxic).(ctl := Idle)
    ensures Aligned(s')
  {
    assert forall i :: 0 <= i < |s.nodes| ==>
      && s'.nodes[i].closed == s.nodes[i].closed && s'.nodes[i].input == s.nodes[i].input
      && s'.nodes[i].toxic == (if i == index + 1 then s.ctl.op.toxic else s.nodes[i].toxic);
    if NoneClosed(s') {
      assert NoneClosed(s);
      forall j | 0 <= j < |s'.nodes| - 1 ensures InPlace(s', j) { assert InPlace(s, j); }
    }
  }

  lemma AlignedByFinish(s: State, s': State)
    requires Inv(s) && Aligned(s) && Next(s, Finish, s')
    ensures Aligned(s')
  {
    var k := s.ctl.index;
    assert !s.nodes[k + 1].closed by { assert NodeOk(s.nodes[k + 1], ModeOf(s, k + 1)); }
    FinishedNodes(s, k);
    FinishPlaces(s, k, s');
  }

  lemma FinishedNodes(s: State, k: nat)
    requires 1 <= k && k + 1 < |s.nodes| && k - 1 < |s.chain|
    ensures var s' := Disconnect(s, k);
      && |s'.nodes| == |s.nodes| - 1 && s'.nodes[0].output == s.nodes[0].output
      && forall j :: 0 <= j < |s.nodes| - 1 ==>
           && s'.nodes[j].input == s.nodes[if j <= k then j else j + 1].input
           && s'.nodes[j].closed == s.nodes[if j <= k then j else j + 1].closed
           && s'.nodes[j].toxic == (if j == k then s.chain[k - 1] else s.nodes[if j <= k then j else j + 1].toxic)
  {
    var s' := Disconnect(s, k);
    FinishNode(s, k, 0);
    forall j | 0 <= j < |s.nodes| - 1 ensures
      && s'.nodes[j].input == s.nodes[if j <= k then j else j + 1].input
      && s'.nodes[j].closed == s.nodes[if j <= k then j else j + 1].closed
      && s'.nodes[j].toxic == (if j == k then s.chain[k - 1] else s.nodes[if j <= k then j else j + 1].toxic)
    {
      FinishNode(s, k, j);
    }
  }

  lemma FinishPlaces(s: State, k: nat, s': State)
    requires Aligned(s) && s.ctl == Emptying(k) && 1 <= k && k + 1 < |s.nodes| && k - 1 < |s.chain|
      && !s.nodes[k + 1].closed
    requires s'.ctl == Idle && s'.chain == s.chain && s'.chans == s.chans && s'.outChan == s.outChan
    requires |s'.nodes| == |s.nodes| - 1 && s'.nodes[0].output == s.nodes[0].output
    requires forall j :: 0 <= j < |s.nodes| - 1 ==>
      && s'.nodes[j].input == s.nodes[if j <= k then j else j + 1].input
      && s'.nodes[j].closed == s.nodes[if j <= k then j else j + 1].closed
      && s'.nodes[j].toxic == (if j == k then s.chain[k - 1] else s.nodes[if j <= k then j else j + 1].toxic)
    ensures Aligned(s')
  {
    if NoneClosed(s') {
      forall i | 1 <= i < |s.nodes| ensures !s.nodes[i].closed {
        if i != k + 1 { assert !s'.nodes[if i <= k then i else i - 1].closed; }
      }
      assert NoneClosed(s);
      forall j | 0 <= j < |s'.nodes| - 1 ensures InPlace(s', j) { assert InPlace(s, if j + 1 <= k then j else j + 1); }
    }
  }

  lemma AlignedKept(s: State, a: Action, s': State)
    requires Inv(s) && Aligned(s) && Next(s, a, s')
    ensures Aligned(s')
  {
    if a.Queued? { AlignedByQueued(s, a.to, s'); }
    else if a.Direct? { AlignedByDirect(s, a.to, a.i, s'); }
    else if a.Nil? { AlignedByNil(s, a.to, s'); }
    else if ByController(a) { AlignedByOperation(s, a, s'); }
    else { AlignedByPipe(s, a, s'); }
  }

  lemma AlignedByOperation(s: State, a: Action, s': State)
    requires Inv(s) && Aligned(s) && Next(s, a, s') && ByController(a)
    ensures Aligned(s')
  {
    if a.BeginAdd? || a.BeginUpdate? || a.BeginRemove? { AlignedByBegin(s, a, s'); }
    else if a.Refuse? { AlignedByRefuse(s, s'); }
    else if a.Resume? && s.ctl.op.Adding? { AlignedByConnect(s, s'); }
    else if a.Resume? { AlignedByResume(s, s'); }
    else if a.StopReceived? { AlignedByStop(s, s'); }
    else if a.Finish? { AlignedByFinish(s, s'); }
    else { AlignedByHelper(s, a, s'); }
  }

  lemma AlignedByBegin(s: State, a: Action, s': State)
    requires Inv(s) && Aligned(s) && Next(s, a, s') && (a.BeginAdd? || a.BeginUpdate? || a.BeginRemove?)
    ensures Aligned(s')
  {
    match a
    case BeginAdd(toxic) => AlignedByAppend(s, toxic);
    case BeginUpdate(index, toxic) => AlignedByBeginUpdate(s, index, toxic, s');
    case BeginRemove(index) => AlignedByBeginRemove(s, index, s');
  }
}
