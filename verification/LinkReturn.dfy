/** When operations return: exactly when no toxic of the link can stop receiving for good. */
module LinkReturn {
  import opened Streams
  import opened LinkState
  import opened LinkLimits
  import opened LinkTheorems
  import opened LinkProgress
  import opened LinkDeadlock
  import opened LinkWork
  import opened LinkStrand

  /** No operation is under way, or it is an AddToxic that is about to crash. */
  predicate Over(s: State) { s.ctl.Idle? || Crashing(s) }

  /** The run can go on, within the limits, until its operation has ended. */
  ghost predicate CanReturn(states: seq<State>, actions: seq<Action>, l: Limits) {
    exists more, acts :: LimitedRun(more, acts, l) && states <= more && actions <= acts && Over(more[|acts|])
  }

  /** The run can go on until its operation is stranded. */
  ghost predicate CanStrand(states: seq<State>, actions: seq<Action>, l: Limits) {
    exists more: seq<State>, acts ::
      LimitedRun(more, acts, l) && states <= more && actions <= acts && Stuck(more[|acts|], more[|acts|].ctl)
  }

  /** Onward steps keep to any limits. */
  lemma OnwardWithin(states: seq<State>, actions: seq<Action>, more: seq<State>, acts: seq<Action>, l: Limits)
    requires LimitedRun(states, actions, l) && Continues(states, actions, more, acts)
    ensures LimitedRun(more, acts, l)
  {
    forall j | 0 <= j < |acts| ensures Respects(acts[j], l) {
      if j < |actions| { assert acts[j] == actions[j]; } else { assert Onward(acts[j]); }
    }
  }

  lemma StuckIsNotOver(s: State, ctl: Ctl)
    requires Stuck(s, ctl)
    ensures !Over(s)
  {
    var k: nat :| Stranded(s, k);
    assert Waits(s, Target(s, s.ctl.op));
  }

  /** A stranded operation has no continuation in which it ends. */
  lemma StuckNeverReturns(states: seq<State>, actions: seq<Action>, l: Limits)
    requires LimitedRun(states, actions, l) && Stuck(states[|actions|], states[|actions|].ctl)
    ensures !CanReturn(states, actions, l)
  {
    forall more, acts | LimitedRun(more, acts, l) && states <= more && actions <= acts ensures !Over(more[|acts|]) {
      assert more[|actions|] == states[|actions|];
      StuckForEver(more, acts, |actions|, |acts|);
      StuckIsNotOver(more[|acts|], states[|actions|].ctl);
    }
  }

  /** In every run an operation can still return, or it can still be stranded. */
  lemma ReturnsOrStrands(states: seq<State>, actions: seq<Action>, l: Limits)
    requires LimitedRun(states, actions, l)
    ensures CanReturn(states, actions, l) || CanStrand(states, actions, l)
  {
    var more, acts := Settle(states, actions);
    OnwardWithin(states, actions, more, acts, l);
    if !more[|acts|].ctl.Idle? { StuckOnlyIfStranded(more, acts, |acts|); }
  }

  /** No toxic that the limits allow stops receiving. */
  ghost predicate NoneStops(l: Limits) { !l.kinds(ResetPeer) && (l.kinds(Bandwidth(0)) ==> l.size == 0) }

  lemma NoneStarved(states: seq<State>, actions: seq<Action>, i: nat, l: Limits)
    requires LimitedRun(states, actions, l) && i < |states| && NoneStops(l)
    ensures !Starved(states[i])
  {
    var s := states[i];
    WithinAlongRun(states, actions, i, l);
    GoodAlongRun(states, actions, i);
    forall k | 1 <= k < s.spine && k < |s.nodes| ensures !Starving(s.nodes[k]) { NodeNotStarving(s.nodes[k], l); }
  }

  lemma NodeNotStarving(n: Node, l: Limits)
    requires NodeWithin(n, l) && NoneStops(l)
    ensures !Starving(n)
  {
    if Starving(n) {
      assert n.pipe == Bandwidth(0) && l.size == 0;
      StarvingHolds(n);
    }
  }

  lemma StarvingHolds(n: Node)
    requires Starving(n)
    ensures |Flat(Held(n.pc))| > 0
  {
    var rest := n.pc.rest;
    assert Flat(rest) == rest[0] + Flat(rest[1..]);
    if n.pc.Sending? { FlatAppend([n.pc.chunk], Together(rest)); }
  }

  /** Whatever the schedule was, a link in which no toxic stops and nothing but the source can take a
      step has no operation left to do. */
  lemma AtRestIsOver(states: seq<State>, actions: seq<Action>, l: Limits)
    requires LimitedRun(states, actions, l) && NoneStops(l) && !CanGoOn(states[|actions|])
    ensures Over(states[|actions|])
  {
    if !states[|actions|].ctl.Idle? {
      NoResetNoDiscard(states, actions, |actions|, l);
      NoneStarved(states, actions, |actions|, l);
      OperationNeverStuck(states, actions, |actions|);
    }
  }

  lemma NoneStopsReturns(states: seq<State>, actions: seq<Action>, l: Limits)
    requires LimitedRun(states, actions, l) && NoneStops(l)
    ensures CanReturn(states, actions, l)
  {
    var more, acts := Settle(states, actions);
    OnwardWithin(states, actions, more, acts, l);
    AtRestIsOver(more, acts, l);
  }

  lemma StuckWithin(l: Limits) returns (states: seq<State>, actions: seq<Action>)
    requires l.kinds(Noop) && !NoneStops(l)
    ensures LimitedRun(states, actions, l) && Stuck(states[|actions|], states[|actions|].ctl)
  {
    if l.kinds(ResetPeer) {
      states, actions := StuckRun(l, ResetPeer, []);
    } else {
      states, actions := StuckRun(l, Bandwidth(0), [1]);
    }
  }

  /** In every state of every run within the limits the operation under way can still return, or crash
      as AddToxic does, if and only if the limits allow no reset_peer, and no bandwidth of rate 0 that
      any data can reach. */
  lemma AlwaysReturnsIff(l: Limits)
    requires l.kinds(Noop)
    ensures (forall states, actions :: LimitedRun(states, actions, l) ==> CanReturn(states, actions, l)) <==> NoneStops(l)
  {
    if NoneStops(l) {
      forall states, actions | LimitedRun(states, actions, l) ensures CanReturn(states, actions, l) {
        NoneStopsReturns(states, actions, l);
      }
    } else {
      var states, actions := StuckWithin(l);
      StuckNeverReturns(states, actions, l);
    }
  }
}
