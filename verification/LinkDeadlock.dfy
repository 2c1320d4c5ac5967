/** When an operation waits for ever: a stub that it interrupts, or has interrupted, is in the middle
    of a send that nobody will ever take, because a stub behind it will never receive again. */
module LinkDeadlock {
  import opened LinkState
  import opened LinkInvariant
  import opened LinkFlow
  import opened LinkClose
  import opened LinkRemoval
  import opened LinkTheorems
  import opened LinkProgress
  import Slicer

  /** The node's send has no timeout, and there is no room for it. */
  predicate Waits(s: State, j: nat) {
    && j < |s.nodes| && s.nodes[j].pc.Sending? && !s.nodes[j].closed && !Timed(s.nodes[j])
    && s.nodes[j].output < |s.chans|
    && |s.chans[s.nodes[j].output].queue| >= s.chans[s.nodes[j].output].capacity
  }

  predicate Waiting(s: State) { s.ctl.Interrupting? || s.ctl.Awaiting? }

  /** The node will never receive again: it has closed, it is a reset_peer that is going to close, or
      it is a bandwidth of rate 0 that holds data. */
  predicate DeadEnd(n: Node) { Blocked(n) || Starving(n) }

  /** From the operation's stub up to a dead end every stub waits for the next one to receive. */
  predicate Stranded(s: State, k: nat) {
    && Waiting(s) && 1 <= Target(s, s.ctl.op) < k < s.spine <= |s.nodes|
    && DeadEnd(s.nodes[k])
    && (forall j :: Target(s, s.ctl.op) <= j < k ==> Waits(s, j))
  }

  ghost predicate Stuck(s: State, ctl: Ctl) { s.ctl == ctl && exists k: nat :: Stranded(s, k) }

  // ---- who cannot go on is stranded ---------------------------------------------------------------------------

  /** In a link in which nothing stirs, a send that does not end leads to a dead end. */
  lemma {:induction false} SenderStranded(s: State, i: nat) returns (k: nat)
    requires Calm(s) && SinkOk(s) && !Stirs(s) && 1 <= i < s.spine && s.nodes[i].pc.Sending? && !s.nodes[i].closed
    ensures i < k < s.spine && DeadEnd(s.nodes[k])
    ensures forall j :: i <= j < k ==> Waits(s, j)
    decreases s.spine - i
  {
    SenderWaits(s, i);
    NextTakes(s, i);
    if DeadEnd(s.nodes[i + 1]) {
      k := i + 1;
    } else {
      NodeMoves(s, i + 1);
      k := SenderStranded(s, i + 1);
    }
  }

  lemma SenderWaits(s: State, i: nat)
    requires Calm(s) && i < s.spine && s.nodes[i].pc.Sending? && !s.nodes[i].closed
    ensures Stirs(s) || Waits(s, i)
  {
    if Timed(s.nodes[i]) { assert Enabled(s, Timeout(i)); }
    if |s.chans[s.nodes[i].output].queue| < s.chans[s.nodes[i].output].capacity { assert Enabled(s, Deposit(i)); }
  }

  lemma NextTakes(s: State, i: nat)
    requires Calm(s) && SinkOk(s) && 1 <= i < s.spine && Waits(s, i)
    ensures Stirs(s) || (i + 1 < s.spine && !s.nodes[i + 1].pc.Listening?)
  {
    assert ChanOk(s.nodes[i], s.chans[s.nodes[i].output]);
    if i + 1 == s.spine {
      ReceiverMoves(s, i, ToSink);
    } else {
      assert s.nodes[i + 1].input == s.nodes[i].output;
      if s.nodes[i + 1].pc.Listening? { ReceiverMoves(s, i, ToStub(i + 1, Slicer.NoDraws())); }
    }
  }

  /** The stub that an operation has interrupted, or tries to. */
  lemma TargetMoves(s: State)
    requires Calm(s) && PendingOk(s) && Waiting(s)
    ensures var t := Target(s, s.ctl.op);
      && 1 <= t < |s.nodes|
      && (Stirs(s) || (t < s.spine && s.nodes[t].pc.Sending? && !s.nodes[t].closed))
  {
    SourceFree(s);
    var t := Target(s, s.ctl.op);
    assert NodeOk(s.nodes[t], ModeOf(s, t));
    if s.ctl.Interrupting? && s.nodes[t].closed { assert Enabled(s, Refuse); }
    else if s.ctl.Interrupting? && Interruptible(s.nodes[t]) { assert Enabled(s, Accept); }
    else if t < s.spine && !s.nodes[t].closed { NodeMoves(s, t); }
  }

  /** An operation that is under way is stranded, or something stirs. */
  lemma StirsOrStuck(states: seq<State>, actions: seq<Action>, i: nat)
    requires IsRun(states, actions) && i < |states| && !states[i].ctl.Idle?
    ensures Stirs(states[i]) || Stuck(states[i], states[i].ctl)
  {
    var s := states[i];
    GoodAlongRun(states, actions, i);
    EndsAlongRun(states, actions, i);
    if HandingOff(s) {
      HandoffMoves(s);
    } else {
      TargetMoves(s);
      if !Stirs(s) {
        var k := SenderStranded(s, Target(s, s.ctl.op));
        assert Stranded(s, k);
      }
    }
  }

  /** In every state of every run in which an operation is under way and no productive step can be
      taken, the operation is stranded, or it is an AddToxic that is about to crash. */
  lemma StuckOnlyIfStranded(states: seq<State>, actions: seq<Action>, i: nat)
    requires IsRun(states, actions) && i < |states| && !states[i].ctl.Idle? && !CanGoOn(states[i])
    ensures Stuck(states[i], states[i].ctl) || OnlyCrash(states[i])
  {
    StirsOrStuck(states, actions, i);
    if Stirs(states[i]) {
      InvAlongRun(states, actions, i);
      GoesOnIff(states[i]);
    }
  }

  /** Before a blocked stub there are only closed ones. */
  lemma NoneBehindBlocked(states: seq<State>, actions: seq<Action>, i: nat, k: nat)
    requires IsRun(states, actions) && i < |states| && states[i].discarded == []
    requires 1 <= k < states[i].spine <= |states[i].nodes| && Blocked(states[i].nodes[k])
    ensures states[i].nodes[k - 1].closed
  {
    GoodAlongRun(states, actions, i);
    assert Ended(states[i], k);
  }

  /** As long as no reset_peer has discarded data and no bandwidth of rate 0 holds any, an operation is
      never stranded: it can go on, or the data that it waits for can, exactly unless it is an AddToxic
      that is about to crash and nothing else can be done. */
  lemma OperationNeverStuck(states: seq<State>, actions: seq<Action>, i: nat)
    requires IsRun(states, actions) && i < |states| && !states[i].ctl.Idle?
    requires states[i].discarded == [] && !Starved(states[i])
    ensures !Stuck(states[i], states[i].ctl)
    ensures CanGoOn(states[i]) <==> !OnlyCrash(states[i])
  {
    NotStranded(states, actions, i);
    StirsOrStuck(states, actions, i);
    InvAlongRun(states, actions, i);
    GoesOnIff(states[i]);
  }

  lemma NotStranded(states: seq<State>, actions: seq<Action>, i: nat)
    requires IsRun(states, actions) && i < |states| && states[i].discarded == [] && !Starved(states[i])
    ensures !Stuck(states[i], states[i].ctl)
  {
    if k: nat :| Stranded(states[i], k) {
      assert Waits(states[i], k - 1);
      NoneBehindBlocked(states, actions, i, k);
    }
  }

  // ---- who is stranded never goes on ------------------------------------------------------------------------

  /** The operation itself, its helper and RemoveToxic's loops can do nothing. */
  lemma NotByController(s: State, a: Action)
    requires ControlOk(s) && Waiting(s) && Enabled(s, a) && 0 <= Target(s, s.ctl.op) && Waits(s, Target(s, s.ctl.op))
    ensures !ByController(a) && (a.Queued? || a.Direct? || a.Nil? ==> !a.to.ToDrain?)
  {
  }

  /** Nobody who receives reads what j sends. */
  lemma NotRead(s: State, to: Receiver, j: nat)
    requires Inv(s) && Ready(s, to) && !to.ToDrain? && 1 <= j && j + 1 < s.spine && !s.nodes[j + 1].pc.Listening?
    ensures Source(s, to) != s.nodes[j].output
  {
    FeederFeeds(s, to);
    var f := Feeder(s, to);
    if f < j { assert s.nodes[f].output != s.nodes[j].output; }
    if j < f { assert s.nodes[j].output != s.nodes[f].output; }
  }

  lemma WaitsByReceive(s: State, a: Action, s': State, j: nat)
    requires Next(s, a, s') && (a.Queued? || a.Direct? || a.Nil?) && !a.to.ToDrain?
    requires Waits(s, j) && Source(s, a.to) != s.nodes[j].output
    ensures Waits(s', j)
  {
  }

  lemma WaitsByPipe(s: State, a: Action, s': State, j: nat)
    requires Next(s, a, s') && !ByController(a) && !a.Queued? && !a.Direct? && !a.Nil?
    requires 1 <= j && Waits(s, j)
    ensures Waits(s', j)
  {
  }

  lemma SameOperation(s: State, a: Action, s': State)
    requires Next(s, a, s') && !ByController(a) && (a.Queued? || a.Direct? || a.Nil? ==> !a.to.ToDrain?)
    ensures s'.ctl == s.ctl && s'.spine == s.spine && |s'.nodes| == |s.nodes|
  {
  }

  /** Nor does anything bring a dead end to life. */
  lemma DeadEndByPipe(s: State, a: Action, s': State, k: nat)
    requires Next(s, a, s') && !ByController(a) && !a.Queued? && !a.Direct? && !a.Nil?
    requires 1 <= k < |s.nodes| && DeadEnd(s.nodes[k])
    ensures k < |s'.nodes| && DeadEnd(s'.nodes[k])
  {
    if a == Timer(k) && Starving(s.nodes[k]) {
      var c := s.nodes[k].pc.rest[0];
      assert c[0..] == c;
    }
  }

  lemma DeadEndByReceive(s: State, a: Action, s': State, k: nat)
    requires Next(s, a, s') && (a.Queued? || a.Direct? || a.Nil?) && !a.to.ToDrain?
    requires 1 <= k < |s.nodes| && DeadEnd(s.nodes[k])
    ensures k < |s'.nodes| && DeadEnd(s'.nodes[k])
  {
  }

  lemma StrandedKept(s: State, a: Action, s': State, k: nat)
    requires Inv(s) && Next(s, a, s') && Stranded(s, k)
    ensures Stranded(s', k) && s'.ctl == s.ctl
  {
    var t := Target(s, s.ctl.op);
    assert Waits(s, t);
    NotByController(s, a);
    SameOperation(s, a, s');
    if a.Queued? || a.Direct? || a.Nil? { DeadEndByReceive(s, a, s', k); } else { DeadEndByPipe(s, a, s', k); }
    forall j | t <= j < k ensures Waits(s', j) { WaitsKept(s, a, s', j, k); }
  }

  lemma WaitsKept(s: State, a: Action, s': State, j: nat, k: nat)
    requires Inv(s) && Next(s, a, s') && !ByController(a) && (a.Queued? || a.Direct? || a.Nil? ==> !a.to.ToDrain?)
    requires Stranded(s, k) && Target(s, s.ctl.op) <= j < k
    ensures Waits(s', j)
  {
    assert Waits(s, j);
    if a.Queued? || a.Direct? || a.Nil? {
      assert j + 1 < k ==> Waits(s, j + 1);
      assert NodeOk(s.nodes[j + 1], ModeOf(s, j + 1));
      NotRead(s, a.to, j);
      WaitsByReceive(s, a, s', j);
    } else {
      WaitsByPipe(s, a, s', j);
    }
  }

  /** A stranded operation stays where it is, whatever anybody else does. */
  lemma {:induction false} StuckForEver(states: seq<State>, actions: seq<Action>, i: nat, j: nat)
    requires IsRun(states, actions) && i <= j < |states| && Stuck(states[i], states[i].ctl)
    ensures Stuck(states[j], states[i].ctl)
  {
    if i < j {
      StuckForEver(states, actions, i, j - 1);
      StuckStep(states, actions, j - 1, states[i].ctl);
    }
  }

  lemma StuckStep(states: seq<State>, actions: seq<Action>, i: nat, ctl: Ctl)
    requires IsRun(states, actions) && i < |actions| && Stuck(states[i], ctl)
    ensures Stuck(states[i + 1], ctl)
  {
    GoodAlongRun(states, actions, i);
    assert StepAt(states, actions, i);
    var k: nat :| Stranded(states[i], k);
    StrandedKept(states[i], actions[i], states[i + 1], k);
  }
}
