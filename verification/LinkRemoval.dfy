/** RemoveToxic's handoff: it is never stuck, and once the previous stub has given in it finishes
    after a bounded number of its own steps, whatever the rest of the link does. */
module LinkRemoval {
  import opened Streams
  import opened LinkState
  import opened LinkInvariant

  /** Past the interruption of the removed stub. */
  predicate HandingOff(s: State) { s.ctl.Draining? || s.ctl.AwaitingStop? || s.ctl.Emptying? }

  /** The steps of the drain loops, the helper, the previous stub (node k) and the flushes. */
  predicate OfHandoff(s: State, a: Action)
    requires HandingOff(s)
  {
    var k := s.ctl.index;
    match a
    case Queued(to) => to.ToDrain?
    case Direct(to, i) => to.ToDrain? || i == k + 1
    case Nil(to) => to.ToDrain?
    case Start(i, _) => i == k || i == k + 1
    case Deposit(i) => i == k || i == k + 1
    case Timer(i) => i == k || i == k + 1
    case CloseOutput(i) => i == k || i == k + 1
    case Exit(i) => i == k || i == k + 1
    case Timeout(i) => i == k || i == k + 1
    case _ => a.HelperAccept? || a.HelperRefuse? || a.HelperStopped? || a.StopReceived? || a.Finish?
  }

  /** What unblocks a previous stub that waits in its send. */
  function Unblock(s: State, k: nat): Action
    requires k < |s.nodes| && s.nodes[k].output < |s.chans|
  {
    var ch := s.chans[s.nodes[k].output];
    if |ch.queue| < ch.capacity then Deposit(k)
    else if ch.queue != [] then Queued(ToDrain)
    else Direct(ToDrain, k)
  }

  /** A step of the handoff that can be taken. */
  function Move(s: State): Action
    requires HandingOff(s) && s.ctl.index + 1 < |s.nodes| && s.nodes[s.ctl.index].output < |s.chans|
  {
    var k := s.ctl.index;
    var prev := s.nodes[k];
    var ch := s.chans[prev.output];
    if s.ctl.AwaitingStop? then (if s.helper.HelperSending? then StopReceived else HelperRefuse)
    else if s.nodes[k + 1].pc.Flushing? then Timeout(k + 1)
    else if s.ctl.Emptying? then (if ch.queue != [] then Queued(ToDrain) else Finish)
    else
      match s.helper
      case HelperSending(_, _) => StopReceived
      case NoHelper =>
        if prev.pc.Closing? then CloseOutput(k) else if ch.queue != [] then Queued(ToDrain) else Nil(ToDrain)
      case HelperInterrupting(_) =>
        if prev.closed then HelperRefuse
        else if Interruptible(prev) then HelperAccept
        else if prev.pc.Launched? then Start(k, true)
        else if prev.pc.Discarding? then Timer(k)
        else Unblock(s, k)
      case HelperAwaiting(_) =>
        if prev.pc.Stopped? then HelperStopped else if prev.pc.Returned? then Exit(k) else Unblock(s, k)
  }

  lemma UnblockEnabled(s: State, k: nat)
    requires Wiring(s) && NodesOk(s) && ChansOk(s) && ControlOk(s) && s.ctl.Draining? && k == s.ctl.index
    requires s.nodes[k].pc.Sending? && s.nodes[k + 1].pc.Stopped?
    ensures Enabled(s, Unblock(s, k))
  {
    DrainsPrevious(s, k);
    assert ChanOk(s.nodes[k], s.chans[s.nodes[k].output]);
  }

  lemma DrainsPrevious(s: State, k: nat)
    requires Wiring(s) && ControlOk(s) && InRemoval(s) && k == s.ctl.index
    ensures k + 1 < s.spine && s.nodes[k + 1].input == s.nodes[k].output < |s.chans|
  {
  }

  /** Some step of the handoff is always possible. */
  lemma NeverStuck(s: State)
    requires Inv(s) && HandingOff(s)
    ensures s.ctl.index + 1 < s.spine
    ensures OfHandoff(s, Move(s)) && Enabled(s, Move(s)) && !Panics(s, Move(s))
  {
    var k := s.ctl.index;
    assert NodeOk(s.nodes[k], ModeOf(s, k)) && NodeOk(s.nodes[k + 1], ModeOf(s, k + 1));
    if s.ctl.AwaitingStop? {
    } else {
      DrainsPrevious(s, k);
      if s.ctl.Emptying? { EmptyingMoves(s, k); } else { DrainingMoves(s, k); }
    }
    PanicsExactlyWhen(s, Move(s));
  }

  lemma EmptyingMoves(s: State, k: nat)
    requires Wiring(s) && NodesOk(s) && ControlOk(s) && s.ctl == Emptying(k)
    requires k + 1 < s.spine && s.nodes[k + 1].input == s.nodes[k].output < |s.chans|
    ensures Enabled(s, Move(s))
  {
    assert NodeOk(s.nodes[k + 1], ModeOf(s, k + 1));
  }

  lemma DrainingMoves(s: State, k: nat)
    requires Wiring(s) && NodesOk(s) && ChansOk(s) && ControlOk(s) && s.ctl.Draining? && k == s.ctl.index
    requires k + 1 < s.spine && s.nodes[k + 1].input == s.nodes[k].output < |s.chans|
    ensures Enabled(s, Move(s))
  {
    assert NodeOk(s.nodes[k], ModeOf(s, k)) && NodeOk(s.nodes[k + 1], ModeOf(s, k + 1));
    assert ChanOk(s.nodes[k], s.chans[s.nodes[k].output]);
    if s.nodes[k + 1].pc.Stopped? && s.nodes[k].pc.Sending? { UnblockEnabled(s, k); }
  }

  // ---- the ranking --------------------------------------------------------------------------------------

  /** The previous stub has taken the helper's interrupt, or is closed. */
  predicate Committed(s: State) {
    && HandingOff(s) && s.ctl.index < |s.nodes|
    && (s.ctl.Emptying? || s.nodes[s.ctl.index].closed || s.helper.HelperAwaiting?
        || (s.helper.HelperSending? && s.helper.result))
  }

  function CtlRank(c: Ctl): nat {
    match c case Draining(_, _) => 4 case AwaitingStop(_) => 2 case Emptying(_) => 2 case _ => 0
  }

  function HelperRank(h: Helper): nat {
    match h case NoHelper => 0 case HelperSending(_, _) => 2 case _ => 3
  }

  function PcRank(pc: Pc): nat {
    match pc case Sending(_, _, _) => 9 case Flushing(_) => 2 case Closing => 3 case Returned => 2 case _ => 0
  }

  /** How much of the handoff is left. */
  function Rank(s: State): nat {
    if HandingOff(s) && s.ctl.index + 1 < |s.nodes| && s.nodes[s.ctl.index].output < |s.chans| then
      var k := s.ctl.index;
      CtlRank(s.ctl) + HelperRank(s.helper) + PcRank(s.nodes[k].pc) + PcRank(s.nodes[k + 1].pc)
      + 4 * |s.chans[s.nodes[k].output].queue|
    else 0
  }

  /** A step keeps the handoff committed, or ends it, and takes the ranking down if it is one of the
      handoff's own; no other step of the link takes it up. */
  ghost predicate Ranked(s: State, a: Action, s': State)
    requires HandingOff(s)
  {
    && (Committed(s') || s'.ctl.Idle?)
    && (if OfHandoff(s, a) then Rank(s') < Rank(s) else Rank(s') <= Rank(s))
  }

  /** The two stubs of a committed handoff. */
  lemma HandoffNodes(s: State, k: nat)
    requires Wiring(s) && NodesOk(s) && ControlOk(s) && Committed(s) && k == s.ctl.index
    ensures 1 <= k && k + 1 < s.spine && s.nodes[k].output < |s.chans|
    ensures s.nodes[k + 1].input == s.nodes[k].output != s.nodes[k + 1].output
    ensures var pc := s.nodes[k].pc; pc.Closing? || pc.Returned? || pc.Stopped? || (pc.Sending? && pc.leaving && pc.rest == [] && s.ctl.Draining?)
    ensures var pc := s.nodes[k + 1].pc; pc.Stopped? || pc.Closing? || pc.Returned? || (pc.Flushing? && !s.ctl.AwaitingStop?)
    ensures s.nodes[k].pc.Closing? ==> s.nodes[k].closed
  {
    assert NodeOk(s.nodes[k], ModeOf(s, k)) && NodeOk(s.nodes[k + 1], ModeOf(s, k + 1));
  }

  /** A step that leaves the handoff's two stubs, their channel and the controller alone. */
  lemma RankFrame(s: State, a: Action, s': State)
    requires Wiring(s) && NodesOk(s) && ControlOk(s) && Committed(s) && !OfHandoff(s, a)
    requires s'.ctl == s.ctl && s'.helper == s.helper && |s'.nodes| == |s.nodes| && |s'.chans| == |s.chans|
    requires var k := s.ctl.index;
      k + 1 < |s.nodes| && s'.nodes[k] == s.nodes[k] && s'.nodes[k + 1] == s.nodes[k + 1]
      && (s.nodes[k].output < |s.chans| ==> s'.chans[s.nodes[k].output].queue == s.chans[s.nodes[k].output].queue)
    ensures Ranked(s, a, s')
  {
  }

  lemma RankedByPipe(s: State, a: Action, s': State)
    requires Wiring(s) && NodesOk(s) && ControlOk(s) && Committed(s) && Next(s, a, s')
    requires !ByController(a) && !(a.Queued? || a.Direct? || a.Nil?)
    ensures Ranked(s, a, s')
  {
    var k := s.ctl.index;
    var j := if a.SourceWrite? || a.SourceClose? then 0 else a.i;
    if j == k { RankedByPrevious(s, a, s'); }
    else if j == k + 1 { RankedByFlush(s, a, s'); }
    else { RankedElsewhere(s, a, s', j); }
  }

  lemma RankedElsewhere(s: State, a: Action, s': State, j: nat)
    requires Wiring(s) && NodesOk(s) && ControlOk(s) && Committed(s) && Next(s, a, s')
    requires !ByController(a) && !(a.Queued? || a.Direct? || a.Nil?)
    requires j == (if a.SourceWrite? || a.SourceClose? then 0 else a.i) && j != s.ctl.index && j != s.ctl.index + 1
    ensures Ranked(s, a, s')
  {
    if a.Deposit? || a.CloseOutput? || a.SourceClose? { RankedElsewhereByChan(s, a, s', j); }
    else { RankedElsewhereByNode(s, a, s', j); }
  }

  lemma RankedElsewhereByNode(s: State, a: Action, s': State, j: nat)
    requires Wiring(s) && NodesOk(s) && ControlOk(s) && Committed(s) && Next(s, a, s')
    requires a.SourceWrite? || a.Start? || a.Timer? || a.Exit? || a.Timeout?
    requires j == (if a.SourceWrite? then 0 else a.i) && j != s.ctl.index && j != s.ctl.index + 1
    ensures Ranked(s, a, s')
  {
    HandoffNodes(s, s.ctl.index);
    RankFrame(s, a, s');
  }

  lemma RankedElsewhereByChan(s: State, a: Action, s': State, j: nat)
    requires Wiring(s) && NodesOk(s) && ControlOk(s) && Committed(s) && Next(s, a, s')
    requires a.Deposit? || a.CloseOutput? || a.SourceClose?
    requires j == (if a.SourceClose? then 0 else a.i) && j != s.ctl.index && j != s.ctl.index + 1
    ensures Ranked(s, a, s')
  {
    var k := s.ctl.index;
    HandoffNodes(s, k);
    if k < j < s.spine { assert s.nodes[k].output != s.nodes[j].output; }
    if j < k { assert s.nodes[j].output != s.nodes[k].output; }
    RankFrame(s, a, s');
  }

  lemma RankedByPrevious(s: State, a: Action, s': State)
    requires Wiring(s) && NodesOk(s) && ControlOk(s) && Committed(s) && Next(s, a, s')
    requires !ByController(a) && !(a.Queued? || a.Direct? || a.Nil? || a.SourceWrite? || a.SourceClose?)
      && a.i == s.ctl.index
    ensures Ranked(s, a, s')
  {
    HandoffNodes(s, s.ctl.index);
  }

  lemma RankedByFlush(s: State, a: Action, s': State)
    requires Wiring(s) && NodesOk(s) && ControlOk(s) && Committed(s) && Next(s, a, s')
    requires !ByController(a) && !(a.Queued? || a.Direct? || a.Nil? || a.SourceWrite? || a.SourceClose?)
      && a.i == s.ctl.index + 1
    ensures Ranked(s, a, s')
  {
    if a.Deposit? || a.Timeout? { RankedByFlushDone(s, a, s'); } else { RankedByClosing(s, a, s'); }
  }

  lemma RankedByFlushDone(s: State, a: Action, s': State)
    requires Wiring(s) && NodesOk(s) && ControlOk(s) && Committed(s) && Next(s, a, s')
    requires (a.Deposit? || a.Timeout?) && a.i == s.ctl.index + 1
    ensures Ranked(s, a, s')
  {
    HandoffNodes(s, s.ctl.index);
  }

  lemma RankedByClosing(s: State, a: Action, s': State)
    requires Wiring(s) && NodesOk(s) && ControlOk(s) && Committed(s) && Next(s, a, s')
    requires (a.Start? || a.Timer? || a.CloseOutput? || a.Exit?) && a.i == s.ctl.index + 1
    ensures Ranked(s, a, s')
  {
    HandoffNodes(s, s.ctl.index);
    if a.CloseOutput? { RankedByCloseOutput(s, s'); }
    if a.Exit? { RankedByExit(s, s'); }
  }

  lemma RankedByExit(s: State, s': State)
    requires Wiring(s) && NodesOk(s) && ControlOk(s) && Committed(s) && Next(s, Exit(s.ctl.index + 1), s')
    ensures Ranked(s, Exit(s.ctl.index + 1), s')
  {
    HandoffNodes(s, s.ctl.index);
  }

  lemma RankedByCloseOutput(s: State, s': State)
    requires Wiring(s) && NodesOk(s) && ControlOk(s) && Committed(s) && Next(s, CloseOutput(s.ctl.index + 1), s')
    ensures Ranked(s, CloseOutput(s.ctl.index + 1), s')
  {
    HandoffNodes(s, s.ctl.index);
  }

  lemma RankedByHelper(s: State, a: Action, s': State)
    requires Wiring(s) && NodesOk(s) && ControlOk(s) && Committed(s) && Next(s, a, s') && ByController(a)
    ensures Ranked(s, a, s')
  {
    if a.StopReceived? { RankedByStop(s, s'); }
    else if a.Finish? { RankedByFinish(s, s'); }
    else { RankedByAnswer(s, a, s'); }
  }

  lemma RankedByStop(s: State, s': State)
    requires Wiring(s) && NodesOk(s) && ControlOk(s) && Committed(s) && Next(s, StopReceived, s')
    ensures Ranked(s, StopReceived, s')
  {
    HandoffNodes(s, s.ctl.index);
  }

  lemma RankedByFinish(s: State, s': State)
    requires Wiring(s) && NodesOk(s) && ControlOk(s) && Committed(s) && Next(s, Finish, s')
    ensures Ranked(s, Finish, s')
  {
    HandoffNodes(s, s.ctl.index);
  }

  lemma RankedByAnswer(s: State, a: Action, s': State)
    requires Wiring(s) && NodesOk(s) && ControlOk(s) && Committed(s) && Next(s, a, s')
    requires ByController(a) && !a.StopReceived? && !a.Finish?
    ensures Ranked(s, a, s')
  {
    HandoffNodes(s, s.ctl.index);
  }

  lemma RankedByNil(s: State, to: Receiver, s': State)
    requires Wiring(s) && NodesOk(s) && ChansOk(s) && ControlOk(s) && Committed(s) && Next(s, Nil(to), s')
    ensures Ranked(s, Nil(to), s')
  {
    if to.ToDrain? { RankedByNilDrain(s, s'); } else { RankedByNilElsewhere(s, to, s'); }
  }

  lemma RankedByNilElsewhere(s: State, to: Receiver, s': State)
    requires Wiring(s) && NodesOk(s) && ControlOk(s) && Committed(s) && Next(s, Nil(to), s') && !to.ToDrain?
    ensures Ranked(s, Nil(to), s')
  {
    HandoffNodes(s, s.ctl.index);
    RankFrame(s, Nil(to), s');
  }

  lemma RankedByNilDrain(s: State, s': State)
    requires Wiring(s) && NodesOk(s) && ChansOk(s) && ControlOk(s) && Committed(s) && Next(s, Nil(ToDrain), s')
    ensures Ranked(s, Nil(ToDrain), s')
  {
    var k := s.ctl.index;
    HandoffNodes(s, k);
    assert ChanOk(s.nodes[k], s.chans[s.nodes[k].output]);
  }

  lemma RankedByQueued(s: State, to: Receiver, s': State)
    requires Inv(s) && Committed(s) && Next(s, Queued(to), s')
    ensures Ranked(s, Queued(to), s')
  {
    if to.ToDrain? {
      RankedByQueuedDrain(s, s');
    } else {
      FeederFeeds(s, to);
      RankedByQueuedElsewhere(s, to, s');
    }
  }

  lemma RankedByQueuedDrain(s: State, s': State)
    requires Wiring(s) && NodesOk(s) && ControlOk(s) && Committed(s) && Next(s, Queued(ToDrain), s')
    ensures Ranked(s, Queued(ToDrain), s')
  {
    HandoffNodes(s, s.ctl.index);
  }

  lemma RankedByQueuedElsewhere(s: State, to: Receiver, s': State)
    requires Wiring(s) && NodesOk(s) && ControlOk(s) && Committed(s) && Next(s, Queued(to), s') && !to.ToDrain?
    requires 0 <= Feeder(s, to) < s.spine && Source(s, to) == s.nodes[Feeder(s, to)].output
    ensures Ranked(s, Queued(to), s')
  {
    var k, f := s.ctl.index, Feeder(s, to);
    HandoffNodes(s, k);
    assert f != k;
    if f < k { assert s.nodes[f].output != s.nodes[k].output; }
    if k < f { assert s.nodes[k].output != s.nodes[f].output; }
    DeliverElsewhere(TakeOut(s, Source(s, to)), to, s.chans[Source(s, to)].queue[0], k);
    RankFrame(s, Queued(to), s');
  }

  lemma DeliverElsewhere(s: State, to: Receiver, c: Chunk, k: nat)
    requires Ready(s, to) && !to.ToDrain? && k + 1 < |s.nodes| && !s.nodes[k].pc.Listening?
      && !s.nodes[k + 1].pc.Listening?
    ensures var s' := Deliver(s, to, c);
      && s'.nodes[k] == s.nodes[k] && s'.nodes[k + 1] == s.nodes[k + 1] && |s'.nodes| == |s.nodes|
      && s'.chans == s.chans && s'.ctl == s.ctl && s'.helper == s.helper
  {
  }

  lemma RankedByDirect(s: State, to: Receiver, i: nat, s': State)
    requires Inv(s) && Committed(s) && Next(s, Direct(to, i), s')
    ensures Ranked(s, Direct(to, i), s')
  {
    DirectIsFeeder(s, to, i);
    if to.ToDrain? { RankedByDirectDrain(s, i, s'); } else { RankedByDirectElsewhere(s, to, i, s'); }
  }

  lemma RankedByDirectDrain(s: State, i: nat, s': State)
    requires Wiring(s) && NodesOk(s) && ControlOk(s) && Committed(s) && Next(s, Direct(ToDrain, i), s')
      && i == s.ctl.index
    ensures Ranked(s, Direct(ToDrain, i), s')
  {
    HandoffNodes(s, i);
  }

  lemma RankedByDirectElsewhere(s: State, to: Receiver, i: nat, s': State)
    requires Wiring(s) && NodesOk(s) && ControlOk(s) && Committed(s) && Next(s, Direct(to, i), s') && !to.ToDrain?
    requires i == Feeder(s, to) < s.spine
    ensures Ranked(s, Direct(to, i), s')
  {
    var k := s.ctl.index;
    HandoffNodes(s, k);
    assert i != k;
    DeliverElsewhere(SetNode(s, i, Sent(s.nodes[i])), to, Offered(s.nodes[i]), k);
    if i == k + 1 { RankedByFlushTaken(s, to, s'); } else { RankFrame(s, Direct(to, i), s'); }
  }

  lemma RankedByFlushTaken(s: State, to: Receiver, s': State)
    requires Wiring(s) && NodesOk(s) && ControlOk(s) && Committed(s)
    requires var i := s.ctl.index + 1;
      i < |s.nodes| == |s'.nodes| && Offering(s.nodes[i]) && s'.nodes[i] == Sent(s.nodes[i])
    requires !to.ToDrain? && s'.nodes[s.ctl.index] == s.nodes[s.ctl.index]
    requires s'.chans == s.chans && s'.ctl == s.ctl && s'.helper == s.helper
    ensures Ranked(s, Direct(to, s.ctl.index + 1), s')
  {
    HandoffNodes(s, s.ctl.index);
  }

  lemma HandoffRanked(s: State, a: Action, s': State)
    requires Inv(s) && Committed(s) && Next(s, a, s')
    ensures Ranked(s, a, s')
  {
    if a.Queued? { RankedByQueued(s, a.to, s'); }
    else if a.Direct? { RankedByDirect(s, a.to, a.i, s'); }
    else if a.Nil? { RankedByNil(s, a.to, s'); }
    else if ByController(a) { RankedByHelper(s, a, s'); }
    else { RankedByPipe(s, a, s'); }
  }

  // ---- over a run -----------------------------------------------------------------------------------------

  /** How many of the steps from `from` on are the handoff's own, until it ends. */
  ghost function HandoffSteps(states: seq<State>, actions: seq<Action>, from: nat): nat
    requires |states| == |actions| + 1 && from <= |actions|
    decreases |actions| - from
  {
    if from == |actions| || !HandingOff(states[from]) then 0
    else (if OfHandoff(states[from], actions[from]) then 1 else 0) + HandoffSteps(states, actions, from + 1)
  }

  /** From the moment the previous stub has given in, the handoff takes at most Rank more steps of
      its own, whatever else the link does in between. */
  lemma {:induction false} HandoffBounded(states: seq<State>, actions: seq<Action>, from: nat)
    requires IsPath(states, actions) && from <= |actions|
    requires Inv(states[from]) && (Committed(states[from]) || states[from].ctl.Idle?)
    ensures HandoffSteps(states, actions, from) <= Rank(states[from])
    decreases |actions| - from
  {
    if from < |actions| && HandingOff(states[from]) {
      HandoffStep(states, actions, from);
      HandoffBounded(states, actions, from + 1);
    }
  }

  lemma HandoffStep(states: seq<State>, actions: seq<Action>, i: nat)
    requires IsPath(states, actions) && i < |actions| && Inv(states[i]) && Committed(states[i])
    ensures Inv(states[i + 1]) && (Committed(states[i + 1]) || states[i + 1].ctl.Idle?)
    ensures Rank(states[i + 1]) + (if OfHandoff(states[i], actions[i]) then 1 else 0) <= Rank(states[i])
  {
    assert StepAt(states, actions, i);
    HandoffRanked(states[i], actions[i], states[i + 1]);
    InvKept(states[i], actions[i], states[i + 1]);
  }

  /** An empty, open channel that no stub of the spine reads or writes. */
  ghost predicate Detached(s: State, c: nat) {
    && c < |s.chans| && s.chans[c].queue == [] && !s.chans[c].closed
    && forall j :: 0 <= j < s.spine && j < |s.nodes| ==> s.nodes[j].output != c && (j > 0 ==> s.nodes[j].input != c)
  }

  /** RemoveToxic returns with its helper gone and its result received; on success the channel it
      detaches is empty and open, and no stub of the spine reads or writes it any more. */
  lemma NothingLeftBehind(states: seq<State>, actions: seq<Action>, i: nat)
    requires IsRun(states, actions) && i < |actions| && actions[i] == Finish
    ensures var s, s' := states[i], states[i + 1];
      && s'.ctl.Idle? && s'.helper.NoHelper? && s'.helpers.started == s'.helpers.received
      && s.ctl.Emptying? && s.ctl.index + 1 < |s.nodes| && Detached(s', s.nodes[s.ctl.index + 1].input)
  {
    InvAlongRun(states, actions, i);
    assert StepAt(states, actions, i);
    DetachedByFinish(states[i], states[i + 1]);
  }

  lemma DetachedByFinish(s: State, s': State)
    requires Inv(s) && Next(s, Finish, s')
    ensures s'.ctl.Idle? && s'.helper.NoHelper? && s'.helpers.started == s'.helpers.received
    ensures Detached(s', s.nodes[s.ctl.index + 1].input)
  {
    var k := s.ctl.index;
    assert NodeOk(s.nodes[k], ModeOf(s, k));
    assert ChanOk(s.nodes[k], s.chans[s.nodes[k].output]);
    var c := s.nodes[k].output;
    forall j | 0 <= j < s'.spine && j < |s'.nodes| ensures s'.nodes[j].output != c && (j > 0 ==> s'.nodes[j].input != c) {
      DetachedFrom(s, k, j);
    }
  }

  lemma DetachedFrom(s: State, k: nat, j: nat)
    requires Wiring(s) && 1 <= k && k + 1 < s.spine && k - 1 < |s.chain| && j < s.spine - 1
    ensures var n := Disconnect(s, k).nodes[j]; n.output != s.nodes[k].output && (j > 0 ==> n.input != s.nodes[k].output)
  {
    FinishNode(s, k, j);
    var o := OutBefore(k, j);
    if o < k { assert s.nodes[o].output != s.nodes[k].output; } else { assert s.nodes[k].output != s.nodes[o].output; }
    if j > 0 {
      var i := InBefore(k, j) - 1;
      assert s.nodes[i + 1].input == s.nodes[i].output;
      if i < k { assert s.nodes[i].output != s.nodes[k].output; } else { assert s.nodes[k].output != s.nodes[i].output; }
    }
  }

  /** Whenever the controller is idle every helper ever started has ended and has been heard. */
  lemma HelpersAllHeard(states: seq<State>, actions: seq<Action>, i: nat)
    requires IsRun(states, actions) && i < |states| && states[i].ctl.Idle?
    ensures states[i].helper.NoHelper? && states[i].helpers.started == states[i].helpers.received
  {
    InvAlongRun(states, actions, i);
  }
}
