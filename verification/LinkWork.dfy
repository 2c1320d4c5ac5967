/** What a link has still to do: a measure that every productive step takes down. */
module LinkWork {
  import opened Streams
  import opened LinkState
  import opened LinkInvariant
  import opened LinkEffect
  import opened LinkTheorems
  import opened LinkProgress
  import Slicer

  // ---- data, by the pieces that it can still be cut into -------------------------------------------------------

  /** Each byte can become a piece of its own; an empty chunk is a piece too. */
  function Size(c: Chunk): (n: nat)
    ensures n >= 1
  {
    if c == [] then 1 else |c|
  }

  function Mass(cs: seq<Chunk>): nat { if cs == [] then 0 else Size(cs[0]) + Mass(cs[1..]) }

  lemma {:induction false} MassSnoc(cs: seq<Chunk>, c: Chunk)
    ensures Mass(cs + [c]) == Mass(cs) + Size(c)
  {
    if cs == [] {
      assert cs + [c] == [c];
    } else {
      assert (cs + [c])[1..] == cs[1..] + [c];
      MassSnoc(cs[1..], c);
    }
  }

  /** Slicing leaves the mass as it is. */
  lemma {:induction false} MassOfPieces(cs: seq<Chunk>)
    requires forall k :: 0 <= k < |cs| ==> cs[k] != []
    ensures Mass(cs) == |Flat(cs)|
  {
    if cs != [] { MassOfPieces(cs[1..]); }
  }

  lemma SlicedMass(c: Slicer.Settings, data: Chunk, draws: Slicer.Draws)
    ensures Mass(Slicer.Pieces(c, data, draws)) == Size(data)
  {
    var pieces := Slicer.Pieces(c, data, draws);
    if |data| > c.average + c.variation { MassOfPieces(pieces); } else { Slicer.WholePiece(c, data, draws); }
  }

  // ---- how much work a mass is ------------------------------------------------------------------------------------

  /** mass times level. */
  function Weight(mass: nat, level: nat): nat { if mass == 0 then 0 else level + Weight(mass - 1, level) }

  lemma {:induction false} WeightAdd(a: nat, b: nat, level: nat)
    ensures Weight(a + b, level) == Weight(a, level) + Weight(b, level)
  {
    if a > 0 { WeightAdd(a - 1, b, level); }
  }

  lemma {:induction false} WeightHigher(mass: nat, low: nat, more: nat)
    requires mass >= 1
    ensures Weight(mass, low) + more <= Weight(mass, low + more)
  {
    if mass > 1 { WeightHigher(mass - 1, low, more); }
  }

  /** Where a goroutine is, and what it holds, seen from a level that falls along the spine. */
  function PcWork(pc: Pc, level: nat): nat {
    match pc
    case Launched => 6
    case Listening => 5
    case Delaying(rest) => 6 + Weight(Mass(rest), level + 20)
    case Sending(c, rest, _) => 7 + Weight(Size(c), level + 10) + Weight(Mass(rest), level + 20)
    case Flushing(c) => 7 + Weight(Size(c), level + 10)
    case Discarding => 4
    case Closing => 3
    case Returned => 2
    case Stopped => 1
  }

  function Level(s: State, i: nat): nat { if i < s.spine then 30 * (s.spine - i) else 0 }

  function Queue(s: State, i: nat): seq<Chunk>
    requires i < |s.nodes|
  {
    if s.nodes[i].output < |s.chans| then s.chans[s.nodes[i].output].queue else []
  }

  /** A node and the channel behind it. */
  function CellWork(s: State, i: nat): nat {
    if i < |s.nodes| then PcWork(s.nodes[i].pc, Level(s, i)) + Weight(Mass(Queue(s, i)), Level(s, i)) else 0
  }

  function WorkTo(s: State, n: nat): nat { if n == 0 then 0 else WorkTo(s, n - 1) + CellWork(s, n - 1) }

  function Work(s: State): nat { (if s.spine < 0 then 0 else WorkTo(s, s.spine)) + if s.sinkDone then 0 else 1 }

  lemma {:induction false} WorkSame(s: State, s': State, n: nat)
    requires forall j :: 0 <= j < n ==> CellWork(s', j) == CellWork(s, j)
    ensures WorkTo(s', n) == WorkTo(s, n)
  {
    if n > 0 { WorkSame(s, s', n - 1); }
  }

  lemma {:induction false} WorkOne(s: State, s': State, i: nat, n: nat)
    requires i < n && forall j :: 0 <= j < n && j != i ==> CellWork(s', j) == CellWork(s, j)
    ensures WorkTo(s', n) + CellWork(s, i) == WorkTo(s, n) + CellWork(s', i)
  {
    if i == n - 1 { WorkSame(s, s', n - 1); } else { WorkOne(s, s', i, n - 1); }
  }

  /** A step that changes one node and the channel behind it. */
  lemma OneCell(s: State, s': State, i: nat)
    requires Wiring(s) && i < s.spine == s'.spine && |s'.nodes| == |s.nodes| && |s'.chans| == |s.chans|
    requires s'.nodes == s.nodes[i := s'.nodes[i]] && s'.nodes[i].output == s.nodes[i].output
    requires var c := s.nodes[i].output; s'.chans == s.chans[c := s'.chans[c]]
    requires s'.sinkDone == s.sinkDone
    ensures Work(s') + CellWork(s, i) == Work(s) + CellWork(s', i)
  {
    forall j | 0 <= j < s.spine && j != i ensures CellWork(s', j) == CellWork(s, j) {
      if j < i { assert s.nodes[j].output != s.nodes[i].output; }
      if i < j { assert s.nodes[i].output != s.nodes[j].output; }
    }
    WorkOne(s, s', i, s.spine);
  }

  // ---- the steps of a pipe -----------------------------------------------------------------------------------------

  /** What a goroutine has done with a send. */
  lemma SentWork(n: Node, level: nat)
    requires Offering(n)
    ensures PcWork(Sent(n).pc, level) + Weight(Size(Offered(n)), level + 10) < PcWork(n.pc, level)
  {
  }

  lemma DepositDrops(s: State, i: nat)
    requires Wiring(s) && i < s.spine && Enabled(s, Deposit(i))
    ensures Work(PutIn(s, i)) < Work(s)
  {
    var s' := PutIn(s, i);
    OneCell(s, s', i);
    assert Queue(s', i) == Queue(s, i) + [Offered(s.nodes[i])];
    DepositWork(s.nodes[i], Queue(s, i), Level(s, i));
  }

  lemma DepositWork(n: Node, queue: seq<Chunk>, level: nat)
    requires Offering(n)
    ensures PcWork(Sent(n).pc, level) + Weight(Mass(queue + [Offered(n)]), level)
      < PcWork(n.pc, level) + Weight(Mass(queue), level)
  {
    var c := Offered(n);
    MassSnoc(queue, c);
    WeightAdd(Mass(queue), Size(c), level);
    SentWork(n, level);
    WeightHigher(Size(c), level, 10);
  }

  lemma TimeoutDrops(s: State, i: nat)
    requires Wiring(s) && i < s.spine && Offering(s.nodes[i])
    ensures Work(GiveUp(s, i)) < Work(s)
  {
    OneCell(s, GiveUp(s, i), i);
    SentWork(s.nodes[i], Level(s, i));
  }

  lemma TimerWork(pipe: Kind, rest: seq<Chunk>, level: nat)
    requires PipeOk(pipe, Delaying(rest)) && (pipe.Bandwidth? && pipe.rate == 0 ==> rest == [] || rest[0] == [])
    ensures PcWork(OnTimer(pipe, rest), level) < PcWork(Delaying(rest), level)
  {
    if rest != [] {
      var c := rest[0];
      if pipe.Bandwidth? && |c| > pipe.rate * 100 {
        var cut := pipe.rate * 100;
        assert rest[1..] == [] && [c[cut..]] + rest[1..] == [c[cut..]];
        assert Size(c) == Size(c[..cut]) + Size(c[cut..]) && Mass([c[cut..]]) == Size(c[cut..]);
        WeightAdd(Size(c[..cut]), Size(c[cut..]), level + 20);
        WeightHigher(Size(c[..cut]), level + 10, 10);
        assert Mass(rest) == Size(c);
      } else {
        WeightAdd(Size(c), Mass(rest[1..]), level + 20);
        WeightHigher(Size(c), level + 10, 10);
      }
    }
  }

  lemma TimerDrops(s: State, i: nat)
    requires Wiring(s) && PipesOk(s) && i < s.spine && Enabled(s, Timer(i)) && !Starving(s.nodes[i])
    ensures Work(Fire(s, i)) < Work(s)
  {
    var n := s.nodes[i];
    assert PipeOk(n.pipe, n.pc);
    OneCell(s, Fire(s, i), i);
    if n.pc.Delaying? { TimerWork(n.pipe, n.pc.rest, Level(s, i)); }
  }

  // ---- receiving ---------------------------------------------------------------------------------------------------

  lemma TakeDrops(s: State, f: nat)
    requires Wiring(s) && f < s.spine && Queue(s, f) != []
    ensures Work(TakeOut(s, s.nodes[f].output)) + Weight(Size(Queue(s, f)[0]), Level(s, f)) == Work(s)
  {
    var queue := Queue(s, f);
    OneCell(s, TakeOut(s, s.nodes[f].output), f);
    WeightAdd(Size(queue[0]), Mass(queue[1..]), Level(s, f));
  }

  lemma ReceivedWork(pipe: Kind, c: Chunk, draws: Slicer.Draws, level: nat)
    ensures PcWork(OnReceive(pipe, c, draws), level) <= 7 + Weight(Size(c), level + 20)
  {
    WeightHigher(Size(c), level + 10, 10);
    assert Mass([c]) == Size(c);
    if pipe.Slice? {
      var pieces := Slicer.Pieces(pipe.settings, c, draws);
      SlicedMass(pipe.settings, c, draws);
      WeightAdd(Size(pieces[0]), Mass(pieces[1..]), level + 20);
      WeightHigher(Size(pieces[0]), level + 10, 10);
    }
  }

  /** A step that changes where one goroutine is, and what it holds. */
  lemma OnePc(s: State, s': State, r: nat)
    requires Wiring(s) && r < s.spine == s'.spine && |s'.nodes| == |s.nodes| && s'.chans == s.chans
    requires s'.nodes == s.nodes[r := s'.nodes[r]] && s'.nodes[r].output == s.nodes[r].output
    requires s'.sinkDone == s.sinkDone
    ensures Work(s') + PcWork(s.nodes[r].pc, Level(s, r)) == Work(s) + PcWork(s'.nodes[r].pc, Level(s, r))
  {
    OneCell(s, s', r);
  }

  /** A receiver takes up less than the chunk weighed in the channel. */
  lemma StubAdds(s: State, i: nat, draws: Slicer.Draws, c: Chunk)
    requires Wiring(s) && Ready(s, ToStub(i, draws)) && i < s.spine
    ensures Work(Deliver(s, ToStub(i, draws), c)) < Work(s) + Weight(Size(c), Level(s, i - 1))
  {
    OnePc(s, Deliver(s, ToStub(i, draws), c), i);
    ReceivedWork(s.nodes[i].pipe, c, draws, Level(s, i));
    WeightHigher(Size(c), Level(s, i) + 20, 10);
  }

  lemma DrainAdds(s: State, c: Chunk)
    requires Wiring(s) && Ready(s, ToDrain) && s.ctl.index + 1 < s.spine
    ensures Work(Deliver(s, ToDrain, c)) < Work(s) + Weight(Size(c), Level(s, s.ctl.index))
  {
    var r := s.ctl.index + 1;
    OnePc(s, Deliver(s, ToDrain, c), r);
    WeightHigher(Size(c), Level(s, r) + 10, 20);
  }

  lemma SinkAdds(s: State, c: Chunk)
    requires Wiring(s) && Ready(s, ToSink)
    ensures Work(Deliver(s, ToSink, c)) < Work(s) + Weight(Size(c), Level(s, s.spine - 1))
  {
    WorkSame(s, Deliver(s, ToSink, c), s.spine);
    WeightHigher(Size(c), 0, 30);
  }

  /** The receiver is behind node f. */
  ghost predicate Behind(s: State, to: Receiver, f: nat) {
    && Ready(s, to) && f < s.spine <= |s.nodes| && Source(s, to) == s.nodes[f].output
    && match to
       case ToStub(i, _) => i == f + 1 < s.spine
       case ToSink => f == s.spine - 1
       case ToDrain => s.ctl.index == f && f + 1 < s.spine
  }

  lemma FeederBefore(s: State, to: Receiver)
    requires Inv(s) && Ready(s, to)
    ensures Feeder(s, to) >= 0 && Behind(s, to, Feeder(s, to))
  {
    FeederFeeds(s, to);
  }

  lemma DeliverAdds(s: State, to: Receiver, f: nat, c: Chunk)
    requires Wiring(s) && Behind(s, to, f)
    ensures Work(Deliver(s, to, c)) < Work(s) + Weight(Size(c), Level(s, f))
  {
    match to
    case ToStub(i, draws) => StubAdds(s, i, draws, c);
    case ToSink => SinkAdds(s, c);
    case ToDrain => DrainAdds(s, c);
  }

  /** The receiver stays where it is while the chunk leaves node f, or the channel behind it. */
  lemma SameReceiver(s: State, s': State, to: Receiver, f: nat)
    requires Wiring(s) && Behind(s, to, f) && SameWires(s, s') && s'.ctl == s.ctl && s'.sinkDone == s.sinkDone
    requires forall j :: f < j < |s.nodes| ==> s'.nodes[j] == s.nodes[j]
    ensures Wiring(s') && Behind(s', to, f) && Level(s', f) == Level(s, f)
  {
    WiringFrame(s, s');
  }

  lemma QueuedWork(s: State, to: Receiver, f: nat)
    requires Wiring(s) && Enabled(s, Queued(to)) && Behind(s, to, f)
    ensures Work(Apply(s, Queued(to))) < Work(s)
  {
    TakeDrops(s, f);
    SameReceiver(s, TakeOut(s, Source(s, to)), to, f);
    DeliverAdds(TakeOut(s, Source(s, to)), to, f, s.chans[Source(s, to)].queue[0]);
  }

  lemma QueuedDrops(s: State, to: Receiver)
    requires Inv(s) && Enabled(s, Queued(to))
    ensures Work(Apply(s, Queued(to))) < Work(s)
  {
    FeederBefore(s, to);
    QueuedWork(s, to, Feeder(s, to));
  }

  lemma DirectWork(s: State, to: Receiver, i: nat)
    requires Wiring(s) && Enabled(s, Direct(to, i)) && Behind(s, to, i)
    requires !(to.ToStub? && to.i == i) && !(to.ToDrain? && s.ctl.index + 1 == i)
    ensures Work(Deliver(SetNode(s, i, Sent(s.nodes[i])), to, Offered(s.nodes[i]))) < Work(s)
  {
    var s1 := SetNode(s, i, Sent(s.nodes[i]));
    OnePc(s, s1, i);
    SentWork(s.nodes[i], Level(s, i));
    WeightHigher(Size(Offered(s.nodes[i])), Level(s, i), 10);
    SameReceiver(s, s1, to, i);
    DeliverAdds(s1, to, i, Offered(s.nodes[i]));
  }

  lemma DirectDrops(s: State, to: Receiver, i: nat)
    requires Inv(s) && Enabled(s, Direct(to, i))
    ensures Work(Deliver(SetNode(s, i, Sent(s.nodes[i])), to, Offered(s.nodes[i]))) < Work(s)
  {
    DirectIsFeeder(s, to, i);
    FeederBefore(s, to);
    DirectWork(s, to, i);
  }

  lemma NilWork(s: State, to: Receiver, f: nat)
    requires Wiring(s) && Behind(s, to, f) && Enabled(s, Nil(to)) && !to.ToDrain?
    ensures Work(DeliverNil(s, to)) < Work(s)
  {
    if to.ToSink? { WorkSame(s, DeliverNil(s, to), s.spine); } else { OnePc(s, DeliverNil(s, to), to.i); }
  }

  lemma NilDrops(s: State, to: Receiver)
    requires Inv(s) && Enabled(s, Nil(to)) && !to.ToDrain?
    ensures Work(DeliverNil(s, to)) < Work(s)
  {
    FeederBefore(s, to);
    NilWork(s, to, Feeder(s, to));
  }
  /** A goroutine begins, closes its output or ends. */
  lemma OwnDrops(s: State, a: Action)
    requires Wiring(s) && Enabled(s, a) && !Panics(s, a) && (a.Start? || a.CloseOutput? || a.Exit?) && a.i < s.spine
    ensures Work(Apply(s, a)) < Work(s)
  {
    OneCell(s, Apply(s, a), a.i);
  }

  // ---- all productive steps ----------------------------------------------------------------------------------------

  function HelperRank(h: Helper): nat {
    match h
    case NoHelper => 0
    case HelperSending(_, _) => 1
    case HelperAwaiting(_) => 2
    case HelperInterrupting(_) => 3
  }

  /** How far an operation has come. */
  function CtlRank(s: State): nat {
    match s.ctl
    case Idle => 0
    case Emptying(_) => 1
    case AwaitingStop(_) => 1 + HelperRank(s.helper)
    case Draining(_, _) => 5 + HelperRank(s.helper)
    case Awaiting(_) => 9
    case Interrupting(_) => 10
  }

  /** The steps of an operation and its helper. */
  predicate OfOperation(a: Action) { (ByController(a) && Onward(a)) || (a.Nil? && a.to.ToDrain?) }

  lemma OperationDrops(s: State, a: Action, s': State)
    requires ControlOk(s) && Next(s, a, s') && OfOperation(a)
    ensures CtlRank(s') < CtlRank(s)
  {
  }

  lemma OperationWaits(s: State, a: Action, s': State)
    requires Next(s, a, s') && !ByController(a) && Onward(a) && !OfOperation(a)
    ensures CtlRank(s') == CtlRank(s)
  {
  }

  lemma OnSpine(s: State, a: Action)
    requires NodesOk(s) && Wiring(s) && Enabled(s, a)
    requires a.Start? || a.CloseOutput? || a.Exit? || a.Deposit? || a.Timer? || a.Timeout?
    ensures a.i < s.spine
  {
  }

  lemma PipeDrops(s: State, a: Action)
    requires Inv(s) && PipesOk(s) && Enabled(s, a) && !Panics(s, a) && Productive(s, a) && !ByController(a) && !OfOperation(a)
    ensures Work(Apply(s, a)) < Work(s)
  {
    if a.Queued? { QueuedDrops(s, a.to); }
    else if a.Direct? { DirectDrops(s, a.to, a.i); }
    else if a.Nil? { NilDrops(s, a.to); }
    else { OwnStepDrops(s, a); }
  }

  lemma OwnStepDrops(s: State, a: Action)
    requires Wiring(s) && NodesOk(s) && PipesOk(s) && Enabled(s, a) && !Panics(s, a) && Productive(s, a)
    requires !ByController(a) && !a.Queued? && !a.Direct? && !a.Nil?
    ensures Work(Apply(s, a)) < Work(s)
  {
    OnSpine(s, a);
    if a.Deposit? { DepositDrops(s, a.i); }
    else if a.Timer? { TimerDrops(s, a.i); }
    else if a.Timeout? { TimeoutDrops(s, a.i); }
    else { OwnDrops(s, a); }
  }

  /** Every productive step of anybody brings the operation forward, or leaves it where it is and
      leaves less work to do. */
  lemma ProductiveDrops(s: State, a: Action, s': State)
    requires Inv(s) && PipesOk(s) && Next(s, a, s') && Productive(s, a)
    ensures CtlRank(s') < CtlRank(s) || (CtlRank(s') == CtlRank(s) && Work(s') < Work(s))
  {
    if OfOperation(a) {
      OperationDrops(s, a, s');
    } else {
      OperationWaits(s, a, s');
      PipeDrops(s, a);
    }
  }

  // ---- every link comes to rest ------------------------------------------------------------------------------------

  /** A run that goes on from another with steps that neither bring in data nor begin an operation. */
  ghost predicate Continues(states: seq<State>, actions: seq<Action>, more: seq<State>, acts: seq<Action>) {
    && IsRun(more, acts) && states <= more && actions <= acts
    && forall j :: |actions| <= j < |acts| ==> Onward(acts[j])
  }

  lemma OneStepMore(states: seq<State>, actions: seq<Action>, a: Action, s': State)
    requires IsRun(states, actions) && Next(states[|actions|], a, s')
    ensures IsRun(states + [s'], actions + [a])
  {
    forall i | 0 <= i < |actions + [a]| ensures StepAt(states + [s'], actions + [a], i) {
      if i < |actions| { assert StepAt(states, actions, i); }
    }
  }

  lemma StepDrops(states: seq<State>, actions: seq<Action>, a: Action, s': State)
    requires IsRun(states, actions) && Next(states[|actions|], a, s') && Productive(states[|actions|], a)
    ensures var s := states[|actions|]; CtlRank(s') < CtlRank(s) || (CtlRank(s') == CtlRank(s) && Work(s') < Work(s))
  {
    GoodAlongRun(states, actions, |actions|);
    ProductiveDrops(states[|actions|], a, s');
  }

  /** Every run can be continued until nothing can go on any more; any choice of productive steps does it. */
  lemma {:induction false} Settle(states: seq<State>, actions: seq<Action>) returns (more: seq<State>, acts: seq<Action>)
    requires IsRun(states, actions)
    ensures Continues(states, actions, more, acts) && !CanGoOn(more[|acts|])
    decreases CtlRank(states[|actions|]), Work(states[|actions|])
  {
    more, acts := states, actions;
    var s := states[|actions|];
    if a :| Enabled(s, a) && Productive(s, a) && !Panics(s, a) {
      var s' := Apply(s, a);
      OneStepMore(states, actions, a, s');
      StepDrops(states, actions, a, s');
      more, acts := Settle(states + [s'], actions + [a]);
    }
  }

  ghost predicate StepOf(run: nat -> State, steps: nat -> Action, n: nat) { Next(run(n), steps(n), run(n + 1)) }

  /** A run without end. */
  ghost predicate Endless(run: nat -> State, steps: nat -> Action) {
    run(0).chain != [] && run(0) == Build(run(0).chain) && forall n: nat :: StepOf(run, steps, n)
  }

  lemma EndlessDrops(run: nat -> State, steps: nat -> Action, n: nat)
    requires Endless(run, steps) && Productive(run(n), steps(n))
    ensures CtlRank(run(n + 1)) < CtlRank(run(n))
      || (CtlRank(run(n + 1)) == CtlRank(run(n)) && Work(run(n + 1)) < Work(run(n)))
  {
    var states, actions := seq(n + 1, (i: nat) => run(i)), seq(n, (i: nat) => steps(i));
    forall i | 0 <= i < n ensures StepAt(states, actions, i) { assert StepOf(run, steps, i); }
    assert StepOf(run, steps, n);
    StepDrops(states, actions, steps(n), run(n + 1));
  }

  /** In every run without end the source writes or closes, an operation begins, or a bandwidth of rate
      0 sends an empty piece, again and again: without them every link comes to rest, and with it every
      operation, whatever the schedule. */
  lemma {:induction false} ComesToRest(run: nat -> State, steps: nat -> Action, n: nat)
    requires Endless(run, steps)
    ensures exists m :: m >= n && !Productive(run(m), steps(m))
    decreases CtlRank(run(n)), Work(run(n))
  {
    if Productive(run(n), steps(n)) {
      EndlessDrops(run, steps, n);
      ComesToRest(run, steps, n + 1);
      var m :| m >= n + 1 && !Productive(run(m), steps(m));
    }
  }
}
