/** A toxic link as the object that it is: stubs whose fields the goroutines and the operations
    change in place. Each step is tied to the transition of LinkState that it takes. */
module Link {
  import opened Streams
  import opened LinkState
  import opened LinkInvariant
  import opened LinkAlign
  import opened LinkTheorems
  import opened LinkSchedule

  /** ToxicStub, and where its goroutine is. */
  class ToxicStub {
    ghost const owner: ToxicLink
    var input: nat
    var output: nat
    var closed: bool
    var pc: Pc
    var pipe: Kind
    var toxic: Toxic

    function View(): Node reads this { Node(input, output, closed, pc, pipe, toxic) }

    constructor (ghost owner: ToxicLink, input: nat, output: nat, pc: Pc, toxic: Toxic)
      ensures this.owner == owner && View() == Node(input, output, false, pc, Noop, toxic)
    {
      this.owner := owner;
      this.input, this.output, this.closed := input, output, false;
      this.pc, this.pipe, this.toxic := pc, Noop, toxic;
    }

    /** The goroutine's send has been taken. */
    method Sent()
      requires Offering(View())
      modifies `pc
      ensures View() == LinkState.Sent(old(View()))
    {
      if pc.Flushing? {
        pc := Stopped;
      } else if pc.leaving {
        pc := Returned;
      } else {
        pc := AfterSend(pipe, pc.rest);
      }
    }
  }

  function Views(nodes: seq<ToxicStub>): seq<Node>
    reads nodes
  {
    seq(|nodes|, i requires 0 <= i < |nodes| reads nodes => nodes[i].View())
  }

  ghost predicate Distinct(nodes: seq<ToxicStub>) { forall i, j :: 0 <= i < j < |nodes| ==> nodes[i] != nodes[j] }

  lemma OneChanged(was: seq<Node>, now: seq<Node>, i: nat)
    requires i < |was| == |now| && forall j :: 0 <= j < |was| && j != i ==> now[j] == was[j]
    ensures now == was[i := now[i]]
  {
  }

  lemma RunGrows(states: seq<State>, actions: seq<Action>, a: Action, s': State)
    requires IsRun(states, actions) && Next(states[|actions|], a, s')
    ensures IsRun(states + [s'], actions + [a])
  {
    var all, acts := states + [s'], actions + [a];
    forall i | 0 <= i < |acts| ensures StepAt(all, acts, i) {
      if i < |actions| {
        assert StepAt(states, actions, i);
        assert all[i] == states[i] && all[i + 1] == states[i + 1] && acts[i] == actions[i];
      } else {
        assert all[i] == states[i] && all[i + 1] == s' && acts[i] == a;
      }
    }
  }

  /** No step but a Begin changes the chain; an operation adds no further stub, and becomes no
      other operation. */
  lemma StepKeepsChain(s: State, a: Action, s': State)
    requires Next(s, a, s') && !IsBegin(a)
    ensures SameChain(s, s')
  {
    if a.Queued? || a.Direct? || a.Nil? { ReceiveKeepsChain(s, a, s'); }
    else if ByController(a) { OperationKeepsChain(s, a, s'); }
    else { PipeKeepsChain(s, a, s'); }
  }

  ghost predicate SameChain(s: State, s': State) {
    && s'.chain == s.chain && s'.outChan == s.outChan && |s'.nodes| <= |s.nodes|
    && (Pending(s') ==> Pending(s)) && (s.ctl.Idle? ==> s'.ctl.Idle?)
    && (Pending(s) ==> |s'.nodes| == |s.nodes| && if s'.ctl.Idle? then AddedOrSealed(s') else Pending(s'))
  }

  lemma ChainStaysSame(s: State, s': State, s'': State)
    requires SameChain(s, s') && SameChain(s', s'') && (s'.ctl.Idle? ==> s.ctl.Idle?)
    ensures SameChain(s, s'')
  {
  }

  /** AddToxic has found the toxic of the stub before the new one, or the link closed. */
  predicate AddedOrSealed(s: State) {
    s.nodes != [] && (s.nodes[|s.nodes| - 1].closed || |s.nodes| - 3 < |s.chain|)
  }

  lemma ReceiveKeepsChain(s: State, a: Action, s': State)
    requires Next(s, a, s') && (a.Queued? || a.Direct? || a.Nil?)
    ensures SameChain(s, s')
  {
  }

  lemma OperationKeepsChain(s: State, a: Action, s': State)
    requires Next(s, a, s') && ByController(a) && !IsBegin(a)
    ensures SameChain(s, s')
  {
  }

  lemma PipeKeepsChain(s: State, a: Action, s': State)
    requires Next(s, a, s') && !(a.Queued? || a.Direct? || a.Nil?) && !ByController(a)
    ensures SameChain(s, s')
  {
  }

  datatype Direction = Upstream | Downstream

  class ToxicLink {
    const direction: Direction
    ghost var states: seq<State>
    ghost var actions: seq<Action>
    var chans: seq<Chan>
    var nodes: seq<ToxicStub>
    var spine: int
    var outChan: nat
    var chain: seq<Toxic>
    var ctl: Ctl
    var helper: Helper
    var sinkDone: bool
    var written: seq<Chunk>
    var delivered: seq<Chunk>
    var dropped: seq<Chunk>
    var discarded: seq<Chunk>
    var helpers: History

    function View(): State
      reads this, nodes
    {
      State(chans, Views(nodes), spine, outChan, chain, ctl, helper, sinkDone, written, delivered, dropped, discarded, helpers)
    }

    ghost predicate Owned()
      reads this
    {
      forall i :: 0 <= i < |nodes| ==> nodes[i].owner == this
    }

    /** The link is in the last state of a run from its construction. */
    ghost predicate Valid()
      reads this, nodes
    {
      Distinct(nodes) && Owned() && IsRun(states, actions) && states[|actions|] == View()
    }

    /** NewToxicLink and Start. */
    constructor (direction: Direction, chain: seq<Toxic>)
      requires chain != []
      ensures Valid() && fresh(nodes)
      ensures this.direction == direction && View() == Build(chain)
    {
      this.direction, this.chain, this.spine, this.outChan := direction, chain, |chain| + 1, |chain|;
      ctl, helper, sinkDone, helpers := Idle, NoHelper, false, History(0, 0);
      written, delivered, dropped, discarded := [], [], [], [];
      states, actions := [Build(chain)], [];
      chans, nodes := [Chan(0, [], false)], [];
      new;
      var source := new ToxicStub(this, 0, 0, Listening, chain[0]);
      nodes := [source];
      MakeStubs();
    }

    /** NewToxicLink's loop over the chain. */
    method MakeStubs()
      requires chain != [] && Distinct(nodes) && Owned()
      requires chans == Build(chain).chans[..1] && Views(nodes) == Build(chain).nodes[..1]
      modifies `chans, `nodes
      ensures Distinct(nodes) && Owned() && fresh(set n | n in nodes && n !in old(nodes))
      ensures chans == Build(chain).chans && Views(nodes) == Build(chain).nodes
    {
      ghost var goal := Build(chain);
      for i := 0 to |chain|
        invariant |nodes| == i + 1 && Distinct(nodes) && Owned() && fresh(set n | n in nodes && n !in old(nodes))
        invariant chans == goal.chans[..i + 1] && Views(nodes) == goal.nodes[..i + 1]
      {
        var capacity := if i + 1 < |chain| then chain[i + 1].bufferSize else 0;
        var stub := new ToxicStub(this, i, i + 1, Launched, chain[i]);
        assert Views(nodes + [stub]) == Views(nodes) + [goal.nodes[i + 1]];
        chans := chans + [Chan(capacity, [], false)];
        nodes := nodes + [stub];
      }
    }

    /** Close: the stub's output is closed with it. */
    method Close(i: nat)
      requires Distinct(nodes) && i < |nodes| && nodes[i].output < |chans|
      modifies `chans, nodes[i]
      ensures View() == CloseNow(old(View()), i)
    {
      nodes[i].closed := true;
      var c := nodes[i].output;
      chans := chans[c := chans[c].(closed := true)];
      OneChanged(old(Views(nodes)), Views(nodes), i);
    }

    method Goto(i: nat, pc: Pc)
      requires Distinct(nodes) && i < |nodes|
      modifies nodes[i]
      ensures View() == SetPc(old(View()), i, pc)
    {
      nodes[i].pc := pc;
      OneChanged(old(Views(nodes)), Views(nodes), i);
    }

    method Redirect(i: nat, output: nat)
      requires Distinct(nodes) && i < |nodes|
      modifies nodes[i]
      ensures View() == SetNode(old(View()), i, old(View()).nodes[i].(output := output)) && nodes[i].output == output
    {
      nodes[i].output := output;
      OneChanged(old(Views(nodes)), Views(nodes), i);
    }

    /** `go stub.Run(toxic)` */
    method Launch(i: nat, toxic: Toxic)
      requires Distinct(nodes) && i < |nodes|
      modifies nodes[i]
      ensures View() == LinkState.Launch(old(View()), i, toxic)
    {
      nodes[i].pc, nodes[i].toxic := Launched, toxic;
      OneChanged(old(Views(nodes)), Views(nodes), i);
    }

    // ---- the goroutines' steps ------------------------------------------------------------------------------

    method TakeOut(c: nat)
      requires c < |chans| && chans[c].queue != []
      modifies `chans
      ensures View() == LinkState.TakeOut(old(View()), c)
    {
      chans := chans[c := chans[c].(queue := chans[c].queue[1..])];
    }

    method Taken(i: nat)
      requires Distinct(nodes) && i < |nodes| && Offering(nodes[i].View())
      modifies nodes[i]
      ensures View() == SetNode(old(View()), i, LinkState.Sent(old(View()).nodes[i]))
    {
      nodes[i].Sent();
      OneChanged(old(Views(nodes)), Views(nodes), i);
    }

    method Put(i: nat)
      requires Distinct(nodes) && i < |nodes| && Offering(nodes[i].View()) && nodes[i].output < |chans|
      modifies `chans, nodes[i]
      ensures View() == PutIn(old(View()), i)
    {
      var c := nodes[i].output;
      chans := chans[c := chans[c].(queue := chans[c].queue + [nodes[i].pc.chunk])];
      nodes[i].Sent();
      OneChanged(old(Views(nodes)), Views(nodes), i);
    }

    method Receive(to: Receiver, c: Chunk)
      requires Distinct(nodes) && Ready(View(), to)
      modifies `delivered, `discarded, nodes
      ensures View() == Deliver(old(View()), to, c)
    {
      match to {
        case ToStub(i, draws) =>
          if nodes[i].pipe.ResetPeer? { discarded := discarded + [c]; }
          Goto(i, OnReceive(nodes[i].pipe, c, draws));
        case ToSink =>
          delivered := delivered + [c];
        case ToDrain =>
          Goto(ctl.index + 1, Flushing(c));
      }
    }

    method ReceiveQueued(to: Receiver)
      requires Distinct(nodes) && Enabled(View(), Queued(to))
      modifies `chans, `delivered, `discarded, nodes
      ensures View() == Apply(old(View()), Queued(to))
    {
      var c := Source(View(), to);
      var chunk := chans[c].queue[0];
      TakeOut(c);
      Receive(to, chunk);
    }

    method Rendezvous(to: Receiver, i: nat)
      requires Distinct(nodes) && Enabled(View(), Direct(to, i)) && !Panics(View(), Direct(to, i))
      modifies `delivered, `discarded, nodes
      ensures View() == Apply(old(View()), Direct(to, i))
    {
      var chunk := nodes[i].pc.chunk;
      Taken(i);
      Receive(to, chunk);
    }

    method ReceiveNil(to: Receiver)
      requires Distinct(nodes) && Enabled(View(), Nil(to))
      modifies `chans, `ctl, `sinkDone, nodes
      ensures View() == DeliverNil(old(View()), to)
    {
      match to {
        case ToStub(i, draws) =>
          if nodes[i].pipe.ResetPeer? {
            Goto(i, Discarding);
          } else {
            nodes[i].closed, nodes[i].pc := true, Closing;
            OneChanged(old(Views(nodes)), Views(nodes), i);
          }
        case ToSink =>
          sinkDone := true;
        case ToDrain =>
          Close(ctl.index + 1);
          ctl := if ctl.stopped then Idle else AwaitingStop(ctl.index);
      }
    }

    /** Run picks the toxic, or a noop, and Pipe begins. */
    method Runs(i: nat, chosen: bool)
      requires Distinct(nodes) && i < |nodes| && nodes[i].pc.Launched?
      modifies nodes[i]
      ensures View() == Apply(old(View()), Start(i, chosen))
    {
      nodes[i].pc, nodes[i].pipe := Listening, if chosen then nodes[i].toxic.kind else Noop;
      OneChanged(old(Views(nodes)), Views(nodes), i);
    }

    /** Close(s.Output), the second half of Close. */
    method ClosesOutput(i: nat)
      requires Distinct(nodes) && i < |nodes| && nodes[i].output < |chans|
      modifies `chans, nodes[i]
      ensures View() == CloseChan(old(View()), i)
    {
      var c := nodes[i].output;
      chans := chans[c := chans[c].(closed := true)];
      Goto(i, Returned);
    }

    /** WriteOutput runs into its timeout. */
    method GivesUp(i: nat)
      requires Distinct(nodes) && i < |nodes| && Offering(nodes[i].View())
      modifies `dropped, nodes[i]
      ensures View() == GiveUp(old(View()), i)
    {
      dropped := dropped + [nodes[i].pc.chunk];
      Taken(i);
    }

    /** The timer of a Pipe's inner select fires. */
    method Fires(i: nat)
      requires Distinct(nodes) && i < |nodes| && (nodes[i].pc.Delaying? || nodes[i].pc.Discarding?)
      modifies nodes[i]
      ensures View() == Fire(old(View()), i)
    {
      if nodes[i].pc.Discarding? {
        nodes[i].closed, nodes[i].pc := true, Closing;
      } else {
        nodes[i].pc := OnTimer(nodes[i].pipe, nodes[i].pc.rest);
      }
      OneChanged(old(Views(nodes)), Views(nodes), i);
    }

    // ---- the operations' steps ------------------------------------------------------------------------------

    /** AddToxic appends a stub; it shares the last stub's output for now. */
    method Append(toxic: Toxic)
      requires Distinct(nodes) && nodes != []
      modifies `chans, `nodes, `chain, `ctl
      ensures View() == LinkState.Append(old(View()), toxic)
      ensures Distinct(nodes) && |nodes| == old(|nodes|) + 1 && nodes[..old(|nodes|)] == old(nodes)
        && nodes[old(|nodes|)].owner == this
    {
      var stub := new ToxicStub(this, |chans|, nodes[|nodes| - 1].output, Stopped, toxic);
      chans := chans + [Chan(toxic.bufferSize, [], false)];
      nodes := nodes + [stub];
      chain := chain + [toxic];
      ctl := Interrupting(Adding(toxic));
      assert Views(nodes) == old(Views(nodes)) + [stub.View()];
    }

    /** AddToxic connects the new stub and restarts the one before it. */
    method Connect(toxic: Toxic)
      requires Distinct(nodes) && |nodes| >= 3 && !ChainTooShort(View())
      modifies `spine, `ctl, nodes
      ensures View() == LinkState.Connect(old(View()), toxic)
    {
      var i := |nodes| - 1;
      nodes[i - 1].output := nodes[i].input;
      OneChanged(old(Views(nodes)), Views(nodes), i - 1);
      Launch(i, toxic);
      Launch(i - 1, chain[i - 2]);
      spine, ctl := spine + 1, Idle;
    }

    /** AddToxic on a closed link. */
    method Seal()
      requires Distinct(nodes) && nodes != [] && nodes[|nodes| - 1].input < |chans|
      modifies `chans, `ctl, nodes
      ensures View() == LinkState.Seal(old(View()))
    {
      var i := |nodes| - 1;
      Redirect(i, nodes[i].input);
      Close(i);
      ctl := Idle;
    }

    /** RemoveToxic takes the stub out and restarts the one before it. */
    method Disconnect(index: nat)
      requires Distinct(nodes) && 1 <= index && index + 1 < |nodes| && index - 1 < |chain|
      modifies `nodes, `spine, `ctl, nodes
      ensures View() == LinkState.Disconnect(old(View()), index)
      ensures Distinct(nodes) && nodes == old(nodes[..index + 1] + nodes[index + 2..])
    {
      Redirect(index, nodes[index + 1].output);
      Unlink(index + 1);
      Launch(index, chain[index - 1]);
    }

    /** The stub leaves the list. */
    method Unlink(i: nat)
      requires Distinct(nodes) && i < |nodes|
      modifies `nodes, `spine, `ctl
      ensures nodes == old(nodes[..i] + nodes[i + 1..]) && Distinct(nodes)
      ensures View() == old(View()).(nodes := old(Views(nodes)[..i] + Views(nodes)[i + 1..]), spine := old(spine) - 1, ctl := Idle)
    {
      var without := nodes[..i] + nodes[i + 1..];
      assert Views(without) == Views(nodes)[..i] + Views(nodes)[i + 1..];
      nodes, spine, ctl := without, spine - 1, Idle;
    }

    // ---- one step ---------------------------------------------------------------------------------------------

    /** A chunk, or the end of the stream, moves from one goroutine to a channel or another goroutine. */
    method Move(a: Action)
      requires Distinct(nodes) && Enabled(View(), a) && !Panics(View(), a)
        && (a.Queued? || a.Direct? || a.Nil? || a.Deposit?)
      modifies this, nodes
      ensures View() == Apply(old(View()), a) && nodes == old(nodes)
      ensures states == old(states) && actions == old(actions)
    {
      match a {
        case Queued(to) => ReceiveQueued(to);
        case Direct(to, i) => Rendezvous(to, i);
        case Nil(to) => ReceiveNil(to);
        case Deposit(i) => Put(i);
      }
    }

    /** A goroutine takes a step on its own. */
    method Progress(a: Action)
      requires Distinct(nodes) && Enabled(View(), a) && !Panics(View(), a)
      requires a.SourceWrite? || a.SourceClose? || a.Start? || a.Timer? || a.CloseOutput? || a.Exit? || a.Timeout?
      modifies this, nodes
      ensures View() == Apply(old(View()), a) && nodes == old(nodes)
      ensures states == old(states) && actions == old(actions)
    {
      match a {
        case SourceWrite(c) =>
          Goto(0, Sending(c, [], false));
          written := written + [c];
        case SourceClose =>
          Close(0);
          Goto(0, Stopped);
        case Start(i, chosen) => Runs(i, chosen);
        case Timer(i) => Fires(i);
        case CloseOutput(i) => ClosesOutput(i);
        case Exit(i) => Goto(i, Stopped);
        case Timeout(i) => GivesUp(i);
      }
    }

    /** An operation begins: the collection has changed the chain, and AddToxic appends its stub. */
    method Begins(a: Action)
      requires Distinct(nodes) && Enabled(View(), a) && !Panics(View(), a)
        && IsBegin(a)
      modifies this
      ensures View() == Apply(old(View()), a)
      ensures states == old(states) && actions == old(actions)
      ensures Distinct(nodes) && (old(Owned()) ==> Owned())
    {
      match a {
        case BeginAdd(toxic) => Append(toxic);
        case BeginUpdate(index, toxic) =>
          chain, ctl := chain[index := toxic], Interrupting(Updating(index, toxic));
        case BeginRemove(index) =>
          chain, ctl := chain[..index] + chain[index + 1..], Interrupting(Removing(index));
      }
    }

    /** A step of an operation under way, or of RemoveToxic's helper. */
    method Operate(a: Action)
      requires Distinct(nodes) && Enabled(View(), a) && !Panics(View(), a)
      requires ByController(a) && !IsBegin(a) && !a.Finish?
      modifies this, nodes
      ensures View() == Apply(old(View()), a) && nodes == old(nodes)
      ensures states == old(states) && actions == old(actions)
    {
      if a.Accept? {
        Interrupts();
      } else if a.Refuse? {
        Refused();
      } else if a.Resume? {
        Resumes();
      } else if a.StopReceived? {
        HearsStop();
      } else {
        Helps(a);
      }
    }

    /** The rendezvous of InterruptToxic with the target's select. */
    method Interrupts()
      requires Distinct(nodes) && Enabled(View(), Accept)
      modifies `ctl, nodes
      ensures View() == Apply(old(View()), Accept)
    {
      var t := Target(View(), ctl.op);
      Goto(t, OnInterrupt(nodes[t].pc));
      ctl := Awaiting(ctl.op);
    }

    /** InterruptToxic has returned false. */
    method Refused()
      requires Distinct(nodes) && Enabled(View(), Refuse) && !Panics(View(), Refuse)
      modifies `chans, `ctl, nodes
      ensures View() == Apply(old(View()), Refuse)
    {
      if ctl.op.Adding? {
        Seal();
      } else {
        ctl := Idle;
      }
    }

    /** RemoveToxic receives from stop. */
    method HearsStop()
      requires Enabled(View(), StopReceived)
      modifies `ctl, `helper, `helpers
      ensures View() == Apply(old(View()), StopReceived)
    {
      helpers := helpers.(received := helpers.received + 1);
      ctl := if ctl.AwaitingStop? then Idle else if helper.result then Emptying(ctl.index) else Draining(ctl.index, true);
      helper := NoHelper;
    }

    /** RemoveToxic's helper goroutine. */
    method Helps(a: Action)
      requires Distinct(nodes) && Enabled(View(), a) && (a.HelperAccept? || a.HelperRefuse? || a.HelperStopped?)
      modifies `helper, nodes
      ensures View() == Apply(old(View()), a)
    {
      match a {
        case HelperAccept =>
          Goto(helper.node, OnInterrupt(nodes[helper.node].pc));
          helper := HelperAwaiting(helper.node);
        case HelperRefuse => helper := HelperSending(helper.node, false);
        case HelperStopped => helper := HelperSending(helper.node, true);
      }
    }

    /** The target of an operation has stopped. */
    method Resumes()
      requires Distinct(nodes) && Enabled(View(), Resume) && !Panics(View(), Resume)
      modifies this, nodes
      ensures View() == Apply(old(View()), Resume) && nodes == old(nodes)
      ensures states == old(states) && actions == old(actions)
    {
      match ctl.op {
        case Adding(toxic) => Connect(toxic);
        case Updating(index, toxic) =>
          Launch(index + 1, toxic);
          ctl := Idle;
        case Removing(index) => Spawns(index);
      }
    }

    /** RemoveToxic starts the goroutine that interrupts the previous stub. */
    method Spawns(index: nat)
      modifies `ctl, `helper, `helpers
      ensures View() == SpawnHelper(old(View()), index)
    {
      ctl, helper := Draining(index, false), HelperInterrupting(index);
      helpers := helpers.(started := helpers.started + 1);
    }

    method Act(a: Action)
      requires Distinct(nodes) && Enabled(View(), a) && !Panics(View(), a)
      modifies this, nodes
      ensures View() == Apply(old(View()), a)
      ensures states == old(states) && actions == old(actions)
      ensures Distinct(nodes) && (old(Owned()) ==> Owned())
    {
      if a.Queued? || a.Direct? || a.Nil? || a.Deposit? {
        Move(a);
      } else if a.BeginAdd? || a.BeginUpdate? || a.BeginRemove? {
        Begins(a);
      } else if a.Finish? {
        Disconnect(ctl.index);
      } else if ByController(a) {
        Operate(a);
      } else {
        Progress(a);
      }
    }

    method Step(a: Action)
      requires Valid() && Enabled(View(), a) && !Panics(View(), a)
      modifies this, set stub: ToxicStub | stub.owner == this
      ensures Valid() && View() == Apply(old(View()), a)
      ensures states == old(states) + [View()] && actions == old(actions) + [a]
    {
      Act(a);
      RunGrows(states, actions, a, View());
      states, actions := states + [View()], actions + [a];
    }

    // ---- whole operations ---------------------------------------------------------------------------------------

    /** One step of a schedule, unless it is not possible or crashes. */
    method Try(a: Action) returns (ok: bool)
      requires Valid() && !IsBegin(a)
      modifies this, set stub: ToxicStub | stub.owner == this
      ensures Valid() && SameChain(old(View()), View())
      ensures var s := old(View());
        if !Enabled(s, a) then ok && View() == s && actions == old(actions)
        else if Panics(s, a) then !ok && View() == s && actions == old(actions)
        else ok && View() == Apply(s, a) && actions == old(actions) + [a]
      ensures !ok ==> Pending(View()) && |nodes| >= |chain| + 3
    {
      if Enabled(View(), a) {
        GoodAlongRun(states, actions, |actions|);
        PanicsOnlyOnShortChain(states, actions, |actions|, a);
        if Panics(View(), a) {
          return false;
        }
        StepKeepsChain(View(), a, Apply(View(), a));
        Step(a);
      }
      ok := true;
    }

    /** Traffic between operations: the steps of the schedule that are possible. */
    method Flow(schedule: seq<Action>)
      requires Valid() && ctl.Idle?
      modifies this, set stub: ToxicStub | stub.owner == this
      ensures Valid() && ctl.Idle? && chain == old(chain) && outChan == old(outChan)
      ensures var f := Traffic(old(View()), schedule); View() == f.state && actions == old(actions) + f.taken
    {
      ghost var from, s, taken: seq<Action> := View(), View(), [];
      assert schedule[0..] == schedule;
      for i := 0 to |schedule|
        invariant Valid() && View() == s && SameChain(from, s) && actions == old(actions) + taken
        invariant After(taken, Traffic(s, schedule[i..])) == Traffic(from, schedule)
      {
        var a := schedule[i];
        TrafficTurn(s, schedule, i, taken);
        if !IsBegin(a) {
          var ok := Try(a);
          ChainStaysSame(from, s, View());
          if Enabled(s, a) && !Panics(s, a) { s, taken := Apply(s, a), taken + [a]; }
        }
      }
    }

    /** An operation under way and the traffic around it, as far as the schedule goes. */
    method Perform(schedule: seq<Action>) returns (o: Outcome)
      requires Valid() && !ctl.Idle?
      modifies this, set stub: ToxicStub | stub.owner == this
      ensures Valid() && chain == old(chain) && outChan == old(outChan) && (o.Done? <==> ctl.Idle?)
      ensures var f := Follow(old(View()), schedule);
        View() == f.state && actions == old(actions) + f.taken && o == f.outcome
      ensures o.Crashed? ==> old(Pending(View())) && old(|nodes|) >= |chain| + 3
      ensures o.Done? && old(Pending(View())) ==> |nodes| == old(|nodes|) && AddedOrSealed(View())
    {
      ghost var from, s, taken: seq<Action> := View(), View(), [];
      FollowBegins(s, schedule);
      for i := 0 to |schedule|
        invariant Valid() && View() == s && SameChain(from, s) && !s.ctl.Idle? && actions == old(actions) + taken
        invariant After(taken, Follow(s, schedule[i..])) == Follow(from, schedule)
      {
        var a := schedule[i];
        FollowTurn(s, schedule, i, taken);
        if !IsBegin(a) {
          var ok := Try(a);
          ChainStaysSame(from, s, View());
          if Enabled(s, a) && !Panics(s, a) { s, taken := Apply(s, a), taken + [a]; }
          if !ok {
            return Crashed;
          }
          if ctl.Idle? {
            assert Follow(from, schedule) == Followed(s, taken, Done);
            return Done;
          }
        }
      }
      o := Waiting;
    }

    /** A link that an operation has left without a closed stub is the one NewToxicLink builds. */
    ghost predicate Rebuilt()
      requires chain != []
      reads this, nodes
    {
      ctl.Idle? && NoneClosed(View()) ==> SameLink(View(), Build(chain), Renaming(View()))
    }

    lemma RebuiltWhenIdle()
      requires Valid()
      ensures chain != [] && Rebuilt()
    {
      GoodAlongRun(states, actions, |actions|);
      if ctl.Idle? && NoneClosed(View()) { LiveEditIsRebuild(states, actions, |actions|); }
    }

    /** From the state s the operation has begun with step a and followed the schedule, as far as o says. */
    ghost predicate Follows(s: State, before: seq<Action>, a: Action, schedule: seq<Action>, o: Outcome)
      reads this, nodes
    {
      var f := Told(s, a, schedule);
      && Enabled(s, a) && !Panics(s, a)
      && View() == f.state && actions == before + [a] + f.taken && o == f.outcome
    }

    method BeginsAdd(toxic: Toxic)
      requires Valid() && ctl.Idle?
      modifies this, set stub: ToxicStub | stub.owner == this
      ensures Valid() && chain == old(chain) + [toxic] && outChan == old(outChan) && |nodes| == old(|nodes|) + 1
      ensures ctl == Interrupting(Adding(toxic)) && Pending(View())
      ensures Enabled(old(View()), BeginAdd(toxic)) && View() == Apply(old(View()), BeginAdd(toxic))
      ensures actions == old(actions) + [BeginAdd(toxic)]
    {
      GoodAlongRun(states, actions, |actions|);
      Step(BeginAdd(toxic));
      assert |View().nodes| == |nodes|;
    }

    /** AddToxic. It can crash only on a link that has kept two closed stubs whose toxics are gone. */
    method AddToxic(toxic: Toxic, schedule: seq<Action>) returns (o: Outcome)
      requires Valid() && ctl.Idle?
      modifies this, set stub: ToxicStub | stub.owner == this
      ensures Valid() && chain == old(chain) + [toxic] && outChan == old(outChan) && (o.Done? <==> ctl.Idle?)
        && Rebuilt()
      ensures Follows(old(View()), old(actions), BeginAdd(toxic), schedule, o)
      ensures o.Done? ==> |nodes| == old(|nodes|) + 1
      ensures o.Crashed? ==> old(|nodes|) - 1 >= old(|chain|) + 2
      ensures o.Done? && old(|nodes|) - 1 >= old(|chain|) + 2 ==> nodes[|nodes| - 1].closed
    {
      BeginsAdd(toxic);
      o := Perform(schedule);
      RebuiltWhenIdle();
    }

    /** UpdateToxic: the collection has put the toxic into the chain at its index. */
    method UpdateToxic(index: nat, toxic: Toxic, schedule: seq<Action>) returns (o: Outcome)
      requires Valid() && ctl.Idle? && 1 <= index < |chain|
      requires toxic.name == chain[index].name && toxic.bufferSize == chain[index].bufferSize
      modifies this, set stub: ToxicStub | stub.owner == this
      ensures Valid() && chain == old(chain)[index := toxic] && outChan == old(outChan) && (o.Done? <==> ctl.Idle?)
        && Rebuilt()
      ensures Follows(old(View()), old(actions), BeginUpdate(index, toxic), schedule, o) && !o.Crashed?
    {
      IndexInRange(states, actions, |actions|, index);
      Step(BeginUpdate(index, toxic));
      o := Perform(schedule);
      RebuiltWhenIdle();
    }

    /** RemoveToxic: the collection has taken the toxic at the index out of the chain. */
    method RemoveToxic(index: nat, schedule: seq<Action>) returns (o: Outcome)
      requires Valid() && ctl.Idle? && 1 <= index < |chain|
      modifies this, set stub: ToxicStub | stub.owner == this
      ensures Valid() && chain == old(chain[..index] + chain[index + 1..]) && outChan == old(outChan)
      ensures (o.Done? <==> ctl.Idle?) && !o.Crashed? && Rebuilt()
      ensures Follows(old(View()), old(actions), BeginRemove(index), schedule, o)
    {
      IndexInRange(states, actions, |actions|, index);
      Step(BeginRemove(index));
      o := Perform(schedule);
      RebuiltWhenIdle();
    }
  }
}
