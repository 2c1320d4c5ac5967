/** A toxic link as a transition system: link.go, toxics/toxic.go, and what each toxic's Pipe does
    with the chunks that pass through it.

    A state holds the channels, the goroutines (one node per stub, and one for the goroutine that
    copies the source into link.input), the controller that runs AddToxic, UpdateToxic or
    RemoveToxic, and RemoveToxic's helper goroutine. An action is one step of one goroutine, or
    one rendezvous of two. Timers, rand and the choice a select makes between ready cases are the
    choice of action. */
module LinkState {
  import opened Streams
  import Slicer

  /** What a Pipe does with data. The waiting times of a toxic are not part of this model. */
  datatype Kind =
    | Noop
    | Latency
    | Bandwidth(rate: nat)
    | Slice(settings: Slicer.Settings)
    | ResetPeer

  /** ToxicWrapper: which toxic, and the buffer size of its input channel. */
  datatype Toxic = Toxic(name: string, kind: Kind, bufferSize: nat)

  datatype Chan = Chan(capacity: nat, queue: seq<Chunk>, closed: bool)

  /** Where the goroutine of a stub is. */
  datatype Pc =
    | Launched                                                   // `go stub.Run(toxic)` not begun yet
    | Listening                                                  // select { Interrupt, Input }
    | Delaying(rest: seq<Chunk>)                                 // select { timer, Interrupt }
    | Sending(chunk: Chunk, rest: seq<Chunk>, leaving: bool)     // blocked in Output <- chunk
    | Discarding                                                 // reset_peer's <-time.After(timeout)
    | Closing                                                    // in Close, before close(s.Output)
    | Returned                                                   // Pipe has returned, running still open
    | Stopped                                                    // running is closed: no goroutine
    | Flushing(chunk: Chunk)                                     // no goroutine; RemoveToxic in WriteOutput

  /** A ToxicStub with its goroutine; channels are named by their position in State.chans. */
  datatype Node = Node(input: nat, output: nat, closed: bool, pc: Pc, pipe: Kind, toxic: Toxic)

  datatype Op = Adding(toxic: Toxic) | Updating(index: nat, toxic: Toxic) | Removing(index: nat)

  /** Where the controller is; indices are those of link.stubs. */
  datatype Ctl =
    | Idle
    | Interrupting(op: Op)                    // in InterruptToxic's select
    | Awaiting(op: Op)                        // in <-s.running
    | Draining(index: nat, stopped: bool)     // the loop that unblocks the previous toxic
    | AwaitingStop(index: nat)                // <-stop, after the input turned out to be closed
    | Emptying(index: nat)                    // the loop that empties the toxic's buffer

  /** The goroutine that interrupts the previous stub (given by its node) for RemoveToxic. */
  datatype Helper =
    | NoHelper
    | HelperInterrupting(node: nat)
    | HelperAwaiting(node: nat)
    | HelperSending(node: nat, result: bool)

  /** nodes[0] copies the source; nodes[i + 1] is link.stubs[i]. The first `spine` nodes lead from
      the source to outChan; later ones are stubs added after the link had closed, or one that
      AddToxic has appended and not yet connected. The last five fields are history. */
  datatype State = State(
    chans: seq<Chan>,
    nodes: seq<Node>,
    spine: int,
    outChan: nat,
    chain: seq<Toxic>,
    ctl: Ctl,
    helper: Helper,
    sinkDone: bool,
    written: seq<Chunk>,
    delivered: seq<Chunk>,
    dropped: seq<Chunk>,
    discarded: seq<Chunk>,
    helpers: History)

  /** How many helpers were started and how many of their results were received. */
  datatype History = History(started: nat, received: nat)

  /** Who receives: the goroutine of a stub, the sink, or RemoveToxic's loops. */
  datatype Receiver = ToStub(i: nat, draws: Slicer.Draws) | ToSink | ToDrain

  datatype Action =
    | SourceWrite(chunk: Chunk)        // ChanWriter.Write begins
    | SourceClose                      // ChanWriter.Close
    | Start(i: nat, chosen: bool)      // Run picks the toxic, or a noop
    | Deposit(i: nat)                  // a send completes into a buffer with room
    | Queued(to: Receiver)             // a receive from a buffer
    | Direct(to: Receiver, i: nat)     // a receive straight from a blocked sender
    | Nil(to: Receiver)                // a receive from a closed and drained channel
    | Timer(i: nat)
    | CloseOutput(i: nat)
    | Exit(i: nat)                     // close(s.running)
    | Timeout(i: nat)                  // WriteOutput gives up after its five seconds
    | BeginAdd(toxic: Toxic)
    | BeginUpdate(index: nat, toxic: Toxic)
    | BeginRemove(index: nat)
    | Accept                           // the target stub takes the controller's interrupt
    | Refuse                           // the target stub is closed
    | Resume                           // the target stub has stopped
    | HelperAccept
    | HelperRefuse
    | HelperStopped
    | StopReceived
    | Finish                           // RemoveToxic reconnects and restarts the previous stub

  // ---- the Pipe functions -----------------------------------------------------------------------

  /** What a Pipe does with a chunk that it has just received. */
  function OnReceive(pipe: Kind, c: Chunk, draws: Slicer.Draws): Pc {
    match pipe
    case Noop => Sending(c, [], false)
    case Latency => Delaying([c])
    case Bandwidth(_) => Delaying([c])
    case Slice(settings) =>
      var pieces := Slicer.Pieces(settings, c, draws);
      Sending(pieces[0], pieces[1..], false)
    case ResetPeer => Discarding
  }

  /** What a Pipe does after a send that did not follow an interrupt. */
  function AfterSend(pipe: Kind, rest: seq<Chunk>): Pc {
    if pipe.Slice? || rest != [] then Delaying(rest) else Listening
  }

  /** What a Pipe does when the timer of its inner select fires. */
  function OnTimer(pipe: Kind, rest: seq<Chunk>): Pc {
    if rest == [] then Listening
    else if pipe.Bandwidth? && |rest[0]| > pipe.rate * 100 then
      Sending(rest[0][..pipe.rate * 100], [rest[0][pipe.rate * 100..]] + rest[1..], false)
    else
      Sending(rest[0], rest[1..], false)
  }

  /** What a Pipe does when it is interrupted: nothing it holds is dropped. */
  function OnInterrupt(pc: Pc): Pc
    requires pc.Listening? || pc.Delaying?
  {
    if pc.Listening? then Returned else Sending(Flat(pc.rest), [], true)
  }

  /** What a stub holds, in the order in which it leaves; pieces that wait for the same timer count
      as one, for nothing can get lost from between them. */
  function Held(pc: Pc): seq<Chunk> {
    match pc
    case Delaying(rest) => Together(rest)
    case Sending(c, rest, _) => [c] + Together(rest)
    case Flushing(c) => [c]
    case _ => []
  }

  predicate Offering(n: Node) { n.pc.Sending? || n.pc.Flushing? }

  predicate Interruptible(n: Node) { n.pc.Listening? || n.pc.Delaying? }

  function Offered(n: Node): Chunk
    requires Offering(n)
  {
    n.pc.chunk
  }

  /** The node once its offer has been taken. */
  function Sent(n: Node): Node
    requires Offering(n)
  {
    n.(pc := if n.pc.Flushing? then Stopped
             else if n.pc.leaving then Returned
             else AfterSend(n.pipe, n.pc.rest))
  }

  /** Only WriteOutput has a timeout: bandwidth's flush and the controller's. */
  predicate Timed(n: Node) {
    n.pc.Flushing? || (n.pc.Sending? && n.pc.leaving && n.pipe.Bandwidth?)
  }

  // ---- building blocks ----------------------------------------------------------------------------

  function SetNode(s: State, i: nat, n: Node): State
    requires i < |s.nodes|
  {
    s.(nodes := s.nodes[i := n])
  }

  function SetPc(s: State, i: nat, pc: Pc): State
    requires i < |s.nodes|
  {
    SetNode(s, i, s.nodes[i].(pc := pc))
  }

  function SetChan(s: State, c: nat, ch: Chan): State
    requires c < |s.chans|
  {
    s.(chans := s.chans[c := ch])
  }

  /** `go stub.Run(toxic)` */
  function Launch(s: State, i: nat, toxic: Toxic): State
    requires i < |s.nodes|
  {
    SetNode(s, i, s.nodes[i].(pc := Launched, toxic := toxic))
  }

  /** Close on behalf of the controller: no other goroutine can look in between its two steps. */
  function CloseNow(s: State, i: nat): State
    requires i < |s.nodes| && s.nodes[i].output < |s.chans|
  {
    var n := s.nodes[i];
    SetNode(SetChan(s, n.output, s.chans[n.output].(closed := true)), i, n.(closed := true))
  }

  /** The node of the stub that an operation interrupts. */
  function Target(s: State, op: Op): int {
    match op
    case Adding(_) => |s.nodes| - 2
    case Updating(index, _) => index + 1
    case Removing(index) => index + 1
  }

  predicate Pending(s: State) {
    (s.ctl.Interrupting? || s.ctl.Awaiting?) && s.ctl.op.Adding?
  }

  /** The node whose input channel RemoveToxic is emptying. */
  predicate InRemoval(s: State) { s.ctl.Draining? || s.ctl.Emptying? }

  // ---- receiving ------------------------------------------------------------------------------------

  predicate Ready(s: State, to: Receiver) {
    match to
    case ToStub(i, _) => 1 <= i < |s.nodes| && s.nodes[i].pc.Listening?
    case ToSink => !s.sinkDone
    case ToDrain => InRemoval(s) && s.ctl.index + 1 < |s.nodes| && s.nodes[s.ctl.index + 1].pc.Stopped?
  }

  function Source(s: State, to: Receiver): nat
    requires Ready(s, to)
  {
    match to
    case ToStub(i, _) => s.nodes[i].input
    case ToSink => s.outChan
    case ToDrain => s.nodes[s.ctl.index + 1].input
  }

  function Deliver(s: State, to: Receiver, c: Chunk): State
    requires Ready(s, to)
  {
    match to
    case ToStub(i, draws) =>
      var s' := SetPc(s, i, OnReceive(s.nodes[i].pipe, c, draws));
      if s.nodes[i].pipe.ResetPeer? then s'.(discarded := s.discarded + [c]) else s'
    case ToSink => s.(delivered := s.delivered + [c])
    case ToDrain => SetPc(s, s.ctl.index + 1, Flushing(c))
  }

  function DeliverNil(s: State, to: Receiver): State
    requires Ready(s, to) && (to.ToDrain? ==> s.ctl.Draining? && s.nodes[s.ctl.index + 1].output < |s.chans|)
  {
    match to
    case ToStub(i, _) =>
      if s.nodes[i].pipe.ResetPeer? then SetPc(s, i, Discarding)
      else SetNode(s, i, s.nodes[i].(closed := true, pc := Closing))
    case ToSink => s.(sinkDone := true)
    case ToDrain =>
      CloseNow(s, s.ctl.index + 1).(ctl := if s.ctl.stopped then Idle else AwaitingStop(s.ctl.index))
  }

  // ---- actions ----------------------------------------------------------------------------------------

  /** The guard of an action: when the goroutine concerned can take this step. */
  predicate Enabled(s: State, a: Action) {
    match a
    case SourceWrite(_) => s.nodes != [] && s.nodes[0].pc.Listening?
    case SourceClose => s.nodes != [] && s.nodes[0].pc.Listening? && s.nodes[0].output < |s.chans|
    case Start(i, _) => i < |s.nodes| && s.nodes[i].pc.Launched?
    case Deposit(i) =>
      && i < |s.nodes| && Offering(s.nodes[i]) && s.nodes[i].output < |s.chans|
      && |s.chans[s.nodes[i].output].queue| < s.chans[s.nodes[i].output].capacity
    case Queued(to) => Ready(s, to) && Source(s, to) < |s.chans| && s.chans[Source(s, to)].queue != []
    case Direct(to, i) =>
      && Ready(s, to) && Source(s, to) < |s.chans| && (to.ToDrain? ==> s.ctl.Draining?)
      && s.chans[Source(s, to)].capacity == 0
      && i < |s.nodes| && Offering(s.nodes[i]) && s.nodes[i].output == Source(s, to)
    case Nil(to) =>
      && Ready(s, to) && Source(s, to) < |s.chans| && s.chans[Source(s, to)].closed && s.chans[Source(s, to)].queue == []
      && (to.ToDrain? ==> s.ctl.Draining? && s.nodes[s.ctl.index + 1].output < |s.chans|)
    case Timer(i) => 1 <= i < |s.nodes| && (s.nodes[i].pc.Delaying? || s.nodes[i].pc.Discarding?)
    case CloseOutput(i) => i < |s.nodes| && s.nodes[i].pc.Closing? && s.nodes[i].output < |s.chans|
    case Exit(i) => i < |s.nodes| && s.nodes[i].pc.Returned?
    case Timeout(i) => i < |s.nodes| && Timed(s.nodes[i])
    case BeginAdd(_) => s.ctl.Idle? && |s.nodes| >= 2
    case BeginUpdate(index, toxic) =>
      && s.ctl.Idle? && 1 <= index < |s.chain|
      && toxic.name == s.chain[index].name && toxic.bufferSize == s.chain[index].bufferSize
    case BeginRemove(index) => s.ctl.Idle? && 1 <= index < |s.chain|
    case Accept =>
      && s.ctl.Interrupting? && 0 <= Target(s, s.ctl.op) < |s.nodes|
      && Interruptible(s.nodes[Target(s, s.ctl.op)])
    case Refuse =>
      && s.ctl.Interrupting? && 0 <= Target(s, s.ctl.op) < |s.nodes|
      && s.nodes[Target(s, s.ctl.op)].closed
    case Resume =>
      && s.ctl.Awaiting? && 0 <= Target(s, s.ctl.op) < |s.nodes|
      && s.nodes[Target(s, s.ctl.op)].pc.Stopped?
    case HelperAccept =>
      s.helper.HelperInterrupting? && s.helper.node < |s.nodes| && Interruptible(s.nodes[s.helper.node])
    case HelperRefuse =>
      s.helper.HelperInterrupting? && s.helper.node < |s.nodes| && s.nodes[s.helper.node].closed
    case HelperStopped =>
      s.helper.HelperAwaiting? && s.helper.node < |s.nodes| && s.nodes[s.helper.node].pc.Stopped?
    case StopReceived =>
      && s.helper.HelperSending?
      && (s.ctl.AwaitingStop? || (s.ctl.Draining? && Ready(s, ToDrain)))
    case Finish =>
      && s.ctl.Emptying? && Ready(s, ToDrain)
      && Source(s, ToDrain) < |s.chans| && s.chans[Source(s, ToDrain)].queue == []
  }

  /** The steps at which Go would panic (a send on a closed channel, a second close, an index out
      of range), and those that would start a second Pipe on a stub that still has one. */
  predicate Panics(s: State, a: Action)
    requires Enabled(s, a)
  {
    match a
    case SourceClose => s.chans[s.nodes[0].output].closed
    case Deposit(i) => s.chans[s.nodes[i].output].closed
    case Direct(to, _) => s.chans[Source(s, to)].closed
    case Nil(to) => to.ToDrain? && s.chans[s.nodes[s.ctl.index + 1].output].closed
    case CloseOutput(i) => s.chans[s.nodes[i].output].closed
    case BeginUpdate(index, _) => index + 1 >= |s.nodes|
    case BeginRemove(index) => index + 1 >= |s.nodes|
    case Refuse =>
      s.ctl.op.Adding? &&
      var i := |s.nodes| - 1;
      s.nodes[i].input >= |s.chans| || s.chans[s.nodes[i].input].closed || s.nodes[i].closed
    case Resume =>
      s.ctl.op.Adding? && (ChainTooShort(s) || !s.nodes[|s.nodes| - 1].pc.Stopped?)
    case Finish =>
      s.ctl.index == 0 || s.ctl.index - 1 >= |s.chain| || !s.nodes[s.ctl.index].pc.Stopped?
    case _ => false
  }

  /** AddToxic restarts the stub before the new one with the toxic that the chain has at that
      stub's index; this is when the chain has none there. */
  predicate ChainTooShort(s: State) { !(0 <= |s.nodes| - 3 < |s.chain|) }

  /** AddToxic, once the stub before the new one has stopped. */
  function Connect(s: State, toxic: Toxic): State
    requires |s.nodes| >= 3 && !ChainTooShort(s)
  {
    var i := |s.nodes| - 1;
    var moved := SetNode(s, i - 1, s.nodes[i - 1].(output := s.nodes[i].input));
    Launch(Launch(moved, i, toxic), i - 1, s.chain[i - 2]).(spine := s.spine + 1, ctl := Idle)
  }

  /** RemoveToxic, once the previous stub has stopped and the input is empty. */
  function Disconnect(s: State, index: nat): State
    requires 1 <= index && index + 1 < |s.nodes| && index - 1 < |s.chain|
  {
    var prev := s.nodes[index].(output := s.nodes[index + 1].output);
    var cut := s.(nodes := s.nodes[..index] + [prev] + s.nodes[index + 2..], spine := s.spine - 1, ctl := Idle);
    Launch(cut, index, s.chain[index - 1])
  }

  function PutIn(s: State, i: nat): State
    requires i < |s.nodes| && Offering(s.nodes[i]) && s.nodes[i].output < |s.chans|
  {
    var n := s.nodes[i];
    var ch := s.chans[n.output];
    SetNode(SetChan(s, n.output, ch.(queue := ch.queue + [Offered(n)])), i, Sent(n))
  }

  function TakeOut(s: State, c: nat): State
    requires c < |s.chans| && s.chans[c].queue != []
  {
    SetChan(s, c, s.chans[c].(queue := s.chans[c].queue[1..]))
  }

  function GiveUp(s: State, i: nat): State
    requires i < |s.nodes| && Offering(s.nodes[i])
  {
    SetNode(s, i, Sent(s.nodes[i])).(dropped := s.dropped + [Offered(s.nodes[i])])
  }

  function Fire(s: State, i: nat): State
    requires i < |s.nodes| && (s.nodes[i].pc.Delaying? || s.nodes[i].pc.Discarding?)
  {
    var n := s.nodes[i];
    if n.pc.Discarding? then SetNode(s, i, n.(closed := true, pc := Closing))
    else SetPc(s, i, OnTimer(n.pipe, n.pc.rest))
  }

  function CloseChan(s: State, i: nat): State
    requires i < |s.nodes| && s.nodes[i].output < |s.chans|
  {
    var n := s.nodes[i];
    SetPc(SetChan(s, n.output, s.chans[n.output].(closed := true)), i, Returned)
  }

  /** The chain has grown and the new stub is appended; it shares the last stub's output for now. */
  function Append(s: State, toxic: Toxic): State
    requires s.nodes != []
  {
    var last := s.nodes[|s.nodes| - 1];
    s.(chans := s.chans + [Chan(toxic.bufferSize, [], false)],
       nodes := s.nodes + [Node(|s.chans|, last.output, false, Stopped, Noop, toxic)],
       chain := s.chain + [toxic],
       ctl := Interrupting(Adding(toxic)))
  }

  /** The link is already closed: the new stub closes a channel of its own. */
  function Seal(s: State): State
    requires s.nodes != [] && s.nodes[|s.nodes| - 1].input < |s.chans|
  {
    var i := |s.nodes| - 1;
    CloseNow(SetNode(s, i, s.nodes[i].(output := s.nodes[i].input)), i).(ctl := Idle)
  }

  function SpawnHelper(s: State, index: nat): State {
    s.(ctl := Draining(index, false), helper := HelperInterrupting(index),
       helpers := s.helpers.(started := s.helpers.started + 1))
  }

  function HearStop(s: State): State
    requires s.helper.HelperSending? && (s.ctl.AwaitingStop? || s.ctl.Draining?)
  {
    s.(helper := NoHelper, helpers := s.helpers.(received := s.helpers.received + 1),
       ctl := if s.ctl.AwaitingStop? then Idle
              else if s.helper.result then Emptying(s.ctl.index)
              else Draining(s.ctl.index, true))
  }

  /** The state after an action that does not panic. */
  function Apply(s: State, a: Action): State
    requires Enabled(s, a) && !Panics(s, a)
  {
    match a
    case SourceWrite(c) => SetPc(s, 0, Sending(c, [], false)).(written := s.written + [c])
    case SourceClose => SetPc(CloseNow(s, 0), 0, Stopped)
    case Start(i, chosen) =>
      SetNode(s, i, s.nodes[i].(pc := Listening, pipe := if chosen then s.nodes[i].toxic.kind else Noop))
    case Deposit(i) => PutIn(s, i)
    case Queued(to) => Deliver(TakeOut(s, Source(s, to)), to, s.chans[Source(s, to)].queue[0])
    case Direct(to, i) => Deliver(SetNode(s, i, Sent(s.nodes[i])), to, Offered(s.nodes[i]))
    case Nil(to) => DeliverNil(s, to)
    case Timer(i) => Fire(s, i)
    case CloseOutput(i) => CloseChan(s, i)
    case Exit(i) => SetPc(s, i, Stopped)
    case Timeout(i) => GiveUp(s, i)
    case BeginAdd(toxic) => Append(s, toxic)
    case BeginUpdate(index, toxic) =>
      s.(chain := s.chain[index := toxic], ctl := Interrupting(Updating(index, toxic)))
    case BeginRemove(index) =>
      s.(chain := s.chain[..index] + s.chain[index + 1..], ctl := Interrupting(Removing(index)))
    case Accept =>
      var t := Target(s, s.ctl.op);
      SetPc(s, t, OnInterrupt(s.nodes[t].pc)).(ctl := Awaiting(s.ctl.op))
    case Refuse => if s.ctl.op.Adding? then Seal(s) else s.(ctl := Idle)
    case Resume =>
      (match s.ctl.op
       case Adding(toxic) => Connect(s, toxic)
       case Updating(index, toxic) => Launch(s, index + 1, toxic).(ctl := Idle)
       case Removing(index) => SpawnHelper(s, index))
    case HelperAccept =>
      SetPc(s, s.helper.node, OnInterrupt(s.nodes[s.helper.node].pc)).(helper := HelperAwaiting(s.helper.node))
    case HelperRefuse => s.(helper := HelperSending(s.helper.node, false))
    case HelperStopped => s.(helper := HelperSending(s.helper.node, true))
    case StopReceived => HearStop(s)
    case Finish => Disconnect(s, s.ctl.index)
  }

  ghost predicate Next(s: State, a: Action, s': State) {
    Enabled(s, a) && !Panics(s, a) && s' == Apply(s, a)
  }

  // ---- construction -----------------------------------------------------------------------------------

  /** NewToxicLink followed by Start, for a chain whose first toxic is the noop. */
  function Build(chain: seq<Toxic>): State
    requires chain != []
  {
    State(
      [Chan(0, [], false)]
      + seq(|chain|, i requires 0 <= i < |chain| => Chan(if i + 1 < |chain| then chain[i + 1].bufferSize else 0, [], false)),
      [Node(0, 0, false, Listening, Noop, chain[0])]
      + seq(|chain|, i requires 0 <= i < |chain| => Node(i, i + 1, false, Launched, Noop, chain[i])),
      |chain| + 1, |chain|, chain, Idle, NoHelper, false, [], [], [], [], History(0, 0))
  }

  ghost predicate StepAt(states: seq<State>, actions: seq<Action>, i: nat)
    requires i < |actions| && |states| == |actions| + 1
  {
    Next(states[i], actions[i], states[i + 1])
  }

  /** Consecutive states and the actions between them. */
  ghost predicate IsPath(states: seq<State>, actions: seq<Action>) {
    |states| == |actions| + 1 && forall i :: 0 <= i < |actions| ==> StepAt(states, actions, i)
  }

  /** A run of the link: what any interleaving of its goroutines and of the operations can do. */
  ghost predicate IsRun(states: seq<State>, actions: seq<Action>) {
    IsPath(states, actions) && states[0].chain != [] && states[0] == Build(states[0].chain)
  }
}
