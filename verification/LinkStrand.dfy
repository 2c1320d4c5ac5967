/** Stranded operations are reachable, with a reset_peer as with a bandwidth of rate 0. */
module LinkStrand {
  import opened Streams
  import opened LinkState
  import opened LinkPanic
  import opened LinkLimits
  import opened LinkTheorems
  import opened LinkProgress
  import opened LinkDeadlock
  import opened LinkWork
  import Slicer

  function Last(kind: Kind): Toxic { Toxic("last", kind, 0) }

  /** A link built with two noops and a third toxic, after some steps. */
  function Scene(pcs: seq<Pc>, pipe: Kind, kind: Kind, written: seq<Chunk>, discarded: seq<Chunk>, ctl: Ctl): State
    requires |pcs| == 4
  {
    State(
      [Chan(0, [], false), Chan(0, [], false), Chan(0, [], false), Chan(0, [], false)],
      [Node(0, 0, false, pcs[0], Noop, Plain()), Node(0, 1, false, pcs[1], Noop, Plain()),
       Node(1, 2, false, pcs[2], Noop, Plain()), Node(2, 3, false, pcs[3], pipe, Last(kind))],
      4, 3, [Plain(), Plain(), Last(kind)], ctl, NoHelper, false, written, [], [], discarded, History(0, 0))
  }

  /** Before the last stub has received anything. */
  function Before(pcs: seq<Pc>, kind: Kind, written: seq<Chunk>): State
    requires |pcs| == 4
  {
    Scene(pcs, kind, kind, written, [], Idle)
  }

  /** When it has received the chunk. */
  function After(pcs: seq<Pc>, kind: Kind, c: Chunk, written: seq<Chunk>, ctl: Ctl): State
    requires |pcs| == 3
  {
    Scene(pcs + [OnReceive(kind, c, Slicer.NoDraws())], kind, kind, written, if kind.ResetPeer? then [c] else [], ctl)
  }

  function Edits(): Ctl { Interrupting(Updating(1, Plain())) }

  function Send(c: Chunk): Pc { Sending(c, [], false) }

  /** A chunk goes on from node i to the next one. */
  function Hop(i: nat): Action { Direct(ToStub(i + 1, Slicer.NoDraws()), i) }

  /** A path within the limits on which nothing is removed. */
  ghost predicate LeadsWithin(p: Path, from: State, to: State, l: Limits) {
    Leads(p, from, to) && forall j :: 0 <= j < |p.actions| ==> Respects(p.actions[j], l) && !p.actions[j].BeginRemove?
  }

  lemma Take(p: Path, from: State, s: State, a: Action, s': State, l: Limits) returns (q: Path)
    requires LeadsWithin(p, from, s, l) && Next(s, a, s') && Respects(a, l) && !a.BeginRemove?
    ensures LeadsWithin(q, from, s', l)
  {
    q := Path(p.states + [s'], p.actions + [a]);
    forall i | 0 <= i < |q.actions| ensures StepAt(q.states, q.actions, i) {
      if i < |p.actions| { assert StepAt(p.states, p.actions, i); }
    }
  }

  /** The three stubs start. */
  lemma Starts(p: Path, from: State, kind: Kind, l: Limits) returns (q: Path)
    requires LeadsWithin(p, from, Scene([Listening, Launched, Launched, Launched], Noop, kind, [], [], Idle), l)
    ensures LeadsWithin(q, from, Before([Listening, Listening, Listening, Listening], kind, []), l)
  {
    q := p;
    q := Take(q, from, Scene([Listening, Launched, Launched, Launched], Noop, kind, [], [], Idle), Start(1, true),
              Scene([Listening, Listening, Launched, Launched], Noop, kind, [], [], Idle), l);
    q := Take(q, from, Scene([Listening, Listening, Launched, Launched], Noop, kind, [], [], Idle), Start(2, true),
              Scene([Listening, Listening, Listening, Launched], Noop, kind, [], [], Idle), l);
    q := Take(q, from, Scene([Listening, Listening, Listening, Launched], Noop, kind, [], [], Idle), Start(3, true),
              Before([Listening, Listening, Listening, Listening], kind, []), l);
  }

  /** A chunk reaches the last stub. */
  lemma FirstChunk(p: Path, from: State, kind: Kind, c: Chunk, l: Limits) returns (q: Path)
    requires LeadsWithin(p, from, Before([Listening, Listening, Listening, Listening], kind, []), l) && |c| <= l.size
    ensures LeadsWithin(q, from, After([Listening, Listening, Listening], kind, c, [c], Idle), l)
  {
    q := p;
    q := Take(q, from, Before([Listening, Listening, Listening, Listening], kind, []), SourceWrite(c),
              Before([Send(c), Listening, Listening, Listening], kind, [c]), l);
    q := Take(q, from, Before([Send(c), Listening, Listening, Listening], kind, [c]), Hop(0),
              Before([Listening, Send(c), Listening, Listening], kind, [c]), l);
    q := Take(q, from, Before([Listening, Send(c), Listening, Listening], kind, [c]), Hop(1),
              Before([Listening, Listening, Send(c), Listening], kind, [c]), l);
    q := Take(q, from, Before([Listening, Listening, Send(c), Listening], kind, [c]), Hop(2),
              After([Listening, Listening, Listening], kind, c, [c], Idle), l);
  }

  /** Another one is on its way to the stub before it. */
  lemma SecondChunk(p: Path, from: State, kind: Kind, c: Chunk, l: Limits) returns (q: Path)
    requires LeadsWithin(p, from, After([Listening, Listening, Listening], kind, c, [c], Idle), l) && |c| <= l.size
    ensures LeadsWithin(q, from, After([Listening, Send(c), Listening], kind, c, [c, c], Idle), l)
  {
    q := p;
    q := Take(q, from, After([Listening, Listening, Listening], kind, c, [c], Idle), SourceWrite(c),
              After([Send(c), Listening, Listening], kind, c, [c, c], Idle), l);
    q := Take(q, from, After([Send(c), Listening, Listening], kind, c, [c, c], Idle), Hop(0),
              After([Listening, Send(c), Listening], kind, c, [c, c], Idle), l);
  }

  /** The toxic of the second noop is updated while its stub waits. */
  lemma Updates(p: Path, from: State, kind: Kind, c: Chunk, l: Limits) returns (q: Path)
    requires LeadsWithin(p, from, After([Listening, Send(c), Listening], kind, c, [c, c], Idle), l) && l.kinds(Noop)
    ensures LeadsWithin(q, from, After([Listening, Listening, Send(c)], kind, c, [c, c], Edits()), l)
  {
    q := p;
    q := Take(q, from, After([Listening, Send(c), Listening], kind, c, [c, c], Idle), Hop(1),
              After([Listening, Listening, Send(c)], kind, c, [c, c], Idle), l);
    q := Take(q, from, After([Listening, Listening, Send(c)], kind, c, [c, c], Idle), BeginUpdate(1, Plain()),
              After([Listening, Listening, Send(c)], kind, c, [c, c], Edits()), l);
  }

  lemma StartsAs(chain: seq<Toxic>, kind: Kind)
    requires chain == [Plain(), Plain(), Last(kind)]
    ensures Build(chain) == Scene([Listening, Launched, Launched, Launched], Noop, kind, [], [], Idle)
  {
  }

  lemma AllOfIt(from: State, kind: Kind, c: Chunk, l: Limits) returns (p: Path)
    requires from == Scene([Listening, Launched, Launched, Launched], Noop, kind, [], [], Idle)
    requires l.kinds(Noop) && |c| <= l.size
    ensures LeadsWithin(p, from, After([Listening, Listening, Send(c)], kind, c, [c, c], Edits()), l)
  {
    p := Path([from], []);
    p := Starts(p, from, kind, l);
    p := FirstChunk(p, from, kind, c, l);
    p := SecondChunk(p, from, kind, c, l);
    p := Updates(p, from, kind, c, l);
  }

  /** A toxic that stops receiving once it has received c. */
  predicate Stops(kind: Kind, c: Chunk) { kind == ResetPeer || (kind == Bandwidth(0) && c != []) }

  lemma LastIsStuck(s: State, kind: Kind, c: Chunk)
    requires s == After([Listening, Listening, Send(c)], kind, c, [c, c], Edits()) && Stops(kind, c)
    ensures Stuck(s, s.ctl) && !s.sinkDone && (kind != ResetPeer ==> s.discarded == [])
  {
    assert Waits(s, 2) && DeadEnd(s.nodes[3]);
    assert Stranded(s, 3);
  }

  /** Send a chunk through two noops and a toxic that stops, send another and update the second noop:
      UpdateToxic waits for ever, although the sink has not seen the end, and in the case of bandwidth
      nothing has been discarded. */
  lemma StuckRun(l: Limits, kind: Kind, c: Chunk) returns (states: seq<State>, actions: seq<Action>)
    requires l.kinds(Noop) && l.kinds(kind) && |c| <= l.size && Stops(kind, c)
    ensures LimitedRun(states, actions, l) && Stuck(states[|actions|], states[|actions|].ctl)
    ensures !states[|actions|].sinkDone && (kind != ResetPeer ==> states[|actions|].discarded == [])
  {
    var chain := [Plain(), Plain(), Last(kind)];
    StartsAs(chain, kind);
    var p := AllOfIt(Build(chain), kind, c, l);
    LastIsStuck(p.states[|p.actions|], kind, c);
    RunIsRun(p, chain);
    states, actions := p.states, p.actions;
  }

  /** Such a run can go on until nothing but the source can take a step, and the operation is still
      under way. */
  lemma StuckIsReachable(l: Limits, kind: Kind, c: Chunk) returns (states: seq<State>, actions: seq<Action>)
    requires l.kinds(Noop) && l.kinds(kind) && |c| <= l.size && Stops(kind, c)
    ensures IsRun(states, actions) && Stuck(states[|actions|], states[|actions|].ctl) && !CanGoOn(states[|actions|])
  {
    var before, acts := StuckRun(l, kind, c);
    states, actions := Settle(before, acts);
    assert states[|acts|] == before[|acts|];
    StuckForEver(states, actions, |acts|, |actions|);
  }
}
