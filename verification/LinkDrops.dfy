/** Who can run into WriteOutput's timeout: a bandwidth that is interrupted, and RemoveToxic. */
module LinkDrops {
  import opened Streams
  import opened LinkState
  import opened LinkInvariant
  import LinkPanic
  import opened LinkLimits
  import opened LinkTheorems
  import opened LinkStrand

  ghost predicate NoneRemoves(actions: seq<Action>, i: nat) {
    forall j :: 0 <= j < i && j < |actions| ==> !actions[j].BeginRemove?
  }

  lemma RemovalNeedsBegin(s: State, a: Action, s': State)
    requires ControlOk(s) && Next(s, a, s') && !a.BeginRemove? && !Removal(s)
    ensures !Removal(s')
  {
  }

  lemma TimedNeeds(s: State, i: nat)
    requires NodesOk(s) && Enabled(s, Timeout(i)) && !Removal(s)
    ensures s.nodes[i].pipe.Bandwidth?
  {
    assert NodeOk(s.nodes[i], ModeOf(s, i));
  }

  /** Where no bandwidth runs and nothing is removed, no chunk is ever dropped. */
  lemma {:induction false} NothingDrops(states: seq<State>, actions: seq<Action>, i: nat, l: Limits)
    requires LimitedRun(states, actions, l) && i < |states| && NoneRemoves(actions, i)
    requires forall rate: nat :: !l.kinds(Bandwidth(rate))
    ensures states[i].dropped == [] && !Removal(states[i])
  {
    if i > 0 {
      NothingDrops(states, actions, i - 1, l);
      NothingDropsStep(states, actions, i - 1, l);
    }
  }

  lemma NothingDropsStep(states: seq<State>, actions: seq<Action>, i: nat, l: Limits)
    requires LimitedRun(states, actions, l) && i < |actions| && !actions[i].BeginRemove?
    requires forall rate: nat :: !l.kinds(Bandwidth(rate))
    requires states[i].dropped == [] && !Removal(states[i])
    ensures states[i + 1].dropped == [] && !Removal(states[i + 1])
  {
    var s, a := states[i], actions[i];
    assert StepAt(states, actions, i);
    InvAlongRun(states, actions, i);
    RemovalNeedsBegin(s, a, states[i + 1]);
    if a.Timeout? {
      TimedNeeds(s, a.i);
      WithinAlongRun(states, actions, i, l);
      BandwidthWithin(s, a.i, l);
    } else {
      GoodStepAt(states, actions, i);
      DropNeedsTimeout(s, a, states[i + 1]);
    }
  }

  lemma BandwidthWithin(s: State, i: nat, l: Limits)
    requires Within(s, l) && i < |s.nodes| && s.nodes[i].pipe.Bandwidth?
    ensures exists rate: nat :: l.kinds(Bandwidth(rate))
  {
    var n := s.nodes[i];
    assert NodeWithin(n, l) && n.pipe == Bandwidth(n.pipe.rate);
  }

  // ---- a flush that times out -------------------------------------------------------------------------------------

  /** The last stub, a bandwidth that holds c, is interrupted. */
  function Flushes(kind: Kind, c: Chunk, ctl: Ctl): State {
    Scene([Listening, Listening, Listening, Sending(c, [], true)], kind, kind, [c], [], ctl)
  }

  lemma Drops(p: LinkPanic.Path, from: State, rate: nat, c: Chunk, l: Limits) returns (q: LinkPanic.Path)
    requires LeadsWithin(p, from, After([Listening, Listening, Listening], Bandwidth(rate), c, [c], Idle), l)
    requires l.kinds(Bandwidth(rate))
    ensures LeadsWithin(q, from, GiveUp(Flushes(Bandwidth(rate), c, Awaiting(Updating(2, Last(Bandwidth(rate))))), 3), l)
  {
    var kind := Bandwidth(rate);
    var op := Updating(2, Last(kind));
    var s1 := After([Listening, Listening, Listening], kind, c, [c], Interrupting(op));
    var s2 := Flushes(kind, c, Awaiting(op));
    FlatSingle(c);
    q := Take(p, from, After([Listening, Listening, Listening], kind, c, [c], Idle), BeginUpdate(2, Last(kind)), s1, l);
    q := Take(q, from, s1, Accept, s2, l);
    q := Take(q, from, s2, Timeout(3), GiveUp(s2, 3), l);
  }

  lemma DropRun(rate: nat, l: Limits) returns (states: seq<State>, actions: seq<Action>)
    requires l.kinds(Noop) && l.kinds(Bandwidth(rate))
    ensures LimitedRun(states, actions, l) && NoneRemoves(actions, |actions|) && states[|actions|].dropped == [[]]
  {
    var kind := Bandwidth(rate);
    var chain := [LinkPanic.Plain(), LinkPanic.Plain(), Last(kind)];
    StartsAs(chain, kind);
    var p := LinkPanic.Path([Build(chain)], []);
    p := Starts(p, Build(chain), kind, l);
    p := FirstChunk(p, Build(chain), kind, [], l);
    p := Drops(p, Build(chain), rate, [], l);
    LinkPanic.RunIsRun(p, chain);
    states, actions := p.states, p.actions;
  }

  /** As long as nothing is removed, no run within the limits ever drops a chunk, if and only if the
      limits allow no bandwidth: no other Pipe has a timeout. */
  lemma NeverDropsIff(l: Limits)
    requires l.kinds(Noop)
    ensures (forall states: seq<State>, actions :: LimitedRun(states, actions, l) && NoneRemoves(actions, |actions|) ==>
               states[|actions|].dropped == []) <==> forall rate: nat :: !l.kinds(Bandwidth(rate))
  {
    if rate: nat :| l.kinds(Bandwidth(rate)) {
      var states, actions := DropRun(rate, l);
    } else {
      forall states: seq<State>, actions | LimitedRun(states, actions, l) && NoneRemoves(actions, |actions|)
        ensures states[|actions|].dropped == []
      {
        NothingDrops(states, actions, |actions|, l);
      }
    }
  }
}
