/** The one step at which a link can panic is reachable: a run that leads to it. */
module LinkPanic {
  import Slicer
  import opened LinkState
  import opened LinkProgress

  function Plain(): Toxic { Toxic("plain", Noop, 0) }

  /** A link built with four noop stubs, after some steps: the first `closed` nodes and the first
      `shut` channels are closed, the chain has `chain` toxics, and AddToxic may have appended a
      stub. */
  function Stage(closed: nat, shut: nat, pcs: seq<Pc>, chain: nat, appended: bool, ctl: Ctl): State
    requires |pcs| == 5
  {
    State(
      [Chan(0, [], 0 < shut), Chan(0, [], 1 < shut), Chan(0, [], 2 < shut), Chan(0, [], 3 < shut), Chan(0, [], 4 < shut)]
      + (if appended then [Chan(0, [], false)] else []),
      [Node(0, 0, 0 < closed, pcs[0], Noop, Plain()), Node(0, 1, 1 < closed, pcs[1], Noop, Plain()),
       Node(1, 2, 2 < closed, pcs[2], Noop, Plain()), Node(2, 3, 3 < closed, pcs[3], Noop, Plain()),
       Node(3, 4, 4 < closed, pcs[4], Noop, Plain())]
      + (if appended then [Node(5, 4, false, Stopped, Noop, Plain())] else []),
      5, 4, seq(chain, _ => Plain()), ctl, NoHelper, false, [], [], [], [], History(0, 0))
  }

  /** A path and its actions. */
  datatype Path = Path(states: seq<State>, actions: seq<Action>)

  ghost predicate Leads(p: Path, from: State, to: State) {
    IsPath(p.states, p.actions) && p.states[0] == from && p.states[|p.actions|] == to
  }

  lemma Then(p: Path, from: State, s: State, a: Action, s': State) returns (q: Path)
    requires Leads(p, from, s) && Next(s, a, s')
    ensures Leads(q, from, s')
  {
    q := Path(p.states + [s'], p.actions + [a]);
    forall i | 0 <= i < |q.actions| ensures StepAt(q.states, q.actions, i) {
      if i < |p.actions| { assert StepAt(p.states, p.actions, i); }
    }
  }

  /** All four stubs start. */
  lemma Starts(p: Path, from: State) returns (q: Path)
    requires Leads(p, from, Stage(0, 0, [Listening, Launched, Launched, Launched, Launched], 4, false, Idle))
    ensures Leads(q, from, Stage(0, 0, [Listening, Listening, Listening, Listening, Listening], 4, false, Idle))
  {
    q := p;
    q := Then(q, from, Stage(0, 0, [Listening, Launched, Launched, Launched, Launched], 4, false, Idle),
              Start(1, true), Stage(0, 0, [Listening, Listening, Launched, Launched, Launched], 4, false, Idle));
    q := Then(q, from, Stage(0, 0, [Listening, Listening, Launched, Launched, Launched], 4, false, Idle),
              Start(2, true), Stage(0, 0, [Listening, Listening, Listening, Launched, Launched], 4, false, Idle));
    q := Then(q, from, Stage(0, 0, [Listening, Listening, Listening, Launched, Launched], 4, false, Idle),
              Start(3, true), Stage(0, 0, [Listening, Listening, Listening, Listening, Launched], 4, false, Idle));
    q := Then(q, from, Stage(0, 0, [Listening, Listening, Listening, Listening, Launched], 4, false, Idle),
              Start(4, true), Stage(0, 0, [Listening, Listening, Listening, Listening, Listening], 4, false, Idle));
  }

  /** The source ends and the first stub sees it. */
  lemma SourceEnds(p: Path, from: State) returns (q: Path)
    requires Leads(p, from, Stage(0, 0, [Listening, Listening, Listening, Listening, Listening], 4, false, Idle))
    ensures Leads(q, from, Stage(2, 1, [Stopped, Closing, Listening, Listening, Listening], 4, false, Idle))
  {
    q := p;
    q := Then(q, from, Stage(0, 0, [Listening, Listening, Listening, Listening, Listening], 4, false, Idle),
              SourceClose, Stage(1, 1, [Stopped, Listening, Listening, Listening, Listening], 4, false, Idle));
    q := Then(q, from, Stage(1, 1, [Stopped, Listening, Listening, Listening, Listening], 4, false, Idle),
              Nil(ToStub(1, Slicer.NoDraws())), Stage(2, 1, [Stopped, Closing, Listening, Listening, Listening], 4, false, Idle));
  }

  /** The first stub closes and the second sees it. */
  lemma FirstCloses(p: Path, from: State) returns (q: Path)
    requires Leads(p, from, Stage(2, 1, [Stopped, Closing, Listening, Listening, Listening], 4, false, Idle))
    ensures Leads(q, from, Stage(3, 2, [Stopped, Returned, Closing, Listening, Listening], 4, false, Idle))
  {
    q := p;
    q := Then(q, from, Stage(2, 1, [Stopped, Closing, Listening, Listening, Listening], 4, false, Idle),
              CloseOutput(1), Stage(2, 2, [Stopped, Returned, Listening, Listening, Listening], 4, false, Idle));
    q := Then(q, from, Stage(2, 2, [Stopped, Returned, Listening, Listening, Listening], 4, false, Idle),
              Nil(ToStub(2, Slicer.NoDraws())), Stage(3, 2, [Stopped, Returned, Closing, Listening, Listening], 4, false, Idle));
  }

  /** The second and the third stub close; the last one still runs. */
  lemma SecondCloses(p: Path, from: State) returns (q: Path)
    requires Leads(p, from, Stage(3, 2, [Stopped, Returned, Closing, Listening, Listening], 4, false, Idle))
    ensures Leads(q, from, Stage(3, 3, [Stopped, Returned, Returned, Listening, Listening], 4, false, Idle))
  {
    q := Then(p, from, Stage(3, 2, [Stopped, Returned, Closing, Listening, Listening], 4, false, Idle),
              CloseOutput(2), Stage(3, 3, [Stopped, Returned, Returned, Listening, Listening], 4, false, Idle));
  }

  lemma OthersClose(p: Path, from: State) returns (q: Path)
    requires Leads(p, from, Stage(3, 2, [Stopped, Returned, Closing, Listening, Listening], 4, false, Idle))
    ensures Leads(q, from, Stage(4, 4, [Stopped, Returned, Returned, Returned, Listening], 4, false, Idle))
  {
    q := SecondCloses(p, from);
    q := Then(q, from, Stage(3, 3, [Stopped, Returned, Returned, Listening, Listening], 4, false, Idle),
              Nil(ToStub(3, Slicer.NoDraws())), Stage(4, 3, [Stopped, Returned, Returned, Closing, Listening], 4, false, Idle));
    q := Then(q, from, Stage(4, 3, [Stopped, Returned, Returned, Closing, Listening], 4, false, Idle),
              CloseOutput(3), Stage(4, 4, [Stopped, Returned, Returned, Returned, Listening], 4, false, Idle));
  }

  /** The two toxics after the noop are removed: their stubs stay in the link. */
  lemma Removes(p: Path, from: State) returns (q: Path)
    requires Leads(p, from, Stage(4, 4, [Stopped, Returned, Returned, Returned, Listening], 4, false, Idle))
    ensures Leads(q, from, Stage(4, 4, [Stopped, Returned, Returned, Returned, Listening], 2, false, Idle))
  {
    q := p;
    q := Then(q, from, Stage(4, 4, [Stopped, Returned, Returned, Returned, Listening], 4, false, Idle),
              BeginRemove(1), Stage(4, 4, [Stopped, Returned, Returned, Returned, Listening], 3, false, Interrupting(Removing(1))));
    q := Then(q, from, Stage(4, 4, [Stopped, Returned, Returned, Returned, Listening], 3, false, Interrupting(Removing(1))),
              Refuse, Stage(4, 4, [Stopped, Returned, Returned, Returned, Listening], 3, false, Idle));
    q := Then(q, from, Stage(4, 4, [Stopped, Returned, Returned, Returned, Listening], 3, false, Idle),
              BeginRemove(1), Stage(4, 4, [Stopped, Returned, Returned, Returned, Listening], 2, false, Interrupting(Removing(1))));
    q := Then(q, from, Stage(4, 4, [Stopped, Returned, Returned, Returned, Listening], 2, false, Interrupting(Removing(1))),
              Refuse, Stage(4, 4, [Stopped, Returned, Returned, Returned, Listening], 2, false, Idle));
  }

  /** A toxic is added; the last stub is interrupted and stops. */
  lemma AddBegins(p: Path, from: State) returns (q: Path)
    requires Leads(p, from, Stage(4, 4, [Stopped, Returned, Returned, Returned, Listening], 2, false, Idle))
    ensures Leads(q, from, Stage(4, 4, [Stopped, Returned, Returned, Returned, Listening], 3, true, Interrupting(Adding(Plain()))))
  {
    q := Then(p, from, Stage(4, 4, [Stopped, Returned, Returned, Returned, Listening], 2, false, Idle),
              BeginAdd(Plain()), Stage(4, 4, [Stopped, Returned, Returned, Returned, Listening], 3, true, Interrupting(Adding(Plain()))));
  }

  lemma Adds(p: Path, from: State) returns (q: Path)
    requires Leads(p, from, Stage(4, 4, [Stopped, Returned, Returned, Returned, Listening], 2, false, Idle))
    ensures Leads(q, from, Stage(4, 4, [Stopped, Returned, Returned, Returned, Stopped], 3, true, Awaiting(Adding(Plain()))))
  {
    q := AddBegins(p, from);
    q := Then(q, from, Stage(4, 4, [Stopped, Returned, Returned, Returned, Listening], 3, true, Interrupting(Adding(Plain()))),
              Accept, Stage(4, 4, [Stopped, Returned, Returned, Returned, Returned], 3, true, Awaiting(Adding(Plain()))));
    q := Then(q, from, Stage(4, 4, [Stopped, Returned, Returned, Returned, Returned], 3, true, Awaiting(Adding(Plain()))),
              Exit(4), Stage(4, 4, [Stopped, Returned, Returned, Returned, Stopped], 3, true, Awaiting(Adding(Plain()))));
  }

  lemma StartsAs(chain: seq<Toxic>)
    requires chain == [Plain(), Plain(), Plain(), Plain()]
    ensures Build(chain) == Stage(0, 0, [Listening, Launched, Launched, Launched, Launched], 4, false, Idle)
  {
  }

  lemma AllOfIt(from: State) returns (p: Path)
    requires from == Stage(0, 0, [Listening, Launched, Launched, Launched, Launched], 4, false, Idle)
    ensures Leads(p, from, Stage(4, 4, [Stopped, Returned, Returned, Returned, Stopped], 3, true, Awaiting(Adding(Plain()))))
  {
    p := Path([from], []);
    p := Starts(p, from);
    p := SourceEnds(p, from);
    p := FirstCloses(p, from);
    p := OthersClose(p, from);
    p := Removes(p, from);
    p := Adds(p, from);
  }

  lemma LastStepPanics(s: State)
    requires s == Stage(4, 4, [Stopped, Returned, Returned, Returned, Stopped], 3, true, Awaiting(Adding(Plain())))
    ensures Enabled(s, Resume) && Panics(s, Resume)
  {
  }

  /** Close the source of a four-stub link, let three stubs follow, remove two of their toxics and
      add one before the last stub has followed: AddToxic indexes the chain out of range. */
  lemma ShortChainIsReachable()
    ensures exists states: seq<State>, actions: seq<Action> ::
      IsRun(states, actions) && Enabled(states[|actions|], Resume) && Panics(states[|actions|], Resume)
  {
    var chain := [Plain(), Plain(), Plain(), Plain()];
    StartsAs(chain);
    var p := AllOfIt(Build(chain));
    LastStepPanics(p.states[|p.actions|]);
    RunIsRun(p, chain);
  }

  lemma RunIsRun(p: Path, chain: seq<Toxic>)
    requires chain != [] && p.states != [] && |p.states| == |p.actions| + 1
    requires Leads(p, Build(chain), p.states[|p.actions|])
    ensures IsRun(p.states, p.actions)
  {
    assert p.states[0].chain == chain;
  }

  /** The closed stubs end, and the restart is the only thing left to do. */
  lemma OthersEnd(p: Path, from: State) returns (q: Path)
    requires Leads(p, from, Stage(4, 4, [Stopped, Returned, Returned, Returned, Stopped], 3, true, Awaiting(Adding(Plain()))))
    ensures Leads(q, from, Stage(4, 4, [Stopped, Stopped, Stopped, Stopped, Stopped], 3, true, Awaiting(Adding(Plain()))))
  {
    q := p;
    q := Then(q, from, Stage(4, 4, [Stopped, Returned, Returned, Returned, Stopped], 3, true, Awaiting(Adding(Plain()))),
              Exit(1), Stage(4, 4, [Stopped, Stopped, Returned, Returned, Stopped], 3, true, Awaiting(Adding(Plain()))));
    q := Then(q, from, Stage(4, 4, [Stopped, Stopped, Returned, Returned, Stopped], 3, true, Awaiting(Adding(Plain()))),
              Exit(2), Stage(4, 4, [Stopped, Stopped, Stopped, Returned, Stopped], 3, true, Awaiting(Adding(Plain()))));
    q := Then(q, from, Stage(4, 4, [Stopped, Stopped, Stopped, Returned, Stopped], 3, true, Awaiting(Adding(Plain()))),
              Exit(3), Stage(4, 4, [Stopped, Stopped, Stopped, Stopped, Stopped], 3, true, Awaiting(Adding(Plain()))));
  }

  lemma LastOnlyCrashes(s: State)
    requires s == Stage(4, 4, [Stopped, Stopped, Stopped, Stopped, Stopped], 3, true, Awaiting(Adding(Plain())))
    ensures OnlyCrash(s) && Ending(s)
  {
    assert forall i :: 0 <= i < |s.nodes| ==> s.nodes[i].pc == Stopped;
    OnlyResume(s);
    assert s.nodes[0].closed;
  }

  /** Nobody runs, and the sink's channel is empty and open. */
  lemma OnlyResume(s: State)
    requires (forall i :: 0 <= i < |s.nodes| ==> s.nodes[i].pc == Stopped) && s.ctl.Awaiting? && s.helper.NoHelper?
    requires s.outChan < |s.chans| && s.chans[s.outChan].queue == [] && !s.chans[s.outChan].closed
    ensures forall a :: Enabled(s, a) && Productive(s, a) ==> a == Resume
  {
  }

  /** That run can go on until the panic is the only step that is left, while the end of the stream has
      not reached the sink. */
  lemma OnlyCrashIsReachable()
    ensures exists states: seq<State>, actions: seq<Action> ::
      IsRun(states, actions) && OnlyCrash(states[|actions|]) && Ending(states[|actions|]) && !states[|actions|].sinkDone
  {
    var chain := [Plain(), Plain(), Plain(), Plain()];
    StartsAs(chain);
    var p := AllOfIt(Build(chain));
    p := OthersEnd(p, Build(chain));
    LastOnlyCrashes(p.states[|p.actions|]);
    RunIsRun(p, chain);
  }
}
