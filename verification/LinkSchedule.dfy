/** What an operation makes of a schedule: the steps, of anybody, that are on offer while it runs. */
module LinkSchedule {
  import opened LinkState
  import LinkInvariant
  import opened LinkLimits
  import opened LinkTheorems
  import opened LinkProgress
  import opened LinkDeadlock
  import opened LinkWork
  import opened LinkReturn

  /** Whether an operation is done, still waits when its schedule ends, or has crashed. */
  datatype Outcome = Done | Waiting | Crashed

  /** Where the link is then, and which steps of the schedule have been taken. */
  datatype Followed = Followed(state: State, taken: seq<Action>, outcome: Outcome)

  predicate IsBegin(a: Action) { a.BeginAdd? || a.BeginUpdate? || a.BeginRemove? }

  /** Every step of the schedule is taken if it is possible when its turn comes, until the operation
      under way has returned or crashed; another one cannot begin meanwhile. */
  function Follow(s: State, schedule: seq<Action>): Followed
    decreases |schedule|
  {
    if schedule == [] then Followed(s, [], Waiting)
    else
      var a := schedule[0];
      if IsBegin(a) || !Enabled(s, a) then Follow(s, schedule[1..])
      else if Panics(s, a) then Followed(s, [], Crashed)
      else if Apply(s, a).ctl.Idle? then Followed(Apply(s, a), [a], Done)
      else After([a], Follow(Apply(s, a), schedule[1..]))
  }

  function After(first: seq<Action>, f: Followed): Followed { f.(taken := first + f.taken) }

  /** An operation begins with step a and follows the schedule. */
  function Told(s: State, a: Action, schedule: seq<Action>): Followed {
    if Enabled(s, a) && !Panics(s, a) then Follow(Apply(s, a), schedule) else Followed(s, [], Waiting)
  }

  /** Traffic without an operation. */
  function Traffic(s: State, schedule: seq<Action>): Followed
    decreases |schedule|
  {
    if schedule == [] then Followed(s, [], Done)
    else
      var a := schedule[0];
      if IsBegin(a) || !Enabled(s, a) || Panics(s, a) then Traffic(s, schedule[1..])
      else After([a], Traffic(Apply(s, a), schedule[1..]))
  }

  /** One turn of a schedule of which the first i steps have been on offer. */
  lemma FollowTurn(s: State, schedule: seq<Action>, i: nat, taken: seq<Action>)
    requires i < |schedule|
    ensures var a, rest := schedule[i], schedule[i + 1..];
      After(taken, Follow(s, schedule[i..])) ==
        if IsBegin(a) || !Enabled(s, a) then After(taken, Follow(s, rest))
        else if Panics(s, a) then Followed(s, taken, Crashed)
        else if Apply(s, a).ctl.Idle? then Followed(Apply(s, a), taken + [a], Done)
        else After(taken + [a], Follow(Apply(s, a), rest))
  {
    assert schedule[i..][1..] == schedule[i + 1..] && taken + [] == taken;
    if Enabled(s, schedule[i]) && !Panics(s, schedule[i]) {
      var f := Follow(Apply(s, schedule[i]), schedule[i + 1..]);
      assert taken + [schedule[i]] + f.taken == taken + ([schedule[i]] + f.taken);
    }
  }

  lemma FollowBegins(s: State, schedule: seq<Action>)
    ensures After([], Follow(s, schedule[0..])) == Follow(s, schedule)
  {
    assert schedule[0..] == schedule;
  }

  lemma TrafficTurn(s: State, schedule: seq<Action>, i: nat, taken: seq<Action>)
    requires i < |schedule|
    ensures var a, rest := schedule[i], schedule[i + 1..];
      After(taken, Traffic(s, schedule[i..])) ==
        if IsBegin(a) || !Enabled(s, a) || Panics(s, a) then After(taken, Traffic(s, rest))
        else After(taken + [a], Traffic(Apply(s, a), rest))
  {
    assert schedule[i..][1..] == schedule[i + 1..];
    if Enabled(s, schedule[i]) && !Panics(s, schedule[i]) {
      var f := Traffic(Apply(s, schedule[i]), schedule[i + 1..]);
      assert taken + [schedule[i]] + f.taken == taken + ([schedule[i]] + f.taken);
    }
  }

  // ---- what following means -----------------------------------------------------------------------------------

  ghost predicate NoneBegins(schedule: seq<Action>) { forall j :: 0 <= j < |schedule| ==> !IsBegin(schedule[j]) }

  /** A path from s whose actions are the schedule. */
  ghost predicate PathFrom(s: State, states: seq<State>, schedule: seq<Action>) {
    IsPath(states, schedule) && states[0] == s && NoneBegins(schedule)
  }

  lemma PathTail(s: State, states: seq<State>, schedule: seq<Action>)
    requires PathFrom(s, states, schedule) && schedule != []
    ensures Next(s, schedule[0], states[1]) && PathFrom(states[1], states[1..], schedule[1..])
  {
    assert StepAt(states, schedule, 0);
    forall i | 0 <= i < |schedule[1..]| ensures StepAt(states[1..], schedule[1..], i) { assert StepAt(states, schedule, i + 1); }
  }

  /** A schedule that is a path is followed step by step: to its end, or until the operation returns. */
  lemma {:induction false} FollowPath(s: State, states: seq<State>, schedule: seq<Action>)
    requires PathFrom(s, states, schedule)
    ensures Follow(s, schedule) == Followed(states[|schedule|], schedule, Waiting) || Follow(s, schedule).outcome.Done?
    decreases |schedule|
  {
    if schedule != [] {
      PathTail(s, states, schedule);
      FollowPath(states[1], states[1..], schedule[1..]);
      assert [schedule[0]] + schedule[1..] == schedule;
    }
  }

  /** An operation follows a path on which it returns at the very end, and returns there. */
  lemma {:induction false} FollowToReturn(s: State, states: seq<State>, schedule: seq<Action>)
    requires PathFrom(s, states, schedule) && schedule != []
    requires states[|schedule|].ctl.Idle? && forall j :: 0 < j < |schedule| ==> !states[j].ctl.Idle?
    ensures Follow(s, schedule) == Followed(states[|schedule|], schedule, Done)
    decreases |schedule|
  {
    PathTail(s, states, schedule);
    if |schedule| > 1 { FollowToReturn(states[1], states[1..], schedule[1..]); }
    assert [schedule[0]] + schedule[1..] == schedule;
  }

  lemma {:induction false} TrafficPath(s: State, states: seq<State>, schedule: seq<Action>)
    requires PathFrom(s, states, schedule)
    ensures Traffic(s, schedule) == Followed(states[|schedule|], schedule, Done)
    decreases |schedule|
  {
    if schedule != [] {
      PathTail(s, states, schedule);
      TrafficPath(states[1], states[1..], schedule[1..]);
      assert [schedule[0]] + schedule[1..] == schedule;
    }
  }

  /** One more step on offer is taken exactly when it is possible and the operation still waits. */
  lemma {:induction false} FollowOneMore(s: State, schedule: seq<Action>, a: Action)
    ensures var f := Follow(s, schedule);
      Follow(s, schedule + [a]) ==
        if !f.outcome.Waiting? || IsBegin(a) || !Enabled(f.state, a) then f
        else if Panics(f.state, a) then f.(outcome := Crashed)
        else Followed(Apply(f.state, a), f.taken + [a], if Apply(f.state, a).ctl.Idle? then Done else Waiting)
    decreases |schedule|
  {
    if schedule == [] {
      assert [a][1..] == [] && [a] + [] == [a];
    } else {
      var b := schedule[0];
      assert (schedule + [a])[1..] == schedule[1..] + [a];
      if IsBegin(b) || !Enabled(s, b) {
        FollowOneMore(s, schedule[1..], a);
      } else if !Panics(s, b) && !Apply(s, b).ctl.Idle? {
        FollowOneMore(Apply(s, b), schedule[1..], a);
        var f := Follow(Apply(s, b), schedule[1..]);
        assert [b] + (f.taken + [a]) == [b] + f.taken + [a];
      }
    }
  }

  /** The link of a run that follows a schedule is in a longer run: it is idle when the operation has
      returned, and only an AddToxic that indexes too short a chain crashes. */
  lemma {:induction false} FollowRuns(states: seq<State>, actions: seq<Action>, schedule: seq<Action>)
    returns (more: seq<State>)
    requires IsRun(states, actions) && !states[|actions|].ctl.Idle?
    ensures var f := Follow(states[|actions|], schedule);
      && IsRun(more, actions + f.taken) && states <= more && more[|actions + f.taken|] == f.state
      && (f.outcome.Done? <==> f.state.ctl.Idle?) && (f.outcome.Crashed? ==> Crashing(f.state))
    decreases |schedule|
  {
    more := states;
    assert actions + [] == actions;
    if schedule != [] {
      var s, a := states[|actions|], schedule[0];
      if IsBegin(a) || !Enabled(s, a) {
        more := FollowRuns(states, actions, schedule[1..]);
      } else {
        InvAt(states, actions);
        PanicIsCrash(s, a);
        if !Panics(s, a) { more := FollowStep(states, actions, schedule); }
      }
    }
  }

  lemma FollowStep(states: seq<State>, actions: seq<Action>, schedule: seq<Action>) returns (more: seq<State>)
    requires IsRun(states, actions) && !states[|actions|].ctl.Idle? && schedule != [] && !IsBegin(schedule[0])
    requires Enabled(states[|actions|], schedule[0]) && !Panics(states[|actions|], schedule[0])
    ensures var f := Follow(states[|actions|], schedule);
      && IsRun(more, actions + f.taken) && states <= more && more[|actions + f.taken|] == f.state
      && (f.outcome.Done? <==> f.state.ctl.Idle?) && (f.outcome.Crashed? ==> Crashing(f.state))
    decreases |schedule|, 0
  {
    var s, a := states[|actions|], schedule[0];
    var s' := Apply(s, a);
    OneStepMore(states, actions, a, s');
    more := states + [s'];
    if !s'.ctl.Idle? {
      more := FollowRuns(states + [s'], actions + [a], schedule[1..]);
      var f := Follow(s', schedule[1..]);
      assert actions + [a] + f.taken == actions + ([a] + f.taken);
    }
  }

  lemma InvAt(states: seq<State>, actions: seq<Action>)
    requires IsRun(states, actions)
    ensures LinkInvariant.Inv(states[|actions|])
  {
    LinkInvariant.InvAlongRun(states, actions, |actions|);
  }

  // ---- when a schedule can complete an operation ------------------------------------------------------------------

  /** Some schedule makes the operation return, or crash. */
  ghost predicate Completes(s: State) { exists schedule :: !Follow(s, schedule).outcome.Waiting? }

  /** A run that goes on until its operation is over is a schedule that completes it. */
  lemma OverCompletes(states: seq<State>, actions: seq<Action>, more: seq<State>, acts: seq<Action>)
    requires IsRun(states, actions) && !states[|actions|].ctl.Idle?
    requires Continues(states, actions, more, acts) && Over(more[|acts|])
    ensures Completes(states[|actions|])
  {
    var n := |actions|;
    var s, path, schedule := states[n], more[n..], acts[n..];
    assert path[0] == s && path[|schedule|] == more[|acts|];
    forall i | 0 <= i < |schedule| ensures StepAt(path, schedule, i) { assert StepAt(more, acts, n + i); }
    FollowPath(s, path, schedule);
    var all := FollowRuns(states, actions, schedule);
    if Follow(s, schedule).outcome.Waiting? {
      InvAt(more, acts);
      PanicIsCrash(more[|acts|], Resume);
      FollowOneMore(s, schedule, Resume);
      assert !Follow(s, schedule + [Resume]).outcome.Waiting?;
    }
  }

  /** No schedule completes a stranded operation. */
  lemma StuckNeverCompletes(states: seq<State>, actions: seq<Action>)
    requires IsRun(states, actions) && Stuck(states[|actions|], states[|actions|].ctl)
    ensures !Completes(states[|actions|])
  {
    var s := states[|actions|];
    StuckIsNotOver(s, s.ctl);
    forall schedule ensures Follow(s, schedule).outcome.Waiting? {
      var more := FollowRuns(states, actions, schedule);
      var acts := actions + Follow(s, schedule).taken;
      assert more[|actions|] == s;
      StuckForEver(more, acts, |actions|, |acts|);
      StuckIsNotOver(more[|acts|], s.ctl);
    }
  }

  /** In every run within the limits every operation under way has a schedule with which it returns or
      crashes, if and only if the limits allow no toxic that stops receiving. */
  lemma CompletesIff(l: Limits)
    requires l.kinds(Noop)
    ensures (forall states: seq<State>, actions :: LimitedRun(states, actions, l) && !states[|actions|].ctl.Idle? ==>
               Completes(states[|actions|])) <==> NoneStops(l)
  {
    if NoneStops(l) {
      forall states: seq<State>, actions | LimitedRun(states, actions, l) && !states[|actions|].ctl.Idle?
        ensures Completes(states[|actions|])
      {
        var more, acts := Settle(states, actions);
        OnwardWithin(states, actions, more, acts, l);
        AtRestIsOver(more, acts, l);
        OverCompletes(states, actions, more, acts);
      }
    } else {
      var states, actions := StuckWithin(l);
      StuckNeverCompletes(states, actions);
      StuckIsNotOver(states[|actions|], states[|actions|].ctl);
    }
  }

  /** Every operation that begins in such a run has a schedule with which it returns, or crashes as
      AddToxic does. */
  lemma BegunCompletes(states: seq<State>, actions: seq<Action>, a: Action, l: Limits)
    requires LimitedRun(states, actions, l) && NoneStops(l)
    requires IsBegin(a) && Enabled(states[|actions|], a) && Respects(a, l)
    ensures exists schedule :: !Told(states[|actions|], a, schedule).outcome.Waiting?
  {
    var s := states[|actions|];
    InvAt(states, actions);
    PanicIsCrash(s, a);
    var s' := Apply(s, a);
    OneStepMore(states, actions, a, s');
    var more, acts := Settle(states + [s'], actions + [a]);
    OnwardWithin(states + [s'], actions + [a], more, acts, l);
    AtRestIsOver(more, acts, l);
    OverCompletes(states + [s'], actions + [a], more, acts);
    var schedule :| !Follow(s', schedule).outcome.Waiting?;
    assert Told(s, a, schedule) == Follow(s', schedule);
  }
}
