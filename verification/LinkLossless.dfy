/** Conservation: where every byte that was written is, in every reachable state. */
module LinkLossless {
  import opened Streams
  import opened LinkState
  import opened LinkInvariant
  import opened LinkFlow
  import opened LinkEffect
  import opened LinkSteps

  /** What was written falls into pieces, each of which is either a whole chunk of the line, in its
      order, or a whole chunk that one of the two logs has. */
  ghost predicate Accounted(s: State, pieces: seq<Chunk>, lost: seq<Chunk>) {
    && Flat(pieces) == Flat(s.written) && Merge(pieces, Line(s), lost)
    && multiset(lost) == multiset(s.dropped) + multiset(s.discarded)
  }

  ghost predicate Books(s: State) { exists pieces, lost :: Accounted(s, pieces, lost) }

  lemma BooksKept(s: State, a: Action, s': State, change: Change)
    requires Books(s) && Enabled(s, a) && Effect(s, a, s', change)
    ensures Books(s')
  {
    var pieces, lost :| Accounted(s, pieces, lost);
    match change
    case Same => assert Accounted(s', pieces, lost);
    case Gain(c) =>
      FlatSnoc(s.written, c);
      FlatSnoc(pieces, c);
      MergeAppend(pieces, Line(s), lost, [c]);
      assert Accounted(s', pieces + [c], lost);
    case Recut(x, was, now, y) =>
      var pieces' := MergeRecut(pieces, x, was, now, y, lost);
      assert Accounted(s', pieces', lost);
    case Lose(x, c, y) =>
      var lost' := MergeDrop(pieces, x, [c], y, lost);
      assert Accounted(s', pieces, lost');
  }

  lemma EmptyFlow(cells: seq<Cell>, all: bool)
    requires forall i :: 0 <= i < |cells| ==> cells[i].queue == [] && cells[i].held == []
    ensures Flow(cells, all) == []
  {
    if cells != [] {
      EmptyFlow(cells[..|cells| - 1], all);
      assert Body(cells[|cells| - 1]) == [];
    }
  }

  lemma BuiltNode(chain: seq<Toxic>, i: nat)
    requires chain != [] && i < |chain| + 1
    ensures var s := Build(chain);
      && |s.nodes| == |chain| + 1 == s.spine == |s.chans|
      && s.nodes[i] == (if i == 0 then Node(0, 0, false, Listening, Noop, chain[0])
                        else Node(i - 1, i, false, Launched, Noop, chain[i - 1]))
      && s.chans[i] == Chan(if i == 0 || i == |chain| then 0 else chain[i].bufferSize, [], false)
  {
  }

  lemma EmptyAtStart(chain: seq<Toxic>)
    requires chain != []
    ensures Line(Build(chain)) == [] && FrontLine(Build(chain)) == []
    ensures Books(Build(chain)) && PipesOk(Build(chain)) && FrontBooks(Build(chain))
  {
    var s := Build(chain);
    forall i | 0 <= i < |chain| + 1
      ensures CellAt(s, i) == Cell([], [], false) && PipeOk(s.nodes[i].pipe, s.nodes[i].pc)
    {
      BuiltNode(chain, i);
    }
    EmptyFlow(Cells(s), true);
    EmptyFlow(Cells(s), false);
    MergeAll<Chunk>([]);
    assert Line(s) == [] && FrontLine(s) == [];
    assert Accounted(s, [], []);
  }

  // ---- the front: what reset_peer cannot reorder ------------------------------------------------------

  ghost predicate SomeBlocked(s: State) { exists i :: 0 <= i < s.spine <= |s.nodes| && Blocked(s.nodes[i]) }

  lemma BlockedCells(s: State)
    requires Wiring(s)
    ensures SomeBlocked(s) <==> AnyBlocked(Cells(s))
  {
    if SomeBlocked(s) {
      var i :| 0 <= i < s.spine && Blocked(s.nodes[i]);
      assert Cells(s)[i].blocked;
    }
  }

  /** Without timeouts, what can still be delivered continues what was delivered to a prefix of what
      was written, and only a blocked node can have discarded anything. */
  ghost predicate FrontBooks(s: State) {
    && (s.dropped == [] ==> Flat(FrontLine(s)) <= Flat(s.written))
    && (s.discarded != [] ==> SomeBlocked(s))
  }

  lemma NothingLost(s: State)
    requires Books(s) && s.dropped == [] && s.discarded == []
    ensures Flat(Line(s)) == Flat(s.written)
  {
    var pieces, lost :| Accounted(s, pieces, lost);
    assert |multiset(lost)| == 0;
    assert lost == [];
    MergeNothingLost(pieces, Line(s));
  }

  lemma FrontBooksKept(s: State, a: Action, s': State, change: Change)
    requires GoodStep(s, a, s') && Books(s) && FrontBooks(s) && Books(s')
    requires Effect(s, a, s', change) && FrontOk(s, a, s')
    requires SomeBlocked(s) || (change.Lose? && !a.Timeout?) ==> SomeBlocked(s')
    ensures FrontBooks(s')
  {
    if s'.dropped == [] {
      if a.SourceWrite? {
        FrontGrows(s, a, s');
      } else {
        assert Flat(FrontLine(s')) <= Flat(FrontLine(s)) <= Flat(s.written);
      }
    }
  }

  lemma FrontGrows(s: State, a: Action, s': State)
    requires Wiring(s) && a.SourceWrite? && s.dropped == [] && s'.dropped == [] && FrontBooks(s) && Books(s')
    requires s'.written == s.written + [a.chunk] && s'.discarded == s.discarded && FrontOk(s, a, s')
    ensures Flat(FrontLine(s')) <= Flat(s'.written)
  {
    BlockedCells(s);
    FlatSnoc(s.written, a.chunk);
    if !SomeBlocked(s) {
      NothingLost(s');
      FrontWithin(s');
    }
  }

  lemma {:induction false} FlowWithin(cells: seq<Cell>)
    ensures Flow(cells, false) <= Flow(cells, true)
  {
    if cells != [] { FlowWithin(cells[..|cells| - 1]); }
  }

  lemma FrontWithin(s: State)
    ensures Flat(FrontLine(s)) <= Flat(Line(s))
  {
    FlowWithin(Cells(s));
    PrefixFlat(FrontLine(s), Line(s));
  }
}
