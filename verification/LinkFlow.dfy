/** The data in a link, read from its output end to its input end, and what a step does to it. */
module LinkFlow {
  import opened Streams
  import opened LinkState

  /** What sits at one node: the buffer of its output channel, and what its goroutine holds. No
      chunk will ever pass a blocked node again. */
  datatype Cell = Cell(queue: seq<Chunk>, held: seq<Chunk>, blocked: bool)

  function Body(c: Cell): seq<Chunk> { c.queue + c.held }

  /** Closed, or a reset_peer that has taken its chunk. */
  predicate Blocked(n: Node) { n.closed || n.pc.Discarding? }

  ghost function CellAt(s: State, i: nat): Cell {
    if i < |s.nodes| then
      var n := s.nodes[i];
      Cell(if n.output < |s.chans| then s.chans[n.output].queue else [], Held(n.pc), Blocked(n))
    else Cell([], [], false)
  }

  ghost function Cells(s: State): (cells: seq<Cell>)
    ensures s.spine >= 0 ==> |cells| == s.spine
  {
    seq(if s.spine < 0 then 0 else s.spine, i requires 0 <= i => CellAt(s, i))
  }

  /** The chunks in flight, oldest first: all of them, or those that no blocked node holds back. */
  ghost function Flow(cells: seq<Cell>, all: bool): seq<Chunk> {
    if cells == [] then []
    else
      var last := cells[|cells| - 1];
      Body(last) + if !all && last.blocked then [] else Flow(cells[..|cells| - 1], all)
  }

  ghost predicate AnyBlocked(cells: seq<Cell>) { exists i :: 0 <= i < |cells| && cells[i].blocked }

  /** Everything delivered, followed by everything in flight. */
  ghost function Line(s: State): seq<Chunk> {
    s.delivered + Flow(Cells(s), true)
  }

  /** Everything delivered, followed by everything that can still be. */
  ghost function FrontLine(s: State): seq<Chunk> {
    s.delivered + Flow(Cells(s), false)
  }

  // ---- flows of cells -------------------------------------------------------------------------------

  lemma {:induction false} FlowSplit(a: seq<Cell>, b: seq<Cell>, all: bool)
    ensures Flow(a + b, all) == Flow(b, all) + if all || !AnyBlocked(b) then Flow(a, all) else []
  {
    if b == [] {
      assert a + b == a;
    } else {
      var n := |b| - 1;
      assert (a + b)[..|a + b| - 1] == a + b[..n];
      FlowSplit(a, b[..n], all);
      if !b[n].blocked {
        assert AnyBlocked(b) <==> AnyBlocked(b[..n]) by {
          if AnyBlocked(b) {
            var i :| 0 <= i < |b| && b[i].blocked;
            assert b[..n][i].blocked;
          }
        }
      }
    }
  }

  lemma FlowOne(c: Cell, all: bool)
    ensures Flow([c], all) == Body(c)
  {
    assert Flow([c][..0], all) == [];
  }

  /** The flow around a stretch of cells: what comes before it and what comes after it. If a later
      cell is blocked the stretch is out of sight. */
  lemma Around(a: seq<Cell>, mid: seq<Cell>, b: seq<Cell>, all: bool)
    ensures all || !AnyBlocked(b) ==>
      Flow(a + mid + b, all) == Flow(b, all) + Flow(mid, all) + if all || !AnyBlocked(mid) then Flow(a, all) else []
    ensures !all && AnyBlocked(b) ==> Flow(a + mid + b, all) == Flow(b, all)
  {
    FlowSplit(a + mid, b, all);
    FlowSplit(a, mid, all);
  }

  lemma Split1(cells: seq<Cell>, i: nat)
    requires i < |cells|
    ensures cells == cells[..i] + [cells[i]] + cells[i + 1..]
  {
  }

  /** Replacing one cell replaces its body. */
  lemma OneCell(cells: seq<Cell>, i: nat, c: Cell, all: bool) returns (x: seq<Chunk>, y: seq<Chunk>, seen: bool)
    requires i < |cells| && (all || c.blocked == cells[i].blocked)
    ensures seen ==> Flow(cells, all) == x + Body(cells[i]) + y && Flow(cells[i := c], all) == x + Body(c) + y
    ensures !seen ==> Flow(cells[i := c], all) == Flow(cells, all)
    ensures seen <==> all || !AnyBlocked(cells[i + 1..])
    ensures i == |cells| - 1 ==> seen && x == []
    ensures i == 0 ==> y == []
  {
    var a, b := cells[..i], cells[i + 1..];
    Split1(cells, i);
    Split1(cells[i := c], i);
    Around(a, [cells[i]], b, all);
    Around(a, [c], b, all);
    FlowOne(cells[i], all);
    FlowOne(c, all);
    assert AnyBlocked([c]) <==> [c][0].blocked;
    assert AnyBlocked([cells[i]]) <==> [cells[i]][0].blocked;
    seen := all || !AnyBlocked(b);
    x, y := Flow(b, all), if all || !c.blocked then Flow(a, all) else [];
  }

  /** Replacing two adjacent cells replaces their bodies; the later one comes first. */
  lemma TwoCells(cells: seq<Cell>, k: nat, c: Cell, d: Cell, all: bool) returns (x: seq<Chunk>, y: seq<Chunk>, seen: bool)
    requires k + 1 < |cells|
    requires all || (c.blocked == cells[k].blocked && !cells[k + 1].blocked && !d.blocked)
    ensures seen ==> Flow(cells, all) == x + (Body(cells[k + 1]) + Body(cells[k])) + y
    ensures seen ==> Flow(cells[k := c][k + 1 := d], all) == x + (Body(d) + Body(c)) + y
    ensures !seen ==> Flow(cells[k := c][k + 1 := d], all) == Flow(cells, all)
    ensures all ==> seen
  {
    var a, b := cells[..k], cells[k + 2..];
    var old2, new2 := [cells[k], cells[k + 1]], [c, d];
    assert cells == a + old2 + b;
    assert cells[k := c][k + 1 := d] == a + new2 + b;
    Around(a, old2, b, all);
    Around(a, new2, b, all);
    FlowPair(cells[k], cells[k + 1], all);
    FlowPair(c, d, all);
    PairBlocked(cells[k], cells[k + 1]);
    PairBlocked(c, d);
    seen := all || !AnyBlocked(b);
    x, y := Flow(b, all), if all || !c.blocked then Flow(a, all) else [];
  }

  lemma PairBlocked(c: Cell, d: Cell)
    ensures AnyBlocked([c, d]) <==> c.blocked || d.blocked
  {
    assert [c, d][0] == c && [c, d][1] == d;
  }

  lemma FlowPair(c: Cell, d: Cell, all: bool)
    requires all || !d.blocked
    ensures Flow([c, d], all) == Body(d) + Body(c)
  {
    assert [c, d][..1] == [c];
    FlowOne(c, all);
  }

  /** A cell that holds nothing hides what is behind it when it becomes blocked. */
  lemma BlockCell(cells: seq<Cell>, i: nat, c: Cell)
    requires i < |cells| && c.blocked && Body(c) == Body(cells[i])
    ensures Flow(cells[i := c], false) <= Flow(cells, false)
  {
    var a, b := cells[..i], cells[i + 1..];
    Split1(cells, i);
    Split1(cells[i := c], i);
    Around(a, [cells[i]], b, false);
    Around(a, [c], b, false);
    FlowOne(cells[i], false);
    FlowOne(c, false);
    assert AnyBlocked([c]) by { assert [c][0].blocked; }
  }

  /** Nothing behind a blocked cell shows in the front flow. */
  lemma BehindBlocked(cells: seq<Cell>, i: nat, k: nat, c: Cell)
    requires k < i < |cells| && cells[i].blocked
    ensures Flow(cells[k := c], false) == Flow(cells, false)
  {
    var a, b := cells[..i], cells[i..];
    assert cells == a + b && cells[k := c] == a[k := c] + b;
    FlowSplit(a, b, false);
    FlowSplit(a[k := c], b, false);
    assert b[0].blocked;
  }

  /** AddToxic's rewiring: the last buffer moves to the new node. */
  lemma ExtendCells(cells: seq<Cell>, all: bool)
    requires cells != []
    requires var c := cells[|cells| - 1]; !c.blocked && c.held == []
    ensures var n := |cells| - 1;
      Flow(cells[n := Cell([], [], false)] + [Cell(cells[n].queue, [], false)], all) == Flow(cells, all)
  {
    var n := |cells| - 1;
    var c, d := Cell([], [], false), Cell(cells[n].queue, [], false);
    var cells' := cells[n := c] + [d];
    assert cells == cells[..n] + [cells[n]] + [];
    assert cells' == cells[..n] + [c, d] + [];
    Around(cells[..n], [cells[n]], [], all);
    Around(cells[..n], [c, d], [], all);
    FlowOne(cells[n], all);
    FlowPair(c, d, all);
    PairBlocked(c, d);
    assert AnyBlocked([cells[n]]) <==> [cells[n]][0].blocked;
  }

  /** RemoveToxic's rewiring: two nodes become one, the emptied buffer between them is gone. */
  lemma MergeCells(cells: seq<Cell>, k: nat, all: bool)
    requires k + 1 < |cells| && cells[k] == Cell([], [], false)
    requires cells[k + 1].held == [] && !cells[k + 1].blocked
    ensures Flow(cells[..k] + [cells[k + 1]] + cells[k + 2..], all) == Flow(cells, all)
  {
    var a, b := cells[..k], cells[k + 2..];
    assert cells == a + [cells[k], cells[k + 1]] + b;
    Around(a, [cells[k], cells[k + 1]], b, all);
    Around(a, [cells[k + 1]], b, all);
    FlowOne(cells[k + 1], all);
    FlowPair(cells[k], cells[k + 1], all);
    PairBlocked(cells[k], cells[k + 1]);
    assert AnyBlocked([cells[k + 1]]) <==> [cells[k + 1]][0].blocked;
  }
}
