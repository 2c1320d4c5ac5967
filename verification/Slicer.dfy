/** The slicer toxic: toxics/slicer.go. */
module Slicer {
  import opened Streams
  import opened Rand

  datatype Config = Config(average: nat, variation: nat)

  /** The documented rule: the variation must be less than the average size. */
  type Settings = c: Config | c.variation < c.average witness Config(1, 0)

  /** One outcome of every call of rand.Intn, by the interval being split: any function will do. */
  type Draws = (int, int) -> int

  function NoDraws(): Draws { (start: int, end: int) => 0 }

  /** rand.Intn(2 * variation) - variation. */
  function Offset(variation: int, draw: int): (d: int)
    requires variation >= 0
    ensures if variation == 0 then d == 0 else -variation <= d < variation
  {
    if variation > 0 then Intn(2 * variation, draw) - variation else 0
  }

  /** rand reaches every offset that the variation allows. */
  lemma OffsetReaches(variation: int, offset: int)
    requires variation > 0 && -variation <= offset < variation
    ensures exists draw: int :: 0 <= draw < 2 * variation && Offset(variation, draw) == offset
  {
    assert Offset(variation, offset + variation) == offset;
  }

  function Middle(c: Config, start: int, end: int, draws: Draws): int
    requires start <= end
  {
    start + (end - start) / 2 + Offset(c.variation, draws(start, end))
  }

  /** The smallest piece that a split can leave: floor((A - V + 1) / 2). */
  function Least(c: Settings): (least: nat)
    ensures 1 <= least && 2 * least <= c.average - c.variation + 1
  {
    (c.average - c.variation + 1) / 2
  }

  /** A split leaves at least Least bytes on either side, whatever rand returns. */
  lemma MiddleInside(c: Settings, start: int, end: int, draws: Draws)
    requires end - start > c.average + c.variation
    ensures start + Least(c) <= Middle(c, start, end, draws) <= end - Least(c)
  {
  }

  /** chunk: the offsets of the pieces, each offset but the outer two listed twice. */
  function Offsets(c: Settings, start: int, end: int, draws: Draws): (r: seq<int>)
    requires start <= end
    ensures |r| >= 2 && |r| % 2 == 0 && r[0] == start && r[|r| - 1] == end
    decreases end - start
  {
    if end - start - c.average <= c.variation then [start, end]
    else
      MiddleInside(c, start, end, draws);
      var mid := Middle(c, start, end, draws);
      Offsets(c, start, mid, draws) + Offsets(c, mid, end, draws)
  }

  function Lo(r: seq<int>, k: nat): int requires 2 * k < |r| { r[2 * k] }

  function Hi(r: seq<int>, k: nat): int requires 2 * k + 1 < |r| { r[2 * k + 1] }

  /** n pairs of offsets that follow on one another from start to end without a gap. */
  ghost predicate Contiguous(r: seq<int>, n: nat, start: int, end: int) {
    && |r| == 2 * n && n >= 1 && r[0] == start && r[|r| - 1] == end
    && (forall k :: 0 <= k < n ==> start <= Lo(r, k) <= Hi(r, k) <= end)
    && (forall j, k :: 0 <= j && j + 1 == k < n ==> Lo(r, k) == Hi(r, j))
  }

  ghost predicate PairsWithin(r: seq<int>, n: nat, least: int, most: int)
    requires |r| == 2 * n
  {
    forall k :: 0 <= k < n ==> least <= Hi(r, k) - Lo(r, k) <= most
  }

  /** Contiguous pairs, no piece longer than A + V; a whole that fits is left alone, and in one
      that does not every piece has at least Least bytes. */
  ghost predicate Slicing(c: Settings, r: seq<int>, n: nat, start: int, end: int) {
    && Contiguous(r, n, start, end)
    && (if end - start <= c.average + c.variation then r == [start, end]
        else PairsWithin(r, n, Least(c), c.average + c.variation))
  }

  lemma JoinContiguous(a: seq<int>, m: nat, b: seq<int>, n: nat, start: int, mid: int, end: int)
    requires Contiguous(a, m, start, mid) && Contiguous(b, n, mid, end)
    ensures Contiguous(a + b, m + n, start, end)
  {
    var r := a + b;
    assert Lo(a, 0) == start && Hi(b, n - 1) == end && Hi(a, m - 1) == mid && Lo(b, 0) == mid;
    assert forall k :: 0 <= k < m ==> Lo(r, k) == Lo(a, k) && Hi(r, k) == Hi(a, k);
    assert forall k :: m <= k < m + n ==> Lo(r, k) == Lo(b, k - m) && Hi(r, k) == Hi(b, k - m);
  }

  lemma JoinWithin(a: seq<int>, m: nat, b: seq<int>, n: nat, least: int, most: int)
    requires |a| == 2 * m && |b| == 2 * n && PairsWithin(a, m, least, most) && PairsWithin(b, n, least, most)
    ensures PairsWithin(a + b, m + n, least, most)
  {
    var r := a + b;
    assert forall k :: 0 <= k < m ==> Lo(r, k) == Lo(a, k) && Hi(r, k) == Hi(a, k);
    assert forall k :: m <= k < m + n ==> Lo(r, k) == Lo(b, k - m) && Hi(r, k) == Hi(b, k - m);
  }

  /** chunk partitions [start, end) within its size bounds, whatever rand returns. */
  lemma {:induction false} OffsetsSlice(c: Settings, start: int, end: int, draws: Draws) returns (n: nat)
    requires start <= end
    ensures Slicing(c, Offsets(c, start, end, draws), n, start, end)
    decreases end - start
  {
    if end - start - c.average <= c.variation {
      n := 1;
      assert Lo([start, end], 0) == start && Hi([start, end], 0) == end;
    } else {
      MiddleInside(c, start, end, draws);
      var mid := Middle(c, start, end, draws);
      var a, b := Offsets(c, start, mid, draws), Offsets(c, mid, end, draws);
      var m := OffsetsSlice(c, start, mid, draws);
      var k := OffsetsSlice(c, mid, end, draws);
      n := m + k;
      JoinContiguous(a, m, b, k, start, mid, end);
      OnePair(c, a, m, start, mid);
      OnePair(c, b, k, mid, end);
      JoinWithin(a, m, b, k, Least(c), c.average + c.variation);
    }
  }

  lemma OnePair(c: Settings, r: seq<int>, n: nat, start: int, end: int)
    requires Slicing(c, r, n, start, end) && Least(c) <= end - start
    ensures PairsWithin(r, n, Least(c), c.average + c.variation)
  {
    if end - start <= c.average + c.variation {
      assert Lo(r, 0) == start && Hi(r, 0) == end;
    }
  }

  /** Some draw sends chunk(0, size) back to itself. */
  ghost predicate CanRepeat(c: Config, size: nat) {
    exists draw: int :: !(0 < size / 2 + Offset(c.variation, draw) < size)
  }

  /** Both halves of every split are smaller than the whole, for every draw, exactly when the
      documented rule holds: without it some draw makes chunk recurse on its own arguments. */
  lemma ProgressIffVariationBelowAverage(c: Config)
    ensures c.variation < c.average <==>
      (forall size: nat :: size > c.average + c.variation ==> !CanRepeat(c, size))
  {
    if c.variation >= c.average {
      var size := c.average + c.variation + 1;
      assert size / 2 <= c.variation;
      var draw := c.variation - size / 2;
      assert c.variation > 0 ==> Intn(2 * c.variation, draw) == draw;
      assert size / 2 + Offset(c.variation, draw) == 0;
      assert CanRepeat(c, size);
    }
  }

  /** The pieces that the emission loop cuts out of the data at the given offsets. */
  function Cuts(data: Chunk, offs: seq<int>, n: nat): (pieces: seq<Chunk>)
    requires Contiguous(offs, n, 0, |data|)
    ensures |pieces| == n
    ensures forall k :: 0 <= k < n ==> pieces[k] == data[Lo(offs, k)..Hi(offs, k)]
  {
    seq(n, k requires 0 <= k < n => data[Lo(offs, k)..Hi(offs, k)])
  }

  /** The first m pieces carry the data up to the end of the last of them. */
  lemma {:induction false} CutsFlat(data: Chunk, offs: seq<int>, n: nat, m: nat)
    requires Contiguous(offs, n, 0, |data|) && 1 <= m <= n
    ensures Flat(Cuts(data, offs, n)[..m]) == data[..Hi(offs, m - 1)]
  {
    var pieces := Cuts(data, offs, n);
    assert pieces[..m] == pieces[..m - 1] + [pieces[m - 1]];
    FlatAppend(pieces[..m - 1], [pieces[m - 1]]);
    FlatSingle(pieces[m - 1]);
    if m == 1 {
      assert Lo(offs, 0) == 0 && pieces[..0] == [];
    } else {
      CutsFlat(data, offs, n, m - 1);
      assert Lo(offs, m - 1) == Hi(offs, m - 2);
    }
  }

  /** The pieces up to any point and the tail from there on are the whole packet again. */
  lemma TailCompletes(data: Chunk, offs: seq<int>, n: nat, m: nat)
    requires Contiguous(offs, n, 0, |data|) && 1 <= m <= n
    ensures Flat(Cuts(data, offs, n)[..m] + [data[Hi(offs, m - 1)..]]) == data
    ensures m == n ==> Flat(Cuts(data, offs, n)) == data
  {
    var tail := data[Hi(offs, m - 1)..];
    CutsFlat(data, offs, n, m);
    FlatAppend(Cuts(data, offs, n)[..m], [tail]);
    FlatSingle(tail);
    if m == n {
      assert Hi(offs, n - 1) == |data|;
      assert Cuts(data, offs, n)[..n] == Cuts(data, offs, n);
    }
  }

  /** What one received packet is cut into. */
  function Pieces(c: Settings, data: Chunk, draws: Draws): (pieces: seq<Chunk>)
    ensures |pieces| >= 1 && Flat(pieces) == data
    ensures forall k :: 0 <= k < |pieces| ==> |pieces[k]| <= c.average + c.variation
    ensures |data| > c.average + c.variation ==> forall k :: 0 <= k < |pieces| ==> Least(c) <= |pieces[k]|
  {
    var offs := Offsets(c, 0, |data|, draws);
    var n := |offs| / 2;
    PiecesFit(c, data, draws);
    Cuts(data, offs, n)
  }

  /** A packet that is not longer than A + V is sent as it is. */
  lemma WholePiece(c: Settings, data: Chunk, draws: Draws)
    requires |data| <= c.average + c.variation
    ensures Pieces(c, data, draws) == [data]
  {
    var offs := Offsets(c, 0, |data|, draws);
    assert offs == [0, |data|];
    PiecesFit(c, data, draws);
    assert Cuts(data, offs, 1)[0] == data[Lo(offs, 0)..Hi(offs, 0)] == data;
  }

  lemma PiecesFit(c: Settings, data: Chunk, draws: Draws)
    ensures var offs := Offsets(c, 0, |data|, draws);
            && Slicing(c, offs, |offs| / 2, 0, |data|)
            && Flat(Cuts(data, offs, |offs| / 2)) == data
  {
    var n := OffsetsSlice(c, 0, |data|, draws);
    TailCompletes(data, Offsets(c, 0, |data|, draws), n, n);
  }

  lemma {:induction false} TotalLength(pieces: seq<Chunk>, least: nat, most: nat)
    requires forall k :: 0 <= k < |pieces| ==> least <= |pieces[k]| <= most
    ensures least * |pieces| <= |Flat(pieces)| <= most * |pieces|
  {
    if pieces != [] {
      TotalLength(pieces[1..], least, most);
      OneMore(least, |pieces| - 1);
      OneMore(most, |pieces| - 1);
    }
  }

  lemma OneMore(size: nat, n: nat)
    ensures size * (n + 1) == size + size * n
  {
  }

  /** How often one packet is sent, on both sides. */
  lemma PieceCount(c: Settings, data: Chunk, draws: Draws)
    ensures |data| <= (c.average + c.variation) * |Pieces(c, data, draws)|
    ensures |data| > c.average + c.variation ==> Least(c) * |Pieces(c, data, draws)| <= |data|
  {
    var pieces := Pieces(c, data, draws);
    TotalLength(pieces, if |data| > c.average + c.variation then Least(c) else 0, c.average + c.variation);
  }

  /** A packet and draws for which the first piece is the smallest that there can be. */
  lemma SmallestPiece(c: Settings) returns (data: Chunk, draws: Draws)
    ensures |data| > c.average + c.variation && |Pieces(c, data, draws)[0]| == Least(c)
  {
    var size := c.average + c.variation + 1;
    data := seq(size, _ => 0);
    draws := NoDraws();
    var mid := Middle(c, 0, size, draws);
    FirstDraw(c.variation);
    assert mid == size / 2 - c.variation == Least(c);
    MiddleInside(c, 0, size, draws);
    assert Offsets(c, 0, mid, draws) == [0, mid];
    var offs := Offsets(c, 0, size, draws);
    assert offs == [0, mid] + Offsets(c, mid, size, draws);
    PiecesFit(c, data, draws);
    assert Lo(offs, 0) == 0 && Hi(offs, 0) == mid;
    assert |Pieces(c, data, draws)[0]| == mid;
  }

  lemma FirstDraw(variation: int)
    requires variation >= 0
    ensures Offset(variation, 0) == -variation
  {
  }

  /** The field comment's "+/- bytes to vary sliced amounts", of every packet that is sliced at all. */
  ghost predicate VariesAsAdvertised(c: Settings) {
    forall data: Chunk, draws: Draws, k :: |data| > c.average + c.variation && 0 <= k < |Pieces(c, data, draws)| ==>
      c.average - c.variation <= |Pieces(c, data, draws)[k]| <= c.average + c.variation
  }

  /** The variation is a bound on the pieces, for every packet and every draw, exactly when the
      average size is the smallest that it may be. */
  lemma AdvertisedIff(c: Settings)
    ensures VariesAsAdvertised(c) <==> c.average - c.variation <= 1
  {
    if c.average - c.variation >= 2 {
      var data, draws := SmallestPiece(c);
      assert |Pieces(c, data, draws)[0]| < c.average - c.variation;
    }
  }

  /** Least is the greatest bound that holds for every packet and every draw. */
  lemma LeastIsTight(c: Settings, bound: int)
    ensures (forall data: Chunk, draws: Draws, k ::
               |data| > c.average + c.variation && 0 <= k < |Pieces(c, data, draws)| ==> bound <= |Pieces(c, data, draws)[k]|)
      <==> bound <= Least(c)
  {
    var data, draws := SmallestPiece(c);
    assert 0 < |Pieces(c, data, draws)|;
  }

  /** What Pipe sends for one packet when the select after piece `interrupt` is interrupted. */
  ghost function Sent(pieces: seq<Chunk>, interrupt: int): seq<Chunk> {
    if 0 <= interrupt < |pieces| then pieces[..interrupt + 1] + [Flat(pieces[interrupt + 1..])] else pieces
  }

  lemma SentIsIdentity(pieces: seq<Chunk>, interrupt: int)
    ensures Flat(Sent(pieces, interrupt)) == Flat(pieces)
  {
    if 0 <= interrupt < |pieces| {
      var head, tail := pieces[..interrupt + 1], pieces[interrupt + 1..];
      FlatAppend(head, [Flat(tail)]);
      FlatSingle(Flat(tail));
      FlatAppend(head, tail);
      assert head + tail == pieces;
    }
  }

  lemma TailIsRest(data: Chunk, offs: seq<int>, n: nat, m: nat)
    requires Contiguous(offs, n, 0, |data|) && 1 <= m <= n
    ensures data[Hi(offs, m - 1)..] == Flat(Cuts(data, offs, n)[m..])
  {
    CutsFlat(data, offs, n, m);
    TailCompletes(data, offs, n, n);
    RestFlat(Cuts(data, offs, n), m, data, Hi(offs, m - 1));
  }

  lemma RestFlat(pieces: seq<Chunk>, m: nat, data: Chunk, end: nat)
    requires m <= |pieces| && end <= |data| && Flat(pieces) == data && Flat(pieces[..m]) == data[..end]
    ensures data[end..] == Flat(pieces[m..])
  {
    FlatAppend(pieces[..m], pieces[m..]);
    assert pieces[..m] + pieces[m..] == pieces;
    assert data == data[..end] + data[end..];
    SameTail(data[..end], data[end..], Flat(pieces[m..]));
  }

  lemma SameTail(head: Chunk, x: Chunk, y: Chunk)
    requires head + x == head + y
    ensures x == y
  {
    assert x == (head + x)[|head|..] && y == (head + y)[|head|..];
  }

  /** Pipe on one packet: the emission loop, interrupted (if at all) in the select after piece
      `interrupt`. The stage is the identity on bytes wherever the interrupt lands. */
  method Emit(c: Settings, data: Chunk, draws: Draws, interrupt: int) returns (sent: seq<Chunk>, left: bool)
    ensures sent == Sent(Pieces(c, data, draws), interrupt)
    ensures left <==> 0 <= interrupt < |Pieces(c, data, draws)|
    ensures Flat(sent) == data
    ensures !left ==> sent == Pieces(c, data, draws)
    ensures left ==> |sent| == interrupt + 2 && sent[..interrupt + 1] == Pieces(c, data, draws)[..interrupt + 1]
  {
    var chunks := Offsets(c, 0, |data|, draws);
    ghost var n := |chunks| / 2;
    ghost var pieces := Pieces(c, data, draws);
    PiecesFit(c, data, draws);
    SentIsIdentity(pieces, interrupt);
    sent, left := EmitAt(data, chunks, n, interrupt);
  }

  method EmitAt(data: Chunk, chunks: seq<int>, ghost n: nat, interrupt: int) returns (sent: seq<Chunk>, left: bool)
    requires Contiguous(chunks, n, 0, |data|)
    ensures sent == Sent(Cuts(data, chunks, n), interrupt)
    ensures left <==> 0 <= interrupt < n
  {
    ghost var pieces := Cuts(data, chunks, n);
    sent := [];
    var i := 1;
    ghost var k := 0;
    while i < |chunks|
      invariant 0 <= k <= n && i == 2 * k + 1
      invariant sent == pieces[..k]
      invariant 0 <= interrupt ==> k <= interrupt
    {
      assert Lo(chunks, k) == chunks[i - 1] && Hi(chunks, k) == chunks[i];
      sent := sent + [data[chunks[i - 1]..chunks[i]]];
      assert sent == pieces[..k + 1];
      if i == 2 * interrupt + 1 {
        TailIsRest(data, chunks, n, k + 1);
        sent := sent + [data[chunks[i]..]];
        return sent, true;
      }
      i, k := i + 2, k + 1;
    }
    assert pieces[..n] == pieces;
    left := false;
  }
}
