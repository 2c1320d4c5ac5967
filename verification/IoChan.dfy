/** stream/io_chan.go: an io.Writer and an io.Reader over a channel of chunks. */
module IoChan {
  import opened Streams

  /** ChanReader.buffer: the leftover of the last chunk, or nil once the end has been seen. */
  datatype Buffer = NoBuffer | Leftover(bytes: seq<Byte>)

  datatype Status = Done | Eof | Interrupted | Blocked

  /** What one Read does: the bytes it puts into `out`, how it returns, what it leaves behind. A read
      that stays blocked in its select has not changed anything yet. */
  datatype Outcome = Outcome(data: seq<Byte>, status: Status, buffer: Buffer, queue: seq<Chunk>)

  function Min(a: int, b: int): int { if a <= b then a else b }

  /** A chunk copied into the `room` bytes left in `out`. */
  function Taken(data: seq<Byte>, room: nat, queue: seq<Chunk>): Outcome
    requires queue != []
  {
    var n := Min(room, |queue[0]|);
    Outcome(data + queue[0][..n], Done, Leftover(queue[0][n..]), queue[1..])
  }

  /** Read into a buffer of `size` bytes; `wake` says that the blocking select takes the interrupt. */
  function Reading(buffer: Buffer, queue: seq<Chunk>, closed: bool, size: nat, wake: bool): Outcome {
    match buffer
    case NoBuffer => Outcome([], Eof, NoBuffer, queue)
    case Leftover(b) =>
      var n := Min(size, |b|);
      var data, rest := b[..n], b[n..];
      if size <= |rest| then Outcome(data, Done, Leftover(rest), queue)
      else if n > 0 then
        if queue != [] then Taken(data, size - n, queue)
        else if closed then Outcome(data, Done, NoBuffer, queue)
        else Outcome(data, Done, Leftover(rest), queue)
      else if wake then Outcome(data, Interrupted, Leftover([]), queue)
      else if queue != [] then Taken(data, size - n, queue)
      else if closed then Outcome([], Eof, NoBuffer, queue)
      else Outcome([], Blocked, buffer, queue)
  }

  /** The bytes that a reader has still to return. */
  function Remaining(buffer: Buffer, queue: seq<Chunk>): seq<Byte> {
    (if buffer.NoBuffer? then [] else buffer.bytes) + Flat(queue)
  }

  /** What a read returns, and how: as much of its leftover and of the first chunk behind it as fits.
      Only a read with nothing in hand waits, and only such a one is interrupted or sees the end. */
  lemma ReadReturns(b: seq<Byte>, queue: seq<Chunk>, closed: bool, size: nat, wake: bool)
    ensures var r := Reading(Leftover(b), queue, closed, size, wake);
      var first := if queue == [] then [] else queue[0];
      var waits := b == [] && size > 0;
      && r.data == (if waits && wake then [] else (b + first)[..Min(size, |b + first|)])
      && (r.status.Interrupted? <==> waits && wake)
      && (r.status.Eof? <==> waits && !wake && queue == [] && closed)
      && (r.status.Blocked? <==> waits && !wake && queue == [] && !closed)
      && (r.queue == queue || (queue != [] && r.queue == queue[1..]))
      && (queue != [] ==> (r.queue == queue[1..] <==> (waits && !wake) || (b != [] && |b| < 2 * size)))
  {
    var first := if queue == [] then [] else queue[0];
    var n := Min(size, |b|);
    assert b == b[..n] + b[n..];
    if queue != [] { LongerByOne(queue); }
    if |b| <= size {
      assert b[..n] == b && (b + first)[..Min(size, |b + first|)] == b + first[..Min(size - n, |first|)];
    } else {
      assert (b + first)[..Min(size, |b + first|)] == b[..n];
      assert queue != [] ==> b[..n] + first[..Min(size - n, |first|)] == b[..n];
    }
  }

  lemma LongerByOne(queue: seq<Chunk>)
    requires queue != []
    ensures queue != queue[1..]
  {
    assert |queue| == |queue[1..]| + 1;
  }

  lemma TakenKeeps(data: seq<Byte>, room: nat, queue: seq<Chunk>)
    requires queue != []
    ensures var r := Taken(data, room, queue); r.data + Remaining(r.buffer, r.queue) == data + Flat(queue)
  {
    var n := Min(room, |queue[0]|);
    assert queue[0] == queue[0][..n] + queue[0][n..];
    assert Flat(queue) == queue[0] + Flat(queue[1..]);
  }

  /** The branch in which Read overwrites a leftover that did not fit. */
  predicate Overwrites(buffer: Buffer, queue: seq<Chunk>, closed: bool, size: nat) {
    buffer.Leftover? && size < |buffer.bytes| < 2 * size && (queue != [] || closed)
  }

  lemma ReadKeeps(buffer: Buffer, queue: seq<Chunk>, closed: bool, size: nat, wake: bool)
    requires !Overwrites(buffer, queue, closed, size)
    ensures var r := Reading(buffer, queue, closed, size, wake);
      r.data + Remaining(r.buffer, r.queue) == Remaining(buffer, queue)
  {
    var r := Reading(buffer, queue, closed, size, wake);
    if buffer.Leftover? {
      var b := buffer.bytes;
      var n := Min(size, |b|);
      var data, rest := b[..n], b[n..];
      assert b == data + rest;
      if size > |rest| && queue != [] && (n > 0 || !wake) {
        assert rest == [] && data == b;
        TakenKeeps(data, size - n, queue);
      } else {
        assert data + (rest + Flat(queue)) == b + Flat(queue);
      }
    }
  }

  lemma ReadLoses(buffer: Buffer, queue: seq<Chunk>, closed: bool, size: nat, wake: bool)
    requires Overwrites(buffer, queue, closed, size)
    ensures var r := Reading(buffer, queue, closed, size, wake);
      |r.data + Remaining(r.buffer, r.queue)| == |Remaining(buffer, queue)| - (|buffer.bytes| - size)
  {
    if queue != [] { TakenKeeps(buffer.bytes[..size], 0, queue); }
  }

  /** A Read returns the next bytes and forgets none, exactly when `out` covers the leftover, is at
      most half as long, or finds the channel neither ready nor closed. */
  lemma ReadKeepsBytesIff(buffer: Buffer, queue: seq<Chunk>, closed: bool, size: nat, wake: bool)
    ensures var r := Reading(buffer, queue, closed, size, wake);
      r.data + Remaining(r.buffer, r.queue) == Remaining(buffer, queue) <==> !Overwrites(buffer, queue, closed, size)
  {
    if Overwrites(buffer, queue, closed, size) { ReadLoses(buffer, queue, closed, size, wake); }
    else { ReadKeeps(buffer, queue, closed, size, wake); }
  }

  /** The end of the stream is reported only when nothing is left, and an interrupted read, which
      only a reader with no leftover can be, takes nothing. */
  lemma EofMeansExhausted(buffer: Buffer, queue: seq<Chunk>, closed: bool, size: nat, wake: bool)
    requires buffer.NoBuffer? ==> queue == [] && closed
    ensures var r := Reading(buffer, queue, closed, size, wake);
      && (r.status.Eof? ==> Remaining(buffer, queue) == [] && closed && r.data == [])
      && (r.status.Interrupted? || r.status.Blocked? ==> r.data == [] && r.queue == queue && r.buffer == buffer == Leftover([]))
      && (r.buffer.NoBuffer? ==> r.queue == [] && closed)
  {
  }

  // ---- runs of reads and writes -----------------------------------------------------------------------

  datatype Event = Write(chunk: Chunk) | Close | Read(size: nat, wake: bool)

  /** A channel with its reader; `blocks` are what the reads so far have returned. */
  datatype Io = Io(buffer: Buffer, queue: seq<Chunk>, closed: bool, written: seq<Chunk>, blocks: seq<Chunk>)

  function Begin(): Io { Io(Leftover([]), [], false, [], []) }

  /** A write or close after Close would panic: it cannot be part of a run. */
  predicate Possible(io: Io, e: Event) { e.Read? || !io.closed }

  function Happens(io: Io, e: Event): Io {
    match e
    case Write(c) => io.(queue := io.queue + [c], written := io.written + [c])
    case Close => io.(closed := true)
    case Read(size, wake) =>
      var r := Reading(io.buffer, io.queue, io.closed, size, wake);
      io.(buffer := r.buffer, queue := r.queue, blocks := if r.status.Done? then io.blocks + [r.data] else io.blocks)
  }

  /** The read buffer covers the leftover or is at most half as long. */
  predicate Fits(io: Io, e: Event) {
    e.Read? && io.buffer.Leftover? ==> |io.buffer.bytes| <= e.size || 2 * e.size <= |io.buffer.bytes|
  }

  function After(events: seq<Event>): Io {
    if events == [] then Begin() else Happens(After(events[..|events| - 1]), events[|events| - 1])
  }

  ghost predicate Runs(events: seq<Event>, ok: (Io, Event) -> bool) {
    events == [] ||
      (var last := |events| - 1;
       Runs(events[..last], ok) && Possible(After(events[..last]), events[last]) && ok(After(events[..last]), events[last]))
  }

  /** Every run of reads that fit returns the bytes written, in order, none missing and none twice. */
  lemma {:induction false} RoundTrip(events: seq<Event>)
    requires Runs(events, Fits)
    ensures Round(After(events))
    ensures After(events).buffer.NoBuffer? ==> Flat(After(events).blocks) == Flat(After(events).written)
  {
    if events != [] {
      var last := |events| - 1;
      RoundTrip(events[..last]);
      RoundStep(After(events[..last]), events[last]);
    }
  }

  ghost predicate Round(io: Io) {
    && Flat(io.blocks) + Remaining(io.buffer, io.queue) == Flat(io.written)
    && (io.buffer.NoBuffer? ==> io.queue == [] && io.closed)
  }

  lemma RoundStep(io: Io, e: Event)
    requires Round(io) && Possible(io, e) && Fits(io, e)
    ensures Round(Happens(io, e))
  {
    match e
    case Write(c) =>
      FlatSnoc(io.queue, c);
      FlatSnoc(io.written, c);
      assert Remaining(io.buffer, io.queue + [c]) == Remaining(io.buffer, io.queue) + c;
    case Close =>
    case Read(size, wake) =>
      var r := Reading(io.buffer, io.queue, io.closed, size, wake);
      ReadKeeps(io.buffer, io.queue, io.closed, size, wake);
      EofMeansExhausted(io.buffer, io.queue, io.closed, size, wake);
      FlatSnoc(io.blocks, r.data);
      assert Flat(io.blocks) + (r.data + Remaining(r.buffer, r.queue)) == Flat(io.blocks) + r.data + Remaining(r.buffer, r.queue);
  }

  /** All reads and all chunks have the size that io.Copy gives both ends of a link. */
  predicate SameSize(size: nat, e: Event) {
    match e case Write(c) => |c| <= size case Close => true case Read(n, _) => n == size
  }

  /** Blocks and chunks correspond one to one, and there is no leftover. */
  ghost predicate Paired(io: Io, size: nat) {
    && io.blocks + io.queue == io.written
    && (io.buffer == Leftover([]) || (io.buffer.NoBuffer? && io.queue == [] && io.closed))
    && (forall k :: 0 <= k < |io.queue| ==> |io.queue[k]| <= size)
  }

  lemma OneChunkStep(io: Io, e: Event, size: nat)
    requires size > 0 && Paired(io, size) && Possible(io, e) && SameSize(size, e)
    ensures Paired(Happens(io, e), size)
    ensures e.Read? && io.queue != [] && !e.wake ==> Happens(io, e).blocks == io.blocks + [io.queue[0]]
  {
    if e.Read? && io.queue != [] {
      assert io.queue[0][..|io.queue[0]|] == io.queue[0];
      assert [] + io.queue[0] == io.queue[0];
      assert io.blocks + [io.queue[0]] + io.queue[1..] == io.blocks + io.queue;
    } else if e.Write? {
      assert io.blocks + (io.queue + [e.chunk]) == io.blocks + io.queue + [e.chunk];
    }
  }

  /** With one size at both ends each read that succeeds returns exactly one chunk, and there is
      never a leftover between reads. */
  lemma {:induction false} OneChunkPerRead(events: seq<Event>, size: nat)
    requires size > 0 && Runs(events, (io, e) => SameSize(size, e))
    ensures Paired(After(events), size)
  {
    if events != [] {
      var last := |events| - 1;
      OneChunkPerRead(events[..last], size);
      OneChunkStep(After(events[..last]), events[last], size);
    }
  }

  /** The reads alone have that size. */
  predicate ReadsOf(size: nat, e: Event) { e.Read? ==> e.size == size }

  lemma {:induction false} OneChunkPerReadOf(events: seq<Event>, size: nat)
    requires size > 0 && Runs(events, (io, e) => ReadsOf(size, e))
    requires forall k :: 0 <= k < |After(events).written| ==> |After(events).written[k]| <= size
    ensures Paired(After(events), size)
  {
    if events != [] {
      var last := |events| - 1;
      var io := After(events[..last]);
      WrittenGrows(io, events[last]);
      assert After(events) == Happens(io, events[last]);
      forall k | 0 <= k < |io.written| ensures |io.written[k]| <= size { assert io.written[k] == After(events).written[k]; }
      OneChunkPerReadOf(events[..last], size);
      OneChunkStep(io, events[last], size);
    }
  }

  lemma WrittenGrows(io: Io, e: Event)
    ensures io.written <= Happens(io, e).written
    ensures e.Write? ==> |Happens(io, e).written| > 0 && Happens(io, e).written[|io.written|] == e.chunk
  {
  }

  // ---- the code -----------------------------------------------------------------------------------------

  /** What travels on a channel: the data, and when they were received. */
  datatype StreamChunk = StreamChunk(data: Chunk, timestamp: int)

  function Data(chunks: seq<StreamChunk>): (r: seq<Chunk>)
    ensures |r| == |chunks| && forall i :: 0 <= i < |chunks| ==> r[i] == chunks[i].data
  {
    seq(|chunks|, i requires 0 <= i < |chunks| => chunks[i].data)
  }

  /** A channel of chunks, with the sends that are waiting on it. */
  class Channel {
    var queue: seq<StreamChunk>
    var closed: bool

    constructor ()
      ensures queue == [] && !closed
    {
      queue, closed := [], false;
    }
  }

  class ChanWriter {
    const output: Channel

    constructor (output: Channel)
      ensures this.output == output
    {
      this.output := output;
    }

    /** The full buffer is always written, as one chunk of its own with the time of the write. */
    method Write(buf: array<Byte>, now: int) returns (n: nat)
      requires !output.closed
      modifies output`queue
      ensures n == buf.Length && output.queue == old(output.queue) + [StreamChunk(old(buf[..]), now)]
    {
      var packet := StreamChunk(buf[..], now);
      output.queue := output.queue + [packet];
      return buf.Length;
    }

    method Close()
      requires !output.closed
      modifies output`closed
      ensures output.closed
    {
      output.closed := true;
    }
  }

  /** Go's copy: as much of src as fits into out from position `at` on. */
  method Copy(out: array<Byte>, at: nat, src: seq<Byte>) returns (n: nat)
    requires at <= out.Length
    modifies out
    ensures n == Min(out.Length - at, |src|)
    ensures out[..at] == old(out[..at]) && out[at..at + n] == src[..n] && out[at + n..] == old(out[at + n..])
  {
    n := Min(out.Length - at, |src|);
    var i := 0;
    while i < n
      invariant 0 <= i <= n
      invariant out[..at] == old(out[..at]) && out[at + n..] == old(out[at + n..])
      invariant out[at..at + i] == src[..i]
    {
      out[at + i] := src[i];
      i := i + 1;
    }
  }

  class ChanReader {
    const input: Channel
    var buffer: Buffer

    constructor (input: Channel)
      ensures this.input == input && buffer == Leftover([])
    {
      this.input := input;
      buffer := Leftover([]);
    }

    /** Read does what Reading says, to the reader, to its channel and to `out`, and nothing else; what
        stays in the channel keeps its time stamps. */
    method Read(out: array<Byte>, wake: bool) returns (n: nat, status: Status)
      modifies this`buffer, input`queue, out
      ensures var r := old(Reading(buffer, Data(input.queue), input.closed, out.Length, wake));
        && status == r.status && buffer == r.buffer && Data(input.queue) == r.queue
        && n == |r.data| <= out.Length && out[..n] == r.data && out[n..] == old(out[n..])
      ensures input.queue == old(input.queue) || (old(input.queue) != [] && input.queue == old(input.queue[1..]))
    {
      if buffer.NoBuffer? {
        return 0, Eof;
      }
      n := Copy(out, 0, buffer.bytes);
      assert out[..n] == out[0..0 + n];
      buffer := Leftover(buffer.bytes[n..]);
      if out.Length <= |buffer.bytes| {
        return n, Done;
      } else if n > 0 {
        if input.queue != [] {
          n := Receive(out, n);
          return n, Done;
        } else if input.closed {
          buffer := NoBuffer;
          return n, Done;
        } else {
          return n, Done;
        }
      }
      if wake {
        buffer := Leftover([]);
        return n, Interrupted;
      }
      if input.queue != [] {
        n := Receive(out, n);
        return n, Done;
      } else if input.closed {
        buffer := NoBuffer;
        return 0, Eof;
      }
      return 0, Blocked;
    }

    /** Take a chunk from the channel, behind the n bytes already in `out`. */
    method Receive(out: array<Byte>, n: nat) returns (total: nat)
      requires n <= out.Length && input.queue != []
      modifies this`buffer, input`queue, out
      ensures var r := old(Taken(out[..n], out.Length - n, Data(input.queue)));
        && buffer == r.buffer && input.queue == old(input.queue[1..]) && Data(input.queue) == r.queue
        && total == |r.data| <= out.Length && out[..total] == r.data && out[total..] == old(out[total..])
    {
      var p := input.queue[0].data;
      input.queue := input.queue[1..];
      var n2 := Copy(out, n, p);
      buffer := Leftover(p[n2..]);
      assert out[..n + n2] == out[..n] + out[n..n + n2];
      return n + n2;
    }

    /** One read of io.Copy, into a buffer that every chunk fits. */
    method ReadBlock(buf: array<Byte>) returns (block: seq<Byte>, status: Status)
      requires buf.Length > 0 && buffer == Leftover([])
      requires input.queue != [] ==> |input.queue[0].data| <= buf.Length
      modifies this`buffer, input`queue, buf
      ensures old(input.queue) != [] ==>
        && status == Done && block == old(input.queue[0]).data
        && input.queue == old(input.queue[1..]) && buffer == Leftover([])
      ensures old(input.queue) == [] ==>
        && input.queue == [] && status == (if input.closed then Eof else Blocked)
        && buffer == if input.closed then NoBuffer else Leftover([])
    {
      if input.queue != [] {
        WholeChunk(Data(input.queue), input.closed, buf.Length);
      }
      var n: nat;
      n, status := Read(buf, false);
      block := buf[..n];
    }

    /** What other goroutines write before the next read: one of the arrivals, or the end. */
    method Arrive(arrivals: seq<seq<StreamChunk>>, k: nat) returns (next: nat)
      requires k <= |arrivals| && (input.closed ==> k == |arrivals|)
      modifies input
      ensures k <= next <= |arrivals|
      ensures input.queue + Joined(arrivals[next..]) == old(input.queue) + Joined(arrivals[k..])
      ensures if k < |arrivals| then next == k + 1 && input.closed == old(input.closed)
        else next == k && input.closed && input.queue == old(input.queue)
    {
      next := k;
      if k < |arrivals| {
        input.queue := input.queue + arrivals[k];
        next := k + 1;
        assert arrivals[k..][1..] == arrivals[k + 1..];
      } else {
        input.closed := true;
      }
    }

    /** io.Copy(dest, link.output), with other goroutines writing arrivals[k] before the k-th read and
        then closing the stream: the blocks it writes are the chunks, one by one, without the empty
        ones, however the writes fall between the reads. */
    method CopyAll(size: nat, arrivals: seq<seq<StreamChunk>>) returns (dest: seq<Chunk>)
      requires size > 0 && buffer == Leftover([]) && (input.closed ==> arrivals == [])
      requires forall c :: c in input.queue + Joined(arrivals) ==> |c.data| <= size
      modifies this`buffer, input
      ensures dest == NonEmpty(Data(old(input.queue) + Joined(arrivals)))
      ensures Flat(dest) == Flat(Data(old(input.queue) + Joined(arrivals)))
      ensures input.queue == [] && input.closed && buffer == NoBuffer
    {
      var buf := new Byte[size];
      dest := [];
      var k := 0;
      assert arrivals[k..] == arrivals;
      ghost var rest, done: seq<StreamChunk> := Joined(arrivals[k..]), [];
      ghost var all := input.queue + rest;
      NonEmptyFlat(Data(all));
      while buffer != NoBuffer
        invariant k <= |arrivals| && (input.closed ==> k == |arrivals|)
        invariant buffer == Leftover([]) || (buffer == NoBuffer && input.queue == [] && input.closed)
        invariant rest == Joined(arrivals[k..]) && (k == |arrivals| ==> rest == [])
        invariant fresh(buf) && done + (input.queue + rest) == all && dest == NonEmpty(Data(done))
        decreases |arrivals| - k, !input.closed, |input.queue|, buffer != NoBuffer
      {
        k := Arrive(arrivals, k);
        rest := Joined(arrivals[k..]);
        dest, done := CopyBlock(buf, dest, done, rest, all);
      }
      assert done == all;
    }

    /** One turn of io.Copy's loop; `done` has been copied, `rest` has not been written yet. */
    method CopyBlock(buf: array<Byte>, dest: seq<Chunk>, ghost done: seq<StreamChunk>, ghost rest: seq<StreamChunk>,
                     ghost all: seq<StreamChunk>)
      returns (more: seq<Chunk>, ghost copied: seq<StreamChunk>)
      requires buf.Length > 0 && buffer == Leftover([]) && (forall c :: c in all ==> |c.data| <= buf.Length)
      requires done + (input.queue + rest) == all && dest == NonEmpty(Data(done))
      modifies this`buffer, input`queue, buf
      ensures copied + (input.queue + rest) == all && more == NonEmpty(Data(copied))
      ensures old(input.queue) != [] ==> |input.queue| < |old(input.queue)| && buffer == Leftover([])
      ensures old(input.queue) == [] ==> input.queue == [] && buffer == if input.closed then NoBuffer else Leftover([])
    {
      more, copied := dest, done;
      assert input.queue != [] ==> all[|done|] == input.queue[0];
      var block, status := ReadBlock(buf);
      if status == Done {
        NonEmptyAppend(Data(done), block);
        copied := done + [old(input.queue[0])];
        assert Data(copied) == Data(done) + [block];
        if |block| > 0 {
          more := dest + [block];
        }
      }
    }
  }

  /** All the arrivals, in order. */
  function Joined(arrivals: seq<seq<StreamChunk>>): seq<StreamChunk> {
    if arrivals == [] then [] else arrivals[0] + Joined(arrivals[1..])
  }

  lemma WholeChunk(queue: seq<Chunk>, closed: bool, size: nat)
    requires queue != [] && |queue[0]| <= size && size > 0
    ensures Reading(Leftover([]), queue, closed, size, false) == Outcome(queue[0], Done, Leftover([]), queue[1..])
  {
    var none: seq<Byte> := [];
    assert none[..0] == [] && none[0..] == [];
    assert none + queue[0][..|queue[0]|] == queue[0];
    assert queue[0][|queue[0]|..] == [];
  }

  function NonEmpty(cs: seq<Chunk>): seq<Chunk> {
    if cs == [] then [] else (if cs[0] == [] then [] else [cs[0]]) + NonEmpty(cs[1..])
  }

  lemma {:induction false} NonEmptyFlat(cs: seq<Chunk>)
    ensures Flat(NonEmpty(cs)) == Flat(cs)
  {
    if cs != [] {
      NonEmptyFlat(cs[1..]);
      if cs[0] != [] {
        FlatAppend([cs[0]], NonEmpty(cs[1..]));
        FlatSingle(cs[0]);
      } else {
        assert [] + NonEmpty(cs[1..]) == NonEmpty(cs[1..]);
      }
    }
  }

  lemma {:induction false} NonEmptyAppend(cs: seq<Chunk>, c: Chunk)
    ensures NonEmpty(cs + [c]) == NonEmpty(cs) + if c == [] then [] else [c]
  {
    if cs == [] {
      assert [c][1..] == [];
      assert cs + [c] == [c];
    } else {
      assert (cs + [c])[1..] == cs[1..] + [c];
      NonEmptyAppend(cs[1..], c);
    }
  }
}
