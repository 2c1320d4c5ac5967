/** The bandwidth toxic: toxics/bandwidth.go. Times are in nanoseconds, rates in bytes per
    millisecond (which is what KB/s amounts to). */
module Bandwidth {
  import opened Streams
  import opened Timing

  /** A chunk sent to Output, and when. */
  datatype Emission = Emission(data: Chunk, at: nat)

  /** What Pipe adds to its sleep for a packet of the given length. */
  function Due(rate: int, length: nat): nat {
    if rate <= 0 then 0 else length * MILLISECOND / rate
  }

  function Data(sent: seq<Emission>): seq<Chunk> { seq(|sent|, i requires 0 <= i < |sent| => sent[i].data) }

  function Bytes(sent: seq<Emission>): nat { |Flat(Data(sent))| }

  lemma DataAppend(a: seq<Emission>, b: seq<Emission>)
    ensures Data(a + b) == Data(a) + Data(b)
    ensures Flat(Data(a + b)) == Flat(Data(a)) + Flat(Data(b))
  {
    FlatAppend(Data(a), Data(b));
    assert Data(a + b) == Data(a) + Data(b);
  }

  lemma DataOne(sent: seq<Emission>, e: Emission)
    ensures Flat(Data(sent + [e])) == Flat(Data(sent)) + e.data
  {
    DataAppend(sent, [e]);
    assert Data([e]) == [e.data];
    FlatSingle(e.data);
  }

  // ---- the arithmetic of the accumulator ----------------------------------------------------------------

  /** What is still due after a 100 ms piece is what the rest of the packet would have been charged:
      the sleep never goes negative while a packet is being split. */
  lemma DueAfterPiece(rate: int, length: nat)
    requires rate > 0 && length >= rate * 100
    ensures Due(rate, length) == Due(rate, length - rate * 100) + 100 * MILLISECOND
  {
    var rest := length - rate * 100;
    assert length * MILLISECOND == rest * MILLISECOND + rate * (100 * MILLISECOND);
    DivAdd(rest * MILLISECOND, 100 * MILLISECOND, rate);
  }

  lemma DivAdd(a: nat, k: nat, d: int)
    requires d > 0
    ensures (a + d * k) / d == a / d + k
  {
    var q := (a + d * k) / d;
    assert a == d * (a / d) + a % d;
    assert d * (a / d + k) == d * (a / d) + d * k;
    DivUnique(a + d * k, d, a / d + k, a % d);
  }

  lemma DistanceTimes(d: nat, k: int)
    requires k >= 1
    ensures d * k >= d
  {
    assert d * k == d + d * (k - 1);
  }

  lemma DivUnique(n: nat, d: int, q: int, r: nat)
    requires d > 0 && n == d * q + r && r < d
    ensures n / d == q
  {
    var q', r' := n / d, n % d;
    assert n == d * q' + r';
    if q' > q {
      DistanceTimes(d, q' - q);
    } else if q' < q {
      DistanceTimes(d, q - q');
    }
  }

  /** A packet's charge is less than one nanosecond short of its time at the given rate. */
  lemma DueCovers(rate: int, length: nat)
    requires rate > 0
    ensures length * MILLISECOND <= rate * (Due(rate, length) + 1)
  {
    var x := length * MILLISECOND;
    assert x == rate * (x / rate) + x % rate;
    assert rate * (x / rate + 1) == rate * (x / rate) + rate;
  }

  /** The loop `for len(p.Data) > rate*100` comes to an end exactly when each turn takes something
      off, or when there is nothing to take: with Rate 0 a packet is split into nothing for ever. */
  lemma SplittingEndsIff(rate: nat, length: nat)
    ensures (exists turns: nat :: LeftAfter(rate, length, turns) <= rate * 100) <==> rate > 0 || length == 0
  {
    if rate > 0 {
      DistanceTimes(length, rate * 100);
      assert LeftAfter(rate, length, length) <= rate * 100;
    } else if length == 0 {
      assert LeftAfter(rate, length, 0) <= rate * 100;
    } else {
      forall turns: nat ensures LeftAfter(rate, length, turns) == length { NothingTaken(turns, rate); }
    }
  }

  lemma NothingTaken(turns: nat, rate: int)
    requires rate == 0
    ensures turns * (rate * 100) == 0
  {
  }

  function LeftAfter(rate: nat, length: nat, turns: nat): int { length - turns * (rate * 100) }

  // ---- the loops ------------------------------------------------------------------------------------------

  /** How many timers one packet takes. */
  function Ticks(rate: int, length: nat): (ticks: nat)
    requires rate > 0
    ensures ticks >= 1
  {
    if length > rate * 100 then 1 + Ticks(rate, length - rate * 100) else 1
  }

  /** Every emission keeps within the rate, counted from a moment with `credit` ns in hand. */
  ghost predicate Paced(rate: int, sent: seq<Emission>, start: nat, credit: nat) {
    forall k :: 0 <= k < |sent| ==> start <= sent[k].at && PacedAt(rate, sent, start, credit, k)
  }

  ghost predicate PacedAt(rate: int, sent: seq<Emission>, start: nat, credit: nat, k: nat)
    requires k < |sent|
  {
    Bytes(sent[..k + 1]) * MILLISECOND <= rate * (sent[k].at - start + credit + 1)
  }

  lemma PacedOne(rate: int, sent: seq<Emission>, e: Emission, start: nat, credit: nat)
    requires Paced(rate, sent, start, credit) && start <= e.at
    requires Bytes(sent + [e]) * MILLISECOND <= rate * (e.at - start + credit + 1)
    ensures Paced(rate, sent + [e], start, credit)
  {
    var all := sent + [e];
    forall k | 0 <= k < |all| ensures start <= all[k].at && PacedAt(rate, all, start, credit, k) {
      if k < |sent| {
        assert all[..k + 1] == sent[..k + 1];
        assert PacedAt(rate, sent, start, credit, k);
      } else {
        assert all[..k + 1] == all;
      }
    }
  }

  lemma WithinRate(rate: int, a: int, b: int)
    requires rate >= 0 && a <= b
    ensures rate * a <= rate * b
  {
    assert rate * (b - a) >= 0;
  }

  lemma PieceRate(rate: int, pieces: nat, time: int)
    requires rate >= 0 && pieces * (100 * MILLISECOND) <= time
    ensures pieces * (rate * 100) * MILLISECOND <= rate * time
  {
    WithinRate(rate, pieces * (100 * MILLISECOND), time);
    assert pieces * (rate * 100) * MILLISECOND == rate * (pieces * (100 * MILLISECOND));
  }

  /** What the timers and sends from one to another cost beyond an ideal clock. */
  function Slip(clock: Clock, from: nat, end: nat): nat
  {
    if from >= end then 0 else Slip(clock, from, end - 1) + clock.late(end - 1) + clock.blocked(end - 1)
  }

  lemma {:induction false} SlipAdds(clock: Clock, from: nat, mid: nat, end: nat)
    requires from <= mid <= end
    ensures Slip(clock, from, mid) + Slip(clock, mid, end) == Slip(clock, from, end)
    decreases end
  {
    if mid < end { SlipAdds(clock, from, mid, end - 1); }
  }

  lemma {:induction false} NoSlip(clock: Clock, from: nat, end: nat)
    requires Exact(clock, from, end)
    ensures Slip(clock, from, end) == 0
    decreases end
  {
    if from < end { NoSlip(clock, from, end - 1); }
  }

  /** When piece k of a packet goes out that Pipe received at `start`: after 100 ms each. */
  function PieceAt(clock: Clock, start: nat, tick0: nat, k: nat): nat {
    start + (k + 1) * (100 * MILLISECOND) + Slip(clock, tick0, tick0 + k) + clock.late(tick0 + k)
  }

  /** The variables of Pipe while it splits one packet. */
  datatype Progress = Progress(sent: seq<Emission>, rest: Chunk, sleep: int, now: nat, tick: nat)

  /** Pipe has received the packet p at `start`, with `carry` left over from before; g is where it is
      after as many pieces as it has sent. */
  ghost predicate Splitting(rate: int, p: Chunk, carry: int, start: nat, tick0: nat, clock: Clock, g: Progress) {
    && rate >= 0 && carry <= 0
    && Flat(Data(g.sent)) + g.rest == p && g.tick == tick0 + |g.sent|
    && (forall k :: 0 <= k < |g.sent| ==> |g.sent[k].data| == rate * 100)
    && g.now == start + |g.sent| * (100 * MILLISECOND) + Slip(clock, tick0, g.tick)
    && (forall k :: 0 <= k < |g.sent| ==> g.sent[k].at == PieceAt(clock, start, tick0, k))
    && (if rate == 0 then g.rest == p && (p == [] ==> g.sent == [])
        else Charged(rate, p, carry, start, tick0, g))
  }

  /** The accounts of a packet that is being split. */
  ghost predicate Charged(rate: int, p: Chunk, carry: int, start: nat, tick0: nat, g: Progress)
    requires rate > 0 && carry <= 0
  {
    && Bytes(g.sent) == |g.sent| * (rate * 100)
    && g.sleep == carry + Due(rate, |g.rest|)
    && Due(rate, |p|) == Due(rate, |g.rest|) + |g.sent| * (100 * MILLISECOND)
    && Paced(rate, g.sent, start, -carry)
    && g.tick + Ticks(rate, |g.rest|) == tick0 + Ticks(rate, |p|)
  }

  /** The timer of the splitting loop fires. */
  function Piece(rate: int, clock: Clock, g: Progress): Progress
    requires 0 <= rate && rate * 100 <= |g.rest|
  {
    var fired := g.now + 100 * MILLISECOND + clock.late(g.tick);
    Progress(g.sent + [Emission(g.rest[..rate * 100], fired)], g.rest[rate * 100..],
             g.sleep - 100 * MILLISECOND, fired + clock.blocked(g.tick), g.tick + 1)
  }

  lemma OneMore(n: nat, d: int)
    ensures (n + 1) * d == n * d + d
  {
  }

  lemma PiecePaced(rate: int, start: nat, credit: nat, sent: seq<Emission>, e: Emission)
    requires rate > 0 && Paced(rate, sent, start, credit) && |e.data| == rate * 100
    requires Bytes(sent) == |sent| * (rate * 100) && (|sent| + 1) * (100 * MILLISECOND) <= e.at - start
    ensures Paced(rate, sent + [e], start, credit) && Bytes(sent + [e]) == (|sent| + 1) * (rate * 100)
  {
    DataOne(sent, e);
    OneMore(|sent|, rate * 100);
    PieceRate(rate, |sent| + 1, e.at - start + credit + 1);
    PacedOne(rate, sent, e, start, credit);
  }

  lemma PieceCharged(rate: int, p: Chunk, carry: int, start: nat, tick0: nat, clock: Clock, g: Progress)
    requires rate > 0 && carry <= 0 && Charged(rate, p, carry, start, tick0, g) && |g.rest| > rate * 100
    requires |g.sent| * (100 * MILLISECOND) <= g.now - start
    ensures Charged(rate, p, carry, start, tick0, Piece(rate, clock, g))
  {
    DueAfterPiece(rate, |g.rest|);
    PiecePaced(rate, start, -carry, g.sent, Piece(rate, clock, g).sent[|g.sent|]);
  }

  lemma PieceTimes(rate: nat, start: nat, tick0: nat, clock: Clock, g: Progress)
    requires rate * 100 <= |g.rest| && g.tick == tick0 + |g.sent|
    requires g.now == start + |g.sent| * (100 * MILLISECOND) + Slip(clock, tick0, g.tick)
    ensures var g' := Piece(rate, clock, g);
      && g'.now == start + |g'.sent| * (100 * MILLISECOND) + Slip(clock, tick0, g'.tick)
      && g'.sent[|g.sent|].at == PieceAt(clock, start, tick0, |g.sent|)
  {
    OneMore(|g.sent|, 100 * MILLISECOND);
  }

  lemma PieceKeeps(rate: int, p: Chunk, carry: int, start: nat, tick0: nat, clock: Clock, g: Progress)
    requires Splitting(rate, p, carry, start, tick0, clock, g) && |g.rest| > rate * 100
    ensures Splitting(rate, p, carry, start, tick0, clock, Piece(rate, clock, g))
  {
    var g' := Piece(rate, clock, g);
    DataOne(g.sent, g'.sent[|g.sent|]);
    PieceTimes(rate, start, tick0, clock, g);
    assert g.rest == g.rest[..rate * 100] + g'.rest;
    if rate > 0 { PieceCharged(rate, p, carry, start, tick0, clock, g); }
  }

  /** The final timer fires; the rest of the packet goes out. */
  function Rest(clock: Clock, g: Progress): Progress {
    var elapsed := (if g.sleep > 0 then g.sleep else 0) + clock.late(g.tick);
    Progress(g.sent + [Emission(g.rest, g.now + elapsed)], [], g.sleep - elapsed,
             g.now + elapsed + clock.blocked(g.tick), g.tick + 1)
  }

  /** What Pipe has done with a packet it was not interrupted in. */
  ghost predicate Served(rate: int, p: Chunk, carry: int, start: nat, tick0: nat, clock: Clock, g: Progress) {
    && g.rest == [] && Flat(Data(g.sent)) == p && start <= g.now && g.sleep <= 0 && carry <= 0
    && (forall k :: 0 <= k < |g.sent| ==> |g.sent[k].data| <= rate * 100)
    && (rate > 0 ==>
          && Due(rate, |p|) + carry - g.sleep <= g.now - start
          && Paced(rate, g.sent, start, -carry)
          && g.tick == tick0 + Ticks(rate, |p|)
          && OnClock(rate, p, carry, start, tick0, clock, g.sent, g.sleep, g.now))
  }

  /** The exact times of a packet that Pipe received at `start`: a full piece every 100 ms, the rest
      when what is then owed has been slept, and a carry that makes up for a late final timer, and for
      nothing else. */
  ghost predicate OnClock(rate: int, p: Chunk, carry: int, start: nat, tick0: nat, clock: Clock,
                          sent: seq<Emission>, sleep: int, now: nat)
    requires rate > 0
  {
    var n := |sent| - 1;
    && |sent| == Ticks(rate, |p|) && Due(rate, |p|) == n * (100 * MILLISECOND) + Due(rate, |sent[n].data|)
    && (forall k :: 0 <= k < n ==> sent[k].at == PieceAt(clock, start, tick0, k) && |sent[k].data| == rate * 100)
    && sent[n].at == start + n * (100 * MILLISECOND) + Slip(clock, tick0, tick0 + n)
                     + Max(carry + Due(rate, |sent[n].data|), 0) + clock.late(tick0 + n)
    && now == sent[n].at + clock.blocked(tick0 + n)
    && now + sleep == start + carry + Due(rate, |p|) + Slip(clock, tick0, tick0 + n) + clock.blocked(tick0 + n)
  }

  function Max(a: int, b: int): int { if a >= b then a else b }

  lemma RestPaced(rate: int, p: Chunk, credit: nat, start: nat, sent: seq<Emission>, last: Emission)
    requires rate > 0 && Paced(rate, sent, start, credit) && start <= last.at
    requires Flat(Data(sent)) + last.data == p && Due(rate, |p|) - credit <= last.at - start
    ensures Paced(rate, sent + [last], start, credit) && Flat(Data(sent + [last])) == p
  {
    DataOne(sent, last);
    DueCovers(rate, |p|);
    WithinRate(rate, Due(rate, |p|) + 1, last.at - start + credit + 1);
    PacedOne(rate, sent, last, start, credit);
  }

  lemma RestOnClock(rate: int, p: Chunk, carry: int, start: nat, tick0: nat, clock: Clock, g: Progress)
    requires rate > 0 && Splitting(rate, p, carry, start, tick0, clock, g) && |g.rest| <= rate * 100
    ensures var g' := Rest(clock, g);
      OnClock(rate, p, carry, start, tick0, clock, g'.sent, g'.sleep, g'.now) && g'.tick == tick0 + Ticks(rate, |p|)
  {
  }

  lemma RestServes(rate: int, p: Chunk, carry: int, start: nat, tick0: nat, clock: Clock, g: Progress)
    requires Splitting(rate, p, carry, start, tick0, clock, g) && |g.rest| <= rate * 100
    ensures Served(rate, p, carry, start, tick0, clock, Rest(clock, g))
  {
    var g' := Rest(clock, g);
    DataOne(g.sent, g'.sent[|g.sent|]);
    if rate > 0 {
      RestCharged(rate, p, carry, start, tick0, clock, g);
      RestOnClock(rate, p, carry, start, tick0, clock, g);
    }
  }

  lemma RestCharged(rate: int, p: Chunk, carry: int, start: nat, tick0: nat, clock: Clock, g: Progress)
    requires rate > 0 && Splitting(rate, p, carry, start, tick0, clock, g) && |g.rest| <= rate * 100
    ensures var g' := Rest(clock, g); Paced(rate, g'.sent, start, -carry) && Due(rate, |p|) + carry - g'.sleep <= g'.now - start
  {
    RestPaced(rate, p, -carry, start, g.sent, Rest(clock, g).sent[|g.sent|]);
  }

  /** What Pipe has done with a packet it was interrupted in. */
  ghost predicate Begun(rate: int, p: Chunk, carry: int, start: nat, tick0: nat, clock: Clock, g: Progress) {
    && Flat(Data(g.sent)) + g.rest == p && carry <= 0
    && (rate > 0 ==> Paced(rate, g.sent, start, -carry))
    && CutOnClock(rate, start, tick0, clock, g.sent)
  }

  /** It has sent full pieces only, and those at their times. */
  ghost predicate CutOnClock(rate: int, start: nat, tick0: nat, clock: Clock, sent: seq<Emission>) {
    forall k :: 0 <= k < |sent| ==> |sent[k].data| == rate * 100 && sent[k].at == PieceAt(clock, start, tick0, k)
  }

  /** One packet: the two loops of Pipe's receive branch, up to the timer at which the interrupt
      comes, if it comes before the packet is through. */
  method SendPacket(rate: int, p: Chunk, carry: int, start: nat, tick0: nat, interrupt: nat, clock: Clock)
    returns (g: Progress, cut: bool)
    requires rate >= 0 && carry <= 0 && tick0 <= interrupt
    ensures if cut then Begun(rate, p, carry, start, tick0, clock, g) && g.tick == interrupt == tick0 + |g.sent|
            else Served(rate, p, carry, start, tick0, clock, g) && tick0 < g.tick <= interrupt
    ensures if rate > 0 then cut <==> interrupt < tick0 + Ticks(rate, |p|) else cut <==> p != [] || tick0 == interrupt
  {
    var sleep := if rate <= 0 then 0 else carry + Due(rate, |p|);
    g := Progress([], p, sleep, start, tick0);
    while |g.rest| > rate * 100
      invariant Splitting(rate, p, carry, start, tick0, clock, g) && g.tick <= interrupt
      decreases interrupt - g.tick
    {
      if g.tick == interrupt {
        return g, true;
      }
      PieceKeeps(rate, p, carry, start, tick0, clock, g);
      g := Piece(rate, clock, g);
    }
    if g.tick == interrupt {
      return g, true;
    }
    RestServes(rate, p, carry, start, tick0, clock, g);
    g := Rest(clock, g);
    cut := false;
  }

  // ---- whole runs -------------------------------------------------------------------------------------------

  /** A packet, and how long Pipe waits for it in its outer select. */
  datatype Packet = Packet(data: Chunk, gap: nat)

  /** How a run of Pipe ends: interrupted or at the end of the input between two packets, interrupted
      within a packet whose rest WriteOutput then sends or drops, or with a slice bound out of range. */
  datatype Ending = Idle | Closed | Flushed(rest: Chunk) | Dropped(rest: Chunk) | Panicked

  function Contents(ps: seq<Packet>): seq<Chunk> { seq(|ps|, i requires 0 <= i < |ps| => ps[i].data) }

  function Size(ps: seq<Packet>): nat { if ps == [] then 0 else Size(Front(ps)) + |Last(ps).data| }

  function Owed(rate: int, ps: seq<Packet>): nat {
    if ps == [] then 0 else Owed(rate, Front(ps)) + Due(rate, |Last(ps).data|)
  }

  function Gaps(ps: seq<Packet>): nat { if ps == [] then 0 else Gaps(Front(ps)) + Last(ps).gap }

  function Timers(rate: int, ps: seq<Packet>): nat
    requires rate > 0
  {
    if ps == [] then 0 else Timers(rate, Front(ps)) + Ticks(rate, |Last(ps).data|)
  }

  function Front<T>(s: seq<T>): seq<T> requires s != [] { s[..|s| - 1] }

  function Last<T>(s: seq<T>): T requires s != [] { s[|s| - 1] }

  /** All that was sent; log[i] is what was sent for packet i. */
  function Output(log: seq<seq<Emission>>): seq<Chunk> {
    if log == [] then [] else Output(Front(log)) + Data(Last(log))
  }

  /** Packet i has gone out whole. */
  ghost predicate Whole(ps: seq<Packet>, log: seq<seq<Emission>>, i: nat)
    requires i < |log| <= |ps|
  {
    Flat(Data(log[i])) == ps[i].data
  }

  lemma {:induction false} WholePackets(ps: seq<Packet>, log: seq<seq<Emission>>)
    requires |log| == |ps| && forall i :: 0 <= i < |log| ==> Whole(ps, log, i)
    ensures Flat(Output(log)) == Flat(Contents(ps))
  {
    if ps != [] {
      var n := |ps| - 1;
      forall i | 0 <= i < n ensures Whole(Front(ps), Front(log), i) { assert Whole(ps, log, i); }
      WholePackets(Front(ps), Front(log));
      assert Whole(ps, log, n);
      assert Contents(ps) == Contents(Front(ps)) + [ps[n].data];
      FlatAppend(Contents(Front(ps)), [ps[n].data]);
      FlatSingle(ps[n].data);
      FlatAppend(Output(Front(log)), Data(Last(log)));
    }
  }

  /** The cap: by the time of emission k for packet i, the bytes out are within the rate for the time
      since the start, but for one nanosecond a packet. */
  ghost predicate CapAt(rate: int, ps: seq<Packet>, log: seq<seq<Emission>>, start: nat, i: nat, k: nat)
    requires i < |log| <= |ps| && k < |log[i]|
  {
    && start <= log[i][k].at
    && (Size(ps[..i]) + Bytes(log[i][..k + 1])) * MILLISECOND <= rate * (log[i][k].at - start + i + 1)
  }

  ghost predicate Capped(rate: int, ps: seq<Packet>, log: seq<seq<Emission>>, start: nat)
    requires |log| <= |ps|
  {
    forall i, k :: 0 <= i < |log| && 0 <= k < |log[i]| ==> CapAt(rate, ps, log, start, i, k)
  }

  lemma Distribute(rate: int, a: int, b: int)
    ensures rate * (a + b) == rate * a + rate * b
  {
  }

  lemma {:induction false} OwedCovers(rate: int, ps: seq<Packet>)
    requires rate > 0
    ensures Size(ps) * MILLISECOND <= rate * (Owed(rate, ps) + |ps|)
  {
    if ps != [] {
      OwedCovers(rate, Front(ps));
      DueCovers(rate, |Last(ps).data|);
      Distribute(rate, Owed(rate, Front(ps)) + |Front(ps)|, Due(rate, |Last(ps).data|) + 1);
    }
  }

  lemma CapNext(rate: int, ps: seq<Packet>, log: seq<seq<Emission>>, start: nat, sent: seq<Emission>, from: nat, credit: nat)
    requires rate > 0 && |log| < |ps| && Capped(rate, ps, log, start) && Paced(rate, sent, from, credit)
    requires start <= from && Owed(rate, ps[..|log|]) + credit <= from - start
    ensures Capped(rate, ps, log + [sent], start)
  {
    var all := log + [sent];
    forall i, k | 0 <= i < |all| && 0 <= k < |all[i]| ensures CapAt(rate, ps, all, start, i, k) {
      if i < |log| {
        assert CapAt(rate, ps, log, start, i, k);
      } else {
        assert PacedAt(rate, sent, from, credit, k);
        OwedCovers(rate, ps[..i]);
        RateAdds(rate, Owed(rate, ps[..i]) + i, sent[k].at - from + credit + 1, sent[k].at - start + i + 1);
      }
    }
  }

  lemma RateAdds(rate: int, a: int, b: int, c: int)
    requires rate >= 0 && a + b <= c
    ensures rate * a + rate * b <= rate * c
  {
    WithinRate(rate, a + b, c);
    assert rate * (a + b) == rate * a + rate * b;
  }

  /** What the output and the 100 ms timers have cost: the lateness of a packet's last timer is not
      among it. */
  function Stalls(rate: int, clock: Clock, ps: seq<Packet>): nat
    requires rate > 0
  {
    if ps == [] then 0
    else
      var last := Timers(rate, ps) - 1;
      Stalls(rate, clock, Front(ps)) + Slip(clock, Timers(rate, Front(ps)), last) + clock.blocked(last)
  }

  /** The account: at the head of its loop Pipe's clock and its sleep add up to this. */
  function Account(rate: int, clock: Clock, ps: seq<Packet>, start: nat): nat
    requires rate > 0
  {
    start + Gaps(ps) + Owed(rate, ps) + Stalls(rate, clock, ps)
  }

  /** When Pipe is back at the head of its loop after i packets: when the last send has ended. */
  function HeadAt(rate: int, ps: seq<Packet>, log: seq<seq<Emission>>, clock: Clock, start: nat, i: nat): nat
    requires rate > 0 && i <= |log| && i <= |ps|
  {
    var timers := Timers(rate, ps[..i]);
    if i == 0 || timers == 0 || log[i - 1] == [] then start else Last(log[i - 1]).at + clock.blocked(timers - 1)
  }

  /** The carry that the account leaves at that time. */
  function SleepAt(rate: int, ps: seq<Packet>, log: seq<seq<Emission>>, clock: Clock, start: nat, i: nat): int
    requires rate > 0 && i <= |log| && i <= |ps|
  {
    Account(rate, clock, ps[..i], start) - HeadAt(rate, ps, log, clock, start, i)
  }

  /** Packet i has gone out at its exact times. */
  ghost predicate OnClockAt(rate: int, ps: seq<Packet>, log: seq<seq<Emission>>, clock: Clock, start: nat, i: nat)
    requires rate > 0 && i < |log| <= |ps|
  {
    OnClock(rate, ps[i].data, SleepAt(rate, ps, log, clock, start, i), HeadAt(rate, ps, log, clock, start, i) + ps[i].gap,
            Timers(rate, ps[..i]), clock, log[i], SleepAt(rate, ps, log, clock, start, i + 1),
            HeadAt(rate, ps, log, clock, start, i + 1))
  }

  /** Pipe at the head of its outer loop, with as many packets through as log has entries. */
  ghost predicate Between(rate: int, ps: seq<Packet>, start: nat, clock: Clock,
                          log: seq<seq<Emission>>, sleep: int, now: nat, tick: nat)
    requires |log| <= |ps|
  {
    && sleep <= 0 && start <= now
    && (forall i :: 0 <= i < |log| ==> Whole(ps, log, i))
    && (rate > 0 ==>
          && Owed(rate, ps[..|log|]) - sleep <= now - start
          && tick == Timers(rate, ps[..|log|])
          && Capped(rate, ps, log, start)
          && Accounted(rate, ps, start, clock, log, sleep, now))
  }

  /** Every packet so far has gone out at its exact times, the account holds, and Pipe is behind the rate
      by no more than its timers and the output have cost. */
  ghost predicate Accounted(rate: int, ps: seq<Packet>, start: nat, clock: Clock, log: seq<seq<Emission>>, sleep: int, now: nat)
    requires rate > 0 && |log| <= |ps|
  {
    var done := ps[..|log|];
    && now == HeadAt(rate, ps, log, clock, start, |log|) && now + sleep == Account(rate, clock, done, start)
    && now <= start + Gaps(done) + Owed(rate, done) + Slip(clock, 0, Timers(rate, done))
    && AllOnClock(rate, ps, log, clock, start, |log|)
  }

  ghost predicate AllOnClock(rate: int, ps: seq<Packet>, log: seq<seq<Emission>>, clock: Clock, start: nat, n: nat)
    requires rate > 0 && n <= |log| <= |ps|
  {
    forall i :: 0 <= i < n ==> OnClockAt(rate, ps, log, clock, start, i)
  }

  /** With exact timers and an output that never blocks, Pipe waits exactly what the packets owe. */
  ghost predicate OnTime(rate: int, ps: seq<Packet>, start: nat, sleep: int, now: nat) {
    now == start + Gaps(ps) + Owed(rate, ps) && sleep == 0
  }

  lemma Taken(rate: int, ps: seq<Packet>, n: nat)
    requires n < |ps|
    ensures Owed(rate, ps[..n + 1]) == Owed(rate, ps[..n]) + Due(rate, |ps[n].data|)
    ensures Gaps(ps[..n + 1]) == Gaps(ps[..n]) + ps[n].gap
    ensures rate > 0 ==> Timers(rate, ps[..n + 1]) == Timers(rate, ps[..n]) + Ticks(rate, |ps[n].data|)
  {
    assert Front(ps[..n + 1]) == ps[..n];
  }

  lemma ServedNext(rate: int, ps: seq<Packet>, start: nat, clock: Clock,
                   log: seq<seq<Emission>>, sleep: int, now: nat, tick: nat, g: Progress)
    requires |log| < |ps| && Between(rate, ps, start, clock, log, sleep, now, tick) && tick <= g.tick
    requires Served(rate, ps[|log|].data, sleep, now + ps[|log|].gap, tick, clock, g)
    ensures Between(rate, ps, start, clock, log + [g.sent], g.sleep, g.now, g.tick)
  {
    var n := |log|;
    var log' := log + [g.sent];
    Taken(rate, ps, n);
    forall i | 0 <= i < |log'| ensures Whole(ps, log', i) { if i < n { assert Whole(ps, log, i); } }
    if rate > 0 {
      CapLater(rate, ps, log, start, g.sent, now, ps[n].gap, sleep);
      AccountNext(rate, ps, start, clock, log, sleep, now, g.sent, g.sleep, g.now);
    }
  }

  /** How the account goes on. */
  lemma StallsTaken(rate: int, clock: Clock, ps: seq<Packet>, n: nat)
    requires rate > 0 && n < |ps|
    ensures var tick, last := Timers(rate, ps[..n]), Timers(rate, ps[..n]) + Ticks(rate, |ps[n].data|) - 1;
      Stalls(rate, clock, ps[..n + 1]) == Stalls(rate, clock, ps[..n]) + Slip(clock, tick, last) + clock.blocked(last)
  {
    assert Front(ps[..n + 1]) == ps[..n];
    Taken(rate, ps, n);
  }

  lemma HeadSame(rate: int, ps: seq<Packet>, log: seq<seq<Emission>>, sent: seq<Emission>, clock: Clock, start: nat, i: nat)
    requires rate > 0 && i < |log| < |ps| && OnClockAt(rate, ps, log, clock, start, i)
    ensures OnClockAt(rate, ps, log + [sent], clock, start, i)
  {
  }

  /** The last timer of a packet is the only one whose lateness the next packet gets back. */
  lemma OnClockBehind(rate: int, p: Chunk, carry: int, start: nat, tick: nat, clock: Clock,
                      sent: seq<Emission>, sleep: int, now: nat)
    requires rate > 0 && carry <= 0 && OnClock(rate, p, carry, start, tick, clock, sent, sleep, now)
    ensures now <= start + Due(rate, |p|) + Slip(clock, tick, tick + |sent|)
  {
  }

  lemma HeadNext(rate: int, ps: seq<Packet>, start: nat, clock: Clock, log: seq<seq<Emission>>, sent: seq<Emission>,
                 carry: int, from: nat, sleep: int, now: nat)
    requires rate > 0 && |log| < |ps|
    requires OnClock(rate, ps[|log|].data, carry, from, Timers(rate, ps[..|log|]), clock, sent, sleep, now)
    ensures HeadAt(rate, ps, log + [sent], clock, start, |log| + 1) == now
    ensures HeadAt(rate, ps, log + [sent], clock, start, |log|) == HeadAt(rate, ps, log, clock, start, |log|)
    ensures Timers(rate, ps[..|log| + 1]) == Timers(rate, ps[..|log|]) + |sent|
  {
    Taken(rate, ps, |log|);
  }

  lemma AccountAdds(rate: int, ps: seq<Packet>, start: nat, clock: Clock, n: nat, sleep: int, now: nat,
                    sent: seq<Emission>, sleep': int, now': nat)
    requires rate > 0 && n < |ps| && sleep <= 0 && now + sleep == Account(rate, clock, ps[..n], start)
    requires now <= start + Gaps(ps[..n]) + Owed(rate, ps[..n]) + Slip(clock, 0, Timers(rate, ps[..n]))
    requires OnClock(rate, ps[n].data, sleep, now + ps[n].gap, Timers(rate, ps[..n]), clock, sent, sleep', now')
    ensures now' + sleep' == Account(rate, clock, ps[..n + 1], start)
    ensures now' <= start + Gaps(ps[..n + 1]) + Owed(rate, ps[..n + 1]) + Slip(clock, 0, Timers(rate, ps[..n + 1]))
  {
    Taken(rate, ps, n);
    StallsTaken(rate, clock, ps, n);
    BehindAdds(rate, ps, start, clock, n, sleep, now, sent, sleep', now');
  }

  lemma BehindAdds(rate: int, ps: seq<Packet>, start: nat, clock: Clock, n: nat, sleep: int, now: nat,
                   sent: seq<Emission>, sleep': int, now': nat)
    requires rate > 0 && n < |ps| && sleep <= 0
    requires now <= start + Gaps(ps[..n]) + Owed(rate, ps[..n]) + Slip(clock, 0, Timers(rate, ps[..n]))
    requires OnClock(rate, ps[n].data, sleep, now + ps[n].gap, Timers(rate, ps[..n]), clock, sent, sleep', now')
    ensures now' <= start + Gaps(ps[..n + 1]) + Owed(rate, ps[..n + 1]) + Slip(clock, 0, Timers(rate, ps[..n + 1]))
  {
    var tick := Timers(rate, ps[..n]);
    Taken(rate, ps, n);
    OnClockBehind(rate, ps[n].data, sleep, now + ps[n].gap, tick, clock, sent, sleep', now');
    SlipAdds(clock, 0, tick, tick + |sent|);
  }

  lemma OnClockNow(rate: int, ps: seq<Packet>, start: nat, clock: Clock, log: seq<seq<Emission>>, sent: seq<Emission>,
                   sleep: int, now: nat, sleep': int, now': nat)
    requires rate > 0 && |log| < |ps| && now == HeadAt(rate, ps, log, clock, start, |log|)
    requires now + sleep == Account(rate, clock, ps[..|log|], start)
    requires now' + sleep' == Account(rate, clock, ps[..|log| + 1], start)
    requires OnClock(rate, ps[|log|].data, sleep, now + ps[|log|].gap, Timers(rate, ps[..|log|]), clock, sent, sleep', now')
    ensures OnClockAt(rate, ps, log + [sent], clock, start, |log|)
  {
    HeadNext(rate, ps, start, clock, log, sent, sleep, now + ps[|log|].gap, sleep', now');
  }

  lemma AccountNext(rate: int, ps: seq<Packet>, start: nat, clock: Clock, log: seq<seq<Emission>>, sleep: int, now: nat,
                    sent: seq<Emission>, sleep': int, now': nat)
    requires rate > 0 && |log| < |ps| && Accounted(rate, ps, start, clock, log, sleep, now) && sleep <= 0
    requires OnClock(rate, ps[|log|].data, sleep, now + ps[|log|].gap, Timers(rate, ps[..|log|]), clock, sent, sleep', now')
    ensures Accounted(rate, ps, start, clock, log + [sent], sleep', now')
  {
    var n := |log|;
    AccountAdds(rate, ps, start, clock, n, sleep, now, sent, sleep', now');
    HeadNext(rate, ps, start, clock, log, sent, sleep, now + ps[n].gap, sleep', now');
    OnClockNow(rate, ps, start, clock, log, sent, sleep, now, sleep', now');
    AllSame(rate, ps, log, sent, clock, start);
    AllMore(rate, ps, log + [sent], clock, start, n);
  }

  lemma AllSame(rate: int, ps: seq<Packet>, log: seq<seq<Emission>>, sent: seq<Emission>, clock: Clock, start: nat)
    requires rate > 0 && |log| < |ps| && AllOnClock(rate, ps, log, clock, start, |log|)
    ensures AllOnClock(rate, ps, log + [sent], clock, start, |log|)
  {
    forall i | 0 <= i < |log| ensures OnClockAt(rate, ps, log + [sent], clock, start, i) {
      HeadSame(rate, ps, log, sent, clock, start, i);
    }
  }

  lemma AllMore(rate: int, ps: seq<Packet>, log: seq<seq<Emission>>, clock: Clock, start: nat, n: nat)
    requires rate > 0 && n < |log| <= |ps| && AllOnClock(rate, ps, log, clock, start, n) && OnClockAt(rate, ps, log, clock, start, n)
    ensures AllOnClock(rate, ps, log, clock, start, n + 1)
  {
  }

  /** Pipe over the packets that reach it: `interrupt` is the number of the timer that loses to the
      interrupt, `eof` says whether the input is closed behind the last packet (or Pipe is interrupted
      there), and `timesOut` whether WriteOutput runs into its five seconds. */
  method Pipe(rate: int, ps: seq<Packet>, interrupt: nat, eof: bool, timesOut: bool, clock: Clock, start: nat)
    returns (log: seq<seq<Emission>>, ending: Ending, now: nat, sleep: int)
    ensures |log| <= |ps| && (ending.Idle? || ending.Closed? ==> |log| == |ps| && (ending.Closed? <==> eof))
    ensures (ending.Flushed? || ending.Dropped?) ==> log != [] && (ending.Dropped? <==> timesOut)
    ensures Flat(Output(log)) + (if ending.Flushed? || ending.Dropped? then ending.rest else []) == Flat(Contents(ps[..|log|]))
    ensures rate > 0 ==> Capped(rate, ps, log, start)
    ensures rate > 0 ==> !ending.Panicked? && (ending.Idle? || ending.Closed? <==> Timers(rate, ps) <= interrupt)
    ensures rate == 0 ==> !ending.Panicked? && (ending.Idle? || ending.Closed? ==> forall i :: 0 <= i < |ps| ==> ps[i].data == [])
    ensures rate < 0 ==> (ending.Panicked? <==> ps != [] && interrupt > 0)
    ensures ending.Idle? || ending.Closed? ==> sleep <= 0
    ensures rate > 0 && Timers(rate, ps) <= interrupt && Exact(clock, 0, Timers(rate, ps)) ==>
      OnTime(rate, ps, start, sleep, now)
    ensures rate > 0 && Timers(rate, ps) <= interrupt ==> Accounted(rate, ps, start, clock, log, sleep, now)
    ensures rate > 0 && interrupt < Timers(rate, ps) ==> CutAccounted(rate, ps, start, clock, log, interrupt)
  {
    log, now, sleep := [], start, 0;
    var tick: nat := 0;
    while |log| < |ps|
      invariant |log| <= |ps| && tick <= interrupt && Between(rate, ps, start, clock, log, sleep, now, tick)
      invariant rate == 0 ==> forall i :: 0 <= i < |log| ==> ps[i].data == []
      invariant rate < 0 ==> log == [] && tick == 0
      decreases |ps| - |log|
    {
      var p := ps[|log|];
      if rate < 0 {
        if interrupt == 0 {
          log, ending := [[]], if timesOut then Dropped(p.data) else Flushed(p.data);
          CutShort(ps, [], [], p.data);
        } else {
          ending := Panicked;
        }
        return;
      }
      var g, cut := Turn(rate, ps, start, log, sleep, now, tick, interrupt, clock);
      if cut {
        ending := if timesOut then Dropped(g.rest) else Flushed(g.rest);
        log, now, sleep := log + [g.sent], g.now, g.sleep;
        return;
      }
      log, now, sleep, tick := log + [g.sent], g.now, g.sleep, g.tick;
    }
    assert ps[..|log|] == ps;
    WholePackets(ps, log);
    if rate > 0 && Exact(clock, 0, tick) { NoSlip(clock, 0, tick); }
    ending := if eof then Closed else Idle;
  }

  /** One turn of Pipe's loop. */
  method Turn(rate: int, ps: seq<Packet>, ghost start: nat, log: seq<seq<Emission>>, sleep: int, now: nat, tick: nat,
              interrupt: nat, clock: Clock)
    returns (g: Progress, cut: bool)
    requires rate >= 0 && |log| < |ps| && tick <= interrupt && Between(rate, ps, start, clock, log, sleep, now, tick)
    ensures cut ==> Flat(Output(log + [g.sent])) + g.rest == Flat(Contents(ps[..|log| + 1]))
    ensures cut && rate > 0 ==> CutTimed(rate, ps, start, clock, log + [g.sent], tick, tick + |g.sent|)
    ensures !cut ==> Between(rate, ps, start, clock, log + [g.sent], g.sleep, g.now, g.tick) && g.tick <= interrupt
    ensures cut ==> tick + |g.sent| == interrupt
    ensures var p := ps[|log|].data;
      if rate > 0 then cut <==> interrupt < tick + Ticks(rate, |p|) else cut <==> p != [] || tick == interrupt
  {
    BetweenWaits(rate, ps, start, clock, log, sleep, now, tick);
    g, cut := SendPacket(rate, ps[|log|].data, sleep, now + ps[|log|].gap, tick, interrupt, clock);
    assert if cut then Begun(rate, ps[|log|].data, sleep, now + ps[|log|].gap, tick, clock, g)
      else Served(rate, ps[|log|].data, sleep, now + ps[|log|].gap, tick, clock, g);
    TurnEnds(rate, ps, start, clock, log, sleep, now, tick, g, cut);
  }

  lemma BetweenWaits(rate: int, ps: seq<Packet>, start: nat, clock: Clock, log: seq<seq<Emission>>, sleep: int, now: nat, tick: nat)
    requires |log| <= |ps| && Between(rate, ps, start, clock, log, sleep, now, tick)
    ensures sleep <= 0
  {
  }

  lemma TurnEnds(rate: int, ps: seq<Packet>, start: nat, clock: Clock, log: seq<seq<Emission>>, sleep: int, now: nat, tick: nat,
                 g: Progress, cut: bool)
    requires |log| < |ps| && Between(rate, ps, start, clock, log, sleep, now, tick)
    requires cut ==> Begun(rate, ps[|log|].data, sleep, now + ps[|log|].gap, tick, clock, g)
    requires !cut ==> Served(rate, ps[|log|].data, sleep, now + ps[|log|].gap, tick, clock, g) && tick <= g.tick
    ensures cut ==> Flat(Output(log + [g.sent])) + g.rest == Flat(Contents(ps[..|log| + 1]))
    ensures cut && rate > 0 ==> CutTimed(rate, ps, start, clock, log + [g.sent], tick, tick + |g.sent|)
    ensures !cut ==> Between(rate, ps, start, clock, log + [g.sent], g.sleep, g.now, g.tick)
  {
    if cut {
      CutNext(rate, ps, start, clock, log, sleep, now, tick, g);
    } else {
      ServedNext(rate, ps, start, clock, log, sleep, now, tick, g);
    }
  }

  lemma {:induction false} TimersGrow(rate: int, ps: seq<Packet>, n: nat)
    requires rate > 0 && n <= |ps|
    ensures Timers(rate, ps[..n]) <= Timers(rate, ps)
    decreases |ps| - n
  {
    if n == |ps| {
      assert ps[..n] == ps;
    } else {
      Taken(rate, ps, n);
      TimersGrow(rate, ps, n + 1);
    }
  }

  lemma ContentsNext(ps: seq<Packet>, n: nat)
    requires n < |ps|
    ensures Flat(Contents(ps[..n + 1])) == Flat(Contents(ps[..n])) + ps[n].data
  {
    assert Contents(ps[..n + 1]) == Contents(ps[..n]) + [ps[n].data];
    FlatAppend(Contents(ps[..n]), [ps[n].data]);
    FlatSingle(ps[n].data);
  }

  lemma OutputNext(log: seq<seq<Emission>>, sent: seq<Emission>)
    ensures Flat(Output(log + [sent])) == Flat(Output(log)) + Flat(Data(sent))
  {
    assert Front(log + [sent]) == log;
    FlatAppend(Output(log), Data(sent));
  }

  lemma Regroup(a: Chunk, b: Chunk, c: Chunk, d: Chunk)
    requires b + c == d
    ensures a + b + c == a + d
  {
  }

  /** Interrupted within a packet: what has gone out and what was still held is all that came in. */
  lemma CutShort(ps: seq<Packet>, log: seq<seq<Emission>>, sent: seq<Emission>, rest: Chunk)
    requires |log| < |ps| && (forall i :: 0 <= i < |log| ==> Whole(ps, log, i))
    requires Flat(Data(sent)) + rest == ps[|log|].data
    ensures Flat(Output(log + [sent])) + rest == Flat(Contents(ps[..|log| + 1]))
  {
    var n := |log|;
    forall i | 0 <= i < n ensures Whole(ps[..n], log, i) { assert Whole(ps, log, i); }
    WholePackets(ps[..n], log);
    OutputNext(log, sent);
    ContentsNext(ps, n);
    Regroup(Flat(Output(log)), Flat(Data(sent)), rest, ps[n].data);
  }

  lemma CutNext(rate: int, ps: seq<Packet>, start: nat, clock: Clock,
                log: seq<seq<Emission>>, sleep: int, now: nat, tick: nat, g: Progress)
    requires |log| < |ps| && Between(rate, ps, start, clock, log, sleep, now, tick)
    requires Begun(rate, ps[|log|].data, sleep, now + ps[|log|].gap, tick, clock, g)
    ensures Flat(Output(log + [g.sent])) + g.rest == Flat(Contents(ps[..|log| + 1]))
    ensures rate > 0 ==> CutTimed(rate, ps, start, clock, log + [g.sent], tick, tick + |g.sent|)
  {
    CutShort(ps, log, g.sent, g.rest);
    if rate > 0 { CutInTime(rate, ps, start, clock, log, sleep, now, tick, g); }
  }

  /** Interrupted within a packet: the cap and the times. */
  ghost predicate CutTimed(rate: int, ps: seq<Packet>, start: nat, clock: Clock, log: seq<seq<Emission>>, tick: nat, interrupt: nat)
    requires rate > 0 && 1 <= |log| <= |ps|
  {
    && Capped(rate, ps, log, start) && CutAccounted(rate, ps, start, clock, log, interrupt)
    && tick + Ticks(rate, |ps[|log| - 1].data|) <= Timers(rate, ps)
  }

  lemma CutInTime(rate: int, ps: seq<Packet>, start: nat, clock: Clock,
                  log: seq<seq<Emission>>, sleep: int, now: nat, tick: nat, g: Progress)
    requires rate > 0 && |log| < |ps| && Between(rate, ps, start, clock, log, sleep, now, tick)
    requires Begun(rate, ps[|log|].data, sleep, now + ps[|log|].gap, tick, clock, g)
    ensures CutTimed(rate, ps, start, clock, log + [g.sent], tick, tick + |g.sent|)
  {
    CapLater(rate, ps, log, start, g.sent, now, ps[|log|].gap, sleep);
    TimersLeft(rate, ps, |log|);
    CutAccounts(rate, ps, start, clock, log, sleep, now, g.sent);
  }

  lemma CapLater(rate: int, ps: seq<Packet>, log: seq<seq<Emission>>, start: nat, sent: seq<Emission>, now: nat, gap: nat,
                 sleep: int)
    requires rate > 0 && |log| < |ps| && sleep <= 0 && start <= now && Owed(rate, ps[..|log|]) - sleep <= now - start
    requires Capped(rate, ps, log, start) && Paced(rate, sent, now + gap, -sleep)
    ensures Capped(rate, ps, log + [sent], start)
  {
    CapNext(rate, ps, log, start, sent, now + gap, -sleep);
  }

  lemma CutAccounts(rate: int, ps: seq<Packet>, start: nat, clock: Clock, log: seq<seq<Emission>>, sleep: int, now: nat,
                    sent: seq<Emission>)
    requires rate > 0 && |log| < |ps| && Accounted(rate, ps, start, clock, log, sleep, now)
    requires CutOnClock(rate, now + ps[|log|].gap, Timers(rate, ps[..|log|]), clock, sent)
    ensures CutAccounted(rate, ps, start, clock, log + [sent], Timers(rate, ps[..|log|]) + |sent|)
  {
    AllSame(rate, ps, log, sent, clock, start);
  }

  /** All packets but the last went out at their exact times; of that one, as many full pieces did as
      there was time for. */
  ghost predicate CutAccounted(rate: int, ps: seq<Packet>, start: nat, clock: Clock, log: seq<seq<Emission>>, interrupt: nat)
    requires rate > 0 && |log| <= |ps|
  {
    log != [] &&
    var n := |log| - 1;
    && AllOnClock(rate, ps, log, clock, start, n) && Timers(rate, ps[..n]) + |log[n]| == interrupt
    && CutOnClock(rate, HeadAt(rate, ps, log, clock, start, n) + ps[n].gap, Timers(rate, ps[..n]), clock, log[n])
  }

  lemma TimersLeft(rate: int, ps: seq<Packet>, n: nat)
    requires rate > 0 && n < |ps|
    ensures Timers(rate, ps[..n]) + Ticks(rate, |ps[n].data|) <= Timers(rate, ps)
  {
    Taken(rate, ps, n);
    TimersGrow(rate, ps, n + 1);
  }
}
