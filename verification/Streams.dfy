/** Bytes, chunks and the two sequence relations every conservation result is stated with. */
module Streams {

  newtype Byte = b: int | 0 <= b < 256

  /** The data of one StreamChunk: what a single Write put on a channel. */
  type Chunk = seq<Byte>

  /** The byte stream that a sequence of chunks carries. */
  function Flat(cs: seq<Chunk>): seq<Byte> {
    if cs == [] then [] else cs[0] + Flat(cs[1..])
  }

  lemma {:induction false} FlatAppend(a: seq<Chunk>, b: seq<Chunk>)
    ensures Flat(a + b) == Flat(a) + Flat(b)
  {
    if a == [] {
      assert a + b == b;
    } else {
      assert (a + b)[1..] == a[1..] + b;
      FlatAppend(a[1..], b);
    }
  }

  lemma FlatSingle(c: Chunk)
    ensures Flat([c]) == c
  {
    assert Flat([c]) == c + Flat([]);
  }

  lemma FlatSnoc(cs: seq<Chunk>, c: Chunk)
    ensures Flat(cs + [c]) == Flat(cs) + c
  {
    FlatAppend(cs, [c]);
    FlatSingle(c);
  }

  /** Pieces that wait together, as one piece. */
  function Together(pieces: seq<Chunk>): (one: seq<Chunk>)
    ensures |one| <= 1 && Flat(one) == Flat(pieces)
    ensures one == [] <==> pieces == []
  {
    FlatSingle(Flat(pieces));
    if pieces == [] then [] else [Flat(pieces)]
  }

  lemma FlatAround(a: seq<Chunk>, b: seq<Chunk>, c: seq<Chunk>)
    ensures Flat(a + b + c) == Flat(a) + Flat(b) + Flat(c)
  {
    FlatAppend(a + b, c);
    FlatAppend(a, b);
  }

  /** w interleaves a and b, keeping the order of each. */
  ghost predicate Merge<T>(w: seq<T>, a: seq<T>, b: seq<T>)
    decreases |w|
  {
    if w == [] then a == [] && b == []
    else
      || (a != [] && a[0] == w[0] && Merge(w[1..], a[1..], b))
      || (b != [] && b[0] == w[0] && Merge(w[1..], a, b[1..]))
  }

  lemma {:induction false} MergeAll<T>(w: seq<T>)
    ensures Merge(w, w, [])
  {
    if w != [] {
      MergeAll(w[1..]);
    }
  }

  lemma {:induction false} MergeNothingLost<T>(w: seq<T>, a: seq<T>)
    requires Merge(w, a, [])
    ensures w == a
  {
    if w != [] {
      MergeNothingLost(w[1..], a[1..]);
    }
  }

  lemma {:induction false} MergeAppend<T>(w: seq<T>, a: seq<T>, b: seq<T>, x: seq<T>)
    requires Merge(w, a, b)
    ensures Merge(w + x, a + x, b)
  {
    if w == [] {
      assert w + x == x && a + x == x;
      MergeAll(x);
    } else if a != [] && a[0] == w[0] && Merge(w[1..], a[1..], b) {
      MergeAppend(w[1..], a[1..], b, x);
      assert (w + x)[1..] == w[1..] + x && (a + x)[1..] == a[1..] + x;
    } else {
      MergeAppend(w[1..], a, b[1..], x);
      assert (w + x)[1..] == w[1..] + x;
    }
  }

  lemma MergeRight<T>(w: seq<T>, a: seq<T>, b: seq<T>)
    requires w != [] && Merge(w[1..], a, b)
    ensures Merge(w, a, [w[0]] + b)
    ensures multiset([w[0]] + b) == multiset{w[0]} + multiset(b)
  {
    assert ([w[0]] + b)[1..] == b;
  }

  lemma HeadCounts<T>(s: seq<T>)
    requires s != []
    ensures multiset(s) == multiset{s[0]} + multiset(s[1..])
  {
    assert s == [s[0]] + s[1..];
  }

  lemma FirstOfThree<T>(x: seq<T>, d: seq<T>, y: seq<T>)
    ensures x != [] ==> (x + d + y)[1..] == x[1..] + d + y && (x + y)[1..] == x[1..] + y && (x + y)[0] == x[0]
    ensures x == [] && d != [] ==> (x + d + y)[1..] == x + d[1..] + y && (x + d + y)[0] == d[0]
    ensures d == [] ==> x + d + y == x + y
  {
  }

  /** Taking d out of the middle of the kept side moves exactly d to the other side. */
  lemma {:induction false} MergeDrop<T>(w: seq<T>, x: seq<T>, d: seq<T>, y: seq<T>, b: seq<T>) returns (b': seq<T>)
    requires Merge(w, x + d + y, b)
    ensures Merge(w, x + y, b')
    ensures multiset(b') == multiset(b) + multiset(d)
    decreases |w|
  {
    var a := x + d + y;
    FirstOfThree(x, d, y);
    if d == [] {
      b' := b;
    } else if a[0] == w[0] && Merge(w[1..], a[1..], b) {
      if x == [] {
        var r := MergeDrop(w[1..], x, d[1..], y, b);
        MergeRight(w, x + y, r);
        HeadCounts(d);
        b' := [w[0]] + r;
      } else {
        b' := MergeDrop(w[1..], x[1..], d, y, b);
      }
    } else {
      var r := MergeDrop(w[1..], x, d, y, b[1..]);
      MergeRight(w, x + y, r);
      HeadCounts(b);
      b' := [w[0]] + r;
    }
  }

  lemma {:induction false} MergePrefix<T>(p: seq<T>, w: seq<T>, a: seq<T>, b: seq<T>)
    requires Merge(w, a, b)
    ensures Merge(p + w, p + a, b)
  {
    if p == [] {
      assert p + w == w && p + a == a;
    } else {
      MergePrefix(p[1..], w, a, b);
      assert (p + w)[1..] == p[1..] + w && (p + a)[1..] == p[1..] + a;
    }
  }

  lemma {:induction false} MergePrefixRight<T>(p: seq<T>, w: seq<T>, a: seq<T>, b: seq<T>)
    requires Merge(w, a, b)
    ensures Merge(p + w, a, p + b)
  {
    if p == [] {
      assert p + w == w && p + b == b;
    } else {
      MergePrefixRight(p[1..], w, a, b);
      assert (p + w)[1..] == p[1..] + w && (p + b)[1..] == p[1..] + b;
    }
  }

  /** Chunks that interleave as wholes interleave as bytes. */
  lemma {:induction false} MergeFlat(w: seq<Chunk>, a: seq<Chunk>, b: seq<Chunk>)
    requires Merge(w, a, b)
    ensures Merge(Flat(w), Flat(a), Flat(b))
  {
    if w != [] {
      if a != [] && a[0] == w[0] && Merge(w[1..], a[1..], b) {
        MergeFlat(w[1..], a[1..], b);
        MergePrefix(w[0], Flat(w[1..]), Flat(a[1..]), Flat(b));
      } else {
        MergeFlat(w[1..], a, b[1..]);
        MergePrefixRight(w[0], Flat(w[1..]), Flat(a), Flat(b[1..]));
      }
    }
  }

  /** Cutting one kept chunk into pieces, or putting in empty ones, cuts what it came from. */
  lemma {:induction false} MergeRecut(w: seq<Chunk>, x: seq<Chunk>, was: seq<Chunk>, now: seq<Chunk>, y: seq<Chunk>,
                                      b: seq<Chunk>)
    returns (w': seq<Chunk>)
    requires Merge(w, x + was + y, b) && |was| <= 1 && Flat(was) == Flat(now)
    ensures Merge(w', x + now + y, b) && Flat(w') == Flat(w)
    decreases |w|
  {
    var a := x + was + y;
    if x == [] && was == [] {
      assert a == y && x + now + y == now + y;
      MergePrefix(now, w, y, b);
      FlatAppend(now, w);
      w' := now + w;
      assert [] + Flat(w) == Flat(w);
    } else if a[0] == w[0] && Merge(w[1..], a[1..], b) {
      if x == [] {
        assert a[1..] == y && x + now + y == now + y;
        MergePrefix(now, w[1..], y, b);
        FlatAppend(now, w[1..]);
        FlatSingle(w[0]);
        assert was == [w[0]];
        w' := now + w[1..];
      } else {
        FirstOfThree(x, was, y);
        FirstOfThree(x, now, y);
        var r := MergeRecut(w[1..], x[1..], was, now, y, b);
        w' := [w[0]] + r;
        assert w'[1..] == r;
      }
    } else {
      var r := MergeRecut(w[1..], x, was, now, y, b[1..]);
      w' := [w[0]] + r;
      assert w'[1..] == r;
    }
  }
}
