/** The wire layout after the salt: one sealed box per `Write` call, the
    i-th sealed under the nonce of counter c0 + i, with nothing between
    boxes and no end marker. */
module Framing {
  import opened Base
  import opened Primitives
  import opened Nonces

  /** Total bytes of the boxes for a list of chunks. */
  function BoxedLength(ps: seq<seq<byte>>): (r: nat)
  {
    if ps == [] then 0 else BoxedLength(ps[..|ps| - 1]) + |ps[|ps| - 1]| + Overhead
  }

  /** The boxes a writer emits for the chunks ps, the first under counter c0. */
  function Stream(lib: Crypto, key: seq<byte>, c0: u64, ps: seq<seq<byte>>): (r: seq<byte>)
    requires lib.Valid()
    decreases |ps|
  {
    if ps == [] then []
    else Stream(lib, key, c0, ps[..|ps| - 1]) + lib.seal(ps[|ps| - 1], Nonce(lib, CounterAt(c0, |ps| - 1)), key)
  }

  /** The stream is as long as its boxes: 16 bytes more than its chunks,
      per chunk. */
  lemma {:induction false} StreamLength(lib: Crypto, key: seq<byte>, c0: u64, ps: seq<seq<byte>>)
    requires lib.Valid()
    ensures |Stream(lib, key, c0, ps)| == BoxedLength(ps)
    decreases |ps|
  {
    if ps != [] {
      StreamLength(lib, key, c0, ps[..|ps| - 1]);
    }
  }

  /** One more `Write` extends the stream by one box under the next counter. */
  lemma StreamSnoc(lib: Crypto, key: seq<byte>, c0: u64, ps: seq<seq<byte>>, p: seq<byte>)
    requires lib.Valid()
    ensures Stream(lib, key, c0, ps + [p]) == Stream(lib, key, c0, ps) + lib.seal(p, Nonce(lib, CounterAt(c0, |ps|)), key)
  {
    assert (ps + [p])[..|ps|] == ps;
  }

  /** The stream of a single chunk is its box under c0. */
  lemma StreamSingle(lib: Crypto, key: seq<byte>, c0: u64, p: seq<byte>)
    requires lib.Valid()
    ensures Stream(lib, key, c0, [p]) == lib.seal(p, Nonce(lib, c0), key)
  {
    assert [p][..0] == [];
    assert CounterAt(c0, 0) == c0;
  }

  lemma CounterAtInc(c0: u64, i: nat)
    ensures CounterAt(Inc(c0), i) == CounterAt(c0, i + 1)
  {
  }

  /** A stream is its first box followed by the stream of the remaining
      chunks, counted from the next counter. */
  lemma {:induction false} StreamCons(lib: Crypto, key: seq<byte>, c0: u64, ps: seq<seq<byte>>)
    requires lib.Valid()
    requires |ps| > 0
    ensures Stream(lib, key, c0, ps) == lib.seal(ps[0], Nonce(lib, c0), key) + Stream(lib, key, Inc(c0), ps[1..])
    decreases |ps|
  {
    var n := |ps|;
    var box := lib.seal(ps[0], Nonce(lib, c0), key);
    if n == 1 {
      assert ps[..0] == [] && ps[1..] == [];
      assert CounterAt(c0, 0) == c0;
    } else {
      var init, tail := ps[..n - 1], ps[1..];
      var last := lib.seal(ps[n - 1], Nonce(lib, CounterAt(c0, n - 1)), key);
      StreamCons(lib, key, c0, init);
      var middle := Stream(lib, key, Inc(c0), init[1..]);
      assert Stream(lib, key, c0, ps) == (box + middle) + last;
      assert tail[..n - 2] == init[1..] && tail[n - 2] == ps[n - 1];
      CounterAtInc(c0, n - 2);
      assert Stream(lib, key, Inc(c0), tail) == middle + last;
      assert (box + middle) + last == box + (middle + last);
    }
  }

  /** Two writes: the stream of two chunks is the box of the first under
      c0 followed by the stream of the second from the next counter. */
  lemma StreamPair(lib: Crypto, key: seq<byte>, c0: u64, p1: seq<byte>, p2: seq<byte>)
    requires lib.Valid()
    ensures Stream(lib, key, c0, [p1, p2]) == Stream(lib, key, c0, [p1]) + Stream(lib, key, Inc(c0), [p2])
  {
    StreamSnoc(lib, key, c0, [p1], p2);
    assert [p1] + [p2] == [p1, p2];
    StreamSingle(lib, key, Inc(c0), p2);
    assert CounterAt(c0, 1) == Inc(c0);
  }

  lemma SplitAt(a: seq<byte>, b: seq<byte>)
    ensures (a + b)[..|a|] == a && (a + b)[|a|..] == b
  {
  }

  /** Reader/writer synchronisation: a reader whose counter is c and whose
      source holds the stream from c on, asking for |ps[0]| + Overhead bytes
      gets exactly the next box, which opens under the nonce of c to ps[0],
      and what is left is the stream from the next counter on. */
  lemma NextBlock(lib: Crypto, key: seq<byte>, c: u64, ps: seq<seq<byte>>, rest: seq<byte>)
    requires lib.Valid()
    requires |ps| > 0
    ensures var s := Stream(lib, key, c, ps) + rest;
            var k := |ps[0]| + Overhead;
            k <= |s| && lib.open(s[..k], Nonce(lib, c), key) == Some(ps[0]) &&
            s[k..] == Stream(lib, key, Inc(c), ps[1..]) + rest
  {
    StreamCons(lib, key, c, ps);
    var box := lib.seal(ps[0], Nonce(lib, c), key);
    var tail := Stream(lib, key, Inc(c), ps[1..]) + rest;
    assert |box| == |ps[0]| + Overhead;
    assert Stream(lib, key, c, ps) + rest == box + tail;
    SplitAt(box, tail);
  }
}
