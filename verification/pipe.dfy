/** `NaclPipe`: the password-keyed pipe. A writer sends its salt ahead of
    the first box and seals each `Write` into one box; a reader takes the
    salt from its source, and each `Read` opens one box of the size the
    caller's buffer implies. Both count boxes with a 64-bit counter that
    picks the nonce. */
module Pipe {
  import opened Base
  import opened Io
  import opened Primitives
  import opened Profiles
  import opened Nonces
  import opened Framing
  import Kdf

  /** What `initReader` leaves in an n-byte salt buffer after its single
      `Read` on a source holding `data` that delivers at most `chunk` bytes
      per call: the bytes delivered, then the buffer's zeros. */
  function SaltAfterOneRead(n: nat, data: seq<byte>, chunk: nat): (r: seq<byte>)
    ensures |r| == n
    ensures var m := Min(Min(n, chunk), |data|); r[..m] == data[..m]
    ensures chunk >= n && |data| >= n ==> r == data[..n]
    ensures forall i :: Min(Min(n, chunk), |data|) <= i < n ==> r[i] == 0
  {
    CopyPrefix(Zeros(n), data[..Min(Min(n, chunk), |data|)])
  }

  /** A reader whose source hands out the 32-byte salt one byte per call
      keeps one salt byte and 31 zeros, yet the salt passes every check of
      `deriveKey`: the short read is not noticed, and the key is stretched
      from a salt the writer never used. */
  lemma ShortSaltReadUndetected(rest: seq<byte>, password: seq<byte>)
    requires |password| >= Kdf.MinPasswordLength
    ensures var sent: seq<byte> := seq(SaltLength, _ => 1);
            var received := SaltAfterOneRead(SaltLength, sent + rest, 1);
            received != sent && !Kdf.Unsafe(received, password)
  {
    var sent: seq<byte> := seq(SaltLength, _ => 1);
    var received := SaltAfterOneRead(SaltLength, sent + rest, 1);
    assert received[0] == 1;
    assert received[1] == 0 != sent[1];
  }

  class NaclPipe {
    var dKey: seq<byte>       // derived key
    var cntNonce: seq<byte>   // nonce of the current counter
    var cnt: u64              // block counter
    var salt: seq<byte>
    var params: Params
    var rd: Source?
    var wr: Sink?

    /** Once `initialize` has run the key and nonce buffers have their
        fixed sizes; only an initialised pipe is attached to a source or
        a sink. */
    ghost predicate Valid()
      reads this
    {
      (!params.Unset? ==> |dKey| == KeyLength && |cntNonce| == NonceSize && KeyLen(params) == KeyLength) &&
      (rd != null || wr != null ==> !params.Unset?)
    }

    /** `new(NaclPipe)`: every field at its zero value. */
    constructor ()
      ensures Valid()
      ensures dKey == [] && cntNonce == [] && cnt == 0 && salt == []
      ensures params == Unset && rd == null && wr == null
    {
      dKey, cntNonce, cnt, salt := [], [], 0, [];
      params, rd, wr := Unset, null, null;
    }

    /** `initialize(d)`: fresh zeroed key and nonce buffers, counter 0, and
        the profile of selector d with a zeroed salt buffer of its size. */
    method Initialize(d: int)
      modifies this
      ensures Valid()
      ensures cntNonce == Zeros(NonceSize) && dKey == Zeros(KeyLength) && cnt == 0
      ensures salt == Zeros(Select(d).saltLen) && params == Select(d).params
      ensures rd == old(rd) && wr == old(wr)
    {
      cntNonce := Zeros(NonceSize);
      dKey := Zeros(KeyLength);
      cnt := 0;
      salt := Zeros(SaltLength);
      var profile := Select(d);
      params := profile.params;
      if d == DerivateScrypt010 {
        salt := Zeros(OldSaltLength);
      }
    }

    /** `deriveKey(s, password)`: checks `s` and `password`, stretches the
        key from the `salt` field, and stores it only on success. */
    method DeriveKey(lib: Crypto, s: seq<byte>, password: seq<byte>) returns (err: Option<Error>)
      requires lib.Valid() && Valid()
      modifies this`dKey
      ensures Valid()
      ensures var r := Kdf.DeriveKey(lib, params, s, salt, password);
              err == (if r.Success? then None else Some(r.error)) &&
              dKey == (if r.Success? then r.value else old(dKey))
    {
      var r := Kdf.DeriveKey(lib, params, s, salt, password);
      if r.Failure? {
        return Some(r.error);
      }
      dKey := CopyPrefix(dKey, r.value);
      err := None;
    }

    /** `shazam()`: the nonce buffer gets the nonce of the current counter. */
    method Shazam(lib: Crypto)
      requires lib.Valid() && Valid() && !params.Unset?
      modifies this`cntNonce
      ensures Valid()
      ensures cntNonce == Nonce(lib, cnt)
    {
      cntNonce := CopyPrefix(cntNonce, Nonce(lib, cnt));
    }

    /** `initReader(r, password)`: one `Read` into the salt buffer (the
        number of bytes it delivers is not looked at), then the key. The
        source is attached only if both succeed. */
    method InitReader(lib: Crypto, r: Source, password: seq<byte>) returns (err: Option<Error>)
      requires lib.Valid() && Valid() && r.Valid()
      modifies this`salt, this`dKey, this`rd, r
      ensures Valid() && r.Valid()
      ensures var got := old(r.data)[..Min(Min(|old(salt)|, r.chunk), |old(r.data)|)];
              salt == CopyPrefix(old(salt), got) && r.data == old(r.data)[|got|..]
      ensures var kd := Kdf.DeriveKey(lib, params, salt, salt, password);
              err == (if |salt| > 0 && r.data == old(r.data) then Some(r.tailErr)
                      else if kd.Failure? then Some(kd.error) else None) &&
              (err.None? ==> rd == r && dKey == kd.value) &&
              (err.Some? ==> rd == old(rd) && dKey == old(dKey))
    {
      var got, e := r.Read(|salt|);
      salt := CopyPrefix(salt, got);
      if e.Some? {
        return e;
      }
      err := DeriveKey(lib, salt, password);
      if err.Some? {
        return;
      }
      rd := r;
    }

    /** `initWriter(w, password)`: a salt from the random source (a full
        read, as `crypto/rand.Read` does), then the key. The sink is
        attached only if both succeed. */
    method InitWriter(lib: Crypto, w: Sink, rng: Source, password: seq<byte>) returns (err: Option<Error>)
      requires lib.Valid() && Valid() && rng.Valid()
      modifies this`salt, this`dKey, this`wr, rng
      ensures Valid() && rng.Valid()
      ensures var got := old(rng.data)[..Min(|old(salt)|, |old(rng.data)|)];
              salt == CopyPrefix(old(salt), got) && rng.data == old(rng.data)[|got|..]
      ensures var randErr := FullReadError(|salt|, Min(|salt|, |old(rng.data)|), rng.tailErr);
              var kd := Kdf.DeriveKey(lib, params, salt, salt, password);
              err == (if randErr.Some? then randErr else if kd.Failure? then Some(kd.error) else None) &&
              (err.None? ==> wr == w && dKey == kd.value) &&
              (err.Some? ==> wr == old(wr) && dKey == old(dKey))
    {
      var got, e := ReadFull(rng, |salt|);
      salt := CopyPrefix(salt, got);
      if e.Some? {
        return e;
      }
      err := DeriveKey(lib, salt, password);
      if err.Some? {
        return;
      }
      wr := w;
    }

    /** `Read(p)`. An empty buffer is a no-op. Otherwise the nonce of the
        current counter is computed, exactly `len(p) + Overhead` bytes are
        requested with a full read, any source error but `UnexpectedEOF` is
        returned as it is, and what was read is opened: on success the
        plaintext goes to the front of `p`, the counter moves on by one and
        the plaintext length is returned; on failure `ErrRead` is returned.
        The counter moves only on success. */
    method Read(lib: Crypto, p: array<byte>) returns (n: int, err: Option<Error>)
      requires lib.Valid() && Valid() && rd != null && rd.Valid()
      modifies this`cnt, this`cntNonce, rd, p
      ensures Valid() && rd.Valid()
      ensures p.Length == 0 ==>
                n == 0 && err == None && cnt == old(cnt) && cntNonce == old(cntNonce) &&
                rd.data == old(rd.data)
      ensures p.Length > 0 ==>
                var want := p.Length + Overhead;
                var got := old(rd.data)[..Min(want, |old(rd.data)|)];
                var e := FullReadError(want, |got|, rd.tailErr);
                var plain := lib.open(got, Nonce(lib, old(cnt)), dKey);
                cntNonce == Nonce(lib, old(cnt)) && rd.data == old(rd.data)[|got|..] &&
                if e.Some? && e != Some(UnexpectedEOF) then
                  n == |got| && err == e && cnt == old(cnt) && p[..] == old(p[..])
                else if plain.Some? then
                  n == |plain.value| <= p.Length && err == None && cnt == Inc(old(cnt)) &&
                  p[..] == plain.value + old(p[..])[n..]
                else
                  n == 0 && err == Some(ErrRead) && cnt == old(cnt) && p[..] == old(p[..])
    {
      if p.Length == 0 {
        return 0, None;
      }
      ghost var before := p[..];
      Shazam(lib);
      var want := p.Length + Overhead;
      var b, e := ReadFull(rd, want);
      if e.Some? && e != Some(UnexpectedEOF) {
        assert p[..] == before;
        return |b|, e;
      }
      var plain := lib.open(b, cntNonce, dKey);
      if plain.None? {
        assert p[..] == before;
        return 0, Some(ErrRead);
      }
      var pt := plain.value;
      assert |pt| + Overhead == |b| <= want;
      forall i | 0 <= i < |pt| {
        p[i] := pt[i];
      }
      assert p[..] == pt + before[|pt|..];
      cnt := Inc(cnt);
      n, err := |pt|, None;
    }

    /** `Write(p)`. The nonce of the current counter is computed; at counter
        0 the salt is written first, and if the sink fails on it that error
        is returned with nothing sealed. Otherwise `p` (even an empty one)
        is sealed into one box `Overhead` bytes longer, the counter moves on
        before the box is written, and `len(p)` is returned with whatever
        error the sink gave. */
    method Write(lib: Crypto, p: seq<byte>) returns (n: int, err: Option<Error>)
      requires lib.Valid() && Valid() && wr != null && wr.Valid()
      modifies this`cnt, this`cntNonce, wr
      ensures Valid() && wr.Valid()
      ensures cntNonce == Nonce(lib, old(cnt))
      ensures var saltTaken := Taken(wr.capacity, |old(wr.written)|, |salt|);
              var head := old(wr.written) + (if old(cnt) == 0 then salt else []);
              var box := lib.seal(p, Nonce(lib, old(cnt)), dKey);
              var boxTaken := Taken(wr.capacity, |head|, |box|);
              if old(cnt) == 0 && saltTaken < |salt| then
                n == saltTaken && err == Some(wr.failErr) && cnt == old(cnt) &&
                wr.written == old(wr.written) + salt[..saltTaken]
              else
                n == |p| && cnt == Inc(old(cnt)) && wr.written == head + box[..boxTaken] &&
                err == (if boxTaken < |box| then Some(wr.failErr) else None)
      ensures err.None? ==>
                n == |p| && cnt == Inc(old(cnt)) &&
                wr.written == old(wr.written) + (if old(cnt) == 0 then salt else []) +
                              Stream(lib, dKey, old(cnt), [p])
    {
      ghost var before := wr.written;
      Shazam(lib);
      if cnt == 0 {
        var m, e := wr.Write(salt);
        if e.Some? {
          assert m < |salt| && cnt == old(cnt);
          return m, e;
        }
      }
      assert wr.written == before + (if old(cnt) == 0 then salt else []);
      var ct := lib.seal(p, cntNonce, dKey);
      cnt := Inc(cnt);
      var m, e := wr.Write(ct);
      assert ct == lib.seal(p, Nonce(lib, old(cnt)), dKey);
      n, err := |p|, e;
      StreamSingle(lib, dKey, old(cnt), p);
    }

    /** `Write` to a sink that accepts every byte never fails: the sink
        gains the salt (at counter 0) and then exactly one box, the box of p
        under the current counter, and the counter moves by one. */
    method WriteAccepted(lib: Crypto, p: seq<byte>) returns (n: int, err: Option<Error>)
      requires lib.Valid() && Valid() && wr != null && wr.Valid() && wr.capacity.None?
      modifies this`cnt, this`cntNonce, wr
      ensures Valid() && wr.Valid()
      ensures err.None? && n == |p| && cnt == Inc(old(cnt))
      ensures wr.written == old(wr.written) + (if old(cnt) == 0 then salt else []) + Stream(lib, dKey, old(cnt), [p])
    {
      n, err := Write(lib, p);
    }

    /** Two `Write` calls from counter 0 to a sink that accepts every byte:
        the sink gains the salt and then the boxes of p1 and p2 under
        counters 0 and 1. */
    method WritePairAccepted(lib: Crypto, p1: seq<byte>, p2: seq<byte>)
      requires lib.Valid() && Valid() && wr != null && wr.Valid() && wr.capacity.None? && cnt == 0
      modifies this`cnt, this`cntNonce, wr
      ensures Valid() && wr.Valid() && cnt == 2
      ensures wr.written == old(wr.written) + salt + Stream(lib, dKey, 0, [p1, p2])
    {
      ghost var before := wr.written;
      var _, _ := WriteAccepted(lib, p1);
      ghost var first := wr.written;
      assert first == before + salt + Stream(lib, dKey, 0, [p1]);
      var _, _ := WriteAccepted(lib, p2);
      assert wr.written == first + Stream(lib, dKey, 1, [p2]);
      StreamPair(lib, dKey, 0, p1, p2);
    }

    /** `Read` in step with the writer: when the source holds the boxes of
        the chunks ps from the reader's counter on, a `Read` into a buffer
        of the first chunk's size takes exactly the next box, puts that
        chunk in the buffer, moves the counter by one and leaves the boxes
        of the remaining chunks. A `Read` into an empty buffer consumes
        nothing and succeeds, so for an empty first chunk it is in step only
        if that chunk is the last. */
    method ReadInStep(lib: Crypto, p: array<byte>, ghost ps: seq<seq<byte>>, ghost rest: seq<byte>)
      returns (err: Option<Error>)
      requires lib.Valid() && Valid() && rd != null && rd.Valid()
      modifies this`cnt, this`cntNonce, rd, p
      ensures Valid() && rd.Valid()
      ensures p.Length == 0 ==> err.None? && cnt == old(cnt) && rd.data == old(rd.data)
      ensures |ps| > 0 && p.Length == |ps[0]| > 0 && old(rd.data) == Stream(lib, dKey, old(cnt), ps) + rest ==>
                err.None? && p[..] == ps[0] && cnt == Inc(old(cnt)) &&
                rd.data == Stream(lib, dKey, cnt, ps[1..]) + rest
    {
      if |ps| > 0 {
        NextBlock(lib, dKey, cnt, ps, rest);
      }
      var _, e := Read(lib, p);
      err := e;
    }
  }

  /** `NewReader(r, password, derivation)`: a pipe of the selected profile
      reading from r, or the first error of the salt read and the key
      derivation, and then no pipe. */
  method NewReader(lib: Crypto, r: Source, password: seq<byte>, derivation: int) returns (c: NaclPipe?, err: Option<Error>)
    requires lib.Valid() && r.Valid()
    modifies r
    ensures r.Valid()
    ensures var profile := Select(derivation);
            var salt := SaltAfterOneRead(profile.saltLen, old(r.data), r.chunk);
            var kd := Kdf.DeriveKey(lib, profile.params, salt, salt, password);
            r.data == old(r.data)[Min(Min(profile.saltLen, r.chunk), |old(r.data)|)..] &&
            err == (if old(r.data) == [] then Some(r.tailErr)
                    else if kd.Failure? then Some(kd.error) else None) &&
            (c == null <==> err.Some?) &&
            (c != null ==>
               fresh(c) && c.Valid() && c.rd == r && c.wr == null && c.cnt == 0 &&
               c.salt == salt && c.params == profile.params && c.dKey == kd.value)
  {
    c := new NaclPipe();
    c.Initialize(derivation);
    err := c.InitReader(lib, r, password);
    if err.Some? {
      c := null;
    }
  }

  /** `NewWriter(w, password, derivation)`: a pipe of the selected profile
      writing to w with a salt from the random source rng, or the first error
      of the random read and the key derivation, and then no pipe. */
  method NewWriter(lib: Crypto, w: Sink, rng: Source, password: seq<byte>, derivation: int) returns (c: NaclPipe?, err: Option<Error>)
    requires lib.Valid() && rng.Valid()
    modifies rng
    ensures rng.Valid()
    ensures var n := Select(derivation).saltLen;
            |old(rng.data)| < n ==>
              rng.data == [] && err == FullReadError(n, |old(rng.data)|, rng.tailErr) && c == null
    ensures var profile := Select(derivation);
            var n := profile.saltLen;
            var salt := old(rng.data)[..Min(n, |old(rng.data)|)];
            var kd := Kdf.DeriveKey(lib, profile.params, salt, salt, password);
            |old(rng.data)| >= n ==>
              rng.data == old(rng.data)[n..] && err == ErrorOf(kd) && (c == null <==> err.Some?) &&
              (c != null ==>
                 fresh(c) && c.Valid() && c.wr == w && c.rd == null && c.cnt == 0 &&
                 c.salt == salt && c.params == profile.params && c.dKey == kd.value)
  {
    c := new NaclPipe();
    c.Initialize(derivation);
    err := c.InitWriter(lib, w, rng, password);
    if err.Some? {
      c := null;
    }
  }

  /** A writer as the round trips build one: `NewWriter` over a sink that
      keeps every byte, with the salt drawn from the bytes `random`. */
  method MemoryWriter(lib: Crypto, password: seq<byte>, derivation: int, random: seq<byte>)
    returns (w: NaclPipe?, sink: Sink, err: Option<Error>)
    requires lib.Valid()
    ensures fresh(sink) && sink.Valid() && sink.capacity.None? && sink.written == []
    ensures |random| < Select(derivation).saltLen ==> err.Some?
    ensures var profile := Select(derivation);
            var salt := random[..Min(profile.saltLen, |random|)];
            var kd := Kdf.DeriveKey(lib, profile.params, salt, salt, password);
            (|random| >= profile.saltLen ==> err == ErrorOf(kd)) &&
            (w == null <==> err.Some?) &&
            (w != null ==>
               fresh(w) && w.Valid() && w.wr == sink && w.cnt == 0 && w.salt == salt && w.dKey == kd.value)
  {
    var rng := new Source(random, |random| + 1, EOF);
    sink := new Sink(None, ErrWrite);
    w, err := NewWriter(lib, sink, rng, password, derivation);
  }

  /** A reader as the round trips build one: `NewReader` over the bytes
      `wire`, delivered in one piece. When the wire starts with a salt from
      which the key derives, the reader exists and its source holds the
      rest of the wire. */
  method MemoryReader(lib: Crypto, password: seq<byte>, derivation: int, wire: seq<byte>)
    returns (r: NaclPipe?, err: Option<Error>)
    requires lib.Valid()
    ensures r == null <==> err.Some?
    ensures r != null ==> fresh(r) && fresh(r.rd) && r.Valid() && r.rd != null && r.rd.Valid() && r.cnt == 0
    ensures var profile := Select(derivation);
            var salt := wire[..Min(profile.saltLen, |wire|)];
            var kd := Kdf.DeriveKey(lib, profile.params, salt, salt, password);
            |wire| >= profile.saltLen && kd.Success? ==>
              r != null && r.dKey == kd.value && r.rd.data == wire[profile.saltLen..]
  {
    var src := new Source(wire, |wire| + 1, EOF);
    r, err := NewReader(lib, src, password, derivation);
  }

  /** The writer half of a round trip: a writer over an in-memory sink with
      salt bytes from `random` writes p once. It exists exactly when the
      random bytes fill the salt and the key can be derived; then the sink
      holds the salt followed by the one box sealed under counter 0. */
  method WriteOnce(lib: Crypto, password: seq<byte>, derivation: int, random: seq<byte>, p: seq<byte>)
    returns (werr: Option<Error>, wire: seq<byte>)
    requires lib.Valid()
    ensures |random| < Select(derivation).saltLen ==> werr.Some?
    ensures var profile := Select(derivation);
            var salt := random[..Min(profile.saltLen, |random|)];
            var kd := Kdf.DeriveKey(lib, profile.params, salt, salt, password);
            |random| >= profile.saltLen ==>
              (werr.None? <==> kd.Success?) &&
              (werr.None? ==> wire == salt + Stream(lib, kd.value, 0, [p]))
  {
    var w, sink, e := MemoryWriter(lib, password, derivation, random);
    if e.Some? {
      return e, [];
    }
    var _, _ := w.WriteAccepted(lib, p);
    werr, wire := None, sink.written;
  }

  /** The reader half of a round trip: a reader over `wire` with the given
      password and profile reads into a buffer of `size` bytes. When the
      wire is a salt that passes the checks followed by exactly one box of
      that size, the reader returns what the box opens to under counter 0,
      or `ErrRead` if it does not open. */
  method ReadOnce(lib: Crypto, password: seq<byte>, derivation: int, wire: seq<byte>, size: nat)
    returns (rerr: Option<Error>, n: int, out: seq<byte>)
    requires lib.Valid()
    ensures var profile := Select(derivation);
            var salt := wire[..Min(profile.saltLen, |wire|)];
            var kd := Kdf.DeriveKey(lib, profile.params, salt, salt, password);
            |wire| == profile.saltLen + size + Overhead && kd.Success? ==>
              if size == 0 then rerr.None? && n == 0 && out == []
              else match lib.open(wire[profile.saltLen..], Nonce(lib, 0), kd.value)
                   case Some(q) => rerr.None? && n == |q| == size && out == q
                   case None => rerr == Some(ErrRead) && n == 0
  {
    var r, re := MemoryReader(lib, password, derivation, wire);
    if re.Some? {
      return re, 0, [];
    }
    ghost var box := r.rd.data;
    var buf := new byte[size];
    n, rerr := r.Read(lib, buf);
    out := buf[..];
    if |box| == size + Overhead && size > 0 {
      assert box[..Min(size + Overhead, |box|)] == box;
    }
  }

  /** One round trip: what `WriteOnce` puts on the wire, `ReadOnce` with the
      same password and profile and a buffer of |p| bytes reads back as
      exactly p. */
  method WriteThenRead(lib: Crypto, password: seq<byte>, derivation: int, random: seq<byte>, p: seq<byte>)
    returns (werr: Option<Error>, n: int, rerr: Option<Error>, out: seq<byte>)
    requires lib.Valid()
    ensures var profile := Select(derivation);
            var salt := random[..Min(profile.saltLen, |random|)];
            (werr.None? <==> |random| >= profile.saltLen && Kdf.DeriveKey(lib, profile.params, salt, salt, password).Success?) &&
            (werr.None? ==> rerr.None? && n == |p| && out == p)
  {
    var wire;
    werr, wire := WriteOnce(lib, password, derivation, random, p);
    if werr.Some? {
      return werr, 0, None, [];
    }
    ghost var profile := Select(derivation);
    ghost var salt := random[..profile.saltLen];
    ghost var key := Kdf.DeriveKey(lib, profile.params, salt, salt, password).value;
    ghost var box := lib.seal(p, Nonce(lib, 0), key);
    assert Stream(lib, key, 0, [p]) == box by {
      assert [p][..0] == [];
    }
    assert wire[..profile.saltLen] == salt && wire[profile.saltLen..] == box;
    rerr, n, out := ReadOnce(lib, password, derivation, wire, |p|);
  }

  /** The writer half of a two-chunk round trip: as `WriteOnce`, then a
      second `Write`; the sink then holds the salt followed by the box of
      p1 under counter 0 and the box of p2 under counter 1. */
  method WriteTwice(lib: Crypto, password: seq<byte>, derivation: int, random: seq<byte>, p1: seq<byte>, p2: seq<byte>)
    returns (werr: Option<Error>, wire: seq<byte>)
    requires lib.Valid()
    ensures |random| < Select(derivation).saltLen ==> werr.Some?
    ensures var profile := Select(derivation);
            var salt := random[..Min(profile.saltLen, |random|)];
            var kd := Kdf.DeriveKey(lib, profile.params, salt, salt, password);
            |random| >= profile.saltLen ==>
              (werr.None? <==> kd.Success?) &&
              (werr.None? ==> wire == salt + Stream(lib, kd.value, 0, [p1, p2]))
  {
    ghost var profile := Select(derivation);
    ghost var salt := random[..Min(profile.saltLen, |random|)];
    ghost var kd := Kdf.DeriveKey(lib, profile.params, salt, salt, password);
    var w, sink, e := MemoryWriter(lib, password, derivation, random);
    if e.Some? {
      return e, [];
    }
    w.WritePairAccepted(lib, p1, p2);
    werr, wire := None, sink.written;
  }

  /** The reader half of a two-chunk round trip: a reader over `wire` reads
      into a buffer of size1 bytes and then one of size2 bytes. When the
      wire is a salt that passes the checks followed by the boxes of two
      chunks q1 and q2 of those sizes, from counter 0 on, q1 not empty, the
      reader returns q1 and then q2: each `Read` into a non-empty buffer
      takes exactly one box and opens it under the counter the writer used
      for it. */
  method ReadTwice(lib: Crypto, password: seq<byte>, derivation: int, wire: seq<byte>, size1: nat, size2: nat,
                   ghost q1: seq<byte>, ghost q2: seq<byte>)
    returns (rerr: Option<Error>, out1: seq<byte>, out2: seq<byte>)
    requires lib.Valid()
    ensures var profile := Select(derivation);
            var salt := wire[..Min(profile.saltLen, |wire|)];
            var kd := Kdf.DeriveKey(lib, profile.params, salt, salt, password);
            |wire| >= profile.saltLen && kd.Success? && 0 < size1 == |q1| && size2 == |q2| &&
            wire[profile.saltLen..] == Stream(lib, kd.value, 0, [q1, q2]) ==>
              rerr.None? && out1 == q1 && out2 == q2
  {
    var r, re := MemoryReader(lib, password, derivation, wire);
    if re.Some? {
      return re, [], [];
    }
    var buf1 := new byte[size1];
    var buf2 := new byte[size2];
    assert Stream(lib, r.dKey, 0, [q1, q2]) + [] == Stream(lib, r.dKey, 0, [q1, q2]);
    var e1 := r.ReadInStep(lib, buf1, [q1, q2], []);
    out1 := buf1[..];
    if e1.Some? {
      return e1, out1, [];
    }
    assert [q1, q2][1..] == [q2];
    rerr := r.ReadInStep(lib, buf2, [q2], []);
    out2 := buf2[..];
  }

  /** The two-chunk round trip: what `WriteTwice` puts on the wire,
      `ReadTwice` with the same password and profile and buffers of |p1|
      and |p2| bytes reads back as p1 and then p2, provided the first chunk
      is not empty. */
  method WriteTwiceThenReadTwice(lib: Crypto, password: seq<byte>, derivation: int, random: seq<byte>,
                                 p1: seq<byte>, p2: seq<byte>)
    returns (werr: Option<Error>, rerr: Option<Error>, out1: seq<byte>, out2: seq<byte>)
    requires lib.Valid()
    ensures var profile := Select(derivation);
            var salt := random[..Min(profile.saltLen, |random|)];
            (werr.None? <==> |random| >= profile.saltLen && Kdf.DeriveKey(lib, profile.params, salt, salt, password).Success?) &&
            (werr.None? && |p1| > 0 ==> rerr.None? && out1 == p1 && out2 == p2)
  {
    var wire;
    werr, wire := WriteTwice(lib, password, derivation, random, p1, p2);
    if werr.Some? {
      return werr, None, [], [];
    }
    ghost var profile := Select(derivation);
    ghost var salt := random[..profile.saltLen];
    assert wire[..profile.saltLen] == salt;
    rerr, out1, out2 := ReadTwice(lib, password, derivation, wire, |p1|, |p2|, p1, p2);
  }
}
