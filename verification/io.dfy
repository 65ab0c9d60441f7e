/** The byte source and sink the pipe sits on (Go's `io.Reader` and
    `io.Writer`), reduced to what the pipe relies on, and `io.ReadFull`. */
module Io {
  import opened Base

  /** What `io.ReadFull` reports after collecting `got` of the `want` bytes
      it asked for, when the reader's last reply was `tail`. */
  function FullReadError(want: nat, got: nat, tail: Error): (r: Option<Error>)
    requires got <= want
    ensures r.None? <==> got == want
    ensures r.Some? && tail != EOF ==> r == Some(tail)
    ensures got < want && tail == EOF ==> r == Some(if got == 0 then EOF else UnexpectedEOF)
  {
    if got == want then None
    else if tail == EOF then (if got == 0 then Some(EOF) else Some(UnexpectedEOF))
    else Some(tail)
  }

  /** A reader that holds the bytes it has yet to deliver. Each `Read` call
      delivers at most `chunk` bytes (short reads); once the bytes are
      exhausted every call fails with `tailErr` (`EOF` for a clean end). */
  class Source {
    var data: seq<byte>
    const chunk: nat
    const tailErr: Error

    ghost predicate Valid()
      reads this
    {
      chunk >= 1
    }

    constructor (data: seq<byte>, chunk: nat, tailErr: Error)
      requires chunk >= 1
      ensures Valid()
      ensures this.data == data && this.chunk == chunk && this.tailErr == tailErr
    {
      this.data := data;
      this.chunk := chunk;
      this.tailErr := tailErr;
    }

    /** How many bytes one `Read` of a k-byte buffer delivers. */
    function Delivers(k: nat): (n: nat)
      reads this
      ensures n <= k && n <= |data|
      ensures Valid() && k > 0 && data != [] ==> n > 0
    {
      Min(Min(k, chunk), |data|)
    }

    /** `r.Read(b)` with `len(b) == k`: the bytes delivered, and an error
        only when nothing could be delivered for a non-empty buffer. */
    method Read(k: nat) returns (got: seq<byte>, err: Option<Error>)
      requires Valid()
      modifies this
      ensures Valid()
      ensures got == old(data)[..old(Delivers(k))]
      ensures data == old(data)[|got|..]
      ensures err == if k > 0 && got == [] then Some(tailErr) else None
    {
      var n := Delivers(k);
      got := data[..n];
      data := data[n..];
      err := if k > 0 && n == 0 then Some(tailErr) else None;
    }
  }

  /** `io.ReadFull(src, b)` with `len(b) == want`: calls `Read` until the
      buffer is full or the reader fails. Only a full buffer is a success; a
      clean end before any byte is `EOF`, a clean end after some bytes is
      `UnexpectedEOF`, and any other reader error is passed on. */
  method ReadFull(src: Source, want: nat) returns (got: seq<byte>, err: Option<Error>)
    requires src.Valid()
    modifies src
    ensures src.Valid()
    ensures got == old(src.data)[..Min(want, |old(src.data)|)]
    ensures src.data == old(src.data)[|got|..]
    ensures err == FullReadError(want, |got|, src.tailErr)
  {
    got := [];
    var last: Option<Error> := None;
    while |got| < want && last.None?
      invariant src.Valid()
      invariant |got| <= want && |got| <= |old(src.data)|
      invariant got == old(src.data)[..|got|]
      invariant src.data == old(src.data)[|got|..]
      invariant last.Some? ==> last == Some(src.tailErr) && src.data == []
      decreases want - |got|, if last.None? then 1 else 0
    {
      ghost var rest := src.data;
      var more, e := src.Read(want - |got|);
      assert rest == more + src.data;
      got := got + more;
      last := e;
    }
    err := FullReadError(want, |got|, src.tailErr);
  }

  /** A writer that appends what it accepts to `written`. A bounded sink
      accepts at most `capacity` bytes in all; a write it cannot take in full
      stores what fits and fails with `failErr`. */
  class Sink {
    var written: seq<byte>
    const capacity: Option<nat>
    const failErr: Error

    ghost predicate Valid()
      reads this
    {
      capacity.Some? ==> |written| <= capacity.value
    }

    constructor (capacity: Option<nat>, failErr: Error)
      ensures Valid()
      ensures written == [] && this.capacity == capacity && this.failErr == failErr
    {
      written := [];
      this.capacity := capacity;
      this.failErr := failErr;
    }

    /** `w.Write(b)` with `len(b) == |b|`. */
    method Write(b: seq<byte>) returns (n: nat, err: Option<Error>)
      requires Valid()
      modifies this
      ensures Valid()
      ensures n == Taken(capacity, |old(written)|, |b|)
      ensures written == old(written) + b[..n]
      ensures err == if n < |b| then Some(failErr) else None
    {
      n := Taken(capacity, |written|, |b|);
      written := written + b[..n];
      err := if n < |b| then Some(failErr) else None;
    }
  }

  /** How many of k offered bytes a sink of this capacity takes once `used`
      bytes are already in it. */
  function Taken(capacity: Option<nat>, used: nat, k: nat): (n: nat)
    ensures n <= k
    ensures capacity.None? ==> n == k
    ensures capacity.Some? && used <= capacity.value ==> used + n <= capacity.value
  {
    match capacity
    case None => k
    case Some(c) => if used >= c then 0 else Min(k, c - used)
  }
}
