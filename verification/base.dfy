/** Shared vocabulary of the pipe: bytes, 64-bit counters, optional values,
    results and the error values that cross the package boundary. */
module Base {

  /** A Go `byte`. */
  type byte = b: int | 0 <= b < 256

  const TwoTo64: int := 0x1_0000_0000_0000_0000

  /** A Go `uint64`. */
  type u64 = x: int | 0 <= x < TwoTo64

  datatype Option<+T> = None | Some(value: T)

  datatype Result<+T> = Success(value: T) | Failure(error: Error)

  /** The error of a result, as the Go `err` return value. */
  function ErrorOf<T>(r: Result<T>): (e: Option<Error>)
    ensures e.None? <==> r.Success?
    ensures e.Some? ==> e.value == r.error
  {
    if r.Success? then None else Some(r.error)
  }

  /** The errors the package defines, the two end-of-stream errors of Go's
      `io` package, and `Foreign(tag)` for any other error value produced by
      code outside the package (a reader, a writer, the scrypt library),
      which the pipe only passes on. */
  datatype Error =
    | ErrUnsupported
    | ErrUnsafe
    | ErrRead
    | ErrWrite
    | EOF
    | UnexpectedEOF
    | Foreign(tag: nat)

  function Min(a: int, b: int): (r: int) { if a <= b then a else b }

  /** `cnt++` on a `uint64`: wraps to 0 after the largest value. */
  function Inc(c: u64): (r: u64)
    ensures r == (c + 1) % TwoTo64
  {
    if c == TwoTo64 - 1 then 0 else c + 1
  }

  /** A freshly made Go byte slice or array of length n. */
  function Zeros(n: nat): (r: seq<byte>)
    ensures |r| == n && forall i :: 0 <= i < n ==> r[i] == 0
  {
    seq(n, _ => 0)
  }

  /** `bytes.Equal(make([]byte, len(s)), s)`. */
  predicate AllZero(s: seq<byte>)
  {
    forall i :: 0 <= i < |s| ==> s[i] == 0
  }

  /** Go's `copy(dst, src)`: overwrites the first min(|dst|, |src|) bytes of
      dst with those of src; dst keeps its length. */
  function CopyPrefix(dst: seq<byte>, src: seq<byte>): (r: seq<byte>)
    ensures |r| == |dst|
    ensures forall i :: 0 <= i < |r| ==> r[i] == if i < |src| then src[i] else dst[i]
    ensures |src| == |dst| ==> r == src
  {
    var m := Min(|dst|, |src|);
    src[..m] + dst[m..]
  }
}
