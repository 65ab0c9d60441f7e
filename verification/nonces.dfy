/** The nonce rule of `shazam`: the nonce for block counter c is the first
    24 bytes of SHA3-256 over the decimal digits of c. */
module Nonces {
  import opened Base
  import opened Primitives

  const Zero: byte := 48  // '0'

  predicate IsDigit(b: byte) { Zero <= b <= Zero + 9 }

  /** `fmt.Sprintf("%d", x)` as bytes: ASCII digits, no sign, no leading zero. */
  function Decimal(x: nat): (r: seq<byte>)
    ensures |r| >= 1
    ensures forall i :: 0 <= i < |r| ==> IsDigit(r[i])
    ensures r[0] == Zero ==> x == 0 && r == [Zero]
    decreases x
  {
    if x < 10 then [Zero + x] else Decimal(x / 10) + [Zero + x % 10]
  }

  /** The value of a string of ASCII digits, read most significant first. */
  function DecimalValue(s: seq<byte>): (r: nat)
    requires forall i :: 0 <= i < |s| ==> IsDigit(s[i])
  {
    if s == [] then 0
    else
      assert IsDigit(s[|s| - 1]);
      DecimalValue(s[..|s| - 1]) * 10 + (s[|s| - 1] as int - Zero as int)
  }

  /** Reading the rendering back gives the number. */
  lemma {:induction false} DecimalRoundTrip(x: nat)
    ensures DecimalValue(Decimal(x)) == x
    decreases x
  {
    if x >= 10 {
      var r := Decimal(x);
      assert r[..|r| - 1] == Decimal(x / 10);
      DecimalRoundTrip(x / 10);
    }
  }

  /** Distinct counters are hashed from distinct strings. */
  lemma DecimalInjective(a: nat, b: nat)
    ensures Decimal(a) == Decimal(b) ==> a == b
  {
    DecimalRoundTrip(a);
    DecimalRoundTrip(b);
  }

  /** The nonce for block counter c. */
  function Nonce(lib: Crypto, c: u64): (r: seq<byte>)
    requires lib.Valid()
    ensures |r| == NonceSize
  {
    lib.sha3(Decimal(c))[..NonceSize]
  }

  /** The counter of the i-th block of a stream whose first block used c0. */
  function CounterAt(c0: u64, i: nat): (r: u64)
  {
    (c0 + i) % TwoTo64
  }

  /** Within 2^64 consecutive blocks no two blocks hash the same counter
      string, so no two of them can share a nonce unless SHA3-256 collides. */
  lemma NonceInputsDistinct(c0: u64, i: nat, j: nat)
    requires i < j < TwoTo64
    ensures Decimal(CounterAt(c0, i)) != Decimal(CounterAt(c0, j))
  {
    DecimalInjective(CounterAt(c0, i), CounterAt(c0, j));
    assert CounterAt(c0, i) != CounterAt(c0, j) by {
      if c0 + j < TwoTo64 {
      } else if c0 + i < TwoTo64 {
        assert CounterAt(c0, j) == c0 + j - TwoTo64 < c0;
      } else {
      }
    }
  }
}
