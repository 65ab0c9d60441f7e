/** The cryptographic library calls the pipe makes: SHA3-256 (FIPS 202),
    NaCl secretbox (XSalsa20-Poly1305) seal and open, scrypt (RFC 7914) and
    Argon2id (RFC 9106). They are not modelled; the pipe is parameterised by
    any collection of functions with the properties `Valid` lists. */
module Primitives {
  import opened Base
  import opened Profiles

  /** Bytes secretbox adds to every box (`secretbox.Overhead`). */
  const Overhead: nat := 16

  /** Bytes of a secretbox nonce. */
  const NonceSize: nat := 24

  /** Bytes of a SHA3-256 digest. */
  const DigestSize: nat := 32

  datatype Crypto = Crypto(
    sha3: seq<byte> -> seq<byte>,
    // seal(message, nonce, key)
    seal: (seq<byte>, seq<byte>, seq<byte>) -> seq<byte>,
    // open(box, nonce, key)
    open: (seq<byte>, seq<byte>, seq<byte>) -> Option<seq<byte>>,
    // scrypt.Key(password, salt, N, r, p, keyLen)
    scrypt: (seq<byte>, seq<byte>, ScryptParams) -> Result<seq<byte>>,
    // argon2.IDKey(password, salt, time, memory, threads, keyLen)
    argon2: (seq<byte>, seq<byte>, Argon2Params) -> seq<byte>)
  {
    /** The properties of the library the pipe depends on. */
    ghost predicate Valid()
    {
      (forall m :: |sha3(m)| == DigestSize) &&
      (forall m, n, k :: |seal(m, n, k)| == |m| + Overhead) &&
      (forall m, n, k :: open(seal(m, n, k), n, k) == Some(m)) &&
      (forall b, n, k :: open(b, n, k).Some? ==> |open(b, n, k).value| + Overhead == |b|) &&
      (forall pw, s, v :: scrypt(pw, s, v).Success? ==> |scrypt(pw, s, v).value| == v.keyLength) &&
      (forall pw, s, v :: scrypt(pw, s, v).Failure? ==> scrypt(pw, s, v).error.Foreign?) &&
      (forall pw, s, v :: |argon2(pw, s, v)| == v.keyLength)
    }
  }

  /** A box shorter than the overhead never opens. */
  lemma ShortBoxNeverOpens(lib: Crypto, b: seq<byte>, n: seq<byte>, k: seq<byte>)
    requires lib.Valid()
    requires |b| < Overhead
    ensures lib.open(b, n, k) == None
  {
  }
}
