/** The key-derivation front end of `deriveKey`: input checks in a fixed
    order, then dispatch on the parameter set. */
module Kdf {
  import opened Base
  import opened Profiles
  import opened Primitives

  const MinPasswordLength: nat := 5
  const MinSaltLength: nat := 12

  /** The checks `deriveKey` makes on its arguments before anything else. */
  predicate Unsafe(salt: seq<byte>, password: seq<byte>)
  {
    |password| < MinPasswordLength || |salt| < MinSaltLength || AllZero(salt)
  }

  /** `deriveKey(salt, password)` on a pipe whose `params` is `params` and
      whose `salt` field is `keySalt`. The `salt` argument is only checked;
      the key is stretched from `keySalt`. */
  function DeriveKey(lib: Crypto, params: Params, salt: seq<byte>, keySalt: seq<byte>, password: seq<byte>): (r: Result<seq<byte>>)
    requires lib.Valid()
    ensures r == Failure(ErrUnsafe) <==> Unsafe(salt, password)
    ensures !Unsafe(salt, password) && params.Unset? ==> r == Failure(ErrUnsupported)
    ensures r.Success? ==> |r.value| == KeyLen(params)
    ensures r.Failure? && !Unsafe(salt, password) ==> r.error == ErrUnsupported || r.error.Foreign?
    ensures params.Argon2? ==> (r.Success? <==> !Unsafe(salt, password))
  {
    if |password| < MinPasswordLength then Failure(ErrUnsafe)
    else if |salt| < MinSaltLength then Failure(ErrUnsafe)
    else if AllZero(salt) then Failure(ErrUnsafe)
    else
      match params
      case Scrypt(v) => lib.scrypt(password, keySalt, v)
      case Argon2(v) => Success(lib.argon2(password, keySalt, v))
      case Unset => Failure(ErrUnsupported)
  }

  /** The salt argument matters only through the checks: two salts that both
      pass them give the same outcome. */
  lemma KeyIgnoresCheckedSalt(lib: Crypto, params: Params, s1: seq<byte>, s2: seq<byte>, keySalt: seq<byte>, password: seq<byte>)
    requires lib.Valid()
    requires !Unsafe(s1, password) && !Unsafe(s2, password)
    ensures DeriveKey(lib, params, s1, keySalt, password) == DeriveKey(lib, params, s2, keySalt, password)
  {
  }
}
