/** The key-derivation profiles a pipe can be built with, and the table
    `initialize` uses to pick one from an integer selector. */
module Profiles {

  // Cost parameters of the previous scrypt profile (`DerivateScrypt010`).
  const OldScryptCostParam: int := 16384
  const OldScryptCostN: int := 8
  const OldScryptCostP: int := 1

  // Cost parameters of the current scrypt profile.
  const ScryptCostParam: int := 65536
  const ScryptCostN: int := 16
  const ScryptCostP: int := 4

  // Cost parameters of the Argon2id profile.
  const ArgonCostTime: nat := 2
  const ArgonCostMemory: nat := 256 * 1024
  const ArgonCostThread: nat := 8

  const KeyLength: nat := 32
  const SaltLength: nat := 32
  const OldSaltLength: nat := 16

  // Selectors: `iota` is 13 at the first of them in their constant block.
  const DerivateScrypt: int := 13
  const DerivateArgon2id: int := 14
  const DerivateScrypt010: int := 15

  datatype ScryptParams = ScryptParams(costParam: int, costN: int, costP: int, saltLen: int, keyLength: int)

  /** Fields are Go `uint32`, `uint32`, `uint8`, `uint32`. */
  datatype Argon2Params = Argon2Params(costTime: nat, costMemory: nat, costThreads: nat, keyLength: nat)

  /** The pipe's `params` field: a scrypt or an Argon2id parameter set, or
      `Unset` for the nil interface of a pipe `initialize` never ran on. */
  datatype Params = Scrypt(s: ScryptParams) | Argon2(a: Argon2Params) | Unset

  /** A parameter set together with the length of the salt buffer. */
  datatype Profile = Profile(params: Params, saltLen: nat)

  /** The length of key a parameter set asks for (0 when unset). */
  function KeyLen(p: Params): (r: int)
  {
    match p
    case Scrypt(s) => s.keyLength
    case Argon2(a) => a.keyLength
    case Unset => 0
  }

  /** The profile `initialize` picks for selector d; any selector it does not
      know gets Argon2id. */
  function Select(d: int): (r: Profile)
    ensures !r.params.Unset?
    ensures KeyLen(r.params) == KeyLength
    ensures r.params.Scrypt? <==> d == DerivateScrypt || d == DerivateScrypt010
    ensures r.saltLen == OldSaltLength <==> d == DerivateScrypt010
    ensures r.saltLen in {OldSaltLength, SaltLength}
    ensures r.params.Scrypt? ==> r.params.s.saltLen == r.saltLen
  {
    if d == DerivateScrypt010 then
      Profile(Scrypt(ScryptParams(OldScryptCostParam, OldScryptCostN, OldScryptCostP, OldSaltLength, KeyLength)), OldSaltLength)
    else if d == DerivateScrypt then
      Profile(Scrypt(ScryptParams(ScryptCostParam, ScryptCostN, ScryptCostP, SaltLength, KeyLength)), SaltLength)
    else
      Profile(Argon2(Argon2Params(ArgonCostTime, ArgonCostMemory, ArgonCostThread, KeyLength)), SaltLength)
  }

  /** The three parameter sets as numbers. */
  lemma ProfileTable(d: int)
    ensures d == 15 ==> Select(d) == Profile(Scrypt(ScryptParams(16384, 8, 1, 16, 32)), 16)
    ensures d == 13 ==> Select(d) == Profile(Scrypt(ScryptParams(65536, 16, 4, 32, 32)), 32)
    ensures d != 13 && d != 15 ==> Select(d) == Profile(Argon2(Argon2Params(2, 262144, 8, 32)), 32)
  {
  }
}
