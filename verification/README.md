# naclpipe in Dafny

A model of the `naclpipe` package (`crypto.go`): a password-keyed pipe that
turns a byte stream into NaCl secretbox (XSalsa20-Poly1305) boxes and back.
A `NaclPipe` picks a key-derivation profile from an integer selector
(`initialize`), derives a 32-byte key from a password and a salt with scrypt
(RFC 7914) or Argon2id (RFC 9106) after checking both (`deriveKey`), and
computes the nonce of each box as the first 24 bytes of SHA3-256 (FIPS 202)
over the decimal digits of a 64-bit block counter (`shazam`). A writer
(`NewWriter`/`Write`) takes its salt from the random source, sends it ahead of
the first box, and seals each `Write` into one box 16 bytes longer than the
chunk. A reader (`NewReader`/`Read`) takes the salt from its source, and for
each `Read` into a buffer `p` requests `len(p)+16` bytes with a full read,
opens them under the nonce of its counter and moves the counter only when the
box opens.

Layout, one module per file:

- `base.dfy` (`Base`): bytes, `uint64` counters with wrap-around (`Inc`),
  `Option`, `Result`, the error values, Go's `copy` (`CopyPrefix`).
- `io.dfy` (`Io`): the reader and writer the pipe sits on. `Source` holds the
  bytes still to be delivered, hands out at most `chunk` bytes per `Read` and
  then fails with `tailErr` (`EOF` for a clean end); `ReadFull` is Go's
  `io.ReadFull`, loop and all; `Sink` appends what it accepts and, when
  bounded, fails with `failErr` once full.
- `primitives.dfy` (`Primitives`): the library calls (SHA3-256, secretbox
  seal/open, scrypt, Argon2id) as function values in a `Crypto` record, with
  `Crypto.Valid` listing what the pipe relies on: digests are 32 bytes, a box
  is 16 bytes longer than its message, a box opens under its own nonce and
  key to its message, an opened message is 16 bytes shorter than the box,
  derived keys have the requested length, scrypt failures are foreign errors.
  Every member of the pipe is proved for every `Crypto` with these
  properties.
- `profiles.dfy` (`Profiles`): the constants, the parameter records and the
  selector table of `initialize`.
- `kdf.dfy` (`Kdf`): the checks and dispatch of `deriveKey` as a function.
- `nonces.dfy` (`Nonces`): decimal rendering, its inverse, and the nonce.
- `framing.dfy` (`Framing`): the boxes a writer emits for a list of chunks,
  and the lemmas that keep a reader's counter in step with the writer's.
- `pipe.dfy` (`Pipe`): the `NaclPipe` class with its fields (`dKey`,
  `cntNonce`, `cnt`, `salt`, `params`, `rd`, `wr`), the constructors, `Read`,
  `Write`, and round trips of one and of two chunks, the second proved
  through the same reader/writer lemmas applied to the pipe's own `Read`
  and `Write`.

The selectors come from `iota` in the constant block of `crypto.go`:
`DerivateScrypt` = 13, `DerivateArgon2id` = 14, `DerivateScrypt010` = 15;
any other value gets Argon2id.

Behaviour of the code that the model keeps, where it departs from the intended
design of the system (the code is followed):

- `Write` does not skip an empty chunk: it seals it into a 16-byte box and
  moves the counter. `Read` into an empty buffer returns at once and
  consumes nothing, so a reader cannot take that box off the wire with a
  buffer of the chunk's size: an empty chunk puts reader and writer out of
  step.
- `Write` moves the counter before the box is handed to the sink, whether or
  not the sink takes it, and returns `len(p)` with the sink's error; a short
  sink write is not turned into `ErrWrite`.
- `initReader` reads the salt with a single `Read` and does not look at how
  many bytes came back: a source that delivers the salt in pieces leaves
  zeros in the salt buffer, the salt still passes the checks, and the key is
  derived from a salt the writer never used (`Pipe.ShortSaltReadUndetected`).
  The intended design reads exactly `saltLength` bytes.
- `deriveKey` checks its `salt` argument but stretches the key from the
  pipe's `salt` field; every caller passes the field itself, so the two
  agree (`Kdf.KeyIgnoresCheckedSalt`).
- The counter is a `uint64`: after 2^64 - 1 it wraps to 0, and a writer
  whose counter is 0 sends the salt again. Within 2^64 consecutive boxes no
  two counters share a decimal string (`Nonces.NonceInputsDistinct`).
- A box shorter than the 16-byte overhead is not a separate error: it fails
  to open and `Read` returns `ErrRead`.

## Model

| member | source | states |
|---|---|---|
| `Base.Inc` | crypto.go:289 | `cnt++` on a `uint64` counter: the next value modulo 2^64 |
| `Base.CopyPrefix` | crypto.go:288 | Go's `copy(dst, src)`: dst keeps its length, its first min(len) bytes become src's, the rest stay; equal lengths give src |
| `Io.FullReadError` | crypto.go:280 | `io.ReadFull`'s error: none exactly when the buffer is full; at the end of the stream `EOF` when nothing was read and `UnexpectedEOF` when some but not all bytes were; any other reader error is passed on |
| `Io.Source.Read` | crypto.go:223 | one reader call: delivers a prefix of the pending bytes, at most the buffer size; fails only when nothing is delivered to a non-empty buffer |
| `Io.ReadFull` | crypto.go:280 | `io.ReadFull(rd, b)`: the bytes read are the first min(len(b), available) pending bytes, exactly those are consumed, and the error is `FullReadError` |
| `Io.Sink.Write` | crypto.go:366 | one writer call: appends the accepted prefix of b to the sink, fails with the sink's error when not all of b was accepted |
| `Io.Taken` | crypto.go:379 | how much of a write a sink accepts: never more than offered, all of it when unbounded, never beyond capacity |
| `Primitives.ShortBoxNeverOpens` | crypto.go:286 | secretbox open fails on a box shorter than the 16-byte overhead |
| `Profiles.Select` | crypto.go:127-161 | every selector gives a set parameter record with a 32-byte key; scrypt exactly for 13 and 15; a 16-byte salt buffer exactly for 15, 32 bytes otherwise; any other selector gives Argon2id |
| `Profiles.ProfileTable` | crypto.go:54-83 | the numbers: 15 gives scrypt(16384, 8, 1) with a 16-byte salt, 13 gives scrypt(65536, 16, 4) with a 32-byte salt, anything else Argon2id(2, 262144, 8), all with 32-byte keys |
| `Kdf.DeriveKey` | crypto.go:164-200 | `ErrUnsafe` exactly when the password is under 5 bytes, the salt under 12 bytes or all zero, checked before the parameters are looked at; then `ErrUnsupported` for unset parameters; a derived key has the requested length; Argon2id never fails on safe input |
| `Kdf.KeyIgnoresCheckedSalt` | crypto.go:174-193 | the checked salt argument only gates the derivation: two salts that pass the checks give the same outcome |
| `Nonces.Decimal` | crypto.go:207 | `fmt.Sprintf("%d", cnt)` as bytes: a non-empty string of ASCII digits with no leading zero; the only string starting with `0` is `"0"`, the rendering of 0 |
| `Nonces.DecimalRoundTrip` | crypto.go:207 | reading the decimal rendering back gives the number |
| `Nonces.DecimalInjective` | crypto.go:207 | distinct counters render to distinct strings |
| `Nonces.Nonce` | crypto.go:205-211 | the nonce of a counter is 24 bytes, taken from the SHA3-256 digest of its decimal rendering and of nothing else |
| `Nonces.NonceInputsDistinct` | crypto.go:203-211 | within 2^64 consecutive boxes no two counters hash the same string |
| `Framing.StreamLength` | crypto.go:374-379 | the boxes for a list of chunks, the i-th under counter c0 + i, are as long as the chunks plus 16 bytes per chunk |
| `Framing.StreamSingle` | crypto.go:374-379 | one `Write` call emits exactly one box: the stream of a single chunk is its box under c0 |
| `Framing.StreamSnoc` | crypto.go:374-379 | one more `Write` appends one box under the next counter to the stream |
| `Framing.StreamPair` | crypto.go:374-379 | two `Write` calls: the stream of two chunks is the stream of the first under c0 followed by the stream of the second under the next counter |
| `Framing.StreamCons` | crypto.go:374-379 | a stream is its first box under c0 followed by the stream of the rest from the next counter |
| `Framing.NextBlock` | crypto.go:274-290 | reader/writer synchronisation: asking for len(chunk)+16 bytes of a stream takes exactly the next box, it opens under the reader's counter to the chunk, and the rest is the stream from the next counter |
| `Pipe.SaltAfterOneRead` | crypto.go:223 | the salt buffer after one `Read`: its length is kept, the bytes delivered (at most the buffer, the reader's chunk and what is pending) come first, zeros stay after them; a read that delivers the whole salt gives the sent salt |
| `Pipe.ShortSaltReadUndetected` | crypto.go:222-229 | a source that delivers one byte per call leaves a salt different from the sent one that still passes every check of `deriveKey` |
| `Pipe.NaclPipe.constructor` | crypto.go:252 | `new(NaclPipe)`: every field at its zero value, parameters unset, no source or sink |
| `Pipe.NaclPipe.Initialize` | crypto.go:127-161 | counter 0, zeroed 32-byte key and 24-byte nonce buffers, the selected profile and a zeroed salt buffer of its size |
| `Pipe.NaclPipe.DeriveKey` | crypto.go:164-200 | the outcome of `Kdf.DeriveKey` on the argument salt and the salt field; the key field changes only on success |
| `Pipe.NaclPipe.Shazam` | crypto.go:205-211 | the nonce buffer holds the nonce of the current counter; nothing else changes |
| `Pipe.NaclPipe.InitReader` | crypto.go:219-235 | one `Read` into the salt buffer, its error returned unchanged; then the derivation error returned unchanged; the source is attached and the key stored only when both succeed |
| `Pipe.NaclPipe.InitWriter` | crypto.go:309-326 | a full random read into the salt buffer, its error returned unchanged; then the derivation error; the sink is attached and the key stored only when both succeed |
| `Pipe.NaclPipe.Read` | crypto.go:268-294 | empty buffer: (0, nil), nothing consumed, counter kept; otherwise exactly len(p)+16 bytes requested, any source error but `UnexpectedEOF` returned with the byte count and the counter kept; a box that does not open gives (0, `ErrRead`) and the counter kept; one that opens puts its plaintext (at most len(p) bytes) at the front of p, returns its length and moves the counter by one |
| `Pipe.NaclPipe.Write` | crypto.go:360-386 | at counter 0 the salt goes first and a sink failure on it is returned with nothing sealed and the counter kept; otherwise the chunk (even empty) is sealed under the current counter's nonce, the counter moves by one whatever the sink does, and len(p) is returned with the sink's error; on success the sink gained the salt (at counter 0) and exactly one box |
| `Pipe.NaclPipe.WriteAccepted` | crypto.go:360-386 | `Write` to a sink that accepts every byte never fails and returns len(p): the sink gains the salt (at counter 0) and exactly the stream of the one chunk from the current counter, and the counter moves by one |
| `Pipe.NaclPipe.WritePairAccepted` | crypto.go:360-386 | two `Write` calls from counter 0 to a sink that accepts every byte: the sink gains the salt and then the stream of both chunks from counter 0, and the counter is 2 |
| `Pipe.NaclPipe.ReadInStep` | crypto.go:268-294 | an empty buffer: success with nothing consumed and the counter kept; `Read` in step with the writer: when the source holds the boxes of chunks from the reader's counter on and the buffer has the first chunk's non-zero size, it succeeds, fills the buffer with that chunk, moves the counter by one and leaves exactly the boxes of the remaining chunks |
| `Pipe.NewReader` | crypto.go:243-265 | a fresh reader pipe at counter 0 with the salt from one source read and the derived key, or the source or derivation error and no pipe |
| `Pipe.NewWriter` | crypto.go:334-357 | too few random bytes for the salt: the `io.ReadFull` error and no pipe; otherwise exactly the salt's bytes are consumed and the result is a fresh writer pipe at counter 0 with those bytes as salt and the derived key, or the derivation error and no pipe |
| `Pipe.WriteOnce` | crypto_test.go:506-515 | a writer exists exactly when the random bytes fill the salt and the key derives; the wire is then the salt followed by one box under counter 0 |
| `Pipe.ReadOnce` | crypto_test.go:517-527 | a reader over a checked salt and one box of the buffer's size returns what the box opens to under counter 0, or `ErrRead` |
| `Pipe.MemoryWriter` | crypto_test.go:505-509 | a writer over an in-memory sink with its salt from given bytes: too few bytes give an error; otherwise the derivation error, or a fresh writer at counter 0 whose salt is those bytes and whose key is derived from them |
| `Pipe.MemoryReader` | crypto_test.go:517-521 | a reader over given bytes: when they start with a salt from which the key derives, a fresh reader at counter 0 with that key whose source holds the rest |
| `Pipe.WriteTwice` | crypto.go:360-386 | two `Write` calls on a fresh writer: it exists exactly when the random bytes fill the salt and the key derives; the wire is then the salt followed by the box of the first chunk under counter 0 and of the second under counter 1 |
| `Pipe.ReadTwice` | crypto.go:268-294 | two `Read` calls on a fresh reader over a checked salt and the boxes of two chunks from counter 0, the first not empty: they return the first chunk and then the second |
| `Pipe.WriteTwiceThenReadTwice` | crypto_test.go:486-541 | round trip over two chunks: whenever the writer can be built and the first chunk is not empty, a reader with the same password and profile returns the first chunk and then the second |
| `Pipe.WriteThenRead` | crypto_test.go:486-541 | round trip: whenever the writer can be built, a reader with the same password and profile returns exactly the written chunk |

## Left out

- The cryptographic primitives (`scrypt.Key`, `argon2.IDKey`, `sha3.Sum256`, `secretbox.Seal`/`Open`) are foreign library calls; they are parameters with the properties listed above. Their security (tamper detection, wrong-password rejection, collision resistance) is not modelled, so no statement is made about forged boxes or about nonces being distinct once hashed.
- `crypto/rand` is a `Source` passed to `NewWriter`; `rand.Read` is modelled as the full read it performs, not as randomness.
- `Io.Source.Read`: a reader that returns bytes and an error from the same call, or zero bytes with no error, is not modelled; the source fails only once its bytes are exhausted.
- `Io.Sink.Write`: a writer that reports a short write without an error is not modelled.
- `writeSalt` (crypto.go:302-307) is unused by the package and only prints; the `fmt.Fprintf` diagnostic in `Write` (crypto.go:381) is output only.
- The byte-level contents of the 24-byte nonce and 32-byte key arrays as pointers (`*[24]byte`, `*[32]byte`) are modelled as sequences; a nil key or nonce array of a pipe `initialize` never ran on makes `shazam` panic, so `Read` and `Write` are only modelled on an attached pipe.
- The exported `NewReader`/`NewWriter` wrappers return the same as `newCryptoReader`/`newCryptoWriter`, so one member models each pair.
- The command-line program (cmd/np/main.go), the earlier standalone program (main.go), the earlier reader and writer (read.go, write.go) and the logger (logutil.go) are not part of this model.
- Pipe.WriteTwiceThenReadTwice: promises the round trip only when the first chunk is not empty, because a `Read` into an empty buffer does not consume the 16-byte box of an empty chunk (crypto.go:270-272), and the second `Read` then meets that box; the model states no more for that case. Longer sequences of chunks follow the same two lemmas (`Framing.NextBlock`, `Framing.StreamSnoc`) but are not stated as a member.
- Concurrency: a pipe is used by one caller at a time; nothing about concurrent use is modelled.
