# ChaCha20 in obfuscated-TLS, modelled in Dafny

This project models the ChaCha20 stream cipher as
`no-longer-standard/obfuscated-TLS/crypto/chacha.h` implements it. The code there is adapted
from OpenSSL 1.1.0g. The model has three layers, each proved against a
specification function:

- **The block function** (`chacha20_core` with the `QUARTERROUND`, `ROTATE`,
  `CHACHA_U8TOU32` and `U32TO8_LITTLE` macros). It is modelled in modules
  `Bytes` (bytes.dfy) and `ChaChaCore` (core.dfy). The in-place loops over the
  16-word array `x` and the 64-byte output are methods on arrays. They are
  proved equal to the pure function `Block`: ten double rounds, the input
  added back modulo 2^32, and little-endian serialisation.
  - The quarter round and the rounds are proved invertible.
  - `Vectors` (vectors.dfy) proves the block test vector of section 2.3.2 of
    RFC 8439 pass by pass.
- **`ChaCha20_ctr32`** (module `Ctr32`, ctr32.dfy). It builds the block input
  from sigma, the eight key words and the four counter words. It then xors
  the message with one keystream block per 64 bytes and increments word 12
  after each block. The carry is never propagated, so the counter wraps
  modulo 2^32. The method is proved equal to the function `Ctr32Xor`, and
  the properties of that function are proved as lemmas: the byte-wise form,
  the wrap and the involution.
- **The cipher engine** (module `Engine`, engine.dfy). It models
  `EVP_CHACHA_KEY`, `chacha_init_key` and `chacha_cipher`.
  - The class `ChaChaKey` holds the key words, the four counter words, the
    64-byte buffer and `partialLen`.
  - Ghost fields name the stream the context is in: the counter at the last
    key setup (`origin`), the number of bytes produced since then (`pos`), and
    the block the counter is at.
  - `Cipher` is proved to write the input xored with keystream bytes
    `pos .. pos + len - 1` and to advance `pos` by `len`. The keystream is
    `StreamByte`, which steps words 0 and 1 of the counter as one carried
    64-bit block counter. Together with `EngineXorSplit`, this makes the
    output independent of how the input is cut into calls.
  - The batch loop cuts each batch where word 0 of the counter wraps.
    `CarryAvoidsRepeat` proves why: a single `ChaCha20_ctr32` call crossing
    the wrap would repeat its keystream.

Words inside the permutation are `bv32`. Counter words in the engine are
integers in `[0, 2^32)`, and the engine's own counter arithmetic
(`ctr32 += blocks`, the carry into word 1) is written modulo 2^32 on those
integers. The function `Unsigned.Trunc` (unsigned.dfy) turns a counter
number into the unsigned 32-bit word it is when it enters the block input
(chacha.h:120-123); its wrap-around, which `input[12]++` relies on
(chacha.h:144), is proved there.

The code leaves `partial_len` at 64 when a call ends exactly at the end of
the buffered block, and increments the counter only on the next call
(chacha.h:194-209). So the engine's invariant is `partialLen <= 64`, not
`< 64`.

## Model

| member | source | states |
|---|---|---|
| Unsigned.TruncInc | no-longer-standard/obfuscated-TLS/crypto/chacha.h:144 | the cast to unsigned int commutes with adding one: `(unsigned int)(n + 1)` is the word after `(unsigned int)n` |
| Unsigned.TruncDouble | no-longer-standard/obfuscated-TLS/crypto/chacha.h:144 | the cast of 2n is the cast of n shifted left by one |
| Unsigned.TruncWrap | no-longer-standard/obfuscated-TLS/crypto/chacha.h:144 | 2^32 casts to zero |
| Unsigned.TruncPeriodic | no-longer-standard/obfuscated-TLS/crypto/chacha.h:144 | the cast sees its argument modulo 2^32 only |
| Unsigned.TruncValue | no-longer-standard/obfuscated-TLS/crypto/chacha.h:120-123 | every 32-bit word is the cast of a number, so the cast lemmas apply to every counter word |
| Unsigned.Load | no-longer-standard/obfuscated-TLS/crypto/chacha.h:29-31 | four bytes read least significant first give an unsigned int, in `[0, 2^32)` |
| Unsigned.LoadDigit0 | no-longer-standard/obfuscated-TLS/crypto/chacha.h:29-31 | the lowest base-256 digit of the loaded number is p[0] |
| Unsigned.LoadDigit1 | no-longer-standard/obfuscated-TLS/crypto/chacha.h:29-31 | the second base-256 digit is p[1] |
| Unsigned.LoadDigit2 | no-longer-standard/obfuscated-TLS/crypto/chacha.h:29-31 | the third base-256 digit is p[2] |
| Unsigned.LoadDigit3 | no-longer-standard/obfuscated-TLS/crypto/chacha.h:29-31 | the top base-256 digit is p[3] |
| Unsigned.LoadGather | no-longer-standard/obfuscated-TLS/crypto/chacha.h:29-31 | the number CHACHA_U8TOU32 reads, cast to unsigned int, is the word it reads: the integer and the bit-vector readings agree |
| Bytes.Store32 | no-longer-standard/obfuscated-TLS/crypto/chacha.h:50-55 | U32TO8_LITTLE gives four bytes that CHACHA_U8TOU32 gathers back to the word |
| Bytes.StoreGather | no-longer-standard/obfuscated-TLS/crypto/chacha.h:29-31 | CHACHA_U8TOU32 loses nothing: storing the gathered word gives back the four bytes |
| Bytes.GatherAt | no-longer-standard/obfuscated-TLS/crypto/chacha.h:174-176 | word i of a byte string read as little-endian words is gathered from bytes 4i .. 4i+3 |
| Bytes.WordsToBytesAt | no-longer-standard/obfuscated-TLS/crypto/chacha.h:92-93 | bytes 4i .. 4i+3 of the serialisation are the bytes of word i |
| Bytes.WordsRoundTrip | no-longer-standard/obfuscated-TLS/crypto/chacha.h:92-93 | reading the serialised words back gives the words |
| Bytes.BytesRoundTrip | no-longer-standard/obfuscated-TLS/crypto/chacha.h:174-176 | serialising the words read from a byte string gives the byte string back |
| ChaChaCore.RotateIsRotateLeft | no-longer-standard/obfuscated-TLS/crypto/chacha.h:48 | ROTATE's shift-or form, for 0 < n < 32, is the circular left rotation by n |
| ChaChaCore.QuarterRoundTestVector | no-longer-standard/obfuscated-TLS/crypto/chacha.h:58-62 | the quarter round gives the output of the test vector in section 2.1.1 of RFC 8439 |
| ChaChaCore.QuarterRoundInverse | no-longer-standard/obfuscated-TLS/crypto/chacha.h:58-62 | the quarter round is undone by its inverse: its four words determine its input |
| ChaChaCore.QuarterRoundAtInverse | no-longer-standard/obfuscated-TLS/crypto/chacha.h:58-62 | on four distinct positions, the quarter round on the state is undone by its inverse |
| ChaChaCore.QuarterRoundAtUnique | no-longer-standard/obfuscated-TLS/crypto/chacha.h:58-62 | a state that holds the quarter round at a, b, c, d and keeps every other word is QuarterRoundAt |
| ChaChaCore.QuarterRoundInPlace | no-longer-standard/obfuscated-TLS/crypto/chacha.h:58-62 | QUARTERROUND on the array x: positions a, b, c, d hold the quarter round of their old words, every other word is kept |
| ChaChaCore.DoubleRoundQuadDistinct | no-longer-standard/obfuscated-TLS/crypto/chacha.h:78-85 | each of the eight quarter rounds of a pass works on four distinct positions |
| ChaChaCore.ColumnRoundInPlace | no-longer-standard/obfuscated-TLS/crypto/chacha.h:78-81 | the four column quarter rounds leave the state after the first four quarter rounds of the pass |
| ChaChaCore.DiagonalRoundInPlace | no-longer-standard/obfuscated-TLS/crypto/chacha.h:82-85 | the four diagonal quarter rounds complete the double round |
| ChaChaCore.MixedAfterRounds | no-longer-standard/obfuscated-TLS/crypto/chacha.h:77-86 | the quarter rounds of a pass start from the state after the passes before it |
| ChaChaCore.RoundsLast | no-longer-standard/obfuscated-TLS/crypto/chacha.h:77-86 | r rounds are the double round applied after r - 2 rounds |
| ChaChaCore.RoundsFirst | no-longer-standard/obfuscated-TLS/crypto/chacha.h:77-86 | r rounds are r - 2 rounds applied after the first double round |
| ChaChaCore.UnmixedMixed | no-longer-standard/obfuscated-TLS/crypto/chacha.h:78-85 | the first k quarter rounds of a pass, undone last one first, give back the state |
| ChaChaCore.DoubleRoundInverse | no-longer-standard/obfuscated-TLS/crypto/chacha.h:78-85 | a double round is undone by its inverse |
| ChaChaCore.RoundsInverse | no-longer-standard/obfuscated-TLS/crypto/chacha.h:77-86 | the rounds are a permutation of the state: undoing them gives back the input |
| ChaChaCore.Permute | no-longer-standard/obfuscated-TLS/crypto/chacha.h:75-86 | the copy of the input after the loop holds the state after 20 rounds |
| ChaChaCore.StoreLittle | no-longer-standard/obfuscated-TLS/crypto/chacha.h:50-55 | the four bytes at p are those of the word, least significant first; nothing else changes |
| ChaChaCore.Serialize | no-longer-standard/obfuscated-TLS/crypto/chacha.h:88-94 | output byte 4i + k is byte k of x[i] + input[i] |
| ChaChaCore.BlockWords | no-longer-standard/obfuscated-TLS/crypto/chacha.h:88-94 | read back as little-endian words, the block is the state after 20 rounds plus the input |
| ChaChaCore.ChaCha20Core | no-longer-standard/obfuscated-TLS/crypto/chacha.h:66-95 | chacha20_core writes exactly the keystream block of its input |
| Vectors.RoundsVector | no-longer-standard/obfuscated-TLS/crypto/chacha.h:77-86 | the 20 rounds on the input of the test vector in section 2.3.2 of RFC 8439 give the published state |
| Vectors.KeyWordsVector | no-longer-standard/obfuscated-TLS/crypto/chacha.h:174-176 | the vector's key bytes 00 .. 1f read as the published key words |
| Vectors.InputVector | no-longer-standard/obfuscated-TLS/crypto/chacha.h:105-123 | sigma, key and counter laid out as block input give the vector's published initial state |
| Vectors.SerialVector | no-longer-standard/obfuscated-TLS/crypto/chacha.h:88-94 | the feed-forward and serialisation of the vector's state give the published 64 bytes |
| Vectors.BlockVector | no-longer-standard/obfuscated-TLS/crypto/chacha.h:66-95 | the block function on the key 00 .. 1f, block count 1 and nonce 00 00 00 09 00 00 00 4a 00 00 00 00 gives the published block 10 f1 e7 e4 ... |
| Ctr32.SigmaAscii | no-longer-standard/obfuscated-TLS/crypto/chacha.h:105-109 | the sigma bytes are the ASCII codes of "expand 32-byte k" |
| Ctr32.SigmaWords | no-longer-standard/obfuscated-TLS/crypto/chacha.h:105-109 | input[0..3] are the sigma bytes read as little-endian words |
| Ctr32.BlockInput | no-longer-standard/obfuscated-TLS/crypto/chacha.h:105-123 | input words 0-3 are sigma, 4-11 the key words, 12-15 the counter words |
| Ctr32.NextCounter | no-longer-standard/obfuscated-TLS/crypto/chacha.h:144 | input[12]++ adds one to counter word 0 modulo 2^32 and keeps words 1 to 3 |
| Ctr32.BlockInputNext | no-longer-standard/obfuscated-TLS/crypto/chacha.h:144 | incrementing input[12] gives the block input of the next counter |
| Ctr32.Ctr32XorFirst | no-longer-standard/obfuscated-TLS/crypto/chacha.h:126-133 | the output starts with the first todo = min(len, 64) bytes xored with the first block |
| Ctr32.Ctr32XorStep | no-longer-standard/obfuscated-TLS/crypto/chacha.h:125-145 | one pass of the loop keeps "output so far, then the output for the rest" |
| Ctr32.AdvanceKeepsNonce | no-longer-standard/obfuscated-TLS/crypto/chacha.h:138-144 | only word 0 of the counter moves; words 1 to 3 stay as given |
| Ctr32.AdvanceCast | no-longer-standard/obfuscated-TLS/crypto/chacha.h:144 | when word 0 is the cast of n, block k uses the cast of n + k |
| Ctr32.AdvanceWraps | no-longer-standard/obfuscated-TLS/crypto/chacha.h:138-144 | 2^32 blocks on, the counter is the same again |
| Ctr32.Ctr32XorAt | no-longer-standard/obfuscated-TLS/crypto/chacha.h:125-145 | output byte j is input byte j xored with byte j mod 64 of the block at counter word 0 plus j / 64 |
| Ctr32.Ctr32XorInvolution | no-longer-standard/obfuscated-TLS/crypto/chacha.h:97-146 | applying ChaCha20_ctr32 twice with the same key and counter gives back the input |
| Ctr32.Ctr32XorZeros | no-longer-standard/obfuscated-TLS/crypto/chacha.h:247-249 | on 64 zero bytes the output is the keystream block itself |
| Ctr32.XorPad | no-longer-standard/obfuscated-TLS/crypto/chacha.h:132-133 | out[i] = inp[i] ^ buf[i] for the first len bytes, and nothing else changes |
| Ctr32.ChaCha20Ctr32 | no-longer-standard/obfuscated-TLS/crypto/chacha.h:97-146 | writes exactly len bytes at out, equal to Ctr32Xor of the input, and changes nothing else |
| Engine.BlockNumber | no-longer-standard/obfuscated-TLS/crypto/chacha.h:206-208 | counter words 0 and 1 form a block number below 2^64 |
| Engine.CounterOfNumber | no-longer-standard/obfuscated-TLS/crypto/chacha.h:206-208 | the block number and the two nonce words determine the counter |
| Engine.Increment | no-longer-standard/obfuscated-TLS/crypto/chacha.h:206-208 | counter[0]++ with the carry into counter[1] adds one to the 64-bit block number modulo 2^64 and keeps words 2 and 3 |
| Engine.CounterAtNumber | no-longer-standard/obfuscated-TLS/crypto/chacha.h:204-209 | k blocks on, the block number has moved by k modulo 2^64 and the nonce words are kept |
| Engine.CounterAt64 | no-longer-standard/obfuscated-TLS/crypto/chacha.h:204-209 | the counter k blocks on is the 64-bit number split into two words next to the unchanged nonce |
| Engine.CounterAtNext | no-longer-standard/obfuscated-TLS/crypto/chacha.h:204-209 | one block further on is one Increment further on |
| Engine.CounterAtAdd | no-longer-standard/obfuscated-TLS/crypto/chacha.h:231-243 | a + b blocks on is b blocks on from a blocks on |
| Engine.CounterAtNoCarry | no-longer-standard/obfuscated-TLS/crypto/chacha.h:231 | while word 0 does not wrap, only word 0 moves |
| Engine.CounterAtCarry | no-longer-standard/obfuscated-TLS/crypto/chacha.h:232-243 | word 0 reaching 2^32 becomes zero and carries one into word 1 |
| Engine.BatchCounter | no-longer-standard/obfuscated-TLS/crypto/chacha.h:242-243 | `counter[0] = ctr32; if (ctr32 == 0) counter[1]++` is the counter a whole batch further on |
| Engine.BatchCounterAt | no-longer-standard/obfuscated-TLS/crypto/chacha.h:231-243 | the same, for the counter the stream is at |
| Engine.CarryAvoidsRepeat | no-longer-standard/obfuscated-TLS/crypto/chacha.h:225-235 | ChaCha20_ctr32's counter repeats 2^32 blocks on; the engine's carried counter does not |
| Engine.AdvanceWords | no-longer-standard/obfuscated-TLS/crypto/chacha.h:237 | before word 0 wraps, ChaCha20_ctr32's counter is the engine's carried counter |
| Engine.EngineXorSplit | no-longer-standard/obfuscated-TLS/crypto/chacha.h:188-256 | chunking invariance: xoring m1 + m2 at p is xoring m1 at p and then m2 at p + \|m1\| |
| Engine.EngineXorInvolution | no-longer-standard/obfuscated-TLS/crypto/chacha.h:188-256 | the same stream at the same place decrypts what it encrypted |
| Engine.Extend | no-longer-standard/obfuscated-TLS/crypto/chacha.h:238-240 | output holding the stream xor of inp[from..done], followed by that of inp[done..hi], holds that of inp[from..hi] |
| Engine.ExtendPrefix | no-longer-standard/obfuscated-TLS/crypto/chacha.h:238-240 | the same for a prefix of the output |
| Engine.NextBatch | no-longer-standard/obfuscated-TLS/crypto/chacha.h:216-235 | the batch is the whole blocks left, capped at 2^28, and cut to end exactly where word 0 wraps; ctr32 is word 0 after it |
| Engine.BlockByte | no-longer-standard/obfuscated-TLS/crypto/chacha.h:246-251 | byte n of the keystream block b blocks on is stream byte 64b + n |
| Engine.PadXor | no-longer-standard/obfuscated-TLS/crypto/chacha.h:195-198 | bytes xored with a block's keystream from offset n0 are the stream xor from place 64b + n0 |
| Engine.EngineXorIsCtr32 | no-longer-standard/obfuscated-TLS/crypto/chacha.h:237 | within one turn of word 0, ChaCha20_ctr32 from block b is the engine's stream from byte 64b |
| Engine.XorStream | no-longer-standard/obfuscated-TLS/crypto/chacha.h:195-198 | xoring with the buffered keystream from byte n0 puts the stream xor from place 64b + n0 at out, and nothing else changes |
| Engine.Ctr32Stream | no-longer-standard/obfuscated-TLS/crypto/chacha.h:237 | the ChaCha20_ctr32 call of a batch puts the stream xor from place 64b at out, and nothing else changes |
| Engine.FillKeyStream | no-longer-standard/obfuscated-TLS/crypto/chacha.h:247-249 | zeroing buf and encrypting it in place leaves the keystream block of the counter in buf |
| Engine.LoadCounter | no-longer-standard/obfuscated-TLS/crypto/chacha.h:178-181 | the iv read as four little-endian counter words, each an unsigned int |
| Engine.ReadKey | no-longer-standard/obfuscated-TLS/crypto/chacha.h:173-176 | the key loop leaves the 32 key bytes read as eight little-endian words |
| Engine.ReadCounter | no-longer-standard/obfuscated-TLS/crypto/chacha.h:178-181 | the iv loop leaves the 16 iv bytes read as four little-endian counter words |
| Engine.LoadCounterWords | no-longer-standard/obfuscated-TLS/crypto/chacha.h:178-181 | the counter read from the iv enters the block input as the iv's little-endian words |
| Engine.ChaChaKey.constructor | no-longer-standard/obfuscated-TLS/crypto/chacha.h:150-158 | a zeroed context is valid, with an empty buffer, at the start of its stream |
| Engine.ChaChaKey.InitKey | no-longer-standard/obfuscated-TLS/crypto/chacha.h:166-186 | a given key or iv is read little-endian and a missing one is kept; partial_len becomes 0, the stream restarts at the counter, and the result is 1 |
| Engine.ChaChaKey.Drain | no-longer-standard/obfuscated-TLS/crypto/chacha.h:194-199 | the rest of the buffered block xors the input's first bytes as stream bytes from pos on; partial_len grows by the count and reaches 64 unless the input ran out; the counter does not move |
| Engine.ChaChaKey.NextBlock | no-longer-standard/obfuscated-TLS/crypto/chacha.h:204-209 | a used-up buffer resets partial_len to 0 and increments the counter with the carry into word 1 |
| Engine.ChaChaKey.Batch | no-longer-standard/obfuscated-TLS/crypto/chacha.h:216-243 | one batch writes the stream xor of its whole blocks, and word 0 becomes ctr32 with the carry into word 1 when it is 0 |
| Engine.ChaChaKey.Step | no-longer-standard/obfuscated-TLS/crypto/chacha.h:215-244 | one pass of the batch loop extends the stream xor over the next batch and strictly shrinks what is left |
| Engine.ChaChaKey.WholeBlocks | no-longer-standard/obfuscated-TLS/crypto/chacha.h:212-244 | the batch loop writes the stream xor of all whole blocks, with the counter at the block after them |
| Engine.ChaChaKey.Tail | no-longer-standard/obfuscated-TLS/crypto/chacha.h:246-253 | the rem tail bytes are xored with the keystream block at the counter, which stays in buf; partial_len becomes rem and the counter does not move |
| Engine.ChaChaKey.Finish | no-longer-standard/obfuscated-TLS/crypto/chacha.h:212-253 | whole blocks then tail complete the stream xor of the whole input and leave fewer than 64 bytes of the last block used |
| Engine.ChaChaKey.Cipher | no-longer-standard/obfuscated-TLS/crypto/chacha.h:188-256 | chacha_cipher writes the input xored with stream bytes pos .. pos + len - 1, moves pos on by len, changes no other output byte and returns 1; partial_len ends at 64 exactly when the call started inside a buffered block and ended at its end, and otherwise is pos modulo 64 |
| Engine.CipherInTwoCalls | no-longer-standard/obfuscated-TLS/crypto/chacha.h:188-256 | two chacha_cipher calls on m1 and then m2 write the stream xor of m1 + m2: the output does not depend on how the input is cut into calls |

## Left out

- ChaChaCore.Serialize: chacha20_core has two output branches (chacha.h:88-94). The model writes the little-endian bytes of each word, as the `U32TO8_LITTLE` branch does. The host-order store into the union `chacha_buf` on a little-endian host gives the same bytes, but the model does not model that branch or the union on its own.
- Ctr32.ChaCha20Ctr32: the key and the counter are passed as `seq` values, not as pointers into the context's arrays.
- Ctr32.ChaCha20Ctr32: the input is passed as a `seq` value, read before anything is written. An in-place call with `out == inp` (chacha.h:248) is therefore modelled as a copy. Partial overlap of `out` and `inp` is not modelled.
- Engine.NextBatch: the `1<<28` cap applies only when `size_t` is wider than `unsigned int` (chacha.h:222-223). The model assumes a 64-bit `size_t` and always applies the cap.
- Engine.ChaChaKey.Batch: its contract states only that the batch has at least one block, fits in what is left and stays within one turn of word 0. The exact batch size is stated by Engine.NextBatch, which Batch calls.
- Engine.ChaChaKey.InitKey: the `enc` parameter is unused by the source and left out. `EVP_CIPHER_CTX` and `data(ctx)` are the class itself.
- Engine.ChaChaKey.InitKey: the key and iv arrays have 32 and 16 bytes by the types of chacha_init_key's parameters. A given key or iv is therefore required to have that length.
- Engine.ChaChaKey.constructor: the zeroed allocation of the context belongs to the cipher framework, which is not part of this model. The constructor stands for it.
- Engine.ChaChaKey.Cipher: the input is passed as a `seq` value, so a call with `out == inp` is modelled as a copy; aliasing of `out` and `inp` is not modelled.
- Engine.ChaChaKey.Cipher: requires `Valid()`. The context must have been made by the constructor and set up by `InitKey`, and not changed in between by anything else. It also requires the output array to hold the input and not to be the context's own buffer.
- Lengths (`size_t len`, `todo`, `blocks`) are unbounded naturals. `size_t` wrap-around does not arise for lengths that fit in memory and is not modelled.
- Counter words in the engine are integers in `[0, 2^32)`, and every increment is written out modulo 2^32. They reach the block input through `Unsigned.Trunc`.
- The ghost fields `origin`, `pos` and `block` of `ChaChaKey` have no counterpart in the source. They name the stream the context is in.
- ChaChaCore.QuarterRoundInverse: only this direction is proved (the inverse undoes the quarter round), which is what shows the rounds lose no information. The converse is not proved.
- The block test vector is only the one of section 2.3.2 of RFC 8439. The encryption vectors of section 2.4.2 are not modelled.
- The cipher table after chacha.h:258 is compiled out (`#if 0`) and is not part of this model.
