/** The ChaCha20 stream cipher as the cipher framework sees it
    (EVP_CHACHA_KEY, chacha_init_key, chacha_cipher): a key, four counter
    words whose first two form a carried 64-bit block counter, and a 64-byte
    buffer holding the rest of the block a previous call stopped in. */
module Engine {
  import opened Bytes
  import opened Unsigned
  import opened Ctr32

  datatype Option<T> = None | Some(value: T)

  /** 2^64, the period of the two-word block counter. */
  const M64: int := 0x1_0000_0000_0000_0000

  /** The largest batch of blocks handed to ChaCha20_ctr32 at once (1U<<28). */
  const MaxBatch: int := 0x1000_0000

  /** Four counter words, each an unsigned int. */
  predicate IsCounter(c: seq<int>) {
    |c| == 4 && forall i :: 0 <= i < 4 ==> 0 <= c[i] < M32
  }

  /** The counter words as they enter the block input (words 12 to 15). */
  function Words(c: seq<int>): (w: seq<Word>)
    requires IsCounter(c)
    ensures |w| == 4
  {
    seq(4, i requires 0 <= i < 4 => Trunc(c[i]))
  }

  /** The 64-bit block counter kept in words 0 and 1, least significant
      first. */
  function BlockNumber(c: seq<int>): (n: int)
    requires IsCounter(c)
    ensures 0 <= n < M64
  {
    c[0] + M32 * c[1]
  }

  /** The four counter words of the 64-bit block number n and the two nonce
      words a and b. */
  function Counter64(n: int, a: int, b: int): (c: seq<int>)
    requires 0 <= n < M64 && 0 <= a < M32 && 0 <= b < M32
    ensures IsCounter(c)
  {
    [n % M32, n / M32, a, b]
  }

  lemma {:induction false} DivModM32(lo: int, hi: int)
    requires 0 <= lo < M32 && 0 <= hi
    ensures (lo + M32 * hi) % M32 == lo && (lo + M32 * hi) / M32 == hi
  {
  }

  /** The block number and the nonce words determine the counter. */
  lemma {:induction false} CounterOfNumber(c: seq<int>)
    requires IsCounter(c)
    ensures c == Counter64(BlockNumber(c), c[2], c[3])
  {
    DivModM32(c[0], c[1]);
  }

  /** counter[0]++, and counter[1]++ when word 0 wrapped to zero. */
  function Increment(c: seq<int>): (d: seq<int>)
    requires IsCounter(c)
    ensures IsCounter(d) && d[2..] == c[2..]
    ensures BlockNumber(d) == (BlockNumber(c) + 1) % M64
  {
    var d0 := c[0 := (c[0] + 1) % M32];
    if d0[0] == 0 then d0[1 := (d0[1] + 1) % M32] else d0
  }

  /** The counter k blocks after c. */
  function CounterAt(c: seq<int>, k: nat): (d: seq<int>)
    requires IsCounter(c)
    ensures IsCounter(d)
    decreases k
  {
    if k == 0 then c else CounterAt(Increment(c), k - 1)
  }

  lemma {:induction false} ModShift(x: int, y: int)
    requires 0 <= x < M64 && 0 <= y
    ensures ((x + 1) % M64 + y) % M64 == (x + 1 + y) % M64
  {
    if x + 1 == M64 {
      assert (x + 1) % M64 == 0;
    }
  }

  /** The counter is a 64-bit block counter: k blocks on, words 0 and 1 hold
      the block number plus k modulo 2^64 and the nonce words are kept. */
  lemma {:induction false} CounterAtNumber(c: seq<int>, k: nat)
    requires IsCounter(c)
    ensures BlockNumber(CounterAt(c, k)) == (BlockNumber(c) + k) % M64
    ensures CounterAt(c, k)[2..] == c[2..]
    decreases k
  {
    if k > 0 {
      CounterAtNumber(Increment(c), k - 1);
      ModShift(BlockNumber(c), k - 1);
    }
  }

  /** The same, as the counter words themselves: the counter k blocks on is
      the 64-bit number, split in two words, next to the unchanged nonce. */
  lemma {:induction false} CounterAt64(c: seq<int>, k: nat)
    requires IsCounter(c)
    ensures CounterAt(c, k) == Counter64((BlockNumber(c) + k) % M64, c[2], c[3])
  {
    CounterAtNumber(c, k);
    CounterOfNumber(CounterAt(c, k));
  }

  lemma {:induction false} CounterAtNext(c: seq<int>, k: nat)
    requires IsCounter(c)
    ensures CounterAt(c, k + 1) == Increment(CounterAt(c, k))
    decreases k
  {
    if k > 0 {
      CounterAtNext(Increment(c), k - 1);
    }
  }

  lemma {:induction false} CounterAtAdd(c: seq<int>, a: nat, b: nat)
    requires IsCounter(c)
    ensures CounterAt(c, a + b) == CounterAt(CounterAt(c, a), b)
    decreases a
  {
    if a > 0 {
      CounterAtAdd(Increment(c), a - 1, b);
      assert a + b - 1 == (a - 1) + b;
    }
  }

  /** While word 0 does not wrap, only word 0 moves. */
  lemma {:induction false} CounterAtNoCarry(c: seq<int>, k: nat)
    requires IsCounter(c) && c[0] + k < M32
    ensures CounterAt(c, k) == c[0 := c[0] + k]
    decreases k
  {
    if k > 0 {
      var d := Increment(c);
      assert d == c[0 := c[0] + 1];
      CounterAtNoCarry(d, k - 1);
    }
  }

  /** Word 0 reaching 2^32 becomes zero and carries into word 1. */
  lemma {:induction false} CounterAtCarry(c: seq<int>, k: nat)
    requires IsCounter(c) && 1 <= k && c[0] + k == M32
    ensures CounterAt(c, k) == [0, (c[1] + 1) % M32, c[2], c[3]]
  {
    CounterAtNext(c, k - 1);
    CounterAtNoCarry(c, k - 1);
  }

  /** The counter after a batch of k blocks as chacha_cipher writes it:
      word 0 becomes ctr32, and word 1 is incremented when ctr32 is zero. */
  lemma {:induction false} BatchCounter(c: seq<int>, k: nat, ctr32: int)
    requires IsCounter(c) && 1 <= k && c[0] + k <= M32 && ctr32 == (c[0] + k) % M32
    ensures CounterAt(c, k)
         == if ctr32 == 0 then c[0 := ctr32][1 := (c[1] + 1) % M32] else c[0 := ctr32]
  {
    if c[0] + k < M32 {
      assert ctr32 == c[0] + k && ctr32 != 0;
      CounterAtNoCarry(c, k);
    } else {
      assert ctr32 == 0;
      CounterAtCarry(c, k);
      var d := c[0 := ctr32][1 := (c[1] + 1) % M32];
      assert d == [0, (c[1] + 1) % M32, c[2], c[3]];
    }
  }

  /** The counter a batch of blocks blocks on from block b, as the second
      loop of chacha_cipher sets it: word 0 to ctr32 and, where that is 0,
      word 1 one up. */
  lemma {:induction false} BatchCounterAt(origin: seq<int>, b: nat, blocks: nat, ctr32: int)
    requires IsCounter(origin) && 1 <= blocks
    requires CounterAt(origin, b)[0] + blocks <= M32 && ctr32 == (CounterAt(origin, b)[0] + blocks) % M32
    ensures var c := CounterAt(origin, b);
      CounterAt(origin, b + blocks) == if ctr32 == 0 then c[0 := 0][1 := (c[1] + 1) % M32] else c[0 := ctr32]
  {
    CounterAtAdd(origin, b, blocks);
    BatchCounter(CounterAt(origin, b), blocks, ctr32);
  }

  /** Word 0 alone wraps: ChaCha20_ctr32 repeats its keystream 2^32 blocks
      on, whereas the carried counter of the engine moves on to a counter it
      has not used. This is why chacha_cipher cuts a batch at the wrap. */
  lemma {:induction false} CarryAvoidsRepeat(c: seq<int>, k: nat)
    requires IsCounter(c)
    ensures Advance(Words(c), k + M32) == Advance(Words(c), k)
    ensures CounterAt(c, k + M32) != CounterAt(c, k)
  {
    AdvanceWraps(Words(c), k);
    CounterAtNumber(c, k + M32);
    CounterAtNumber(c, k);
    var x := BlockNumber(c) + k;
    assert (x + M32) % M64 != x % M64 by {
      var q := x / M64;
      var r := x % M64;
      assert x == q * M64 + r && 0 <= r < M64;
      if r + M32 < M64 {
        assert x + M32 == q * M64 + (r + M32);
      } else {
        assert x + M32 == (q + 1) * M64 + (r + M32 - M64);
      }
    }
  }

  /** Before word 0 wraps, ChaCha20_ctr32's counter is the carried one. */
  lemma {:induction false} AdvanceWords(c: seq<int>, k: nat)
    requires IsCounter(c) && c[0] + k < M32
    ensures Advance(Words(c), k) == Words(CounterAt(c, k))
  {
    AdvanceCast(Words(c), c[0], k);
    CounterAtNoCarry(c, k);
  }

  /** Keystream byte p of the stream that starts at block counter origin:
      the block at origin, followed by the stream from the next counter. */
  function StreamByte(key: seq<Word>, origin: seq<int>, p: nat): (b: Byte)
    requires |key| == 8 && IsCounter(origin)
    decreases p
  {
    if p < 64 then KeyBlock(key, Words(origin))[p] else StreamByte(key, Increment(origin), p - 64)
  }

  /** The message m, found at byte offset start of the stream, xored with
      the keystream there. */
  function EngineXor(m: seq<Byte>, key: seq<Word>, origin: seq<int>, start: nat): (r: seq<Byte>)
    requires |key| == 8 && IsCounter(origin)
    ensures |r| == |m|
  {
    seq(|m|, i requires 0 <= i < |m| => XorByte(m[i], StreamByte(key, origin, start + i)))
  }

  /** Chunking invariance: xoring m1 + m2 at start is xoring m1 at start and
      then m2 where m1 ends. */
  lemma {:induction false} EngineXorSplit(m1: seq<Byte>, m2: seq<Byte>, key: seq<Word>, origin: seq<int>, start: nat)
    requires |key| == 8 && IsCounter(origin)
    ensures EngineXor(m1 + m2, key, origin, start)
         == EngineXor(m1, key, origin, start) + EngineXor(m2, key, origin, start + |m1|)
  {
    var l := EngineXor(m1 + m2, key, origin, start);
    var r := EngineXor(m1, key, origin, start) + EngineXor(m2, key, origin, start + |m1|);
    forall i | 0 <= i < |l|
      ensures l[i] == r[i]
    {
      if i >= |m1| {
        assert start + |m1| + (i - |m1|) == start + i;
      }
    }
  }

  /** The same keystream at the same offset decrypts what it encrypted. */
  lemma {:induction false} EngineXorInvolution(m: seq<Byte>, key: seq<Word>, origin: seq<int>, start: nat)
    requires |key| == 8 && IsCounter(origin)
    ensures EngineXor(EngineXor(m, key, origin, start), key, origin, start) == m
  {
  }

  /** Output that holds the stream xor of inp[from..done], extended by the
      stream xor of inp[done..hi] where the former ends, holds the stream xor
      of inp[from..hi]. */
  lemma {:induction false} Extend(before: seq<Byte>, after: seq<Byte>, inp: seq<Byte>, from: nat, done: nat, hi: nat,
                                  key: seq<Word>, origin: seq<int>, p: nat)
    requires |key| == 8 && IsCounter(origin)
    requires from <= done <= hi <= |inp| && hi <= |before| == |after|
    requires before[from..done] == EngineXor(inp[from..done], key, origin, p)
    requires forall j :: from <= j < done ==> after[j] == before[j]
    requires after[done..hi] == EngineXor(inp[done..hi], key, origin, p + (done - from))
    ensures after[from..hi] == EngineXor(inp[from..hi], key, origin, p)
  {
    assert after[from..done] == before[from..done];
    assert after[from..hi] == after[from..done] + after[done..hi];
    EngineXorSplit(inp[from..done], inp[done..hi], key, origin, p);
    assert inp[from..done] + inp[done..hi] == inp[from..hi];
  }

  /** Extend for a prefix of the output: the stream xor of inp[..done],
      extended by that of inp[done..hi], is the stream xor of inp[..hi]. */
  lemma {:induction false} ExtendPrefix(before: seq<Byte>, after: seq<Byte>, inp: seq<Byte>, done: nat, hi: nat,
                                        key: seq<Word>, origin: seq<int>, p: nat)
    requires |key| == 8 && IsCounter(origin)
    requires done <= hi <= |inp| && hi <= |before| == |after|
    requires before[..done] == EngineXor(inp[..done], key, origin, p)
    requires forall j :: 0 <= j < done ==> after[j] == before[j]
    requires after[done..hi] == EngineXor(inp[done..hi], key, origin, p + done)
    ensures after[..hi] == EngineXor(inp[..hi], key, origin, p)
    ensures hi == |inp| ==> after[..hi] == EngineXor(inp, key, origin, p)
  {
    assert before[0..done] == before[..done] && inp[0..done] == inp[..done];
    Extend(before, after, inp, 0, done, hi, key, origin, p);
    assert after[0..hi] == after[..hi] && inp[0..hi] == inp[..hi];
    assert hi == |inp| ==> inp[..hi] == inp;
  }

  /** The used part of the block the stream is in is the stream position
      modulo 64. */
  lemma {:induction false} UsedOfBlock(pos: nat, block: nat, used: nat)
    requires pos == 64 * block + used && used < 64
    ensures pos % 64 == used
  {
  }

  /** The batch size of chacha_cipher's second loop: the whole blocks
      left, at most 2^28 of them, and cut to end exactly where word 0 of the
      counter wraps (ctr32 += blocks modulo 2^32; a sum below blocks means
      it wrapped). ctr32 is word 0 of the counter after the batch. */
  method NextBatch(left: nat, c0: int) returns (blocks: nat, ctr32: int)
    requires 0 <= c0 < M32 && 64 <= left
    ensures var asked := if left / 64 > MaxBatch then MaxBatch else left / 64;
      blocks == (if asked <= M32 - c0 then asked else M32 - c0)
    ensures 1 <= blocks && c0 + blocks <= M32 && ctr32 == (c0 + blocks) % M32
  {
    blocks := left / 64;
    if blocks > MaxBatch {
      blocks := MaxBatch;
    }
    ctr32 := (c0 + blocks % M32) % M32;
    if ctr32 < blocks {
      blocks := blocks - ctr32;
      ctr32 := 0;
    }
  }

  /** Byte n of the block b blocks on is stream byte 64 b + n. */
  lemma {:induction false} BlockByte(key: seq<Word>, origin: seq<int>, b: nat, n: nat)
    requires |key| == 8 && IsCounter(origin) && n < 64
    ensures StreamByte(key, origin, 64 * b + n) == KeyBlock(key, Words(CounterAt(origin, b)))[n]
    decreases b
  {
    if b > 0 {
      BlockByte(key, Increment(origin), b - 1, n);
      assert 64 * b + n - 64 == 64 * (b - 1) + n;
    }
  }

  /** Bytes xored with a block's keystream from offset n0 on are the input
      xored with the stream from that place. */
  lemma {:induction false} PadXor(a: seq<Byte>, m: seq<Byte>, key: seq<Word>, origin: seq<int>, b: nat, n0: nat)
    requires |key| == 8 && IsCounter(origin) && |a| == |m| && n0 + |m| <= 64
    requires forall j {:trigger a[j]} :: 0 <= j < |m| ==> a[j] == XorByte(m[j], KeyBlock(key, Words(CounterAt(origin, b)))[n0 + j])
    ensures a == EngineXor(m, key, origin, 64 * b + n0)
  {
    forall j | 0 <= j < |m|
      ensures a[j] == XorByte(m[j], StreamByte(key, origin, 64 * b + n0 + j))
    {
      BlockByte(key, origin, b, n0 + j);
    }
    EngineXorOf(a, m, key, origin, 64 * b + n0);
  }

  /** From the start of block b, ChaCha20_ctr32 on the counter of that block
      produces stream byte 64 b + j, as long as word 0 does not wrap. */
  lemma {:induction false} Ctr32Byte(m: seq<Byte>, key: seq<Word>, origin: seq<int>, b: nat, j: nat)
    requires |key| == 8 && IsCounter(origin) && j < |m|
    requires |m| <= 64 * (M32 - CounterAt(origin, b)[0])
    ensures Ctr32Xor(m, key, Words(CounterAt(origin, b)))[j] == XorByte(m[j], StreamByte(key, origin, 64 * b + j))
  {
    var c := CounterAt(origin, b);
    Ctr32XorAt(m, key, Words(c), j);
    AdvanceWords(c, j / 64);
    CounterAtAdd(origin, b, j / 64);
    BlockByte(key, origin, b + j / 64, j % 64);
    assert 64 * (b + j / 64) + j % 64 == 64 * b + j;
  }

  lemma {:induction false} Ctr32Bytes(m: seq<Byte>, key: seq<Word>, origin: seq<int>, b: nat)
    requires |key| == 8 && IsCounter(origin)
    requires |m| <= 64 * (M32 - CounterAt(origin, b)[0])
    ensures forall j {:trigger Ctr32Xor(m, key, Words(CounterAt(origin, b)))[j]} :: 0 <= j < |m| ==>
      Ctr32Xor(m, key, Words(CounterAt(origin, b)))[j] == XorByte(m[j], StreamByte(key, origin, 64 * b + j))
  {
    forall j | 0 <= j < |m|
      ensures Ctr32Xor(m, key, Words(CounterAt(origin, b)))[j] == XorByte(m[j], StreamByte(key, origin, 64 * b + j))
    {
      Ctr32Byte(m, key, origin, b, j);
    }
  }

  /** Any sequence whose bytes are those of the stream xor is that xor. */
  lemma {:induction false} EngineXorOf(a: seq<Byte>, m: seq<Byte>, key: seq<Word>, origin: seq<int>, p: nat)
    requires |key| == 8 && IsCounter(origin) && |a| == |m|
    requires forall j {:trigger a[j]} :: 0 <= j < |m| ==> a[j] == XorByte(m[j], StreamByte(key, origin, p + j))
    ensures a == EngineXor(m, key, origin, p)
  {
  }

  /** Within one turn of word 0, ChaCha20_ctr32 from the start of block b is
      the engine's keystream. */
  lemma {:induction false} EngineXorIsCtr32(m: seq<Byte>, key: seq<Word>, origin: seq<int>, b: nat)
    requires |key| == 8 && IsCounter(origin)
    requires |m| <= 64 * (M32 - CounterAt(origin, b)[0])
    ensures Ctr32Xor(m, key, Words(CounterAt(origin, b))) == EngineXor(m, key, origin, 64 * b)
  {
    Ctr32Bytes(m, key, origin, b);
    EngineXorOf(Ctr32Xor(m, key, Words(CounterAt(origin, b))), m, key, origin, 64 * b);
  }

  /** The xor loops of chacha_cipher over a stretch of one keystream block:
      out[at + j] = m[j] ^ pad[j], where pad is the keystream of block b
      from byte n0 on, puts the stream xor of m from place 64 b + n0 at
      out[at..]. */
  method XorStream(out: array<Byte>, at: nat, m: seq<Byte>, pad: seq<Byte>,
                   ghost key: seq<Word>, ghost origin: seq<int>, ghost b: nat, ghost n0: nat)
    requires |key| == 8 && IsCounter(origin) && n0 + |m| <= 64 && at + |m| <= out.Length
    requires pad == KeyBlock(key, Words(CounterAt(origin, b)))[n0..]
    modifies out
    ensures out[at..at + |m|] == EngineXor(m, key, origin, 64 * b + n0)
    ensures forall j :: 0 <= j < out.Length && !(at <= j < at + |m|) ==> out[j] == old(out[j])
  {
    XorPad(out, at, m, pad);
    forall j | 0 <= j < |m|
      ensures out[at..at + |m|][j] == XorByte(m[j], KeyBlock(key, Words(CounterAt(origin, b)))[n0 + j])
    {
      assert out[at + j] == XorBytes(m, pad)[j];
    }
    PadXor(out[at..at + |m|], m, key, origin, b, n0);
  }

  /** The ChaCha20_ctr32 call of chacha_cipher's second loop: from the start
      of block b, and within one turn of word 0 of its counter, it puts the
      stream xor of m from place 64 b at out[at..]. */
  method Ctr32Stream(out: array<Byte>, at: nat, m: seq<Byte>, key: seq<Word>, counter: seq<int>,
                     ghost origin: seq<int>, ghost b: nat)
    requires |key| == 8 && IsCounter(origin) && counter == CounterAt(origin, b)
    requires at + |m| <= out.Length && |m| <= 64 * (M32 - counter[0])
    modifies out
    ensures out[at..at + |m|] == EngineXor(m, key, origin, 64 * b)
    ensures forall j :: 0 <= j < out.Length && !(at <= j < at + |m|) ==> out[j] == old(out[j])
  {
    EngineXorIsCtr32(m, key, origin, b);
    ChaCha20Ctr32(out, at, m, key, Words(counter));
    assert out[at..at + |m|] == Ctr32Xor(m, key, Words(counter));
  }

  /** The tail of chacha_cipher: the buffer is zeroed and encrypted in place
      with ChaCha20_ctr32, which leaves the keystream of one block in it. */
  method FillKeyStream(buf: array<Byte>, key: seq<Word>, counter: seq<Word>)
    requires buf.Length == 64 && |key| == 8 && |counter| == 4
    modifies buf
    ensures buf[..] == KeyBlock(key, counter)
  {
    forall i | 0 <= i < buf.Length {
      buf[i] := 0;
    }
    var zeros := buf[..];
    ChaCha20Ctr32(buf, 0, zeros, key, counter);
    Ctr32XorZeros(zeros, key, counter);
  }

  /** The counter words CHACHA_U8TOU32 reads from a 16-byte iv, as numbers. */
  function LoadCounter(iv: seq<Byte>): (c: seq<int>)
    requires |iv| == 16
    ensures IsCounter(c)
  {
    seq(4, i requires 0 <= i < 4 => Load(iv[4 * i..4 * i + 4]))
  }

  /** The key loop of chacha_init_key: word i / 4 of the key is gathered
      from bytes i .. i + 3, for i = 0, 4, ..., 28. */
  method ReadKey(d0: seq<Word>, userKey: seq<Byte>) returns (d: seq<Word>)
    requires |d0| == 8 && |userKey| == 32
    ensures d == BytesToWords(userKey)
  {
    d := d0;
    var i := 0;
    ghost var k := 0;
    while i < 32
      invariant 0 <= k <= 8 && i == 4 * k && |d| == 8
      invariant forall j {:trigger d[j]} :: 0 <= j < k ==> d[j] == Gather(userKey[4 * j..4 * j + 4])
    {
      d := d[i / 4 := Gather(userKey[i..i + 4])];
      i, k := i + 4, k + 1;
    }
  }

  /** The iv loop of chacha_init_key: counter word i / 4 is read from bytes
      i .. i + 3, least significant first, for i = 0, 4, 8, 12. */
  method ReadCounter(c0: seq<int>, iv: seq<Byte>) returns (c: seq<int>)
    requires |c0| == 4 && |iv| == 16
    ensures c == LoadCounter(iv)
  {
    c := c0;
    var i := 0;
    ghost var k := 0;
    while i < 16
      invariant 0 <= k <= 4 && i == 4 * k && |c| == 4
      invariant forall j {:trigger c[j]} :: 0 <= j < k ==> c[j] == Load(iv[4 * j..4 * j + 4])
    {
      c := c[i / 4 := Load(iv[i..i + 4])];
      i, k := i + 4, k + 1;
    }
  }

  /** The counter read from the iv enters the block input as the iv's
      little-endian words: reading CHACHA_U8TOU32 as a number and casting
      agrees with reading it as a word. */
  lemma {:induction false} LoadCounterWords(iv: seq<Byte>)
    requires |iv| == 16
    ensures Words(LoadCounter(iv)) == BytesToWords(iv)
  {
    forall i | 0 <= i < 4
      ensures Words(LoadCounter(iv))[i] == BytesToWords(iv)[i]
    {
      LoadGather(iv[4 * i..4 * i + 4]);
    }
  }

  /** EVP_CHACHA_KEY: the key words, the counter words, the keystream buffer
      and how much of it has been used. The ghost fields name the stream:
      its first block counter, the number of bytes produced so far and the
      block the counter is at. */
  class ChaChaKey {
    var key: seq<Word>
    var counter: seq<int>
    const buf: array<Byte>
    var partialLen: nat
    ghost var origin: seq<int>
    ghost var pos: nat
    ghost var block: nat

    /** The counter is that of the block the stream is in (the one whose
        first partialLen bytes have been used), and while partialLen > 0 the
        buffer holds that block's keystream. */
    ghost predicate Valid()
      reads this, buf
    {
      |key| == 8 && IsCounter(origin) && buf.Length == 64
      && partialLen <= 64 && pos == 64 * block + partialLen
      && counter == CounterAt(origin, block)
      && (0 < partialLen ==> buf[..] == KeyBlock(key, Words(counter)))
    }

    /** A context as the cipher framework allocates it: all zero. */
    constructor ()
      ensures Valid() && fresh(buf)
      ensures key == [0, 0, 0, 0, 0, 0, 0, 0] && counter == [0, 0, 0, 0] && partialLen == 0
      ensures origin == counter && pos == 0
    {
      key := [0, 0, 0, 0, 0, 0, 0, 0];
      counter := [0, 0, 0, 0];
      buf := new Byte[64](_ => 0);
      partialLen := 0;
      origin := [0, 0, 0, 0];
      pos := 0;
      block := 0;
    }

    /** chacha_init_key: a key, if given, is read as eight little-endian
        words; an iv, if given, as four little-endian counter words; either
        one left out is kept. The buffer is emptied, and the stream starts
        afresh at the counter. */
    method InitKey(userKey: Option<seq<Byte>>, iv: Option<seq<Byte>>) returns (r: int)
      requires Valid()
      requires userKey.Some? ==> |userKey.value| == 32
      requires iv.Some? ==> |iv.value| == 16
      modifies this
      ensures Valid() && r == 1 && partialLen == 0
      ensures key == if userKey.Some? then BytesToWords(userKey.value) else old(key)
      ensures counter == if iv.Some? then LoadCounter(iv.value) else old(counter)
      ensures origin == counter && pos == 0
    {
      if userKey.Some? {
        key := ReadKey(key, userKey.value);
      }
      if iv.Some? {
        counter := ReadCounter(counter, iv.value);
      }
      partialLen := 0;
      origin := counter;
      pos := 0;
      block := 0;
      return 1;
    }

    /** The first loop of chacha_cipher: xor what is left of the buffered
        block into the output, one byte at a time. */
    method Drain(out: array<Byte>, inp: seq<Byte>) returns (done: nat)
      requires Valid() && 0 < partialLen && out != buf && |inp| <= out.Length
      modifies this, out
      ensures Valid() && key == old(key) && origin == old(origin) && counter == old(counter)
      ensures block == old(block) && done <= |inp|
      ensures partialLen == old(partialLen) + done && pos == old(pos) + done
      ensures done < |inp| ==> partialLen == 64
      ensures out[..done] == EngineXor(inp[..done], key, origin, old(pos))
      ensures forall j :: done <= j < out.Length ==> out[j] == old(out[j])
    {
      var n := partialLen;
      done := 64 - n;
      if |inp| < done {
        done := |inp|;
      }
      XorStream(out, 0, inp[..done], buf[n..], key, origin, block, n);
      partialLen := n + done;
      pos := pos + done;
    }

    /** One pass of the second loop of chacha_cipher over the left bytes at
        inp[at..]: the batch size and the new word 0 from NextBatch, that
        many whole blocks through ChaCha20_ctr32 on the current counter,
        then counter word 0 set to ctr32 and, where it wrapped to 0, the
        carry into word 1. */
    method Batch(out: array<Byte>, inp: seq<Byte>, at: nat, left: nat, ctr32: int) returns (blocks: nat, ctr32': int)
      requires Valid() && partialLen == 0 && out != buf
      requires 64 <= left && at + left <= |inp| <= out.Length && ctr32 == counter[0]
      modifies this, out
      ensures Valid() && partialLen == 0 && key == old(key) && origin == old(origin)
      ensures 1 <= blocks && 64 * blocks <= left && ctr32 + blocks <= M32
      ensures pos == old(pos) + 64 * blocks && block == old(block) + blocks && ctr32' == counter[0]
      ensures counter == if ctr32' == 0 then old(counter)[0 := 0][1 := (old(counter)[1] + 1) % M32]
                         else old(counter)[0 := ctr32']
      ensures out[at..at + 64 * blocks] == EngineXor(inp[at..at + 64 * blocks], key, origin, old(pos))
      ensures forall j :: 0 <= j < out.Length && !(at <= j < at + 64 * blocks) ==> out[j] == old(out[j])
    {
      blocks, ctr32' := NextBatch(left, ctr32);
      var m := inp[at..at + 64 * blocks];
      assert pos == 64 * block;
      Ctr32Stream(out, at, m, key, counter, origin, block);
      BatchCounterAt(origin, block, blocks, ctr32');
      var c := counter[0 := ctr32'];
      if ctr32' == 0 {
        c := c[1 := (c[1] + 1) % M32];
      }
      assert c == CounterAt(origin, block + blocks);
      counter, pos, block := c, pos + |m|, block + blocks;
    }

    /** The second loop of chacha_cipher: len bytes from inp[from..] in
        batches of whole blocks, each batch at most 2^28 blocks and cut where
        word 0 of the counter wraps. */
    method WholeBlocks(out: array<Byte>, inp: seq<Byte>, from: nat, len: nat) returns (done: nat)
      requires Valid() && partialLen == 0 && out != buf
      requires from + len <= |inp| <= out.Length && len % 64 == 0
      modifies this, out
      ensures Valid() && partialLen == 0 && key == old(key) && origin == old(origin)
      ensures done == from + len && pos == old(pos) + len
      ensures out[from..done] == EngineXor(inp[from..done], key, origin, old(pos))
      ensures forall j :: 0 <= j < out.Length && !(from <= j < done) ==> out[j] == old(out[j])
    {
      ghost var p1 := pos;
      var left := len;
      ghost var k := len / 64;
      var ctr32 := counter[0];
      done := from;
      while left >= 64
        invariant 0 <= k && left == 64 * k && done + left == from + len
        invariant Valid() && partialLen == 0 && key == old(key) && origin == old(origin)
        invariant pos == p1 + (done - from) && ctr32 == counter[0]
        invariant out[from..done] == EngineXor(inp[from..done], key, origin, p1)
        invariant forall j :: 0 <= j < out.Length && !(from <= j < done) ==> out[j] == old(out[j])
      {
        done, left, ctr32, k := Step(out, inp, from, done, left, ctr32, p1, k);
      }
    }

    /** One pass of that loop: the next batch of the left bytes at
        inp[done..], which extends the stream xor of inp[from..done]. */
    method Step(out: array<Byte>, inp: seq<Byte>, from: nat, done: nat, left: nat, ctr32: int,
                ghost p1: nat, ghost k: nat)
      returns (done2: nat, left2: nat, ctr2: int, ghost k2: nat)
      requires Valid() && partialLen == 0 && out != buf
      requires from <= done && done + left <= |inp| <= out.Length && left == 64 * k && 1 <= k
      requires pos == p1 + (done - from) && ctr32 == counter[0]
      requires out[from..done] == EngineXor(inp[from..done], key, origin, p1)
      modifies this, out
      ensures Valid() && partialLen == 0 && key == old(key) && origin == old(origin)
      ensures done < done2 && done2 + left2 == done + left && left2 == 64 * k2 && k2 < k
      ensures pos == p1 + (done2 - from) && ctr2 == counter[0]
      ensures out[from..done2] == EngineXor(inp[from..done2], key, origin, p1)
      ensures forall j :: 0 <= j < out.Length && !(done <= j < done2) ==> out[j] == old(out[j])
    {
      ghost var before := out[..];
      var blocks;
      blocks, ctr2 := Batch(out, inp, done, left, ctr32);
      Extend(before, out[..], inp, from, done, done + 64 * blocks, key, origin, p1);
      left2, k2 := left - 64 * blocks, k - blocks;
      done2 := done + 64 * blocks;
    }

    /** The end of chacha_cipher's first loop when the buffered block is used
        up: partial_len goes back to 0 and the counter moves to the next
        block, carrying into word 1 when word 0 wraps. */
    method NextBlock()
      requires Valid() && partialLen == 64
      modifies this
      ensures Valid() && partialLen == 0 && counter == Increment(old(counter))
      ensures key == old(key) && origin == old(origin) && pos == old(pos) && block == old(block) + 1
    {
      CounterAtNext(origin, block);
      partialLen := 0;
      counter := counter[0 := (counter[0] + 1) % M32];
      if counter[0] == 0 {
        counter := counter[1 := (counter[1] + 1) % M32];
      }
      block := block + 1;
    }

    /** The last part of chacha_cipher, for 0 < rem < 64 bytes left: the
        keystream block at the counter is made in buf (ChaCha20_ctr32 over
        64 zero bytes), its first rem bytes xor the input, and the rest of
        it is kept for the next call; the counter does not move. */
    method Tail(out: array<Byte>, at: nat, rest: seq<Byte>)
      requires Valid() && partialLen == 0 && out != buf
      requires 0 < |rest| < 64 && at + |rest| <= out.Length
      modifies this, buf, out
      ensures Valid() && partialLen == |rest| && key == old(key) && origin == old(origin)
      ensures counter == old(counter) && block == old(block) && pos == old(pos) + |rest|
      ensures out[at..at + |rest|] == EngineXor(rest, key, origin, old(pos))
      ensures forall j :: 0 <= j < out.Length && !(at <= j < at + |rest|) ==> out[j] == old(out[j])
    {
      FillKeyStream(buf, key, Words(counter));
      XorStream(out, at, rest, buf[..], key, origin, block, 0);
      partialLen := |rest|;
      pos := pos + |rest|;
    }

    /** The rest of chacha_cipher once the buffered block is used up: the
        whole blocks of what is left of inp, then the tail. Output that
        held the stream xor of inp[..done] then holds that of all of inp. */
    method Finish(out: array<Byte>, inp: seq<Byte>, done: nat, ghost p0: nat)
      requires Valid() && partialLen == 0 && out != buf
      requires done <= |inp| <= out.Length && pos == p0 + done
      requires out[..done] == EngineXor(inp[..done], key, origin, p0)
      modifies this, buf, out
      ensures Valid() && key == old(key) && origin == old(origin) && pos == p0 + |inp|
      ensures out[..|inp|] == EngineXor(inp, key, origin, p0)
      ensures partialLen < 64
      ensures forall j :: |inp| <= j < out.Length ==> out[j] == old(out[j])
    {
      var rem := (|inp| - done) % 64;
      var len := |inp| - done - rem;
      ghost var o1 := out[..];
      var d := WholeBlocks(out, inp, done, len);
      ExtendPrefix(o1, out[..], inp, done, d, key, origin, p0);
      if rem != 0 {
        ghost var o2 := out[..];
        var rest := inp[d..|inp|];
        assert d + |rest| == |inp| && pos == p0 + d;
        Tail(out, d, rest);
        assert out[d..|inp|] == EngineXor(rest, key, origin, p0 + d);
        ExtendPrefix(o2, out[..], inp, d, |inp|, key, origin, p0);
      }
    }

    /** chacha_cipher: xors inp into out with the keystream from where the
        previous call stopped, and always returns 1. The output is the
        input xored with stream bytes pos .. pos + |inp| - 1, and pos moves
        on by |inp|, however the input is cut into calls. A call that ends
        exactly where the buffered block ends leaves partial_len at 64 (the
        counter moves on in the next call); otherwise partial_len is what
        has been used of the block the stream is in. */
    method Cipher(out: array<Byte>, inp: seq<Byte>) returns (r: int)
      requires Valid() && out != buf && |inp| <= out.Length
      modifies this, buf, out
      ensures Valid() && r == 1 && key == old(key) && origin == old(origin)
      ensures pos == old(pos) + |inp|
      ensures partialLen == if 0 < old(partialLen) && old(partialLen) + |inp| == 64 then 64 else pos % 64
      ensures out[..|inp|] == EngineXor(inp, key, origin, old(pos))
      ensures forall j :: |inp| <= j < out.Length ==> out[j] == old(out[j])
    {
      ghost var p0 := pos;
      var done := 0;
      if partialLen != 0 {
        done := Drain(out, inp);
        if done == |inp| {
          assert inp[..done] == inp;
          if partialLen < 64 {
            UsedOfBlock(pos, block, partialLen);
          }
          return 1;
        }
        if partialLen == 64 {
          NextBlock();
        }
      }
      if partialLen == 0 {
        assert out[..0] == EngineXor(inp[..0], key, origin, p0);
      }
      Finish(out, inp, done, p0);
      UsedOfBlock(pos, block, partialLen);
      return 1;
    }
  }

  /** Two calls of chacha_cipher on m1 and then m2 produce the stream xor
      of m1 + m2: the output does not depend on how the input is cut. */
  method CipherInTwoCalls(k: ChaChaKey, out1: array<Byte>, out2: array<Byte>, m1: seq<Byte>, m2: seq<Byte>)
    requires k.Valid() && out1 != k.buf && out2 != k.buf && out1 != out2
    requires |m1| <= out1.Length && |m2| <= out2.Length
    modifies k, k.buf, out1, out2
    ensures k.Valid() && k.key == old(k.key) && k.origin == old(k.origin) && k.pos == old(k.pos) + |m1| + |m2|
    ensures out1[..|m1|] + out2[..|m2|] == EngineXor(m1 + m2, k.key, k.origin, old(k.pos))
  {
    var r := k.Cipher(out1, m1);
    r := k.Cipher(out2, m2);
    EngineXorSplit(m1, m2, k.key, k.origin, old(k.pos));
  }
}
