/** Counter-mode keystream xor with a 32-bit block counter (ChaCha20_ctr32),
    following section 2.4 of RFC 8439 except that words 13 to 15 are taken
    from the caller's counter array as they are. */
module Ctr32 {
  import opened Bytes
  import opened ChaChaCore
  import opened Unsigned

  /** The sixteen bytes of the string "expand 32-byte k". */
  const SigmaBytes: seq<Byte> :=
    [0x65, 0x78, 0x70, 0x61, 0x6e, 0x64, 0x20, 0x33, 0x32, 0x2d, 0x62, 0x79, 0x74, 0x65, 0x20, 0x6b]

  /** The sigma constant, as four words. */
  const Sigma: seq<Word> := [0x61707865, 0x3320646e, 0x79622d32, 0x6b206574]

  /** SigmaBytes are the ASCII codes of "expand 32-byte k". */
  lemma {:induction false} SigmaAscii()
    ensures |SigmaBytes| == |"expand 32-byte k"|
    ensures forall i :: 0 <= i < 16 ==> SigmaBytes[i] as int == "expand 32-byte k"[i] as int
  {
  }

  /** The sigma words are the string read as little-endian words
      (CHACHA_U8TOU32(sigma + 0) .. CHACHA_U8TOU32(sigma + 12)), the four
      constants of section 2.3 of RFC 8439. */
  lemma {:induction false} SigmaWords()
    ensures Sigma == BytesToWords(SigmaBytes)
  {
    GatherAt(SigmaBytes, 0, 0x65, 0x78, 0x70, 0x61, 0x61707865);
    GatherAt(SigmaBytes, 1, 0x6e, 0x64, 0x20, 0x33, 0x3320646e);
    GatherAt(SigmaBytes, 2, 0x32, 0x2d, 0x62, 0x79, 0x79622d32);
    GatherAt(SigmaBytes, 3, 0x74, 0x65, 0x20, 0x6b, 0x6b206574);
  }

  /** The sixteen input words of a block: sigma, the eight key words and
      the four counter words. */
  function BlockInput(key: seq<Word>, counter: seq<Word>): (s: State)
    requires |key| == 8 && |counter| == 4
    ensures s[..4] == Sigma && s[4..12] == key && s[12..] == counter
  {
    Sigma + key + counter
  }

  /** The keystream block for a key and a counter array. */
  function KeyBlock(key: seq<Word>, counter: seq<Word>): (r: seq<Byte>)
    requires |key| == 8 && |counter| == 4
    ensures |r| == 64
  {
    Block(BlockInput(key, counter))
  }

  /** input[12]++: word 0 of the counter advances modulo 2^32, with no carry
      into word 1. */
  function NextCounter(counter: seq<Word>): (c: seq<Word>)
    requires |counter| == 4
    ensures |c| == 4 && c[1..] == counter[1..] && c[0] == counter[0] + 1
  {
    counter[0 := counter[0] + 1]
  }

  /** The block input of the next counter is the block input with word 12
      incremented. */
  lemma {:induction false} BlockInputNext(key: seq<Word>, counter: seq<Word>, input: State)
    requires |key| == 8 && |counter| == 4 && input == BlockInput(key, counter)
    ensures input[12 := input[12] + 1] == BlockInput(key, NextCounter(counter))
  {
  }

  function XorByte(a: Byte, b: Byte): (c: Byte) {
    a ^ b
  }

  /** The first |m| bytes of pad xored into m. */
  function XorBytes(m: seq<Byte>, pad: seq<Byte>): (r: seq<Byte>)
    requires |m| <= |pad|
    ensures |r| == |m|
  {
    seq(|m|, i requires 0 <= i < |m| => XorByte(m[i], pad[i]))
  }

  /** What ChaCha20_ctr32 writes: each 64-byte piece of the message xored
      with the keystream block of the current counter, the counter advancing
      once per piece; a final piece shorter than 64 bytes uses a prefix of
      its block. */
  function Ctr32Xor(m: seq<Byte>, key: seq<Word>, counter: seq<Word>): (r: seq<Byte>)
    requires |key| == 8 && |counter| == 4
    ensures |r| == |m|
    decreases |m|
  {
    if |m| <= 64 then XorBytes(m, KeyBlock(key, counter))
    else XorBytes(m[..64], KeyBlock(key, counter)) + Ctr32Xor(m[64..], key, NextCounter(counter))
  }

  /** The output is the first block xored into the first (up to) 64 bytes,
      followed by the output for the rest under the next counter. */
  lemma {:induction false} Ctr32XorFirst(m: seq<Byte>, key: seq<Word>, c: seq<Word>, todo: nat)
    requires |key| == 8 && |c| == 4
    requires todo == if |m| < 64 then |m| else 64
    ensures Ctr32Xor(m, key, c)
         == XorBytes(m[..todo], KeyBlock(key, c)) + Ctr32Xor(m[todo..], key, NextCounter(c))
  {
    if |m| <= 64 {
      assert m[..todo] == m;
      assert Ctr32Xor(m[todo..], key, NextCounter(c)) == [];
    }
  }

  /** One pass of the loop keeps "output so far, then the output for the
      rest of the input" equal to the whole output. */
  lemma {:induction false} Ctr32XorStep(want: seq<Byte>, produced: seq<Byte>, m: seq<Byte>, key: seq<Word>, c: seq<Word>, todo: nat)
    requires |key| == 8 && |c| == 4
    requires todo == if |m| < 64 then |m| else 64
    requires want == produced + Ctr32Xor(m, key, c)
    ensures want == (produced + XorBytes(m[..todo], KeyBlock(key, c))) + Ctr32Xor(m[todo..], key, NextCounter(c))
  {
    Ctr32XorFirst(m, key, c, todo);
  }

  /** The counter array after k blocks: input[12]++ done k times. */
  function Advance(counter: seq<Word>, k: nat): (c: seq<Word>)
    requires |counter| == 4
    ensures |c| == 4
    decreases k
  {
    if k == 0 then counter else Advance(NextCounter(counter), k - 1)
  }

  /** Only word 0 of the counter (state word 12) moves: words 1 to 3
      never see a carry. */
  lemma {:induction false} AdvanceKeepsNonce(counter: seq<Word>, k: nat)
    requires |counter| == 4
    ensures Advance(counter, k)[1..] == counter[1..]
    decreases k
  {
    if k > 0 {
      AdvanceKeepsNonce(NextCounter(counter), k - 1);
    }
  }

  /** When word 0 is the unsigned int of value n, block k uses the unsigned
      int of value n + k, that is counter[0] + k modulo 2^32. */
  lemma {:induction false} AdvanceCast(counter: seq<Word>, n: nat, k: nat)
    requires |counter| == 4 && counter[0] == Trunc(n)
    ensures Advance(counter, k) == counter[0 := Trunc(n + k)]
    decreases k
  {
    if k > 0 {
      TruncInc(n);
      AdvanceCast(NextCounter(counter), n + 1, k - 1);
      assert n + 1 + (k - 1) == n + k;
    }
  }

  /** The counter wraps: 2^32 blocks on, block k + 2^32 is block k again,
      whatever the counter words are. */
  lemma {:induction false} AdvanceWraps(counter: seq<Word>, k: nat)
    requires |counter| == 4
    ensures Advance(counter, k + M32) == Advance(counter, k)
  {
    var n := Value(counter[0]);
    TruncValue(counter[0]);
    AdvanceCast(counter, n, k + M32);
    AdvanceCast(counter, n, k);
    TruncPeriodic(n + k);
    assert n + (k + M32) == (n + k) + M32;
  }

  /** Byte j of the output is byte j of the message xored with byte j mod 64
      of the keystream block of the counter advanced j / 64 times. */
  lemma {:induction false} Ctr32XorAt(m: seq<Byte>, key: seq<Word>, counter: seq<Word>, j: nat)
    requires |key| == 8 && |counter| == 4 && j < |m|
    ensures Ctr32Xor(m, key, counter)[j] == XorByte(m[j], KeyBlock(key, Advance(counter, j / 64))[j % 64])
    decreases |m|
  {
    if j < 64 {
      Ctr32XorHead(m, key, counter, j);
    } else {
      Ctr32XorTail(m, key, counter, j);
      TailIndex(m, j);
      Ctr32XorAt(m[64..], key, NextCounter(counter), j - 64);
    }
  }

  lemma {:induction false} Ctr32XorHead(m: seq<Byte>, key: seq<Word>, counter: seq<Word>, j: nat)
    requires |key| == 8 && |counter| == 4 && j < |m| && j < 64
    ensures Ctr32Xor(m, key, counter)[j] == XorByte(m[j], KeyBlock(key, counter)[j])
  {
  }

  lemma {:induction false} Ctr32XorTail(m: seq<Byte>, key: seq<Word>, counter: seq<Word>, j: nat)
    requires |key| == 8 && |counter| == 4 && 64 <= j < |m|
    ensures Ctr32Xor(m, key, counter)[j] == Ctr32Xor(m[64..], key, NextCounter(counter))[j - 64]
  {
    Ctr32XorUnfold(m, key, counter);
    ConcatIndex(XorBytes(m[..64], KeyBlock(key, counter)), Ctr32Xor(m[64..], key, NextCounter(counter)), j);
  }

  lemma {:induction false} Ctr32XorUnfold(m: seq<Byte>, key: seq<Word>, counter: seq<Word>)
    requires |key| == 8 && |counter| == 4 && 64 < |m|
    ensures Ctr32Xor(m, key, counter)
         == XorBytes(m[..64], KeyBlock(key, counter)) + Ctr32Xor(m[64..], key, NextCounter(counter))
  {
  }

  lemma {:induction false} ConcatIndex(a: seq<Byte>, b: seq<Byte>, j: nat)
    requires |a| <= j < |a| + |b|
    ensures (a + b)[j] == b[j - |a|]
  {
  }

  lemma {:induction false} TailIndex(m: seq<Byte>, j: nat)
    requires 64 <= j < |m|
    ensures (j - 64) / 64 == j / 64 - 1 && (j - 64) % 64 == j % 64 && m[64..][j - 64] == m[j]
  {
  }

  /** Applying ChaCha20_ctr32 twice with the same key and counter gives the
      message back: the same call encrypts and decrypts. */
  lemma {:induction false} Ctr32XorInvolution(m: seq<Byte>, key: seq<Word>, counter: seq<Word>)
    requires |key| == 8 && |counter| == 4
    ensures Ctr32Xor(Ctr32Xor(m, key, counter), key, counter) == m
  {
    var c := Ctr32Xor(m, key, counter);
    forall j | 0 <= j < |m|
      ensures Ctr32Xor(c, key, counter)[j] == m[j]
    {
      Ctr32XorAt(m, key, counter, j);
      Ctr32XorAt(c, key, counter, j);
    }
  }

  /** On 64 zero bytes the output is the keystream block itself: this is
      how chacha_cipher fills its buffer. */
  lemma {:induction false} Ctr32XorZeros(m: seq<Byte>, key: seq<Word>, counter: seq<Word>)
    requires |key| == 8 && |counter| == 4
    requires |m| == 64 && forall j :: 0 <= j < 64 ==> m[j] == 0
    ensures Ctr32Xor(m, key, counter) == KeyBlock(key, counter)
  {
  }

  /** The xor loop of ChaCha20_ctr32 (and of chacha_cipher):
      out[at + j] = src[j] ^ pad[j] for every j < |src|. */
  method XorPad(out: array<Byte>, at: nat, src: seq<Byte>, pad: seq<Byte>)
    requires |src| <= |pad| && at + |src| <= out.Length
    modifies out
    ensures forall j :: 0 <= j < |src| ==> out[at + j] == XorBytes(src, pad)[j]
    ensures forall j :: 0 <= j < out.Length && !(at <= j < at + |src|) ==> out[j] == old(out[j])
  {
    var i := 0;
    while i < |src|
      invariant 0 <= i <= |src|
      invariant forall j :: 0 <= j < i ==> out[at + j] == XorByte(src[j], pad[j])
      invariant forall j :: 0 <= j < out.Length && !(at <= j < at + i) ==> out[j] == old(out[j])
    {
      out[at + i] := src[i] ^ pad[i];
      i := i + 1;
    }
  }

  /** ChaCha20_ctr32(out + off, inp, |inp|, key, counter): writes exactly
      |inp| bytes at out[off..], the input xored with the keystream; key and
      counter are values, so the caller's arrays are unchanged. */
  method ChaCha20Ctr32(out: array<Byte>, off: nat, inp: seq<Byte>, key: seq<Word>, counter: seq<Word>)
    requires |key| == 8 && |counter| == 4
    requires off + |inp| <= out.Length
    modifies out
    ensures forall j :: 0 <= j < |inp| ==> out[off + j] == Ctr32Xor(inp, key, counter)[j]
    ensures forall j :: 0 <= j < out.Length && !(off <= j < off + |inp|) ==> out[j] == old(out[j])
  {
    var input := BlockInput(key, counter);
    ghost var c := counter;
    ghost var want := Ctr32Xor(inp, key, counter);
    ghost var produced: seq<Byte> := [];
    var buf := new Byte[64];
    var at := off;
    var rem := inp;
    var len: nat := |inp|;
    while len > 0
      invariant len == |rem| && at == off + |produced| && at + len == off + |inp|
      invariant |c| == 4 && input == BlockInput(key, c)
      invariant want == produced + Ctr32Xor(rem, key, c)
      invariant forall j :: 0 <= j < |produced| ==> out[off + j] == produced[j]
      invariant forall j :: 0 <= j < out.Length && !(off <= j < off + |inp|) ==> out[j] == old(out[j])
    {
      var todo: nat := 64;
      if len < todo {
        todo := len;
      }
      ChaCha20Core(buf, input);
      var pad := buf[..];
      XorPad(out, at, rem[..todo], pad);
      Ctr32XorStep(want, produced, rem, key, c, todo);
      ghost var chunk := XorBytes(rem[..todo], pad);
      forall j | |produced| <= j < |produced| + todo
        ensures out[off + j] == (produced + chunk)[j]
      {
        var k := j - |produced|;
        assert out[at + k] == chunk[k] == (produced + chunk)[j];
      }
      produced := produced + chunk;
      at := at + todo;
      rem := rem[todo..];
      len := len - todo;
      BlockInputNext(key, c, input);
      input := input[12 := input[12] + 1];
      c := NextCounter(c);
    }
  }
}
