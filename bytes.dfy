/** Bytes, 32-bit words and the little-endian conversions between them
    (the CHACHA_U8TOU32 and U32TO8_LITTLE macros of chacha.h). */
module Bytes {

  type Byte = bv8

  /** An `unsigned int`: addition wraps modulo 2^32, xor and rotation are
      bitwise, comparison is unsigned. */
  type Word = bv32

  /** CHACHA_U8TOU32: the word whose bytes, least significant first, are
      p[0] .. p[3]. */
  function Gather(p: seq<Byte>): (w: Word)
    requires |p| == 4
  {
    p[0] as Word | (p[1] as Word << 8) | (p[2] as Word << 16) | (p[3] as Word << 24)
  }

  /** U32TO8_LITTLE: the four bytes of w, least significant first;
      gathering them again gives back w. */
  function Store32(w: Word): (p: seq<Byte>)
    ensures |p| == 4
    ensures Gather(p) == w
  {
    [(w & 0xFF) as Byte, ((w >> 8) & 0xFF) as Byte, ((w >> 16) & 0xFF) as Byte, ((w >> 24) & 0xFF) as Byte]
  }

  lemma {:induction false} GatherByte0(p: seq<Byte>) requires |p| == 4 ensures (Gather(p) & 0xFF) as Byte == p[0] {}
  lemma {:induction false} GatherByte1(p: seq<Byte>) requires |p| == 4 ensures ((Gather(p) >> 8) & 0xFF) as Byte == p[1] {}
  lemma {:induction false} GatherByte2(p: seq<Byte>) requires |p| == 4 ensures ((Gather(p) >> 16) & 0xFF) as Byte == p[2] {}
  lemma {:induction false} GatherByte3(p: seq<Byte>) requires |p| == 4 ensures ((Gather(p) >> 24) & 0xFF) as Byte == p[3] {}

  /** Storing a gathered word gives back its bytes. */
  lemma {:induction false} StoreGather(p: seq<Byte>)
    requires |p| == 4
    ensures Store32(Gather(p)) == p
  {
    GatherByte0(p);
    GatherByte1(p);
    GatherByte2(p);
    GatherByte3(p);
  }

  /** Little-endian serialisation of words: bytes 4i .. 4i+3 are the bytes
      of word i. */
  function WordsToBytes(ws: seq<Word>): (r: seq<Byte>)
    ensures |r| == 4 * |ws|
  {
    if ws == [] then [] else Store32(ws[0]) + WordsToBytes(ws[1..])
  }

  /** Little-endian reading of a byte string whose length is a multiple of
      four: word i is gathered from bytes 4i .. 4i+3. */
  function BytesToWords(b: seq<Byte>): (ws: seq<Word>)
    requires |b| % 4 == 0
    ensures |ws| == |b| / 4
  {
    seq(|b| / 4, i requires 0 <= i < |b| / 4 => Gather(b[4 * i..4 * i + 4]))
  }

  /** The four bytes of word i of the serialisation are those of ws[i]. */
  lemma {:induction false} WordsToBytesAt(ws: seq<Word>, i: nat)
    requires i < |ws|
    ensures WordsToBytes(ws)[4 * i..4 * i + 4] == Store32(ws[i])
    decreases i
  {
    if i > 0 {
      WordsToBytesAt(ws[1..], i - 1);
      assert WordsToBytes(ws)[4 * i..4 * i + 4] == WordsToBytes(ws[1..])[4 * (i - 1)..4 * (i - 1) + 4];
    }
  }

  /** Word i of a byte string read as little-endian words is the word
      gathered from its bytes 4i .. 4i+3. */
  lemma {:induction false} GatherAt(b: seq<Byte>, i: nat, b0: Byte, b1: Byte, b2: Byte, b3: Byte, w: Word)
    requires |b| % 4 == 0 && i < |b| / 4
    requires b[4 * i] == b0 && b[4 * i + 1] == b1 && b[4 * i + 2] == b2 && b[4 * i + 3] == b3
    requires Gather([b0, b1, b2, b3]) == w
    ensures BytesToWords(b)[i] == w
  {
    assert b[4 * i..4 * i + 4] == [b0, b1, b2, b3];
  }

  /** Reading back the serialisation of words gives the words. */
  lemma {:induction false} WordsRoundTrip(ws: seq<Word>)
    ensures BytesToWords(WordsToBytes(ws)) == ws
  {
    var r := WordsToBytes(ws);
    forall i | 0 <= i < |ws|
      ensures BytesToWords(r)[i] == ws[i]
    {
      WordsToBytesAt(ws, i);
    }
  }

  /** Byte j of the serialisation of the words read from b is b[j]. */
  lemma {:induction false} BytesRoundTripAt(b: seq<Byte>, j: nat)
    requires |b| % 4 == 0 && j < |b|
    ensures WordsToBytes(BytesToWords(b))[j] == b[j]
  {
    var ws := BytesToWords(b);
    var i := j / 4;
    assert 4 * i + j % 4 == j && i < |ws|;
    WordsToBytesAt(ws, i);
    StoreGather(b[4 * i..4 * i + 4]);
    assert WordsToBytes(ws)[j] == WordsToBytes(ws)[4 * i..4 * i + 4][j % 4];
  }

  /** Serialising the words read from a byte string gives the bytes back. */
  lemma {:induction false} BytesRoundTrip(b: seq<Byte>)
    requires |b| % 4 == 0
    ensures WordsToBytes(BytesToWords(b)) == b
  {
    forall j | 0 <= j < |b|
      ensures WordsToBytes(BytesToWords(b))[j] == b[j]
    {
      BytesRoundTripAt(b, j);
    }
  }
}
