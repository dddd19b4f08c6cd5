/** The ChaCha20 block function (chacha20_core with its QUARTERROUND and
    ROTATE macros), following sections 2.1 and 2.3 of RFC 8439. */
module ChaChaCore {
  import opened Bytes

  /** ROTATE(v, n): rotation of a 32-bit word left by n places. */
  function Rotate(v: Word, n: Word): (r: Word)
    requires 0 < n < 32
  {
    (v << n) | (v >> (32 - n))
  }

  /** The shift-or form of ROTATE is the circular left rotation. */
  lemma {:induction false} RotateIsRotateLeft(v: Word, n: Word)
    requires 0 < n < 32
    ensures Rotate(v, n) == v.RotateLeft(n as nat)
  {
    if n < 8 {
      RotateLeftBelow8(v, n);
    } else if n < 16 {
      RotateLeftBelow16(v, n);
    } else if n < 24 {
      RotateLeftBelow24(v, n);
    } else {
      RotateLeftBelow32(v, n);
    }
  }

  lemma {:induction false} RotateLeftBelow8(v: Word, n: Word)
    requires 0 < n < 8
    ensures Rotate(v, n) == v.RotateLeft(n as nat)
  {
    if n == 1 {} else if n == 2 {} else if n == 3 {} else if n == 4 {}
    else if n == 5 {} else if n == 6 {} else {}
  }

  lemma {:induction false} RotateLeftBelow16(v: Word, n: Word)
    requires 8 <= n < 16
    ensures Rotate(v, n) == v.RotateLeft(n as nat)
  {
    if n == 8 {} else if n == 9 {} else if n == 10 {} else if n == 11 {}
    else if n == 12 {} else if n == 13 {} else if n == 14 {} else {}
  }

  lemma {:induction false} RotateLeftBelow24(v: Word, n: Word)
    requires 16 <= n < 24
    ensures Rotate(v, n) == v.RotateLeft(n as nat)
  {
    if n == 16 {} else if n == 17 {} else if n == 18 {} else if n == 19 {}
    else if n == 20 {} else if n == 21 {} else if n == 22 {} else {}
  }

  lemma {:induction false} RotateLeftBelow32(v: Word, n: Word)
    requires 24 <= n < 32
    ensures Rotate(v, n) == v.RotateLeft(n as nat)
  {
    if n == 24 {} else if n == 25 {} else if n == 26 {} else if n == 27 {}
    else if n == 28 {} else if n == 29 {} else if n == 30 {} else {}
  }

  /** One add-xor-rotate step of the quarter round, on the words (x, y, z):
      x += y; z = ROTATE(z ^ x, r). The new x and z are returned. */
  function Mix(x: Word, y: Word, z: Word, r: Word): (m: (Word, Word))
    requires 0 < r < 32
  {
    (x + y, Rotate(z ^ (x + y), r))
  }

  /** The step Mix undone: the old x and z from the new ones. */
  function Unmix(x: Word, y: Word, z: Word, r: Word): (u: (Word, Word))
    requires 0 < r < 32
  {
    (x - y, Rotate(z, 32 - r) ^ x)
  }

  lemma {:induction false} RotateBack7(v: Word) ensures Rotate(Rotate(v, 7), 25) == v {}
  lemma {:induction false} RotateBack8(v: Word) ensures Rotate(Rotate(v, 8), 24) == v {}
  lemma {:induction false} RotateBack12(v: Word) ensures Rotate(Rotate(v, 12), 20) == v {}
  lemma {:induction false} RotateBack16(v: Word) ensures Rotate(Rotate(v, 16), 16) == v {}

  /** The x half of Unmix undoes the x half of Mix, whatever the rotation. */
  lemma {:induction false} UnmixMixFirst(x: Word, y: Word, z: Word, r: Word)
    requires 0 < r < 32
    ensures Unmix(Mix(x, y, z, r).0, y, Mix(x, y, z, r).1, r).0 == x
  {
    assert Mix(x, y, z, r).0 == x + y;
    assert Unmix(x + y, y, Mix(x, y, z, r).1, r).0 == (x + y) - y;
  }

  /** Each step of the quarter round is undone by Unmix, for each rotation
      amount the quarter round uses. */
  lemma {:induction false} MixInverse16(x: Word, y: Word, z: Word)
    ensures var (x', z') := Mix(x, y, z, 16); Unmix(x', y, z', 16) == (x, z)
  {
    UnmixMixFirst(x, y, z, 16);
    RotateBack16(z ^ (x + y));
  }

  lemma {:induction false} MixInverse12(x: Word, y: Word, z: Word)
    ensures var (x', z') := Mix(x, y, z, 12); Unmix(x', y, z', 12) == (x, z)
  {
    UnmixMixFirst(x, y, z, 12);
    RotateBack12(z ^ (x + y));
  }

  lemma {:induction false} MixInverse8(x: Word, y: Word, z: Word)
    ensures var (x', z') := Mix(x, y, z, 8); Unmix(x', y, z', 8) == (x, z)
  {
    UnmixMixFirst(x, y, z, 8);
    RotateBack8(z ^ (x + y));
  }

  lemma {:induction false} MixInverse7(x: Word, y: Word, z: Word)
    ensures var (x', z') := Mix(x, y, z, 7); Unmix(x', y, z', 7) == (x, z)
  {
    UnmixMixFirst(x, y, z, 7);
    RotateBack7(z ^ (x + y));
  }

  /** QUARTERROUND on the words (a, b, c, d):
      a += b; d = ROTATE(d ^ a, 16); c += d; b = ROTATE(b ^ c, 12);
      a += b; d = ROTATE(d ^ a, 8);  c += d; b = ROTATE(b ^ c, 7). */
  function QuarterRound(a: Word, b: Word, c: Word, d: Word): (q: (Word, Word, Word, Word))
  {
    var (a1, d1) := Mix(a, b, d, 16);
    var (c1, b1) := Mix(c, d1, b, 12);
    var (a2, d2) := Mix(a1, b1, d1, 8);
    var (c2, b2) := Mix(c1, d2, b1, 7);
    (a2, b2, c2, d2)
  }

  /** The quarter round run backwards. */
  function InverseQuarterRound(a: Word, b: Word, c: Word, d: Word): (q: (Word, Word, Word, Word))
  {
    var (c1, b1) := Unmix(c, d, b, 7);
    var (a1, d1) := Unmix(a, b1, d, 8);
    var (c2, b2) := Unmix(c1, d1, b1, 12);
    var (a2, d2) := Unmix(a1, b2, d1, 16);
    (a2, b2, c2, d2)
  }

  /** The quarter round loses no information: running it backwards gives
      back the four words it started from. */
  lemma {:induction false} QuarterRoundInverse(a: Word, b: Word, c: Word, d: Word)
    ensures var (w, x, y, z) := QuarterRound(a, b, c, d); InverseQuarterRound(w, x, y, z) == (a, b, c, d)
  {
    var (a1, d1) := Mix(a, b, d, 16);
    MixInverse16(a, b, d);
    var (c1, b1) := Mix(c, d1, b, 12);
    MixInverse12(c, d1, b);
    var (a2, d2) := Mix(a1, b1, d1, 8);
    MixInverse8(a1, b1, d1);
    MixInverse7(c1, d2, b1);
  }

  /** The quarter-round test vector of section 2.1.1 of RFC 8439. */
  lemma {:induction false} QuarterRoundTestVector()
    ensures QuarterRound(0x11111111, 0x01020304, 0x9b8d6f43, 0x01234567)
         == (0xea2a92f4, 0xcb1cf8ce, 0x4581472e, 0x5881c4bb)
  {
  }

  /** The 16-word state the rounds work on. */
  type State = s: seq<Word> | |s| == 16 witness seq(16, i => 0)

  /** A position in the state. */
  type Index = i: int | 0 <= i < 16

  /** Four distinct positions of the state. */
  predicate Distinct(a: Index, b: Index, c: Index, d: Index) {
    a != b && a != c && a != d && b != c && b != d && c != d
  }

  /** The quarter round applied to positions a, b, c, d of the state:
      those four words are replaced, every other word is kept. */
  function QuarterRoundAt(s: State, a: Index, b: Index, c: Index, d: Index): (t: State)
  {
    var (na, nb, nc, nd) := QuarterRound(s[a], s[b], s[c], s[d]);
    s[a := na][b := nb][c := nc][d := nd]
  }

  /** QuarterRoundAt run backwards. */
  function InverseQuarterRoundAt(s: State, a: Index, b: Index, c: Index, d: Index): (t: State)
  {
    var (na, nb, nc, nd) := InverseQuarterRound(s[a], s[b], s[c], s[d]);
    s[a := na][b := nb][c := nc][d := nd]
  }

  lemma {:induction false} QuarterRoundAtInverse(s: State, a: Index, b: Index, c: Index, d: Index)
    requires Distinct(a, b, c, d)
    ensures InverseQuarterRoundAt(QuarterRoundAt(s, a, b, c, d), a, b, c, d) == s
  {
    QuarterRoundInverse(s[a], s[b], s[c], s[d]);
  }

  /** The positions a quarter round works on. */
  type Quad = (Index, Index, Index, Index)

  /** The eight quarter rounds of one pass of the loop in chacha20_core:
      the columns (0,4,8,12) .. (3,7,11,15), then the diagonals
      (0,5,10,15) .. (3,4,9,14). */
  const DoubleRoundQuads: seq<Quad> :=
    [(0, 4, 8, 12), (1, 5, 9, 13), (2, 6, 10, 14), (3, 7, 11, 15),
     (0, 5, 10, 15), (1, 6, 11, 12), (2, 7, 8, 13), (3, 4, 9, 14)]

  /** Each quarter round of a pass works on four distinct positions. */
  lemma {:induction false} DoubleRoundQuadDistinct(k: int)
    requires 0 <= k < 8
    ensures Distinct(DoubleRoundQuads[k].0, DoubleRoundQuads[k].1, DoubleRoundQuads[k].2, DoubleRoundQuads[k].3)
  {
  }

  /** The state after r rounds (two per pass of the loop) followed by the
      first k quarter rounds of the next pass. */
  function Mixed(s: State, r: int, k: int): (t: State)
    requires 0 <= k <= 8
    decreases r, k, s
  {
    if k > 0 then
      var q := DoubleRoundQuads[k - 1];
      QuarterRoundAt(Mixed(s, r, k - 1), q.0, q.1, q.2, q.3)
    else if r <= 0 then s
    else Mixed(s, r - 2, 8)
  }

  /** The state after r rounds: r / 2 passes of the loop, for even r. */
  function Rounds(s: State, r: int): (t: State)
  {
    Mixed(s, r, 0)
  }

  /** One pass of the loop in chacha20_core: two of the 20 rounds. */
  function DoubleRound(s: State): (t: State)
  {
    Mixed(s, 0, 8)
  }

  /** The quarter rounds of a pass start from the rounds before it. */
  lemma {:induction false} MixedAfterRounds(s: State, r: int, k: int)
    requires 0 <= k <= 8
    ensures Mixed(s, r, k) == Mixed(Rounds(s, r), 0, k)
    decreases k
  {
    if k > 0 {
      MixedAfterRounds(s, r, k - 1);
    }
  }

  /** The last pass of the loop comes after the rounds before it. */
  lemma {:induction false} RoundsLast(s: State, r: int)
    requires r > 0
    ensures Rounds(s, r) == DoubleRound(Rounds(s, r - 2))
  {
    MixedAfterRounds(s, r - 2, 8);
  }

  /** The rounds as the loop of chacha20_core runs them: the first pass,
      then the remaining r - 2 rounds. */
  lemma {:induction false} RoundsFirst(s: State, r: int)
    requires r > 0
    ensures Rounds(s, r) == Rounds(DoubleRound(s), r - 2)
    decreases r
  {
    RoundsLast(s, r);
    if r - 2 > 0 {
      RoundsFirst(s, r - 2);
      RoundsLast(DoubleRound(s), r - 2);
    }
  }

  /** The first k quarter rounds of a pass undone, last one first. */
  function Unmixed(s: State, k: int): (t: State)
    requires 0 <= k <= 8
    decreases k
  {
    if k == 0 then s
    else
      var q := DoubleRoundQuads[k - 1];
      Unmixed(InverseQuarterRoundAt(s, q.0, q.1, q.2, q.3), k - 1)
  }

  /** The quarter rounds of a pass lose no information. */
  lemma {:induction false} UnmixedMixed(s: State, k: int)
    requires 0 <= k <= 8
    ensures Unmixed(Mixed(s, 0, k), k) == s
    decreases k
  {
    if k > 0 {
      var q := DoubleRoundQuads[k - 1];
      var m := Mixed(s, 0, k - 1);
      DoubleRoundQuadDistinct(k - 1);
      QuarterRoundAtInverse(m, q.0, q.1, q.2, q.3);
      assert Unmixed(Mixed(s, 0, k), k) == Unmixed(m, k - 1);
      UnmixedMixed(s, k - 1);
    }
  }

  /** The double round undone. */
  function InverseDoubleRound(s: State): (t: State)
  {
    Unmixed(s, 8)
  }

  /** A double round loses no information. */
  lemma {:induction false} DoubleRoundInverse(s: State)
    ensures InverseDoubleRound(DoubleRound(s)) == s
  {
    UnmixedMixed(s, 8);
  }

  /** The rounds undone, last double round first. */
  function InverseRounds(s: State, r: int): (t: State)
    decreases r, s
  {
    if r <= 0 then s else InverseRounds(InverseDoubleRound(s), r - 2)
  }

  /** The rounds alone are a permutation of the state: the input can be
      recovered from their output, which is why the block function adds
      the input back in. */
  lemma {:induction false} RoundsInverse(s: State, r: int)
    ensures InverseRounds(Rounds(s, r), r) == s
    decreases r
  {
    if r > 0 {
      RoundsLast(s, r);
      DoubleRoundInverse(Rounds(s, r - 2));
      RoundsInverse(s, r - 2);
    }
  }

  /** Addition of words modulo 2^32. */
  function Add(a: Word, b: Word): (c: Word) {
    a + b
  }

  /** Word i of the block before serialisation: the mixed word plus input word i. */
  function FeedForward(x: State, input: State): (t: State)
  {
    seq(16, i requires 0 <= i < 16 => Add(x[i], input[i]))
  }

  /** The 64-byte keystream block for a 16-word input: 20 rounds (10 double
      rounds), the input added back word by word modulo 2^32, each word
      written out least significant byte first. */
  function Block(input: State): (r: seq<Byte>)
    ensures |r| == 64
  {
    WordsToBytes(FeedForward(Rounds(input, 20), input))
  }

  /** Reading the block back as little-endian words gives the mixed state
      plus the input, word by word. */
  lemma {:induction false} BlockWords(input: State)
    ensures BytesToWords(Block(input)) == FeedForward(Rounds(input, 20), input)
  {
    WordsRoundTrip(FeedForward(Rounds(input, 20), input));
  }

  /** QuarterRoundAt is the only state that changes positions a, b, c, d
      as the quarter round does and keeps all the others. */
  lemma {:induction false} QuarterRoundAtUnique(s: State, t: State, a: Index, b: Index, c: Index, d: Index)
    requires Distinct(a, b, c, d)
    requires (t[a], t[b], t[c], t[d]) == QuarterRound(s[a], s[b], s[c], s[d])
    requires forall i :: 0 <= i < 16 && i != a && i != b && i != c && i != d ==> t[i] == s[i]
    ensures t == QuarterRoundAt(s, a, b, c, d)
  {
    var u := QuarterRoundAt(s, a, b, c, d);
    assert forall i :: 0 <= i < 16 ==> t[i] == u[i];
  }

  /** QUARTERROUND(a, b, c, d): the quarter round done in place on x. */
  method QuarterRoundInPlace(x: array<Word>, a: Index, b: Index, c: Index, d: Index)
    requires x.Length == 16 && Distinct(a, b, c, d)
    modifies x
    ensures x[..] == QuarterRoundAt(old(x[..]), a, b, c, d)
  {
    ghost var s := x[..];
    // each line: x[a] += x[b], x[d] = ROTATE(x[d] ^ x[a], 16), and so on
    x[a], x[d] := Mix(x[a], x[b], x[d], 16).0, Mix(x[a], x[b], x[d], 16).1;
    x[c], x[b] := Mix(x[c], x[d], x[b], 12).0, Mix(x[c], x[d], x[b], 12).1;
    x[a], x[d] := Mix(x[a], x[b], x[d], 8).0, Mix(x[a], x[b], x[d], 8).1;
    x[c], x[b] := Mix(x[c], x[d], x[b], 7).0, Mix(x[c], x[d], x[b], 7).1;
    assert (x[a], x[b], x[c], x[d]) == QuarterRound(s[a], s[b], s[c], s[d]);
    QuarterRoundAtUnique(s, x[..], a, b, c, d);
  }

  /** The four column quarter rounds of the loop body, in place. */
  method ColumnRoundInPlace(x: array<Word>)
    requires x.Length == 16
    modifies x
    ensures x[..] == Mixed(old(x[..]), 0, 4)
  {
    ghost var s := x[..];
    QuarterRoundInPlace(x, 0, 4, 8, 12);
    assert x[..] == Mixed(s, 0, 1);
    QuarterRoundInPlace(x, 1, 5, 9, 13);
    assert x[..] == Mixed(s, 0, 2);
    QuarterRoundInPlace(x, 2, 6, 10, 14);
    assert x[..] == Mixed(s, 0, 3);
    QuarterRoundInPlace(x, 3, 7, 11, 15);
  }

  /** The four diagonal quarter rounds of the loop body, in place. */
  method DiagonalRoundInPlace(x: array<Word>, ghost s: State)
    requires x.Length == 16 && x[..] == Mixed(s, 0, 4)
    modifies x
    ensures x[..] == DoubleRound(s)
  {
    QuarterRoundInPlace(x, 0, 5, 10, 15);
    assert x[..] == Mixed(s, 0, 5);
    QuarterRoundInPlace(x, 1, 6, 11, 12);
    assert x[..] == Mixed(s, 0, 6);
    QuarterRoundInPlace(x, 2, 7, 8, 13);
    assert x[..] == Mixed(s, 0, 7);
    QuarterRoundInPlace(x, 3, 4, 9, 14);
  }

  /** U32TO8_LITTLE(p, v): the four bytes of v, least significant first, at p. */
  method StoreLittle(out: array<Byte>, off: nat, w: Word)
    requires off + 4 <= out.Length
    modifies out
    ensures forall k :: 0 <= k < out.Length && !(off <= k < off + 4) ==> out[k] == old(out[k])
    ensures forall m :: 0 <= m < 4 ==> out[off + m] == Store32(w)[m]
  {
    var p := Store32(w);
    out[off], out[off + 1], out[off + 2], out[off + 3] := p[0], p[1], p[2], p[3];
  }

  /** The first half of chacha20_core: copy the input and apply ten
      double rounds to the copy. */
  method Permute(input: State) returns (x: array<Word>)
    ensures fresh(x) && x.Length == 16
    ensures x[..] == Rounds(input, 20)
  {
    x := new Word[16](j requires 0 <= j < 16 => input[j]);
    assert x[..] == input;
    var i := 20;
    while i > 0
      invariant Rounds(x[..], i) == Rounds(input, 20)
    {
      ghost var s := x[..];
      RoundsFirst(s, i);
      ColumnRoundInPlace(x);
      DiagonalRoundInPlace(x, s);
      i := i - 2;
    }
  }

  /** The second half of chacha20_core: add the input back and write the
      sum out, word by word, least significant byte first. */
  method Serialize(output: array<Byte>, x: array<Word>, input: State)
    requires output.Length == 64 && x.Length == 16
    modifies output
    ensures output[..] == WordsToBytes(FeedForward(old(x[..]), input))
  {
    ghost var words := FeedForward(x[..], input);
    ghost var bytes := WordsToBytes(words);
    var i := 0;
    while i < 16
      invariant 0 <= i <= 16
      invariant forall k :: 0 <= k < 4 * i ==> output[k] == bytes[k]
    {
      StoreLittle(output, 4 * i, x[i] + input[i]);
      WordsToBytesAt(words, i);
      assert bytes[4 * i..4 * i + 4] == Store32(words[i]);
      i := i + 1;
    }
    assert output[..] == bytes;
  }

  /** chacha20_core: the keystream block of the input, written to output. */
  method ChaCha20Core(output: array<Byte>, input: State)
    requires output.Length == 64
    modifies output
    ensures output[..] == Block(input)
  {
    var x := Permute(input);
    Serialize(output, x, input);
  }
}
