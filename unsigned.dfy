/** Unsigned int arithmetic on counter words: the cast (unsigned int)n and
    the laws that tie it to arithmetic on numbers modulo 2^32. */
module Unsigned {
  import opened Bytes

  /** 2^32, the modulus of unsigned int arithmetic. */
  const M32: int := 0x1_0000_0000

  /** (unsigned int)n: the low 32 bits of n, built one bit at a time. */
  function Trunc(n: nat): (w: Word)
    decreases n
  {
    if n == 0 then 0 else (Trunc(n / 2) << 1) | (if n % 2 == 0 then 0 else 1)
  }

  lemma {:induction false} EvenStep(t: Word)
    ensures (t << 1) | 1 == ((t << 1) | 0) + 1
  {
  }

  lemma {:induction false} OddStep(t: Word)
    ensures ((t << 1) | 1) + 1 == ((t + 1) << 1) | 0
  {
  }

  lemma {:induction false} TruncIncEven(n: nat)
    requires n % 2 == 0
    ensures Trunc(n + 1) == Trunc(n) + 1
  {
    assert (n + 1) / 2 == n / 2 && (n + 1) % 2 == 1;
    EvenStep(Trunc(n / 2));
  }

  lemma {:induction false} TruncIncOdd(n: nat)
    requires n % 2 == 1
    ensures Trunc(n + 1) == Trunc(n) + 1
    decreases n, 0
  {
    assert (n + 1) / 2 == n / 2 + 1 && (n + 1) % 2 == 0;
    TruncInc(n / 2);
    OddStep(Trunc(n / 2));
  }

  /** The cast commutes with adding one: (unsigned int)(n + 1) is
      (unsigned int)n + 1 in unsigned arithmetic. */
  lemma {:induction false} TruncInc(n: nat)
    ensures Trunc(n + 1) == Trunc(n) + 1
    decreases n, 1
  {
    if n % 2 == 0 {
      TruncIncEven(n);
    } else {
      TruncIncOdd(n);
    }
  }

  lemma {:induction false} TruncDouble(n: nat)
    ensures Trunc(2 * n) == Trunc(n) << 1
  {
    if n > 0 {
      assert (2 * n) / 2 == n && (2 * n) % 2 == 0;
    }
  }

  /** 2^32 casts to zero: doubling 32 times shifts the one bit out. */
  lemma {:induction false} TruncWrap()
    ensures Trunc(M32) == 0
  {
    var p: nat := 1;
    var w: Word := 1;
    assert Trunc(p) == w;
    TruncDouble(p); p, w := 2 * p, w << 1;
    TruncDouble(p); p, w := 2 * p, w << 1;
    TruncDouble(p); p, w := 2 * p, w << 1;
    TruncDouble(p); p, w := 2 * p, w << 1;
    TruncDouble(p); p, w := 2 * p, w << 1;
    TruncDouble(p); p, w := 2 * p, w << 1;
    TruncDouble(p); p, w := 2 * p, w << 1;
    TruncDouble(p); p, w := 2 * p, w << 1;
    TruncDouble(p); p, w := 2 * p, w << 1;
    TruncDouble(p); p, w := 2 * p, w << 1;
    TruncDouble(p); p, w := 2 * p, w << 1;
    TruncDouble(p); p, w := 2 * p, w << 1;
    TruncDouble(p); p, w := 2 * p, w << 1;
    TruncDouble(p); p, w := 2 * p, w << 1;
    TruncDouble(p); p, w := 2 * p, w << 1;
    TruncDouble(p); p, w := 2 * p, w << 1;
    TruncDouble(p); p, w := 2 * p, w << 1;
    TruncDouble(p); p, w := 2 * p, w << 1;
    TruncDouble(p); p, w := 2 * p, w << 1;
    TruncDouble(p); p, w := 2 * p, w << 1;
    TruncDouble(p); p, w := 2 * p, w << 1;
    TruncDouble(p); p, w := 2 * p, w << 1;
    TruncDouble(p); p, w := 2 * p, w << 1;
    TruncDouble(p); p, w := 2 * p, w << 1;
    TruncDouble(p); p, w := 2 * p, w << 1;
    TruncDouble(p); p, w := 2 * p, w << 1;
    TruncDouble(p); p, w := 2 * p, w << 1;
    TruncDouble(p); p, w := 2 * p, w << 1;
    TruncDouble(p); p, w := 2 * p, w << 1;
    TruncDouble(p); p, w := 2 * p, w << 1;
    TruncDouble(p); p, w := 2 * p, w << 1;
    TruncDouble(p); p, w := 2 * p, w << 1;
    assert p == M32 && w == 0;
  }

  /** The cast sees n modulo 2^32 only. */
  lemma {:induction false} TruncPeriodic(n: nat)
    ensures Trunc(n + M32) == Trunc(n)
    decreases n
  {
    if n == 0 {
      TruncWrap();
    } else {
      TruncPeriodic(n - 1);
      TruncInc(n - 1);
      TruncInc(n - 1 + M32);
    }
  }

  /** CHACHA_U8TOU32 read as a number: the bytes of p, least significant
      first. */
  function Load(p: seq<Byte>): (n: int)
    requires |p| == 4
    ensures 0 <= n < M32
  {
    p[0] as int + 0x100 * (p[1] as int + 0x100 * (p[2] as int + 0x100 * p[3] as int))
  }

  lemma {:induction false} DivMod256(a: int, q: int)
    requires 0 <= a < 0x100 && 0 <= q
    ensures (a + 0x100 * q) % 0x100 == a && (a + 0x100 * q) / 0x100 == q
  {
  }

  /** Load reads four base-256 digits, least significant first: each digit
      comes back out by division and remainder. */
  lemma {:induction false} LoadDigit0(p: seq<Byte>)
    requires |p| == 4
    ensures Load(p) % 0x100 == p[0] as int
  {
    DivMod256(p[0] as int, p[1] as int + 0x100 * (p[2] as int + 0x100 * p[3] as int));
  }

  lemma {:induction false} LoadDigit1(p: seq<Byte>)
    requires |p| == 4
    ensures Load(p) / 0x100 % 0x100 == p[1] as int
  {
    var q := p[2] as int + 0x100 * p[3] as int;
    DivMod256(p[0] as int, p[1] as int + 0x100 * q);
    DivMod256(p[1] as int, q);
  }

  lemma {:induction false} LoadDigit2(p: seq<Byte>)
    requires |p| == 4
    ensures Load(p) / 0x100 / 0x100 % 0x100 == p[2] as int
  {
    var q2 := p[2] as int + 0x100 * p[3] as int;
    var q1 := p[1] as int + 0x100 * q2;
    DivMod256(p[0] as int, q1);
    assert Load(p) / 0x100 == q1;
    DivMod256(p[1] as int, q2);
    assert q1 / 0x100 == q2;
    DivMod256(p[2] as int, p[3] as int);
  }

  lemma {:induction false} LoadDigit3(p: seq<Byte>)
    requires |p| == 4
    ensures Load(p) / 0x100 / 0x100 / 0x100 == p[3] as int
  {
    var q2 := p[2] as int + 0x100 * p[3] as int;
    var q1 := p[1] as int + 0x100 * q2;
    DivMod256(p[0] as int, q1);
    assert Load(p) / 0x100 == q1;
    DivMod256(p[1] as int, q2);
    assert q1 / 0x100 == q2;
    DivMod256(p[2] as int, p[3] as int);
  }

  /** The number a word stands for, read bit by bit from the top: the
      inverse of the cast. */
  function Value(w: Word): (n: nat)
    decreases w
  {
    if w == 0 then 0 else 2 * Value(w >> 1) + (if w & 1 == 0 then 0 else 1)
  }

  /** A word is its upper 31 bits shifted back, with its low bit. */
  lemma {:induction false} BitSplit(w: Word)
    ensures ((w >> 1) << 1) | (if w & 1 == 0 then 0 else 1) == w
  {
  }

  /** One more low bit: the cast of 2v + b shifts the cast of v and puts b
      at bit 0. */
  lemma {:induction false} TruncStep(v: nat, odd: bool)
    ensures Trunc(2 * v + (if odd then 1 else 0)) == (Trunc(v) << 1) | (if odd then 1 else 0)
  {
    var n := 2 * v + (if odd then 1 else 0);
    assert n / 2 == v && n % 2 == (if odd then 1 else 0);
    if n == 0 {
      assert v == 0;
    }
  }

  /** The step of TruncValue: if v casts to the upper 31 bits of w, then
      2v plus the low bit of w casts to w. */
  lemma {:induction false} TruncBits(w: Word, v: nat)
    requires Trunc(v) == w >> 1
    ensures Trunc(2 * v + (if w & 1 == 0 then 0 else 1)) == w
  {
    TruncStep(v, w & 1 != 0);
    BitSplit(w);
  }

  /** Every word is the cast of a number, so the lemmas about Trunc apply
      to any counter word. */
  lemma {:induction false} TruncValue(w: Word)
    ensures Trunc(Value(w)) == w
    decreases w
  {
    if w != 0 {
      TruncValue(w >> 1);
      TruncBits(w, Value(w >> 1));
    }
  }

  /** A byte's value casts to the byte itself, widened to a word. */
  lemma {:induction false} TruncByte(b: Byte)
    ensures Trunc(b as int) == b as Word
    decreases b
  {
    if b != 0 {
      TruncByte(b >> 1);
      assert b as int == 2 * (b >> 1) as int + (if b & 1 == 0 then 0 else 1);
      TruncStep((b >> 1) as int, b & 1 != 0);
    }
  }

  /** TruncStep read from the number being cast: n is 2v plus its low bit. */
  lemma {:induction false} TruncHalf(n: nat, v: nat, odd: bool)
    requires n == 2 * v + (if odd then 1 else 0)
    ensures Trunc(n) == (Trunc(v) << 1) | (if odd then 1 else 0)
  {
    TruncStep(v, odd);
  }

  /** 2^k. */
  function Pow2(k: nat): (p: nat)
    ensures 0 < p
  {
    if k == 0 then 1 else 2 * Pow2(k - 1)
  }

  /** q times 2^k, doubled k times. */
  function Scale(q: nat, k: nat): (n: nat)
  {
    if k == 0 then q else 2 * Scale(q, k - 1)
  }

  /** Adding a < 2^k to a multiple of 2^k fills the low k bits of its cast:
      both casts take the same low bits of a. */
  lemma {:induction false} TruncLow(a: nat, q: nat, k: nat)
    requires a < Pow2(k)
    ensures Trunc(a + Scale(q, k)) == Trunc(Scale(q, k)) | Trunc(a)
    decreases k
  {
    if k == 0 {
      assert a == 0;
    } else {
      var h, odd := a / 2, a % 2 == 1;
      var m := Scale(q, k - 1);
      TruncLow(h, q, k - 1);
      assert a == 2 * h + (if odd then 1 else 0);
      TruncHalf(a + Scale(q, k), h + m, odd);
      TruncHalf(Scale(q, k), m, false);
      TruncHalf(a, h, odd);
    }
  }

  /** The cast of 256 q is the cast of q moved up eight bits. */
  lemma {:induction false} TruncTimes256(q: nat)
    ensures Trunc(0x100 * q) == Trunc(q) << 8
  {
    TruncHalf(256 * q, 128 * q, false);
    TruncHalf(128 * q, 64 * q, false);
    TruncHalf(64 * q, 32 * q, false);
    TruncHalf(32 * q, 16 * q, false);
    TruncHalf(16 * q, 8 * q, false);
    TruncHalf(8 * q, 4 * q, false);
    TruncHalf(4 * q, 2 * q, false);
    TruncHalf(2 * q, 1 * q, false);
  }

  /** The cast of a + 256 q, for a < 256, is the cast of q moved up eight
      bits with the cast of a in the low byte. */
  lemma {:induction false} TruncShift8(a: nat, q: nat)
    requires a < 0x100
    ensures Trunc(a + 0x100 * q) == (Trunc(q) << 8) | Trunc(a)
  {
    assert Pow2(8) == 0x100;
    assert Scale(q, 1) == 2 * q;
    assert Scale(q, 2) == 4 * q;
    assert Scale(q, 3) == 8 * q;
    assert Scale(q, 4) == 16 * q;
    assert Scale(q, 5) == 32 * q;
    assert Scale(q, 6) == 64 * q;
    assert Scale(q, 7) == 128 * q;
    assert Scale(q, 8) == 0x100 * q;
    TruncLow(a, q, 8);
    TruncTimes256(q);
  }

  /** Four digits base 256 cast to the word of their casts, most
      significant last. */
  lemma {:induction false} TruncDigits(n: nat, a0: nat, a1: nat, a2: nat, a3: nat, w0: Word, w1: Word, w2: Word, w3: Word)
    requires n == a0 + 0x100 * (a1 + 0x100 * (a2 + 0x100 * a3))
    requires a0 < 0x100 && a1 < 0x100 && a2 < 0x100
    requires Trunc(a0) == w0 && Trunc(a1) == w1 && Trunc(a2) == w2 && Trunc(a3) == w3
    ensures Trunc(n) == (((((w3 << 8) | w2) << 8) | w1) << 8) | w0
  {
    TruncShift8(a2, a3);
    TruncShift8(a1, a2 + 0x100 * a3);
    TruncShift8(a0, a1 + 0x100 * (a2 + 0x100 * a3));
  }

  /** A byte as a digit base 256, with its cast. */
  lemma {:induction false} ByteDigit(b: Byte) returns (a: nat)
    ensures a == b as int && a < 0x100 && Trunc(a) == b as Word
  {
    a := b as int;
    TruncByte(b);
  }

  /** Four bytes read as a number base 256 cast to the word with those
      bytes, least significant first. */
  lemma {:induction false} TruncBytes(n: nat, b0: Byte, b1: Byte, b2: Byte, b3: Byte)
    requires n == b0 as int + 0x100 * (b1 as int + 0x100 * (b2 as int + 0x100 * b3 as int))
    ensures Trunc(n) == (((((b3 as Word << 8) | b2 as Word) << 8) | b1 as Word) << 8) | b0 as Word
  {
    var a0 := ByteDigit(b0);
    var a1 := ByteDigit(b1);
    var a2 := ByteDigit(b2);
    var a3 := ByteDigit(b3);
    TruncDigits(n, a0, a1, a2, a3, b0 as Word, b1 as Word, b2 as Word, b3 as Word);
  }

  /** CHACHA_U8TOU32 read as a number and cast back is CHACHA_U8TOU32 read
      as a word: Load and Gather agree. */
  lemma {:induction false} LoadGather(p: seq<Byte>)
    requires |p| == 4
    ensures Trunc(Load(p)) == Gather(p)
  {
    TruncBytes(Load(p), p[0], p[1], p[2], p[3]);
  }
}
