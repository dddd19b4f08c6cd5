/** The block function test vector of section 2.3.2 of RFC 8439, traced
    pass by pass through the loop of chacha20_core. */
module Vectors {
  import opened Bytes
  import opened ChaChaCore
  import opened Ctr32

  /** The key of the vector: the bytes 00, 01, ..., 1f. */
  const KeyBytes: seq<Byte> :=
    [0x00, 0x01, 0x02, 0x03, 0x04, 0x05, 0x06, 0x07, 0x08, 0x09, 0x0a, 0x0b, 0x0c, 0x0d, 0x0e, 0x0f,
     0x10, 0x11, 0x12, 0x13, 0x14, 0x15, 0x16, 0x17, 0x18, 0x19, 0x1a, 0x1b, 0x1c, 0x1d, 0x1e, 0x1f]

  /** The counter words of the vector: block count 1 and the nonce
      00 00 00 09 00 00 00 4a 00 00 00 00 read as little-endian words. */
  const CounterWords: seq<Word> := [0x00000001, 0x09000000, 0x4a000000, 0x00000000]

  /** The serialised block the vector publishes. */
  const ExpectedBlock: seq<Byte> :=
    [0x10, 0xf1, 0xe7, 0xe4, 0xd1, 0x3b, 0x59, 0x15, 0x50, 0x0f, 0xdd, 0x1f, 0xa3, 0x20, 0x71, 0xc4] +
    [0xc7, 0xd1, 0xf4, 0xc7, 0x33, 0xc0, 0x68, 0x03, 0x04, 0x22, 0xaa, 0x9a, 0xc3, 0xd4, 0x6c, 0x4e] +
    [0xd2, 0x82, 0x64, 0x46, 0x07, 0x9f, 0xaa, 0x09, 0x14, 0xc2, 0xd7, 0x05, 0xd9, 0x8b, 0x02, 0xa2] +
    [0xb5, 0x12, 0x9c, 0xd1, 0xde, 0x16, 0x4e, 0xb9, 0xcb, 0xd0, 0x83, 0xe8, 0xa2, 0x50, 0x3c, 0x4e]

  /** The state before pass 0 of the loop. */
  const Pass0: State :=
    [0x61707865, 0x3320646e, 0x79622d32, 0x6b206574, 0x03020100, 0x07060504, 0x0b0a0908, 0x0f0e0d0c,
     0x13121110, 0x17161514, 0x1b1a1918, 0x1f1e1d1c, 0x00000001, 0x09000000, 0x4a000000, 0x00000000]

  /** The state before pass 1 of the loop. */
  const Pass1: State :=
    [0xcd52e917, 0x85ab03b4, 0xb3457395, 0xf96de7dd, 0xc4b7cd22, 0x5c2e187a, 0xc95eb461, 0x316c801a,
     0x7bf7d740, 0x7eddd644, 0xf1a1bdf5, 0x761246ca, 0x6b0d58a3, 0x6798471a, 0xd737f167, 0xf173888d]

  /** The state before pass 2 of the loop. */
  const Pass2: State :=
    [0xcf1a7584, 0x048927ec, 0x54051fda, 0xc244ff28, 0x901d2f40, 0x7974b81c, 0x378dcfb4, 0xcd47fd0e,
     0x2dafb216, 0x27c89cd6, 0xcd3c9aa0, 0x79fc89c7, 0x10aef18d, 0x16218765, 0x68f76705, 0x04d6ee22]

  /** The state before pass 3 of the loop. */
  const Pass3: State :=
    [0x03a14032, 0x66b15927, 0x9d6b6b42, 0xb84c4109, 0xa7143ae0, 0xa09b33dd, 0xa5daaf88, 0x2fd91a73,
     0xc90c6b18, 0x5a202413, 0xc20e01b6, 0x72cd6b74, 0xba35d777, 0xb360f1bf, 0x8178315b, 0x2cd11b1a]

  /** The state before pass 4 of the loop. */
  const Pass4: State :=
    [0x9a2d3589, 0x0b23fc4e, 0x40af3b6b, 0xceea8144, 0x0a1bffc6, 0x5e5993f7, 0x9904c2e7, 0x0d334718,
     0xe46c6354, 0xc9503229, 0x04fef5aa, 0xf8933f72, 0x2687d476, 0x54e65231, 0x3594ffc5, 0x2b3bb2ca]

  /** The state before pass 5 of the loop. */
  const Pass5: State :=
    [0xc53318c5, 0xca325d96, 0x7e7d11cb, 0x3404e2ca, 0x26d7cf73, 0x6088d379, 0xc0f0e9bd, 0xe310cdb9,
     0xae2ca8db, 0x42f67c72, 0x71669aca, 0x975c171d, 0x9e5ec228, 0x7d85a9f3, 0x201d0756, 0x63fa6953]

  /** The state before pass 6 of the loop. */
  const Pass6: State :=
    [0x04a3131a, 0x66176309, 0x0415bab1, 0x61b880a2, 0x36cc86c7, 0xbf8a4465, 0xf77dd720, 0xfc0bdc90,
     0x07d13aca, 0xeb0be9af, 0x61599491, 0x918512dc, 0x33b6686d, 0x795cc671, 0xc0049972, 0xa0a81bde]

  /** The state before pass 7 of the loop. */
  const Pass7: State :=
    [0x9b70f51f, 0x7ea8ac11, 0x21e54da9, 0xca393b2f, 0x93b08686, 0x6a4c50ae, 0x19212a5a, 0x9b032958,
     0xd839165e, 0x4c06e28a, 0xd3fde99e, 0x26acc13d, 0xa609f555, 0x2c246549, 0x95151853, 0x2c847a0d]

  /** The state before pass 8 of the loop. */
  const Pass8: State :=
    [0xca5c85dd, 0x93a4f90e, 0xd9f0df58, 0x26dd82dd, 0x982563f8, 0x712aa9ff, 0x279a61e8, 0x970f72bd,
     0x1c25931a, 0x5180bb10, 0x779c27e7, 0x54077e08, 0xa9b751fb, 0x382f3ce2, 0x8db1757d, 0xcc38080b]

  /** The state before pass 9 of the loop. */
  const Pass9: State :=
    [0xb6b87de6, 0x9a016148, 0x93859815, 0x4915e6cc, 0xdc33c122, 0x98e18fa3, 0x5ffbe8fc, 0xf7154b8b,
     0x28c1fcb3, 0xc4b38f9d, 0x83e2f5d7, 0x7d24b98b, 0x21078b22, 0xb193e7a3, 0xb2f49389, 0x6cde6026]

  /** The state after the tenth pass. */
  const Pass10: State :=
    [0x837778ab, 0xe238d763, 0xa67ae21e, 0x5950bb2f, 0xc4f2d0c7, 0xfc62bb2f, 0x8fa018fc, 0x3f5ec7b7,
     0x335271c2, 0xf29489f3, 0xeabda8fc, 0x82e46ebd, 0xd19c12b4, 0xb04e16de, 0x9e83d0cb, 0x4e3c50a2]

  /** One more quarter round of a pass is QuarterRoundAt on the positions the
      pass names for it. */
  lemma {:induction false} MixedNext(s: State, k: int)
    requires 0 <= k < 8
    ensures Mixed(s, 0, k + 1)
      == QuarterRoundAt(Mixed(s, 0, k), DoubleRoundQuads[k].0, DoubleRoundQuads[k].1, DoubleRoundQuads[k].2, DoubleRoundQuads[k].3)
  {
  }

  const Mid0_1: State :=
    [0xabbaa25c, 0x3320646e, 0x79622d32, 0x6b206574, 0x3a465196, 0x07060504, 0x0b0a0908, 0x0f0e0d0c,
     0x6b3ca454, 0x17161514, 0x1b1a1918, 0x1f1e1d1c, 0xdec62ed2, 0x09000000, 0x4a000000, 0x00000000]

  const Mid0_2: State :=
    [0xabbaa25c, 0x1efa51ea, 0x79622d32, 0x6b206574, 0x3a465196, 0x1c7e64f6, 0x0b0a0908, 0x0f0e0d0c,
     0x6b3ca454, 0x08eb14b1, 0x1b1a1918, 0x1f1e1d1c, 0xdec62ed2, 0x8862cc77, 0x4a000000, 0x00000000]

  const Mid0_3: State :=
    [0xabbaa25c, 0x1efa51ea, 0x7354fbdf, 0x6b206574, 0x3a465196, 0x1c7e64f6, 0xb12fb628, 0x0f0e0d0c,
     0x6b3ca454, 0x08eb14b1, 0xbf8a9ac9, 0x1f1e1d1c, 0xdec62ed2, 0x8862cc77, 0x6e35b345, 0x00000000]

  const Mid0_4: State :=
    [0xabbaa25c, 0x1efa51ea, 0x7354fbdf, 0x83d2dc69, 0x3a465196, 0x1c7e64f6, 0xb12fb628, 0xf05b6976,
     0x6b3ca454, 0x08eb14b1, 0xbf8a9ac9, 0xe444df3b, 0xdec62ed2, 0x8862cc77, 0x6e35b345, 0x52a647f1]

  const Mid0_5: State :=
    [0xcd52e917, 0x1efa51ea, 0x7354fbdf, 0x83d2dc69, 0x3a465196, 0x5c2e187a, 0xb12fb628, 0xf05b6976,
     0x6b3ca454, 0x08eb14b1, 0xf1a1bdf5, 0xe444df3b, 0xdec62ed2, 0x8862cc77, 0x6e35b345, 0xf173888d]

  const Mid0_6: State :=
    [0xcd52e917, 0x85ab03b4, 0x7354fbdf, 0x83d2dc69, 0x3a465196, 0x5c2e187a, 0xc95eb461, 0xf05b6976,
     0x6b3ca454, 0x08eb14b1, 0xf1a1bdf5, 0x761246ca, 0x6b0d58a3, 0x8862cc77, 0x6e35b345, 0xf173888d]

  const Mid0_7: State :=
    [0xcd52e917, 0x85ab03b4, 0xb3457395, 0x83d2dc69, 0x3a465196, 0x5c2e187a, 0xc95eb461, 0x316c801a,
     0x7bf7d740, 0x08eb14b1, 0xf1a1bdf5, 0x761246ca, 0x6b0d58a3, 0x6798471a, 0x6e35b345, 0xf173888d]

  lemma {:induction false} Pass0Quarter0()
    ensures QuarterRoundAt(Pass0, 0, 4, 8, 12) == Mid0_1
  {
    assert QuarterRound(0x61707865, 0x03020100, 0x13121110, 0x00000001) == (0xabbaa25c, 0x3a465196, 0x6b3ca454, 0xdec62ed2);
    QuarterRoundAtUnique(Pass0, Mid0_1, 0, 4, 8, 12);
  }

  lemma {:induction false} Pass0Quarter1()
    ensures QuarterRoundAt(Mid0_1, 1, 5, 9, 13) == Mid0_2
  {
    assert QuarterRound(0x3320646e, 0x07060504, 0x17161514, 0x09000000) == (0x1efa51ea, 0x1c7e64f6, 0x08eb14b1, 0x8862cc77);
    QuarterRoundAtUnique(Mid0_1, Mid0_2, 1, 5, 9, 13);
  }

  lemma {:induction false} Pass0Quarter2()
    ensures QuarterRoundAt(Mid0_2, 2, 6, 10, 14) == Mid0_3
  {
    assert QuarterRound(0x79622d32, 0x0b0a0908, 0x1b1a1918, 0x4a000000) == (0x7354fbdf, 0xb12fb628, 0xbf8a9ac9, 0x6e35b345);
    QuarterRoundAtUnique(Mid0_2, Mid0_3, 2, 6, 10, 14);
  }

  lemma {:induction false} Pass0Quarter3()
    ensures QuarterRoundAt(Mid0_3, 3, 7, 11, 15) == Mid0_4
  {
    assert QuarterRound(0x6b206574, 0x0f0e0d0c, 0x1f1e1d1c, 0x00000000) == (0x83d2dc69, 0xf05b6976, 0xe444df3b, 0x52a647f1);
    QuarterRoundAtUnique(Mid0_3, Mid0_4, 3, 7, 11, 15);
  }

  lemma {:induction false} Pass0Quarter4()
    ensures QuarterRoundAt(Mid0_4, 0, 5, 10, 15) == Mid0_5
  {
    assert QuarterRound(0xabbaa25c, 0x1c7e64f6, 0xbf8a9ac9, 0x52a647f1) == (0xcd52e917, 0x5c2e187a, 0xf1a1bdf5, 0xf173888d);
    QuarterRoundAtUnique(Mid0_4, Mid0_5, 0, 5, 10, 15);
  }

  lemma {:induction false} Pass0Quarter5()
    ensures QuarterRoundAt(Mid0_5, 1, 6, 11, 12) == Mid0_6
  {
    assert QuarterRound(0x1efa51ea, 0xb12fb628, 0xe444df3b, 0xdec62ed2) == (0x85ab03b4, 0xc95eb461, 0x761246ca, 0x6b0d58a3);
    QuarterRoundAtUnique(Mid0_5, Mid0_6, 1, 6, 11, 12);
  }

  lemma {:induction false} Pass0Quarter6()
    ensures QuarterRoundAt(Mid0_6, 2, 7, 8, 13) == Mid0_7
  {
    assert QuarterRound(0x7354fbdf, 0xf05b6976, 0x6b3ca454, 0x8862cc77) == (0xb3457395, 0x316c801a, 0x7bf7d740, 0x6798471a);
    QuarterRoundAtUnique(Mid0_6, Mid0_7, 2, 7, 8, 13);
  }

  lemma {:induction false} Pass0Quarter7()
    ensures QuarterRoundAt(Mid0_7, 3, 4, 9, 14) == Pass1
  {
    assert QuarterRound(0x83d2dc69, 0x3a465196, 0x08eb14b1, 0x6e35b345) == (0xf96de7dd, 0xc4b7cd22, 0x7eddd644, 0xd737f167);
    QuarterRoundAtUnique(Mid0_7, Pass1, 3, 4, 9, 14);
  }

  /** Pass 0 of the loop: one double round. */
  lemma {:induction false} DoubleRound0(s: State)
    requires s == Pass0
    ensures DoubleRound(s) == Pass1
  {
    MixedNext(s, 0);
    Pass0Quarter0();
    assert Mixed(s, 0, 1) == Mid0_1;
    MixedNext(s, 1);
    Pass0Quarter1();
    assert Mixed(s, 0, 2) == Mid0_2;
    MixedNext(s, 2);
    Pass0Quarter2();
    assert Mixed(s, 0, 3) == Mid0_3;
    MixedNext(s, 3);
    Pass0Quarter3();
    assert Mixed(s, 0, 4) == Mid0_4;
    MixedNext(s, 4);
    Pass0Quarter4();
    assert Mixed(s, 0, 5) == Mid0_5;
    MixedNext(s, 5);
    Pass0Quarter5();
    assert Mixed(s, 0, 6) == Mid0_6;
    MixedNext(s, 6);
    Pass0Quarter6();
    assert Mixed(s, 0, 7) == Mid0_7;
    MixedNext(s, 7);
    Pass0Quarter7();
    assert Mixed(s, 0, 8) == Pass1;
  }

  const Mid1_1: State :=
    [0xe3e1111b, 0x85ab03b4, 0xb3457395, 0xf96de7dd, 0xd65b5b5b, 0x5c2e187a, 0xc95eb461, 0x316c801a,
     0xe67aec54, 0x7eddd644, 0xf1a1bdf5, 0x761246ca, 0x7be81c0d, 0x6798471a, 0xd737f167, 0xf173888d]

  const Mid1_2: State :=
    [0xe3e1111b, 0xa6291491, 0xb3457395, 0xf96de7dd, 0xd65b5b5b, 0xf56af099, 0xc95eb461, 0x316c801a,
     0xe67aec54, 0xf7a52d82, 0xf1a1bdf5, 0x761246ca, 0x7be81c0d, 0x1d92d0fd, 0xd737f167, 0xf173888d]

  const Mid1_3: State :=
    [0xe3e1111b, 0xa6291491, 0x5a82b80c, 0xf96de7dd, 0xd65b5b5b, 0xf56af099, 0x4ccc8103, 0x316c801a,
     0xe67aec54, 0xf7a52d82, 0xdb470914, 0x761246ca, 0x7be81c0d, 0x1d92d0fd, 0x13139f8c, 0xf173888d]

  const Mid1_4: State :=
    [0xe3e1111b, 0xa6291491, 0x5a82b80c, 0x4500fd45, 0xd65b5b5b, 0xf56af099, 0x4ccc8103, 0xc94d29e2,
     0xe67aec54, 0xf7a52d82, 0xdb470914, 0xdfb40f1d, 0x7be81c0d, 0x1d92d0fd, 0x13139f8c, 0x7a26ecaa]

  const Mid1_5: State :=
    [0xcf1a7584, 0xa6291491, 0x5a82b80c, 0x4500fd45, 0xd65b5b5b, 0x7974b81c, 0x4ccc8103, 0xc94d29e2,
     0xe67aec54, 0xf7a52d82, 0xcd3c9aa0, 0xdfb40f1d, 0x7be81c0d, 0x1d92d0fd, 0x13139f8c, 0x04d6ee22]

  const Mid1_6: State :=
    [0xcf1a7584, 0x048927ec, 0x5a82b80c, 0x4500fd45, 0xd65b5b5b, 0x7974b81c, 0x378dcfb4, 0xc94d29e2,
     0xe67aec54, 0xf7a52d82, 0xcd3c9aa0, 0x79fc89c7, 0x10aef18d, 0x1d92d0fd, 0x13139f8c, 0x04d6ee22]

  const Mid1_7: State :=
    [0xcf1a7584, 0x048927ec, 0x54051fda, 0x4500fd45, 0xd65b5b5b, 0x7974b81c, 0x378dcfb4, 0xcd47fd0e,
     0x2dafb216, 0xf7a52d82, 0xcd3c9aa0, 0x79fc89c7, 0x10aef18d, 0x16218765, 0x13139f8c, 0x04d6ee22]

  lemma {:induction false} Pass1Quarter0()
    ensures QuarterRoundAt(Pass1, 0, 4, 8, 12) == Mid1_1
  {
    assert QuarterRound(0xcd52e917, 0xc4b7cd22, 0x7bf7d740, 0x6b0d58a3) == (0xe3e1111b, 0xd65b5b5b, 0xe67aec54, 0x7be81c0d);
    QuarterRoundAtUnique(Pass1, Mid1_1, 0, 4, 8, 12);
  }

  lemma {:induction false} Pass1Quarter1()
    ensures QuarterRoundAt(Mid1_1, 1, 5, 9, 13) == Mid1_2
  {
    assert QuarterRound(0x85ab03b4, 0x5c2e187a, 0x7eddd644, 0x6798471a) == (0xa6291491, 0xf56af099, 0xf7a52d82, 0x1d92d0fd);
    QuarterRoundAtUnique(Mid1_1, Mid1_2, 1, 5, 9, 13);
  }

  lemma {:induction false} Pass1Quarter2()
    ensures QuarterRoundAt(Mid1_2, 2, 6, 10, 14) == Mid1_3
  {
    assert QuarterRound(0xb3457395, 0xc95eb461, 0xf1a1bdf5, 0xd737f167) == (0x5a82b80c, 0x4ccc8103, 0xdb470914, 0x13139f8c);
    QuarterRoundAtUnique(Mid1_2, Mid1_3, 2, 6, 10, 14);
  }

  lemma {:induction false} Pass1Quarter3()
    ensures QuarterRoundAt(Mid1_3, 3, 7, 11, 15) == Mid1_4
  {
    assert QuarterRound(0xf96de7dd, 0x316c801a, 0x761246ca, 0xf173888d) == (0x4500fd45, 0xc94d29e2, 0xdfb40f1d, 0x7a26ecaa);
    QuarterRoundAtUnique(Mid1_3, Mid1_4, 3, 7, 11, 15);
  }

  lemma {:induction false} Pass1Quarter4()
    ensures QuarterRoundAt(Mid1_4, 0, 5, 10, 15) == Mid1_5
  {
    assert QuarterRound(0xe3e1111b, 0xf56af099, 0xdb470914, 0x7a26ecaa) == (0xcf1a7584, 0x7974b81c, 0xcd3c9aa0, 0x04d6ee22);
    QuarterRoundAtUnique(Mid1_4, Mid1_5, 0, 5, 10, 15);
  }

  lemma {:induction false} Pass1Quarter5()
    ensures QuarterRoundAt(Mid1_5, 1, 6, 11, 12) == Mid1_6
  {
    assert QuarterRound(0xa6291491, 0x4ccc8103, 0xdfb40f1d, 0x7be81c0d) == (0x048927ec, 0x378dcfb4, 0x79fc89c7, 0x10aef18d);
    QuarterRoundAtUnique(Mid1_5, Mid1_6, 1, 6, 11, 12);
  }

  lemma {:induction false} Pass1Quarter6()
    ensures QuarterRoundAt(Mid1_6, 2, 7, 8, 13) == Mid1_7
  {
    assert QuarterRound(0x5a82b80c, 0xc94d29e2, 0xe67aec54, 0x1d92d0fd) == (0x54051fda, 0xcd47fd0e, 0x2dafb216, 0x16218765);
    QuarterRoundAtUnique(Mid1_6, Mid1_7, 2, 7, 8, 13);
  }

  lemma {:induction false} Pass1Quarter7()
    ensures QuarterRoundAt(Mid1_7, 3, 4, 9, 14) == Pass2
  {
    assert QuarterRound(0x4500fd45, 0xd65b5b5b, 0xf7a52d82, 0x13139f8c) == (0xc244ff28, 0x901d2f40, 0x27c89cd6, 0x68f76705);
    QuarterRoundAtUnique(Mid1_7, Pass2, 3, 4, 9, 14);
  }

  /** Pass 1 of the loop: one double round. */
  lemma {:induction false} DoubleRound1(s: State)
    requires s == Pass1
    ensures DoubleRound(s) == Pass2
  {
    MixedNext(s, 0);
    Pass1Quarter0();
    assert Mixed(s, 0, 1) == Mid1_1;
    MixedNext(s, 1);
    Pass1Quarter1();
    assert Mixed(s, 0, 2) == Mid1_2;
    MixedNext(s, 2);
    Pass1Quarter2();
    assert Mixed(s, 0, 3) == Mid1_3;
    MixedNext(s, 3);
    Pass1Quarter3();
    assert Mixed(s, 0, 4) == Mid1_4;
    MixedNext(s, 4);
    Pass1Quarter4();
    assert Mixed(s, 0, 5) == Mid1_5;
    MixedNext(s, 5);
    Pass1Quarter5();
    assert Mixed(s, 0, 6) == Mid1_6;
    MixedNext(s, 6);
    Pass1Quarter6();
    assert Mixed(s, 0, 7) == Mid1_7;
    MixedNext(s, 7);
    Pass1Quarter7();
    assert Mixed(s, 0, 8) == Pass2;
  }

  const Mid2_1: State :=
    [0xa22695f2, 0x048927ec, 0x54051fda, 0xc244ff28, 0x1ece4458, 0x7974b81c, 0x378dcfb4, 0xcd47fd0e,
     0xf2d36da6, 0x27c89cd6, 0xcd3c9aa0, 0x79fc89c7, 0x6fda6bf7, 0x16218765, 0x68f76705, 0x04d6ee22]

  const Mid2_2: State :=
    [0xa22695f2, 0xa908cf6c, 0x54051fda, 0xc244ff28, 0x1ece4458, 0xe82b726f, 0x378dcfb4, 0xcd47fd0e,
     0xf2d36da6, 0xf4dab980, 0xcd3c9aa0, 0x79fc89c7, 0x6fda6bf7, 0x65a4b0ce, 0x68f76705, 0x04d6ee22]

  const Mid2_3: State :=
    [0xa22695f2, 0xa908cf6c, 0xe6ae05b2, 0xc244ff28, 0x1ece4458, 0xe82b726f, 0x5a21ab90, 0xcd47fd0e,
     0xf2d36da6, 0xf4dab980, 0x7baf5573, 0x79fc89c7, 0x6fda6bf7, 0x65a4b0ce, 0x25e6d76e, 0x04d6ee22]

  const Mid2_4: State :=
    [0xa22695f2, 0xa908cf6c, 0xe6ae05b2, 0xfe0ff04b, 0x1ece4458, 0xe82b726f, 0x5a21ab90, 0x87698c64,
     0xf2d36da6, 0xf4dab980, 0x7baf5573, 0xa78c270d, 0x6fda6bf7, 0x65a4b0ce, 0x25e6d76e, 0x1b7b11ec]

  const Mid2_5: State :=
    [0x03a14032, 0xa908cf6c, 0xe6ae05b2, 0xfe0ff04b, 0x1ece4458, 0xa09b33dd, 0x5a21ab90, 0x87698c64,
     0xf2d36da6, 0xf4dab980, 0xc20e01b6, 0xa78c270d, 0x6fda6bf7, 0x65a4b0ce, 0x25e6d76e, 0x2cd11b1a]

  const Mid2_6: State :=
    [0x03a14032, 0x66b15927, 0xe6ae05b2, 0xfe0ff04b, 0x1ece4458, 0xa09b33dd, 0xa5daaf88, 0x87698c64,
     0xf2d36da6, 0xf4dab980, 0xc20e01b6, 0x72cd6b74, 0xba35d777, 0x65a4b0ce, 0x25e6d76e, 0x2cd11b1a]

  const Mid2_7: State :=
    [0x03a14032, 0x66b15927, 0x9d6b6b42, 0xfe0ff04b, 0x1ece4458, 0xa09b33dd, 0xa5daaf88, 0x2fd91a73,
     0xc90c6b18, 0xf4dab980, 0xc20e01b6, 0x72cd6b74, 0xba35d777, 0xb360f1bf, 0x25e6d76e, 0x2cd11b1a]

  lemma {:induction false} Pass2Quarter0()
    ensures QuarterRoundAt(Pass2, 0, 4, 8, 12) == Mid2_1
  {
    assert QuarterRound(0xcf1a7584, 0x901d2f40, 0x2dafb216, 0x10aef18d) == (0xa22695f2, 0x1ece4458, 0xf2d36da6, 0x6fda6bf7);
    QuarterRoundAtUnique(Pass2, Mid2_1, 0, 4, 8, 12);
  }

  lemma {:induction false} Pass2Quarter1()
    ensures QuarterRoundAt(Mid2_1, 1, 5, 9, 13) == Mid2_2
  {
    assert QuarterRound(0x048927ec, 0x7974b81c, 0x27c89cd6, 0x16218765) == (0xa908cf6c, 0xe82b726f, 0xf4dab980, 0x65a4b0ce);
    QuarterRoundAtUnique(Mid2_1, Mid2_2, 1, 5, 9, 13);
  }

  lemma {:induction false} Pass2Quarter2()
    ensures QuarterRoundAt(Mid2_2, 2, 6, 10, 14) == Mid2_3
  {
    assert QuarterRound(0x54051fda, 0x378dcfb4, 0xcd3c9aa0, 0x68f76705) == (0xe6ae05b2, 0x5a21ab90, 0x7baf5573, 0x25e6d76e);
    QuarterRoundAtUnique(Mid2_2, Mid2_3, 2, 6, 10, 14);
  }

  lemma {:induction false} Pass2Quarter3()
    ensures QuarterRoundAt(Mid2_3, 3, 7, 11, 15) == Mid2_4
  {
    assert QuarterRound(0xc244ff28, 0xcd47fd0e, 0x79fc89c7, 0x04d6ee22) == (0xfe0ff04b, 0x87698c64, 0xa78c270d, 0x1b7b11ec);
    QuarterRoundAtUnique(Mid2_3, Mid2_4, 3, 7, 11, 15);
  }

  lemma {:induction false} Pass2Quarter4()
    ensures QuarterRoundAt(Mid2_4, 0, 5, 10, 15) == Mid2_5
  {
    assert QuarterRound(0xa22695f2, 0xe82b726f, 0x7baf5573, 0x1b7b11ec) == (0x03a14032, 0xa09b33dd, 0xc20e01b6, 0x2cd11b1a);
    QuarterRoundAtUnique(Mid2_4, Mid2_5, 0, 5, 10, 15);
  }

  lemma {:induction false} Pass2Quarter5()
    ensures QuarterRoundAt(Mid2_5, 1, 6, 11, 12) == Mid2_6
  {
    assert QuarterRound(0xa908cf6c, 0x5a21ab90, 0xa78c270d, 0x6fda6bf7) == (0x66b15927, 0xa5daaf88, 0x72cd6b74, 0xba35d777);
    QuarterRoundAtUnique(Mid2_5, Mid2_6, 1, 6, 11, 12);
  }

  lemma {:induction false} Pass2Quarter6()
    ensures QuarterRoundAt(Mid2_6, 2, 7, 8, 13) == Mid2_7
  {
    assert QuarterRound(0xe6ae05b2, 0x87698c64, 0xf2d36da6, 0x65a4b0ce) == (0x9d6b6b42, 0x2fd91a73, 0xc90c6b18, 0xb360f1bf);
    QuarterRoundAtUnique(Mid2_6, Mid2_7, 2, 7, 8, 13);
  }

  lemma {:induction false} Pass2Quarter7()
    ensures QuarterRoundAt(Mid2_7, 3, 4, 9, 14) == Pass3
  {
    assert QuarterRound(0xfe0ff04b, 0x1ece4458, 0xf4dab980, 0x25e6d76e) == (0xb84c4109, 0xa7143ae0, 0x5a202413, 0x8178315b);
    QuarterRoundAtUnique(Mid2_7, Pass3, 3, 4, 9, 14);
  }

  /** Pass 2 of the loop: one double round. */
  lemma {:induction false} DoubleRound2(s: State)
    requires s == Pass2
    ensures DoubleRound(s) == Pass3
  {
    MixedNext(s, 0);
    Pass2Quarter0();
    assert Mixed(s, 0, 1) == Mid2_1;
    MixedNext(s, 1);
    Pass2Quarter1();
    assert Mixed(s, 0, 2) == Mid2_2;
    MixedNext(s, 2);
    Pass2Quarter2();
    assert Mixed(s, 0, 3) == Mid2_3;
    MixedNext(s, 3);
    Pass2Quarter3();
    assert Mixed(s, 0, 4) == Mid2_4;
    MixedNext(s, 4);
    Pass2Quarter4();
    assert Mixed(s, 0, 5) == Mid2_5;
    MixedNext(s, 5);
    Pass2Quarter5();
    assert Mixed(s, 0, 6) == Mid2_6;
    MixedNext(s, 6);
    Pass2Quarter6();
    assert Mixed(s, 0, 7) == Mid2_7;
    MixedNext(s, 7);
    Pass2Quarter7();
    assert Mixed(s, 0, 8) == Pass3;
  }

  const Mid3_1: State :=
    [0xfecd0838, 0x66b15927, 0x9d6b6b42, 0xb84c4109, 0xcedf6624, 0xa09b33dd, 0xa5daaf88, 0x2fd91a73,
     0x1d8a33ea, 0x5a202413, 0xc20e01b6, 0x72cd6b74, 0xa818b852, 0xb360f1bf, 0x8178315b, 0x2cd11b1a]

  const Mid3_2: State :=
    [0xfecd0838, 0x160ab468, 0x9d6b6b42, 0xb84c4109, 0xcedf6624, 0xb11de6c4, 0xa5daaf88, 0x2fd91a73,
     0x1d8a33ea, 0x87dc1ca9, 0xc20e01b6, 0x72cd6b74, 0xa818b852, 0xb100446a, 0x8178315b, 0x2cd11b1a]

  const Mid3_3: State :=
    [0xfecd0838, 0x160ab468, 0x9a0ddf4e, 0xb84c4109, 0xcedf6624, 0xb11de6c4, 0xbd7810ef, 0x2fd91a73,
     0x1d8a33ea, 0x87dc1ca9, 0x89bd34a5, 0x72cd6b74, 0xa818b852, 0xb100446a, 0x9c1d70b1, 0x2cd11b1a]

  const Mid3_4: State :=
    [0xfecd0838, 0x160ab468, 0x9a0ddf4e, 0xbac7154a, 0xcedf6624, 0xb11de6c4, 0xbd7810ef, 0xd22b5643,
     0x1d8a33ea, 0x87dc1ca9, 0x89bd34a5, 0x5505ef62, 0xa818b852, 0xb100446a, 0x9c1d70b1, 0xa1d1befa]

  const Mid3_5: State :=
    [0x9a2d3589, 0x160ab468, 0x9a0ddf4e, 0xbac7154a, 0xcedf6624, 0x5e5993f7, 0xbd7810ef, 0xd22b5643,
     0x1d8a33ea, 0x87dc1ca9, 0x04fef5aa, 0x5505ef62, 0xa818b852, 0xb100446a, 0x9c1d70b1, 0x2b3bb2ca]

  const Mid3_6: State :=
    [0x9a2d3589, 0x0b23fc4e, 0x9a0ddf4e, 0xbac7154a, 0xcedf6624, 0x5e5993f7, 0x9904c2e7, 0xd22b5643,
     0x1d8a33ea, 0x87dc1ca9, 0x04fef5aa, 0xf8933f72, 0x2687d476, 0xb100446a, 0x9c1d70b1, 0x2b3bb2ca]

  const Mid3_7: State :=
    [0x9a2d3589, 0x0b23fc4e, 0x40af3b6b, 0xbac7154a, 0xcedf6624, 0x5e5993f7, 0x9904c2e7, 0x0d334718,
     0xe46c6354, 0x87dc1ca9, 0x04fef5aa, 0xf8933f72, 0x2687d476, 0x54e65231, 0x9c1d70b1, 0x2b3bb2ca]

  lemma {:induction false} Pass3Quarter0()
    ensures QuarterRoundAt(Pass3, 0, 4, 8, 12) == Mid3_1
  {
    assert QuarterRound(0x03a14032, 0xa7143ae0, 0xc90c6b18, 0xba35d777) == (0xfecd0838, 0xcedf6624, 0x1d8a33ea, 0xa818b852);
    QuarterRoundAtUnique(Pass3, Mid3_1, 0, 4, 8, 12);
  }

  lemma {:induction false} Pass3Quarter1()
    ensures QuarterRoundAt(Mid3_1, 1, 5, 9, 13) == Mid3_2
  {
    assert QuarterRound(0x66b15927, 0xa09b33dd, 0x5a202413, 0xb360f1bf) == (0x160ab468, 0xb11de6c4, 0x87dc1ca9, 0xb100446a);
    QuarterRoundAtUnique(Mid3_1, Mid3_2, 1, 5, 9, 13);
  }

  lemma {:induction false} Pass3Quarter2()
    ensures QuarterRoundAt(Mid3_2, 2, 6, 10, 14) == Mid3_3
  {
    assert QuarterRound(0x9d6b6b42, 0xa5daaf88, 0xc20e01b6, 0x8178315b) == (0x9a0ddf4e, 0xbd7810ef, 0x89bd34a5, 0x9c1d70b1);
    QuarterRoundAtUnique(Mid3_2, Mid3_3, 2, 6, 10, 14);
  }

  lemma {:induction false} Pass3Quarter3()
    ensures QuarterRoundAt(Mid3_3, 3, 7, 11, 15) == Mid3_4
  {
    assert QuarterRound(0xb84c4109, 0x2fd91a73, 0x72cd6b74, 0x2cd11b1a) == (0xbac7154a, 0xd22b5643, 0x5505ef62, 0xa1d1befa);
    QuarterRoundAtUnique(Mid3_3, Mid3_4, 3, 7, 11, 15);
  }

  lemma {:induction false} Pass3Quarter4()
    ensures QuarterRoundAt(Mid3_4, 0, 5, 10, 15) == Mid3_5
  {
    assert QuarterRound(0xfecd0838, 0xb11de6c4, 0x89bd34a5, 0xa1d1befa) == (0x9a2d3589, 0x5e5993f7, 0x04fef5aa, 0x2b3bb2ca);
    QuarterRoundAtUnique(Mid3_4, Mid3_5, 0, 5, 10, 15);
  }

  lemma {:induction false} Pass3Quarter5()
    ensures QuarterRoundAt(Mid3_5, 1, 6, 11, 12) == Mid3_6
  {
    assert QuarterRound(0x160ab468, 0xbd7810ef, 0x5505ef62, 0xa818b852) == (0x0b23fc4e, 0x9904c2e7, 0xf8933f72, 0x2687d476);
    QuarterRoundAtUnique(Mid3_5, Mid3_6, 1, 6, 11, 12);
  }

  lemma {:induction false} Pass3Quarter6()
    ensures QuarterRoundAt(Mid3_6, 2, 7, 8, 13) == Mid3_7
  {
    assert QuarterRound(0x9a0ddf4e, 0xd22b5643, 0x1d8a33ea, 0xb100446a) == (0x40af3b6b, 0x0d334718, 0xe46c6354, 0x54e65231);
    QuarterRoundAtUnique(Mid3_6, Mid3_7, 2, 7, 8, 13);
  }

  lemma {:induction false} Pass3Quarter7()
    ensures QuarterRoundAt(Mid3_7, 3, 4, 9, 14) == Pass4
  {
    assert QuarterRound(0xbac7154a, 0xcedf6624, 0x87dc1ca9, 0x9c1d70b1) == (0xceea8144, 0x0a1bffc6, 0xc9503229, 0x3594ffc5);
    QuarterRoundAtUnique(Mid3_7, Pass4, 3, 4, 9, 14);
  }

  /** Pass 3 of the loop: one double round. */
  lemma {:induction false} DoubleRound3(s: State)
    requires s == Pass3
    ensures DoubleRound(s) == Pass4
  {
    MixedNext(s, 0);
    Pass3Quarter0();
    assert Mixed(s, 0, 1) == Mid3_1;
    MixedNext(s, 1);
    Pass3Quarter1();
    assert Mixed(s, 0, 2) == Mid3_2;
    MixedNext(s, 2);
    Pass3Quarter2();
    assert Mixed(s, 0, 3) == Mid3_3;
    MixedNext(s, 3);
    Pass3Quarter3();
    assert Mixed(s, 0, 4) == Mid3_4;
    MixedNext(s, 4);
    Pass3Quarter4();
    assert Mixed(s, 0, 5) == Mid3_5;
    MixedNext(s, 5);
    Pass3Quarter5();
    assert Mixed(s, 0, 6) == Mid3_6;
    MixedNext(s, 6);
    Pass3Quarter6();
    assert Mixed(s, 0, 7) == Mid3_7;
    MixedNext(s, 7);
    Pass3Quarter7();
    assert Mixed(s, 0, 8) == Pass4;
  }

  const Mid4_1: State :=
    [0x85e7824a, 0x0b23fc4e, 0x40af3b6b, 0xceea8144, 0x1c133ea1, 0x5e5993f7, 0x9904c2e7, 0x0d334718,
     0xa3a66a86, 0xc9503229, 0x04fef5aa, 0xf8933f72, 0xde008464, 0x54e65231, 0x3594ffc5, 0x2b3bb2ca]

  const Mid4_2: State :=
    [0x85e7824a, 0x4940cd9e, 0x40af3b6b, 0xceea8144, 0x1c133ea1, 0xbba40b0f, 0x9904c2e7, 0x0d334718,
     0xa3a66a86, 0xc0b4754f, 0x04fef5aa, 0xf8933f72, 0xde008464, 0x34f0058b, 0x3594ffc5, 0x2b3bb2ca]

  const Mid4_3: State :=
    [0x85e7824a, 0x4940cd9e, 0xfbe7684b, 0xceea8144, 0x1c133ea1, 0xbba40b0f, 0x9413992a, 0x0d334718,
     0xa3a66a86, 0xc0b4754f, 0x771b4ecb, 0xf8933f72, 0xde008464, 0x34f0058b, 0x70846cfa, 0x2b3bb2ca]

  const Mid4_4: State :=
    [0x85e7824a, 0x4940cd9e, 0xfbe7684b, 0x7335d03d, 0x1c133ea1, 0xbba40b0f, 0x9413992a, 0xa4ab2040,
     0xa3a66a86, 0xc0b4754f, 0x771b4ecb, 0x165151a1, 0xde008464, 0x34f0058b, 0x70846cfa, 0xa3271b09]

  const Mid4_5: State :=
    [0xc53318c5, 0x4940cd9e, 0xfbe7684b, 0x7335d03d, 0x1c133ea1, 0x6088d379, 0x9413992a, 0xa4ab2040,
     0xa3a66a86, 0xc0b4754f, 0x71669aca, 0x165151a1, 0xde008464, 0x34f0058b, 0x70846cfa, 0x63fa6953]

  const Mid4_6: State :=
    [0xc53318c5, 0xca325d96, 0xfbe7684b, 0x7335d03d, 0x1c133ea1, 0x6088d379, 0xc0f0e9bd, 0xa4ab2040,
     0xa3a66a86, 0xc0b4754f, 0x71669aca, 0x975c171d, 0x9e5ec228, 0x34f0058b, 0x70846cfa, 0x63fa6953]

  const Mid4_7: State :=
    [0xc53318c5, 0xca325d96, 0x7e7d11cb, 0x7335d03d, 0x1c133ea1, 0x6088d379, 0xc0f0e9bd, 0xe310cdb9,
     0xae2ca8db, 0xc0b4754f, 0x71669aca, 0x975c171d, 0x9e5ec228, 0x7d85a9f3, 0x70846cfa, 0x63fa6953]

  lemma {:induction false} Pass4Quarter0()
    ensures QuarterRoundAt(Pass4, 0, 4, 8, 12) == Mid4_1
  {
    assert QuarterRound(0x9a2d3589, 0x0a1bffc6, 0xe46c6354, 0x2687d476) == (0x85e7824a, 0x1c133ea1, 0xa3a66a86, 0xde008464);
    QuarterRoundAtUnique(Pass4, Mid4_1, 0, 4, 8, 12);
  }

  lemma {:induction false} Pass4Quarter1()
    ensures QuarterRoundAt(Mid4_1, 1, 5, 9, 13) == Mid4_2
  {
    assert QuarterRound(0x0b23fc4e, 0x5e5993f7, 0xc9503229, 0x54e65231) == (0x4940cd9e, 0xbba40b0f, 0xc0b4754f, 0x34f0058b);
    QuarterRoundAtUnique(Mid4_1, Mid4_2, 1, 5, 9, 13);
  }

  lemma {:induction false} Pass4Quarter2()
    ensures QuarterRoundAt(Mid4_2, 2, 6, 10, 14) == Mid4_3
  {
    assert QuarterRound(0x40af3b6b, 0x9904c2e7, 0x04fef5aa, 0x3594ffc5) == (0xfbe7684b, 0x9413992a, 0x771b4ecb, 0x70846cfa);
    QuarterRoundAtUnique(Mid4_2, Mid4_3, 2, 6, 10, 14);
  }

  lemma {:induction false} Pass4Quarter3()
    ensures QuarterRoundAt(Mid4_3, 3, 7, 11, 15) == Mid4_4
  {
    assert QuarterRound(0xceea8144, 0x0d334718, 0xf8933f72, 0x2b3bb2ca) == (0x7335d03d, 0xa4ab2040, 0x165151a1, 0xa3271b09);
    QuarterRoundAtUnique(Mid4_3, Mid4_4, 3, 7, 11, 15);
  }

  lemma {:induction false} Pass4Quarter4()
    ensures QuarterRoundAt(Mid4_4, 0, 5, 10, 15) == Mid4_5
  {
    assert QuarterRound(0x85e7824a, 0xbba40b0f, 0x771b4ecb, 0xa3271b09) == (0xc53318c5, 0x6088d379, 0x71669aca, 0x63fa6953);
    QuarterRoundAtUnique(Mid4_4, Mid4_5, 0, 5, 10, 15);
  }

  lemma {:induction false} Pass4Quarter5()
    ensures QuarterRoundAt(Mid4_5, 1, 6, 11, 12) == Mid4_6
  {
    assert QuarterRound(0x4940cd9e, 0x9413992a, 0x165151a1, 0xde008464) == (0xca325d96, 0xc0f0e9bd, 0x975c171d, 0x9e5ec228);
    QuarterRoundAtUnique(Mid4_5, Mid4_6, 1, 6, 11, 12);
  }

  lemma {:induction false} Pass4Quarter6()
    ensures QuarterRoundAt(Mid4_6, 2, 7, 8, 13) == Mid4_7
  {
    assert QuarterRound(0xfbe7684b, 0xa4ab2040, 0xa3a66a86, 0x34f0058b) == (0x7e7d11cb, 0xe310cdb9, 0xae2ca8db, 0x7d85a9f3);
    QuarterRoundAtUnique(Mid4_6, Mid4_7, 2, 7, 8, 13);
  }

  lemma {:induction false} Pass4Quarter7()
    ensures QuarterRoundAt(Mid4_7, 3, 4, 9, 14) == Pass5
  {
    assert QuarterRound(0x7335d03d, 0x1c133ea1, 0xc0b4754f, 0x70846cfa) == (0x3404e2ca, 0x26d7cf73, 0x42f67c72, 0x201d0756);
    QuarterRoundAtUnique(Mid4_7, Pass5, 3, 4, 9, 14);
  }

  /** Pass 4 of the loop: one double round. */
  lemma {:induction false} DoubleRound4(s: State)
    requires s == Pass4
    ensures DoubleRound(s) == Pass5
  {
    MixedNext(s, 0);
    Pass4Quarter0();
    assert Mixed(s, 0, 1) == Mid4_1;
    MixedNext(s, 1);
    Pass4Quarter1();
    assert Mixed(s, 0, 2) == Mid4_2;
    MixedNext(s, 2);
    Pass4Quarter2();
    assert Mixed(s, 0, 3) == Mid4_3;
    MixedNext(s, 3);
    Pass4Quarter3();
    assert Mixed(s, 0, 4) == Mid4_4;
    MixedNext(s, 4);
    Pass4Quarter4();
    assert Mixed(s, 0, 5) == Mid4_5;
    MixedNext(s, 5);
    Pass4Quarter5();
    assert Mixed(s, 0, 6) == Mid4_6;
    MixedNext(s, 6);
    Pass4Quarter6();
    assert Mixed(s, 0, 7) == Mid4_7;
    MixedNext(s, 7);
    Pass4Quarter7();
    assert Mixed(s, 0, 8) == Pass5;
  }

  const Mid5_1: State :=
    [0x9950b826, 0xca325d96, 0x7e7d11cb, 0x3404e2ca, 0x2121065a, 0x6088d379, 0xc0f0e9bd, 0xe310cdb9,
     0x19078de2, 0x42f67c72, 0x71669aca, 0x975c171d, 0x40ca72b3, 0x7d85a9f3, 0x201d0756, 0x63fa6953]

  const Mid5_2: State :=
    [0x9950b826, 0xcac7ccc6, 0x7e7d11cb, 0x3404e2ca, 0x2121065a, 0xc12bdadb, 0xc0f0e9bd, 0xe310cdb9,
     0x19078de2, 0x178ecc02, 0x71669aca, 0x975c171d, 0x40ca72b3, 0x3b9bf852, 0x201d0756, 0x63fa6953]

  const Mid5_3: State :=
    [0x9950b826, 0xcac7ccc6, 0x84a67673, 0x3404e2ca, 0x2121065a, 0xc12bdadb, 0xcae3acd1, 0xe310cdb9,
     0x19078de2, 0x178ecc02, 0xe6adbdb2, 0x975c171d, 0x40ca72b3, 0x3b9bf852, 0x78690378, 0x63fa6953]

  const Mid5_4: State :=
    [0x9950b826, 0xcac7ccc6, 0x84a67673, 0xdb3109a6, 0x2121065a, 0xc12bdadb, 0xcae3acd1, 0x594616cb,
     0x19078de2, 0x178ecc02, 0xe6adbdb2, 0x52a9d50e, 0x40ca72b3, 0x3b9bf852, 0x78690378, 0xe17d4902]

  const Mid5_5: State :=
    [0x04a3131a, 0xcac7ccc6, 0x84a67673, 0xdb3109a6, 0x2121065a, 0xbf8a4465, 0xcae3acd1, 0x594616cb,
     0x19078de2, 0x178ecc02, 0x61599491, 0x52a9d50e, 0x40ca72b3, 0x3b9bf852, 0x78690378, 0xa0a81bde]

  const Mid5_6: State :=
    [0x04a3131a, 0x66176309, 0x84a67673, 0xdb3109a6, 0x2121065a, 0xbf8a4465, 0xf77dd720, 0x594616cb,
     0x19078de2, 0x178ecc02, 0x61599491, 0x918512dc, 0x33b6686d, 0x3b9bf852, 0x78690378, 0xa0a81bde]

  const Mid5_7: State :=
    [0x04a3131a, 0x66176309, 0x0415bab1, 0xdb3109a6, 0x2121065a, 0xbf8a4465, 0xf77dd720, 0xfc0bdc90,
     0x07d13aca, 0x178ecc02, 0x61599491, 0x918512dc, 0x33b6686d, 0x795cc671, 0x78690378, 0xa0a81bde]

  lemma {:induction false} Pass5Quarter0()
    ensures QuarterRoundAt(Pass5, 0, 4, 8, 12) == Mid5_1
  {
    assert QuarterRound(0xc53318c5, 0x26d7cf73, 0xae2ca8db, 0x9e5ec228) == (0x9950b826, 0x2121065a, 0x19078de2, 0x40ca72b3);
    QuarterRoundAtUnique(Pass5, Mid5_1, 0, 4, 8, 12);
  }

  lemma {:induction false} Pass5Quarter1()
    ensures QuarterRoundAt(Mid5_1, 1, 5, 9, 13) == Mid5_2
  {
    assert QuarterRound(0xca325d96, 0x6088d379, 0x42f67c72, 0x7d85a9f3) == (0xcac7ccc6, 0xc12bdadb, 0x178ecc02, 0x3b9bf852);
    QuarterRoundAtUnique(Mid5_1, Mid5_2, 1, 5, 9, 13);
  }

  lemma {:induction false} Pass5Quarter2()
    ensures QuarterRoundAt(Mid5_2, 2, 6, 10, 14) == Mid5_3
  {
    assert QuarterRound(0x7e7d11cb, 0xc0f0e9bd, 0x71669aca, 0x201d0756) == (0x84a67673, 0xcae3acd1, 0xe6adbdb2, 0x78690378);
    QuarterRoundAtUnique(Mid5_2, Mid5_3, 2, 6, 10, 14);
  }

  lemma {:induction false} Pass5Quarter3()
    ensures QuarterRoundAt(Mid5_3, 3, 7, 11, 15) == Mid5_4
  {
    assert QuarterRound(0x3404e2ca, 0xe310cdb9, 0x975c171d, 0x63fa6953) == (0xdb3109a6, 0x594616cb, 0x52a9d50e, 0xe17d4902);
    QuarterRoundAtUnique(Mid5_3, Mid5_4, 3, 7, 11, 15);
  }

  lemma {:induction false} Pass5Quarter4()
    ensures QuarterRoundAt(Mid5_4, 0, 5, 10, 15) == Mid5_5
  {
    assert QuarterRound(0x9950b826, 0xc12bdadb, 0xe6adbdb2, 0xe17d4902) == (0x04a3131a, 0xbf8a4465, 0x61599491, 0xa0a81bde);
    QuarterRoundAtUnique(Mid5_4, Mid5_5, 0, 5, 10, 15);
  }

  lemma {:induction false} Pass5Quarter5()
    ensures QuarterRoundAt(Mid5_5, 1, 6, 11, 12) == Mid5_6
  {
    assert QuarterRound(0xcac7ccc6, 0xcae3acd1, 0x52a9d50e, 0x40ca72b3) == (0x66176309, 0xf77dd720, 0x918512dc, 0x33b6686d);
    QuarterRoundAtUnique(Mid5_5, Mid5_6, 1, 6, 11, 12);
  }

  lemma {:induction false} Pass5Quarter6()
    ensures QuarterRoundAt(Mid5_6, 2, 7, 8, 13) == Mid5_7
  {
    assert QuarterRound(0x84a67673, 0x594616cb, 0x19078de2, 0x3b9bf852) == (0x0415bab1, 0xfc0bdc90, 0x07d13aca, 0x795cc671);
    QuarterRoundAtUnique(Mid5_6, Mid5_7, 2, 7, 8, 13);
  }

  lemma {:induction false} Pass5Quarter7()
    ensures QuarterRoundAt(Mid5_7, 3, 4, 9, 14) == Pass6
  {
    assert QuarterRound(0xdb3109a6, 0x2121065a, 0x178ecc02, 0x78690378) == (0x61b880a2, 0x36cc86c7, 0xeb0be9af, 0xc0049972);
    QuarterRoundAtUnique(Mid5_7, Pass6, 3, 4, 9, 14);
  }

  /** Pass 5 of the loop: one double round. */
  lemma {:induction false} DoubleRound5(s: State)
    requires s == Pass5
    ensures DoubleRound(s) == Pass6
  {
    MixedNext(s, 0);
    Pass5Quarter0();
    assert Mixed(s, 0, 1) == Mid5_1;
    MixedNext(s, 1);
    Pass5Quarter1();
    assert Mixed(s, 0, 2) == Mid5_2;
    MixedNext(s, 2);
    Pass5Quarter2();
    assert Mixed(s, 0, 3) == Mid5_3;
    MixedNext(s, 3);
    Pass5Quarter3();
    assert Mixed(s, 0, 4) == Mid5_4;
    MixedNext(s, 4);
    Pass5Quarter4();
    assert Mixed(s, 0, 5) == Mid5_5;
    MixedNext(s, 5);
    Pass5Quarter5();
    assert Mixed(s, 0, 6) == Mid5_6;
    MixedNext(s, 6);
    Pass5Quarter6();
    assert Mixed(s, 0, 7) == Mid5_7;
    MixedNext(s, 7);
    Pass5Quarter7();
    assert Mixed(s, 0, 8) == Pass6;
  }

  const Mid6_1: State :=
    [0x57c5e6da, 0x66176309, 0x0415bab1, 0x61b880a2, 0x8e85d82f, 0xbf8a4465, 0xf77dd720, 0xfc0bdc90,
     0x434b4749, 0xeb0be9af, 0x61599491, 0x918512dc, 0x49ee03a6, 0x795cc671, 0xc0049972, 0xa0a81bde]

  const Mid6_2: State :=
    [0x57c5e6da, 0x35ce46a8, 0x0415bab1, 0x61b880a2, 0x8e85d82f, 0xb4819d06, 0xf77dd720, 0xfc0bdc90,
     0x434b4749, 0x1d459c00, 0x61599491, 0x918512dc, 0x49ee03a6, 0xd11a5554, 0xc0049972, 0xa0a81bde]

  const Mid6_3: State :=
    [0x57c5e6da, 0x35ce46a8, 0x0c041bb9, 0x61b880a2, 0x8e85d82f, 0xb4819d06, 0xb63be200, 0xfc0bdc90,
     0x434b4749, 0x1d459c00, 0x111cfe2c, 0x918512dc, 0x49ee03a6, 0xd11a5554, 0xa7202e04, 0xa0a81bde]

  const Mid6_4: State :=
    [0x57c5e6da, 0x35ce46a8, 0x0c041bb9, 0xfa91df79, 0x8e85d82f, 0xb4819d06, 0xb63be200, 0xacd221e4,
     0x434b4749, 0x1d459c00, 0x111cfe2c, 0x55942604, 0x49ee03a6, 0xd11a5554, 0xa7202e04, 0x7d2215bc]

  const Mid6_5: State :=
    [0x9b70f51f, 0x35ce46a8, 0x0c041bb9, 0xfa91df79, 0x8e85d82f, 0x6a4c50ae, 0xb63be200, 0xacd221e4,
     0x434b4749, 0x1d459c00, 0xd3fde99e, 0x55942604, 0x49ee03a6, 0xd11a5554, 0xa7202e04, 0x2c847a0d]

  const Mid6_6: State :=
    [0x9b70f51f, 0x7ea8ac11, 0x0c041bb9, 0xfa91df79, 0x8e85d82f, 0x6a4c50ae, 0x19212a5a, 0xacd221e4,
     0x434b4749, 0x1d459c00, 0xd3fde99e, 0x26acc13d, 0xa609f555, 0xd11a5554, 0xa7202e04, 0x2c847a0d]

  const Mid6_7: State :=
    [0x9b70f51f, 0x7ea8ac11, 0x21e54da9, 0xfa91df79, 0x8e85d82f, 0x6a4c50ae, 0x19212a5a, 0x9b032958,
     0xd839165e, 0x1d459c00, 0xd3fde99e, 0x26acc13d, 0xa609f555, 0x2c246549, 0xa7202e04, 0x2c847a0d]

  lemma {:induction false} Pass6Quarter0()
    ensures QuarterRoundAt(Pass6, 0, 4, 8, 12) == Mid6_1
  {
    assert QuarterRound(0x04a3131a, 0x36cc86c7, 0x07d13aca, 0x33b6686d) == (0x57c5e6da, 0x8e85d82f, 0x434b4749, 0x49ee03a6);
    QuarterRoundAtUnique(Pass6, Mid6_1, 0, 4, 8, 12);
  }

  lemma {:induction false} Pass6Quarter1()
    ensures QuarterRoundAt(Mid6_1, 1, 5, 9, 13) == Mid6_2
  {
    assert QuarterRound(0x66176309, 0xbf8a4465, 0xeb0be9af, 0x795cc671) == (0x35ce46a8, 0xb4819d06, 0x1d459c00, 0xd11a5554);
    QuarterRoundAtUnique(Mid6_1, Mid6_2, 1, 5, 9, 13);
  }

  lemma {:induction false} Pass6Quarter2()
    ensures QuarterRoundAt(Mid6_2, 2, 6, 10, 14) == Mid6_3
  {
    assert QuarterRound(0x0415bab1, 0xf77dd720, 0x61599491, 0xc0049972) == (0x0c041bb9, 0xb63be200, 0x111cfe2c, 0xa7202e04);
    QuarterRoundAtUnique(Mid6_2, Mid6_3, 2, 6, 10, 14);
  }

  lemma {:induction false} Pass6Quarter3()
    ensures QuarterRoundAt(Mid6_3, 3, 7, 11, 15) == Mid6_4
  {
    assert QuarterRound(0x61b880a2, 0xfc0bdc90, 0x918512dc, 0xa0a81bde) == (0xfa91df79, 0xacd221e4, 0x55942604, 0x7d2215bc);
    QuarterRoundAtUnique(Mid6_3, Mid6_4, 3, 7, 11, 15);
  }

  lemma {:induction false} Pass6Quarter4()
    ensures QuarterRoundAt(Mid6_4, 0, 5, 10, 15) == Mid6_5
  {
    assert QuarterRound(0x57c5e6da, 0xb4819d06, 0x111cfe2c, 0x7d2215bc) == (0x9b70f51f, 0x6a4c50ae, 0xd3fde99e, 0x2c847a0d);
    QuarterRoundAtUnique(Mid6_4, Mid6_5, 0, 5, 10, 15);
  }

  lemma {:induction false} Pass6Quarter5()
    ensures QuarterRoundAt(Mid6_5, 1, 6, 11, 12) == Mid6_6
  {
    assert QuarterRound(0x35ce46a8, 0xb63be200, 0x55942604, 0x49ee03a6) == (0x7ea8ac11, 0x19212a5a, 0x26acc13d, 0xa609f555);
    QuarterRoundAtUnique(Mid6_5, Mid6_6, 1, 6, 11, 12);
  }

  lemma {:induction false} Pass6Quarter6()
    ensures QuarterRoundAt(Mid6_6, 2, 7, 8, 13) == Mid6_7
  {
    assert QuarterRound(0x0c041bb9, 0xacd221e4, 0x434b4749, 0xd11a5554) == (0x21e54da9, 0x9b032958, 0xd839165e, 0x2c246549);
    QuarterRoundAtUnique(Mid6_6, Mid6_7, 2, 7, 8, 13);
  }

  lemma {:induction false} Pass6Quarter7()
    ensures QuarterRoundAt(Mid6_7, 3, 4, 9, 14) == Pass7
  {
    assert QuarterRound(0xfa91df79, 0x8e85d82f, 0x1d459c00, 0xa7202e04) == (0xca393b2f, 0x93b08686, 0x4c06e28a, 0x95151853);
    QuarterRoundAtUnique(Mid6_7, Pass7, 3, 4, 9, 14);
  }

  /** Pass 6 of the loop: one double round. */
  lemma {:induction false} DoubleRound6(s: State)
    requires s == Pass6
    ensures DoubleRound(s) == Pass7
  {
    MixedNext(s, 0);
    Pass6Quarter0();
    assert Mixed(s, 0, 1) == Mid6_1;
    MixedNext(s, 1);
    Pass6Quarter1();
    assert Mixed(s, 0, 2) == Mid6_2;
    MixedNext(s, 2);
    Pass6Quarter2();
    assert Mixed(s, 0, 3) == Mid6_3;
    MixedNext(s, 3);
    Pass6Quarter3();
    assert Mixed(s, 0, 4) == Mid6_4;
    MixedNext(s, 4);
    Pass6Quarter4();
    assert Mixed(s, 0, 5) == Mid6_5;
    MixedNext(s, 5);
    Pass6Quarter5();
    assert Mixed(s, 0, 6) == Mid6_6;
    MixedNext(s, 6);
    Pass6Quarter6();
    assert Mixed(s, 0, 7) == Mid6_7;
    MixedNext(s, 7);
    Pass6Quarter7();
    assert Mixed(s, 0, 8) == Pass7;
  }

  const Mid7_1: State :=
    [0xc0b18aee, 0x7ea8ac11, 0x21e54da9, 0xca393b2f, 0xdeb54e9c, 0x6a4c50ae, 0x19212a5a, 0x9b032958,
     0xa82d65d4, 0x4c06e28a, 0xd3fde99e, 0x26acc13d, 0x4103c64e, 0x2c246549, 0x95151853, 0x2c847a0d]

  const Mid7_2: State :=
    [0xc0b18aee, 0x087445ba, 0x21e54da9, 0xca393b2f, 0xdeb54e9c, 0x802c883b, 0x19212a5a, 0x9b032958,
     0xa82d65d4, 0x687f11eb, 0xd3fde99e, 0x26acc13d, 0x4103c64e, 0x82816a91, 0x95151853, 0x2c847a0d]

  const Mid7_3: State :=
    [0xc0b18aee, 0x087445ba, 0x36e52ad9, 0xca393b2f, 0xdeb54e9c, 0x802c883b, 0x06e86889, 0x9b032958,
     0xa82d65d4, 0x687f11eb, 0xe9d36207, 0x26acc13d, 0x4103c64e, 0x82816a91, 0xb584ca56, 0x2c847a0d]

  const Mid7_4: State :=
    [0xc0b18aee, 0x087445ba, 0x36e52ad9, 0xa777426a, 0xdeb54e9c, 0x802c883b, 0x06e86889, 0x3c002680,
     0xa82d65d4, 0x687f11eb, 0xe9d36207, 0x4242ddae, 0x4103c64e, 0x82816a91, 0xb584ca56, 0xfd0bd2b9]

  const Mid7_5: State :=
    [0xca5c85dd, 0x087445ba, 0x36e52ad9, 0xa777426a, 0xdeb54e9c, 0x712aa9ff, 0x06e86889, 0x3c002680,
     0xa82d65d4, 0x687f11eb, 0x779c27e7, 0x4242ddae, 0x4103c64e, 0x82816a91, 0xb584ca56, 0xcc38080b]

  const Mid7_6: State :=
    [0xca5c85dd, 0x93a4f90e, 0x36e52ad9, 0xa777426a, 0xdeb54e9c, 0x712aa9ff, 0x279a61e8, 0x3c002680,
     0xa82d65d4, 0x687f11eb, 0x779c27e7, 0x54077e08, 0xa9b751fb, 0x82816a91, 0xb584ca56, 0xcc38080b]

  const Mid7_7: State :=
    [0xca5c85dd, 0x93a4f90e, 0xd9f0df58, 0xa777426a, 0xdeb54e9c, 0x712aa9ff, 0x279a61e8, 0x970f72bd,
     0x1c25931a, 0x687f11eb, 0x779c27e7, 0x54077e08, 0xa9b751fb, 0x382f3ce2, 0xb584ca56, 0xcc38080b]

  lemma {:induction false} Pass7Quarter0()
    ensures QuarterRoundAt(Pass7, 0, 4, 8, 12) == Mid7_1
  {
    assert QuarterRound(0x9b70f51f, 0x93b08686, 0xd839165e, 0xa609f555) == (0xc0b18aee, 0xdeb54e9c, 0xa82d65d4, 0x4103c64e);
    QuarterRoundAtUnique(Pass7, Mid7_1, 0, 4, 8, 12);
  }

  lemma {:induction false} Pass7Quarter1()
    ensures QuarterRoundAt(Mid7_1, 1, 5, 9, 13) == Mid7_2
  {
    assert QuarterRound(0x7ea8ac11, 0x6a4c50ae, 0x4c06e28a, 0x2c246549) == (0x087445ba, 0x802c883b, 0x687f11eb, 0x82816a91);
    QuarterRoundAtUnique(Mid7_1, Mid7_2, 1, 5, 9, 13);
  }

  lemma {:induction false} Pass7Quarter2()
    ensures QuarterRoundAt(Mid7_2, 2, 6, 10, 14) == Mid7_3
  {
    assert QuarterRound(0x21e54da9, 0x19212a5a, 0xd3fde99e, 0x95151853) == (0x36e52ad9, 0x06e86889, 0xe9d36207, 0xb584ca56);
    QuarterRoundAtUnique(Mid7_2, Mid7_3, 2, 6, 10, 14);
  }

  lemma {:induction false} Pass7Quarter3()
    ensures QuarterRoundAt(Mid7_3, 3, 7, 11, 15) == Mid7_4
  {
    assert QuarterRound(0xca393b2f, 0x9b032958, 0x26acc13d, 0x2c847a0d) == (0xa777426a, 0x3c002680, 0x4242ddae, 0xfd0bd2b9);
    QuarterRoundAtUnique(Mid7_3, Mid7_4, 3, 7, 11, 15);
  }

  lemma {:induction false} Pass7Quarter4()
    ensures QuarterRoundAt(Mid7_4, 0, 5, 10, 15) == Mid7_5
  {
    assert QuarterRound(0xc0b18aee, 0x802c883b, 0xe9d36207, 0xfd0bd2b9) == (0xca5c85dd, 0x712aa9ff, 0x779c27e7, 0xcc38080b);
    QuarterRoundAtUnique(Mid7_4, Mid7_5, 0, 5, 10, 15);
  }

  lemma {:induction false} Pass7Quarter5()
    ensures QuarterRoundAt(Mid7_5, 1, 6, 11, 12) == Mid7_6
  {
    assert QuarterRound(0x087445ba, 0x06e86889, 0x4242ddae, 0x4103c64e) == (0x93a4f90e, 0x279a61e8, 0x54077e08, 0xa9b751fb);
    QuarterRoundAtUnique(Mid7_5, Mid7_6, 1, 6, 11, 12);
  }

  lemma {:induction false} Pass7Quarter6()
    ensures QuarterRoundAt(Mid7_6, 2, 7, 8, 13) == Mid7_7
  {
    assert QuarterRound(0x36e52ad9, 0x3c002680, 0xa82d65d4, 0x82816a91) == (0xd9f0df58, 0x970f72bd, 0x1c25931a, 0x382f3ce2);
    QuarterRoundAtUnique(Mid7_6, Mid7_7, 2, 7, 8, 13);
  }

  lemma {:induction false} Pass7Quarter7()
    ensures QuarterRoundAt(Mid7_7, 3, 4, 9, 14) == Pass8
  {
    assert QuarterRound(0xa777426a, 0xdeb54e9c, 0x687f11eb, 0xb584ca56) == (0x26dd82dd, 0x982563f8, 0x5180bb10, 0x8db1757d);
    QuarterRoundAtUnique(Mid7_7, Pass8, 3, 4, 9, 14);
  }

  /** Pass 7 of the loop: one double round. */
  lemma {:induction false} DoubleRound7(s: State)
    requires s == Pass7
    ensures DoubleRound(s) == Pass8
  {
    MixedNext(s, 0);
    Pass7Quarter0();
    assert Mixed(s, 0, 1) == Mid7_1;
    MixedNext(s, 1);
    Pass7Quarter1();
    assert Mixed(s, 0, 2) == Mid7_2;
    MixedNext(s, 2);
    Pass7Quarter2();
    assert Mixed(s, 0, 3) == Mid7_3;
    MixedNext(s, 3);
    Pass7Quarter3();
    assert Mixed(s, 0, 4) == Mid7_4;
    MixedNext(s, 4);
    Pass7Quarter4();
    assert Mixed(s, 0, 5) == Mid7_5;
    MixedNext(s, 5);
    Pass7Quarter5();
    assert Mixed(s, 0, 6) == Mid7_6;
    MixedNext(s, 6);
    Pass7Quarter6();
    assert Mixed(s, 0, 7) == Mid7_7;
    MixedNext(s, 7);
    Pass7Quarter7();
    assert Mixed(s, 0, 8) == Pass8;
  }

  const Mid8_1: State :=
    [0x765c6e9c, 0x93a4f90e, 0xd9f0df58, 0x26dd82dd, 0x9046ecaa, 0x712aa9ff, 0x279a61e8, 0x970f72bd,
     0x46fa091e, 0x5180bb10, 0x779c27e7, 0x54077e08, 0x72a5aace, 0x382f3ce2, 0x8db1757d, 0xcc38080b]

  const Mid8_2: State :=
    [0x765c6e9c, 0x5ab09b11, 0xd9f0df58, 0x26dd82dd, 0x9046ecaa, 0x7b88d882, 0x279a61e8, 0x970f72bd,
     0x46fa091e, 0x5117e9b5, 0x779c27e7, 0x54077e08, 0x72a5aace, 0x5fa7f1c5, 0x8db1757d, 0xcc38080b]

  const Mid8_3: State :=
    [0x765c6e9c, 0x5ab09b11, 0x3ee7da04, 0x26dd82dd, 0x9046ecaa, 0x7b88d882, 0xb9b577dd, 0x970f72bd,
     0x46fa091e, 0x5117e9b5, 0x862ff22b, 0x54077e08, 0x72a5aace, 0x5fa7f1c5, 0xda563e0a, 0xcc38080b]

  const Mid8_4: State :=
    [0x765c6e9c, 0x5ab09b11, 0x3ee7da04, 0x37c31203, 0x9046ecaa, 0x7b88d882, 0xb9b577dd, 0x156de7ed,
     0x46fa091e, 0x5117e9b5, 0x862ff22b, 0xa3fcc7a6, 0x72a5aace, 0x5fa7f1c5, 0xda563e0a, 0x5263d7ca]

  const Mid8_5: State :=
    [0xb6b87de6, 0x5ab09b11, 0x3ee7da04, 0x37c31203, 0x9046ecaa, 0x98e18fa3, 0xb9b577dd, 0x156de7ed,
     0x46fa091e, 0x5117e9b5, 0x83e2f5d7, 0xa3fcc7a6, 0x72a5aace, 0x5fa7f1c5, 0xda563e0a, 0x6cde6026]

  const Mid8_6: State :=
    [0xb6b87de6, 0x9a016148, 0x3ee7da04, 0x37c31203, 0x9046ecaa, 0x98e18fa3, 0x5ffbe8fc, 0x156de7ed,
     0x46fa091e, 0x5117e9b5, 0x83e2f5d7, 0x7d24b98b, 0x21078b22, 0x5fa7f1c5, 0xda563e0a, 0x6cde6026]

  const Mid8_7: State :=
    [0xb6b87de6, 0x9a016148, 0x93859815, 0x37c31203, 0x9046ecaa, 0x98e18fa3, 0x5ffbe8fc, 0xf7154b8b,
     0x28c1fcb3, 0x5117e9b5, 0x83e2f5d7, 0x7d24b98b, 0x21078b22, 0xb193e7a3, 0xda563e0a, 0x6cde6026]

  lemma {:induction false} Pass8Quarter0()
    ensures QuarterRoundAt(Pass8, 0, 4, 8, 12) == Mid8_1
  {
    assert QuarterRound(0xca5c85dd, 0x982563f8, 0x1c25931a, 0xa9b751fb) == (0x765c6e9c, 0x9046ecaa, 0x46fa091e, 0x72a5aace);
    QuarterRoundAtUnique(Pass8, Mid8_1, 0, 4, 8, 12);
  }

  lemma {:induction false} Pass8Quarter1()
    ensures QuarterRoundAt(Mid8_1, 1, 5, 9, 13) == Mid8_2
  {
    assert QuarterRound(0x93a4f90e, 0x712aa9ff, 0x5180bb10, 0x382f3ce2) == (0x5ab09b11, 0x7b88d882, 0x5117e9b5, 0x5fa7f1c5);
    QuarterRoundAtUnique(Mid8_1, Mid8_2, 1, 5, 9, 13);
  }

  lemma {:induction false} Pass8Quarter2()
    ensures QuarterRoundAt(Mid8_2, 2, 6, 10, 14) == Mid8_3
  {
    assert QuarterRound(0xd9f0df58, 0x279a61e8, 0x779c27e7, 0x8db1757d) == (0x3ee7da04, 0xb9b577dd, 0x862ff22b, 0xda563e0a);
    QuarterRoundAtUnique(Mid8_2, Mid8_3, 2, 6, 10, 14);
  }

  lemma {:induction false} Pass8Quarter3()
    ensures QuarterRoundAt(Mid8_3, 3, 7, 11, 15) == Mid8_4
  {
    assert QuarterRound(0x26dd82dd, 0x970f72bd, 0x54077e08, 0xcc38080b) == (0x37c31203, 0x156de7ed, 0xa3fcc7a6, 0x5263d7ca);
    QuarterRoundAtUnique(Mid8_3, Mid8_4, 3, 7, 11, 15);
  }

  lemma {:induction false} Pass8Quarter4()
    ensures QuarterRoundAt(Mid8_4, 0, 5, 10, 15) == Mid8_5
  {
    assert QuarterRound(0x765c6e9c, 0x7b88d882, 0x862ff22b, 0x5263d7ca) == (0xb6b87de6, 0x98e18fa3, 0x83e2f5d7, 0x6cde6026);
    QuarterRoundAtUnique(Mid8_4, Mid8_5, 0, 5, 10, 15);
  }

  lemma {:induction false} Pass8Quarter5()
    ensures QuarterRoundAt(Mid8_5, 1, 6, 11, 12) == Mid8_6
  {
    assert QuarterRound(0x5ab09b11, 0xb9b577dd, 0xa3fcc7a6, 0x72a5aace) == (0x9a016148, 0x5ffbe8fc, 0x7d24b98b, 0x21078b22);
    QuarterRoundAtUnique(Mid8_5, Mid8_6, 1, 6, 11, 12);
  }

  lemma {:induction false} Pass8Quarter6()
    ensures QuarterRoundAt(Mid8_6, 2, 7, 8, 13) == Mid8_7
  {
    assert QuarterRound(0x3ee7da04, 0x156de7ed, 0x46fa091e, 0x5fa7f1c5) == (0x93859815, 0xf7154b8b, 0x28c1fcb3, 0xb193e7a3);
    QuarterRoundAtUnique(Mid8_6, Mid8_7, 2, 7, 8, 13);
  }

  lemma {:induction false} Pass8Quarter7()
    ensures QuarterRoundAt(Mid8_7, 3, 4, 9, 14) == Pass9
  {
    assert QuarterRound(0x37c31203, 0x9046ecaa, 0x5117e9b5, 0xda563e0a) == (0x4915e6cc, 0xdc33c122, 0xc4b38f9d, 0xb2f49389);
    QuarterRoundAtUnique(Mid8_7, Pass9, 3, 4, 9, 14);
  }

  /** Pass 8 of the loop: one double round. */
  lemma {:induction false} DoubleRound8(s: State)
    requires s == Pass8
    ensures DoubleRound(s) == Pass9
  {
    MixedNext(s, 0);
    Pass8Quarter0();
    assert Mixed(s, 0, 1) == Mid8_1;
    MixedNext(s, 1);
    Pass8Quarter1();
    assert Mixed(s, 0, 2) == Mid8_2;
    MixedNext(s, 2);
    Pass8Quarter2();
    assert Mixed(s, 0, 3) == Mid8_3;
    MixedNext(s, 3);
    Pass8Quarter3();
    assert Mixed(s, 0, 4) == Mid8_4;
    MixedNext(s, 4);
    Pass8Quarter4();
    assert Mixed(s, 0, 5) == Mid8_5;
    MixedNext(s, 5);
    Pass8Quarter5();
    assert Mixed(s, 0, 6) == Mid8_6;
    MixedNext(s, 6);
    Pass8Quarter6();
    assert Mixed(s, 0, 7) == Mid8_7;
    MixedNext(s, 7);
    Pass8Quarter7();
    assert Mixed(s, 0, 8) == Pass9;
  }

  const Mid9_1: State :=
    [0x8a07ff15, 0x9a016148, 0x93859815, 0x4915e6cc, 0x913768fe, 0x98e18fa3, 0x5ffbe8fc, 0xf7154b8b,
     0x0a39aedc, 0xc4b38f9d, 0x83e2f5d7, 0x7d24b98b, 0x2d4cfe3e, 0xb193e7a3, 0xb2f49389, 0x6cde6026]

  const Mid9_2: State :=
    [0x8a07ff15, 0x0cadc51c, 0x93859815, 0x4915e6cc, 0x913768fe, 0x442a0c0c, 0x5ffbe8fc, 0xf7154b8b,
     0x0a39aedc, 0xc1428029, 0x83e2f5d7, 0x7d24b98b, 0x2d4cfe3e, 0xe5466d1b, 0xb2f49389, 0x6cde6026]

  const Mid9_3: State :=
    [0x8a07ff15, 0x0cadc51c, 0x017c8da9, 0x4915e6cc, 0x913768fe, 0x442a0c0c, 0x598fe3bb, 0xf7154b8b,
     0x0a39aedc, 0xc1428029, 0x7b48135f, 0x7d24b98b, 0x2d4cfe3e, 0xe5466d1b, 0xe4ccdc13, 0x6cde6026]

  const Mid9_4: State :=
    [0x8a07ff15, 0x0cadc51c, 0x017c8da9, 0x4afbe5df, 0x913768fe, 0x442a0c0c, 0x598fe3bb, 0x47d18828,
     0x0a39aedc, 0xc1428029, 0x7b48135f, 0x5a5f1098, 0x2d4cfe3e, 0xe5466d1b, 0xe4ccdc13, 0x8ac92a18]

  const Mid9_5: State :=
    [0x837778ab, 0x0cadc51c, 0x017c8da9, 0x4afbe5df, 0x913768fe, 0xfc62bb2f, 0x598fe3bb, 0x47d18828,
     0x0a39aedc, 0xc1428029, 0xeabda8fc, 0x5a5f1098, 0x2d4cfe3e, 0xe5466d1b, 0xe4ccdc13, 0x4e3c50a2]

  const Mid9_6: State :=
    [0x837778ab, 0xe238d763, 0x017c8da9, 0x4afbe5df, 0x913768fe, 0xfc62bb2f, 0x8fa018fc, 0x47d18828,
     0x0a39aedc, 0xc1428029, 0xeabda8fc, 0x82e46ebd, 0xd19c12b4, 0xe5466d1b, 0xe4ccdc13, 0x4e3c50a2]

  const Mid9_7: State :=
    [0x837778ab, 0xe238d763, 0xa67ae21e, 0x4afbe5df, 0x913768fe, 0xfc62bb2f, 0x8fa018fc, 0x3f5ec7b7,
     0x335271c2, 0xc1428029, 0xeabda8fc, 0x82e46ebd, 0xd19c12b4, 0xb04e16de, 0xe4ccdc13, 0x4e3c50a2]

  lemma {:induction false} Pass9Quarter0()
    ensures QuarterRoundAt(Pass9, 0, 4, 8, 12) == Mid9_1
  {
    assert QuarterRound(0xb6b87de6, 0xdc33c122, 0x28c1fcb3, 0x21078b22) == (0x8a07ff15, 0x913768fe, 0x0a39aedc, 0x2d4cfe3e);
    QuarterRoundAtUnique(Pass9, Mid9_1, 0, 4, 8, 12);
  }

  lemma {:induction false} Pass9Quarter1()
    ensures QuarterRoundAt(Mid9_1, 1, 5, 9, 13) == Mid9_2
  {
    assert QuarterRound(0x9a016148, 0x98e18fa3, 0xc4b38f9d, 0xb193e7a3) == (0x0cadc51c, 0x442a0c0c, 0xc1428029, 0xe5466d1b);
    QuarterRoundAtUnique(Mid9_1, Mid9_2, 1, 5, 9, 13);
  }

  lemma {:induction false} Pass9Quarter2()
    ensures QuarterRoundAt(Mid9_2, 2, 6, 10, 14) == Mid9_3
  {
    assert QuarterRound(0x93859815, 0x5ffbe8fc, 0x83e2f5d7, 0xb2f49389) == (0x017c8da9, 0x598fe3bb, 0x7b48135f, 0xe4ccdc13);
    QuarterRoundAtUnique(Mid9_2, Mid9_3, 2, 6, 10, 14);
  }

  lemma {:induction false} Pass9Quarter3()
    ensures QuarterRoundAt(Mid9_3, 3, 7, 11, 15) == Mid9_4
  {
    assert QuarterRound(0x4915e6cc, 0xf7154b8b, 0x7d24b98b, 0x6cde6026) == (0x4afbe5df, 0x47d18828, 0x5a5f1098, 0x8ac92a18);
    QuarterRoundAtUnique(Mid9_3, Mid9_4, 3, 7, 11, 15);
  }

  lemma {:induction false} Pass9Quarter4()
    ensures QuarterRoundAt(Mid9_4, 0, 5, 10, 15) == Mid9_5
  {
    assert QuarterRound(0x8a07ff15, 0x442a0c0c, 0x7b48135f, 0x8ac92a18) == (0x837778ab, 0xfc62bb2f, 0xeabda8fc, 0x4e3c50a2);
    QuarterRoundAtUnique(Mid9_4, Mid9_5, 0, 5, 10, 15);
  }

  lemma {:induction false} Pass9Quarter5()
    ensures QuarterRoundAt(Mid9_5, 1, 6, 11, 12) == Mid9_6
  {
    assert QuarterRound(0x0cadc51c, 0x598fe3bb, 0x5a5f1098, 0x2d4cfe3e) == (0xe238d763, 0x8fa018fc, 0x82e46ebd, 0xd19c12b4);
    QuarterRoundAtUnique(Mid9_5, Mid9_6, 1, 6, 11, 12);
  }

  lemma {:induction false} Pass9Quarter6()
    ensures QuarterRoundAt(Mid9_6, 2, 7, 8, 13) == Mid9_7
  {
    assert QuarterRound(0x017c8da9, 0x47d18828, 0x0a39aedc, 0xe5466d1b) == (0xa67ae21e, 0x3f5ec7b7, 0x335271c2, 0xb04e16de);
    QuarterRoundAtUnique(Mid9_6, Mid9_7, 2, 7, 8, 13);
  }

  lemma {:induction false} Pass9Quarter7()
    ensures QuarterRoundAt(Mid9_7, 3, 4, 9, 14) == Pass10
  {
    assert QuarterRound(0x4afbe5df, 0x913768fe, 0xc1428029, 0xe4ccdc13) == (0x5950bb2f, 0xc4f2d0c7, 0xf29489f3, 0x9e83d0cb);
    QuarterRoundAtUnique(Mid9_7, Pass10, 3, 4, 9, 14);
  }

  /** Pass 9 of the loop: one double round. */
  lemma {:induction false} DoubleRound9(s: State)
    requires s == Pass9
    ensures DoubleRound(s) == Pass10
  {
    MixedNext(s, 0);
    Pass9Quarter0();
    assert Mixed(s, 0, 1) == Mid9_1;
    MixedNext(s, 1);
    Pass9Quarter1();
    assert Mixed(s, 0, 2) == Mid9_2;
    MixedNext(s, 2);
    Pass9Quarter2();
    assert Mixed(s, 0, 3) == Mid9_3;
    MixedNext(s, 3);
    Pass9Quarter3();
    assert Mixed(s, 0, 4) == Mid9_4;
    MixedNext(s, 4);
    Pass9Quarter4();
    assert Mixed(s, 0, 5) == Mid9_5;
    MixedNext(s, 5);
    Pass9Quarter5();
    assert Mixed(s, 0, 6) == Mid9_6;
    MixedNext(s, 6);
    Pass9Quarter6();
    assert Mixed(s, 0, 7) == Mid9_7;
    MixedNext(s, 7);
    Pass9Quarter7();
    assert Mixed(s, 0, 8) == Pass10;
  }

  /** The 20 rounds of the vector. */
  lemma {:induction false} RoundsVector()
    ensures Rounds(Pass0, 20) == Pass10
  {
    assert Rounds(Pass0, 0) == Pass0;
    DoubleRound0(Pass0);
    RoundsLast(Pass0, 2);
    assert Rounds(Pass0, 2) == Pass1;
    DoubleRound1(Pass1);
    RoundsLast(Pass0, 4);
    assert Rounds(Pass0, 4) == Pass2;
    DoubleRound2(Pass2);
    RoundsLast(Pass0, 6);
    assert Rounds(Pass0, 6) == Pass3;
    DoubleRound3(Pass3);
    RoundsLast(Pass0, 8);
    assert Rounds(Pass0, 8) == Pass4;
    DoubleRound4(Pass4);
    RoundsLast(Pass0, 10);
    assert Rounds(Pass0, 10) == Pass5;
    DoubleRound5(Pass5);
    RoundsLast(Pass0, 12);
    assert Rounds(Pass0, 12) == Pass6;
    DoubleRound6(Pass6);
    RoundsLast(Pass0, 14);
    assert Rounds(Pass0, 14) == Pass7;
    DoubleRound7(Pass7);
    RoundsLast(Pass0, 16);
    assert Rounds(Pass0, 16) == Pass8;
    DoubleRound8(Pass8);
    RoundsLast(Pass0, 18);
    assert Rounds(Pass0, 18) == Pass9;
    DoubleRound9(Pass9);
    RoundsLast(Pass0, 20);
    assert Rounds(Pass0, 20) == Pass10;
  }

  /** The key words chacha_init_key reads from the key bytes. */
  const KeyWords: seq<Word> := [0x03020100, 0x07060504, 0x0b0a0908, 0x0f0e0d0c, 0x13121110, 0x17161514, 0x1b1a1918, 0x1f1e1d1c]

  lemma {:induction false} KeyWord0()
    ensures BytesToWords(KeyBytes)[0] == KeyWords[0]
  {
    GatherAt(KeyBytes, 0, 0x00, 0x01, 0x02, 0x03, KeyWords[0]);
  }

  lemma {:induction false} KeyWord1()
    ensures BytesToWords(KeyBytes)[1] == KeyWords[1]
  {
    GatherAt(KeyBytes, 1, 0x04, 0x05, 0x06, 0x07, KeyWords[1]);
  }

  lemma {:induction false} KeyWord2()
    ensures BytesToWords(KeyBytes)[2] == KeyWords[2]
  {
    GatherAt(KeyBytes, 2, 0x08, 0x09, 0x0a, 0x0b, KeyWords[2]);
  }

  lemma {:induction false} KeyWord3()
    ensures BytesToWords(KeyBytes)[3] == KeyWords[3]
  {
    GatherAt(KeyBytes, 3, 0x0c, 0x0d, 0x0e, 0x0f, KeyWords[3]);
  }

  lemma {:induction false} KeyWord4()
    ensures BytesToWords(KeyBytes)[4] == KeyWords[4]
  {
    GatherAt(KeyBytes, 4, 0x10, 0x11, 0x12, 0x13, KeyWords[4]);
  }

  lemma {:induction false} KeyWord5()
    ensures BytesToWords(KeyBytes)[5] == KeyWords[5]
  {
    GatherAt(KeyBytes, 5, 0x14, 0x15, 0x16, 0x17, KeyWords[5]);
  }

  lemma {:induction false} KeyWord6()
    ensures BytesToWords(KeyBytes)[6] == KeyWords[6]
  {
    GatherAt(KeyBytes, 6, 0x18, 0x19, 0x1a, 0x1b, KeyWords[6]);
  }

  lemma {:induction false} KeyWord7()
    ensures BytesToWords(KeyBytes)[7] == KeyWords[7]
  {
    GatherAt(KeyBytes, 7, 0x1c, 0x1d, 0x1e, 0x1f, KeyWords[7]);
  }

  lemma {:induction false} KeyWordsVector()
    ensures BytesToWords(KeyBytes) == KeyWords
  {
    KeyWord0();
    KeyWord1();
    KeyWord2();
    KeyWord3();
    KeyWord4();
    KeyWord5();
    KeyWord6();
    KeyWord7();
  }

  /** Sigma, the key words and the counter words, as the block input. */
  lemma {:induction false} InputVector()
    ensures BlockInput(KeyWords, CounterWords) == Pass0
  {
  }

  lemma {:induction false} BlockWord0()
    ensures BytesToWords(ExpectedBlock)[0] == Add(Pass10[0], Pass0[0])
  {
    GatherAt(ExpectedBlock, 0, 0x10, 0xf1, 0xe7, 0xe4, Add(Pass10[0], Pass0[0]));
  }

  lemma {:induction false} BlockWord1()
    ensures BytesToWords(ExpectedBlock)[1] == Add(Pass10[1], Pass0[1])
  {
    GatherAt(ExpectedBlock, 1, 0xd1, 0x3b, 0x59, 0x15, Add(Pass10[1], Pass0[1]));
  }

  lemma {:induction false} BlockWord2()
    ensures BytesToWords(ExpectedBlock)[2] == Add(Pass10[2], Pass0[2])
  {
    GatherAt(ExpectedBlock, 2, 0x50, 0x0f, 0xdd, 0x1f, Add(Pass10[2], Pass0[2]));
  }

  lemma {:induction false} BlockWord3()
    ensures BytesToWords(ExpectedBlock)[3] == Add(Pass10[3], Pass0[3])
  {
    GatherAt(ExpectedBlock, 3, 0xa3, 0x20, 0x71, 0xc4, Add(Pass10[3], Pass0[3]));
  }

  lemma {:induction false} BlockWord4()
    ensures BytesToWords(ExpectedBlock)[4] == Add(Pass10[4], Pass0[4])
  {
    GatherAt(ExpectedBlock, 4, 0xc7, 0xd1, 0xf4, 0xc7, Add(Pass10[4], Pass0[4]));
  }

  lemma {:induction false} BlockWord5()
    ensures BytesToWords(ExpectedBlock)[5] == Add(Pass10[5], Pass0[5])
  {
    GatherAt(ExpectedBlock, 5, 0x33, 0xc0, 0x68, 0x03, Add(Pass10[5], Pass0[5]));
  }

  lemma {:induction false} BlockWord6()
    ensures BytesToWords(ExpectedBlock)[6] == Add(Pass10[6], Pass0[6])
  {
    GatherAt(ExpectedBlock, 6, 0x04, 0x22, 0xaa, 0x9a, Add(Pass10[6], Pass0[6]));
  }

  lemma {:induction false} BlockWord7()
    ensures BytesToWords(ExpectedBlock)[7] == Add(Pass10[7], Pass0[7])
  {
    GatherAt(ExpectedBlock, 7, 0xc3, 0xd4, 0x6c, 0x4e, Add(Pass10[7], Pass0[7]));
  }

  lemma {:induction false} BlockWord8()
    ensures BytesToWords(ExpectedBlock)[8] == Add(Pass10[8], Pass0[8])
  {
    GatherAt(ExpectedBlock, 8, 0xd2, 0x82, 0x64, 0x46, Add(Pass10[8], Pass0[8]));
  }

  lemma {:induction false} BlockWord9()
    ensures BytesToWords(ExpectedBlock)[9] == Add(Pass10[9], Pass0[9])
  {
    GatherAt(ExpectedBlock, 9, 0x07, 0x9f, 0xaa, 0x09, Add(Pass10[9], Pass0[9]));
  }

  lemma {:induction false} BlockWord10()
    ensures BytesToWords(ExpectedBlock)[10] == Add(Pass10[10], Pass0[10])
  {
    GatherAt(ExpectedBlock, 10, 0x14, 0xc2, 0xd7, 0x05, Add(Pass10[10], Pass0[10]));
  }

  lemma {:induction false} BlockWord11()
    ensures BytesToWords(ExpectedBlock)[11] == Add(Pass10[11], Pass0[11])
  {
    GatherAt(ExpectedBlock, 11, 0xd9, 0x8b, 0x02, 0xa2, Add(Pass10[11], Pass0[11]));
  }

  lemma {:induction false} BlockWord12()
    ensures BytesToWords(ExpectedBlock)[12] == Add(Pass10[12], Pass0[12])
  {
    GatherAt(ExpectedBlock, 12, 0xb5, 0x12, 0x9c, 0xd1, Add(Pass10[12], Pass0[12]));
  }

  lemma {:induction false} BlockWord13()
    ensures BytesToWords(ExpectedBlock)[13] == Add(Pass10[13], Pass0[13])
  {
    GatherAt(ExpectedBlock, 13, 0xde, 0x16, 0x4e, 0xb9, Add(Pass10[13], Pass0[13]));
  }

  lemma {:induction false} BlockWord14()
    ensures BytesToWords(ExpectedBlock)[14] == Add(Pass10[14], Pass0[14])
  {
    GatherAt(ExpectedBlock, 14, 0xcb, 0xd0, 0x83, 0xe8, Add(Pass10[14], Pass0[14]));
  }

  lemma {:induction false} BlockWord15()
    ensures BytesToWords(ExpectedBlock)[15] == Add(Pass10[15], Pass0[15])
  {
    GatherAt(ExpectedBlock, 15, 0xa2, 0x50, 0x3c, 0x4e, Add(Pass10[15], Pass0[15]));
  }

  /** Sixteen words read back from 64 bytes, each the sum of the words at
      its index in x and y, are the feed-forward of x and y. */
  lemma {:induction false} FeedForwardWords(e: seq<Byte>, x: State, y: State)
    requires |e| == 64
    requires BytesToWords(e)[0] == Add(x[0], y[0])
    requires BytesToWords(e)[1] == Add(x[1], y[1])
    requires BytesToWords(e)[2] == Add(x[2], y[2])
    requires BytesToWords(e)[3] == Add(x[3], y[3])
    requires BytesToWords(e)[4] == Add(x[4], y[4])
    requires BytesToWords(e)[5] == Add(x[5], y[5])
    requires BytesToWords(e)[6] == Add(x[6], y[6])
    requires BytesToWords(e)[7] == Add(x[7], y[7])
    requires BytesToWords(e)[8] == Add(x[8], y[8])
    requires BytesToWords(e)[9] == Add(x[9], y[9])
    requires BytesToWords(e)[10] == Add(x[10], y[10])
    requires BytesToWords(e)[11] == Add(x[11], y[11])
    requires BytesToWords(e)[12] == Add(x[12], y[12])
    requires BytesToWords(e)[13] == Add(x[13], y[13])
    requires BytesToWords(e)[14] == Add(x[14], y[14])
    requires BytesToWords(e)[15] == Add(x[15], y[15])
    ensures BytesToWords(e) == FeedForward(x, y)
  {
    forall i | 0 <= i < 16
      ensures BytesToWords(e)[i] == FeedForward(x, y)[i]
    {
      if i == 0 {
      } else if i == 1 {
      } else if i == 2 {
      } else if i == 3 {
      } else if i == 4 {
      } else if i == 5 {
      } else if i == 6 {
      } else if i == 7 {
      } else if i == 8 {
      } else if i == 9 {
      } else if i == 10 {
      } else if i == 11 {
      } else if i == 12 {
      } else if i == 13 {
      } else if i == 14 {
      } else {
      }
    }
  }

  /** The feed-forward and serialisation of the vector: read back as
      little-endian words, the published block is the state after the
      rounds plus the input, word by word. */
  lemma {:induction false} SerialVector()
    ensures WordsToBytes(FeedForward(Pass10, Pass0)) == ExpectedBlock
  {
    BlockWord0();
    BlockWord1();
    BlockWord2();
    BlockWord3();
    BlockWord4();
    BlockWord5();
    BlockWord6();
    BlockWord7();
    BlockWord8();
    BlockWord9();
    BlockWord10();
    BlockWord11();
    BlockWord12();
    BlockWord13();
    BlockWord14();
    BlockWord15();
    FeedForwardWords(ExpectedBlock, Pass10, Pass0);
    BytesRoundTrip(ExpectedBlock);
  }

  /** The block function on the vector's key and counter gives the
      published block: sigma, key and counter laid out as input words, 20
      rounds, the feed-forward and little-endian serialisation. */
  lemma {:induction false} BlockVector()
    ensures KeyBlock(BytesToWords(KeyBytes), CounterWords) == ExpectedBlock
  {
    KeyWordsVector();
    InputVector();
    RoundsVector();
    SerialVector();
  }
}
