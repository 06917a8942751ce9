/** The constants of MD5 are those of RFC 1321: two values of its appendix A.5. */
module Md5Vectors {
  import opened Md5Spec

  /** One more step, whose result is known. */
  lemma Go(x: seq<Word>, i: nat, r: Regs, b: Word) returns (q: Regs)
    requires |x| == 16 && i < 64 && r == Steps(x, i, INIT)
    requires b == Mix(r.a, r.b, Aux(i, r.b, r.c, r.d), x[K(i)], T(i), S(i))
    ensures q == Regs(r.d, b, r.b, r.c) && q == Steps(x, i + 1, INIT)
  {
    q := Step(x, i, r);
  }

  lemma NoSteps(x: seq<Word>)
    requires |x| == 16
    ensures Steps(x, 0, INIT) == INIT
  {
  }

  /** The only block of a message of less than 4 bytes: its first word and its length in bits. */
  predicate IsBlock(x: seq<Word>, first: Word, bits: Word) {
    |x| == 16 && x[0] == first && x[14] == bits && forall k :: 1 <= k < 16 && k != 14 ==> x[k] == 0
  }

  lemma EmptySteps8(x: seq<Word>)
    requires IsBlock(x, 0x00000080, 0x00000000)
    ensures Steps(x, 8, INIT) == Regs(0x32033344, 0x9bc13ce9, 0xf5b158db, 0x2f35d494)
  {
    hide Steps;
    NoSteps(x);
    var r := Regs(0x67452301, 0xefcdab89, 0x98badcfe, 0x10325476);
    r := Go(x, 0, r, 0xa5202774);
    r := Go(x, 1, r, 0xf59592dd);
    r := Go(x, 2, r, 0xe7f06b23);
    r := Go(x, 3, r, 0x1b163203);
    r := Go(x, 4, r, 0x32033344);
    r := Go(x, 5, r, 0x2f35d494);
    r := Go(x, 6, r, 0xf5b158db);
    r := Go(x, 7, r, 0x9bc13ce9);
  }

  lemma EmptySteps16(x: seq<Word>)
    requires IsBlock(x, 0x00000080, 0x00000000) && Steps(x, 8, INIT) == Regs(0x32033344, 0x9bc13ce9, 0xf5b158db, 0x2f35d494)
    ensures Steps(x, 16, INIT) == Regs(0xf56c7cf1, 0xd6819c6a, 0x5aa53f75, 0x374943a7)
  {
    hide Steps;
    var r := Regs(0x32033344, 0x9bc13ce9, 0xf5b158db, 0x2f35d494);
    r := Go(x, 8, r, 0x3893b991);
    r := Go(x, 9, r, 0xfce4a312);
    r := Go(x, 10, r, 0xe1ef0576);
    r := Go(x, 11, r, 0x70768a29);
    r := Go(x, 12, r, 0xf56c7cf1);
    r := Go(x, 13, r, 0x374943a7);
    r := Go(x, 14, r, 0x5aa53f75);
    r := Go(x, 15, r, 0xd6819c6a);
  }

  lemma EmptySteps24(x: seq<Word>)
    requires IsBlock(x, 0x00000080, 0x00000000) && Steps(x, 16, INIT) == Regs(0xf56c7cf1, 0xd6819c6a, 0x5aa53f75, 0x374943a7)
    ensures Steps(x, 24, INIT) == Regs(0x3d1e3e6c, 0xe422531a, 0xeb41643e, 0x68b7b3e3)
  {
    hide Steps;
    var r := Regs(0xf56c7cf1, 0xd6819c6a, 0x5aa53f75, 0x374943a7);
    r := Go(x, 16, r, 0x1c7d7513);
    r := Go(x, 17, r, 0x7bd57a3a);
    r := Go(x, 18, r, 0xc095f13a);
    r := Go(x, 19, r, 0xbd782e17);
    r := Go(x, 20, r, 0x3d1e3e6c);
    r := Go(x, 21, r, 0x68b7b3e3);
    r := Go(x, 22, r, 0xeb41643e);
    r := Go(x, 23, r, 0xe422531a);
  }

  lemma EmptySteps32(x: seq<Word>)
    requires IsBlock(x, 0x00000080, 0x00000000) && Steps(x, 24, INIT) == Regs(0x3d1e3e6c, 0xe422531a, 0xeb41643e, 0x68b7b3e3)
    ensures Steps(x, 32, INIT) == Regs(0x13707036, 0xa2205f1f, 0x1c31c384, 0xae7813db)
  {
    hide Steps;
    var r := Regs(0x3d1e3e6c, 0xe422531a, 0xeb41643e, 0x68b7b3e3);
    r := Go(x, 24, r, 0x306ec122);
    r := Go(x, 25, r, 0xd28c77c2);
    r := Go(x, 26, r, 0xa3c663da);
    r := Go(x, 27, r, 0xa0572807);
    r := Go(x, 28, r, 0x13707036);
    r := Go(x, 29, r, 0xae7813db);
    r := Go(x, 30, r, 0x1c31c384);
    r := Go(x, 31, r, 0xa2205f1f);
  }

  lemma EmptySteps40(x: seq<Word>)
    requires IsBlock(x, 0x00000080, 0x00000000) && Steps(x, 32, INIT) == Regs(0x13707036, 0xa2205f1f, 0x1c31c384, 0xae7813db)
    ensures Steps(x, 40, INIT) == Regs(0x5f7a9b2e, 0xc5dc8c15, 0x91ca4cb7, 0xabc34e16)
  {
    hide Steps;
    var r := Regs(0x13707036, 0xa2205f1f, 0x1c31c384, 0xae7813db);
    r := Go(x, 32, r, 0xdf63eaa1);
    r := Go(x, 33, r, 0xc3689f5b);
    r := Go(x, 34, r, 0x12f3e755);
    r := Go(x, 35, r, 0x004b6669);
    r := Go(x, 36, r, 0x5f7a9b2e);
    r := Go(x, 37, r, 0xabc34e16);
    r := Go(x, 38, r, 0x91ca4cb7);
    r := Go(x, 39, r, 0xc5dc8c15);
  }

  lemma EmptySteps48(x: seq<Word>)
    requires IsBlock(x, 0x00000080, 0x00000000) && Steps(x, 40, INIT) == Regs(0x5f7a9b2e, 0xc5dc8c15, 0x91ca4cb7, 0xabc34e16)
    ensures Steps(x, 48, INIT) == Regs(0x3f55edfd, 0xca7d2dbd, 0x68d84ea2, 0x22a31f54)
  {
    hide Steps;
    var r := Regs(0x5f7a9b2e, 0xc5dc8c15, 0x91ca4cb7, 0xabc34e16);
    r := Go(x, 40, r, 0x4497169d);
    r := Go(x, 41, r, 0x76fd93d4);
    r := Go(x, 42, r, 0xfd95f243);
    r := Go(x, 43, r, 0x0fe32453);
    r := Go(x, 44, r, 0x3f55edfd);
    r := Go(x, 45, r, 0x22a31f54);
    r := Go(x, 46, r, 0x68d84ea2);
    r := Go(x, 47, r, 0xca7d2dbd);
  }

  lemma EmptySteps56(x: seq<Word>)
    requires IsBlock(x, 0x00000080, 0x00000000) && Steps(x, 48, INIT) == Regs(0x3f55edfd, 0xca7d2dbd, 0x68d84ea2, 0x22a31f54)
    ensures Steps(x, 56, INIT) == Regs(0x5625a114, 0x1e77fa61, 0x392ad0d0, 0x3450f42b)
  {
    hide Steps;
    var r := Regs(0x3f55edfd, 0xca7d2dbd, 0x68d84ea2, 0x22a31f54);
    r := Go(x, 48, r, 0x93aa2577);
    r := Go(x, 49, r, 0x1688dc85);
    r := Go(x, 50, r, 0xcd85b8cb);
    r := Go(x, 51, r, 0x561e0689);
    r := Go(x, 52, r, 0x5625a114);
    r := Go(x, 53, r, 0x3450f42b);
    r := Go(x, 54, r, 0x392ad0d0);
    r := Go(x, 55, r, 0x1e77fa61);
  }

  lemma EmptySteps64(x: seq<Word>)
    requires IsBlock(x, 0x00000080, 0x00000000) && Steps(x, 56, INIT) == Regs(0x5625a114, 0x1e77fa61, 0x392ad0d0, 0x3450f42b)
    ensures Steps(x, 64, INIT) == Regs(0x7246fad3, 0x14e45506, 0xff4ea3eb, 0x6e10a476)
  {
    hide Steps;
    var r := Regs(0x5625a114, 0x1e77fa61, 0x392ad0d0, 0x3450f42b);
    r := Go(x, 56, r, 0x474a9c8c);
    r := Go(x, 57, r, 0xdfce00bc);
    r := Go(x, 58, r, 0x36594b14);
    r := Go(x, 59, r, 0x30130182);
    r := Go(x, 60, r, 0x7246fad3);
    r := Go(x, 61, r, 0x6e10a476);
    r := Go(x, 62, r, 0xff4ea3eb);
    r := Go(x, 63, r, 0x14e45506);
  }

  lemma AbcSteps8(x: seq<Word>)
    requires IsBlock(x, 0x80636261, 0x00000018)
    ensures Steps(x, 8, INIT) == Regs(0xc73741ef, 0x928d99f6, 0x207dc67b, 0x8bac3051)
  {
    hide Steps;
    NoSteps(x);
    var r := Regs(0x67452301, 0xefcdab89, 0x98badcfe, 0x10325476);
    r := Go(x, 0, r, 0xd6d117b4);
    r := Go(x, 1, r, 0x344a8432);
    r := Go(x, 2, r, 0x2f6fbd72);
    r := Go(x, 3, r, 0x7ad956f2);
    r := Go(x, 4, r, 0xc73741ef);
    r := Go(x, 5, r, 0x8bac3051);
    r := Go(x, 6, r, 0x207dc67b);
    r := Go(x, 7, r, 0x928d99f6);
  }

  lemma AbcSteps16(x: seq<Word>)
    requires IsBlock(x, 0x80636261, 0x00000018) && Steps(x, 8, INIT) == Regs(0xc73741ef, 0x928d99f6, 0x207dc67b, 0x8bac3051)
    ensures Steps(x, 16, INIT) == Regs(0xdda9b9a6, 0x72aff2e0, 0xe396856b, 0xa1051895)
  {
    hide Steps;
    var r := Regs(0xc73741ef, 0x928d99f6, 0x207dc67b, 0x8bac3051);
    r := Go(x, 8, r, 0x854b3712);
    r := Go(x, 9, r, 0x74e2f284);
    r := Go(x, 10, r, 0x3020401c);
    r := Go(x, 11, r, 0x5ed49596);
    r := Go(x, 12, r, 0xdda9b9a6);
    r := Go(x, 13, r, 0xa1051895);
    r := Go(x, 14, r, 0xe396856b);
    r := Go(x, 15, r, 0x72aff2e0);
  }

  lemma AbcSteps24(x: seq<Word>)
    requires IsBlock(x, 0x80636261, 0x00000018) && Steps(x, 16, INIT) == Regs(0xdda9b9a6, 0x72aff2e0, 0xe396856b, 0xa1051895)
    ensures Steps(x, 24, INIT) == Regs(0x59a8ffda, 0x47092c07, 0xabfc7920, 0x6d002f1e)
  {
    hide Steps;
    var r := Regs(0xdda9b9a6, 0x72aff2e0, 0xe396856b, 0xa1051895);
    r := Go(x, 16, r, 0x3e9e9126);
    r := Go(x, 17, r, 0x4a1d804e);
    r := Go(x, 18, r, 0xe25e1652);
    r := Go(x, 19, r, 0xb5b204e4);
    r := Go(x, 20, r, 0x59a8ffda);
    r := Go(x, 21, r, 0x6d002f1e);
    r := Go(x, 22, r, 0xabfc7920);
    r := Go(x, 23, r, 0x47092c07);
  }

  lemma AbcSteps32(x: seq<Word>)
    requires IsBlock(x, 0x80636261, 0x00000018) && Steps(x, 24, INIT) == Regs(0x59a8ffda, 0x47092c07, 0xabfc7920, 0x6d002f1e)
    ensures Steps(x, 32, INIT) == Regs(0x790a77fb, 0x726342d3, 0xa62884aa, 0x9f47e4f8)
  {
    hide Steps;
    var r := Regs(0x59a8ffda, 0x47092c07, 0xabfc7920, 0x6d002f1e);
    r := Go(x, 24, r, 0xb7f268cf);
    r := Go(x, 25, r, 0x09388eff);
    r := Go(x, 26, r, 0xfe1623b1);
    r := Go(x, 27, r, 0x786acb8f);
    r := Go(x, 28, r, 0x790a77fb);
    r := Go(x, 29, r, 0x9f47e4f8);
    r := Go(x, 30, r, 0xa62884aa);
    r := Go(x, 31, r, 0x726342d3);
  }

  lemma AbcSteps40(x: seq<Word>)
    requires IsBlock(x, 0x80636261, 0x00000018) && Steps(x, 32, INIT) == Regs(0x790a77fb, 0x726342d3, 0xa62884aa, 0x9f47e4f8)
    ensures Steps(x, 40, INIT) == Regs(0x21b117b9, 0x5a2f5ea5, 0x3575227e, 0x6e7429d5)
  {
    hide Steps;
    var r := Regs(0x790a77fb, 0x726342d3, 0xa62884aa, 0x9f47e4f8);
    r := Go(x, 32, r, 0xb3707ebf);
    r := Go(x, 33, r, 0x60127b2e);
    r := Go(x, 34, r, 0x8d212ff5);
    r := Go(x, 35, r, 0x3b0875c7);
    r := Go(x, 36, r, 0x21b117b9);
    r := Go(x, 37, r, 0x6e7429d5);
    r := Go(x, 38, r, 0x3575227e);
    r := Go(x, 39, r, 0x5a2f5ea5);
  }

  lemma AbcSteps48(x: seq<Word>)
    requires IsBlock(x, 0x80636261, 0x00000018) && Steps(x, 40, INIT) == Regs(0x21b117b9, 0x5a2f5ea5, 0x3575227e, 0x6e7429d5)
    ensures Steps(x, 48, INIT) == Regs(0x7f2e507b, 0x7beb9700, 0x8fae6399, 0x99d9679d)
  {
    hide Steps;
    var r := Regs(0x21b117b9, 0x5a2f5ea5, 0x3575227e, 0x6e7429d5);
    r := Go(x, 40, r, 0x11de1779);
    r := Go(x, 41, r, 0xfadcaa38);
    r := Go(x, 42, r, 0x31c465ca);
    r := Go(x, 43, r, 0x4c6124f4);
    r := Go(x, 44, r, 0x7f2e507b);
    r := Go(x, 45, r, 0x99d9679d);
    r := Go(x, 46, r, 0x8fae6399);
    r := Go(x, 47, r, 0x7beb9700);
  }

  lemma AbcSteps56(x: seq<Word>)
    requires IsBlock(x, 0x80636261, 0x00000018) && Steps(x, 48, INIT) == Regs(0x7f2e507b, 0x7beb9700, 0x8fae6399, 0x99d9679d)
    ensures Steps(x, 56, INIT) == Regs(0x06cc5e8a, 0x3bfa2c27, 0x7d632dd0, 0x5b0d97aa)
  {
    hide Steps;
    var r := Regs(0x7f2e507b, 0x7beb9700, 0x8fae6399, 0x99d9679d);
    r := Go(x, 48, r, 0x7b201df8);
    r := Go(x, 49, r, 0xf4e8e96e);
    r := Go(x, 50, r, 0xb298cefd);
    r := Go(x, 51, r, 0x8bf025c4);
    r := Go(x, 52, r, 0x06cc5e8a);
    r := Go(x, 53, r, 0x5b0d97aa);
    r := Go(x, 54, r, 0x7d632dd0);
    r := Go(x, 55, r, 0x3bfa2c27);
  }

  lemma AbcSteps64(x: seq<Word>)
    requires IsBlock(x, 0x80636261, 0x00000018) && Steps(x, 56, INIT) == Regs(0x06cc5e8a, 0x3bfa2c27, 0x7d632dd0, 0x5b0d97aa)
    ensures Steps(x, 64, INIT) == Regs(0x310ade8f, 0xc08226b3, 0xe484b9d8, 0x624d8cb2)
  {
    hide Steps;
    var r := Regs(0x06cc5e8a, 0x3bfa2c27, 0x7d632dd0, 0x5b0d97aa);
    r := Go(x, 56, r, 0x7f81cc35);
    r := Go(x, 57, r, 0x094454ab);
    r := Go(x, 58, r, 0x4f9dbe3f);
    r := Go(x, 59, r, 0x7327d604);
    r := Go(x, 60, r, 0x310ade8f);
    r := Go(x, 61, r, 0x624d8cb2);
    r := Go(x, 62, r, 0xe484b9d8);
    r := Go(x, 63, r, 0xc08226b3);
  }

  /** A message of at most 3 bytes is one block. */
  lemma ShortBlock(m: seq<Octet>)
    requires |m| <= 3
    ensures var n := m + [0x80] + Zero(3); |n| >= 4 && IsBlock(Padded(m), LeWord(n[0], n[1], n[2], n[3]), Low32(8 * |m|))
  {
    hide LeWord, Low32;
    assert LeWord(0, 0, 0, 0) == 0 by { ZeroWord(); }
    assert Low32(0) == 0 by { ZeroLow(); }
    var bs := m + [0x80] + Zero(Zeros(|m|));
    assert forall k :: 4 <= k < 56 ==> bs[k] == 0;
    var n := m + [0x80] + Zero(3);
    assert bs[0] == n[0] && bs[1] == n[1] && bs[2] == n[2] && bs[3] == n[3];
    forall k | 1 <= k < 14
      ensures Words(bs)[k] == 0
    {
    }
  }

  lemma ZeroWord()
    ensures LeWord(0, 0, 0, 0) == 0
  {
  }

  lemma ZeroLow()
    ensures Low32(0) == 0
  {
  }

  lemma OneBlock(m: seq<Octet>, r: Regs)
    requires |Padded(m)| == 16 && Steps(Padded(m), 64, INIT) == r
    ensures Digest(m) == Output(Add(INIT, r))
  {
    hide Padded, Steps, Output, Add;
    var x := Padded(m);
    assert x[..16] == x && x[16..] == [];
    assert Blocks(Block(INIT, x), []) == Block(INIT, x);
  }

  /** MD5 of the empty message. */
  lemma EmptyMessage()
    ensures Digest([]) == [0xd4, 0x1d, 0x8c, 0xd9, 0x8f, 0x00, 0xb2, 0x04, 0xe9, 0x80, 0x09, 0x98, 0xec, 0xf8, 0x42, 0x7e]
  {
    hide Padded, Digest, Steps;
    var x := Padded([]);
    ShortBlock([]);
    assert Low32(0) == 0 by { ZeroLow(); }
    EmptySteps8(x);
    EmptySteps16(x);
    EmptySteps24(x);
    EmptySteps32(x);
    EmptySteps40(x);
    EmptySteps48(x);
    EmptySteps56(x);
    EmptySteps64(x);
    OneBlock([], Steps(x, 64, INIT));
  }

  /** MD5 of "abc". */
  lemma AbcMessage()
    ensures Digest([0x61, 0x62, 0x63]) == [0x90, 0x01, 0x50, 0x98, 0x3c, 0xd2, 0x4f, 0xb0, 0xd6, 0x96, 0x3f, 0x7d, 0x28, 0xe1, 0x7f, 0x72]
  {
    hide Padded, Digest, Steps;
    var m: seq<Octet> := [0x61, 0x62, 0x63];
    var x := Padded(m);
    ShortBlock(m);
    assert Low32(24) == 24;
    AbcSteps8(x);
    AbcSteps16(x);
    AbcSteps24(x);
    AbcSteps32(x);
    AbcSteps40(x);
    AbcSteps48(x);
    AbcSteps56(x);
    AbcSteps64(x);
    OneBlock(m, Steps(x, 64, INIT));
  }
}
