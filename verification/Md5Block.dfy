/** The block transformation of md5.cpp: 64 steps written out, against the table-driven ones. */
module Md5Block {
  import opened Md5Spec

  // ----- the core functions of the program -----

  function F1(x: Word, y: Word, z: Word): Word { z ^ (x & (y ^ z)) }
  function F2(x: Word, y: Word, z: Word): Word { F1(z, x, y) }
  function F3(x: Word, y: Word, z: Word): Word { x ^ y ^ z }
  function F4(x: Word, y: Word, z: Word): Word { y ^ (x | !z) }

  /** `MD5STEP`: `f` is the value of the core function, `i` the word plus the constant. */
  function Md5Step(f: Word, w: Word, x: Word, i: Word, s: bv6): Word
    requires s < 32
  {
    Plus(Rotate(Plus(w, Plus(f, i)), s), x)
  }

  /** The core function of step `i`. */
  function Core(i: nat, x: Word, y: Word, z: Word): Word {
    if i < 16 then F1(x, y, z) else if i < 32 then F2(x, y, z) else if i < 48 then F3(x, y, z) else F4(x, y, z)
  }

  /** A choice between bits, in the form that saves an operation. */
  lemma Choice(x: Word, y: Word, z: Word)
    ensures z ^ (x & (y ^ z)) == (x & y) | (!x & z)
  {
  }

  lemma ChoiceTurned(x: Word, y: Word, z: Word)
    ensures (z & x) | (!z & y) == (x & z) | (y & !z)
  {
  }

  lemma CoreSame(i: nat, x: Word, y: Word, z: Word)
    ensures Core(i, x, y, z) == Aux(i, x, y, z)
  {
    hide F1, F2, F3, F4, F, G, H, I;
    F1Same(x, y, z);
    F2Same(x, y, z);
    F3Same(x, y, z);
    F4Same(x, y, z);
  }

  lemma F1Same(x: Word, y: Word, z: Word)
    ensures F1(x, y, z) == F(x, y, z)
  {
    Choice(x, y, z);
  }

  lemma F2Same(x: Word, y: Word, z: Word)
    ensures F2(x, y, z) == G(x, y, z)
  {
    Choice(z, x, y);
    ChoiceTurned(x, y, z);
  }

  lemma F3Same(x: Word, y: Word, z: Word)
    ensures F3(x, y, z) == H(x, y, z)
  {
  }

  lemma F4Same(x: Word, y: Word, z: Word)
    ensures F4(x, y, z) == I(x, y, z)
  {
  }

  lemma Commute(a: Word, b: Word)
    ensures a + b == b + a
  {
  }

  lemma PlusSame(a: Word, b: Word)
    ensures Plus(a, b) == Plus(b, a)
  {
    Commute(a, b);
  }

  lemma MixSame(a: Word, b: Word, f: Word, x: Word, t: Word, s: bv6)
    requires s < 32
    ensures Md5Step(f, a, b, Plus(x, t), s) == Mix(a, b, f, x, t, s)
  {
    hide Rotate, Plus;
    PlusSame(Rotate(Sum(a, f, x, t), s), b);
  }

  /** One written-out step is one step of the table. */
  lemma StepSame(x: seq<Word>, i: nat, r: Regs, v: Word)
    requires |x| == 16 && i < 64 && v == Md5Step(Core(i, r.b, r.c, r.d), r.a, r.b, Plus(x[K(i)], T(i)), S(i))
    ensures Step(x, i, r) == Regs(r.d, v, r.b, r.c)
  {
    hide Core, Aux, T, K, S, Mix, Md5Step, Plus;
    CoreSame(i, r.b, r.c, r.d);
    MixSame(r.a, r.b, Aux(i, r.b, r.c, r.d), x[K(i)], T(i), S(i));
  }

  /** After four steps the registers are in their places again. */
  lemma FourSteps(x: seq<Word>, i: nat, r: Regs, o: Regs, n: Regs)
    requires |x| == 16 && i <= 60 && Steps(x, i, r) == o
    requires n.a == Md5Step(Core(i, o.b, o.c, o.d), o.a, o.b, Plus(x[K(i)], T(i)), S(i))
    requires n.d == Md5Step(Core(i + 1, n.a, o.b, o.c), o.d, n.a, Plus(x[K(i + 1)], T(i + 1)), S(i + 1))
    requires n.c == Md5Step(Core(i + 2, n.d, n.a, o.b), o.c, n.d, Plus(x[K(i + 2)], T(i + 2)), S(i + 2))
    requires n.b == Md5Step(Core(i + 3, n.c, n.d, n.a), o.b, n.c, Plus(x[K(i + 3)], T(i + 3)), S(i + 3))
    ensures Steps(x, i + 4, r) == n
  {
    hide Core, T, K, S, Md5Step, Step, Plus;
    StepSame(x, i, o, n.a);
    StepSame(x, i + 1, Regs(o.d, n.a, o.b, o.c), n.d);
    StepSame(x, i + 2, Regs(o.c, n.d, n.a, o.b), n.c);
    StepSame(x, i + 3, Regs(o.b, n.c, n.d, n.a), n.b);
    assert Steps(x, i + 1, r) == Regs(o.d, n.a, o.b, o.c);
    assert Steps(x, i + 2, r) == Regs(o.c, n.d, n.a, o.b);
    assert Steps(x, i + 3, r) == Regs(o.b, n.c, n.d, n.a);
  }

  /** Steps 1 to 4 of MD5Transform. */
  method Steps1To4(x: seq<Word>, ghost r: Regs, q: Regs) returns (n: Regs)
    requires |x| == 16 && q == Steps(x, 0, r)
    ensures n == Steps(x, 4, r)
  {
    hide Steps, Md5Step, Plus, F1, F2, F3, F4;
    var a, b, c, d := q.a, q.b, q.c, q.d;
    a := Md5Step(F1(b, c, d), a, b, Plus(x[0], 0xd76aa478), 7);
    d := Md5Step(F1(a, b, c), d, a, Plus(x[1], 0xe8c7b756), 12);
    c := Md5Step(F1(d, a, b), c, d, Plus(x[2], 0x242070db), 17);
    b := Md5Step(F1(c, d, a), b, c, Plus(x[3], 0xc1bdceee), 22);
    n := Regs(a, b, c, d);
    FourSteps(x, 0, r, q, n);
  }

  /** Steps 5 to 8 of MD5Transform. */
  method Steps5To8(x: seq<Word>, ghost r: Regs, q: Regs) returns (n: Regs)
    requires |x| == 16 && q == Steps(x, 4, r)
    ensures n == Steps(x, 8, r)
  {
    hide Steps, Md5Step, Plus, F1, F2, F3, F4;
    var a, b, c, d := q.a, q.b, q.c, q.d;
    a := Md5Step(F1(b, c, d), a, b, Plus(x[4], 0xf57c0faf), 7);
    d := Md5Step(F1(a, b, c), d, a, Plus(x[5], 0x4787c62a), 12);
    c := Md5Step(F1(d, a, b), c, d, Plus(x[6], 0xa8304613), 17);
    b := Md5Step(F1(c, d, a), b, c, Plus(x[7], 0xfd469501), 22);
    n := Regs(a, b, c, d);
    FourSteps(x, 4, r, q, n);
  }

  /** Steps 9 to 12 of MD5Transform. */
  method Steps9To12(x: seq<Word>, ghost r: Regs, q: Regs) returns (n: Regs)
    requires |x| == 16 && q == Steps(x, 8, r)
    ensures n == Steps(x, 12, r)
  {
    hide Steps, Md5Step, Plus, F1, F2, F3, F4;
    var a, b, c, d := q.a, q.b, q.c, q.d;
    a := Md5Step(F1(b, c, d), a, b, Plus(x[8], 0x698098d8), 7);
    d := Md5Step(F1(a, b, c), d, a, Plus(x[9], 0x8b44f7af), 12);
    c := Md5Step(F1(d, a, b), c, d, Plus(x[10], 0xffff5bb1), 17);
    b := Md5Step(F1(c, d, a), b, c, Plus(x[11], 0x895cd7be), 22);
    n := Regs(a, b, c, d);
    FourSteps(x, 8, r, q, n);
  }

  /** Steps 13 to 16 of MD5Transform. */
  method Steps13To16(x: seq<Word>, ghost r: Regs, q: Regs) returns (n: Regs)
    requires |x| == 16 && q == Steps(x, 12, r)
    ensures n == Steps(x, 16, r)
  {
    hide Steps, Md5Step, Plus, F1, F2, F3, F4;
    var a, b, c, d := q.a, q.b, q.c, q.d;
    a := Md5Step(F1(b, c, d), a, b, Plus(x[12], 0x6b901122), 7);
    d := Md5Step(F1(a, b, c), d, a, Plus(x[13], 0xfd987193), 12);
    c := Md5Step(F1(d, a, b), c, d, Plus(x[14], 0xa679438e), 17);
    b := Md5Step(F1(c, d, a), b, c, Plus(x[15], 0x49b40821), 22);
    n := Regs(a, b, c, d);
    FourSteps(x, 12, r, q, n);
  }

  /** Steps 17 to 20 of MD5Transform. */
  method Steps17To20(x: seq<Word>, ghost r: Regs, q: Regs) returns (n: Regs)
    requires |x| == 16 && q == Steps(x, 16, r)
    ensures n == Steps(x, 20, r)
  {
    hide Steps, Md5Step, Plus, F1, F2, F3, F4;
    var a, b, c, d := q.a, q.b, q.c, q.d;
    a := Md5Step(F2(b, c, d), a, b, Plus(x[1], 0xf61e2562), 5);
    d := Md5Step(F2(a, b, c), d, a, Plus(x[6], 0xc040b340), 9);
    c := Md5Step(F2(d, a, b), c, d, Plus(x[11], 0x265e5a51), 14);
    b := Md5Step(F2(c, d, a), b, c, Plus(x[0], 0xe9b6c7aa), 20);
    n := Regs(a, b, c, d);
    FourSteps(x, 16, r, q, n);
  }

  /** Steps 21 to 24 of MD5Transform. */
  method Steps21To24(x: seq<Word>, ghost r: Regs, q: Regs) returns (n: Regs)
    requires |x| == 16 && q == Steps(x, 20, r)
    ensures n == Steps(x, 24, r)
  {
    hide Steps, Md5Step, Plus, F1, F2, F3, F4;
    var a, b, c, d := q.a, q.b, q.c, q.d;
    a := Md5Step(F2(b, c, d), a, b, Plus(x[5], 0xd62f105d), 5);
    d := Md5Step(F2(a, b, c), d, a, Plus(x[10], 0x02441453), 9);
    c := Md5Step(F2(d, a, b), c, d, Plus(x[15], 0xd8a1e681), 14);
    b := Md5Step(F2(c, d, a), b, c, Plus(x[4], 0xe7d3fbc8), 20);
    n := Regs(a, b, c, d);
    FourSteps(x, 20, r, q, n);
  }

  /** Steps 25 to 28 of MD5Transform. */
  method Steps25To28(x: seq<Word>, ghost r: Regs, q: Regs) returns (n: Regs)
    requires |x| == 16 && q == Steps(x, 24, r)
    ensures n == Steps(x, 28, r)
  {
    hide Steps, Md5Step, Plus, F1, F2, F3, F4;
    var a, b, c, d := q.a, q.b, q.c, q.d;
    a := Md5Step(F2(b, c, d), a, b, Plus(x[9], 0x21e1cde6), 5);
    d := Md5Step(F2(a, b, c), d, a, Plus(x[14], 0xc33707d6), 9);
    c := Md5Step(F2(d, a, b), c, d, Plus(x[3], 0xf4d50d87), 14);
    b := Md5Step(F2(c, d, a), b, c, Plus(x[8], 0x455a14ed), 20);
    n := Regs(a, b, c, d);
    FourSteps(x, 24, r, q, n);
  }

  /** Steps 29 to 32 of MD5Transform. */
  method Steps29To32(x: seq<Word>, ghost r: Regs, q: Regs) returns (n: Regs)
    requires |x| == 16 && q == Steps(x, 28, r)
    ensures n == Steps(x, 32, r)
  {
    hide Steps, Md5Step, Plus, F1, F2, F3, F4;
    var a, b, c, d := q.a, q.b, q.c, q.d;
    a := Md5Step(F2(b, c, d), a, b, Plus(x[13], 0xa9e3e905), 5);
    d := Md5Step(F2(a, b, c), d, a, Plus(x[2], 0xfcefa3f8), 9);
    c := Md5Step(F2(d, a, b), c, d, Plus(x[7], 0x676f02d9), 14);
    b := Md5Step(F2(c, d, a), b, c, Plus(x[12], 0x8d2a4c8a), 20);
    n := Regs(a, b, c, d);
    FourSteps(x, 28, r, q, n);
  }

  /** Steps 33 to 36 of MD5Transform. */
  method Steps33To36(x: seq<Word>, ghost r: Regs, q: Regs) returns (n: Regs)
    requires |x| == 16 && q == Steps(x, 32, r)
    ensures n == Steps(x, 36, r)
  {
    hide Steps, Md5Step, Plus, F1, F2, F3, F4;
    var a, b, c, d := q.a, q.b, q.c, q.d;
    a := Md5Step(F3(b, c, d), a, b, Plus(x[5], 0xfffa3942), 4);
    d := Md5Step(F3(a, b, c), d, a, Plus(x[8], 0x8771f681), 11);
    c := Md5Step(F3(d, a, b), c, d, Plus(x[11], 0x6d9d6122), 16);
    b := Md5Step(F3(c, d, a), b, c, Plus(x[14], 0xfde5380c), 23);
    n := Regs(a, b, c, d);
    FourSteps(x, 32, r, q, n);
  }

  /** Steps 37 to 40 of MD5Transform. */
  method Steps37To40(x: seq<Word>, ghost r: Regs, q: Regs) returns (n: Regs)
    requires |x| == 16 && q == Steps(x, 36, r)
    ensures n == Steps(x, 40, r)
  {
    hide Steps, Md5Step, Plus, F1, F2, F3, F4;
    var a, b, c, d := q.a, q.b, q.c, q.d;
    a := Md5Step(F3(b, c, d), a, b, Plus(x[1], 0xa4beea44), 4);
    d := Md5Step(F3(a, b, c), d, a, Plus(x[4], 0x4bdecfa9), 11);
    c := Md5Step(F3(d, a, b), c, d, Plus(x[7], 0xf6bb4b60), 16);
    b := Md5Step(F3(c, d, a), b, c, Plus(x[10], 0xbebfbc70), 23);
    n := Regs(a, b, c, d);
    FourSteps(x, 36, r, q, n);
  }

  /** Steps 41 to 44 of MD5Transform. */
  method Steps41To44(x: seq<Word>, ghost r: Regs, q: Regs) returns (n: Regs)
    requires |x| == 16 && q == Steps(x, 40, r)
    ensures n == Steps(x, 44, r)
  {
    hide Steps, Md5Step, Plus, F1, F2, F3, F4;
    var a, b, c, d := q.a, q.b, q.c, q.d;
    a := Md5Step(F3(b, c, d), a, b, Plus(x[13], 0x289b7ec6), 4);
    d := Md5Step(F3(a, b, c), d, a, Plus(x[0], 0xeaa127fa), 11);
    c := Md5Step(F3(d, a, b), c, d, Plus(x[3], 0xd4ef3085), 16);
    b := Md5Step(F3(c, d, a), b, c, Plus(x[6], 0x04881d05), 23);
    n := Regs(a, b, c, d);
    FourSteps(x, 40, r, q, n);
  }

  /** Steps 45 to 48 of MD5Transform. */
  method Steps45To48(x: seq<Word>, ghost r: Regs, q: Regs) returns (n: Regs)
    requires |x| == 16 && q == Steps(x, 44, r)
    ensures n == Steps(x, 48, r)
  {
    hide Steps, Md5Step, Plus, F1, F2, F3, F4;
    var a, b, c, d := q.a, q.b, q.c, q.d;
    a := Md5Step(F3(b, c, d), a, b, Plus(x[9], 0xd9d4d039), 4);
    d := Md5Step(F3(a, b, c), d, a, Plus(x[12], 0xe6db99e5), 11);
    c := Md5Step(F3(d, a, b), c, d, Plus(x[15], 0x1fa27cf8), 16);
    b := Md5Step(F3(c, d, a), b, c, Plus(x[2], 0xc4ac5665), 23);
    n := Regs(a, b, c, d);
    FourSteps(x, 44, r, q, n);
  }

  /** Steps 49 to 52 of MD5Transform. */
  method Steps49To52(x: seq<Word>, ghost r: Regs, q: Regs) returns (n: Regs)
    requires |x| == 16 && q == Steps(x, 48, r)
    ensures n == Steps(x, 52, r)
  {
    hide Steps, Md5Step, Plus, F1, F2, F3, F4;
    var a, b, c, d := q.a, q.b, q.c, q.d;
    a := Md5Step(F4(b, c, d), a, b, Plus(x[0], 0xf4292244), 6);
    d := Md5Step(F4(a, b, c), d, a, Plus(x[7], 0x432aff97), 10);
    c := Md5Step(F4(d, a, b), c, d, Plus(x[14], 0xab9423a7), 15);
    b := Md5Step(F4(c, d, a), b, c, Plus(x[5], 0xfc93a039), 21);
    n := Regs(a, b, c, d);
    FourSteps(x, 48, r, q, n);
  }

  /** Steps 53 to 56 of MD5Transform. */
  method Steps53To56(x: seq<Word>, ghost r: Regs, q: Regs) returns (n: Regs)
    requires |x| == 16 && q == Steps(x, 52, r)
    ensures n == Steps(x, 56, r)
  {
    hide Steps, Md5Step, Plus, F1, F2, F3, F4;
    var a, b, c, d := q.a, q.b, q.c, q.d;
    a := Md5Step(F4(b, c, d), a, b, Plus(x[12], 0x655b59c3), 6);
    d := Md5Step(F4(a, b, c), d, a, Plus(x[3], 0x8f0ccc92), 10);
    c := Md5Step(F4(d, a, b), c, d, Plus(x[10], 0xffeff47d), 15);
    b := Md5Step(F4(c, d, a), b, c, Plus(x[1], 0x85845dd1), 21);
    n := Regs(a, b, c, d);
    FourSteps(x, 52, r, q, n);
  }

  /** Steps 57 to 60 of MD5Transform. */
  method Steps57To60(x: seq<Word>, ghost r: Regs, q: Regs) returns (n: Regs)
    requires |x| == 16 && q == Steps(x, 56, r)
    ensures n == Steps(x, 60, r)
  {
    hide Steps, Md5Step, Plus, F1, F2, F3, F4;
    var a, b, c, d := q.a, q.b, q.c, q.d;
    a := Md5Step(F4(b, c, d), a, b, Plus(x[8], 0x6fa87e4f), 6);
    d := Md5Step(F4(a, b, c), d, a, Plus(x[15], 0xfe2ce6e0), 10);
    c := Md5Step(F4(d, a, b), c, d, Plus(x[6], 0xa3014314), 15);
    b := Md5Step(F4(c, d, a), b, c, Plus(x[13], 0x4e0811a1), 21);
    n := Regs(a, b, c, d);
    FourSteps(x, 56, r, q, n);
  }

  /** Steps 61 to 64 of MD5Transform. */
  method Steps61To64(x: seq<Word>, ghost r: Regs, q: Regs) returns (n: Regs)
    requires |x| == 16 && q == Steps(x, 60, r)
    ensures n == Steps(x, 64, r)
  {
    hide Steps, Md5Step, Plus, F1, F2, F3, F4;
    var a, b, c, d := q.a, q.b, q.c, q.d;
    a := Md5Step(F4(b, c, d), a, b, Plus(x[4], 0xf7537e82), 6);
    d := Md5Step(F4(a, b, c), d, a, Plus(x[11], 0xbd3af235), 10);
    c := Md5Step(F4(d, a, b), c, d, Plus(x[2], 0x2ad7d2bb), 15);
    b := Md5Step(F4(c, d, a), b, c, Plus(x[9], 0xeb86d391), 21);
    n := Regs(a, b, c, d);
    FourSteps(x, 60, r, q, n);
  }

  /** `MD5Transform`. */
  method Transform(buf: Regs, x: seq<Word>) returns (n: Regs)
    requires |x| == 16
    ensures n == Block(buf, x)
  {
    hide Steps, Add;
    NoSteps(x, buf);
    var q := Steps1To4(x, buf, buf);
    q := Steps5To8(x, buf, q);
    q := Steps9To12(x, buf, q);
    q := Steps13To16(x, buf, q);
    q := Steps17To20(x, buf, q);
    q := Steps21To24(x, buf, q);
    q := Steps25To28(x, buf, q);
    q := Steps29To32(x, buf, q);
    q := Steps33To36(x, buf, q);
    q := Steps37To40(x, buf, q);
    q := Steps41To44(x, buf, q);
    q := Steps45To48(x, buf, q);
    q := Steps49To52(x, buf, q);
    q := Steps53To56(x, buf, q);
    q := Steps57To60(x, buf, q);
    q := Steps61To64(x, buf, q);
    n := Add(buf, q);
  }

  lemma NoSteps(x: seq<Word>, r: Regs)
    requires |x| == 16
    ensures Steps(x, 0, r) == r
  {
  }
}
