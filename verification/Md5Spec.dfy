/** MD5 as sections 3.1 to 3.5 of RFC 1321 define it. */
module Md5Spec {

  type Word = bv32
  type Octet = bv8

  /** The four registers. */
  datatype Regs = Regs(a: Word, b: Word, c: Word, d: Word)

  const INIT: Regs := Regs(0x67452301, 0xefcdab89, 0x98badcfe, 0x10325476)

  // ----- padding and words -----

  const MOD32 := 0x1_0000_0000

  /** Four bytes, low-order first, are a word. */
  function LeWord(p: Octet, q: Octet, r: Octet, s: Octet): Word {
    (p as bv32) | ((q as bv32) << 8) | ((r as bv32) << 16) | ((s as bv32) << 24)
  }

  function Words(bs: seq<Octet>): (ws: seq<Word>)
    ensures |ws| == |bs| / 4
  {
    seq(|bs| / 4, i requires 0 <= i < |bs| / 4 => LeWord(bs[4 * i], bs[4 * i + 1], bs[4 * i + 2], bs[4 * i + 3]))
  }

  /** The number of zero bytes between the 0x80 and the length: the message is padded to
      56 bytes modulo 64. */
  function Zeros(len: nat): (z: nat)
    ensures z < 64 && (len + 1 + z) % 64 == 56
  {
    if len % 64 <= 55 then 55 - len % 64 else 119 - len % 64
  }

  function Zero(n: nat): (r: seq<Octet>)
    ensures |r| == n && forall i :: 0 <= i < n ==> r[i] == 0
  {
    seq(n, i => 0)
  }

  /** The low 32 bits of a number. */
  function Low32(n: nat): Word { (n % MOD32) as bv32 }

  /** The length in bits as two words, low-order word first; only its low 64 bits are used. */
  function BitLength(len: nat): (ws: seq<Word>)
    ensures |ws| == 2
  {
    [Low32(8 * len), Low32(8 * len / MOD32)]
  }

  /** Sections 3.1 and 3.2: a one bit, zeros, and the length. */
  function Padded(m: seq<Octet>): seq<Word> { Words(m + [0x80] + Zero(Zeros(|m|))) + BitLength(|m|) }

  // ----- section 3.4 -----

  function F(x: Word, y: Word, z: Word): Word { (x & y) | (!x & z) }
  function G(x: Word, y: Word, z: Word): Word { (x & z) | (y & !z) }
  function H(x: Word, y: Word, z: Word): Word { x ^ y ^ z }
  function I(x: Word, y: Word, z: Word): Word { y ^ (x | !z) }

  /** The auxiliary function of step `i`. */
  function Aux(i: nat, x: Word, y: Word, z: Word): Word {
    if i < 16 then F(x, y, z) else if i < 32 then G(x, y, z) else if i < 48 then H(x, y, z) else I(x, y, z)
  }

  /** The word of the block that step `i` uses. */
  function K(i: nat): (k: nat)
    ensures i < 64 ==> k < 16
  {
    if i < 16 then i else if i < 32 then (5 * i + 1) % 16 else if i < 48 then (3 * i + 5) % 16 else (7 * i) % 16
  }

  /** The rotation of step `i`. */
  function S(i: nat): (s: bv6)
    ensures s < 32
  {
    var j := i % 4;
    if i < 16 then (if j == 0 then 7 else if j == 1 then 12 else if j == 2 then 17 else 22)
    else if i < 32 then (if j == 0 then 5 else if j == 1 then 9 else if j == 2 then 14 else 20)
    else if i < 48 then (if j == 0 then 4 else if j == 1 then 11 else if j == 2 then 16 else 23)
    else (if j == 0 then 6 else if j == 1 then 10 else if j == 2 then 15 else 21)
  }

  /** The entry of a row of four. */
  function Pick(i: nat, p: Word, q: Word, r: Word, s: Word): Word {
    var j := i % 4;
    if j == 0 then p else if j == 1 then q else if j == 2 then r else s
  }

  /** The table: 4294967296 times abs(sin(i + 1)), without its fraction. */
  function T(i: nat): Word { if i < 16 then T1(i) else if i < 32 then T2(i) else if i < 48 then T3(i) else T4(i) }

  function T1(i: nat): Word {
    if i < 4 then Pick(i, 0xd76aa478, 0xe8c7b756, 0x242070db, 0xc1bdceee)
    else if i < 8 then Pick(i, 0xf57c0faf, 0x4787c62a, 0xa8304613, 0xfd469501)
    else if i < 12 then Pick(i, 0x698098d8, 0x8b44f7af, 0xffff5bb1, 0x895cd7be)
    else Pick(i, 0x6b901122, 0xfd987193, 0xa679438e, 0x49b40821)
  }

  function T2(i: nat): Word {
    if i < 20 then Pick(i, 0xf61e2562, 0xc040b340, 0x265e5a51, 0xe9b6c7aa)
    else if i < 24 then Pick(i, 0xd62f105d, 0x02441453, 0xd8a1e681, 0xe7d3fbc8)
    else if i < 28 then Pick(i, 0x21e1cde6, 0xc33707d6, 0xf4d50d87, 0x455a14ed)
    else Pick(i, 0xa9e3e905, 0xfcefa3f8, 0x676f02d9, 0x8d2a4c8a)
  }

  function T3(i: nat): Word {
    if i < 36 then Pick(i, 0xfffa3942, 0x8771f681, 0x6d9d6122, 0xfde5380c)
    else if i < 40 then Pick(i, 0xa4beea44, 0x4bdecfa9, 0xf6bb4b60, 0xbebfbc70)
    else if i < 44 then Pick(i, 0x289b7ec6, 0xeaa127fa, 0xd4ef3085, 0x04881d05)
    else Pick(i, 0xd9d4d039, 0xe6db99e5, 0x1fa27cf8, 0xc4ac5665)
  }

  function T4(i: nat): Word {
    if i < 52 then Pick(i, 0xf4292244, 0x432aff97, 0xab9423a7, 0xfc93a039)
    else if i < 56 then Pick(i, 0x655b59c3, 0x8f0ccc92, 0xffeff47d, 0x85845dd1)
    else if i < 60 then Pick(i, 0x6fa87e4f, 0xfe2ce6e0, 0xa3014314, 0x4e0811a1)
    else Pick(i, 0xf7537e82, 0xbd3af235, 0x2ad7d2bb, 0xeb86d391)
  }

  function Rotate(w: Word, s: bv6): Word
    requires s < 32
  {
    (w << s) | (w >> (32 - s))
  }

  function Plus(a: Word, b: Word): Word { a + b }

  function Sum(a: Word, aux: Word, x: Word, t: Word): Word { Plus(a, Plus(aux, Plus(x, t))) }

  /** a = b + ((a + aux + X[k] + T[i]) <<< s). */
  function Mix(a: Word, b: Word, aux: Word, x: Word, t: Word, s: bv6): Word
    requires s < 32
  {
    Plus(b, Rotate(Sum(a, aux, x, t), s))
  }

  /** Step `i`; afterwards the registers change places. */
  function Step(x: seq<Word>, i: nat, r: Regs): Regs
    requires |x| == 16 && i < 64
  {
    Regs(r.d, Mix(r.a, r.b, Aux(i, r.b, r.c, r.d), x[K(i)], T(i), S(i)), r.b, r.c)
  }

  /** The first `n` steps. */
  function Steps(x: seq<Word>, n: nat, r: Regs): Regs
    requires |x| == 16 && n <= 64
  {
    if n == 0 then r else Step(x, n - 1, Steps(x, n - 1, r))
  }

  function Add(r: Regs, q: Regs): Regs { Regs(Plus(r.a, q.a), Plus(r.b, q.b), Plus(r.c, q.c), Plus(r.d, q.d)) }

  function Block(r: Regs, x: seq<Word>): Regs
    requires |x| == 16
  {
    Add(r, Steps(x, 64, r))
  }

  /** All blocks of 16 words. */
  function Blocks(r: Regs, ws: seq<Word>): Regs
    decreases |ws|
  {
    if |ws| < 16 then r else Blocks(Block(r, ws[..16]), ws[16..])
  }

  // ----- section 3.5 -----

  /** A word, low-order byte first. */
  function Octets(w: Word): seq<Octet> {
    [(w & 0xff) as bv8, ((w >> 8) & 0xff) as bv8, ((w >> 16) & 0xff) as bv8, ((w >> 24) & 0xff) as bv8]
  }

  function Output(r: Regs): seq<Octet> { Octets(r.a) + Octets(r.b) + Octets(r.c) + Octets(r.d) }

  function Digest(m: seq<Octet>): seq<Octet> { Output(Blocks(INIT, Padded(m))) }
}
