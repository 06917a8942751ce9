/** The "floating point byte" of lobject.c: small sizes in eight bits. */
module FbByte {

  const UINT_MOD := 0x1_0000_0000
  const INT_MAX := 0x7fff_ffff
  /** The largest value that a byte stands for and an int can hold. */
  const LIMIT := 0x7800_0000

  type UInt = x: int | 0 <= x < UINT_MOD witness 0

  function Pow2(n: nat): (r: nat)
    ensures r >= 1
  {
    if n == 0 then 1 else 2 * Pow2(n - 1)
  }

  /** One halving, rounded up; the addition wraps around. */
  function Halve(x: UInt): UInt { (x + 1) % UINT_MOD / 2 }

  /** The loop of luaO_int2fb: what is left of `x`, and how often it was halved. */
  function Squeeze(x: UInt, e: nat): (UInt, nat)
    decreases x
  {
    if x < 16 then (x, e) else Squeeze(Halve(x), e + 1)
  }

  /** `((e+1) << 3) | (x - 8)`; with a negative right side all higher bits are set. */
  function Pack(x: UInt, e: nat): int { if x >= 8 then (e + 1) * 8 + (x - 8) else x - 8 }

  /** `luaO_int2fb`. */
  function Int2Fb(x: UInt): int {
    if x < 8 then x else var (y, e) := Squeeze(x, 0); Pack(y, e)
  }

  /** `luaO_fb2int`. */
  function Fb2Int(b: int): int {
    var e := (b / 8) % 32;
    if e == 0 then b else (b % 8 + 8) * Pow2(e - 1)
  }

  method IntToFb(n: UInt) returns (r: int)
    ensures r == Int2Fb(n)
  {
    if n < 8 {
      return n;
    }
    var x, e := n, 0;
    while x >= 16
      invariant Squeeze(x, e) == Squeeze(n, 0)
      decreases x
    {
      x := Halve(x);
      e := e + 1;
    }
    r := Pack(x, e);
  }

  // ----- the least representable value -----

  /** An int that some byte stands for. */
  ghost predicate Representable(v: int) { 0 <= v <= INT_MAX && exists b :: 0 <= b < 256 && Fb2Int(b) == v }

  ghost predicate IsLeast(x: int, v: int) {
    && Representable(v) && v >= x
    && forall w :: Representable(w) && w >= x ==> v <= w
  }

  /** `q` is `x` divided by `d`, rounded up. */
  predicate IsCeil(x: int, d: nat, q: int) { q * d >= x && (q - 1) * d < x }

  lemma CeilHalf(x: int, d: nat, q: int)
    requires IsCeil(x, d, q) && q >= 1
    ensures IsCeil(x, 2 * d, (q + 1) / 2)
  {
    var h := (q + 1) / 2;
    if q % 2 == 0 {
      assert q == 2 * h;
      assert h * (2 * d) == q * d;
      assert (h - 1) * (2 * d) == (q - 1) * d - d;
    } else {
      assert q + 1 == 2 * h;
      assert h * (2 * d) == q * d + d;
      assert (h - 1) * (2 * d) == (q - 1) * d;
    }
  }

  lemma MulLe(a: int, b: int, d: nat)
    requires a <= b
    ensures a * d <= b * d
  {
  }

  lemma CeilAbove(x: int, d: nat, q: int, m: int)
    requires IsCeil(x, d, q) && q >= m
    ensures x > (m - 1) * d
  {
    MulLe(m - 1, q - 1, d);
  }

  /** Repeated rounding halvings are one division that rounds up, and they stop as soon as
      the quotient fits in four bits. */
  lemma {:induction false} SqueezeCeil(n: nat, x: UInt, e: nat)
    requires 8 <= x < UINT_MOD - 1 && IsCeil(n, Pow2(e), x) && (e == 0 ==> n < 16 || x >= 16) && (e > 0 ==> n > 15 * Pow2(e - 1))
    requires e == 0 ==> x == n
    ensures var (y, f) := Squeeze(x, e);
      8 <= y < 16 && IsCeil(n, Pow2(f), y) && (f > 0 ==> n > 15 * Pow2(f - 1)) && e <= f
    decreases x
  {
    hide IsCeil, Pow2, Halve;
    HalveRounds(x);
    if x >= 16 {
      Pow2Next(e);
      CeilHalf(n, Pow2(e), x);
      CeilAbove(n, Pow2(e), x, 16);
      SqueezeCeil(n, Halve(x), e + 1);
    }
  }

  lemma HalveRounds(x: UInt)
    requires 8 <= x < UINT_MOD - 1
    ensures Halve(x) == (x + 1) / 2 && (x >= 16 ==> 8 <= Halve(x) < x)
  {
  }

  lemma Pow2Next(e: nat)
    ensures Pow2(e + 1) == 2 * Pow2(e)
  {
  }

  lemma {:induction false} Pow2Mono(m: nat, n: nat)
    requires m <= n
    ensures Pow2(m) <= Pow2(n)
    ensures exists k: nat :: Pow2(n) == Pow2(m) * k
    decreases n
  {
    if m == n {
      assert Pow2(n) == Pow2(m) * 1;
    } else {
      Pow2Mono(m, n - 1);
      var k: nat :| Pow2(n - 1) == Pow2(m) * k;
      assert Pow2(n) == Pow2(m) * (2 * k);
    }
  }

  /** What a byte stands for. */
  lemma ByteValue(b: int)
    requires 0 <= b < 256
    ensures b < 8 ==> Fb2Int(b) == b
    ensures b >= 8 ==> Fb2Int(b) == (b % 8 + 8) * Pow2(b / 8 - 1)
  {
    hide Pow2;
    assert b / 8 % 32 == b / 8;
  }

  /** A value of a byte that is not below `x` is not below the rounded-up multiple either. */
  lemma NotBelow(x: nat, b: int, y: int, e: nat)
    requires 0 <= b < 256 && 8 <= y < 16 && IsCeil(x, Pow2(e), y) && (e > 0 ==> x > 15 * Pow2(e - 1)) && x >= 8 && Fb2Int(b) >= x
    ensures Fb2Int(b) >= y * Pow2(e)
  {
    ByteValue(b);
    var m, k := b % 8 + 8, b / 8 - 1;
    if b < 8 {
      assert false;
    } else if k < e {
      Pow2Mono(k, e - 1);
      MulMono(m, 15, Pow2(k), Pow2(e - 1));
    } else {
      Pow2Mono(e, k);
      var j: nat :| Pow2(k) == Pow2(e) * j;
      Regroup(m, Pow2(e), j);
      Multiple(x, Pow2(e), y, m * j);
    }
  }

  lemma Regroup(m: int, d: int, j: int)
    ensures m * (d * j) == (m * j) * d
  {
  }

  lemma MulMono(a: nat, b: nat, c: nat, d: nat)
    requires a <= b && c <= d
    ensures a * c <= b * d
  {
    assert a * c <= b * c && b * c <= b * d;
  }

  /** A multiple of `d` that is not below `x` is at least the rounded-up one. */
  lemma Multiple(x: nat, d: nat, q: int, n: int)
    requires IsCeil(x, d, q) && n * d >= x && d >= 1
    ensures n * d >= q * d
  {
    if n < q {
      MulLe(n, q - 1, d);
    } else {
      MulLe(q, n, d);
    }
  }

  lemma Pow27()
    ensures Pow2(27) == 0x800_0000 && Pow2(28) == 0x1000_0000
  {
    assert Pow2(4) == 16;
    assert Pow2(9) == 512;
    assert Pow2(14) == 0x4000;
    assert Pow2(19) == 0x8_0000;
    assert Pow2(24) == 0x100_0000;
  }

  /** No byte stands for an int above the limit. */
  lemma AboveLimit(b: int)
    requires 0 <= b < 256 && Fb2Int(b) <= INT_MAX
    ensures Fb2Int(b) <= LIMIT
  {
    ByteValue(b);
    Pow27();
    if b >= 8 {
      var m, k := b % 8 + 8, b / 8 - 1;
      if k <= 27 {
        Pow2Mono(k, 27);
        MulMono(m, 15, Pow2(k), Pow2(27));
      } else {
        Pow2Mono(28, k);
        MulMono(8, m, Pow2(28), Pow2(k));
      }
    }
  }

  lemma Packed(y: UInt, e: nat)
    requires 8 <= y < 16 && e < 31
    ensures Fb2Int(Pack(y, e)) == y * Pow2(e) && 0 <= Pack(y, e) < 256
  {
    hide Pow2;
    var b := Pack(y, e);
    assert b == 8 * (e + 1) + (y - 8);
    Digits(b, e + 1, y - 8);
    ByteValue(b);
  }

  lemma Digits(b: int, q: int, r: int)
    requires b == 8 * q + r && 0 <= r < 8
    ensures b / 8 == q && b % 8 == r
  {
  }

  lemma SmallExponent(x: nat, y: int, e: nat)
    requires x <= LIMIT && 8 <= y < 16 && (e > 0 ==> x > 15 * Pow2(e - 1))
    ensures e <= 27 && y * Pow2(e) <= LIMIT
  {
    Pow27();
    if e > 27 {
      Pow2Mono(27, e - 1);
      assert false;
    }
    Pow2Mono(e, 27);
    MulMono(y, 15, Pow2(e), Pow2(27));
  }

  /** For every size up to the limit the byte stands for the least representable value that
      is not below it; above the limit there is no such value. */
  lemma RoundUp(x: UInt)
    ensures IsLeast(x, Fb2Int(Int2Fb(x))) <==> x <= LIMIT
  {
    if x <= LIMIT {
      RoundUpBelow(x);
    } else if IsLeast(x, Fb2Int(Int2Fb(x))) {
      var b :| 0 <= b < 256 && Fb2Int(b) == Fb2Int(Int2Fb(x));
      AboveLimit(b);
    }
  }

  lemma RoundUpBelow(x: UInt)
    requires x <= LIMIT
    ensures IsLeast(x, Fb2Int(Int2Fb(x)))
  {
    if x < 8 {
      ByteValue(x);
      assert Fb2Int(x) == x;
    } else {
      var (y, e) := Squeeze(x, 0);
      assert Pow2(0) == 1;
      SqueezeCeil(x, x, 0);
      SmallExponent(x, y, e);
      Packed(y, e);
      var v := Fb2Int(Int2Fb(x));
      assert v == y * Pow2(e) && v >= x;
      assert Representable(v);
      forall w | Representable(w) && w >= x
        ensures v <= w
      {
        var b :| 0 <= b < 256 && Fb2Int(b) == w;
        NotBelow(x, b, y, e);
      }
    }
  }
}
