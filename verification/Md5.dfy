/** MD5 over a message that arrives in pieces: md5.cpp. */
module Md5 {
  import opened Md5Spec
  import opened Md5Block

  // ----- words and blocks -----

  lemma WordsAppend(a: seq<Octet>, b: seq<Octet>)
    requires |a| % 4 == 0
    ensures Words(a + b) == Words(a) + Words(b)
  {
    hide LeWord;
    var n := |a| / 4;
    forall i | 0 <= i < |a + b| / 4
      ensures Words(a + b)[i] == (Words(a) + Words(b))[i]
    {
      if i >= n {
        var j := i - n;
        assert 4 * i == |a| + 4 * j;
      }
    }
  }

  lemma {:induction false} BlocksAppend(r: Regs, a: seq<Word>, b: seq<Word>)
    requires |a| % 16 == 0
    ensures Blocks(r, a + b) == Blocks(Blocks(r, a), b)
    decreases |a|
  {
    hide Block;
    if |a| < 16 {
      assert a + b == b;
    } else {
      assert (a + b)[..16] == a[..16] && (a + b)[16..] == a[16..] + b;
      BlocksAppend(Block(r, a[..16]), a[16..], b);
    }
  }

  lemma OneBlock(r: Regs, x: seq<Word>)
    requires |x| == 16
    ensures Blocks(r, x) == Block(r, x)
  {
    hide Block;
    assert x[..16] == x && x[16..] == [];
    assert Blocks(r, x) == Blocks(Block(r, x), []);
  }

  /** The registers after the full blocks of some bytes. */
  function After(p: seq<Octet>): Regs { Blocks(INIT, Words(p)) }

  lemma AfterBlock(p: seq<Octet>, b: seq<Octet>)
    requires |p| % 64 == 0 && |b| == 64
    ensures After(p + b) == Block(After(p), Words(b))
  {
    hide Block, Blocks;
    WordsAppend(p, b);
    BlocksAppend(INIT, Words(p), Words(b));
    OneBlock(After(p), Words(b));
  }

  /** The bytes of the full blocks, and the bytes behind them. */
  function Full(m: seq<Octet>): seq<Octet> { m[..|m| / 64 * 64] }

  function Tail(m: seq<Octet>): seq<Octet> { m[|m| / 64 * 64..] }

  lemma Split(m: seq<Octet>)
    ensures m == Full(m) + Tail(m) && |Full(m)| % 64 == 0 && |Tail(m)| == |m| % 64
  {
  }

  lemma FullTail(p: seq<Octet>, t: seq<Octet>)
    requires |p| % 64 == 0 && |t| < 64
    ensures Full(p + t) == p && Tail(p + t) == t && |p + t| % 64 == |t|
  {
    assert |p + t| / 64 * 64 == |p|;
  }

  // ----- bytes to words -----

  lemma SwapRaw(p: Word, q: Word, r: Word, s: Word)
    requires p < 256 && q < 256 && r < 256 && s < 256
    ensures (((s << 8) | r) << 16) | ((q << 8) | p) == p | (q << 8) | (r << 16) | (s << 24)
  {
  }

  /** `byteSwap` on four bytes of the buffer. */
  function SwapWord(p: Octet, q: Octet, r: Octet, s: Octet): Word {
    ((((s as bv32) << 8) | (r as bv32)) << 16) | (((q as bv32) << 8) | (p as bv32))
  }

  lemma SwapSame(p: Octet, q: Octet, r: Octet, s: Octet)
    ensures SwapWord(p, q, r, s) == LeWord(p, q, r, s)
  {
    SwapRaw(p as bv32, q as bv32, r as bv32, s as bv32);
  }

  /** `byteSwap`. */
  method ByteSwap(bs: seq<Octet>) returns (ws: seq<Word>)
    ensures ws == Words(bs)
  {
    hide LeWord, SwapWord;
    ws := [];
    var i := 0;
    while 4 * i + 4 <= |bs|
      invariant 0 <= 4 * i <= |bs| && |ws| == i
      invariant forall j :: 0 <= j < i ==> ws[j] == LeWord(bs[4 * j], bs[4 * j + 1], bs[4 * j + 2], bs[4 * j + 3])
      decreases |bs| - 4 * i
    {
      SwapSame(bs[4 * i], bs[4 * i + 1], bs[4 * i + 2], bs[4 * i + 3]);
      ws := ws + [SwapWord(bs[4 * i], bs[4 * i + 1], bs[4 * i + 2], bs[4 * i + 3])];
      i := i + 1;
    }
  }

  // ----- the count -----

  /** The low and the high word of the count of bytes. */
  lemma Carry(n: nat, len: nat)
    requires len < MOD32
    ensures var t := n % MOD32;
      && (n + len) % MOD32 == (t + len) % MOD32
      && (n + len) / MOD32 % MOD32 == (if (t + len) % MOD32 < t then (n / MOD32 % MOD32 + 1) % MOD32 else n / MOD32 % MOD32)
  {
    var q, t := n / MOD32, n % MOD32;
    assert n == q * MOD32 + t;
    if t + len < MOD32 {
      assert (n + len) / MOD32 == q;
    } else {
      assert n + len == (q + 1) * MOD32 + (t + len - MOD32);
      assert (n + len) / MOD32 == q + 1;
    }
  }

  /** The length in bits, from the two words of the count. */
  lemma BitCount(n: nat)
    ensures var b0, b1 := n % MOD32, n / MOD32 % MOD32;
      && 8 * b0 % MOD32 == 8 * n % MOD32
      && 8 * b1 % MOD32 + b0 / 0x2000_0000 == 8 * n / MOD32 % MOD32
  {
    var q, b0 := n / MOD32, n % MOD32;
    LowBits(q, b0);
    HighBits(q, b0 / 0x2000_0000);
  }

  lemma LowBits(q: nat, b0: nat)
    requires b0 < MOD32
    ensures var n := q * MOD32 + b0; 8 * b0 % MOD32 == 8 * n % MOD32 && 8 * n / MOD32 == 8 * q + b0 / 0x2000_0000 && b0 / 0x2000_0000 < 8
  {
    var n := q * MOD32 + b0;
    assert 8 * n == (8 * q) * MOD32 + 8 * b0;
  }

  lemma HighBits(q: nat, c: nat)
    requires c < 8
    ensures 8 * (q % MOD32) % MOD32 + c == (8 * q + c) % MOD32
  {
    var p, b1 := q / MOD32, q % MOD32;
    assert 8 * q == (8 * p) * MOD32 + 8 * b1;
    var d, k := 8 * b1 % MOD32, 8 * b1 / MOD32;
    assert 8 * b1 == k * MOD32 + d;
    assert d == 8 * (b1 - k * 0x2000_0000);
    Remainder(8 * p + k, d + c, 8 * q + c);
  }

  lemma Remainder(k: nat, d: nat, n: nat)
    requires d < MOD32 && n == k * MOD32 + d
    ensures n % MOD32 == d
  {
  }

  // ----- the context -----

  class Context {
    var buf: Regs
    var bytes0: nat
    var bytes1: nat
    const inp: array<Octet>
    /** The bytes so far. */
    ghost var message: seq<Octet>

    ghost predicate Valid()
      reads this, inp
    {
      && inp.Length == 64
      && bytes0 == |message| % MOD32 && bytes1 == |message| / MOD32 % MOD32
      && buf == After(Full(message)) && inp[..|message| % 64] == Tail(message)
    }

    /** `MD5Init`. */
    constructor ()
      ensures Valid() && message == [] && fresh(inp)
    {
      buf, bytes0, bytes1 := Regs(0x67452301, 0xefcdab89, 0x98badcfe, 0x10325476), 0, 0;
      inp := new Octet[64];
      message := [];
    }

    /** `memcpy` into the buffer. */
    method CopyIn(at: nat, src: seq<Octet>)
      requires at + |src| <= inp.Length
      modifies inp
      ensures inp[..] == old(inp[..at]) + src + old(inp[at + |src|..])
    {
      for i := 0 to |src|
        invariant forall j :: 0 <= j < inp.Length ==> inp[j] == if at <= j < at + i then src[j - at] else old(inp[j])
      {
        inp[at + i] := src[i];
      }
    }

    /** The buffer is full: transform it. */
    method TransformBuffer()
      requires inp.Length == 64
      modifies `buf
      ensures buf == Block(old(buf), Words(inp[..]))
    {
      var ws := ByteSwap(inp[..]);
      buf := Transform(buf, ws);
    }

    /** `MD5Update`: the count, with the carry from its low to its high word. */
    method Count(len: nat)
      requires len < MOD32 && bytes0 == |message| % MOD32 && bytes1 == |message| / MOD32 % MOD32
      modifies `bytes0, `bytes1
      ensures bytes0 == (|message| + len) % MOD32 && bytes1 == (|message| + len) / MOD32 % MOD32
    {
      Carry(|message|, len);
      var t := bytes0;
      bytes0 := (t + len) % MOD32;
      if bytes0 < t {
        bytes1 := (bytes1 + 1) % MOD32;
      }
    }

    /** The bytes fit into the buffer. */
    method Keep(at: nat, data: seq<Octet>, ghost p: seq<Octet>, ghost head: seq<Octet>)
      requires inp.Length == 64 && at == |head| && at + |data| < 64 && inp[..at] == head && |p| % 64 == 0
      modifies inp
      ensures inp[..at + |data|] == Tail(p + (head + data)) && Full(p + (head + data)) == p
      ensures |p + (head + data)| % 64 == at + |data|
    {
      CopyIn(at, data);
      assert inp[..at + |data|] == head + data;
      FullTail(p, head + data);
    }

    /** The bytes fill the buffer. */
    method Fill(at: nat, data: seq<Octet>, ghost p: seq<Octet>, ghost head: seq<Octet>)
      requires inp.Length == 64 && at == |head| && at + |data| == 64 && inp[..at] == head && |p| % 64 == 0 && buf == After(p)
      modifies inp, `buf
      ensures buf == After(p + (head + data))
    {
      hide Words, Blocks, Block;
      CopyIn(at, data);
      assert inp[..] == head + data;
      AfterBlock(p, head + data);
      TransformBuffer();
    }

    /** Whole blocks from position `first` on. */
    method FillBlocks(data: seq<Octet>, first: nat, ghost m: seq<Octet>) returns (i: nat)
      requires inp.Length == 64 && first <= |data| && (|m| + first) % 64 == 0 && buf == After(m + data[..first])
      modifies inp, `buf
      ensures first <= i <= |data| && |data| - i < 64 && (|m| + i) % 64 == 0 && buf == After(m + data[..i])
    {
      hide After;
      i := first;
      while |data| - i >= 64
        invariant first <= i <= |data| && (|m| + i) % 64 == 0 && buf == After(m + data[..i])
      {
        assert inp[..0] == [];
        Fill(0, data[i..i + 64], m + data[..i], []);
        NextPiece(m, data, i);
        i := i + 64;
      }
    }

    /** `MD5Update`. */
    method Update(data: seq<Octet>)
      requires Valid() && |data| < MOD32
      modifies this, inp
      ensures Valid() && message == old(message) + data
    {
      hide After, Full, Tail;
      ghost var m := message;
      Split(m);
      var t := bytes0 % 64;
      assert t == |m| % 64 by { ModMod(|m|); }
      Count(|data|);
      message := m + data;
      ghost var p, head := Full(m), Tail(m);
      var space := 64 - t;
      if space > |data| {
        Keep(t, data, p, head);
        assert message == p + (head + data);
        return;
      }
      Fill(t, data[..space], p, head);
      assert p + (head + data[..space]) == m + data[..space];
      SpaceFills(|m|);
      var i := FillBlocks(data, space, m);
      assert inp[..0] == [];
      Keep(0, data[i..], m + data[..i], []);
      assert message == m + data[..i] + ([] + data[i..]);
    }

    /** `MD5Final`: pad, append the length in bits, and give out the registers. */
    method Final() returns (digest: seq<Octet>)
      requires Valid()
      modifies this, inp
      ensures digest == Digest(message) && message == old(message)
    {
      hide After, Words, Blocks, Block, Low32, Output, BitLength, Digest, Full, Tail;
      ghost var p, head := Full(message), Tail(message);
      Split(message);
      var count := bytes0 % 64;
      assert count == |message| % 64 == |head| by { ModMod(|message|); }
      CopyIn(count, [0x80]);
      assert inp[..count + 1] == head + [0x80];
      var pad := 56 - 1 - count;
      if pad < 0 {
        ZeroPad(count + 1, 63 - count);
        assert inp[..] == head + [0x80] + Zero(63 - count);
        AfterBlock(p, inp[..]);
        TransformBuffer();
        ZeroPad(0, 56);
        assert inp[..56] == Zero(56);
      } else {
        ZeroPad(count + 1, pad);
        assert inp[..56] == head + [0x80] + Zero(pad);
      }
      var ws := ByteSwap(inp[..56]);
      var w14, w15 := Low32(bytes0 * 8), Low32(bytes1 * 8 % MOD32 + bytes0 / 0x2000_0000);
      PaddedBlocks(message, p, head, inp[..56], ws + [w14, w15], buf) by { LengthWords(|message|, bytes0, bytes1); }
      buf := Transform(buf, ws + [w14, w15]);
      digest := Output(buf);
      DigestIs(message);
    }

    /** `memset`. */
    method ZeroPad(at: nat, n: nat)
      requires at + n <= inp.Length
      modifies inp
      ensures inp[..] == old(inp[..at]) + Zero(n) + old(inp[at + n..])
    {
      CopyIn(at, Zero(n));
    }
  }

  lemma SpaceFills(n: nat)
    ensures (n + (64 - n % 64)) % 64 == 0
  {
  }

  lemma NextPiece(m: seq<Octet>, data: seq<Octet>, i: nat)
    requires i + 64 <= |data|
    ensures m + data[..i] + ([] + data[i..i + 64]) == m + data[..i + 64]
  {
    assert data[..i + 64] == data[..i] + data[i..i + 64];
  }

  lemma DigestIs(m: seq<Octet>)
    ensures Digest(m) == Output(Blocks(INIT, Padded(m)))
  {
  }

  lemma ModMod(n: nat)
    ensures n % MOD32 % 64 == n % 64
  {
    var q, b := n / MOD32, n % MOD32;
    assert n == 64 * (q * 0x400_0000) + b;
  }

  /** The two words of the length, as the program computes them. */
  lemma LengthWords(n: nat, b0: nat, b1: nat)
    requires b0 == n % MOD32 && b1 == n / MOD32 % MOD32
    ensures [Low32(b0 * 8), Low32(b1 * 8 % MOD32 + b0 / 0x2000_0000)] == BitLength(n)
  {
    hide Low32;
    BitCount(n);
    SameLow(b0 * 8, 8 * n);
    var k := 8 * n / MOD32;
    SameLow(k % MOD32, k) by { Twice(k); }
  }

  lemma SameLow(a: nat, b: nat)
    requires a % MOD32 == b % MOD32
    ensures Low32(a) == Low32(b)
  {
  }

  lemma Twice(k: nat)
    ensures k % MOD32 % MOD32 == k % MOD32
  {
  }

  /** The last one or two blocks are those of the padded message. */
  lemma PaddedBlocks(m: seq<Octet>, p: seq<Octet>, head: seq<Octet>, last: seq<Octet>, x: seq<Word>, r: Regs)
    requires p == Full(m) && head == Tail(m) && |head| < 64 && |last| == 56
    requires x == Words(last) + BitLength(|m|)
    requires if |head| > 55 then last == Zero(56) && r == After(p + (head + [0x80] + Zero(63 - |head|)))
             else last == head + [0x80] + Zero(55 - |head|) && r == After(p)
    ensures Blocks(INIT, Padded(m)) == Block(r, x)
  {
    hide Block, Blocks, Words, BitLength, Full, Tail, Zeros;
    var q := if |head| > 55 then p + (head + [0x80] + Zero(63 - |head|)) else p;
    Split(m);
    PadBytes(m, p, head, q, last);
    WordsAppend(q, last);
    var len := BitLength(|m|);
    assert Padded(m) == Words(q) + x by { assert Words(q) + Words(last) + len == Words(q) + (Words(last) + len); }
    BlocksAppend(INIT, Words(q), x);
    OneBlock(r, x);
  }

  lemma PadBytes(m: seq<Octet>, p: seq<Octet>, head: seq<Octet>, q: seq<Octet>, last: seq<Octet>)
    requires p == Full(m) && head == Tail(m) && m == p + head && |head| < 64
    requires if |head| > 55 then q == p + (head + [0x80] + Zero(63 - |head|)) && last == Zero(56) else q == p && last == head + [0x80] + Zero(55 - |head|)
    ensures m + [0x80] + Zero(Zeros(|m|)) == q + last && |q| % 64 == 0
  {
    assert |head| == |m| % 64;
    if |head| > 55 {
      assert Zero(Zeros(|m|)) == Zero(63 - |head|) + Zero(56);
    }
  }

  /** The digest of a message that was taken in in any pieces, and so of the pieces in one. */
  method HashPieces(pieces: seq<seq<Octet>>) returns (digest: seq<Octet>)
    requires forall i :: 0 <= i < |pieces| ==> |pieces[i]| < MOD32
    ensures digest == Digest(Joined(pieces))
  {
    hide Digest;
    var ctx := new Context();
    for i := 0 to |pieces|
      invariant ctx.Valid() && fresh(ctx) && fresh(ctx.inp) && ctx.message == Joined(pieces[..i])
    {
      ctx.Update(pieces[i]);
      JoinedMore(pieces, i);
    }
    assert pieces[..|pieces|] == pieces;
    digest := ctx.Final();
  }

  function Joined(pieces: seq<seq<Octet>>): seq<Octet> {
    if pieces == [] then [] else Joined(pieces[..|pieces| - 1]) + pieces[|pieces| - 1]
  }

  lemma JoinedMore(pieces: seq<seq<Octet>>, i: nat)
    requires i < |pieces|
    ensures Joined(pieces[..i + 1]) == Joined(pieces[..i]) + pieces[i]
  {
    assert pieces[..i + 1][..i] == pieces[..i];
  }

  // ----- any byte order -----

  datatype Host = LittleEndian | BigEndian

  /** A word in the memory of a host. */
  function Memory(h: Host, w: Word): (m: seq<Octet>)
    ensures |m| == 4
  {
    var o := Octets(w);
    if h.LittleEndian? then o else [o[3], o[2], o[1], o[0]]
  }

  /** The four bytes of a word, put together again. */
  lemma JoinRaw(w: Word, p: Octet, q: Octet, r: Octet, s: Octet)
    requires p == (w & 0xff) as bv8 && q == ((w >> 8) & 0xff) as bv8 && r == ((w >> 16) & 0xff) as bv8 && s == ((w >> 24) & 0xff) as bv8
    ensures ((((s as bv32) << 8) | (r as bv32)) << 16) | (((q as bv32) << 8) | (p as bv32)) == w
  {
  }

  lemma JoinOctets(w: Word)
    ensures var o := Octets(w); SwapWord(o[0], o[1], o[2], o[3]) == w
  {
    var o := Octets(w);
    JoinRaw(w, o[0], o[1], o[2], o[3]);
  }

  /** A word is determined by its bytes, in whichever order they are joined. */
  lemma SplitRaw(p: Octet, q: Octet, r: Octet, s: Octet, w: Word)
    requires w == ((((s as bv32) << 8) | (r as bv32)) << 16) | (((q as bv32) << 8) | (p as bv32))
    ensures (w & 0xff) as bv8 == p && ((w >> 8) & 0xff) as bv8 == q && ((w >> 16) & 0xff) as bv8 == r && ((w >> 24) & 0xff) as bv8 == s
  {
  }

  lemma SplitOctets(p: Octet, q: Octet, r: Octet, s: Octet)
    ensures Octets(SwapWord(p, q, r, s)) == [p, q, r, s]
  {
    SplitRaw(p, q, r, s, SwapWord(p, q, r, s));
  }

  /** The registers are given out low-order byte first on hosts of either byte order:
      `byteSwap` reads the bytes of a register in memory, and the result is copied from
      memory. */
  lemma OutputAnyHost(h: Host, w: Word)
    ensures var o := Memory(h, w); Memory(h, SwapWord(o[0], o[1], o[2], o[3])) == Octets(w)
  {
    hide Octets, SwapWord;
    var o := Octets(w);
    FourOctets(w);
    if h.LittleEndian? {
      JoinOctets(w);
    } else {
      SplitOctets(o[3], o[2], o[1], o[0]);
    }
  }

  lemma FourOctets(w: Word)
    ensures |Octets(w)| == 4
  {
  }
}
