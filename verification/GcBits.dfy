/** The color bits of lgc.h: how a byte `marked` and the byte `currentwhite` represent the
    colors of module GcState. */
module GcBits {
  import opened GcState

  const WHITE0: bv8 := 1
  const WHITE1: bv8 := 2
  const BLACK: bv8 := 4
  const FIXED: bv8 := 32
  const OLD: bv8 := 64
  const WHITEBITS: bv8 := 3
  /** All bits but the colors and the old bit. */
  const MASKCOLORS: bv8 := 184

  // ----- the macros -----

  predicate IsWhiteByte(m: bv8) { m & WHITEBITS != 0 }
  predicate IsBlackByte(m: bv8) { m & BLACK != 0 }
  predicate IsGrayByte(m: bv8) { m & (WHITEBITS | BLACK) == 0 }
  function OtherWhite(current: bv8): bv8 { current ^ WHITEBITS }
  predicate IsDeadM(ow: bv8, m: bv8) { (m ^ WHITEBITS) & ow == 0 }
  function ChangeWhite(m: bv8): bv8 { m ^ WHITEBITS }
  function GrayToBlack(m: bv8): bv8 { m | BLACK }
  function WhiteToGray(m: bv8): bv8 { m & !WHITEBITS }
  function BlackToGray(m: bv8): bv8 { m & !BLACK }
  function CurrentWhite(current: bv8): bv8 { current & WHITEBITS }
  function MakeWhite(current: bv8, m: bv8): bv8 { (m & MASKCOLORS) | CurrentWhite(current) }

  // ----- what the bytes stand for -----

  function WhiteBit(w: bool): bv8 { if w then WHITE1 else WHITE0 }

  function ColorByte(c: Color): bv8 {
    match c
    case White(w) => WhiteBit(w)
    case Gray => 0
    case Black => BLACK
  }

  /** The byte of an object of the given color. */
  predicate Shows(m: bv8, c: Color, fixed: bool) {
    m & (WHITEBITS | BLACK) == ColorByte(c) && (m & FIXED != 0 <==> fixed)
  }

  /** `currentwhite` also has the fixed bit, which keeps fixed objects from looking dead. */
  predicate ShowsWhite(current: bv8, w: bool) { current == WhiteBit(w) | FIXED }

  /** The colors exclude each other, and the tests find them. */
  lemma ColorTests(m: bv8, c: Color, fixed: bool)
    requires Shows(m, c, fixed)
    ensures IsWhiteByte(m) <==> c.White?
    ensures IsBlackByte(m) <==> c.Black?
    ensures IsGrayByte(m) <==> c.Gray?
  {
  }

  /** One expression tells whether an object has the other white and is not fixed. */
  lemma DeadTest(current: bv8, w: bool, m: bv8, c: Color, fixed: bool)
    requires ShowsWhite(current, w) && Shows(m, c, fixed)
    ensures IsDeadM(OtherWhite(current), m) <==> c == White(!w) && !fixed
  {
  }

  /** The flip at the end of the atomic phase. */
  lemma Flip(current: bv8, w: bool)
    requires ShowsWhite(current, w)
    ensures ShowsWhite(OtherWhite(current), !w)
  {
  }

  /** What the color changes do to the represented color; they keep the fixed bit. */
  lemma ColorChanges(current: bv8, w: bool, m: bv8, c: Color, fixed: bool)
    requires ShowsWhite(current, w) && Shows(m, c, fixed)
    ensures Shows(MakeWhite(current, m), White(w), fixed) && MakeWhite(current, m) & OLD == 0
    ensures c.White? ==> Shows(WhiteToGray(m), Gray, fixed) && Shows(ChangeWhite(m), White(!c.bit), fixed)
    ensures c.Gray? ==> Shows(GrayToBlack(m), Black, fixed)
    ensures c.Black? ==> Shows(BlackToGray(m), Gray, fixed)
  {
  }

  /** The bytes of a state represent its colors, so the sweeper's test on the bytes is the test
      of the model. */
  lemma DeadBytes(g: G, bytes: map<Id, bv8>, current: bv8, i: Id)
    requires ShowsWhite(current, g.white) && i in g.h.objs && i in g.mark && i in bytes
    requires Shows(bytes[i], g.mark[i], g.h.objs[i].fixed)
    ensures IsDeadM(OtherWhite(current), bytes[i]) <==> Dead(g, i)
  {
    DeadTest(current, g.white, bytes[i], g.mark[i], g.h.objs[i].fixed);
  }
}
