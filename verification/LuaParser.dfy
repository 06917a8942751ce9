/** The operator-precedence parser of lparser.c, and a printer that writes parentheses only
    where the priority table requires them. */
module LuaParser {
  import opened Common

  datatype Symbol =
    | Plus | Minus | Star | Slash | Percent | Caret | Concat
    | EqEq | Less | LessEq | NotEq | Greater | GreaterEq | And | Or
    | Not | Hash

  /** `Atom` stands for any simple expression other than one in parentheses, `Other` for any
      token that is not an operator. */
  datatype Token = Atom(n: nat) | Open | Close | Sym(s: Symbol) | Other(k: nat)

  datatype UnOp = OpNot | OpMinus | OpLen

  datatype BinOp =
    | OpAdd | OpSub | OpMul | OpDiv | OpMod | OpPow | OpConcat
    | OpEq | OpLt | OpLe | OpNe | OpGt | OpGe | OpAnd | OpOr

  datatype Tree = Leaf(n: nat) | Un(u: UnOp, e: Tree) | Bin(op: BinOp, l: Tree, r: Tree)

  /** `getunopr`. */
  function GetUn(t: Token): Option<UnOp> {
    match t
    case Sym(Not) => Some(OpNot)
    case Sym(Minus) => Some(OpMinus)
    case Sym(Hash) => Some(OpLen)
    case _ => None
  }

  /** `getbinopr`. */
  function GetBin(t: Token): Option<BinOp> {
    match t
    case Sym(Plus) => Some(OpAdd)
    case Sym(Minus) => Some(OpSub)
    case Sym(Star) => Some(OpMul)
    case Sym(Slash) => Some(OpDiv)
    case Sym(Percent) => Some(OpMod)
    case Sym(Caret) => Some(OpPow)
    case Sym(Concat) => Some(OpConcat)
    case Sym(NotEq) => Some(OpNe)
    case Sym(EqEq) => Some(OpEq)
    case Sym(Less) => Some(OpLt)
    case Sym(LessEq) => Some(OpLe)
    case Sym(Greater) => Some(OpGt)
    case Sym(GreaterEq) => Some(OpGe)
    case Sym(And) => Some(OpAnd)
    case Sym(Or) => Some(OpOr)
    case _ => None
  }

  /** The priority table. */
  function Left(op: BinOp): (p: nat)
    ensures p >= 1
  {
    match op
    case OpAdd => 6 case OpSub => 6
    case OpMul => 7 case OpDiv => 7 case OpMod => 7
    case OpPow => 10 case OpConcat => 5
    case OpEq => 3 case OpLt => 3 case OpLe => 3
    case OpNe => 3 case OpGt => 3 case OpGe => 3
    case OpAnd => 2 case OpOr => 1
  }

  function Right(op: BinOp): nat {
    match op
    case OpPow => 9
    case OpConcat => 4
    case _ => Left(op)
  }

  const UNARY_PRIORITY := 8
  const LUAI_MAXCCALLS := 200

  /** The operator at the head of the tokens. */
  function HeadOp(ts: seq<Token>): Option<BinOp> { if ts == [] then None else GetBin(ts[0]) }

  // ----- the parser -----

  /** A tree and the remaining tokens; `None` is a syntax error or too many levels. */
  type Result = Option<(Tree, seq<Token>)>

  /** `subexpr`, with `levels` levels of nesting left. */
  function Subexpr(ts: seq<Token>, limit: nat, levels: nat): (r: Result)
    ensures r.Some? ==> |r.value.1| < |ts|
    decreases levels, |ts|, 2
  {
    if levels == 0 || ts == [] then None
    else
      var first := if GetUn(ts[0]).Some? then Unary(ts, levels) else Simple(ts, levels);
      match first
      case None => None
      case Some((v, rest)) => Loop(v, rest, limit, levels)
  }

  function Unary(ts: seq<Token>, levels: nat): (r: Result)
    requires levels > 0 && ts != [] && GetUn(ts[0]).Some?
    ensures r.Some? ==> |r.value.1| < |ts|
    decreases levels, |ts|, 1
  {
    match Subexpr(ts[1..], UNARY_PRIORITY, levels - 1)
    case None => None
    case Some((v, rest)) => Some((Un(GetUn(ts[0]).value, v), rest))
  }

  /** `simpleexp`: an atom, or an expression in parentheses. */
  function Simple(ts: seq<Token>, levels: nat): (r: Result)
    requires levels > 0 && ts != []
    ensures r.Some? ==> |r.value.1| < |ts|
    decreases levels, |ts|, 1
  {
    match ts[0]
    case Atom(n) => Some((Leaf(n), ts[1..]))
    case Open =>
      (match Subexpr(ts[1..], 0, levels - 1)
       case None => None
       case Some((v, rest)) => if rest != [] && rest[0] == Close then Some((v, rest[1..])) else None)
    case _ => None
  }

  /** The loop of `subexpr`: operators with a priority above the limit are taken. */
  function Loop(v: Tree, ts: seq<Token>, limit: nat, levels: nat): (r: Result)
    requires levels > 0
    ensures r.Some? ==> |r.value.1| <= |ts|
    decreases levels, |ts|, 0
  {
    match HeadOp(ts)
    case None => Some((v, ts))
    case Some(op) =>
      if Left(op) > limit then
        match Subexpr(ts[1..], Right(op), levels - 1)
        case None => None
        case Some((v2, rest)) => Loop(Bin(op, v, v2), rest, limit, levels)
      else Some((v, ts))
  }

  // ----- the printer -----

  function UnSym(u: UnOp): Symbol {
    match u case OpNot => Not case OpMinus => Minus case OpLen => Hash
  }

  function BinSym(op: BinOp): Symbol {
    match op
    case OpAdd => Plus case OpSub => Minus case OpMul => Star case OpDiv => Slash case OpMod => Percent
    case OpPow => Caret case OpConcat => Concat
    case OpEq => EqEq case OpLt => Less case OpLe => LessEq
    case OpNe => NotEq case OpGt => Greater case OpGe => GreaterEq
    case OpAnd => And case OpOr => Or
  }

  /** Can the tree stand without parentheses where it is read with the given limit and
      followed by an operator of left priority `next`?  Its own operator must be above the
      limit, and its right operand must not swallow what follows. */
  predicate Bare(t: Tree, limit: nat, next: nat) {
    match t
    case Leaf(_) => true
    case Un(_, _) => next <= UNARY_PRIORITY
    case Bin(op, _, _) => Left(op) > limit && next <= Right(op)
  }

  function Print(t: Tree, limit: nat, next: nat): seq<Token>
    decreases t, 1
  {
    if Bare(t, limit, next) then PrintBare(t, limit, next) else [Open] + PrintBare(t, 0, 0) + [Close]
  }

  function PrintBare(t: Tree, limit: nat, next: nat): seq<Token>
    decreases t, 0
  {
    match t
    case Leaf(n) => [Atom(n)]
    case Un(u, e) => [Sym(UnSym(u))] + Print(e, UNARY_PRIORITY, next)
    case Bin(op, l, r) => Print(l, limit, Left(op)) + [Sym(BinSym(op))] + Print(r, Right(op), next)
  }

  /** The levels of nesting that reading the printed tree takes. */
  function Levels(t: Tree, limit: nat, next: nat): nat
    decreases t, 1
  {
    if Bare(t, limit, next) then LevelsBare(t, limit, next) else 1 + LevelsBare(t, 0, 0)
  }

  function LevelsBare(t: Tree, limit: nat, next: nat): nat
    decreases t, 0
  {
    match t
    case Leaf(_) => 1
    case Un(_, e) => 1 + Levels(e, UNARY_PRIORITY, next)
    case Bin(op, l, r) =>
      var a, b := Levels(l, limit, Left(op)), 1 + Levels(r, Right(op), next);
      if a > b then a else b
  }

  // ----- the round trip -----

  /** The priority of what follows. */
  function Follow(ts: seq<Token>): nat { match HeadOp(ts) case None => 0 case Some(op) => Left(op) }

  lemma Symbols(u: UnOp, op: BinOp)
    ensures GetUn(Sym(UnSym(u))) == Some(u) && GetBin(Sym(BinSym(op))) == Some(op)
  {
  }

  /** A printed tree starts like an operand. */
  lemma {:induction false} PrintStarts(t: Tree, limit: nat, next: nat)
    ensures Print(t, limit, next) != [] && PrintBare(t, limit, next) != []
    decreases t
  {
    match t
    case Leaf(_) =>
    case Un(_, _) =>
    case Bin(op, l, _) => PrintStarts(l, limit, Left(op));
  }

  /** What reading the tokens of a tree leads to: the loop, with the tree read, or an error
      when the nesting is too deep. */
  ghost predicate Reads(r: Result, t: Tree, rest: seq<Token>, limit: nat, levels: nat, need: nat) {
    r == if need <= levels && levels > 0 then Loop(t, rest, limit, levels) else None
  }

  lemma LoopStops(t: Tree, rest: seq<Token>, limit: nat, levels: nat)
    requires Follow(rest) <= limit && levels > 0
    ensures Loop(t, rest, limit, levels) == Some((t, rest))
  {
  }

  lemma {:induction false} ReadPrint(t: Tree, limit: nat, next: nat, rest: seq<Token>, levels: nat)
    requires Follow(rest) <= next
    ensures Reads(Subexpr(Print(t, limit, next) + rest, limit, levels), t, rest, limit, levels, Levels(t, limit, next))
    decreases t, 3
  {
    if Bare(t, limit, next) {
      ReadBare(t, limit, next, rest, levels);
    } else {
      ReadParens(t, limit, rest, levels);
    }
  }

  lemma {:induction false} ReadParens(t: Tree, limit: nat, rest: seq<Token>, levels: nat)
    ensures var ts := [Open] + PrintBare(t, 0, 0) + [Close] + rest;
      Reads(Subexpr(ts, limit, levels), t, rest, limit, levels, 1 + LevelsBare(t, 0, 0))
    decreases t, 2
  {
    var inner := PrintBare(t, 0, 0);
    var ts := [Open] + inner + [Close] + rest;
    if levels > 0 {
      assert ts[0] == Open && GetUn(ts[0]).None?;
      assert ts[1..] == inner + ([Close] + rest);
      assert Follow([Close] + rest) == 0;
      ReadBare(t, 0, 0, [Close] + rest, levels - 1);
      LevelsPositive(t, 0, 0);
      if LevelsBare(t, 0, 0) <= levels - 1 {
        LoopStops(t, [Close] + rest, 0, levels - 1);
        assert ([Close] + rest)[1..] == rest;
        assert Simple(ts, levels) == Some((t, rest));
      }
    }
  }

  lemma {:induction false} LevelsPositive(t: Tree, limit: nat, next: nat)
    ensures LevelsBare(t, limit, next) >= 1
    decreases t
  {
  }

  lemma {:induction false} ReadBare(t: Tree, limit: nat, next: nat, rest: seq<Token>, levels: nat)
    requires Follow(rest) <= next && Bare(t, limit, next)
    ensures Reads(Subexpr(PrintBare(t, limit, next) + rest, limit, levels), t, rest, limit, levels, LevelsBare(t, limit, next))
    decreases t, 1
  {
    match t
    case Leaf(n) =>
      assert ([Atom(n)] + rest)[1..] == rest;
    case Un(u, e) => ReadUnary(u, e, limit, next, rest, levels);
    case Bin(op, l, r) => ReadBinary(op, l, r, limit, next, rest, levels);
  }

  lemma {:induction false} ReadUnary(u: UnOp, e: Tree, limit: nat, next: nat, rest: seq<Token>, levels: nat)
    requires Follow(rest) <= next <= UNARY_PRIORITY
    ensures Reads(Subexpr(PrintBare(Un(u, e), limit, next) + rest, limit, levels), Un(u, e), rest, limit, levels, LevelsBare(Un(u, e), limit, next))
    decreases Un(u, e), 0
  {
    var p := Print(e, UNARY_PRIORITY, next);
    var ts := PrintBare(Un(u, e), limit, next) + rest;
    Symbols(u, OpAdd);
    assert ts[0] == Sym(UnSym(u)) && ts[1..] == p + rest;
    if levels > 0 {
      ReadPrint(e, UNARY_PRIORITY, next, rest, levels - 1);
      if 0 < levels - 1 {
        LoopStops(e, rest, UNARY_PRIORITY, levels - 1);
      }
      NeedsLevel(e, UNARY_PRIORITY, next);
    }
  }

  lemma NeedsLevel(t: Tree, limit: nat, next: nat)
    ensures Levels(t, limit, next) >= 1
  {
    LevelsPositive(t, limit, next);
    LevelsPositive(t, 0, 0);
  }

  lemma {:induction false} ReadBinary(op: BinOp, l: Tree, r: Tree, limit: nat, next: nat, rest: seq<Token>, levels: nat)
    requires Follow(rest) <= next && Left(op) > limit && next <= Right(op)
    ensures var t := Bin(op, l, r);
      Reads(Subexpr(PrintBare(t, limit, next) + rest, limit, levels), t, rest, limit, levels, LevelsBare(t, limit, next))
    decreases Bin(op, l, r), 0
  {
    var pl, pr := Print(l, limit, Left(op)), Print(r, Right(op), next);
    var mid := [Sym(BinSym(op))] + pr + rest;
    assert PrintBare(Bin(op, l, r), limit, next) + rest == pl + mid;
    Symbols(OpNot, op);
    assert mid[0] == Sym(BinSym(op)) && mid[1..] == pr + rest;
    assert HeadOp(mid) == Some(op);
    ReadPrint(l, limit, Left(op), mid, levels);
    if levels > 0 {
      ReadPrint(r, Right(op), next, rest, levels - 1);
      NeedsLevel(r, Right(op), next);
      if 0 < levels - 1 {
        LoopStops(r, rest, Right(op), levels - 1);
      }
    }
  }

  /** Printing any operator tree and reading it back gives the same tree, and stops at the
      first operator that is not above the limit -- unless the nesting is too deep, and then
      it is an error. */
  lemma RoundTrip(t: Tree, limit: nat, rest: seq<Token>, levels: nat)
    requires Follow(rest) <= limit
    ensures Subexpr(Print(t, limit, Follow(rest)) + rest, limit, levels) ==
      if Levels(t, limit, Follow(rest)) <= levels then Some((t, rest)) else None
  {
    ReadPrint(t, limit, Follow(rest), rest, levels);
    NeedsLevel(t, limit, Follow(rest));
    if levels > 0 {
      LoopStops(t, rest, limit, levels);
    }
  }

  /** An operator above the limit is taken by the loop. */
  lemma LoopTakes(v: Tree, rest: seq<Token>, limit: nat, levels: nat)
    requires Follow(rest) > limit && levels > 0
    ensures Loop(v, rest, limit, levels).Some? ==> |Loop(v, rest, limit, levels).value.1| < |rest|
  {
  }

  /** The printer writes no parentheses that could be left out: without them the tokens are
      not read as the same tree. */
  lemma ParensNeeded(t: Tree, limit: nat, next: nat, rest: seq<Token>, levels: nat)
    requires !Bare(t, limit, next) && Follow(rest) <= next
    requires t.Un? || (t.Bin? && Left(t.op) > limit) ==> Follow(rest) == next
    ensures Subexpr(PrintBare(t, limit, next) + rest, limit, levels) != Some((t, rest))
  {
    if levels > 0 {
      match t
      case Leaf(_) =>
      case Un(u, e) => UnaryNeeds(u, e, limit, next, rest, levels);
      case Bin(op, l, r) => BinaryNeeds(op, l, r, limit, next, rest, levels);
    }
  }

  lemma UnaryNeeds(u: UnOp, e: Tree, limit: nat, next: nat, rest: seq<Token>, levels: nat)
    requires next > UNARY_PRIORITY && Follow(rest) == next && levels > 0
    ensures Subexpr(PrintBare(Un(u, e), limit, next) + rest, limit, levels) != Some((Un(u, e), rest))
  {
    var ts := PrintBare(Un(u, e), limit, next) + rest;
    Symbols(u, OpAdd);
    assert ts[0] == Sym(UnSym(u)) && ts[1..] == Print(e, UNARY_PRIORITY, next) + rest;
    ReadPrint(e, UNARY_PRIORITY, next, rest, levels - 1);
    if 0 < levels - 1 {
      LoopTakes(e, rest, UNARY_PRIORITY, levels - 1);
    }
  }

  lemma BinaryNeeds(op: BinOp, l: Tree, r: Tree, limit: nat, next: nat, rest: seq<Token>, levels: nat)
    requires (Left(op) <= limit || next > Right(op)) && (Left(op) > limit ==> Follow(rest) == next) && Follow(rest) <= next && levels > 0
    ensures Subexpr(PrintBare(Bin(op, l, r), limit, next) + rest, limit, levels) != Some((Bin(op, l, r), rest))
  {
    hide Subexpr, Print, Levels, GetBin, BinSym;
    var pl, pr := Print(l, limit, Left(op)), Print(r, Right(op), next);
    var mid := [Sym(BinSym(op))] + pr + rest;
    assert PrintBare(Bin(op, l, r), limit, next) + rest == pl + mid;
    Symbols(OpNot, op);
    assert mid[0] == Sym(BinSym(op)) && mid[1..] == pr + rest;
    assert HeadOp(mid) == Some(op);
    ReadPrint(l, limit, Left(op), mid, levels);
    if Left(op) <= limit {
      LoopStops(l, mid, limit, levels);
      assert |mid| > |rest|;
    } else {
      ReadPrint(r, Right(op), next, rest, levels - 1);
      if 0 < levels - 1 {
        LoopTakes(r, rest, Right(op), levels - 1);
      }
    }
  }

  // ----- how operators group -----

  /** A level of operators, each with its symbol. */
  datatype Level =
    | Binaries(ops: seq<(Symbol, BinOp)>, rightAssoc: bool)
    | Unaries(uns: seq<(Symbol, UnOp)>)

  /** The operators of the language, from the level that binds least to the one that binds
      most. */
  const LEVELS: seq<Level> := [
    Binaries([(Or, OpOr)], false),
    Binaries([(And, OpAnd)], false),
    Binaries([(Less, OpLt), (Greater, OpGt), (LessEq, OpLe), (GreaterEq, OpGe), (NotEq, OpNe), (EqEq, OpEq)], false),
    Binaries([(Concat, OpConcat)], true),
    Binaries([(Plus, OpAdd), (Minus, OpSub)], false),
    Binaries([(Star, OpMul), (Slash, OpDiv), (Percent, OpMod)], false),
    Unaries([(Not, OpNot), (Hash, OpLen), (Minus, OpMinus)]),
    Binaries([(Caret, OpPow)], true)
  ]

  /** The operator with its symbol is on the level. */
  predicate On(level: nat, p: (Symbol, BinOp)) {
    level < |LEVELS| && LEVELS[level].Binaries? && p in LEVELS[level].ops
  }

  predicate UnaryOn(level: nat, u: (Symbol, UnOp)) {
    level < |LEVELS| && LEVELS[level].Unaries? && u in LEVELS[level].uns
  }

  /** Every operator is on a level. */
  lemma EveryOperatorListed(op: BinOp, u: UnOp)
    ensures exists i: nat, s: Symbol :: On(i, (s, op))
    ensures exists i: nat, s: Symbol :: UnaryOn(i, (s, u))
  {
    var i := match op
      case OpOr => 0 case OpAnd => 1
      case OpLt => 2 case OpGt => 2 case OpLe => 2 case OpGe => 2 case OpNe => 2 case OpEq => 2
      case OpConcat => 3 case OpAdd => 4 case OpSub => 4
      case OpMul => 5 case OpDiv => 5 case OpMod => 5 case OpPow => 7;
    assert On(i, (BinSym(op), op));
    assert UnaryOn(6, (UnSym(u), u));
  }

  /** The priority table orders the operators as the levels do. */
  lemma TableFollowsLevels(i: nat, p: (Symbol, BinOp), j: nat, q: (Symbol, BinOp))
    requires On(i, p) && On(j, q)
    ensures GetBin(Sym(p.0)) == Some(p.1)
    ensures Left(q.1) > Right(p.1) <==> i < j || (i == j && LEVELS[i].rightAssoc)
  {
    Placed(i, p);
    Placed(j, q);
  }

  /** What the table says of the operators on each level. */
  lemma Placed(i: nat, p: (Symbol, BinOp))
    requires On(i, p)
    ensures GetBin(Sym(p.0)) == Some(p.1) && i != 6
    ensures Left(p.1) == if i < 3 then i + 1 else if i < 6 then i + 2 else 10
    ensures Right(p.1) == if LEVELS[i].rightAssoc then Left(p.1) - 1 else Left(p.1)
    ensures LEVELS[i].rightAssoc <==> i == 3 || i == 7
  {
    hide GetBin, Left, Right;
    var ops := LEVELS[i].ops;
    var k :| 0 <= k < |ops| && ops[k] == p;
    assert i in {0, 1, 2, 3, 4, 5, 7};
    if i < 3 {
      PlacedLow(i, k);
    } else {
      PlacedHigh(i, k);
    }
  }

  lemma PlacedLow(i: nat, k: nat)
    requires i < 3 && k < |LEVELS[i].ops|
    ensures var p := LEVELS[i].ops[k]; GetBin(Sym(p.0)) == Some(p.1) && Left(p.1) == Right(p.1) == i + 1 && !LEVELS[i].rightAssoc
  {
  }

  lemma PlacedHigh(i: nat, k: nat)
    requires i in {3, 4, 5, 7} && k < |LEVELS[i].ops|
    ensures var p := LEVELS[i].ops[k]; GetBin(Sym(p.0)) == Some(p.1) && Left(p.1) == if i == 7 then 10 else i + 2
    ensures var p := LEVELS[i].ops[k]; Right(p.1) == (if LEVELS[i].rightAssoc then Left(p.1) - 1 else Left(p.1)) && (LEVELS[i].rightAssoc <==> i == 3 || i == 7)
  {
  }

  lemma ReadAtom(a: nat, rest: seq<Token>, limit: nat, levels: nat)
    requires levels > 0
    ensures Subexpr([Atom(a)] + rest, limit, levels) == Loop(Leaf(a), rest, limit, levels)
  {
    assert ([Atom(a)] + rest)[1..] == rest;
  }

  /** One operator and an atom, in the loop. */
  lemma LoopReads(v: Tree, p: (Symbol, BinOp), b: nat, rest: seq<Token>, limit: nat, levels: nat)
    requires GetBin(Sym(p.0)) == Some(p.1) && Left(p.1) > limit && levels > 1
    ensures var inner := Loop(Leaf(b), rest, Right(p.1), levels - 1);
      Loop(v, [Sym(p.0), Atom(b)] + rest, limit, levels) ==
        if inner.None? then None else Loop(Bin(p.1, v, inner.value.0), inner.value.1, limit, levels)
  {
    assert ([Sym(p.0), Atom(b)] + rest)[1..] == [Atom(b)] + rest;
    ReadAtom(b, rest, Right(p.1), levels - 1);
  }

  /** For all operators and operands, `a p b q c` is read as `a p (b q c)` if `q` is on a
      higher level than `p`, or on the same level and that level groups to the right, and as
      `(a p b) q c` otherwise. */
  lemma OperatorsGroup(a: nat, i: nat, p: (Symbol, BinOp), b: nat, j: nat, q: (Symbol, BinOp), c: nat, levels: nat)
    requires On(i, p) && On(j, q) && levels >= 3
    ensures Subexpr([Atom(a), Sym(p.0), Atom(b), Sym(q.0), Atom(c)], 0, levels) == Some((
      if i < j || (i == j && LEVELS[i].rightAssoc)
      then Bin(p.1, Leaf(a), Bin(q.1, Leaf(b), Leaf(c)))
      else Bin(q.1, Bin(p.1, Leaf(a), Leaf(b)), Leaf(c)), []))
  {
    hide Subexpr, Loop;
    TableFollowsLevels(i, p, j, q);
    TableFollowsLevels(j, q, i, p);
    var qc := [Sym(q.0), Atom(c)] + [];
    var pbqc := [Sym(p.0), Atom(b)] + qc;
    assert [Atom(a), Sym(p.0), Atom(b), Sym(q.0), Atom(c)] == [Atom(a)] + pbqc;
    ReadAtom(a, pbqc, 0, levels);
    LoopReads(Leaf(a), p, b, qc, 0, levels);
    if Left(q.1) > Right(p.1) {
      LoopReads(Leaf(b), q, c, [], Right(p.1), levels - 1);
      LoopEnds(Leaf(c), Right(q.1), levels - 2);
      LoopEnds(Bin(q.1, Leaf(b), Leaf(c)), Right(p.1), levels - 1);
      LoopEnds(Bin(p.1, Leaf(a), Bin(q.1, Leaf(b), Leaf(c))), 0, levels);
    } else {
      assert HeadOp(qc) == Some(q.1);
      LoopStops(Leaf(b), qc, Right(p.1), levels - 1);
      LoopReads(Bin(p.1, Leaf(a), Leaf(b)), q, c, [], 0, levels);
      LoopEnds(Leaf(c), Right(q.1), levels - 1);
      LoopEnds(Bin(q.1, Bin(p.1, Leaf(a), Leaf(b)), Leaf(c)), 0, levels);
    }
  }

  lemma LoopEnds(t: Tree, limit: nat, levels: nat)
    requires levels > 0
    ensures Loop(t, [], limit, levels) == Some((t, []))
  {
  }

  /** What a unary operator takes: `u a p b` is read as `u (a p b)` if `p` is on a higher
      level than the unary operators, which only the power is, and as `(u a) p b` otherwise;
      `a p u b` is read as `a p (u b)` whatever `p` is. */
  lemma UnaryGroups(k: nat, u: (Symbol, UnOp), a: nat, i: nat, p: (Symbol, BinOp), b: nat, levels: nat)
    requires UnaryOn(k, u) && On(i, p) && levels >= 3
    ensures Subexpr([Sym(u.0), Atom(a), Sym(p.0), Atom(b)], 0, levels) == Some((
      if k < i then Un(u.1, Bin(p.1, Leaf(a), Leaf(b))) else Bin(p.1, Un(u.1, Leaf(a)), Leaf(b)), []))
    ensures k < i <==> p.1 == OpPow
    ensures Subexpr([Atom(a), Sym(p.0), Sym(u.0), Atom(b)], 0, levels) == Some((Bin(p.1, Leaf(a), Un(u.1, Leaf(b))), []))
  {
    Placed(i, p);
    UnaryFirst(u, a, p, b, levels);
    UnarySecond(u, a, p, b, levels);
  }

  lemma UnaryFirst(u: (Symbol, UnOp), a: nat, p: (Symbol, BinOp), b: nat, levels: nat)
    requires GetUn(Sym(u.0)) == Some(u.1) && GetBin(Sym(p.0)) == Some(p.1) && levels >= 3
    ensures Subexpr([Sym(u.0), Atom(a), Sym(p.0), Atom(b)], 0, levels) == Some((
      if Left(p.1) > UNARY_PRIORITY then Un(u.1, Bin(p.1, Leaf(a), Leaf(b))) else Bin(p.1, Un(u.1, Leaf(a)), Leaf(b)), []))
  {
    hide Loop;
    var pb := [Sym(p.0), Atom(b)] + [];
    var ts := [Sym(u.0), Atom(a), Sym(p.0), Atom(b)];
    assert ts[1..] == [Atom(a)] + pb;
    ReadAtom(a, pb, UNARY_PRIORITY, levels - 1);
    if Left(p.1) > UNARY_PRIORITY {
      LoopReads(Leaf(a), p, b, [], UNARY_PRIORITY, levels - 1);
      LoopEnds(Leaf(b), Right(p.1), levels - 2);
      LoopEnds(Bin(p.1, Leaf(a), Leaf(b)), UNARY_PRIORITY, levels - 1);
      LoopEnds(Un(u.1, Bin(p.1, Leaf(a), Leaf(b))), 0, levels);
    } else {
      LoopStops(Leaf(a), pb, UNARY_PRIORITY, levels - 1);
      LoopReads(Un(u.1, Leaf(a)), p, b, [], 0, levels);
      LoopEnds(Leaf(b), Right(p.1), levels - 1);
      LoopEnds(Bin(p.1, Un(u.1, Leaf(a)), Leaf(b)), 0, levels);
    }
  }

  lemma UnarySecond(u: (Symbol, UnOp), a: nat, p: (Symbol, BinOp), b: nat, levels: nat)
    requires GetUn(Sym(u.0)) == Some(u.1) && GetBin(Sym(p.0)) == Some(p.1) && levels >= 3
    ensures Subexpr([Atom(a), Sym(p.0), Sym(u.0), Atom(b)], 0, levels) == Some((Bin(p.1, Leaf(a), Un(u.1, Leaf(b))), []))
  {
    hide Subexpr;
    var pub := [Sym(p.0), Sym(u.0), Atom(b)];
    assert [Atom(a), Sym(p.0), Sym(u.0), Atom(b)] == [Atom(a)] + pub;
    assert pub[1..] == [Sym(u.0), Atom(b)];
    ReadAtom(a, pub, 0, levels);
    UnaryAtom(u, b, Right(p.1), levels - 1);
    LoopEnds(Bin(p.1, Leaf(a), Un(u.1, Leaf(b))), 0, levels);
  }

  lemma UnaryAtom(u: (Symbol, UnOp), b: nat, limit: nat, levels: nat)
    requires GetUn(Sym(u.0)) == Some(u.1) && levels >= 2
    ensures Subexpr([Sym(u.0), Atom(b)], limit, levels) == Some((Un(u.1, Leaf(b)), []))
  {
    assert [Sym(u.0), Atom(b)][1..] == [Atom(b)] + [];
    ReadAtom(b, [], UNARY_PRIORITY, levels - 1);
    LoopEnds(Leaf(b), UNARY_PRIORITY, levels - 1);
    LoopEnds(Un(u.1, Leaf(b)), limit, levels);
  }

  // ----- the parser as it works on the lexer -----

  class Parser {
    /** The tokens from the current one on. */
    var tokens: seq<Token>

    constructor (tokens: seq<Token>)
      ensures this.tokens == tokens
    {
      this.tokens := tokens;
    }

    /** `luaX_next`. */
    method Advance()
      requires tokens != []
      modifies this
      ensures tokens == old(tokens)[1..]
    {
      tokens := tokens[1..];
    }

    method SimpleExp(levels: nat) returns (v: Option<Tree>)
      requires levels > 0 && tokens != []
      modifies this
      ensures match Simple(old(tokens), levels) case None => v.None? case Some((t, rest)) => v == Some(t) && tokens == rest
      decreases levels, 0
    {
      match tokens[0] {
        case Atom(n) =>
          Advance();
          return Some(Leaf(n));
        case Open =>
          Advance();
          var op;
          v, op := SubExpr(0, levels - 1);
          if v.None? || tokens == [] || tokens[0] != Close {
            return None;
          }
          Advance();
        case _ => return None;
      }
    }

    /** `subexpr`: returns the first operator that was not treated. */
    method SubExpr(limit: nat, levels: nat) returns (v: Option<Tree>, op: Option<BinOp>)
      modifies this
      ensures match Subexpr(old(tokens), limit, levels)
        case None => v.None?
        case Some((t, rest)) => v == Some(t) && tokens == rest && op == HeadOp(rest)
      decreases levels, 1
    {
      op := None;
      if levels == 0 || tokens == [] {
        return None, None;
      }
      var uop := GetUn(tokens[0]);
      if uop.Some? {
        Advance();
        v, op := SubExpr(UNARY_PRIORITY, levels - 1);
        if v.None? {
          return;
        }
        v := Some(Un(uop.value, v.value));
      } else {
        v := SimpleExp(levels);
        if v.None? {
          return;
        }
      }
      op := HeadOp(tokens);
      assert Loop(v.value, tokens, limit, levels) == Subexpr(old(tokens), limit, levels);
      while op.Some? && Left(op.value) > limit
        invariant v.Some? && op == HeadOp(tokens)
        invariant Loop(v.value, tokens, limit, levels) == Subexpr(old(tokens), limit, levels)
        decreases |tokens|
      {
        Advance();
        var v2, nextop := SubExpr(Right(op.value), levels - 1);
        if v2.None? {
          return None, None;
        }
        v := Some(Bin(op.value, v.value, v2.value));
        op := nextop;
      }
    }

    /** `expr`, when `depth` C levels are in use: a printed tree is read as that tree, up to the
        first token that is not an operator, or is rejected if it needs more levels than are
        left. */
    method Expr(depth: nat, ghost t: Tree, ghost rest: seq<Token>) returns (v: Option<Tree>)
      requires depth <= LUAI_MAXCCALLS
      modifies this
      ensures match Subexpr(old(tokens), 0, LUAI_MAXCCALLS - depth) case None => v.None? case Some((t', rest')) => v == Some(t') && tokens == rest'
      ensures Follow(rest) == 0 && old(tokens) == Print(t, 0, 0) + rest ==>
        if Levels(t, 0, 0) <= LUAI_MAXCCALLS - depth then v == Some(t) && tokens == rest else v.None?
    {
      if Follow(rest) == 0 {
        RoundTrip(t, 0, rest, LUAI_MAXCCALLS - depth);
      }
      var op;
      v, op := SubExpr(0, LUAI_MAXCCALLS - depth);
    }
  }
}
