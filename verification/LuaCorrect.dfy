/** The code of an expression computes its value. */
module LuaCorrect {
  import opened Common
  import opened LuaVm
  import opened LuaCode
  import opened LuaEmit
  import opened LuaSem
  import opened LuaJoin
  import opened LuaCond
  import opened LuaNot
  import opened LuaOperand
  import opened LuaMono

  // ----- comparisons -----

  lemma FixedStays(fs: Fs, e: Exp, o: RK)
    requires Fixed(fs, e, o)
    ensures Exp2RK(fs, e) == (fs, e, o)
  {
  }

  /** What a comparison makes of the value of its second operand. */
  ghost predicate Compared(p: Prims, op: Rel, v1: Value, m: Sem, m2: Sem, n: nat) {
    if m.Val? then
      match Relate(p, op, v1, m.v)
      case Some(v) => m2.Val? && m2.v == v && m2.way == Prim && Agree(m.r, m2.r, n)
      case None => m2 == Fails
    else m2 == m
  }

  lemma JmpCore(fs: Fs, test: Instr, r: Fs, e: Exp)
    requires r == CondJump(fs, test).0 && e.k == VJmp(|r.code| - 1) && test.Cmp?
    ensures Core(r, e) == Discharge(fs) && KindOk(r, e) && r.code[e.k.pc - 1] == test && Discharge(fs).jpc == []
    ensures r == fs.(code := r.code, jpc := [])
  {
    CondJumpKeeps(fs, test);
    var d := Discharge(fs).code;
    assert Emit(fs, test).code == d + [test];
    assert r.code == d + [test] + [Jmp(NO_JUMP)];
    assert r.code[..|r.code| - 2] == d;
  }

  lemma ComparisonDecides(p: Prims, ks: seq<Value>, op: Rel, o1: RK, o2: RK, v1: Value, v2: Value, q: Regs)
    requires RKValue(ks, q, o1) == Some(v1) && RKValue(ks, q, o2) == Some(v2)
    ensures Decide(p, ks, Comparison(op, o1, o2), q) ==
      match Relate(p, op, v1, v2)
      case None => Error
      case Some(v) => if v == Bool(true) then Jump else Skip
    ensures Relate(p, op, v1, v2).Some? ==> Relate(p, op, v1, v2).value.Bool?
  {
  }

  lemma FreeBoth(fs: Fs, e1: Exp, fs2: Fs, e2: Exp, n: nat)
    requires fs2.nactvar == fs.nactvar <= n
    requires fs.freereg == n + Held(fs, e1) && fs2.freereg == fs.freereg + Held(fs2, e2)
    ensures FreeExp(FreeExp(fs2, e2), e1) == fs2.(freereg := n)
  {
  }

  /** codecomp, when its first operand is already in place. */
  lemma CompOk(s: Start, fs: Fs, op: Rel, e1: Exp, o1: RK, e2: Exp, r: Fs, e: Exp, n: nat, v1: Value)
    requires Fixed(fs, e1, o1) && WfExp(fs, e2) && Settled(fs, e2) && Begins(s, Core(fs, e2)) && SemOf(s, fs, e2) != Broken
    requires fs.nactvar <= n && fs.freereg == n + Held(fs, e1)
    requires SemOf(s, fs, e2).Val? ==> RKValue(s.ks, SemOf(s, fs, e2).r, o1) == Some(v1)
    requires (r, e) == CodeComp(fs, op, e1, e2) && r.k <= s.ks && r.maxstack < MAXSTACK
    ensures WfExp(r, e) && Settled(r, e) && Framed(Core(fs, e2), Core(r, e), e2.t + e2.f) && Core(r, e).jpc == []
    ensures r.freereg == n && Begins(s, Core(r, e)) && e.t == [] && e.f == []
    ensures Compared(s.p, op, v1, SemOf(s, fs, e2), SemOf(s, r, e), n)
  {
    hide WfFs, Framed, From, Exp2RK, CondJump, Discharge, FreeExp, IsPendingList, NoDup, Decide, PrimSem, Comparison;
    FixedStays(fs, e1, o1);
    MonoComp(fs, op, e1, e2);
    var (fs2, e2', o2) := Exp2RK(fs, e2);
    Exp2RKOk(s, fs, e2, fs2, e2', o2);
    var c, own := Core(fs, e2), e2.t + e2.f;
    FramedLength(c, fs2, own);
    FreeBoth(fs, e1, fs2, e2', n);
    var fs3 := fs2.(freereg := n);
    FreeWf(s, fs2, n);
    CompParts(fs, op, e1, e2, o1, fs2, e2', o2, fs3, r, e);
    JmpCore(fs3, Comparison(op, o1, o2), r, e) by { ComparisonKind(op, o1, o2); }
    DischargedWf(s, fs3);
    FramedFreeOwn(c, fs2, own, n);
    FromNothing(c);
    FromSome(c, own);
    FramedTrans(c, fs3, Core(r, e), own, []);
    CompSem(s, fs, op, o1, e2, fs2, o2, fs3, r, e, n, v1);
    NoLists(Core(r, e).code);
    assert e.t + e.f + [] == [];
  }

  lemma NoLists(code: seq<Instr>)
    ensures IsPendingList(code, []) && NoDup<nat>([])
  {
  }

  lemma FromSome(c: Fs, own: seq<nat>)
    ensures From(c, own, [])
  {
  }

  lemma FramedFreeOwn(a: Fs, b: Fs, own: seq<nat>, n: nat)
    requires Framed(a, b, own)
    ensures Framed(a, b.(freereg := n), own)
  {
  }

  lemma ComparisonKind(op: Rel, o1: RK, o2: RK)
    ensures Comparison(op, o1, o2).Cmp?
  {
  }

  lemma CompParts(fs: Fs, op: Rel, e1: Exp, e2: Exp, o1: RK, fs2: Fs, e2': Exp, o2: RK, fs3: Fs, r: Fs, e: Exp)
    requires Exp2RK(fs, e1) == (fs, e1, o1) && Exp2RK(fs, e2) == (fs2, e2', o2) && fs3 == FreeExp(FreeExp(fs2, e2'), e1)
    requires (r, e) == CodeComp(fs, op, e1, e2)
    ensures r == CondJump(fs3, Comparison(op, o1, o2)).0 && e == Exp(VJmp(|r.code| - 1), e1.t, e1.f)
  {
    hide Exp2RK, CondJump, FreeExp;
  }

  lemma CompSem(s: Start, fs: Fs, op: Rel, o1: RK, e2: Exp, fs2: Fs, o2: RK, fs3: Fs, r: Fs, e: Exp, n: nat, v1: Value)
    requires KindOk(fs, e2) && Begins(s, Core(fs, e2)) && s.pc <= |fs2.code| && SemOf(s, fs, e2) != Broken
    requires SemOf(s, fs, e2).Val? ==> RKValue(s.ks, SemOf(s, fs, e2).r, o1) == Some(v1)
    requires o1.R? ==> o1.i < fs.freereg
    requires Operand(s.ks, SemOf(s, fs, e2), Sofar(s, fs2), o2, fs.freereg) && n <= fs.freereg
    requires KindOk(r, e) && e.k.VJmp? && r.code[e.k.pc - 1] == Comparison(op, o1, o2) && e.t == [] && e.f == []
    requires s.pc <= |Core(r, e).code| && Sofar(s, Core(r, e)) == Sofar(s, fs2)
    ensures Compared(s.p, op, v1, SemOf(s, fs, e2), SemOf(s, r, e), n)
  {
    hide Decide, Comparison;
    var m := SemOf(s, fs, e2);
    if m.Val? {
      var q := Sofar(s, fs2).r;
      assert RKValue(s.ks, q, o1) == Some(v1);
      ComparisonDecides(s.p, s.ks, op, o1, o2, v1, m.v, q);
    }
  }

  // ----- expressions -----

  /** The local variables of the expression are in the registers below `n`. */
  predicate LocalsBelow(x: Expr, n: nat) {
    match x
    case ELocal(reg) => reg < n
    case ENot(e) => LocalsBelow(e, n)
    case EAnd(l, r) => LocalsBelow(l, n) && LocalsBelow(r, n)
    case EOr(l, r) => LocalsBelow(l, n) && LocalsBelow(r, n)
    case ERel(_, l, r) => LocalsBelow(l, n) && LocalsBelow(r, n)
    case _ => true
  }

  lemma {:induction false} EvalAgree(p: Prims, x: Expr, q: Regs, r: Regs, n: nat)
    requires Agree(q, r, n) && LocalsBelow(x, n)
    ensures Eval(p, x, r) == Eval(p, x, q)
  {
    match x
    case ENot(e) => EvalAgree(p, e, q, r, n);
    case EAnd(e1, e2) => EvalAgree(p, e1, q, r, n); EvalAgree(p, e2, q, r, n);
    case EOr(e1, e2) => EvalAgree(p, e1, q, r, n); EvalAgree(p, e2, q, r, n);
    case ERel(_, e1, e2) => EvalAgree(p, e1, q, r, n); EvalAgree(p, e2, q, r, n);
    case _ =>
  }

  /** The descriptor delivers the value of `x` in the registers where the run of `o` ended. */
  ghost predicate Computes(p: Prims, o: Out, m: Sem, x: Expr, n: nat) {
    match o
    case Fall(q) =>
      (match Eval(p, x, q)
       case Some(v) => m.Val? && m.v == v && Agree(q, m.r, n)
       case None => m == Fails)
    case Exit(j, q) => m == Outside(j, q)
    case Err => m == Fails
    case Stuck => true
  }

  ghost predicate Compiled(s: Start, fs0: Fs, x: Expr, fs: Fs, e: Exp)
    requires s.pc <= |fs0.code|
  {
    && Turned(s, fs0, [], fs, e)
    && Computes(s.p, Sofar(s, fs0), SemOf(s, fs, e), x, fs0.freereg) && Honest(SemOf(s, fs, e))
  }

  lemma CompileLeaf(s: Start, fs0: Fs, x: Expr, fs: Fs, e: Exp)
    requires WfFs(fs0) && Begins(s, fs0) && LocalsBelow(x, fs0.nactvar) && (fs, e) == Compile(fs0, x)
    requires !x.ENot? && !x.EAnd? && !x.EOr? && !x.ERel?
    ensures Compiled(s, fs0, x, fs, e)
  {
    hide AddK, WfFs, Run, Begins, Framed, From, Compile, PrimSem, KindOk, Settled, Eval;
    LeafShape(fs0, x, fs, e);
    SameCode(s, fs0, fs);
    assert e.t + e.f + fs.jpc == fs.jpc;
    NoLists(fs.code);
    if Sofar(s, fs0).Fall? {
      LeafValue(s, fs0, x, fs, e, Sofar(s, fs0).r);
    }
  }

  lemma LeafShape(fs0: Fs, x: Expr, fs: Fs, e: Exp)
    requires LocalsBelow(x, fs0.nactvar) && (fs, e) == Compile(fs0, x) && !x.ENot? && !x.EAnd? && !x.EOr? && !x.ERel?
    ensures fs == fs0.(k := fs.k) && fs0.k <= fs.k && e.t == [] && e.f == [] && KindOk(fs, e) && Settled(fs, e) && Core(fs, e) == fs
  {
  }

  lemma LeafValue(s: Start, fs0: Fs, x: Expr, fs: Fs, e: Exp, q: Regs)
    requires LocalsBelow(x, fs0.nactvar) && (fs, e) == Compile(fs0, x) && !x.ENot? && !x.EAnd? && !x.EOr? && !x.ERel? && KindOk(fs, e)
    ensures Eval(s.p, x, q).Some? && PrimSem(s, fs, e, q) == Val(Eval(s.p, x, q).value, Prim, q)
  {
  }

  /** More constants change no run. */
  lemma SameCode(s: Start, a: Fs, b: Fs)
    requires WfFs(a) && Begins(s, a) && b == a.(k := b.k) && a.k <= b.k
    ensures WfFs(b) && Begins(s, b) && s.pc <= |b.code| && Sofar(s, b) == Sofar(s, a) && Framed(a, b, []) && From(a, [], b.jpc)
    ensures NoDup(b.jpc)
  {
  }

  /** Descriptors made one after the other. */
  lemma TurnedTwice(s: Start, fs0: Fs, fs1: Fs, e1: Exp, r: Fs, e: Exp)
    requires Turned(s, fs0, [], fs1, e1) && Turned(s, Core(fs1, e1), e1.t + e1.f, r, e)
    ensures Turned(s, fs0, [], r, e)
  {
    var c := Core(fs1, e1);
    assert From(fs0, [], e1.t + e1.f) by { FromParts(fs0, e1.t + e1.f, c.jpc); }
    FramedTrans(fs0, c, Core(r, e), [], e1.t + e1.f);
    FromParts(fs0, e1.t + e1.f, c.jpc);
    FromTrans(fs0, c, [], e1.t + e1.f, e.t + e.f + Core(r, e).jpc);
  }

  lemma FromParts(a: Fs, x: seq<nat>, y: seq<nat>)
    requires From(a, [], x + y)
    ensures From(a, [], x) && From(a, [], y)
  {
    assert forall j :: j in x ==> j in x + y;
    assert forall j :: j in y ==> j in x + y;
  }

  lemma NotCompiled(s: Start, fs0: Fs, x: Expr, fs1: Fs, d: Exp, fs: Fs, e: Exp)
    requires WfFs(fs0) && Begins(s, fs0) && Compiled(s, fs0, x, fs1, d)
    requires (fs, e) == CodeNot(fs1, d) && fs.k <= s.ks && fs.maxstack < MAXSTACK
    ensures Compiled(s, fs0, ENot(x), fs, e)
  {
    hide WfFs, CodeNot, Framed, From, KindOk, PrimSem, IsPendingList, NoDup;
    CodeNotOk(s, fs1, d, fs, e);
    CoreFree(fs1, d);
    TurnedTwice(s, fs0, fs1, d, fs, e);
  }

  lemma CoreFree(fs: Fs, e: Exp)
    ensures Core(fs, e).freereg == fs.freereg && Core(fs, e).k == fs.k && Core(fs, e).maxstack == fs.maxstack && Core(fs, e).nactvar == fs.nactvar
  {
  }

  /** After luaK_goiftrue or luaK_goiffalse, seen from the start. */
  lemma PartedStart(s: Start, fs0: Fs, fs1: Fs, d: Exp, fs2: Fs, list: seq<nat>)
    requires Turned(s, fs0, [], fs1, d) && Parted(s, Core(fs1, d), d.t + d.f, fs2, list)
    ensures Framed(fs0, fs2, []) && From(fs0, [], list + fs2.jpc) && fs2.freereg == fs0.freereg
  {
    hide Framed;
    var c := Core(fs1, d);
    FromParts(fs0, d.t + d.f, c.jpc);
    FramedTrans(fs0, c, fs2, [], d.t + d.f);
    FromTrans(fs0, c, [], d.t + d.f, list + fs2.jpc);
  }

  /** The second operand of `and` (b is false) or `or` (b is true), with the jumps of the
      first added to its list. */
  function WithJumps(d: Exp, list: seq<nat>, b: bool): Exp {
    if b then d.(t := d.t + list) else d.(f := d.f + list)
  }

  lemma WithJumpsWf(s: Start, fs2: Fs, list: seq<nat>, fs3: Fs, d: Exp, b: bool)
    requires Turned(s, fs2, [], fs3, d) && IsPendingList(fs2.code, list) && NoDup(list + fs2.jpc)
    ensures var e := WithJumps(d, list, b);
      && WfExp(fs3, e) && Settled(fs3, e) && Core(fs3, e) == Core(fs3, d)
    ensures Kept(fs2.code, Core(fs3, d).code, list) && Disjoint(list, d.t) && Disjoint(list, d.f)
  {
    hide WfFs, NoDup, KindOk;
    var c, e := Core(fs3, d), WithJumps(d, list, b);
    SplitPair(list, fs2.jpc);
    FromParts(fs2, d.t + d.f, c.jpc);
    FramedKeeps(fs2, c, [], list);
    KeptPending(fs2.code, c.code, list);
    assert forall j :: j in list ==> Pending(fs2.code, j);
    WithJumpsNoDup(d, list, b, c.jpc);
    PendingConcat(c.code, d.t, list);
    PendingConcat(c.code, d.f, list);
    WithJumpsKind(fs3, d, list, b);
  }

  lemma WithJumpsKind(fs: Fs, d: Exp, list: seq<nat>, b: bool)
    requires KindOk(fs, d)
    ensures KindOk(fs, WithJumps(d, list, b)) && (Settled(fs, d) ==> Settled(fs, WithJumps(d, list, b)))
    ensures Core(fs, WithJumps(d, list, b)) == Core(fs, d)
  {
  }

  lemma PendingConcat(code: seq<Instr>, x: seq<nat>, y: seq<nat>)
    requires IsPendingList(code, x) && IsPendingList(code, y)
    ensures IsPendingList(code, x + y)
  {
  }

  lemma WithJumpsNoDup(d: Exp, list: seq<nat>, b: bool, jpc: seq<nat>)
    requires NoDup(d.t + d.f + jpc) && NoDup(list) && Disjoint(list, d.t) && Disjoint(list, d.f) && Disjoint(list, jpc)
    ensures var e := WithJumps(d, list, b); NoDup(e.t + e.f + jpc)
  {
    var e := WithJumps(d, list, b);
    NoDupSplit(d.t, d.f, jpc);
    if b {
      NoDupAppend(d.t, list);
      NoDupAppend(d.t + list, d.f);
    } else {
      NoDupAppend(d.f, list);
      NoDupAppend(d.t, d.f + list);
    }
    NoDupAppend(e.t + e.f, jpc);
  }

  lemma WfKind(fs: Fs, e: Exp)
    requires WfExp(fs, e)
    ensures KindOk(fs, e) && WfFs(Core(fs, e))
  {
  }

  lemma WithJumpsTurned(s: Start, fs0: Fs, fs2: Fs, list: seq<nat>, fs3: Fs, d: Exp, b: bool)
    requires Framed(fs0, fs2, []) && From(fs0, [], list + fs2.jpc) && fs2.freereg == fs0.freereg
    requires Turned(s, fs2, [], fs3, d) && IsPendingList(fs2.code, list) && NoDup(list + fs2.jpc)
    ensures Turned(s, fs0, [], fs3, WithJumps(d, list, b))
  {
    hide Framed, WfExp, Settled;
    var c, e := Core(fs3, d), WithJumps(d, list, b);
    WithJumpsWf(s, fs2, list, fs3, d, b);
    FromParts(fs0, list, fs2.jpc);
    FromNothing(fs0);
    FramedTrans(fs0, fs2, c, [], []);
    FromTrans(fs0, fs2, [], [], d.t + d.f + c.jpc);
    FromParts(fs0, d.t + d.f, c.jpc);
    assert forall j :: j in e.t + e.f + c.jpc ==> j in list || j in d.t + d.f || j in c.jpc;
  }

  /** What the jumps of the first operand mean at the end of the second. */
  lemma WithJumpsSem(s: Start, fs2: Fs, list: seq<nat>, fs3: Fs, d: Exp, b: bool)
    requires Turned(s, fs2, [], fs3, d) && IsPendingList(fs2.code, list) && NoDup(list + fs2.jpc) && Begins(s, fs2)
    ensures var e := WithJumps(d, list, b); KindOk(fs3, e) && Core(fs3, e) == Core(fs3, d)
    ensures var e := WithJumps(d, list, b);
      SemOf(s, fs3, e) ==
      match SemOf(s, fs3, d)
      case Outside(j, q) => if j in list then Val(NodeValue(fs2.code, j, q, b), if b then ViaT else ViaF, q) else Outside(j, q)
      case m => m
  {
    hide WfFs, Framed, From, NoDup, PrimSem, KindOk;
    var e := WithJumps(d, list, b);
    WithJumpsWf(s, fs2, list, fs3, d, b);
    KeptPending(fs2.code, Core(fs3, d).code, list);
    PrimSemLists(s, fs3, d, e);
    var o := Sofar(s, Core(fs3, d));
    if o.Exit? {
      assert o.j in e.t <==> o.j in d.t || (b && o.j in list);
      assert o.j in e.f <==> o.j in d.f || (!b && o.j in list);
      if o.j in list {
        assert NodeValue(Core(fs3, d).code, o.j, o.r, b) == NodeValue(fs2.code, o.j, o.r, b);
      }
    } else if o.Fall? {
      assert PrimSem(s, fs3, e, o.r) == PrimSem(s, fs3, d, o.r);
      PrimNotOutside(s, fs3, d, o.r);
    }
  }

  lemma PrimNotOutside(s: Start, fs: Fs, d: Exp, q: Regs)
    requires KindOk(fs, d)
    ensures !PrimSem(s, fs, d, q).Outside?
  {
  }

  lemma PrimSemLists(s: Start, fs: Fs, d: Exp, e: Exp)
    requires KindOk(fs, d) && e.k == d.k && KindOk(fs, e)
    ensures forall q :: PrimSem(s, fs, e, q) == PrimSem(s, fs, d, q)
  {
  }

  /** `and` and `or`. */
  lemma LogicCompiled(s: Start, fs0: Fs, l: Expr, r: Expr, b: bool, fs1: Fs, d: Exp, fs2: Fs, list: seq<nat>, fs3: Fs, d2: Exp, e: Exp)
    requires Begins(s, fs0) && Compiled(s, fs0, l, fs1, d) && LocalsBelow(r, fs0.freereg)
    requires Parted(s, Core(fs1, d), d.t + d.f, fs2, list) && GoesOn(SemOf(s, fs1, d), Sofar(s, fs2), fs2.code, list, b, fs1.freereg)
    requires Compiled(s, fs2, r, fs3, d2) && e == WithJumps(d2, list, b)
    ensures Compiled(s, fs0, if b then EOr(l, r) else EAnd(l, r), fs3, e)
  {
    hide WfFs, Framed, From, NoDup, PrimSem, KindOk, IsPendingList, WfExp, Settled, NodeValue, Run;
    WfKind(fs1, d);
    PartedStart(s, fs0, fs1, d, fs2, list);
    WithJumpsTurned(s, fs0, fs2, list, fs3, d2, b);
    WithJumpsSem(s, fs2, list, fs3, d2, b);
    CoreFree(fs1, d);
    WfKind(fs3, d2);
    LogicComputes(s.p, Sofar(s, fs0), SemOf(s, fs1, d), Sofar(s, fs2), SemOf(s, fs3, d2), SemOf(s, fs3, e), l, r, b, fs2.code, list, fs0.freereg);
  }

  /** The values of `and` and `or`, from those of the operands. */
  lemma LogicComputes(p: Prims, o: Out, m: Sem, o2: Out, m2: Sem, me: Sem, l: Expr, r: Expr, b: bool, code: seq<Instr>, list: seq<nat>, n: nat)
    requires Computes(p, o, m, l, n) && GoesOn(m, o2, code, list, b, n) && Computes(p, o2, m2, r, n) && Honest(m2) && o != Stuck && LocalsBelow(r, n)
    requires me == match m2
      case Outside(j, q) => if j in list then Val(NodeValue(code, j, q, b), if b then ViaT else ViaF, q) else Outside(j, q)
      case x => x
    ensures Computes(p, o, me, if b then EOr(l, r) else EAnd(l, r), n) && Honest(me)
  {
    hide NodeValue;
    if o.Fall? && o2.Fall? {
      AgreeTrans(o.r, m.r, o2.r, n);
      EvalAgree(p, r, o.r, o2.r, n);
    }
  }

  lemma AgreeTrans(a: Regs, b: Regs, c: Regs, n: nat)
    requires Agree(a, b, n) && Agree(b, c, n)
    ensures Agree(a, c, n)
  {
  }

  /** luaK_dischargevars on the second operand. */
  lemma VarsCompiled(s: Start, fs0: Fs, x: Expr, fs: Fs, e: Exp)
    requires Begins(s, fs0) && Compiled(s, fs0, x, fs, e)
    ensures Compiled(s, fs0, x, fs, DischargeVars(e))
  {
    hide WfFs, Framed, From;
    VarsSame(s, fs, e);
  }

  /** Comparisons. */
  lemma RelCompiled(s: Start, fs0: Fs, op: Rel, l: Expr, r: Expr, fs1: Fs, d: Exp, fs2: Fs, d1: Exp, o1: RK, fs3: Fs, d2: Exp, fs: Fs, e: Exp)
    requires WfFs(fs0) && Begins(s, fs0) && Compiled(s, fs0, l, fs1, d) && LocalsBelow(r, fs0.freereg)
    requires WfExp(fs1, d) && OperandOk(s, fs1, d, fs2, d1, o1) && Compiled(s, fs2, r, fs3, d2) && SemOf(s, fs3, d2) != Broken
    requires (fs, e) == CodeComp(fs3, op, d1, d2) && fs.k <= s.ks && fs.maxstack < MAXSTACK
    ensures Compiled(s, fs0, ERel(op, l, r), fs, e)
  {
    hide WfFs, Framed, From, NoDup, PrimSem, KindOk, IsPendingList, CodeComp, Settled, WfExp;
    WfKind(fs1, d);
    var c1, c3 := Core(fs1, d), Core(fs3, d2);
    var n := fs0.freereg;
    CoreFree(fs1, d);
    CoreFree(fs3, d2);
    RelFrames(s, fs0, fs1, d, fs2, fs3, d2);
    WfRegs(fs0);
    var v1 := if SemOf(s, fs1, d).Val? then SemOf(s, fs1, d).v else Nil;
    RelOperand(s, fs2, d1, o1, fs3, d2, r, v1);
    CompOk(s, fs3, op, d1, o1, d2, fs, e, n, v1);
    assert Turned(s, fs0, [], fs, e) by { RelTurned(s, fs0, fs3, d2, fs, e); }
    WfKind(fs, e);
    RelComputes(s, fs0, op, l, r, fs1, d, fs2, fs3, d2, fs, e, o1, v1);
  }

  lemma RelFrames(s: Start, fs0: Fs, fs1: Fs, d: Exp, fs2: Fs, fs3: Fs, d2: Exp)
    requires Turned(s, fs0, [], fs1, d) && Turned(s, fs2, [], fs3, d2)
    requires Framed(Core(fs1, d), fs2, d.t + d.f) && From(Core(fs1, d), [], fs2.jpc)
    ensures Framed(fs0, Core(fs3, d2), []) && From(fs0, [], d2.t + d2.f + Core(fs3, d2).jpc)
    ensures fs3.nactvar == fs0.nactvar == fs2.nactvar
    ensures |fs2.k| <= |fs3.k|
  {
    var c1, c3 := Core(fs1, d), Core(fs3, d2);
    FromParts(fs0, d.t + d.f, c1.jpc);
    FramedTrans(fs0, c1, fs2, [], d.t + d.f);
    assert From(fs0, [], fs2.jpc);
    FromNothing(fs0);
    FramedTrans(fs0, fs2, c3, [], []);
    FromTrans(fs0, fs2, [], [], d2.t + d2.f + c3.jpc);
  }

  /** The first operand keeps its value while the second is computed. */
  lemma RelOperand(s: Start, fs2: Fs, d1: Exp, o1: RK, fs3: Fs, d2: Exp, r: Expr, v1: Value)
    requires s.pc <= |fs2.code| && Sofar(s, fs2) != Stuck
    requires Fixed(fs2, d1, o1) && Compiled(s, fs2, r, fs3, d2) && |fs2.k| <= |fs3.k| && fs3.nactvar == fs2.nactvar
    requires Sofar(s, fs2).Fall? ==> RKValue(s.ks, Sofar(s, fs2).r, o1) == Some(v1)
    ensures Fixed(fs3, d1, o1) && Held(fs3, d1) == Held(fs2, d1) && fs3.freereg == fs2.freereg
    ensures SemOf(s, fs3, d2).Val? ==> RKValue(s.ks, SemOf(s, fs3, d2).r, o1) == Some(v1)
  {
    hide WfExp, Framed, From, PrimSem;
  }

  lemma RelTurned(s: Start, fs0: Fs, fs3: Fs, d2: Exp, fs: Fs, e: Exp)
    requires Framed(fs0, Core(fs3, d2), []) && From(fs0, [], d2.t + d2.f + Core(fs3, d2).jpc)
    requires WfExp(fs, e) && Settled(fs, e) && Framed(Core(fs3, d2), Core(fs, e), d2.t + d2.f) && Core(fs, e).jpc == []
    requires fs.freereg == fs0.freereg && Begins(s, Core(fs, e)) && e.t == [] && e.f == []
    ensures Turned(s, fs0, [], fs, e)
  {
    hide Framed;
    FromParts(fs0, d2.t + d2.f, Core(fs3, d2).jpc);
    FramedTrans(fs0, Core(fs3, d2), Core(fs, e), [], d2.t + d2.f);
    assert e.t + e.f + Core(fs, e).jpc == [];
    FromNothing(fs0);
  }

  lemma RelComputes(s: Start, fs0: Fs, op: Rel, l: Expr, r: Expr, fs1: Fs, d: Exp, fs2: Fs, fs3: Fs, d2: Exp, fs: Fs, e: Exp, o1: RK, v1: Value)
    requires s.pc <= |fs0.code| && Compiled(s, fs0, l, fs1, d) && LocalsBelow(r, fs0.freereg) && fs0.freereg <= fs2.freereg && fs1.freereg == fs0.freereg
    requires s.pc <= |fs2.code| && Operand(s.ks, SemOf(s, fs1, d), Sofar(s, fs2), o1, fs1.freereg) && Compiled(s, fs2, r, fs3, d2)
    requires v1 == if SemOf(s, fs1, d).Val? then SemOf(s, fs1, d).v else Nil
    requires KindOk(fs, e) && s.pc <= |Core(fs, e).code| && Sofar(s, fs0) != Stuck && e.t == [] && e.f == []
    requires Compared(s.p, op, v1, SemOf(s, fs3, d2), SemOf(s, fs, e), fs0.freereg)
    ensures Computes(s.p, Sofar(s, fs0), SemOf(s, fs, e), ERel(op, l, r), fs0.freereg) && Honest(SemOf(s, fs, e))
  {
    hide PrimSem, Framed, From, WfExp, Settled, WfFs, KindOk, Relate;
    WfKind(fs1, d);
    assert Honest(SemOf(s, fs, e)) by { PrimHonest(s, fs, e); }
    if Sofar(s, fs0).Fall? && SemOf(s, fs1, d).Val? {
      var q, q2 := Sofar(s, fs0).r, Sofar(s, fs2).r;
      AgreeTrans(q, SemOf(s, fs1, d).r, q2, fs0.freereg);
      EvalAgree(s.p, r, q, q2, fs0.freereg);
    }
  }

  lemma PrimHonest(s: Start, fs: Fs, e: Exp)
    requires KindOk(fs, e) && s.pc <= |Core(fs, e).code| && e.t == [] && e.f == []
    ensures Honest(SemOf(s, fs, e))
  {
  }

  /** The code that the generator makes for an expression delivers the value of the
      expression. */
  lemma {:induction false} CompileOk(s: Start, fs0: Fs, x: Expr, fs: Fs, e: Exp)
    requires WfFs(fs0) && Begins(s, fs0) && LocalsBelow(x, fs0.nactvar)
    requires (fs, e) == Compile(fs0, x) && fs.k <= s.ks && fs.maxstack < MAXSTACK
    ensures Compiled(s, fs0, x, fs, e)
    decreases x
  {
    hide WfFs, GoIfTrue, GoIfFalse, CodeNot, CodeComp, Exp2RK, Compiled, Parted, GoesOn;
    match x
    case ENot(y) =>
      var (fs1, d) := Compile(fs0, y);
      MonoNot(fs1, d);
      CompileOk(s, fs0, y, fs1, d);
      NotCompiled(s, fs0, y, fs1, d, fs, e);
    case EAnd(l, r) => AndOk(s, fs0, l, r, fs, e);
    case EOr(l, r) => OrOk(s, fs0, l, r, fs, e);
    case ERel(op, l, r) => RelOk(s, fs0, op, l, r, fs, e);
    case _ => CompileLeaf(s, fs0, x, fs, e);
  }

  lemma CompiledFacts(s: Start, fs0: Fs, x: Expr, fs: Fs, e: Exp)
    requires Begins(s, fs0) && Compiled(s, fs0, x, fs, e)
    ensures WfExp(fs, e) && Settled(fs, e) && Begins(s, Core(fs, e)) && Honest(SemOf(s, fs, e)) && SemOf(s, fs, e) != Broken
    ensures Framed(fs0, Core(fs, e), []) && fs.freereg == fs0.freereg && fs.nactvar == fs0.nactvar
  {
    hide WfExp, Settled;
    CoreFree(fs, e);
  }

  lemma PartedFacts(s: Start, c: Fs, own: seq<nat>, r: Fs, list: seq<nat>)
    requires Parted(s, c, own, r, list)
    ensures WfFs(r) && Begins(s, r) && r.nactvar == c.nactvar && r.freereg == c.freereg
  {
    hide WfFs;
  }

  lemma {:induction false} LocalsMono(x: Expr, m: nat, n: nat)
    requires LocalsBelow(x, m) && m <= n
    ensures LocalsBelow(x, n)
  {
    match x
    case ENot(e) => LocalsMono(e, m, n);
    case EAnd(l, r) => LocalsMono(l, m, n); LocalsMono(r, m, n);
    case EOr(l, r) => LocalsMono(l, m, n); LocalsMono(r, m, n);
    case ERel(_, l, r) => LocalsMono(l, m, n); LocalsMono(r, m, n);
    case _ =>
  }

  lemma {:induction false} AndOk(s: Start, fs0: Fs, l: Expr, r: Expr, fs: Fs, e: Exp)
    requires WfFs(fs0) && Begins(s, fs0) && LocalsBelow(EAnd(l, r), fs0.nactvar)
    requires (fs, e) == Compile(fs0, EAnd(l, r)) && fs.k <= s.ks && fs.maxstack < MAXSTACK
    ensures Compiled(s, fs0, EAnd(l, r), fs, e)
    decreases EAnd(l, r), 0
  {
    hide WfFs, GoIfTrue, Compiled, Parted, GoesOn, Begins, Framed;
    var (fs1, d) := Compile(fs0, l);
    var (fs2, d1) := GoIfTrue(fs1, d);
    var (fs3, d2) := Compile(fs2, r);
    MonoGoIf(fs1, d);
    MonoCompile(fs2, r);
    CompileOk(s, fs0, l, fs1, d);
    CompiledFacts(s, fs0, l, fs1, d);
    GoIfTrueOk(s, fs1, d, fs2, d1);
    PartedFacts(s, Core(fs1, d), d.t + d.f, fs2, d1.f);
    CoreFree(fs1, d);
    CompileOk(s, fs2, r, fs3, d2);
    VarsCompiled(s, fs2, r, fs3, d2);
    WfRegs(fs0);
    LocalsMono(r, fs0.nactvar, fs0.freereg);
    LogicCompiled(s, fs0, l, r, false, fs1, d, fs2, d1.f, fs3, DischargeVars(d2), e);
  }

  lemma {:induction false} OrOk(s: Start, fs0: Fs, l: Expr, r: Expr, fs: Fs, e: Exp)
    requires WfFs(fs0) && Begins(s, fs0) && LocalsBelow(EOr(l, r), fs0.nactvar)
    requires (fs, e) == Compile(fs0, EOr(l, r)) && fs.k <= s.ks && fs.maxstack < MAXSTACK
    ensures Compiled(s, fs0, EOr(l, r), fs, e)
    decreases EOr(l, r), 0
  {
    hide WfFs, GoIfFalse, Compiled, Parted, GoesOn, Begins, Framed;
    var (fs1, d) := Compile(fs0, l);
    var (fs2, d1) := GoIfFalse(fs1, d);
    var (fs3, d2) := Compile(fs2, r);
    MonoGoIf(fs1, d);
    MonoCompile(fs2, r);
    CompileOk(s, fs0, l, fs1, d);
    CompiledFacts(s, fs0, l, fs1, d);
    GoIfFalseOk(s, fs1, d, fs2, d1);
    PartedFacts(s, Core(fs1, d), d.t + d.f, fs2, d1.t);
    CoreFree(fs1, d);
    CompileOk(s, fs2, r, fs3, d2);
    VarsCompiled(s, fs2, r, fs3, d2);
    WfRegs(fs0);
    LocalsMono(r, fs0.nactvar, fs0.freereg);
    LogicCompiled(s, fs0, l, r, true, fs1, d, fs2, d1.t, fs3, DischargeVars(d2), e);
  }

  lemma {:induction false} RelOk(s: Start, fs0: Fs, op: Rel, l: Expr, r: Expr, fs: Fs, e: Exp)
    requires WfFs(fs0) && Begins(s, fs0) && LocalsBelow(ERel(op, l, r), fs0.nactvar)
    requires (fs, e) == Compile(fs0, ERel(op, l, r)) && fs.k <= s.ks && fs.maxstack < MAXSTACK
    ensures Compiled(s, fs0, ERel(op, l, r), fs, e)
    decreases ERel(op, l, r), 0
  {
    hide WfFs, CodeComp, Exp2RK, Compiled, Begins, Framed, OperandOk, WfExp;
    var (fs1, d) := Compile(fs0, l);
    var (fs2, d1, o1) := Exp2RK(fs1, d);
    var (fs3, d2) := Compile(fs2, r);
    MonoRK(fs1, d);
    MonoCompile(fs2, r);
    MonoComp(fs3, op, d1, d2);
    CompileOk(s, fs0, l, fs1, d);
    CompiledFacts(s, fs0, l, fs1, d);
    Exp2RKOk(s, fs1, d, fs2, d1, o1);
    WfKind(fs1, d);
    BeginsIn(s, Core(fs1, d));
    OperandFacts(s, fs1, d, fs2, d1, o1);
    CompileOk(s, fs2, r, fs3, d2);
    CompiledFacts(s, fs2, r, fs3, d2);
    WfRegs(fs0);
    LocalsMono(r, fs0.nactvar, fs0.freereg);
    RelCompiled(s, fs0, op, l, r, fs1, d, fs2, d1, o1, fs3, d2, fs, e);
  }

  lemma BeginsIn(s: Start, c: Fs)
    requires Begins(s, c)
    ensures s.pc <= |c.code|
  {
  }

  lemma OperandFacts(s: Start, fs: Fs, e: Exp, r: Fs, e1: Exp, o: RK)
    requires KindOk(fs, e) && s.pc <= |Core(fs, e).code| && OperandOk(s, fs, e, r, e1, o)
    ensures WfFs(r) && Begins(s, r) && r.nactvar == fs.nactvar
  {
    hide WfFs;
    CoreFree(fs, e);
  }
}
