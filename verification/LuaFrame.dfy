/** Compiled code stays inside the stack frame that its function declares: every register
    that an instruction names is below `maxstack`, and `maxstack` is no larger than the
    expression needs. */
module LuaFrame {
  import opened Common
  import opened LuaVm
  import opened LuaCode
  import opened LuaEmit
  import opened LuaCond
  import opened LuaOperand
  import opened LuaCorrect
  import opened LuaMachine

  // ----- the registers of an instruction -----

  predicate OperandBelow(x: RK, n: nat) { x.R? ==> x.i < n }

  /** Every register that the instruction reads or writes is below `n`.  A TESTSET may still
      have no target. */
  predicate Below(i: Instr, n: nat) {
    match i
    case Move(a, b) => a < n && b < n
    case LoadK(a, _) => a < n
    case LoadKX(a) => a < n
    case ExtraArg(_) => true
    case LoadBool(a, _, _) => a < n
    case LoadNil(a, m) => a + m < n
    case Not(a, b) => a < n && b < n
    case Jmp(_) => true
    case Cmp(_, _, x, y) => OperandBelow(x, n) && OperandBelow(y, n)
    case Test(a, _) => a < n
    case TestSet(a, b, _) => (a < n || a == NO_REG) && b < n
    case Return(a) => a < n
  }

  ghost predicate CodeBelow(code: seq<Instr>, n: nat) { forall i :: 0 <= i < |code| ==> Below(code[i], n) }

  /** The function fits into the frame it declares. */
  ghost predicate InFrame(fs: Fs) { CodeBelow(fs.code, fs.maxstack) && fs.nactvar <= fs.freereg <= fs.maxstack }

  /** Both constants that have the same key are in the table. */
  predicate HasTwins(k: seq<Value>) { Num(0.0) in k && Str(ZERO_BYTES) in k }

  /** Constants are added at the end, and none of them twice unless twins are among them. */
  ghost predicate SameConstants(a: seq<Value>, b: seq<Value>) { a <= b && (NoDup(a) && !HasTwins(b) ==> NoDup(b)) }

  /** What changes the code and the constants only. */
  ghost predicate SameStack(a: Fs, b: Fs) {
    b.freereg == a.freereg && b.nactvar == a.nactvar && b.maxstack == a.maxstack && SameConstants(a.k, b.k)
  }

  lemma BelowMore(code: seq<Instr>, m: nat, n: nat)
    requires CodeBelow(code, m) && m <= n
    ensures CodeBelow(code, n)
  {
  }

  lemma PatchBelow(code: seq<Instr>, list: seq<nat>, vtarget: int, reg: nat, dtarget: int, n: nat)
    requires CodeBelow(code, n) && (reg < n || reg == NO_REG)
    ensures CodeBelow(PatchList(code, list, vtarget, reg, dtarget), n)
  {
    forall i | 0 <= i < |code|
      ensures Below(PatchedAt(code, list, vtarget, reg, dtarget, i), n)
    {
      assert Below(code[i], n);
    }
  }

  lemma EmitBelow(fs: Fs, i: Instr)
    requires InFrame(fs) && Below(i, fs.maxstack)
    ensures InFrame(Emit(fs, i)) && SameStack(fs, Emit(fs, i))
  {
    PatchBelow(fs.code, fs.jpc, |fs.code|, NO_REG, |fs.code|, fs.maxstack);
  }

  lemma JumpBelow(fs: Fs)
    requires InFrame(fs)
    ensures InFrame(EmitJump(fs).0) && SameStack(fs, EmitJump(fs).0)
  {
  }

  lemma ConstBelow(fs: Fs, reg: nat, i: nat)
    requires InFrame(fs) && reg < fs.maxstack
    ensures InFrame(EmitK(fs, reg, i)) && SameStack(fs, EmitK(fs, reg, i))
  {
    hide Emit;
    EmitBelow(fs, LoadK(reg, i));
    EmitBelow(fs, LoadKX(reg));
    EmitBelow(Emit(fs, LoadKX(reg)), ExtraArg(i));
  }

  lemma NilBelow(fs: Fs, reg: nat)
    requires InFrame(fs) && reg < fs.maxstack
    ensures InFrame(EmitNil(fs, reg)) && SameStack(fs, EmitNil(fs, reg))
  {
    hide Emit;
    EmitBelow(fs, LoadNil(reg, 0));
    if NilJoins(fs, reg) {
      assert Below(fs.code[|fs.code| - 1], fs.maxstack);
    }
  }

  // ----- expressions to registers -----

  /** The register of the expression, if it is in one, is in the frame. */
  predicate Within(fs: Fs, e: Exp) { (e.k.VNonReloc? ==> e.k.reg < fs.maxstack) && (e.k.VLocal? ==> e.k.reg < fs.maxstack) }

  lemma Discharge2RegBelow(fs: Fs, e: Exp, reg: nat)
    requires InFrame(fs) && Within(fs, e) && reg < fs.maxstack
    ensures InFrame(Discharge2Reg(fs, e, reg).0) && SameStack(fs, Discharge2Reg(fs, e, reg).0)
  {
    hide Emit, EmitNil, EmitK, AddK, CodeBelow;
    NilBelow(fs, reg);
    EmitBelow(fs, LoadBool(reg, true, false));
    EmitBelow(fs, LoadBool(reg, false, false));
    match DischargeVars(e).k
    case VK(i) => ConstBelow(fs, reg, i);
    case VKNum(n) =>
      AddKSmaller(fs, Num(n));
      var (fs1, i) := AddK(fs, Num(n));
      ConstBelow(fs1, reg, i);
    case VReloc(pc) => RelocateBelow(fs, pc, reg);
    case VNonReloc(r) => EmitBelow(fs, Move(reg, r));
    case _ =>
  }

  lemma RelocateBelow(fs: Fs, pc: nat, reg: nat)
    requires InFrame(fs) && reg < fs.maxstack
    ensures InFrame(Relocate(fs, pc, reg)) && SameStack(fs, Relocate(fs, pc, reg))
  {
    if pc < |fs.code| {
      assert Below(fs.code[pc], fs.maxstack);
    }
  }

  lemma BooleansBelow(fs: Fs, reg: nat, jmp: bool)
    requires InFrame(fs) && reg < fs.maxstack
    ensures InFrame(LoadBooleans(fs, reg, jmp).0) && SameStack(fs, LoadBooleans(fs, reg, jmp).0)
  {
    hide Emit, EmitJump, CodeBelow;
    JumpBelow(fs);
    var fs1 := if jmp then fs else EmitJump(fs).0;
    EmitBelow(Label(fs1), LoadBool(reg, false, true));
    var fs2 := Emit(Label(fs1), LoadBool(reg, false, true));
    EmitBelow(Label(fs2), LoadBool(reg, true, false));
  }

  lemma JoinBelow(fs: Fs, t: seq<nat>, f: seq<nat>, reg: nat, jmp: bool)
    requires InFrame(fs) && reg < fs.maxstack
    ensures InFrame(JoinJumps(fs, t, f, reg, jmp)) && SameStack(fs, JoinJumps(fs, t, f, reg, jmp))
  {
    hide LoadBooleans, CodeBelow, NeedValue, PatchList;
    BooleansBelow(fs, reg, jmp);
    var (fs2, pf, pt) :=
      if NeedValue(fs.code, t) || NeedValue(fs.code, f) then LoadBooleans(fs, reg, jmp) else (fs, NO_JUMP, NO_JUMP);
    var final := |fs2.code|;
    PatchBelow(fs2.code, f, final, reg, pf, fs.maxstack);
    PatchBelow(PatchList(fs2.code, f, final, reg, pf), t, final, reg, pt, fs.maxstack);
  }

  lemma Exp2RegBelow(fs: Fs, e: Exp, reg: nat)
    requires InFrame(fs) && Within(fs, e) && reg < fs.maxstack
    ensures InFrame(Exp2Reg(fs, e, reg).0) && SameStack(fs, Exp2Reg(fs, e, reg).0)
  {
    hide Discharge2Reg, JoinJumps, CodeBelow;
    Discharge2RegBelow(fs, e, reg);
    var (fs1, e1) := Discharge2Reg(fs, e, reg);
    JoinBelow(fs1, if e1.k.VJmp? then e1.t + [e1.k.pc] else e1.t, e1.f, reg, e1.k.VJmp?);
  }

  // ----- expressions as compiled -----

  /** What a compiled expression may be: in a register it is a local variable. */
  predicate Home(fs: Fs, e: Exp) {
    && (e.k.VNonReloc? ==> e.k.reg < fs.nactvar) && (e.k.VLocal? ==> e.k.reg < fs.nactvar)
    && (e.k.VK? ==> e.k.i < |fs.k|)
  }

  function Max(a: nat, b: nat): nat { if a > b then a else b }

  /** The frame has grown by no more than `d` registers above those in use. */
  ghost predicate GrownBy(a: Fs, b: Fs, d: nat) {
    InFrame(b) && b.nactvar == a.nactvar && SameConstants(a.k, b.k) && a.maxstack <= b.maxstack <= Max(a.maxstack, a.freereg + d)
  }

  lemma ReserveBelow(fs: Fs)
    requires InFrame(fs)
    ensures InFrame(Reserve(fs)) && GrownBy(fs, Reserve(fs), 1) && fs.freereg < Reserve(fs).maxstack
  {
    BelowMore(fs.code, fs.maxstack, Reserve(fs).maxstack);
  }

  lemma AnyRegBelow(fs: Fs, e: Exp)
    requires InFrame(fs) && Home(fs, e)
    ensures var (r, e1) := Exp2AnyReg(fs, e);
      && GrownBy(fs, r, 1) && e1.k.VNonReloc? && !HasJumps(e1) && r.freereg == fs.freereg + Held(r, e1) && e1.k.reg < r.freereg
      && (Held(r, e1) == 1 ==> e1.k.reg == fs.freereg)
  {
    hide CodeBelow, Exp2Reg, InFrame;
    assert fs.nactvar <= fs.freereg by { InFrameRegs(fs); }
    var d := DischargeVars(e);
    if d.k.VNonReloc? && !HasJumps(d) {
    } else {
      ReserveBelow(fs);
      InFrameRegs(Reserve(fs));
      Exp2RegBelow(Reserve(fs), d, fs.freereg);
      Exp2RegExp(Reserve(fs), d, fs.freereg);
    }
  }

  lemma InFrameRegs(fs: Fs)
    requires InFrame(fs)
    ensures fs.nactvar <= fs.freereg <= fs.maxstack
  {
  }

  lemma OperandBelowFrame(fs: Fs, e: Exp)
    requires InFrame(fs) && Home(fs, e)
    ensures var (r, e1, o) := Exp2RK(fs, e);
      && GrownBy(fs, r, 1) && Fixed(r, e1, o) && r.freereg == fs.freereg + Held(r, e1) && (Held(r, e1) == 1 ==> e1.k.reg == fs.freereg)
      && OperandBelow(o, r.maxstack)
  {
    hide CodeBelow, Exp2AnyReg, AddK;
    AnyRegBelow(fs, e);
    var (fs1, d) := Exp2Val(fs, e);
    if HasJumps(e) {
      InRegister(fs1, d);
    } else {
      assert d == DischargeVars(e) && fs1 == fs;
      AnyRegBelow(fs, d);
      match d.k
      case VNil => AddKSmaller(fs, Nil);
      case VTrue => AddKSmaller(fs, Bool(true));
      case VFalse => AddKSmaller(fs, Bool(false));
      case VKNum(n) =>
        AddKSmaller(fs, Num(n));
        var (fs2, i) := AddK(fs, Num(n));
        AnyRegBelow(fs2, d.(k := VK(i)));
      case _ =>
    }
  }

  lemma InRegister(fs: Fs, e: Exp)
    requires e.k.VNonReloc? && !HasJumps(e)
    ensures Exp2AnyReg(fs, e) == (fs, e)
  {
  }

  lemma AddKSmaller(fs: Fs, v: Value)
    ensures |fs.k| <= MAXINDEXRK ==> AddK(fs, v).1 <= MAXINDEXRK
    ensures SameConstants(fs.k, AddK(fs, v).0.k)
  {
    if NoDup(fs.k) {
      EnteredOnce(fs, v);
    }
  }

  /** A register for a value that is tested or negated, and free again. */
  lemma AnyBelow(fs: Fs, e: Exp)
    requires InFrame(fs) && Home(fs, e) && !e.k.VLocal? && !e.k.VJmp?
    ensures var (r, e1) := Discharge2AnyReg(fs, e); var r1 := FreeExp(r, e1);
      && e1 == e.(k := VNonReloc(RegOf(e1))) && RegOf(e1) < r1.maxstack && GrownBy(fs, r1, 1) && r1.freereg == fs.freereg
  {
    hide CodeBelow, Discharge2Reg, InFrame;
    InFrameRegs(fs);
    if !e.k.VNonReloc? {
      ReserveBelow(fs);
      Discharge2RegBelow(Reserve(fs), e, fs.freereg);
      Discharge2RegExp(Reserve(fs), e, fs.freereg);
      FreeBelow(Discharge2Reg(Reserve(fs), e, fs.freereg).0, fs.freereg);
    }
  }

  lemma FreeBelow(fs: Fs, n: nat)
    requires InFrame(fs) && fs.nactvar <= n <= fs.freereg
    ensures InFrame(fs.(freereg := n))
  {
  }

  lemma Discharge2RegExp(fs: Fs, e: Exp, reg: nat)
    requires !e.k.VLocal? && !e.k.VJmp?
    ensures Discharge2Reg(fs, e, reg).1 == e.(k := VNonReloc(reg))
  {
  }

  lemma CondJumpBelow(fs: Fs, test: Instr)
    requires InFrame(fs) && Below(test, fs.maxstack)
    ensures InFrame(CondJump(fs, test).0) && SameStack(fs, CondJump(fs, test).0)
  {
    hide CodeBelow, Emit, EmitJump;
    EmitBelow(fs, test);
    JumpBelow(Emit(fs, test));
  }

  lemma PopBelow(fs: Fs, pc: nat)
    requires InFrame(fs) && pc < |fs.code| && fs.code[pc].Not?
    ensures InFrame(fs.(code := fs.code[..|fs.code| - 1])) && fs.code[pc].b < fs.maxstack
  {
    assert Below(fs.code[pc], fs.maxstack);
  }

  lemma JumpOnCondBelow(fs: Fs, e: Exp, cond: bool)
    requires InFrame(fs) && Home(fs, e) && !e.k.VLocal? && !e.k.VJmp?
    ensures var r := JumpOnCond(fs, e, cond).0; GrownBy(fs, r, 1) && r.freereg == fs.freereg
  {
    hide CodeBelow, Discharge2AnyReg, CondJump, FreeExp;
    if e.k.VReloc? && e.k.pc < |fs.code| && fs.code[e.k.pc].Not? {
      PopBelow(fs, e.k.pc);
      CondJumpBelow(fs.(code := fs.code[..|fs.code| - 1]), Test(fs.code[e.k.pc].b, !cond));
    } else {
      AnyBelow(fs, e);
      var (r, e1) := Discharge2AnyReg(fs, e);
      CondJumpBelow(FreeExp(r, e1), TestSet(NO_REG, RegOf(e1), cond));
    }
  }

  lemma InvertBelow(fs: Fs, pc: nat)
    requires InFrame(fs)
    ensures InFrame(InvertJump(fs, pc)) && SameStack(fs, InvertJump(fs, pc))
  {
    if 0 < pc <= |fs.code| {
      assert Below(fs.code[pc - 1], fs.maxstack);
    }
  }

  lemma GoIfBelow(fs: Fs, e: Exp)
    requires InFrame(fs) && Home(fs, e)
    ensures var r := GoIfTrue(fs, e).0; GrownBy(fs, r, 1) && r.freereg == fs.freereg
    ensures var r := GoIfFalse(fs, e).0; GrownBy(fs, r, 1) && r.freereg == fs.freereg
  {
    hide CodeBelow, JumpOnCond, InvertJump;
    var d := DischargeVars(e);
    if d.k.VJmp? {
      InvertBelow(fs, d.k.pc);
    } else {
      JumpOnCondBelow(fs, d, false);
      JumpOnCondBelow(fs, d, true);
    }
  }

  lemma DropBelow(code: seq<Instr>, list: seq<nat>, n: nat)
    requires CodeBelow(code, n)
    ensures CodeBelow(DropValues(code, list), n)
  {
    forall i | 0 <= i < |code|
      ensures Below(DropValues(code, list)[i], n)
    {
      assert Below(code[i], n);
    }
  }

  lemma FlipBelow(fs: Fs, e: Exp)
    requires InFrame(fs) && Home(fs, e) && !e.k.VLocal?
    ensures var (r, e1) := FlipKind(fs, e); GrownBy(fs, r, 1) && r.freereg == fs.freereg && !e1.k.VNonReloc? && !e1.k.VLocal? && !e1.k.VK?
  {
    hide CodeBelow, Discharge2AnyReg, InvertJump, Emit, FreeExp;
    match e.k
    case VJmp(j) => InvertBelow(fs, j);
    case VReloc(_) => NegateBelow(fs, e);
    case VNonReloc(_) => NegateBelow(fs, e);
    case _ =>
  }

  lemma NegateBelow(fs: Fs, e: Exp)
    requires InFrame(fs) && Home(fs, e) && (e.k.VReloc? || e.k.VNonReloc?)
    ensures var (r, e1) := Discharge2AnyReg(fs, e); var r2 := Emit(FreeExp(r, e1), Not(0, RegOf(e1)));
      GrownBy(fs, r2, 1) && r2.freereg == fs.freereg
  {
    hide CodeBelow, Discharge2AnyReg, Emit, FreeExp;
    AnyBelow(fs, e);
    var (r, e1) := Discharge2AnyReg(fs, e);
    EmitBelow(FreeExp(r, e1), Not(0, RegOf(e1)));
  }

  lemma NotBelow(fs: Fs, e: Exp)
    requires InFrame(fs) && Home(fs, e)
    ensures var (r, e1) := CodeNot(fs, e); GrownBy(fs, r, 1) && r.freereg == fs.freereg && Home(r, e1)
  {
    hide CodeBelow, FlipKind, DropValues;
    var d := DischargeVars(e);
    FlipBelow(fs, d);
    var (fs1, e1) := FlipKind(fs, d);
    DropBelow(fs1.code, e1.t, fs1.maxstack);
    DropBelow(DropValues(fs1.code, e1.t), e1.f, fs1.maxstack);
  }

  /** codecomp, when its first operand is already in place. */
  lemma CompBelow(fs: Fs, op: Rel, e1: Exp, o1: RK, e2: Exp, n: nat)
    requires InFrame(fs) && Fixed(fs, e1, o1) && Home(fs, e2) && fs.nactvar <= n && fs.freereg == n + Held(fs, e1)
    ensures var (r, e) := CodeComp(fs, op, e1, e2); GrownBy(fs, r, 1) && r.freereg == n && e.k.VJmp?
  {
    hide CodeBelow, Exp2RK, CondJump, FreeExp, Comparison;
    FixedStays(fs, e1, o1);
    OperandBelowFrame(fs, e2);
    var (fs2, e2', o2) := Exp2RK(fs, e2);
    FreeBoth(fs, e1, fs2, e2', n);
    FreeBelow(fs2, n);
    ComparisonBelow(op, o1, o2, fs2.maxstack);
    CondJumpBelow(fs2.(freereg := n), Comparison(op, o1, o2));
  }

  lemma ComparisonBelow(op: Rel, o1: RK, o2: RK, n: nat)
    requires OperandBelow(o1, n) && OperandBelow(o2, n)
    ensures Below(Comparison(op, o1, o2), n)
  {
  }

  // ----- every expression -----

  /** The registers that an expression needs at most: the left operand of a comparison is held
      while the right one is computed. */
  function Depth(x: Expr): (d: nat)
    ensures d >= 1
  {
    match x
    case ENot(e) => Depth(e)
    case EAnd(l, r) => Max(Depth(l), Depth(r))
    case EOr(l, r) => Max(Depth(l), Depth(r))
    case ERel(_, l, r) => Max(Depth(l), 1 + Depth(r))
    case _ => 1
  }

  lemma GrownTrans(a: Fs, b: Fs, c: Fs, x: nat, y: nat, d: nat)
    requires GrownBy(a, b, x) && GrownBy(b, c, y) && x <= d && b.freereg + y <= a.freereg + d
    ensures GrownBy(a, c, d)
  {
    hide InFrame;
  }

  /** From a function that fits into its frame, compiling any expression leads to one that
      does, and the frame grows by no more than the expression needs. */
  lemma {:induction false} CompileBelow(fs: Fs, x: Expr)
    requires InFrame(fs) && LocalsBelow(x, fs.nactvar)
    ensures var (r, e) := Compile(fs, x); GrownBy(fs, r, Depth(x)) && r.freereg == fs.freereg && Home(r, e)
    decreases x, 0
  {
    hide CodeBelow, InFrame, GrownBy, Exp2RK, GoIfTrue, GoIfFalse, CodeNot, CodeComp;
    match x
    case ENot(e) =>
      CompileBelow(fs, e);
      var (fs1, d) := Compile(fs, e);
      GrownFacts(fs, fs1, Depth(e));
      NotBelow(fs1, d);
      GrownTrans(fs, fs1, CodeNot(fs1, d).0, Depth(e), 1, Depth(x));
    case EAnd(l, r) =>
      CompileBelow(fs, l);
      var (fs1, d) := Compile(fs, l);
      GrownFacts(fs, fs1, Depth(l));
      GoIfBelow(fs1, d);
      AndOrBelow(fs, fs1, GoIfTrue(fs1, d).0, l, r);
    case EOr(l, r) =>
      CompileBelow(fs, l);
      var (fs1, d) := Compile(fs, l);
      GrownFacts(fs, fs1, Depth(l));
      GoIfBelow(fs1, d);
      AndOrBelow(fs, fs1, GoIfFalse(fs1, d).0, l, r);
    case ERel(op, l, r) =>
      CompileBelow(fs, l);
      RelBelow(fs, op, l, r, Compile(fs, l).0, Compile(fs, l).1);
    case _ => LeafBelow(fs, x);
  }

  lemma GrownFacts(a: Fs, b: Fs, d: nat)
    requires GrownBy(a, b, d)
    ensures InFrame(b) && b.nactvar == a.nactvar && a.k <= b.k
  {
  }

  lemma LeafBelow(fs: Fs, x: Expr)
    requires InFrame(fs) && LocalsBelow(x, fs.nactvar) && !x.ENot? && !x.EAnd? && !x.EOr? && !x.ERel?
    ensures var (r, e) := Compile(fs, x); GrownBy(fs, r, Depth(x)) && r.freereg == fs.freereg && Home(r, e)
  {
    hide CodeBelow, AddK;
    if x.EStr? {
      AddKSmaller(fs, Str(x.s));
    }
  }

  /** The right operand of `and` and `or`. */
  lemma {:induction false} AndOrBelow(fs: Fs, fs1: Fs, fs2: Fs, l: Expr, r: Expr)
    requires GrownBy(fs, fs1, Depth(l)) && fs1.freereg == fs.freereg && GrownBy(fs1, fs2, 1) && fs2.freereg == fs.freereg
    requires LocalsBelow(r, fs.nactvar)
    ensures var (fs3, d2) := Compile(fs2, r);
      GrownBy(fs, fs3, Max(Depth(l), Depth(r))) && fs3.freereg == fs.freereg && Home(fs3, d2) && Home(fs3, DischargeVars(d2))
    decreases r, 1
  {
    hide CodeBelow, InFrame, GrownBy, Compile;
    var d := Max(Depth(l), Depth(r));
    GrownFacts(fs, fs1, Depth(l));
    GrownFacts(fs1, fs2, 1);
    GrownTrans(fs, fs1, fs2, Depth(l), 1, d);
    CompileBelow(fs2, r);
    GrownTrans(fs, fs2, Compile(fs2, r).0, d, Depth(r), d);
  }

  lemma {:induction false} RelBelow(fs: Fs, op: Rel, l: Expr, r: Expr, fs1: Fs, d: Exp)
    requires GrownBy(fs, fs1, Depth(l)) && fs1.freereg == fs.freereg && Home(fs1, d) && (fs1, d) == Compile(fs, l)
    requires LocalsBelow(r, fs.nactvar)
    ensures var (res, e) := Compile(fs, ERel(op, l, r)); GrownBy(fs, res, Depth(ERel(op, l, r))) && res.freereg == fs.freereg && Home(res, e)
    decreases r, 1
  {
    hide CodeBelow, InFrame, GrownBy, Exp2RK, CodeComp;
    var n := Depth(ERel(op, l, r));
    GrownFacts(fs, fs1, Depth(l));
    InFrameRegs(fs1);
    OperandBelowFrame(fs1, d);
    var (fs2, d1, o1) := Exp2RK(fs1, d);
    GrownFacts(fs1, fs2, 1);
    GrownTrans(fs, fs1, fs2, Depth(l), 1, n);
    CompileBelow(fs2, r);
    var (fs3, d2) := Compile(fs2, r);
    GrownFacts(fs2, fs3, Depth(r));
    GrownTrans(fs, fs2, fs3, n, Depth(r), n);
    CompBelow(fs3, op, d1, o1, d2, fs.freereg);
    GrownTrans(fs, fs3, CodeComp(fs3, op, d1, d2).0, n, 1, n);
  }

  // ----- whole functions -----

  /** Storing any expression into a register of the frame keeps the code in the frame. */
  lemma StoreInFrame(fs: Fs, x: Expr, target: nat)
    requires InFrame(fs) && LocalsBelow(x, fs.nactvar) && target < fs.maxstack
    ensures var r := StoreExpr(fs, x, target); GrownBy(fs, r, Depth(x)) && r.freereg == fs.freereg
  {
    hide CodeBelow, Compile, Exp2Reg;
    CompileBelow(fs, x);
    var (fs1, e) := Compile(fs, x);
    assert FreeExp(fs1, e) == fs1;
    Exp2RegBelow(fs1, e, target);
  }

  /** For every expression over `n` parameters: each register that the code of the function
      names is below the stack size it declares, and that is no more than the two registers
      every function gets or what the expression needs above the parameters; no constant is in
      the table twice, unless the number 0 and the string of its bytes both are. */
  lemma ReturnInFrame(n: nat, x: Expr)
    requires LocalsBelow(x, n)
    ensures var fs := ReturnExpr(n, x);
      (forall i :: 0 <= i < |fs.code| ==> Below(fs.code[i], fs.maxstack)) && n <= fs.maxstack <= Max(2, n + Depth(x)) && (NoDup(fs.k) || HasTwins(fs.k))
  {
    hide Compile, Exp2AnyReg, Emit;
    var fs0 := NewFunction(n);
    CompileBelow(fs0, x);
    var (fs1, e) := Compile(fs0, x);
    AnyRegBelow(fs1, e);
    var (fs2, e2) := Exp2AnyReg(fs1, e);
    EmitBelow(fs2, Return(RegOf(e2)));
  }

  // ----- the machine in the frame -----

  /** The registers from `n` on are the same. */
  ghost predicate SameAbove(q: Regs, r: Regs, n: nat) { forall i :: i >= n ==> Get(r, i) == Get(q, i) }

  /** Two machines at the same position, with the same frame of `n` registers. */
  ghost predicate SameHere(a: State, b: State, n: nat) {
    if a.Here? then b.Here? && b.pc == a.pc && Agree(a.r, b.r, n) else b == a
  }

  lemma SetFrame(q: Regs, r: Regs, i: nat, v: Value, n: nat)
    requires Agree(q, r, n) && (i < n || i == NO_REG)
    ensures Agree(Set(q, i, v), Set(r, i, v), n) && SameAbove(q, Set(q, i, v), n)
  {
    forall k | 0 <= k < n
      ensures Get(Set(r, i, v), k) == Get(Set(q, i, v), k)
    {
      assert Get(r, k) == Get(q, k);
    }
  }

  lemma {:induction false} NilsFrame(q: Regs, r: Regs, a: nat, m: nat, n: nat)
    requires Agree(q, r, n) && a + m < n
    ensures Agree(SetNils(q, a, m), SetNils(r, a, m), n) && SameAbove(q, SetNils(q, a, m), n)
    decreases m
  {
    hide Set;
    SetFrame(q, r, a, Nil, n);
    if m > 0 {
      NilsFrame(Set(q, a, Nil), Set(r, a, Nil), a + 1, m - 1, n);
    }
  }

  /** One instruction reads and writes registers of the frame only. */
  lemma CycleFrame(p: Prims, ks: seq<Value>, code: seq<Instr>, a: State, b: State, n: nat)
    requires CodeBelow(code, n) && SameHere(a, b, n)
    ensures var c := Cycle(p, ks, code, a);
      SameHere(c, Cycle(p, ks, code, b), n) && (a.Here? && c.Here? ==> SameAbove(a.r, c.r, n))
  {
    hide Set, SetNils, Compare;
    if a.Here? && 0 <= a.pc < |code| {
      var i := code[a.pc];
      assert Below(i, n);
      match i
      case Move(x, y) => SetFrame(a.r, b.r, x, Get(a.r, y), n);
      case LoadK(x, bx) => SetFrame(a.r, b.r, x, if bx < |ks| then ks[bx] else Nil, n);
      case LoadKX(x) =>
        var k := if a.pc + 1 < |code| && code[a.pc + 1].ExtraArg? then code[a.pc + 1].ax else 0;
        SetFrame(a.r, b.r, x, if k < |ks| then ks[k] else Nil, n);
      case LoadBool(x, v, _) => SetFrame(a.r, b.r, x, Bool(v), n);
      case LoadNil(x, m) => NilsFrame(a.r, b.r, x, m, n);
      case Not(x, y) => SetFrame(a.r, b.r, x, Bool(!Truthy(Get(a.r, y))), n);
      case TestSet(x, y, _) => SetFrame(a.r, b.r, x, Get(a.r, y), n);
      case _ =>
    }
  }

  lemma {:induction false} CyclesFrame(p: Prims, ks: seq<Value>, code: seq<Instr>, a: State, b: State, n: nat, steps: nat)
    requires CodeBelow(code, n) && SameHere(a, b, n)
    ensures var c := Cycles(p, ks, code, a, steps);
      SameHere(c, Cycles(p, ks, code, b, steps), n) && (a.Here? && c.Here? ==> SameAbove(a.r, c.r, n))
    decreases steps
  {
    hide Cycle, CodeBelow;
    if steps > 0 {
      CycleFrame(p, ks, code, a, b, n);
      var a1 := Cycle(p, ks, code, a);
      CyclesFrame(p, ks, code, a1, Cycle(p, ks, code, b), n, steps - 1);
      if !a1.Here? {
        Stopped(p, ks, code, a1, steps - 1);
      }
    }
  }

  lemma {:induction false} Stopped(p: Prims, ks: seq<Value>, code: seq<Instr>, s: State, steps: nat)
    requires !s.Here?
    ensures Cycles(p, ks, code, s, steps) == s
    decreases steps
  {
    if steps > 0 {
      Stopped(p, ks, code, s, steps - 1);
    }
  }

  /** The stack size that a compiled function declares is enough: however far it runs, no
      register outside the frame is written, and what is there makes no difference. */
  lemma FrameSuffices(p: Prims, n: nat, x: Expr, q: Regs, r: Regs, steps: nat)
    requires LocalsBelow(x, n) && Agree(q, r, ReturnExpr(n, x).maxstack)
    ensures var fs := ReturnExpr(n, x);
      var (a, b) := (Cycles(p, fs.k, fs.code, Here(0, q), steps), Cycles(p, fs.k, fs.code, Here(0, r), steps));
      SameHere(a, b, fs.maxstack) && (a.Here? ==> SameAbove(q, a.r, fs.maxstack))
  {
    hide ReturnExpr, Cycles;
    ReturnInFrame(n, x);
    var fs := ReturnExpr(n, x);
    CyclesFrame(p, fs.k, fs.code, Here(0, q), Here(0, r), fs.maxstack, steps);
  }
}
