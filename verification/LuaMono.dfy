/** Constants, stack size and code only grow while an expression is compiled. */
module LuaMono {
  import opened Common
  import opened LuaVm
  import opened LuaCode
  import opened LuaJumpList

  ghost predicate Mono(a: Fs, b: Fs) { a.k <= b.k && a.maxstack <= b.maxstack && |a.code| <= |b.code| }

  /** A function that can be compiled: it needs few registers, and no jump is too long. */
  predicate Small(fs: Fs) { fs.maxstack < MAXSTACK && |fs.code| < MAXARG_sBx }

  lemma MonoDischarge(fs: Fs, e: Exp, reg: nat)
    ensures Mono(fs, Discharge2Reg(fs, e, reg).0)
  {
  }

  lemma MonoExp2Reg(fs: Fs, e: Exp, reg: nat)
    ensures Mono(fs, Exp2Reg(fs, e, reg).0)
  {
    hide Discharge2Reg, JoinJumps;
    MonoDischarge(fs, e, reg);
    var (fs1, e1) := Discharge2Reg(fs, e, reg);
    var t := if e1.k.VJmp? then e1.t + [e1.k.pc] else e1.t;
    MonoJoin(fs1, t, e1.f, reg, e1.k.VJmp?);
  }

  lemma MonoJoin(fs: Fs, t: seq<nat>, f: seq<nat>, reg: nat, jmp: bool)
    ensures Mono(fs, JoinJumps(fs, t, f, reg, jmp))
  {
  }

  lemma MonoAnyReg(fs: Fs, e: Exp)
    ensures Mono(fs, Exp2AnyReg(fs, e).0)
  {
    hide Exp2Reg;
    var d := DischargeVars(e);
    assert DischargeVars(d) == d;
    if e.k.VNonReloc? || e.k.VLocal? {
      MonoExp2Reg(fs, d, d.k.reg);
    }
    var fs1 := FreeExp(fs, d);
    MonoExp2Reg(Reserve(fs1), d, fs1.freereg);
  }

  lemma MonoRK(fs: Fs, e: Exp)
    ensures Mono(fs, Exp2RK(fs, e).0)
  {
    hide Exp2AnyReg, AddK;
    MonoAnyReg(fs, e);
    var (fs1, d) := Exp2Val(fs, e);
    MonoAnyReg(fs1, d);
    if d.k.VKNum? {
      var (fs2, i) := AddK(fs1, Num(d.k.n));
      MonoAnyReg(fs2, d.(k := VK(i)));
    }
  }

  lemma MonoFlip(fs: Fs, e: Exp)
    ensures Mono(fs, Discharge2AnyReg(fs, e).0)
  {
    hide Discharge2Reg;
    MonoDischarge(Reserve(fs), e, fs.freereg);
  }

  lemma MonoGoIf(fs: Fs, e: Exp)
    ensures Mono(fs, GoIfTrue(fs, e).0) && Mono(fs, GoIfFalse(fs, e).0)
  {
    hide Discharge2AnyReg;
    MonoFlip(fs, DischargeVars(e));
  }

  lemma MonoNot(fs: Fs, e: Exp)
    ensures Mono(fs, CodeNot(fs, e).0)
  {
    hide Discharge2AnyReg;
    MonoFlip(fs, DischargeVars(e));
  }

  lemma MonoComp(fs: Fs, op: Rel, e1: Exp, e2: Exp)
    ensures Mono(fs, CodeComp(fs, op, e1, e2).0) && Mono(Exp2RK(fs, e1).0, CodeComp(fs, op, e1, e2).0)
    ensures Mono(Exp2RK(Exp2RK(fs, e1).0, e2).0, CodeComp(fs, op, e1, e2).0)
  {
    hide Exp2RK;
    MonoRK(fs, e1);
    MonoRK(Exp2RK(fs, e1).0, e2);
  }

  lemma {:induction false} MonoCompile(fs: Fs, x: Expr)
    ensures Mono(fs, Compile(fs, x).0)
    decreases x
  {
    hide GoIfTrue, GoIfFalse, CodeNot, CodeComp, Exp2RK;
    match x
    case ENot(e) =>
      MonoCompile(fs, e);
      var (fs1, d) := Compile(fs, e);
      MonoNot(fs1, d);
    case EAnd(l, r) =>
      MonoCompile(fs, l);
      var (fs1, d) := Compile(fs, l);
      MonoGoIf(fs1, d);
      MonoCompile(GoIfTrue(fs1, d).0, r);
    case EOr(l, r) =>
      MonoCompile(fs, l);
      var (fs1, d) := Compile(fs, l);
      MonoGoIf(fs1, d);
      MonoCompile(GoIfFalse(fs1, d).0, r);
    case ERel(op, l, r) =>
      MonoCompile(fs, l);
      var (fs1, d) := Compile(fs, l);
      MonoRK(fs1, d);
      var (fs2, d1, _) := Exp2RK(fs1, d);
      MonoCompile(fs2, r);
      var (fs3, d2) := Compile(fs2, r);
      MonoComp(fs3, op, d1, d2);
    case _ =>
  }

  /** Targets that every jump of code of the given length reaches. */
  predicate Near(length: nat, vtarget: int, dtarget: int) {
    length < MAXARG_sBx && -1 <= vtarget <= length && -1 <= dtarget <= length
  }

  // ----- if the result is small, so are the states on the way to it -----

  lemma EmitSize(fs: Fs, i: Instr)
    ensures |Emit(fs, i).code| == |fs.code| + 1 && Emit(fs, i).maxstack == fs.maxstack
  {
  }

  lemma JoinSize(fs: Fs, t: seq<nat>, f: seq<nat>, reg: nat, jmp: bool)
    ensures var r := JoinJumps(fs, t, f, reg, jmp); var needs := NeedValue(fs.code, t) || NeedValue(fs.code, f);
      r.maxstack == fs.maxstack && |r.code| == |fs.code| + if needs then if jmp then 2 else 3 else 0
  {
  }

  lemma RegParts(fs: Fs, e: Exp, reg: nat)
    ensures Small(Exp2Reg(fs, e, reg).0) ==> Small(Discharge2Reg(fs, e, reg).0)
  {
    hide Discharge2Reg, JoinJumps;
    var (fs1, e1) := Discharge2Reg(fs, e, reg);
    var t := if e1.k.VJmp? then e1.t + [e1.k.pc] else e1.t;
    MonoJoin(fs1, t, e1.f, reg, e1.k.VJmp?);
  }

  lemma NextRegParts(fs: Fs, e: Exp)
    ensures Small(Exp2NextReg(fs, e).0) ==> Small(Reserve(FreeExp(fs, DischargeVars(e))))
  {
    hide Exp2Reg;
    var fs1 := FreeExp(fs, DischargeVars(e));
    MonoExp2Reg(Reserve(fs1), DischargeVars(e), fs1.freereg);
  }

  lemma RKParts(fs: Fs, e: Exp)
    ensures Small(Exp2RK(fs, e).0) ==> Small(Exp2Val(fs, e).0)
  {
    hide Exp2AnyReg, AddK;
    var (fs1, d) := Exp2Val(fs, e);
    MonoAnyReg(fs1, d);
    if d.k.VKNum? {
      var (fs2, i) := AddK(fs1, Num(d.k.n));
      MonoAnyReg(fs2, d.(k := VK(i)));
    }
  }

  lemma ForkSize(fs: Fs, e: Exp, cond: bool)
    ensures var r := JumpOnCond(fs, e, cond).0;
      if e.k.VReloc? && e.k.pc < |fs.code| && fs.code[e.k.pc].Not? then |r.code| == |fs.code| + 1
      else var fs1 := Discharge2AnyReg(fs, e).0; |r.code| == |fs1.code| + 2 && r.maxstack == fs1.maxstack
  {
    hide Discharge2AnyReg;
  }

  lemma FlipSize(fs: Fs, e: Exp)
    requires !e.k.VNil? && !e.k.VFalse? && !e.k.VK? && !e.k.VKNum? && !e.k.VTrue? && !e.k.VJmp?
    ensures var r, fs1 := FlipKind(fs, e).0, Discharge2AnyReg(fs, e).0;
      |r.code| == |fs1.code| + 1 && r.maxstack == fs1.maxstack
  {
    hide Discharge2AnyReg;
  }

  lemma NotSize(fs: Fs, e: Exp)
    ensures Small(CodeNot(fs, e).0) ==> Small(FlipKind(fs, DischargeVars(e)).0)
  {
    hide FlipKind;
  }

  lemma CompSize(fs: Fs, op: Rel, e1: Exp, e2: Exp)
    ensures var r, fs1 := CodeComp(fs, op, e1, e2).0, Exp2RK(fs, e1).0; var fs2 := Exp2RK(fs1, e2).0;
      Small(r) ==> Small(fs1) && Small(fs2) && |fs2.code| + 2 < MAXARG_sBx
  {
    hide Exp2RK;
    var fs1 := Exp2RK(fs, e1).0;
    MonoRK(fs1, e2);
  }
}
