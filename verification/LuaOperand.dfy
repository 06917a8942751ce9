/** Operands: luaK_exp2RK and codecomp. */
module LuaOperand {
  import opened Common
  import opened LuaVm
  import opened LuaCode
  import opened LuaEmit
  import opened LuaSem
  import opened LuaJoin
  import opened LuaCond
  import opened LuaNot

  /** A descriptor that is an operand as it is. */
  predicate Fixed(fs: Fs, e: Exp, o: RK) {
    && e.t == [] && e.f == []
    && match e.k
       case VK(i) => o == K(i) && i <= MAXINDEXRK && i < |fs.k|
       case VNonReloc(x) => o == R(x) && x < fs.freereg
       case _ => false
  }

  /** The registers that an operand occupies. */
  function Held(fs: Fs, e: Exp): nat { if e.k.VNonReloc? && e.k.reg >= fs.nactvar then 1 else 0 }

  /** The run ends here with the value in the operand. */
  ghost predicate Operand(ks: seq<Value>, m: Sem, o: Out, x: RK, n: nat) {
    match m
    case Val(v, _, q) => o.Fall? && Agree(q, o.r, n) && RKValue(ks, o.r, x) == Some(v)
    case Outside(j, q) => o == Exit(j, q)
    case Fails => o == Err
    case Broken => true
  }

  ghost predicate OperandOk(s: Start, fs: Fs, e: Exp, r: Fs, e1: Exp, o: RK)
    requires KindOk(fs, e) && s.pc <= |Core(fs, e).code|
  {
    var c := Core(fs, e);
    && WfFs(r) && Framed(c, r, e.t + e.f) && From(c, [], r.jpc) && Begins(s, r)
    && Fixed(r, e1, o) && r.freereg == fs.freereg + Held(r, e1) && (Held(r, e1) == 1 ==> e1.k.reg == fs.freereg)
    && Operand(s.ks, SemOf(s, fs, e), Sofar(s, r), o, fs.freereg)
  }

  /** luaK_exp2nextreg. */
  lemma NextRegOk(s: Start, fs: Fs, e: Exp, r: Fs, e1: Exp)
    requires WfExp(fs, e) && !e.k.VLocal? && Settled(fs, e) && Begins(s, Core(fs, e)) && SemOf(s, fs, e) != Broken
    requires (r, e1) == Exp2NextReg(fs, e) && r.k <= s.ks && r.maxstack < MAXSTACK
    ensures OperandOk(s, fs, e, r, e1, R(fs.freereg)) && e1 == Exp(VNonReloc(fs.freereg), [], [])
  {
    hide WfFs, Framed, From, Exp2Reg, KindOk, PrimSem, IsPendingList, NoDup;
    var fs0, c := Reserve(fs), Core(fs, e);
    assert (r, e1) == Exp2Reg(fs0, e, fs.freereg);
    Exp2RegExp(fs0, e, fs.freereg);
    ReserveWf(s, fs, e);
    ReserveSem(s, fs, e);
    Exp2RegStack(fs0, e, fs.freereg);
    Exp2RegDelivers(s, fs0, e, fs.freereg, r);
    ReserveFrom(c, r.jpc);
    ReserveFramed(c);
    FramedWeaken(c, Reserve(c), [], e.t + e.f);
    FromOwn(c, e.t + e.f);
    FramedTrans(c, Reserve(c), r, e.t + e.f, e.t + e.f);
    FramedLength(c, r, e.t + e.f);
    WfRegs(c);
  }

  lemma Exp2RegExp(fs: Fs, e: Exp, reg: nat)
    ensures Exp2Reg(fs, e, reg).1 == Exp(VNonReloc(reg), [], [])
  {
  }

  lemma Exp2RegStack(fs: Fs, e: Exp, reg: nat)
    ensures Exp2Reg(fs, e, reg).0.maxstack == fs.maxstack
  {
  }

  lemma ReserveSem(s: Start, fs: Fs, e: Exp)
    requires WfExp(fs, e) && Begins(s, Core(fs, e)) && KindOk(Reserve(fs), e) && Core(Reserve(fs), e) == Reserve(Core(fs, e))
    ensures SemOf(s, Reserve(fs), e) == SemOf(s, fs, e)
  {
    assert Sofar(s, Core(Reserve(fs), e)) == Sofar(s, Core(fs, e));
    assert forall q :: PrimSem(s, Reserve(fs), e, q) == PrimSem(s, fs, e, q);
  }

  /** luaK_exp2anyreg as an operand. */
  lemma AnyRKOk(s: Start, fs: Fs, e: Exp, r: Fs, e1: Exp, o: RK)
    requires WfExp(fs, e) && !e.k.VLocal? && Settled(fs, e) && Begins(s, Core(fs, e)) && SemOf(s, fs, e) != Broken
    requires (r, e1, o) == AnyRK(fs, e) && r.k <= s.ks && r.maxstack < MAXSTACK
    ensures OperandOk(s, fs, e, r, e1, o)
  {
    hide Exp2NextReg, PrimSem;
    if e.k.VNonReloc? && !HasJumps(e) {
      hide WfFs;
      LocalOperand(s, fs, e);
    } else {
      hide WfFs, KindOk, OperandOk;
      NextRegOk(s, fs, e, r, e1);
    }
  }

  lemma LocalOperand(s: Start, fs: Fs, e: Exp)
    requires WfExp(fs, e) && e.k.VNonReloc? && !HasJumps(e) && Settled(fs, e) && Begins(s, Core(fs, e))
    ensures OperandOk(s, fs, e, fs, e, R(e.k.reg))
  {
    FramedSelf(fs);
    FramedWeaken(fs, fs, [], e.t + e.f);
  }

  /** A constant needs no code. */
  lemma ConstOperand(s: Start, fs: Fs, e: Exp, v: Value, r: Fs, i: nat)
    requires WfExp(fs, e) && !HasJumps(e) && Begins(s, fs) && (e.k.VNil? || e.k.VTrue? || e.k.VFalse? || e.k.VKNum? || e.k.VK?)
    requires PrimValue(fs, e, map[]) == v
    requires r == fs.(k := r.k) && fs.k <= r.k <= s.ks && i < |r.k| && r.k[i] == v && i <= MAXINDEXRK
    ensures OperandOk(s, fs, e, r, e.(k := VK(i)), K(i))
  {
    assert Sofar(s, r) == Sofar(s, fs);
    assert WfFs(r);
    if Sofar(s, fs).Fall? {
      PrimSemValue(s, fs, e, Sofar(s, fs).r);
      assert PrimSem(s, fs, e, Sofar(s, fs).r).v == v;
      assert s.ks[i] == v;
    }
  }

  lemma AddKSmall(fs: Fs, v: Value)
    requires |fs.k| <= MAXINDEXRK
    ensures AddK(fs, v).1 <= MAXINDEXRK
  {
  }

  lemma ConstRKOk(s: Start, fs: Fs, e: Exp, v: Value, r: Fs, e1: Exp, o: RK)
    requires WfExp(fs, e) && !HasJumps(e) && Begins(s, fs) && (e.k.VNil? || e.k.VTrue? || e.k.VFalse?) && PrimValue(fs, e, map[]) == v
    requires SemOf(s, fs, e) != Broken
    requires (r, e1, o) == ConstRK(fs, e, v) && r.k <= s.ks && r.maxstack < MAXSTACK
    ensures OperandOk(s, fs, e, r, e1, o)
  {
    hide WfFs, OperandOk, AnyRK;
    if |fs.k| <= MAXINDEXRK {
      AddKSmall(fs, v);
      ConstOperand(s, fs, e, v, r, AddK(fs, v).1);
    } else {
      AnyRKOk(s, fs, e, r, e1, o);
    }
  }

  lemma IndexRKOk(s: Start, fs: Fs, e: Exp, i: nat, r: Fs, e1: Exp, o: RK)
    requires WfExp(fs, e) && !HasJumps(e) && Begins(s, fs) && Settled(fs, e) && e.k == VK(i) && SemOf(s, fs, e) != Broken
    requires (r, e1, o) == IndexRK(fs, e, i) && r.k <= s.ks && r.maxstack < MAXSTACK
    ensures OperandOk(s, fs, e, r, e1, o)
  {
    hide WfFs, OperandOk, AnyRK;
    if i <= MAXINDEXRK {
      ConstOperand(s, fs, e, fs.k[i], r, i);
    } else {
      AnyRKOk(s, fs, e, r, e1, o);
    }
  }

  lemma NumberRKOk(s: Start, fs: Fs, e: Exp, r: Fs, e1: Exp, o: RK)
    requires WfExp(fs, e) && !HasJumps(e) && Begins(s, fs) && e.k.VKNum? && SemOf(s, fs, e) != Broken
    requires var (fs2, i) := AddK(fs, Num(e.k.n)); (r, e1, o) == IndexRK(fs2, e.(k := VK(i)), i)
    requires r.k <= s.ks && r.maxstack < MAXSTACK
    ensures OperandOk(s, fs, e, r, e1, o)
  {
    hide WfFs, AddK, AnyRK, Framed, From;
    var (fs2, i) := AddK(fs, Num(e.k.n));
    if i <= MAXINDEXRK {
      ConstOperand(s, fs, e, Num(e.k.n), r, i);
    } else {
      NumberWf(s, fs, e, fs2, i);
      AnyRKOk(s, fs2, e.(k := VK(i)), r, e1, o);
      assert e.(k := VK(i)).t + e.(k := VK(i)).f == [];
      FromOwn(fs, []);
      FramedTrans(fs, fs2, r, [], []);
      assert e.t + e.f == [];
      FromStep(fs, fs2, [], r.jpc);
    }
  }

  lemma NumberWf(s: Start, fs: Fs, e: Exp, fs2: Fs, i: nat)
    requires WfExp(fs, e) && Begins(s, fs) && e.k.VKNum? && (fs2, i) == AddK(fs, Num(e.k.n))
    ensures WfExp(fs2, e.(k := VK(i))) && Begins(s, fs2) && Framed(fs, fs2, []) && From(fs, [], fs2.jpc)
    ensures SemOf(s, fs2, e.(k := VK(i))) == SemOf(s, fs, e)
  {
    assert Sofar(s, fs2) == Sofar(s, fs);
  }

  /** luaK_exp2RK: the value becomes available as an operand. */
  lemma Exp2RKOk(s: Start, fs: Fs, e: Exp, r: Fs, e1: Exp, o: RK)
    requires WfExp(fs, e) && Settled(fs, e) && Begins(s, Core(fs, e)) && SemOf(s, fs, e) != Broken
    requires (r, e1, o) == Exp2RK(fs, e) && r.k <= s.ks && r.maxstack < MAXSTACK
    ensures OperandOk(s, fs, e, r, e1, o)
  {
    hide WfFs, OperandOk, AnyRK, ConstRK, IndexRK, AddK, Exp2NextReg;
    var d := DischargeVars(e);
    VarsSame(s, fs, e);
    OperandVars(s, fs, e, d, r, e1, o);
    if HasJumps(e) {
      NextRegJumps(fs, e, r, e1, o);
      NextRegOk(s, fs, d, r, e1);
    } else {
      match d.k
      case VNil => ConstRKOk(s, fs, d, Nil, r, e1, o);
      case VTrue => ConstRKOk(s, fs, d, Bool(true), r, e1, o);
      case VFalse => ConstRKOk(s, fs, d, Bool(false), r, e1, o);
      case VKNum(n) => NumberRKOk(s, fs, d, r, e1, o);
      case VK(i) => IndexRKOk(s, fs, d, i, r, e1, o);
      case _ => AnyRKOk(s, fs, d, r, e1, o);
    }
  }

  lemma OperandVars(s: Start, fs: Fs, e: Exp, d: Exp, r: Fs, e1: Exp, o: RK)
    requires WfExp(fs, e) && WfExp(fs, d) && Begins(s, Core(fs, e)) && Core(fs, d) == Core(fs, e) && SemOf(s, fs, d) == SemOf(s, fs, e)
    requires d.t == e.t && d.f == e.f
    ensures OperandOk(s, fs, d, r, e1, o) ==> OperandOk(s, fs, e, r, e1, o)
  {
  }

  /** With jumps, luaK_exp2RK goes through a new register. */
  lemma NextRegJumps(fs: Fs, e: Exp, r: Fs, e1: Exp, o: RK)
    requires HasJumps(e) && Settled(fs, e) && (e.k.VLocal? ==> e.k.reg < fs.nactvar) && (r, e1, o) == Exp2RK(fs, e)
    ensures (r, e1) == Exp2NextReg(fs, DischargeVars(e)) && o == R(fs.freereg)
  {
    hide Exp2Reg;
    var d := DischargeVars(e);
    assert DischargeVars(d) == d;
    NextRegExp(fs, d);
    assert Exp2Val(fs, e) == Exp2NextReg(fs, d);
  }

  lemma NextRegExp(fs: Fs, d: Exp)
    requires !d.k.VLocal? && Settled(fs, d)
    ensures Exp2NextReg(fs, d).1 == Exp(VNonReloc(fs.freereg), [], [])
  {
  }
}
