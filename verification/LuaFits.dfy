/** When compilation succeeds: every offset that is stored in a jump, as the link of a list or
    as a target, fits into the instruction, and the registers suffice. */
module LuaFits {
  import opened Common
  import opened LuaVm
  import opened LuaCode
  import opened LuaJumpList

  /** `fixjump` from one position to another succeeds. */
  predicate OffsetFits(pc: nat, dest: int) { -MAXARG_sBx <= dest - (pc + 1) <= MAXARG_sBx }

  /** The offsets of all jumps fit into their instructions. */
  ghost predicate OffsetsFit(code: seq<Instr>) {
    forall i :: 0 <= i < |code| && code[i].Jmp? ==> -MAXARG_sBx <= code[i].sbx <= MAXARG_sBx
  }

  /** `luaK_concat`: the link from the last node of one list to the first of the other. */
  predicate ConcatFits(a: seq<nat>, b: seq<nat>) { a == [] || b == [] || OffsetFits(a[|a| - 1], b[0]) }

  /** `patchlistaux`: the targets of all nodes. */
  ghost predicate PatchFits(code: seq<Instr>, list: seq<nat>, vtarget: int, dtarget: int) {
    forall k :: 0 <= k < |list| ==> OffsetFits(list[k], if list[k] < |code| && HasValue(code, list[k]) then vtarget else dtarget)
  }

  /** Links do not matter for that. */
  lemma FitsErased(code: seq<Instr>, pend: set<nat>, list: seq<nat>, vtarget: int, dtarget: int)
    requires AllJumps(code, pend)
    ensures PatchFits(Erased(code, pend), list, vtarget, dtarget) <==> PatchFits(code, list, vtarget, dtarget)
  {
    forall j | 0 <= j < |code|
      ensures HasValue(Erased(code, pend), j) <==> HasValue(code, j)
    {
    }
  }

  /** `luaK_code`: the jumps to here. */
  ghost predicate EmitFits(fs: Fs) { PatchFits(fs.code, fs.jpc, |fs.code|, |fs.code|) }

  /** `luaK_jump`: the jumps to here go behind the new jump. */
  predicate JumpFits(fs: Fs) { ConcatFits([|fs.code|], fs.jpc) }

  /** `luaK_patchtohere`. */
  predicate HereFits(fs: Fs, list: seq<nat>) { ConcatFits(fs.jpc, list) }

  ghost predicate NilFits(fs: Fs, from: nat) { NilJoins(fs, from) || EmitFits(fs) }

  /** `luaK_reserveregs`. */
  predicate RegFits(fs: Fs) { fs.freereg + 1 <= fs.maxstack || fs.freereg + 1 < MAXSTACK }

  ghost predicate Discharge2RegFits(fs: Fs, e0: Exp, reg: nat) {
    var e := DischargeVars(e0);
    match e.k
    case VNil => NilFits(fs, reg)
    case VReloc(_) => true
    case VNonReloc(r) => r == reg || EmitFits(fs)
    case VJmp(_) => true
    case VLocal(_) => true
    case _ => EmitFits(fs)
  }

  ghost predicate BooleansFit(fs: Fs, jmp: bool) { if jmp then EmitFits(fs) else JumpFits(fs) }

  ghost predicate JoinFits(fs: Fs, t: seq<nat>, f: seq<nat>, reg: nat, jmp: bool) {
    (t == [] && f == []) ||
    var needs := NeedValue(fs.code, t) || NeedValue(fs.code, f);
    var (fs2, pf, pt) := if needs then LoadBooleans(fs, reg, jmp) else (fs, NO_JUMP, NO_JUMP);
    var final := |fs2.code|;
    && (needs ==> BooleansFit(fs, jmp))
    && PatchFits(fs2.code, f, final, pf) && PatchFits(PatchList(fs2.code, f, final, reg, pf), t, final, pt)
  }

  ghost predicate Exp2RegFits(fs: Fs, e0: Exp, reg: nat) {
    var (fs1, e1) := Discharge2Reg(fs, e0, reg);
    var t := if e1.k.VJmp? then e1.t + [e1.k.pc] else e1.t;
    && Discharge2RegFits(fs, e0, reg)
    && (e1.k.VJmp? ==> ConcatFits(e1.t, [e1.k.pc]))
    && JoinFits(fs1, t, e1.f, reg, e1.k.VJmp?)
  }

  ghost predicate Exp2NextRegFits(fs: Fs, e0: Exp) {
    var e := DischargeVars(e0);
    var fs1 := FreeExp(fs, e);
    RegFits(fs1) && Exp2RegFits(Reserve(fs1), e, fs1.freereg)
  }

  ghost predicate Exp2AnyRegFits(fs: Fs, e0: Exp) {
    var e := DischargeVars(e0);
    if e.k.VNonReloc? && !HasJumps(e) then true
    else if e.k.VNonReloc? && e.k.reg >= fs.nactvar then Exp2RegFits(fs, e, e.k.reg)
    else Exp2NextRegFits(fs, e)
  }

  ghost predicate Exp2RKFits(fs: Fs, e0: Exp) {
    var (fs1, e) := Exp2Val(fs, e0);
    && (HasJumps(e0) ==> Exp2AnyRegFits(fs, e0))
    && match e.k
       case VNil => |fs1.k| <= MAXINDEXRK || Exp2AnyRegFits(fs1, e)
       case VTrue => |fs1.k| <= MAXINDEXRK || Exp2AnyRegFits(fs1, e)
       case VFalse => |fs1.k| <= MAXINDEXRK || Exp2AnyRegFits(fs1, e)
       case VKNum(n) =>
         var (fs2, i) := AddK(fs1, Num(n));
         i <= MAXINDEXRK || Exp2AnyRegFits(fs2, e.(k := VK(i)))
       case VK(i) => i <= MAXINDEXRK || Exp2AnyRegFits(fs1, e)
       case _ => Exp2AnyRegFits(fs1, e)
  }

  ghost predicate Discharge2AnyRegFits(fs: Fs, e: Exp) {
    e.k.VNonReloc? || (RegFits(fs) && Discharge2RegFits(Reserve(fs), e, fs.freereg))
  }

  ghost predicate JumpOnCondFits(fs: Fs, e: Exp) {
    if e.k.VReloc? && e.k.pc < |fs.code| && fs.code[e.k.pc].Not? then EmitFits(fs.(code := fs.code[..|fs.code| - 1]))
    else
      var (fs1, e1) := Discharge2AnyReg(fs, e);
      Discharge2AnyRegFits(fs, e) && EmitFits(FreeExp(fs1, e1))
  }

  /** The end of `luaK_goiftrue` and `luaK_goiffalse`. */
  predicate PartFits(fs: Fs, stay: seq<nat>, leave: seq<nat>, pc: seq<nat>) { ConcatFits(leave, pc) && HereFits(fs, stay) }

  ghost predicate GoIfTrueFits(fs: Fs, e0: Exp) {
    var e := DischargeVars(e0);
    match e.k
    case VJmp(j) => PartFits(InvertJump(fs, j), e.t, e.f, [j])
    case VK(_) => PartFits(fs, e.t, e.f, [])
    case VKNum(_) => PartFits(fs, e.t, e.f, [])
    case VTrue => PartFits(fs, e.t, e.f, [])
    case _ =>
      var (fs1, pc) := JumpOnCond(fs, e, false);
      JumpOnCondFits(fs, e) && PartFits(fs1, e.t, e.f, pc)
  }

  ghost predicate GoIfFalseFits(fs: Fs, e0: Exp) {
    var e := DischargeVars(e0);
    match e.k
    case VJmp(j) => PartFits(fs, e.f, e.t, [j])
    case VNil => PartFits(fs, e.f, e.t, [])
    case VFalse => PartFits(fs, e.f, e.t, [])
    case _ =>
      var (fs1, pc) := JumpOnCond(fs, e, true);
      JumpOnCondFits(fs, e) && PartFits(fs1, e.f, e.t, pc)
  }

  ghost predicate FlipFits(fs: Fs, e: Exp) {
    match e.k
    case VNil => true
    case VFalse => true
    case VK(_) => true
    case VKNum(_) => true
    case VTrue => true
    case VJmp(_) => true
    case _ =>
      var (fs2, e2) := Discharge2AnyReg(fs, e);
      Discharge2AnyRegFits(fs, e) && EmitFits(FreeExp(fs2, e2))
  }

  ghost predicate CodeCompFits(fs: Fs, op: Rel, e1: Exp, e2: Exp) {
    var (fs1, e1', o1) := Exp2RK(fs, e1);
    var (fs2, e2', o2) := Exp2RK(fs1, e2);
    Exp2RKFits(fs, e1) && Exp2RKFits(fs1, e2) && EmitFits(FreeExp(FreeExp(fs2, e2'), e1'))
  }

  ghost predicate CompileFits(fs: Fs, x: Expr)
    decreases x
  {
    match x
    case ENot(e) =>
      var (fs1, d) := Compile(fs, e);
      CompileFits(fs, e) && FlipFits(fs1, DischargeVars(d))
    case EAnd(l, r) =>
      var (fs1, d) := Compile(fs, l);
      var (fs2, d1) := GoIfTrue(fs1, d);
      var (fs3, d2) := Compile(fs2, r);
      CompileFits(fs, l) && GoIfTrueFits(fs1, d) && CompileFits(fs2, r) && ConcatFits(d2.f, d1.f)
    case EOr(l, r) =>
      var (fs1, d) := Compile(fs, l);
      var (fs2, d1) := GoIfFalse(fs1, d);
      var (fs3, d2) := Compile(fs2, r);
      CompileFits(fs, l) && GoIfFalseFits(fs1, d) && CompileFits(fs2, r) && ConcatFits(d2.t, d1.t)
    case ERel(op, l, r) =>
      var (fs1, d) := Compile(fs, l);
      var (fs2, d1, _) := Exp2RK(fs1, d);
      var (fs3, d2) := Compile(fs2, r);
      CompileFits(fs, l) && Exp2RKFits(fs1, d) && CompileFits(fs2, r) && CodeCompFits(fs3, op, d1, d2)
    case _ => true
  }
}
