/** The virtual machine one instruction at a time, with no condition on the code, and what
    the code of an expression does on it. */
module LuaMachine {
  import opened Common
  import opened LuaVm
  import opened LuaCode
  import opened LuaEmit
  import opened LuaSem
  import opened LuaJoin
  import opened LuaCond
  import opened LuaOperand
  import opened LuaCorrect
  import opened LuaMono

  /** The machine is at an instruction, has raised an error, or executed something that no
      compiler emits. */
  datatype State = Here(pc: int, r: Regs) | Raised | Illegal

  /** One instruction: `pc` has already moved on when it is executed, a test skips the next
      instruction or takes the jump there. */
  function Cycle(p: Prims, ks: seq<Value>, code: seq<Instr>, s: State): State {
    if !s.Here? || s.pc < 0 || s.pc >= |code| then s
    else
      var i, pc, r := code[s.pc], s.pc + 1, s.r;
      match i
      case Move(a, b) => Here(pc, Set(r, a, Get(r, b)))
      case LoadK(a, bx) => if bx < |ks| then Here(pc, Set(r, a, ks[bx])) else Illegal
      case LoadKX(a) =>
        if pc < |code| && code[pc].ExtraArg? && code[pc].ax < |ks| then Here(pc + 1, Set(r, a, ks[code[pc].ax])) else Illegal
      case LoadBool(a, v, skip) => Here(if skip then pc + 1 else pc, Set(r, a, Bool(v)))
      case LoadNil(a, n) => Here(pc, SetNils(r, a, n))
      case Not(a, b) => Here(pc, Set(r, a, Bool(!Truthy(Get(r, b)))))
      case Jmp(sbx) => Here(pc + sbx, r)
      case Cmp(op, cond, x, y) =>
        (match (RKValue(ks, r, x), RKValue(ks, r, y))
         case (Some(v), Some(w)) =>
           (match Compare(p, op, v, w)
            case None => Raised
            case Some(b) => if b != cond then Here(pc + 1, r) else NextJump(code, pc, r))
         case _ => Illegal)
      case Test(a, c) => if (if c then !Truthy(Get(r, a)) else Truthy(Get(r, a))) then Here(pc + 1, r) else NextJump(code, pc, r)
      case TestSet(a, b, c) =>
        if (if c then !Truthy(Get(r, b)) else Truthy(Get(r, b))) then Here(pc + 1, r) else NextJump(code, pc, Set(r, a, Get(r, b)))
      case ExtraArg(_) => Illegal
      case Return(_) => s
  }

  /** The jump behind a test. */
  function NextJump(code: seq<Instr>, pc: int, r: Regs): State {
    if 0 <= pc < |code| && code[pc].Jmp? then Here(pc + 1 + code[pc].sbx, r) else Illegal
  }

  function Cycles(p: Prims, ks: seq<Value>, code: seq<Instr>, s: State, n: nat): State
    decreases n
  {
    if n == 0 then s else Cycles(p, ks, code, Cycle(p, ks, code, s), n - 1)
  }

  /** A step of a run is a cycle of the machine. */
  lemma AdvanceCycle(p: Prims, ks: seq<Value>, code: seq<Instr>, pc: nat, r: Regs)
    requires pc < |code|
    ensures var n, c := Advance(p, ks, code, pc, r), Cycle(p, ks, code, Here(pc, r));
      && (n.Go? ==> c == Here(n.pc, n.r))
      && (n == Halt(Err) ==> c == Raised)
      && (n.Halt? ==> !n.o.Fall?)
  {
    hide Landing, SetNils;
  }

  /** A run that ends at the end of the code, or in an error, is what the machine does, also
      when more code follows. */
  lemma {:induction false} RunCycles(p: Prims, ks: seq<Value>, code: seq<Instr>, ext: seq<Instr>, pc: nat, r: Regs) returns (n: nat)
    requires pc <= |code| && (Run(p, ks, code, pc, r).Fall? || Run(p, ks, code, pc, r) == Err)
    ensures var o := Run(p, ks, code, pc, r);
      Cycles(p, ks, code + ext, Here(pc, r), n) == if o.Fall? then Here(|code|, o.r) else Raised
    decreases |code| - pc
  {
    hide Advance, Cycle;
    if pc == |code| {
      n := 0;
    } else {
      AdvanceAppend(p, ks, code, ext, pc, r);
      AdvanceCycle(p, ks, code + ext, pc, r);
      match Advance(p, ks, code, pc, r)
      case Go(pc', r') =>
        var m := RunCycles(p, ks, code, ext, pc', r');
        n := m + 1;
        assert Cycles(p, ks, code + ext, Here(pc, r), n) == Cycles(p, ks, code + ext, Here(pc', r'), m);
      case Halt(o) =>
        n := 1;
        assert o == Err;
        assert Cycles(p, ks, code + ext, Here(pc, r), 1) == Cycles(p, ks, code + ext, Cycle(p, ks, code + ext, Here(pc, r)), 0);
    }
  }

  // ----- an expression stored into a local variable, or into a new register -----

  /** What a run does while the value of `x` is put into `target`: it goes on with the value
      there and every other register below `n` as it was, or it fails as `x` does; runs that
      end elsewhere are not touched. */
  ghost predicate Assigns(p: Prims, o: Out, o2: Out, x: Expr, target: nat, n: nat) {
    match o
    case Fall(q) =>
      (match Eval(p, x, q)
       case Some(v) => o2.Fall? && Get(o2.r, target) == v && forall i :: 0 <= i < n && i != target ==> Get(o2.r, i) == Get(q, i)
       case None => o2 == Err)
    case _ => o2 == o
  }

  /** Compile `x` and put its value into register `target`: luaK_storevar for a local. */
  function StoreExpr(fs0: Fs, x: Expr, target: nat): Fs {
    var (fs1, e) := Compile(fs0, x);
    Exp2Reg(FreeExp(fs1, e), e, target).0
  }

  /** For every expression, running the code left by exp2reg puts its value into the target
      register and changes no other register in use. */
  lemma StoreCorrect(s: Start, fs0: Fs, x: Expr, target: nat, fs: Fs)
    requires WfFs(fs0) && Begins(s, fs0) && LocalsBelow(x, fs0.nactvar) && target != NO_REG
    requires fs == StoreExpr(fs0, x, target) && fs.k <= s.ks && fs.maxstack < MAXSTACK
    ensures WfFs(fs) && Begins(s, fs) && fs.freereg == fs0.freereg
    ensures Assigns(s.p, Sofar(s, fs0), Sofar(s, fs), x, target, fs0.freereg)
  {
    hide WfFs, Exp2Reg, Compile, Framed, From, PrimSem, KindOk, WfExp, Compiled;
    var (fs1, e) := Compile(fs0, x);
    assert FreeExp(fs1, e) == fs1 || !Settled(fs1, e);
    MonoExp2Reg(fs1, e, target);
    MonoExp2Reg(FreeExp(fs1, e), e, target);
    FreeMono(fs1, e);
    CompileOk(s, fs0, x, fs1, e);
    CompiledFacts(s, fs0, x, fs1, e);
    Exp2RegDelivers(s, fs1, e, target, fs);
    CompiledComputes(s, fs0, x, fs1, e);
  }

  lemma FreeMono(fs: Fs, e: Exp)
    ensures FreeExp(fs, e).k == fs.k && FreeExp(fs, e).maxstack == fs.maxstack
  {
  }

  lemma CompiledComputes(s: Start, fs0: Fs, x: Expr, fs: Fs, e: Exp)
    requires Begins(s, fs0) && Compiled(s, fs0, x, fs, e)
    ensures WfExp(fs, e) && KindOk(fs, e) && s.pc <= |Core(fs, e).code|
    ensures Computes(s.p, Sofar(s, fs0), SemOf(s, fs, e), x, fs0.freereg)
  {
    WfKind(fs, e);
  }

  // ----- a function that returns an expression -----

  /** A function with `n` parameters. */
  function NewFunction(n: nat): Fs { Fs([], [], 0, n, n, if n > 2 then n else 2, []) }

  /** The code of a function body that returns `x`: luaK_exp2anyreg and luaK_ret. */
  function ReturnExpr(n: nat, x: Expr): Fs {
    var (fs1, e) := Compile(NewFunction(n), x);
    var (fs2, e2) := Exp2AnyReg(fs1, e);
    Emit(fs2, Return(RegOf(e2)))
  }

  lemma NewFunctionWf(s: Start, n: nat)
    requires s.pc == 0
    ensures var f := NewFunction(n); WfFs(f) && Begins(s, f) && Sofar(s, f) == Fall(s.r) && f.nactvar == n && f.freereg == n
  {
  }

  /** The machine, started on the compiled function, reaches the RETURN with the value of the
      expression in the returned register, or raises an error when the expression does. */
  lemma ReturnCorrect(p: Prims, n: nat, x: Expr, r: Regs) returns (steps: nat)
    requires LocalsBelow(x, n) && ReturnExpr(n, x).maxstack < MAXSTACK
    ensures var fs := ReturnExpr(n, x); var end := Cycles(p, fs.k, fs.code, Here(0, r), steps);
      match Eval(p, x, r)
      case Some(v) => end.Here? && 0 <= end.pc < |fs.code| && fs.code[end.pc].Return? && Get(end.r, fs.code[end.pc].a) == v
      case None => end == Raised
  {
    hide WfFs, Cycle, Run, Begins, Compile, Exp2AnyReg, NewFunction;
    var fs0 := NewFunction(n);
    var (fs1, e) := Compile(fs0, x);
    var (fs2, e2) := Exp2AnyReg(fs1, e);
    var fs := Emit(fs2, Return(RegOf(e2)));
    var s := Start(p, fs.k, 0, r);
    NewFunctionWf(s, n);
    MonoAnyReg(fs1, e);
    ReturnRun(s, fs0, x, fs1, e, fs2, e2);
    steps := EmittedCycles(s, fs2, Return(RegOf(e2)));
  }

  /** The value of the expression in any register. */
  lemma ReturnRun(s: Start, fs0: Fs, x: Expr, fs1: Fs, e: Exp, fs2: Fs, e2: Exp)
    requires WfFs(fs0) && Begins(s, fs0) && Sofar(s, fs0) == Fall(s.r) && LocalsBelow(x, fs0.nactvar)
    requires (fs1, e) == Compile(fs0, x) && (fs2, e2) == Exp2AnyReg(fs1, e) && fs2.k <= s.ks && fs2.maxstack < MAXSTACK
    ensures WfFs(fs2) && Begins(s, fs2)
    ensures match Eval(s.p, x, s.r)
      case Some(v) => Sofar(s, fs2).Fall? && Get(Sofar(s, fs2).r, RegOf(e2)) == v
      case None => Sofar(s, fs2) == Err
  {
    hide WfFs, Begins, Compile, Exp2AnyReg, Framed, From, PrimSem, KindOk, WfExp, Settled, Compiled;
    MonoAnyReg(fs1, e);
    CompileOk(s, fs0, x, fs1, e);
    CompiledFacts(s, fs0, x, fs1, e);
    CompiledComputes(s, fs0, x, fs1, e);
    VarsSame(s, fs1, e);
    AnyVars(fs1, e);
    var d := DischargeVars(e);
    WfKind(fs1, d);
    AnyRKOk(s, fs1, d, fs2, e2, R(RegOf(e2)));
  }

  lemma AnyVars(fs: Fs, e: Exp)
    ensures Exp2AnyReg(fs, DischargeVars(e)) == Exp2AnyReg(fs, e)
  {
  }

  /** Emitted code, up to the instruction just emitted, on the machine. */
  lemma EmittedCycles(s: Start, fs: Fs, i: Instr) returns (n: nat)
    requires WfFs(fs) && Begins(s, fs) && (Sofar(s, fs).Fall? || Sofar(s, fs) == Err)
    ensures var c := Emit(fs, i).code;
      Cycles(s.p, s.ks, c, Here(s.pc, s.r), n) == if Sofar(s, fs).Fall? then Here(|fs.code|, Sofar(s, fs).r) else Raised
    ensures Emit(fs, i).code[|fs.code|] == i
  {
    hide WfFs, Cycle, Run, Landing;
    DischargeRun(s, fs);
    n := RunCycles(s.p, s.ks, Discharge(fs).code, [i], s.pc, s.r);
  }
}
