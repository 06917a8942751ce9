/** A function body that returns an expression, compiled in place. */
module LuaCompiler {
  import opened Common
  import opened LuaVm
  import opened LuaCode
  import opened LuaCorrect
  import opened LuaMachine
  import opened LuaJumpList
  import opened LuaFuncState
  import opened LuaMono
  import opened LuaFits
  import opened LuaFrame

  /** The registers suffice and every offset fits. */
  ghost predicate ReturnFits(n: nat, x: Expr) {
    var (fs1, e) := Compile(NewFunction(n), x);
    CompileFits(NewFunction(n), x) && Exp2AnyRegFits(fs1, e) && EmitFits(Exp2AnyReg(fs1, e).0)
  }

  /** The generator, working in place on threaded jump lists, leaves code in which no jump is
      pending any more and every register is below the stack size.  It is the code that the
      machine-level result ReturnCorrect is about. */
  method CompileFunction(n: nat, x: Expr) returns (r: Outcome, code: seq<Instr>, ks: seq<Value>, stack: nat)
    requires n < MAXSTACK
    ensures r.Done? ==> var fs := ReturnExpr(n, x); code == fs.code && ks == fs.k && stack == fs.maxstack < MAXSTACK
    ensures r.Done? && LocalsBelow(x, n) ==> n <= stack && CodeBelow(code, stack)
    ensures r.Done? ==> OffsetsFit(code)
    ensures r.Done? <==> ReturnFits(n, x)
    ensures Small(ReturnExpr(n, x)) ==> r.Done?
  {
    hide AllJumps, IsList, Erased, NoDup, Nodes, Compile, Exp2AnyReg, Emit, CompileFits, Exp2AnyRegFits, EmitFits;
    code, ks, stack := [], [], 0;
    var fs := new FuncState(n);
    ghost var c0, p0, j0 := fs.code, fs.pend, fs.jnodes;
    ReturnSize(n, x);
    var d;
    ghost var e;
    r, d, e := fs.CompileExpr(x);
    if r.Failed? {
      return;
    }
    ghost var c1, p1, j1, e1 := fs.code, fs.pend, fs.jnodes, e;
    r, d, e := fs.ExpToAnyReg(d, e);
    if r.Failed? {
      return;
    }
    KeptTrans(c0, p0, [] + j0, c1, p1, Own(e1) + j1, fs.code, fs.pend, Own(e) + fs.jnodes);
    HeadsEmpty(fs.code, fs.pend, fs.jnodes, d, e);
    AllHere(c0, fs.code, j0, fs.pend, e, fs.jnodes);
    r := fs.Code(Return(d.k.reg));
    if r.Done? {
      code, ks, stack := fs.code, fs.k, fs.maxstack;
      NothingErased(code);
      if LocalsBelow(x, n) {
        ReturnInFrame(n, x);
      }
    }
  }

  lemma ReturnSize(n: nat, x: Expr)
    ensures var (fs1, e) := Compile(NewFunction(n), x); var fs2 := Exp2AnyReg(fs1, e).0; var fs := ReturnExpr(n, x);
      |fs.code| == |fs2.code| + 1 && (Small(fs) ==> Small(fs1) && Small(fs2))
  {
    hide Compile, Exp2AnyReg;
    var (fs1, e) := Compile(NewFunction(n), x);
    MonoAnyReg(fs1, e);
  }

  /** All jumps that are still pending come here. */
  lemma AllHere(c0: seq<Instr>, c1: seq<Instr>, j0: seq<nat>, p: set<nat>, e: Exp, j: seq<nat>)
    requires Kept(c0, {}, [] + j0, c1, p, Own(e) + j) && e.t == [] && e.f == [] && !e.k.VJmp?
    ensures p - Nodes(j) == {}
  {
    assert Own(e) == [] && [] + j == j;
  }

  lemma NothingErased(code: seq<Instr>)
    ensures Erased(code, {}) == code
  {
  }
}
