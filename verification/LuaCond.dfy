/** Conditions: luaK_goiftrue and luaK_goiffalse. */
module LuaCond {
  import opened Common
  import opened LuaVm
  import opened LuaCode
  import opened LuaEmit
  import opened LuaSem
  import opened LuaJoin

  /** The registers below `n` are the same. */
  ghost predicate Agree(q: Regs, r: Regs, n: nat) {
    forall i :: 0 <= i < n ==> Get(r, i) == Get(q, i)
  }

  /** The descriptor of an expression: in a register it is a local variable, in the constant
      table it is a true value. */
  predicate Settled(fs: Fs, e: Exp) {
    && (e.k.VNonReloc? ==> e.k.reg < fs.nactvar)
    && (e.k.VK? ==> e.k.i < |fs.k| && Truthy(fs.k[e.k.i]))
  }

  // ----- a register for the tested value -----

  /** discharge2anyreg followed by freeexp. */
  lemma AnyRegLoads(s: Start, fs: Fs, e: Exp, fs1: Fs, e1: Exp, r: Fs)
    requires WfExp(fs, e) && !e.k.VJmp? && !e.k.VLocal? && Settled(fs, e) && Begins(s, Core(fs, e))
    requires (fs1, e1) == Discharge2AnyReg(fs, e) && r == FreeExp(fs1, e1) && r.k <= s.ks && r.maxstack < MAXSTACK
    ensures WfFs(r) && Framed(Core(fs, e), r, []) && From(Core(fs, e), [], r.jpc) && Begins(s, r) && r.freereg == fs.freereg
    ensures e1 == e.(k := VNonReloc(RegOf(e1)))
    ensures var c := Core(fs, e);
      if Sofar(s, c).Fall? then
        Sofar(s, r).Fall? && Agree(Sofar(s, c).r, Sofar(s, r).r, fs.freereg) && Get(Sofar(s, r).r, RegOf(e1)) == PrimValue(fs, e, Sofar(s, c).r)
      else Sofar(s, r) == Sofar(s, c)
  {
    if e.k.VNonReloc? {
      FramedSelf(fs);
    } else {
      hide Discharge2Reg, WfFs, PrimValue, Framed, From, IsPendingList, NoDup, KindOk;
      var fs0, reg := Reserve(fs), fs.freereg;
      ReserveWf(s, fs, e);
      DischargeLoads(s, fs0, e, reg, fs1);
      DischargeLists(fs0, e, reg);
      ReserveValue(s, fs, e);
      ReserveFramed(Core(fs, e));
      FromOwn(Core(fs, e), []);
      FramedTrans(Core(fs, e), Core(fs0, e), fs1, [], []);
      FramedLength(Core(fs, e), fs1, []);
      WfRegs(Core(fs, e));
      assert r == fs1.(freereg := fs.freereg);
      FreeWf(s, fs1, fs.freereg);
      ReserveFrom(Core(fs, e), fs1.jpc);
      FramedFree(Core(fs, e), fs1, fs.freereg);
    }
  }

  lemma ReserveWf(s: Start, fs: Fs, e: Exp)
    requires WfExp(fs, e) && Begins(s, Core(fs, e))
    ensures WfExp(Reserve(fs), e) && Begins(s, Core(Reserve(fs), e)) && Core(Reserve(fs), e) == Reserve(Core(fs, e))
    ensures Sofar(s, Core(Reserve(fs), e)) == Sofar(s, Core(fs, e))
  {
    hide SkipsOk, TargetsOk, IsPendingList, NoDup, Run;
  }

  lemma ReserveFramed(c: Fs)
    ensures Framed(c, Reserve(c), [])
  {
  }

  lemma ReserveFrom(c: Fs, list: seq<nat>)
    requires From(Reserve(c), [], list)
    ensures From(c, [], list)
  {
  }

  lemma FramedFree(a: Fs, b: Fs, n: nat)
    requires Framed(a, b, [])
    ensures Framed(a, b.(freereg := n), [])
  {
  }

  lemma WfRegs(c: Fs)
    requires WfFs(c)
    ensures c.nactvar <= c.freereg
  {
  }

  lemma ReserveValue(s: Start, fs: Fs, e: Exp)
    requires WfExp(fs, e) && Begins(s, Core(fs, e)) && KindOk(Reserve(fs), e)
    ensures forall q :: PrimValue(Reserve(fs), e, q) == PrimValue(fs, e, q)
  {
  }

  lemma FreeWf(s: Start, fs: Fs, n: nat)
    requires WfFs(fs) && Begins(s, fs) && fs.nactvar <= n <= fs.freereg
    ensures WfFs(fs.(freereg := n)) && Begins(s, fs.(freereg := n)) && Sofar(s, fs.(freereg := n)) == Sofar(s, fs)
  {
  }

  // ----- the conditional jump -----

  /** After `r` was made from the core, the run jumps to a node of `list` if the value is `b`,
      and goes on otherwise. */
  ghost predicate Tested(o: Out, m: Sem, o2: Out, code: seq<Instr>, list: seq<nat>, b: bool, n: nat) {
    if !o.Fall? then o2 == o
    else if m.Val? then
      if Truthy(m.v) == b then o2.Exit? && o2.j in list && NodeValue(code, o2.j, o2.r, b) == m.v && Agree(m.r, o2.r, n)
      else o2.Fall? && Agree(m.r, o2.r, n)
    else if m.Fails? then o2 == Err
    else true
  }

  /** A state that ends with the jump of a test. */
  ghost predicate Forked(s: Start, c: Fs, r: Fs, list: seq<nat>) {
    && WfFs(r) && Framed(c, r, []) && From(c, [], r.jpc) && Begins(s, r) && r.freereg == c.freereg
    && IsPendingList(r.code, list) && NoDup(list + r.jpc) && (forall j :: j in list ==> j >= |c.code|)
  }

  lemma ForkOk(s: Start, c: Fs, test: Instr, r: Fs, list: seq<nat>)
    requires WfFs(c) && Begins(s, c) && IsTest(test) && (test.TestSet? ==> test.a == NO_REG)
    requires (r, list) == CondJump(c, test) && Branch(s, Sofar(s, c), test, |c.code| + 1) != Stuck
    ensures Forked(s, c, r, list) && list == [|c.code| + 1] && r.jpc == [] && r == c.(code := r.code, jpc := [])
    ensures Sofar(s, r) == Branch(s, Sofar(s, c), test, |c.code| + 1)
    ensures r.code[|c.code|] == test && |r.code| == |c.code| + 2
  {
    hide WfFs;
    CondJumpWf(c, test);
    CondJumpRun(s, c, test);
    WfPending(c);
    EmitFramed(c, r, [test, Jmp(NO_JUMP)]);
    FramedBegins(s, c, r, []);
    assert r.code[|c.code|] == test && r.code[|c.code| + 1] == Jmp(NO_JUMP);
    assert list + r.jpc == list;
  }

  lemma JumpOnCondOk(s: Start, fs: Fs, e: Exp, b: bool, r: Fs, list: seq<nat>)
    requires WfExp(fs, e) && !e.k.VJmp? && !e.k.VLocal? && Settled(fs, e) && Begins(s, Core(fs, e))
    requires (r, list) == JumpOnCond(fs, e, b) && r.k <= s.ks && r.maxstack < MAXSTACK
    ensures Forked(s, Core(fs, e), r, list)
    ensures var o := Sofar(s, Core(fs, e));
      Tested(o, if o.Fall? then PrimSem(s, fs, e, o.r) else Broken, Sofar(s, r), r.code, list, b, fs.freereg)
  {
    hide WfFs, Framed, IsPendingList, NoDup, CondJump, Discharge2AnyReg, FreeExp, From;
    var c := Core(fs, e);
    if e.k.VReloc? {
      ForkOk(s, c, Test(fs.code[e.k.pc].b, !b), r, list);
    } else {
      var (fs1, e1) := Discharge2AnyReg(fs, e);
      var fs2 := FreeExp(fs1, e1);
      CondJumpKeeps(fs2, TestSet(NO_REG, RegOf(e1), b));
      AnyRegLoads(s, fs, e, fs1, e1, fs2);
      ForkOk(s, fs2, TestSet(NO_REG, RegOf(e1), b), r, list);
      if Sofar(s, c).Fall? {
        PrimSemValue(s, fs, e, Sofar(s, c).r);
      }
      FramedTrans(c, fs2, r, [], []) by { FromOwn(c, []); }
      FromStep(c, fs2, [], r.jpc);
      FramedLength(c, fs2, []);
    }
  }

  lemma FramedLength(a: Fs, b: Fs, own: seq<nat>)
    requires Framed(a, b, own)
    ensures |a.code| <= |b.code| && a.nactvar == b.nactvar && a.maxstack <= b.maxstack && a.k <= b.k
  {
  }

  lemma CondJumpKeeps(fs: Fs, test: Instr)
    ensures var r := CondJump(fs, test).0; r == fs.(code := r.code, jpc := [])
  {
  }

  /** invertjump turns the comparison round. */
  lemma InvertOk(s: Start, fs: Fs, e: Exp, r: Fs)
    requires WfExp(fs, e) && e.k.VJmp? && Begins(s, Core(fs, e)) && r == InvertJump(fs, e.k.pc)
    ensures WfExp(r, e) && Core(r, e) == Core(fs, e) && r.freereg == fs.freereg && r.k == fs.k && r.maxstack == fs.maxstack
    ensures forall q :: PrimSem(s, r, e, q) == (match PrimSem(s, fs, e, q) case Val(v, w, q') => Val(Bool(!Truthy(v)), w, q') case m => m)
  {
    hide WfFs, IsPendingList, NoDup, Run;
    assert r.code[..|r.code| - 2] == fs.code[..|fs.code| - 2];
  }

  /** A comparison as a conditional jump. */
  lemma JmpTested(s: Start, fs: Fs, e: Exp, b: bool)
    requires WfExp(fs, e) && e.k.VJmp? && Begins(s, Core(fs, e)) && SemOf(s, fs, e) != Broken
    ensures Forked(s, Core(fs, e), fs, [e.k.pc])
    ensures var o := Sofar(s, Core(fs, e));
      Tested(o, if o.Fall? then PrimSem(s, fs, e, o.r) else Broken, Sofar(s, fs), fs.code, [e.k.pc], true, fs.freereg)
  {
    hide WfFs, Framed;
    JmpWf(s, fs, e);
    FramedBegins(s, Core(fs, e), fs, []) by { assert Sofar(s, fs) != Stuck; }
    assert [e.k.pc] + fs.jpc == [e.k.pc];
  }

  // ----- going on -----

  /** The list of jumps taken when the value is `b`, and the other one. */
  function Leaving(e: Exp, b: bool): seq<nat> { if b then e.t else e.f }

  /** The run after luaK_goiffalse (b) or luaK_goiftrue (!b): it goes on here unless the value
      is `b`, and then it stops at a jump that carries the value. */
  ghost predicate GoesOn(m: Sem, o: Out, code: seq<Instr>, list: seq<nat>, b: bool, n: nat) {
    match m
    case Val(v, _, q) =>
      if Truthy(v) == b then o.Exit? && o.j in list && NodeValue(code, o.j, o.r, b) == v && Agree(q, o.r, n)
      else o.Fall? && Agree(q, o.r, n)
    case Outside(j, q) => o == Exit(j, q) && j !in list
    case Fails => o == Err
    case Broken => true
  }

  /** The structure that luaK_goiftrue and luaK_goiffalse leave. */
  ghost predicate Parted(s: Start, c: Fs, own: seq<nat>, r: Fs, list: seq<nat>) {
    && WfFs(r) && Framed(c, r, own) && From(c, own, list + r.jpc) && Begins(s, r) && r.freereg == c.freereg
    && IsPendingList(r.code, list) && NoDup(list + r.jpc)
  }

  lemma PartOk(s: Start, fs: Fs, e: Exp, b: bool, fs1: Fs, l: seq<nat>, r: Fs)
    requires WfExp(fs, e) && Begins(s, Core(fs, e)) && Forked(s, Core(fs, e), fs1, l)
    requires r == PatchToHere(fs1, Leaving(e, !b))
    ensures Parted(s, Core(fs, e), e.t + e.f, r, Leaving(e, b) + l)
    ensures IsPendingList(fs1.code, Leaving(e, !b)) && Disjoint(Leaving(e, !b), Leaving(e, b) + l) && Disjoint(Leaving(e, !b), fs1.jpc)
    ensures forall j, q, v :: j in e.t || j in e.f ==> NodeValue(r.code, j, q, v) == NodeValue(Core(fs, e).code, j, q, v)
  {
    hide WfFs, Framed, NoDup, KindOk, From, Sofar;
    var c, leave, stay := Core(fs, e), Leaving(e, b), Leaving(e, !b);
    ListsKept(c, fs1, e.t, e.f);
    assert forall j :: j in e.t ==> Pending(c.code, j);
    assert forall j :: j in e.f ==> Pending(c.code, j);
    PartLists(e.t, e.f, b, l, fs1.jpc, |c.code|);
    PartFramed(c, fs1, e.t + e.f, r, stay);
    PartFrom(c, e, b, l, fs1.jpc);
    PartWf(s, fs1, stay, r);
    PartPending(fs1.code, leave, l);
  }

  lemma PartPending(code: seq<Instr>, x: seq<nat>, y: seq<nat>)
    requires IsPendingList(code, x) && IsPendingList(code, y)
    ensures IsPendingList(code, x + y)
  {
  }

  lemma PartFrom(c: Fs, e: Exp, b: bool, l: seq<nat>, jpc: seq<nat>)
    requires From(c, [], jpc) && forall j :: j in l ==> j >= |c.code|
    ensures From(c, e.t + e.f, Leaving(e, b) + l + (jpc + Leaving(e, !b)))
  {
  }

  /** The lists after the jump: all apart from each other. */
  lemma PartLists(t: seq<nat>, f: seq<nat>, b: bool, l: seq<nat>, jpc: seq<nat>, n: nat)
    requires NoDup(t + f + jpc) && NoDup(l + jpc) && (forall j :: j in l ==> j >= n) && (forall j :: j in t ==> j < n) && (forall j :: j in f ==> j < n)
    ensures var leave, stay := if b then t else f, if b then f else t;
      && NoDup(leave + l + (jpc + stay)) && NoDup(jpc + stay) && Disjoint(stay, leave + l) && Disjoint(stay, jpc)
  {
    var leave, stay := if b then t else f, if b then f else t;
    NoDupSplit(t, f, jpc);
    SplitPair(l, jpc);
    NoDupAppend(leave, l);
    NoDupAppend(jpc, stay);
    NoDupAppend(leave + l, jpc + stay);
  }

  lemma SplitPair(a: seq<nat>, b: seq<nat>)
    requires NoDup(a + b)
    ensures NoDup(a) && NoDup(b) && Disjoint(a, b)
  {
    assert a + [] + b == a + b;
    NoDupSplit(a, [], b);
  }

  lemma PartFramed(c: Fs, fs1: Fs, own: seq<nat>, r: Fs, stay: seq<nat>)
    requires Framed(c, fs1, []) && r == PatchToHere(fs1, stay) && forall j :: j in stay ==> j in own
    ensures Framed(c, r, own)
  {
  }

  lemma PartWf(s: Start, fs1: Fs, stay: seq<nat>, r: Fs)
    requires WfFs(fs1) && Begins(s, fs1) && r == PatchToHere(fs1, stay) && IsPendingList(fs1.code, stay) && NoDup(fs1.jpc + stay)
    ensures WfFs(r) && Begins(s, r)
    ensures Sofar(s, r) == (var o := Sofar(s, fs1); if o.Exit? && o.j in stay then Fall(o.r) else o)
  {
  }

  /** An exit of the core is an exit of its code, outside the jumps to here. */
  lemma ExitsOutside(s: Start, c: Fs)
    requires s.pc <= |c.code| && Sofar(s, c).Exit?
    ensures Sofar(s, c).j < |c.code| && Sofar(s, c).j !in c.jpc && Pending(c.code, Sofar(s, c).j)
  {
    ExitPending(s.p, s.ks, c.code, s.pc, s.r);
  }

  lemma PartRuns(s: Start, fs: Fs, e: Exp, b: bool, fs1: Fs, l: seq<nat>, r: Fs)
    requires WfExp(fs, e) && Begins(s, Core(fs, e)) && Forked(s, Core(fs, e), fs1, l)
    requires r == PatchToHere(fs1, Leaving(e, !b))
    requires Honest(SemOf(s, fs, e))
    requires var o := Sofar(s, Core(fs, e));
      Tested(o, if o.Fall? then PrimSem(s, fs, e, o.r) else Broken, Sofar(s, fs1), fs1.code, l, b, fs.freereg)
    ensures Parted(s, Core(fs, e), e.t + e.f, r, Leaving(e, b) + l)
    ensures GoesOn(SemOf(s, fs, e), Sofar(s, r), r.code, Leaving(e, b) + l, b, fs.freereg)
  {
    hide WfFs, Framed, IsPendingList, NoDup, PatchToHere, From;
    var c, leave, stay := Core(fs, e), Leaving(e, b), Leaving(e, !b);
    PartOk(s, fs, e, b, fs1, l, r);
    PartSofar(s, fs, e, b, fs1, l, r);
    var o := Sofar(s, c);
    if o.Exit? {
      ExitsOutside(s, c);
      assert o.j in e.t ==> o.j !in e.f by { NoDupSplit(e.t, e.f, c.jpc); }
    }
  }

  lemma PartSofar(s: Start, fs: Fs, e: Exp, b: bool, fs1: Fs, l: seq<nat>, r: Fs)
    requires Forked(s, Core(fs, e), fs1, l) && WfExp(fs, e) && Begins(s, Core(fs, e))
    requires r == PatchToHere(fs1, Leaving(e, !b)) && IsPendingList(fs1.code, Leaving(e, !b)) && Disjoint(Leaving(e, !b), fs1.jpc)
    ensures r.code == fs1.code
    ensures Sofar(s, r) == (var o := Sofar(s, fs1); if o.Exit? && o.j in Leaving(e, !b) then Fall(o.r) else o)
  {
  }

  /** luaK_goiftrue. */
  lemma GoIfTrueOk(s: Start, fs: Fs, e: Exp, r: Fs, e1: Exp)
    requires WfExp(fs, e) && Settled(fs, e) && Begins(s, Core(fs, e)) && Honest(SemOf(s, fs, e)) && SemOf(s, fs, e) != Broken
    requires (r, e1) == GoIfTrue(fs, e) && r.k <= s.ks && r.maxstack < MAXSTACK
    ensures Parted(s, Core(fs, e), e.t + e.f, r, e1.f) && e1.t == []
    ensures GoesOn(SemOf(s, fs, e), Sofar(s, r), r.code, e1.f, false, fs.freereg)
  {
    hide WfFs, Framed, IsPendingList, NoDup, JumpOnCond, InvertJump;
    var d := DischargeVars(e);
    VarsSame(s, fs, e);
    match d.k
    case VJmp(j) =>
      var fs1 := InvertJump(fs, j);
      InvertOk(s, fs, d, fs1);
      InvertTested(s, fs, d, fs1);
      PartRuns(s, fs, d, false, fs1, [j], r);
    case VK(_) => ConstTested(s, fs, d, false); PartRuns(s, fs, d, false, fs, [], r);
    case VKNum(_) => ConstTested(s, fs, d, false); PartRuns(s, fs, d, false, fs, [], r);
    case VTrue => ConstTested(s, fs, d, false); PartRuns(s, fs, d, false, fs, [], r);
    case _ =>
      var (fs1, l) := JumpOnCond(fs, d, false);
      JumpOnCondOk(s, fs, d, false, fs1, l);
      PartRuns(s, fs, d, false, fs1, l, r);
  }

  /** luaK_goiffalse. */
  lemma GoIfFalseOk(s: Start, fs: Fs, e: Exp, r: Fs, e1: Exp)
    requires WfExp(fs, e) && Settled(fs, e) && Begins(s, Core(fs, e)) && Honest(SemOf(s, fs, e)) && SemOf(s, fs, e) != Broken
    requires (r, e1) == GoIfFalse(fs, e) && r.k <= s.ks && r.maxstack < MAXSTACK
    ensures Parted(s, Core(fs, e), e.t + e.f, r, e1.t) && e1.f == []
    ensures GoesOn(SemOf(s, fs, e), Sofar(s, r), r.code, e1.t, true, fs.freereg)
  {
    hide WfFs, Framed, IsPendingList, NoDup, JumpOnCond;
    var d := DischargeVars(e);
    VarsSame(s, fs, e);
    match d.k
    case VJmp(j) => JmpTested(s, fs, d, true); PartRuns(s, fs, d, true, fs, [j], r);
    case VNil => ConstTested(s, fs, d, true); PartRuns(s, fs, d, true, fs, [], r);
    case VFalse => ConstTested(s, fs, d, true); PartRuns(s, fs, d, true, fs, [], r);
    case _ =>
      var (fs1, l) := JumpOnCond(fs, d, true);
      JumpOnCondOk(s, fs, d, true, fs1, l);
      PartRuns(s, fs, d, true, fs1, l, r);
  }

  /** luaK_dischargevars changes nothing but the name of a local's register. */
  lemma VarsSame(s: Start, fs: Fs, e: Exp)
    requires WfExp(fs, e) && Settled(fs, e) && Begins(s, Core(fs, e))
    ensures var d := DischargeVars(e);
      && !d.k.VLocal? && WfExp(fs, d) && Settled(fs, d) && Core(fs, d) == Core(fs, e) && SemOf(s, fs, d) == SemOf(s, fs, e)
      && d.t == e.t && d.f == e.f
  {
  }

  /** No jump is needed for a constant that never has the value `b`. */
  lemma ConstTested(s: Start, fs: Fs, e: Exp, b: bool)
    requires WfExp(fs, e) && Begins(s, Core(fs, e))
    requires if b then e.k.VNil? || e.k.VFalse? else e.k.VTrue? || e.k.VKNum? || (e.k.VK? && Truthy(fs.k[e.k.i]))
    ensures Forked(s, fs, fs, [])
    ensures var o := Sofar(s, fs);
      Tested(o, if o.Fall? then PrimSem(s, fs, e, o.r) else Broken, Sofar(s, fs), fs.code, [], b, fs.freereg)
  {
    FramedSelf(fs);
    assert [] + fs.jpc == fs.jpc;
  }

  lemma InvertTested(s: Start, fs: Fs, e: Exp, r: Fs)
    requires WfExp(fs, e) && e.k.VJmp? && Begins(s, Core(fs, e)) && SemOf(s, fs, e) != Broken && r == InvertJump(fs, e.k.pc)
    ensures Forked(s, Core(fs, e), r, [e.k.pc])
    ensures var o := Sofar(s, Core(fs, e));
      Tested(o, if o.Fall? then PrimSem(s, fs, e, o.r) else Broken, Sofar(s, r), r.code, [e.k.pc], false, fs.freereg)
  {
    hide WfFs, Framed, Decide;
    InvertOk(s, fs, e, r);
    JmpTested(s, r, e, true);
    assert Forked(s, Core(fs, e), r, [e.k.pc]);
    var o := Sofar(s, Core(fs, e));
    if o.Fall? {
      var m, m2 := PrimSem(s, fs, e, o.r), PrimSem(s, r, e, o.r);
      assert m.Val? ==> m.v.Bool?;
      assert !HasValue(r.code, e.k.pc);
    }
  }
}
