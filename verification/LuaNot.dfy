/** Negation: codenot swaps the two lists, whose jumps then carry no values. */
module LuaNot {
  import opened Common
  import opened LuaVm
  import opened LuaCode
  import opened LuaEmit
  import opened LuaSem
  import opened LuaJoin
  import opened LuaCond

  // ----- removing values -----

  lemma DropAt(code: seq<Instr>, list: seq<nat>, i: nat)
    requires IsPendingList(code, list) && i < |code|
    ensures var d := DropValues(code, list);
      && (IsTest(d[i]) <==> IsTest(code[i])) && (!code[i].TestSet? ==> d[i] == code[i]) && (i + 1 !in list ==> d[i] == code[i])
      && (i + 1 in list ==> !d[i].TestSet?)
      && (forall r :: Carry(d[i], r) == Carry(code[i], r))
  {
    if i + 1 in list {
      var k :| 0 <= k < |list| && list[k] == i + 1;
      assert HasValue(code, list[k]) ==> code[list[k] - 1].a == NO_REG;
    }
  }

  lemma DropAdvance(p: Prims, ks: seq<Value>, code: seq<Instr>, list: seq<nat>, pc: nat, r: Regs)
    requires IsPendingList(code, list) && pc < |code|
    ensures Advance(p, ks, DropValues(code, list), pc, r) == Advance(p, ks, code, pc, r)
  {
    hide Decide, Carry, DropValues, IsPendingList, Simple;
    var d := DropValues(code, list);
    forall i | 0 <= i < |code|
      ensures IsTest(d[i]) <==> IsTest(code[i])
      ensures !IsTest(code[i]) ==> d[i] == code[i]
    {
      DropAt(code, list, i);
    }
    assert forall x :: Landing(d, x) <==> Landing(code, x);
    DropAt(code, list, pc);
    if IsTest(code[pc]) {
      DropDecides(p, ks, code, list, pc, r);
    }
    assert StepAt(p, ks, d, pc, r) == StepAt(p, ks, code, pc, r);
  }

  lemma DropDecides(p: Prims, ks: seq<Value>, code: seq<Instr>, list: seq<nat>, i: nat, r: Regs)
    requires i < |code| && IsTest(code[i]) && IsTest(DropValues(code, list)[i])
    ensures Decide(p, ks, DropValues(code, list)[i], r) == Decide(p, ks, code[i], r)
  {
  }

  lemma {:induction false} DropRun(p: Prims, ks: seq<Value>, code: seq<Instr>, list: seq<nat>, pc: nat, r: Regs)
    requires IsPendingList(code, list) && pc <= |code|
    ensures Run(p, ks, DropValues(code, list), pc, r) == Run(p, ks, code, pc, r)
    decreases |code| - pc
  {
    hide DropValues, IsPendingList, Advance;
    if pc < |code| {
      DropAdvance(p, ks, code, list, pc, r);
      match Advance(p, ks, code, pc, r)
      case Go(pc', r') => DropRun(p, ks, code, list, pc', r');
      case Halt(_) =>
    }
  }

  lemma DropKeeps(code: seq<Instr>, list: seq<nat>, other: seq<nat>)
    requires IsPendingList(code, list) && IsPendingList(code, other)
    ensures IsPendingList(DropValues(code, list), other)
    ensures forall j :: j in other && (j in list || !HasValue(code, j)) ==> !HasValue(DropValues(code, list), j)
  {
    var d := DropValues(code, list);
    forall k | 0 <= k < |other|
      ensures Pending(d, other[k]) && (HasValue(d, other[k]) ==> HasValue(code, other[k]) && d[other[k] - 1].a == NO_REG)
      ensures other[k] in list ==> !HasValue(d, other[k])
    {
      assert Pending(code, other[k]);
      DropAt(code, list, other[k]);
      if other[k] > 0 {
        DropAt(code, list, other[k] - 1);
      }
    }
  }

  lemma DropWf(c: Fs, list: seq<nat>, d: Fs)
    requires WfFs(c) && IsPendingList(c.code, list) && d == c.(code := DropValues(c.code, list)) && Disjoint(list, c.jpc)
    ensures WfFs(d) && Framed(c, d, list)
  {
    hide DropValues;
    DropKeeps(c.code, list, c.jpc);
    forall i | 0 <= i < |c.code|
      ensures IsTest(d.code[i]) <==> IsTest(c.code[i])
      ensures !c.code[i].TestSet? ==> d.code[i] == c.code[i]
      ensures i + 1 !in list ==> d.code[i] == c.code[i]
    {
      DropAt(c.code, list, i);
    }
    assert forall x :: Landing(d.code, x) <==> Landing(c.code, x);
    DropShape(c.code, d.code);
  }

  lemma DropShape(c: seq<Instr>, d: seq<Instr>)
    requires |d| == |c| && SkipsOk(c) && TargetsOk(c)
    requires forall i :: 0 <= i < |c| ==> (IsTest(d[i]) <==> IsTest(c[i]))
    requires forall i :: 0 <= i < |c| && !c[i].TestSet? ==> d[i] == c[i]
    ensures SkipsOk(d) && TargetsOk(d) && forall i, x :: 0 <= i < |c| ==> (JumpsTo(d, i, x) <==> JumpsTo(c, i, x))
  {
  }

  /** Both lists lose their values and the run stays the same. */
  lemma DropBoth(s: Start, c: Fs, t: seq<nat>, f: seq<nat>, d: Fs)
    requires WfFs(c) && Begins(s, c) && IsPendingList(c.code, t) && IsPendingList(c.code, f) && NoDup(t + f + c.jpc)
    requires d == c.(code := DropValues(DropValues(c.code, t), f))
    ensures WfFs(d) && Framed(c, d, t + f) && Begins(s, d) && Sofar(s, d) == Sofar(s, c)
    ensures IsPendingList(d.code, t) && IsPendingList(d.code, f)
    ensures forall j :: j in t || j in f ==> j < |d.code| && !HasValue(d.code, j)
  {
    hide WfFs, DropValues, Framed;
    NoDupSplit(t, f, c.jpc);
    var m := c.(code := DropValues(c.code, t));
    DropWf(c, t, m);
    DropKeeps(c.code, t, t);
    DropKeeps(c.code, t, f);
    DropWf(m, f, d);
    DropKeeps(m.code, f, t);
    DropKeeps(m.code, f, f);
    DropRun(s.p, s.ks, c.code, t, s.pc, s.r);
    DropRun(s.p, s.ks, m.code, f, s.pc, s.r);
    FramedWeaken(c, m, t, t + f);
    FromOwn(c, t + f);
    assert From(c, t + f, f) by { FromPart(c, t, f); }
    FramedTrans(c, m, d, t + f, f);
    FramedBegins(s, c, d, t + f);
    assert forall j :: j in t ==> Pending(d.code, j);
    assert forall j :: j in f ==> Pending(d.code, j);
  }

  lemma FromPart(c: Fs, t: seq<nat>, f: seq<nat>)
    ensures From(c, t + f, f)
  {
  }

  /** Values are removed from the core alone. */
  lemma DropCore(c: seq<Instr>, tail: seq<Instr>, list: seq<nat>)
    requires forall j :: j in list ==> j < |c|
    ensures DropValues(c + tail, list) == DropValues(c, list) + tail
  {
  }

  // ----- negating the value -----

  ghost predicate NegatedPrim(m: Sem, m2: Sem, n: nat) {
    if m.Val? then m2.Val? && m2.way == Prim && m2.v == Bool(!Truthy(m.v)) && Agree(m.r, m2.r, n) else m2 == m
  }

  /** The kind of the descriptor was negated. */
  ghost predicate Flipped(s: Start, fs: Fs, e: Exp, fs1: Fs, e1: Exp)
    requires KindOk(fs, e)
  {
    var c, c1 := Core(fs, e), Core(fs1, e1);
    && e1.t == e.t && e1.f == e.f && KindOk(fs1, e1) && WfFs(c1) && Framed(c, c1, []) && From(c, [], c1.jpc)
    && Begins(s, c) && Begins(s, c1) && fs1.freereg == fs.freereg && Settled(fs1, e1)
    && if Sofar(s, c).Fall? then Sofar(s, c1).Fall? && NegatedPrim(PrimSem(s, fs, e, Sofar(s, c).r), PrimSem(s, fs1, e1, Sofar(s, c1).r), fs.freereg)
       else Sofar(s, c1) == Sofar(s, c)
  }

  lemma DischargedWf(s: Start, c: Fs)
    requires WfFs(c) && Begins(s, c)
    ensures WfFs(Discharge(c)) && Framed(c, Discharge(c), []) && Begins(s, Discharge(c)) && Sofar(s, Discharge(c)) == Sofar(s, c)
  {
    hide SkipsOk, TargetsOk, Discharge;
    var d := Discharge(c);
    DischargedFields(c);
    DischargeRun(s, c);
    DischargeShape(c);
    PatchLandings(c.code, c.jpc, |c.code|, NO_REG, |c.code|);
    forall j | Pending(c.code, j) && j !in c.jpc
      ensures SameNode(c.code, d.code, j)
    {
      PatchKeeps(c.code, c.jpc, |c.code|, NO_REG, |c.code|, j);
    }
    forall i | 0 <= i < |c.code| && JumpsTo(d.code, i, |c.code|)
      ensures c.lasttarget >= |c.code|
    {
      DischargedJump(c, i);
    }
  }

  lemma DischargedJump(c: Fs, i: nat)
    requires WfFs(c) && i < |c.code| && JumpsTo(Discharge(c).code, i, |c.code|)
    ensures c.lasttarget >= |c.code|
  {
    if i in c.jpc {
      assert c.jpc != [];
    } else {
      assert JumpsTo(c.code, i, |c.code|);
    }
  }

  lemma DischargedFields(c: Fs)
    ensures Discharge(c) == c.(code := PatchList(c.code, c.jpc, |c.code|, NO_REG, |c.code|), jpc := [])
  {
  }

  lemma NotFlips(s: Start, fs: Fs, e: Exp, fs2: Fs, e2: Exp, fs3: Fs, r: Fs, e1: Exp)
    requires WfExp(fs, e) && !e.k.VJmp? && !e.k.VLocal? && Settled(fs, e) && Begins(s, Core(fs, e))
    requires (fs2, e2) == Discharge2AnyReg(fs, e) && fs3 == FreeExp(fs2, e2) && r == Emit(fs3, Not(0, RegOf(e2)))
    requires e1 == e2.(k := VReloc(|r.code| - 1)) && r.k <= s.ks && r.maxstack < MAXSTACK
    ensures Flipped(s, fs, e, r, e1)
  {
    hide WfFs, Framed, From, Discharge2AnyReg, FreeExp, Discharge, IsPendingList, NoDup;
    var c := Core(fs, e);
    NotCore(fs3, Not(0, RegOf(e2)), r, e1);
    AnyRegLoads(s, fs, e, fs2, e2, fs3);
    DischargedWf(s, fs3);
    FramedTrans(c, fs3, Core(r, e1), [], []) by { FromOwn(c, []); }
    FromNothing(c);
    if Sofar(s, c).Fall? {
      PrimSemValue(s, fs, e, Sofar(s, c).r);
    }
  }

  lemma FromNothing(c: Fs)
    ensures From(c, [], [])
  {
  }

  lemma NotCore(fs: Fs, i: Instr, r: Fs, e: Exp)
    requires r == Emit(fs, i) && e.k == VReloc(|r.code| - 1) && i.Not?
    ensures Core(r, e) == Discharge(fs) && KindOk(r, e) && r.code[e.k.pc] == i && r == fs.(code := r.code, jpc := []) && Discharge(fs).jpc == []
  {
    assert r.code[..|r.code| - 1] == Discharge(fs).code;
  }

  lemma ConstFlips(s: Start, fs: Fs, e: Exp, k: Kind)
    requires WfExp(fs, e) && Settled(fs, e) && Begins(s, Core(fs, e))
    requires (e.k.VNil? && k.VTrue?) || (e.k.VFalse? && k.VTrue?) || ((e.k.VK? || e.k.VKNum? || e.k.VTrue?) && k.VFalse?)
    ensures Flipped(s, fs, e, fs, e.(k := k))
  {
    hide WfFs;
    FramedSelf(fs);
  }

  lemma InvertFlips(s: Start, fs: Fs, e: Exp, r: Fs)
    requires WfExp(fs, e) && e.k.VJmp? && Begins(s, Core(fs, e)) && r == InvertJump(fs, e.k.pc)
    ensures Flipped(s, fs, e, r, e)
  {
    hide WfFs, InvertJump, Decide;
    InvertOk(s, fs, e, r);
    FramedSelf(Core(fs, e));
  }

  lemma FlipOk(s: Start, fs: Fs, e: Exp, r: Fs, e1: Exp)
    requires WfExp(fs, e) && !e.k.VLocal? && Settled(fs, e) && Begins(s, Core(fs, e))
    requires (r, e1) == FlipKind(fs, e) && r.k <= s.ks && r.maxstack < MAXSTACK
    ensures Flipped(s, fs, e, r, e1)
  {
    hide WfExp, Flipped, Discharge2AnyReg, FreeExp, Emit, InvertJump, Begins;
    match e.k
    case VNil => ConstFlips(s, fs, e, VTrue);
    case VFalse => ConstFlips(s, fs, e, VTrue);
    case VK(_) => ConstFlips(s, fs, e, VFalse);
    case VKNum(_) => ConstFlips(s, fs, e, VFalse);
    case VTrue => ConstFlips(s, fs, e, VFalse);
    case VJmp(j) => InvertFlips(s, fs, e, r);
    case _ =>
      var (fs2, e2) := Discharge2AnyReg(fs, e);
      NotFlips(s, fs, e, fs2, e2, FreeExp(fs2, e2), r, e1);
  }

  // ----- codenot -----

  /** The descriptor delivers the negation. */
  ghost predicate Negated(m: Sem, m2: Sem, n: nat) {
    if m.Val? then m2.Val? && m2.v == Bool(!Truthy(m.v)) && Agree(m.r, m2.r, n) else m2 == m
  }

  /** One expression descriptor turned into another. */
  ghost predicate Turned(s: Start, c: Fs, own: seq<nat>, r: Fs, e: Exp) {
    && WfExp(r, e) && Settled(r, e) && Framed(c, Core(r, e), own) && From(c, own, e.t + e.f + Core(r, e).jpc)
    && r.freereg == c.freereg && Begins(s, Core(r, e))
  }

  /** After the values are gone: kind, core and tail. */
  lemma DroppedKind(s: Start, fs: Fs, e: Exp, r: Fs)
    requires KindOk(fs, e) && r == RemoveValues(RemoveValues(fs, e.t), e.f)
    requires IsPendingList(Core(fs, e).code, e.t) && IsPendingList(Core(fs, e).code, e.f)
    ensures var e1 := e.(t := e.f, f := e.t); var c := Core(fs, e);
      && KindOk(r, e1) && Core(r, e1) == c.(code := DropValues(DropValues(c.code, e.t), e.f))
      && (Settled(fs, e) ==> Settled(r, e1))
      && (forall q :: PrimSem(s, r, e1, q) == PrimSem(s, fs, e, q))
  {
    hide DropValues, Decide;
    DroppedCode(fs, e, r);
  }

  lemma DroppedCode(fs: Fs, e: Exp, r: Fs)
    requires KindOk(fs, e) && r == RemoveValues(RemoveValues(fs, e.t), e.f)
    requires IsPendingList(Core(fs, e).code, e.t) && IsPendingList(Core(fs, e).code, e.f)
    ensures var c, n := Core(fs, e), |Core(fs, e).code|;
      && |r.code| == |fs.code| && r.code[..n] == DropValues(DropValues(c.code, e.t), e.f)
      && (forall i :: n <= i < |fs.code| ==> r.code[i] == fs.code[i])
  {
    hide DropValues;
    var c := Core(fs, e);
    assert forall j :: j in e.t ==> Pending(c.code, j);
    assert forall j :: j in e.f ==> Pending(c.code, j);
    DropTail(c.code, fs.code[|c.code|..], e.t, e.f, fs.code, r.code);
  }

  lemma DropTail(c: seq<Instr>, tail: seq<Instr>, t: seq<nat>, f: seq<nat>, all: seq<Instr>, r: seq<Instr>)
    requires all == c + tail && r == DropValues(DropValues(all, t), f)
    requires (forall j :: j in t ==> j < |c|) && (forall j :: j in f ==> j < |c|)
    ensures |r| == |all| && r[..|c|] == DropValues(DropValues(c, t), f) && forall i :: |c| <= i < |all| ==> r[i] == all[i]
  {
    hide DropValues;
    DropCore(c, tail, t);
    DropCore(DropValues(c, t), tail, f);
    var d := DropValues(DropValues(c, t), f);
    assert r == d + tail && |d| == |c|;
  }

  lemma CodeNotOk(s: Start, fs: Fs, e: Exp, r: Fs, e1: Exp)
    requires WfExp(fs, e) && Settled(fs, e) && Begins(s, Core(fs, e)) && Honest(SemOf(s, fs, e))
    requires (r, e1) == CodeNot(fs, e) && r.k <= s.ks && r.maxstack < MAXSTACK
    ensures Turned(s, Core(fs, e), e.t + e.f, r, e1)
    ensures Negated(SemOf(s, fs, e), SemOf(s, r, e1), fs.freereg) && Honest(SemOf(s, r, e1))
  {
    hide WfFs, Framed, From, IsPendingList, NoDup, DropValues, FlipKind, KindOk, PrimSem, Settled;
    var d := DischargeVars(e);
    VarsSame(s, fs, e);
    var (fs1, e2) := FlipKind(fs, d);
    CodeNotParts(fs, e, r, e1);
    FlipOk(s, fs, d, fs1, e2);
    var c, c1 := Core(fs, d), Core(fs1, e2);
    ListsKept(c, c1, e.t, e.f);
    DroppedKind(s, fs1, e2, r);
    DropBoth(s, c1, e.t, e.f, Core(r, e1));
    NotFramed(c, c1, Core(r, e1), e.t, e.f);
    if Sofar(s, c).Exit? {
      assert Sofar(s, c).j in e.t ==> Sofar(s, c).j !in e.f by { NoDupSplit(e.t, e.f, c.jpc); }
    }
  }

  lemma CodeNotParts(fs: Fs, e: Exp, r: Fs, e1: Exp)
    requires (r, e1) == CodeNot(fs, e)
    ensures var (fs1, e2) := FlipKind(fs, DischargeVars(e));
      && r == RemoveValues(RemoveValues(fs1, e2.t), e2.f) && e1 == e2.(t := e2.f, f := e2.t)
      && r.k == fs1.k && r.maxstack == fs1.maxstack && r.freereg == fs1.freereg
  {
  }

  lemma NotFramed(c: Fs, c1: Fs, d: Fs, t: seq<nat>, f: seq<nat>)
    requires Framed(c, c1, []) && Framed(c1, d, t + f) && From(c, [], c1.jpc) && d.jpc == c1.jpc
    requires NoDup(t + f + c1.jpc)
    ensures Framed(c, d, t + f) && From(c, t + f, f + t + d.jpc) && NoDup(f + t + d.jpc)
  {
    FramedWeaken(c, c1, [], t + f);
    FromOwn(c, t + f);
    FramedTrans(c, c1, d, t + f, t + f);
    NoDupSplit(t, f, c1.jpc);
    NoDupAppend(f, t);
    NoDupAppend(f + t, d.jpc);
  }
}
