/** exp2reg: all the ways in which an expression delivers its value meet in one register. */
module LuaJoin {
  import opened Common
  import opened LuaVm
  import opened LuaCode
  import opened LuaEmit
  import opened LuaSem

  // ----- loading true and false -----

  /** The code ends with the two instructions that load a boolean. */
  ghost predicate BoolTail(code: seq<Instr>, pf: int, reg: nat) {
    && 0 <= pf && pf + 2 == |code| && Landing(code, pf)
    && code[pf] == LoadBool(reg, false, true) && code[pf + 1] == LoadBool(reg, true, false)
  }

  lemma BoolTailRun(p: Prims, ks: seq<Value>, code: seq<Instr>, pf: int, reg: nat, b: bool, r: Regs)
    requires BoolTail(code, pf, reg)
    ensures Run(p, ks, code, if b then pf + 1 else pf, r) == Fall(Set(r, reg, Bool(b)))
    ensures Landing(code, if b then pf + 1 else pf)
  {
    if !b {
      assert Advance(p, ks, code, pf, r) == Go(pf + 2, Set(r, reg, Bool(false)));
    } else {
      assert Advance(p, ks, code, pf + 1, r) == Go(pf + 2, Set(r, reg, Bool(true)));
    }
  }

  /** Where the jumps of a list without a value may go: nowhere, if there are none, or to
      the load of `b`. */
  ghost predicate Dest(code: seq<Instr>, list: seq<nat>, pf: int, dt: int, reg: nat, b: bool) {
    if pf == NO_JUMP then dt == NO_JUMP && forall j :: j in list && j < |code| ==> HasValue(code, j)
    else BoolTail(code, pf, reg) && dt == (if b then pf + 1 else pf) && forall j :: j in list ==> j < pf
  }

  /** The run after its jumps in `list` were led to here. */
  ghost predicate Led(o: Out, o2: Out, code: seq<Instr>, list: seq<nat>, reg: nat, b: bool) {
    if o.Exit? && o.j in list then o2.Fall? && Updates(o.r, o2.r, reg, NodeValue(code, o.j, o.r, b)) else o2 == o
  }

  lemma PatchLeads(s: Start, m: Fs, list: seq<nat>, reg: nat, pf: int, dt: int, b: bool, r: Fs)
    requires WfFs(m) && Begins(s, m) && IsPendingList(m.code, list) && Dest(m.code, list, pf, dt, reg, b) && reg != NO_REG
    requires forall j :: j in list ==> j !in m.jpc
    requires r == m.(code := PatchList(m.code, list, |m.code|, reg, dt))
    ensures Led(Sofar(s, m), Sofar(s, r), m.code, list, reg, b)
  {
    hide WfFs, BoolTail;
    var n := |m.code|;
    assert Landing(m.code, n) by { PatchEnd(m); }
    PatchForward(m.code, list, pf, dt, reg, b);
    RunPatch(s.p, s.ks, m.code, list, n, reg, dt, s.pc, s.r);
    var o := Run(s.p, s.ks, m.code, s.pc, s.r);
    if o.Exit? && o.j in list {
      if !HasValue(m.code, o.j) {
        PatchTail(m.code, list, pf, reg, dt);
        BoolTailRun(s.p, s.ks, r.code, pf, reg, b, o.r);
      }
    }
  }

  lemma PatchEnd(m: Fs)
    requires WfFs(m)
    ensures Landing(m.code, |m.code|)
  {
  }

  lemma PatchForward(code: seq<Instr>, list: seq<nat>, pf: int, dt: int, reg: nat, b: bool)
    requires IsPendingList(code, list) && Dest(code, list, pf, dt, reg, b)
    ensures ForwardTargets(code, list, |code|, dt)
    ensures Landing(code, dt) || forall k :: 0 <= k < |list| && list[k] < |code| ==> HasValue(code, list[k])
  {
    forall k | 0 <= k < |list| && list[k] < |code|
      ensures PatchTarget(code, list[k], |code|, dt) > list[k]
    {
      assert list[k] in list;
    }
    assert pf != NO_JUMP ==> Landing(code, dt);
  }

  lemma PatchTail(code: seq<Instr>, list: seq<nat>, pf: int, reg: nat, dt: int)
    requires IsPendingList(code, list) && BoolTail(code, pf, reg) && forall j :: j in list ==> j < pf
    ensures BoolTail(PatchList(code, list, |code|, reg, dt), pf, reg)
  {
    PatchLandings(code, list, |code|, reg, dt);
  }

  /** Patching keeps the generator state in order. */
  lemma PatchWf(m: Fs, list: seq<nat>, reg: nat, pf: int, dt: int, b: bool, r: Fs)
    requires WfFs(m) && m.lasttarget >= |m.code| && IsPendingList(m.code, list) && Dest(m.code, list, pf, dt, reg, b)
    requires forall j :: j in list ==> j !in m.jpc
    requires r == m.(code := PatchList(m.code, list, |m.code|, reg, dt))
    ensures WfFs(r) && Framed(m, r, list)
  {
    PatchLandings(m.code, list, |m.code|, reg, dt);
    forall j | Pending(m.code, j) && j !in list
      ensures SameNode(m.code, r.code, j)
    {
      PatchKeeps(m.code, list, |m.code|, reg, dt, j);
    }
    assert Kept(m.code, r.code, m.jpc);
    KeptPending(m.code, r.code, m.jpc);
    PatchShape(m.code, list, |m.code|, reg, dt);
  }

  lemma PatchShape(code: seq<Instr>, list: seq<nat>, vt: int, reg: nat, dt: int)
    requires IsPendingList(code, list) && SkipsOk(code) && TargetsOk(code) && vt <= |code| && dt <= |code|
    ensures var c := PatchList(code, list, vt, reg, dt); SkipsOk(c) && TargetsOk(c)
  {
    var c := PatchList(code, list, vt, reg, dt);
    forall i | 0 <= i < |code|
      ensures c[i].LoadBool? <==> code[i].LoadBool?
      ensures c[i].LoadBool? ==> c[i] == code[i]
      ensures c[i].Jmp? && c[i].sbx != NO_JUMP ==> i + 1 + c[i].sbx <= |code|
    {
      if i in list {
        assert Pending(code, i);
      }
    }
  }

  // ----- the code before the patches -----

  /** What loading the booleans does to a run that falls through. */
  ghost predicate Loaded(o: Out, o2: Out, reg: nat, jmp: bool) {
    if o.Fall? then o2.Fall? && (if jmp then Updates(o.r, o2.r, reg, Bool(false)) else o2.r == o.r) else o2 == o
  }

  /** The two loads, appended. */
  lemma BooleansAppended(s: Start, a: Fs, m: Fs, reg: nat, fj: seq<nat>)
    requires WfFs(a) && a.jpc == [] && reg != NO_REG
    requires IsPendingList(a.code, fj) && NoDup(fj)
    requires m == a.(code := a.code + [LoadBool(reg, false, true), LoadBool(reg, true, false)], lasttarget := |a.code| + 2, jpc := fj)
    ensures WfFs(m) && BoolTail(m.code, |a.code|, reg)
    ensures forall j :: Pending(a.code, j) ==> SameNode(a.code, m.code, j)
    ensures forall d :: d <= |a.code| && Landing(a.code, d) ==> Landing(m.code, d)
  {
    var ext := [LoadBool(reg, false, true), LoadBool(reg, true, false)];
    assert forall i :: 0 <= i < |a.code| ==> m.code[i] == a.code[i];
    assert m.code[|a.code|] == ext[0] && m.code[|a.code| + 1] == ext[1];
    assert Kept(a.code, m.code, fj) by {
      forall j | j in fj
        ensures SameNode(a.code, m.code, j)
      {
        assert Pending(a.code, j);
      }
    }
    KeptPending(a.code, m.code, fj);
    assert Landing(a.code, |a.code|);
  }

  lemma BooleansRun(s: Start, a: Fs, m: Fs, reg: nat)
    requires s.pc <= |a.code| && Run(s.p, s.ks, a.code, s.pc, s.r) != Stuck
    requires m.code == a.code + [LoadBool(reg, false, true), LoadBool(reg, true, false)] && BoolTail(m.code, |a.code|, reg)
    ensures var o := Run(s.p, s.ks, a.code, s.pc, s.r);
      Run(s.p, s.ks, m.code, s.pc, s.r) == if o.Fall? then Fall(Set(o.r, reg, Bool(false))) else o
  {
    var ext := [LoadBool(reg, false, true), LoadBool(reg, true, false)];
    RunAppend(s.p, s.ks, a.code, ext, s.pc, s.r);
    var o := Run(s.p, s.ks, a.code, s.pc, s.r);
    if o.Fall? {
      BoolTailRun(s.p, s.ks, m.code, |a.code|, reg, false, o.r);
    }
  }

  /** LoadBooleans, label included, as one append. */
  lemma BooleansShape(fs: Fs, reg: nat, jmp: bool)
    requires jmp ==> fs.jpc == []
    ensures var (m, pf, pt) := LoadBooleans(fs, reg, jmp);
      var (a, fj) := if jmp then (fs, []) else EmitJump(fs);
      && pf == |a.code| && pt == |a.code| + 1 && a.jpc == []
      && Label(m) == a.(code := a.code + [LoadBool(reg, false, true), LoadBool(reg, true, false)], lasttarget := |a.code| + 2, jpc := fj)
  {
    var (a, fj) := if jmp then (fs, []) else EmitJump(fs);
    var fs2 := Emit(Label(a), LoadBool(reg, false, true));
    assert fs2.code == a.code + [LoadBool(reg, false, true)];
    var fs3 := Emit(Label(fs2), LoadBool(reg, true, false));
    assert fs3.code == fs2.code + [LoadBool(reg, true, false)];
    assert fs3.code == a.code + [LoadBool(reg, false, true), LoadBool(reg, true, false)];
    assert fs3.jpc + fj == fj;
  }

  ghost predicate Disjoint(a: seq<nat>, b: seq<nat>) { forall j :: j in a ==> j !in b }

  lemma BooleansOk(s: Start, fs: Fs, reg: nat, jmp: bool, m: Fs, pf: int, pt: int)
    requires WfFs(fs) && Begins(s, fs) && (jmp ==> fs.jpc == []) && reg != NO_REG
    requires LoadBooleans(fs, reg, jmp).1 == pf && LoadBooleans(fs, reg, jmp).2 == pt && m == Label(LoadBooleans(fs, reg, jmp).0)
    ensures WfFs(m) && m.lasttarget == |m.code| && BoolTail(m.code, pf, reg) && pt == pf + 1 && pf >= |fs.code|
    ensures Framed(fs, m, []) && From(fs, [], m.jpc) && Begins(s, m)
    ensures Loaded(Sofar(s, fs), Sofar(s, m), reg, jmp)
    ensures m.freereg == fs.freereg && m.maxstack == fs.maxstack
  {
    hide LoadBooleans, Label;
    BooleansShape(fs, reg, jmp);
    if jmp {
      BooleansAppended(s, fs, m, reg, []);
      BooleansRun(s, fs, m, reg);
      SetUpdatesIf(Sofar(s, fs), reg);
      assert Framed(fs, m, []);
      FramedBegins(s, fs, m, []);
    } else {
      JumpBooleans(s, fs, m, reg);
    }
  }

  lemma SetUpdatesIf(o: Out, reg: nat)
    requires reg != NO_REG
    ensures o.Fall? ==> Updates(o.r, Set(o.r, reg, Bool(false)), reg, Bool(false))
  {
  }

  lemma JumpBooleans(s: Start, fs: Fs, m: Fs, reg: nat)
    requires WfFs(fs) && Begins(s, fs) && reg != NO_REG
    requires var (a, fj) := EmitJump(fs);
      m == a.(code := a.code + [LoadBool(reg, false, true), LoadBool(reg, true, false)], lasttarget := |a.code| + 2, jpc := fj)
    ensures WfFs(m) && BoolTail(m.code, |fs.code| + 1, reg)
    ensures Framed(fs, m, []) && From(fs, [], m.jpc) && Begins(s, m)
    ensures Loaded(Sofar(s, fs), Sofar(s, m), reg, false)
  {
    var (a, fj) := EmitJump(fs);
    EmitJumpWf(fs);
    EmitJumpRun(s, fs);
    BooleansAppended(s, a, m, reg, fj);
    BooleansRun(s, a, m, reg);
    JumpFramed(fs);
    if Sofar(s, fs).Exit? {
      ExitPending(s.p, s.ks, fs.code, s.pc, s.r);
    }
    assert Framed(fs, m, []) by { JumpBooleansFramed(fs, a, m, fj); }
    FramedBegins(s, fs, m, []);
  }

  lemma JumpBooleansFramed(fs: Fs, a: Fs, m: Fs, fj: seq<nat>)
    requires Framed(fs, a, []) && (a, fj) == EmitJump(fs)
    requires |a.code| <= |m.code| && m.jpc == fj && m == a.(code := m.code, jpc := fj, lasttarget := |m.code|)
    requires forall j :: Pending(a.code, j) ==> SameNode(a.code, m.code, j)
    requires forall d :: d <= |a.code| && Landing(a.code, d) ==> Landing(m.code, d)
    ensures Framed(fs, m, [])
  {
    forall j | Pending(fs.code, j) && j !in fs.jpc
      ensures SameNode(fs.code, m.code, j) && j !in m.jpc
    {
      assert SameNode(fs.code, a.code, j);
      assert Pending(a.code, j);
    }
  }

  lemma JumpFramed(fs: Fs)
    ensures Framed(fs, EmitJump(fs).0, [])
  {
    var a := EmitJump(fs).0;
    assert forall i :: 0 <= i < |fs.code| ==> a.code[i] == fs.code[i];
  }

  /** A run that stops at a jump stops at a pending one. */
  lemma {:induction false} ExitPending(p: Prims, ks: seq<Value>, code: seq<Instr>, pc: nat, r: Regs)
    requires pc <= |code| && Run(p, ks, code, pc, r).Exit?
    ensures Pending(code, Run(p, ks, code, pc, r).j)
    decreases |code| - pc
  {
    match Advance(p, ks, code, pc, r)
    case Go(pc', r') => ExitPending(p, ks, code, pc', r');
    case Halt(_) =>
  }

  // ----- joining -----

  /** The run after both lists were led to here. */
  ghost predicate Joined(o: Out, o2: Out, code: seq<Instr>, t: seq<nat>, f: seq<nat>, reg: nat, jmp: bool) {
    match o
    case Fall(q) => o2.Fall? && (if jmp then Updates(q, o2.r, reg, Bool(false)) else o2.r == q)
    case Exit(j, q) =>
      if j in t then o2.Fall? && Updates(q, o2.r, reg, NodeValue(code, j, q, true))
      else if j in f then o2.Fall? && Updates(q, o2.r, reg, NodeValue(code, j, q, false))
      else o2 == o
    case _ => o2 == o
  }

  lemma JoinLed(o: Out, oM: Out, o1: Out, o2: Out, c: seq<Instr>, cM: seq<Instr>, c1: seq<Instr>, t: seq<nat>, f: seq<nat>, reg: nat, jmp: bool)
    requires Loaded(o, oM, reg, jmp) && Led(oM, o1, cM, f, reg, false) && Led(o1, o2, c1, t, reg, true)
    requires forall j, q :: j in f ==> NodeValue(cM, j, q, false) == NodeValue(c, j, q, false)
    requires forall j, q :: j in t ==> NodeValue(c1, j, q, true) == NodeValue(c, j, q, true)
    requires Disjoint(t, f)
    ensures Joined(o, o2, c, t, f, reg, jmp)
  {
    hide Updates;
  }

  lemma NoDupSplit(t: seq<nat>, f: seq<nat>, j: seq<nat>)
    requires NoDup(t + f + j)
    ensures NoDup(t) && NoDup(f) && NoDup(j) && Disjoint(t, f) && Disjoint(t, j) && Disjoint(f, j)
  {
    var s := t + f + j;
    assert forall i :: 0 <= i < |t| ==> s[i] == t[i];
    assert forall i :: 0 <= i < |f| ==> s[|t| + i] == f[i];
    assert forall i :: 0 <= i < |j| ==> s[|t| + |f| + i] == j[i];
  }

  /** The two patches at the end of exp2reg. */
  lemma PatchBoth(s: Start, m: Fs, t: seq<nat>, f: seq<nat>, reg: nat, pf: int, pt: int, m1: Fs, r: Fs)
    requires WfFs(m) && Begins(s, m) && m.lasttarget >= |m.code| && reg != NO_REG
    requires IsPendingList(m.code, t) && IsPendingList(m.code, f) && Disjoint(t, f) && Disjoint(t, m.jpc) && Disjoint(f, m.jpc)
    requires Dest(m.code, f, pf, pf, reg, false) && Dest(m.code, t, pf, pt, reg, true)
    requires m1 == m.(code := PatchList(m.code, f, |m.code|, reg, pf)) && r == m1.(code := PatchList(m1.code, t, |m1.code|, reg, pt))
    ensures WfFs(r) && Framed(m, r, t + f) && Begins(s, r) && Kept(m.code, m1.code, t)
    ensures Led(Sofar(s, m), Sofar(s, m1), m.code, f, reg, false) && Led(Sofar(s, m1), Sofar(s, r), m1.code, t, reg, true)
  {
    hide WfFs, BoolTail, Updates;
    PatchLeads(s, m, f, reg, pf, pf, false, m1);
    PatchWf(m, f, reg, pf, pf, false, m1);
    FramedBegins(s, m, m1, f);
    FramedKeeps(m, m1, f, t);
    KeptPending(m.code, m1.code, t);
    assert Dest(m1.code, t, pf, pt, reg, true) by {
      if pf != NO_JUMP {
        PatchTail(m.code, f, pf, reg, pf);
      }
    }
    PatchLeads(s, m1, t, reg, pf, pt, true, r);
    PatchWf(m1, t, reg, pf, pt, true, r);
    FramedBegins(s, m1, r, t);
    FramedWeaken(m, m1, f, t + f);
    FramedTrans(m, m1, r, t + f, t);
  }

  lemma FramedWeaken(a: Fs, b: Fs, x: seq<nat>, y: seq<nat>)
    requires Framed(a, b, x) && forall j :: j in x ==> j in y
    ensures Framed(a, b, y)
  {
  }

  lemma JoinDests(fs: Fs, m: Fs, t: seq<nat>, f: seq<nat>, reg: nat, pf: int, pt: int)
    requires IsPendingList(fs.code, t) && IsPendingList(fs.code, f)
    requires Kept(fs.code, m.code, t) && Kept(fs.code, m.code, f)
    requires if NeedValue(fs.code, t) || NeedValue(fs.code, f) then BoolTail(m.code, pf, reg) && pt == pf + 1 && pf >= |fs.code|
             else pf == NO_JUMP && pt == NO_JUMP
    ensures Dest(m.code, f, pf, pf, reg, false) && Dest(m.code, t, pf, pt, reg, true)
  {
    KeptPending(fs.code, m.code, t);
    KeptPending(fs.code, m.code, f);
    assert forall j :: j in t ==> Pending(fs.code, j);
    assert forall j :: j in f ==> Pending(fs.code, j);
    if pf == NO_JUMP {
      forall j | j in t
        ensures HasValue(fs.code, j)
      {
        var k :| 0 <= k < |t| && t[k] == j;
      }
      forall j | j in f
        ensures HasValue(fs.code, j)
      {
        var k :| 0 <= k < |f| && f[k] == j;
      }
    }
  }

  lemma LabelFramed(s: Start, fs: Fs)
    requires WfFs(fs) && Begins(s, fs)
    ensures WfFs(Label(fs)) && Framed(fs, Label(fs), []) && Begins(s, Label(fs)) && Sofar(s, Label(fs)) == Sofar(s, fs)
  {
  }

  /** What joining does: the value of each way arrives in the register. */
  lemma JoinOk(s: Start, fs: Fs, t: seq<nat>, f: seq<nat>, reg: nat, jmp: bool, r: Fs)
    requires WfFs(fs) && Begins(s, fs) && reg != NO_REG
    requires IsPendingList(fs.code, t) && IsPendingList(fs.code, f) && NoDup(t + f + fs.jpc)
    requires jmp ==> fs.jpc == [] && NeedValue(fs.code, t)
    requires r == JoinJumps(fs, t, f, reg, jmp)
    ensures WfFs(r) && Framed(fs, r, t + f) && From(fs, [], r.jpc) && Begins(s, r)
    ensures r.freereg == fs.freereg && r.maxstack == fs.maxstack
    ensures Joined(Sofar(s, fs), Sofar(s, r), fs.code, t, f, reg, jmp)
  {
    hide WfFs, BoolTail, Updates, LoadBooleans, NeedValue, NoDup, PatchList, Kept, Framed, From;
    NoDupSplit(t, f, fs.jpc);
    if t == [] && f == [] {
      assert !NeedValue(fs.code, t) by { NoNeed(fs.code); }
      FramedSelf(fs);
      assert t + f == [];
    } else {
      var need := NeedValue(fs.code, t) || NeedValue(fs.code, f);
      var (fs2, pf, pt) := if need then LoadBooleans(fs, reg, jmp) else (fs, NO_JUMP, NO_JUMP);
      var m := Label(fs2);
      if need {
        BooleansOk(s, fs, reg, jmp, m, pf, pt);
      } else {
        LabelFramed(s, fs);
        FramedSelf(fs);
      }
      FramedKeeps(fs, m, [], t);
      FramedKeeps(fs, m, [], f);
      JoinDests(fs, m, t, f, reg, pf, pt);
      KeptPending(fs.code, m.code, t);
      KeptPending(fs.code, m.code, f);
      var m1 := m.(code := PatchList(m.code, f, |m.code|, reg, pf));
      PatchBoth(s, m, t, f, reg, pf, pt, m1, r);
      KeptPending(m.code, m1.code, t);
      JoinLed(Sofar(s, fs), Sofar(s, m), Sofar(s, m1), Sofar(s, r), fs.code, m.code, m1.code, t, f, reg, jmp);
      FramedWeaken(fs, m, [], t + f);
      FromOwn(fs, t + f);
      FramedTrans(fs, m, r, t + f, t + f);
    }
  }

  lemma NoNeed(code: seq<Instr>)
    ensures !NeedValue(code, [])
  {
  }

  lemma FramedSelf(fs: Fs)
    ensures Framed(fs, fs, []) && From(fs, [], fs.jpc)
  {
  }

  lemma FromOwn(fs: Fs, own: seq<nat>)
    ensures From(fs, own, own)
  {
  }

  // ----- exp2reg -----

  /** The run `o` ends here with the value in `reg`, if the descriptor delivers one. */
  ghost predicate Delivered(m: Sem, o: Out, reg: nat) {
    match m
    case Val(v, _, q) => o.Fall? && Updates(q, o.r, reg, v)
    case Outside(j, q) => o == Exit(j, q)
    case Fails => o == Err
    case Broken => true
  }

  /** A list of a descriptor in a state reached by emitting code. */
  lemma ListsKept(c: Fs, fs: Fs, t: seq<nat>, f: seq<nat>)
    requires WfFs(fs) && Framed(c, fs, []) && From(c, [], fs.jpc)
    requires IsPendingList(c.code, t) && IsPendingList(c.code, f) && NoDup(t + f + c.jpc)
    ensures IsPendingList(fs.code, t) && IsPendingList(fs.code, f) && NoDup(t + f + fs.jpc)
    ensures forall j, q, b :: j in t || j in f ==> NodeValue(fs.code, j, q, b) == NodeValue(c.code, j, q, b)
  {
    NoDupSplit(t, f, c.jpc);
    FramedKeeps(c, fs, [], t);
    FramedKeeps(c, fs, [], f);
    KeptPending(c.code, fs.code, t);
    KeptPending(c.code, fs.code, f);
    NoDupAppend(t, f);
    NoDupAppend(t + f, fs.jpc);
  }

  lemma PrimSemValue(s: Start, fs: Fs, e: Exp, q: Regs)
    requires KindOk(fs, e) && !e.k.VJmp?
    ensures PrimSem(s, fs, e, q) == Val(PrimValue(fs, e, q), Prim, q)
  {
  }

  lemma PlainDelivers(s: Start, fs: Fs, e: Exp, reg: nat, fs1: Fs, r: Fs)
    requires WfExp(fs, e) && !e.k.VJmp? && Begins(s, Core(fs, e)) && reg != NO_REG
    requires Loads(s, Core(fs, e), fs1, reg, PrimValue(fs, e, EndRegs(s, Core(fs, e))))
    requires r == JoinJumps(fs1, e.t, e.f, reg, false)
    ensures WfFs(r) && Framed(Core(fs, e), r, e.t + e.f) && From(Core(fs, e), [], r.jpc) && Begins(s, r)
    ensures r.freereg == fs.freereg && r.maxstack == fs.maxstack
    ensures Delivered(SemOf(s, fs, e), Sofar(s, r), reg)
  {
    hide WfFs, Framed, NoDup, Kept, JoinJumps, KindOk, Discharge2Reg;
    var c := Core(fs, e);
    ListsKept(c, fs1, e.t, e.f);
    JoinOk(s, fs1, e.t, e.f, reg, false, r);
    if Sofar(s, c).Fall? {
      PrimSemValue(s, fs, e, Sofar(s, c).r);
    }
    FramedWeaken(c, fs1, [], e.t + e.f);
    FromOwn(c, e.t + e.f);
    FramedTrans(c, fs1, r, e.t + e.f, e.t + e.f);
    FromStep(c, fs1, [], r.jpc);
  }

  lemma FromStep(a: Fs, b: Fs, own: seq<nat>, list: seq<nat>)
    requires Framed(a, b, own) && From(a, own, b.jpc) && From(b, [], list)
    ensures From(a, own, list)
  {
  }

  /** A comparison is its core followed by the test and its jump. */
  lemma JmpShape(fs: Fs, e: Exp)
    requires WfExp(fs, e) && e.k.VJmp?
    ensures var c, test := Core(fs, e), fs.code[e.k.pc - 1];
      fs == CondJump(c, test).0 && fs.code == c.code + [test, Jmp(NO_JUMP)] && Discharge(c) == c && e.k.pc == |c.code| + 1
  {
    var c, test := Core(fs, e), fs.code[e.k.pc - 1];
    assert Discharge(c).code == c.code;
    assert fs.code == c.code + [test, Jmp(NO_JUMP)];
    assert Emit(c, test).code == c.code + [test];
    assert CondJump(c, test).0.code == c.code + [test, Jmp(NO_JUMP)];
  }

  lemma JmpWf(s: Start, fs: Fs, e: Exp)
    requires WfExp(fs, e) && e.k.VJmp? && Begins(s, Core(fs, e))
    ensures WfFs(fs) && Framed(Core(fs, e), fs, []) && fs.jpc == []
    ensures Sofar(s, fs) == Branch(s, Sofar(s, Core(fs, e)), fs.code[e.k.pc - 1], e.k.pc)
  {
    hide WfFs, Framed;
    var c, test := Core(fs, e), fs.code[e.k.pc - 1];
    JmpShape(fs, e);
    CondJumpWf(c, test);
    CondJumpRun(s, c, test);
    EmitFramed(c, fs, [test, Jmp(NO_JUMP)]) by { WfPending(c); }
  }

  lemma WfPending(c: Fs)
    requires WfFs(c)
    ensures IsPendingList(c.code, c.jpc)
  {
  }

  /** The jump of a comparison joins the true list. */
  lemma JmpLists(fs: Fs, e: Exp)
    requires WfExp(fs, e) && e.k.VJmp? && WfFs(fs) && Framed(Core(fs, e), fs, [])
    ensures IsPendingList(fs.code, e.t + [e.k.pc]) && IsPendingList(fs.code, e.f) && NoDup(e.t + [e.k.pc] + e.f + fs.jpc)
    ensures NeedValue(fs.code, e.t + [e.k.pc])
    ensures forall j, q, b :: j in e.t || j in e.f ==> NodeValue(fs.code, j, q, b) == NodeValue(Core(fs, e).code, j, q, b)
    ensures e.k.pc !in e.t && e.k.pc !in e.f
  {
    var c, t := Core(fs, e), e.t + [e.k.pc];
    ListsKept(c, fs, e.t, e.f);
    assert forall j :: j in e.t ==> Pending(c.code, j);
    assert forall j :: j in e.f ==> Pending(c.code, j);
    NoDupSplit(e.t, e.f, fs.jpc);
    NoDupAppend(e.t, [e.k.pc]);
    NoDupAppend(t, e.f);
    assert t[|e.t|] == e.k.pc;
    assert t + e.f + [] == t + e.f;
  }

  lemma JmpDelivers(s: Start, fs: Fs, e: Exp, reg: nat, r: Fs)
    requires WfExp(fs, e) && e.k.VJmp? && Begins(s, Core(fs, e)) && reg != NO_REG && SemOf(s, fs, e) != Broken
    requires r == JoinJumps(fs, e.t + [e.k.pc], e.f, reg, true)
    ensures WfFs(r) && Framed(Core(fs, e), r, e.t + e.f) && From(Core(fs, e), [], r.jpc) && Begins(s, r)
    ensures r.freereg == fs.freereg && r.maxstack == fs.maxstack
    ensures Delivered(SemOf(s, fs, e), Sofar(s, r), reg)
  {
    hide WfFs, Framed, NoDup, Kept, JoinJumps, NeedValue, Updates, Decide;
    var c, t := Core(fs, e), e.t + [e.k.pc];
    JmpWf(s, fs, e);
    JmpLists(fs, e);
    FramedBegins(s, c, fs, []) by { assert Sofar(s, fs) != Stuck; }
    JoinOk(s, fs, t, e.f, reg, true, r);
    FramedWeaken(c, fs, [], e.t + e.f);
    assert From(c, e.t + e.f, t + e.f);
    FramedTrans(c, fs, r, e.t + e.f, t + e.f);
    FromStep(c, fs, [], r.jpc);
    if Sofar(s, c).Exit? {
      ExitPending(s.p, s.ks, c.code, s.pc, s.r);
    }
  }

  /** exp2reg: whichever way the expression delivers its value, the value ends up in the
      register, and nothing else changes. */
  lemma Exp2RegDelivers(s: Start, fs: Fs, e: Exp, reg: nat, r: Fs)
    requires WfExp(fs, e) && Begins(s, Core(fs, e)) && reg != NO_REG && SemOf(s, fs, e) != Broken
    requires r == Exp2Reg(fs, e, reg).0 && r.k <= s.ks
    ensures WfFs(r) && Framed(Core(fs, e), r, e.t + e.f) && From(Core(fs, e), [], r.jpc) && Begins(s, r)
    ensures r.freereg == fs.freereg && r.maxstack == fs.maxstack
    ensures Delivered(SemOf(s, fs, e), Sofar(s, r), reg)
  {
    hide WfFs, Framed, NoDup, Kept, Updates, Decide, Discharge2Reg, JoinJumps;
    if e.k.VJmp? {
      JmpDischarge(fs, e, reg);
      JmpDelivers(s, fs, e, reg, r);
    } else {
      var (fs1, e1) := Discharge2Reg(fs, e, reg);
      JoinKeepsK(fs1, e.t, e.f, reg, false);
      DischargeLists(fs, e, reg);
      DischargeLoads(s, fs, e, reg, fs1);
      PlainDelivers(s, fs, e, reg, fs1, r);
    }
  }

  lemma DischargeLists(fs: Fs, e: Exp, reg: nat)
    requires !e.k.VJmp?
    ensures Discharge2Reg(fs, e, reg).1 == e.(k := VNonReloc(reg))
  {
  }

  lemma JmpDischarge(fs: Fs, e: Exp, reg: nat)
    requires e.k.VJmp?
    ensures Discharge2Reg(fs, e, reg) == (fs, e)
  {
  }

  lemma JoinKeepsK(fs: Fs, t: seq<nat>, f: seq<nat>, reg: nat, jmp: bool)
    ensures JoinJumps(fs, t, f, reg, jmp).k == fs.k
  {
  }
}
