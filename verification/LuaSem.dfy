/** The meaning of a half-compiled expression: a descriptor together with the code so far. */
module LuaSem {
  import opened Common
  import opened LuaVm
  import opened LuaCode
  import opened LuaEmit

  // ----- well-formed descriptors -----

  /** The code before the instructions that the descriptor still controls: the test and
      jump of a comparison, or the NOT whose target register is open. */
  function Core(fs: Fs, e: Exp): Fs {
    if e.k.VJmp? && |fs.code| >= 2 then fs.(code := fs.code[..|fs.code| - 2])
    else if e.k.VReloc? && |fs.code| >= 1 then fs.(code := fs.code[..|fs.code| - 1])
    else fs
  }

  ghost predicate KindOk(fs: Fs, e: Exp) {
    match e.k
    case VK(i) => i < |fs.k|
    case VNonReloc(r) => r < fs.freereg
    case VLocal(r) => r < fs.nactvar
    case VJmp(pc) =>
      && fs.jpc == [] && |fs.code| >= 2 && pc == |fs.code| - 1
      && fs.code[pc] == Jmp(NO_JUMP) && fs.code[pc - 1].Cmp?
    case VReloc(pc) => fs.jpc == [] && |fs.code| >= 1 && pc == |fs.code| - 1 && fs.code[pc].Not?
    case _ => true
  }

  ghost predicate WfExp(fs: Fs, e: Exp) {
    var c := Core(fs, e);
    && KindOk(fs, e) && WfFs(c)
    && IsPendingList(c.code, e.t) && IsPendingList(c.code, e.f)
    && NoDup(e.t + e.f + c.jpc)
  }

  // ----- frames -----

  /** The jump `j` and its test are the same in both codes. */
  ghost predicate SameNode(a: seq<Instr>, b: seq<Instr>, j: nat) {
    && j < |a| && j < |b| && b[j] == a[j]
    && (j > 0 ==> if IsTest(a[j - 1]) then b[j - 1] == a[j - 1] else !IsTest(b[j - 1]))
  }

  /** From `a` to `b` the code has grown, and pending jumps other than those of `own` and
      those to here are still pending. */
  ghost predicate Framed(a: Fs, b: Fs, own: seq<nat>) {
    && |a.code| <= |b.code| && a.k <= b.k && a.nactvar == b.nactvar && a.maxstack <= b.maxstack
    && (|a.code| == |b.code| && a.lasttarget >= |a.code| ==> b.lasttarget >= |b.code|)
    && (forall d :: d <= |a.code| && Landing(a.code, d) ==> Landing(b.code, d))
    && forall j :: Pending(a.code, j) && j !in a.jpc && j !in own ==> SameNode(a.code, b.code, j) && j !in b.jpc
  }

  /** The nodes of `list` are new, or were own nodes or jumps to here. */
  ghost predicate From(a: Fs, own: seq<nat>, list: seq<nat>) {
    forall j :: j in list ==> j in own || j in a.jpc || j >= |a.code|
  }

  lemma FramedTrans(a: Fs, b: Fs, c: Fs, x: seq<nat>, y: seq<nat>)
    requires Framed(a, b, x) && Framed(b, c, y) && From(a, x, y)
    ensures Framed(a, c, x)
  {
    forall j | Pending(a.code, j) && j !in a.jpc && j !in x
      ensures SameNode(a.code, c.code, j) && j !in c.jpc
    {
      assert SameNode(a.code, b.code, j);
      assert Pending(b.code, j) && j !in y;
    }
  }

  lemma FramedBegins(s: Start, a: Fs, b: Fs, own: seq<nat>)
    requires Framed(a, b, own) && Begins(s, a) && Sofar(s, b) != Stuck
    ensures Begins(s, b)
  {
  }

  /** Patching a list keeps the pending jumps outside it. */
  lemma PatchKeeps(code: seq<Instr>, list: seq<nat>, vt: int, reg: nat, dt: int, j: nat)
    requires IsPendingList(code, list) && Pending(code, j) && j !in list
    ensures SameNode(code, PatchList(code, list, vt, reg, dt), j)
  {
    if j > 0 && j - 1 in list {
      assert Pending(code, j - 1);
    }
  }

  lemma EmitFramed(fs: Fs, r: Fs, ext: seq<Instr>)
    requires IsPendingList(fs.code, fs.jpc) && r.code == Discharge(fs).code + ext && ext != [] && r.jpc == []
    requires fs.k <= r.k && fs.nactvar == r.nactvar && fs.maxstack <= r.maxstack
    ensures Framed(fs, r, [])
  {
    var n := |fs.code|;
    PatchLandings(fs.code, fs.jpc, n, NO_REG, n);
    assert forall d :: 0 <= d <= n ==> (Landing(r.code, d) <==> Landing(Discharge(fs).code, d));
    forall j | Pending(fs.code, j) && j !in fs.jpc
      ensures SameNode(fs.code, r.code, j)
    {
      PatchKeeps(fs.code, fs.jpc, n, NO_REG, n, j);
    }
  }

  /** The nodes of the list are the same in both codes. */
  ghost predicate Kept(a: seq<Instr>, b: seq<Instr>, list: seq<nat>) {
    forall j :: j in list ==> SameNode(a, b, j)
  }

  lemma KeptPending(a: seq<Instr>, b: seq<Instr>, list: seq<nat>)
    requires IsPendingList(a, list) && Kept(a, b, list)
    ensures IsPendingList(b, list)
    ensures forall j :: j in list ==> (HasValue(b, j) <==> HasValue(a, j))
    ensures forall j, r, v :: j in list ==> NodeValue(b, j, r, v) == NodeValue(a, j, r, v)
  {
    forall k | 0 <= k < |list|
      ensures Pending(b, list[k]) && (HasValue(b, list[k]) ==> b[list[k] - 1].a == NO_REG)
    {
      assert SameNode(a, b, list[k]);
    }
  }

  lemma FramedKeeps(a: Fs, b: Fs, own: seq<nat>, list: seq<nat>)
    requires Framed(a, b, own) && IsPendingList(a.code, list)
    requires forall j :: j in list ==> j !in a.jpc && j !in own
    ensures Kept(a.code, b.code, list)
    ensures forall j :: j in list ==> j !in b.jpc
  {
    assert forall j :: j in list ==> Pending(a.code, j);
  }

  lemma FromTrans(a: Fs, b: Fs, x: seq<nat>, y: seq<nat>, list: seq<nat>)
    requires Framed(a, b, x) && From(a, x, y) && From(a, x, b.jpc) && From(b, y, list)
    ensures From(a, x, list)
  {
  }

  // ----- meaning -----

  /** How a value was delivered. */
  datatype Way = Prim | ViaT | ViaF

  datatype Sem = Val(v: Value, way: Way, r: Regs) | Outside(j: nat, r: Regs) | Fails | Broken

  /** The value carried by a jump. */
  function NodeValue(code: seq<Instr>, j: nat, r: Regs, b: bool): Value {
    if j < |code| && HasValue(code, j) then Get(r, code[j - 1].b) else Bool(b)
  }

  /** The value of the descriptor itself, once its core has run. */
  function PrimSem(s: Start, fs: Fs, e: Exp, r: Regs): Sem
    requires KindOk(fs, e)
  {
    match e.k
    case VNil => Val(Nil, Prim, r)
    case VTrue => Val(Bool(true), Prim, r)
    case VFalse => Val(Bool(false), Prim, r)
    case VK(i) => Val(fs.k[i], Prim, r)
    case VKNum(n) => Val(Num(n), Prim, r)
    case VNonReloc(x) => Val(Get(r, x), Prim, r)
    case VLocal(x) => Val(Get(r, x), Prim, r)
    case VReloc(pc) => Val(Bool(!Truthy(Get(r, fs.code[pc].b))), Prim, r)
    case VJmp(pc) =>
      match Decide(s.p, s.ks, fs.code[pc - 1], r)
      case Jump => Val(Bool(true), Prim, r)
      case Skip => Val(Bool(false), Prim, r)
      case Error => Fails
      case Bad => Broken
  }

  /** What a run of the code and the descriptor deliver. */
  function SemOf(s: Start, fs: Fs, e: Exp): Sem
    requires KindOk(fs, e) && s.pc <= |Core(fs, e).code|
  {
    match Sofar(s, Core(fs, e))
    case Fall(r) => PrimSem(s, fs, e, r)
    case Exit(j, r) =>
      if j in e.t then Val(NodeValue(Core(fs, e).code, j, r, true), ViaT, r)
      else if j in e.f then Val(NodeValue(Core(fs, e).code, j, r, false), ViaF, r)
      else Outside(j, r)
    case Err => Fails
    case Stuck => Broken
  }

  /** Jumps of the true list carry true values, those of the false list false ones. */
  predicate Honest(m: Sem) {
    m.Val? ==> (m.way == ViaT ==> Truthy(m.v)) && (m.way == ViaF ==> !Truthy(m.v))
  }

  // ----- putting a value into a register -----

  /** From `c` to `r` the value `v` was put into register `reg`, and nothing else happened. */
  ghost predicate Loads(s: Start, c: Fs, r: Fs, reg: nat, v: Value) {
    && WfFs(r) && Framed(c, r, []) && From(c, [], r.jpc) && Begins(s, c) && Begins(s, r)
    && r.freereg == c.freereg && r.maxstack == c.maxstack
    && if Sofar(s, c).Fall? then Sofar(s, r).Fall? && Updates(Sofar(s, c).r, Sofar(s, r).r, reg, v) else Sofar(s, r) == Sofar(s, c)
  }

  /** The value of a descriptor that is not a comparison. */
  function PrimValue(fs: Fs, e: Exp, r: Regs): Value
    requires KindOk(fs, e)
  {
    match e.k
    case VNil => Nil
    case VTrue => Bool(true)
    case VFalse => Bool(false)
    case VK(i) => fs.k[i]
    case VKNum(n) => Num(n)
    case VNonReloc(x) => Get(r, x)
    case VLocal(x) => Get(r, x)
    case VReloc(pc) => Bool(!Truthy(Get(r, fs.code[pc].b)))
    case VJmp(pc) => Nil
  }

  /** The registers where the run of `c` ends. */
  function EndRegs(s: Start, c: Fs): Regs
    requires s.pc <= |c.code|
  {
    if Sofar(s, c).Fall? then Sofar(s, c).r else map[]
  }

  lemma SimpleLoads(s: Start, c: Fs, r: Fs, i: Instr, reg: nat, v: Value)
    requires WfFs(c) && Begins(s, c) && reg != NO_REG && r == Emit(c, i)
    requires i.Move? || i.LoadK? || (i.LoadBool? && !i.skip) || i.LoadNil? || i.Not?
    requires Sofar(s, c).Fall? ==> Simple(s.ks, i, Sofar(s, c).r) == Some(Set(Sofar(s, c).r, reg, v))
    ensures Loads(s, c, r, reg, v)
  {
    EmitSimple(s, c, i);
    EmitWf(c, i);
    EmitFramed(c, r, [i]);
  }

  lemma ConstantLoads(s: Start, c: Fs, r: Fs, reg: nat, i: nat)
    requires WfFs(c) && Begins(s, c) && reg != NO_REG && r == EmitK(c, reg, i) && i < |s.ks|
    ensures Loads(s, c, r, reg, s.ks[i])
  {
    if i <= MAXARG_Bx {
      SimpleLoads(s, c, r, LoadK(reg, i), reg, s.ks[i]);
    } else {
      EmitKRun(s, c, reg, i);
      EmitKWf(c, reg, i);
      EmitKCode(c, reg, i);
      EmitFramed(c, r, [LoadKX(reg), ExtraArg(i)]);
      FramedBegins(s, c, r, []);
    }
  }

  lemma NilLoads(s: Start, c: Fs, r: Fs, reg: nat)
    requires WfFs(c) && Begins(s, c) && reg != NO_REG && r == EmitNil(c, reg)
    ensures Loads(s, c, r, reg, Nil)
  {
    if NilJoins(c, reg) {
      hide NilJoins;
      EmitNilRun(s, c, reg);
      EmitNilWf(c, reg);
      NilFramed(c, reg);
      FramedBegins(s, c, r, []);
    } else {
      SimpleLoads(s, c, r, LoadNil(reg, 0), reg, Nil);
    }
  }

  lemma NilFramed(c: Fs, reg: nat)
    requires WfFs(c) && NilJoins(c, reg)
    ensures var r := EmitNil(c, reg); Framed(c, r, []) && r == c.(code := r.code)
  {
    var r := EmitNil(c, reg);
    assert forall i :: 0 <= i < |c.code| - 1 ==> r.code[i] == c.code[i];
    assert r.code[|c.code| - 1].LoadNil?;
  }

  lemma RelocateLoads(s: Start, fs: Fs, e: Exp, r: Fs, reg: nat)
    requires WfExp(fs, e) && e.k.VReloc? && Begins(s, Core(fs, e)) && reg != NO_REG && r == Relocate(fs, e.k.pc, reg)
    ensures Loads(s, Core(fs, e), r, reg, PrimValue(fs, e, EndRegs(s, Core(fs, e))))
  {
    var c, i := Core(fs, e), Not(reg, fs.code[e.k.pc].b);
    assert Discharge(c).code == c.code;
    assert r.code == c.code + [i];
    SimpleLoads(s, c, r, i, reg, PrimValue(fs, e, EndRegs(s, c)));
  }

  lemma MoveLoads(s: Start, c: Fs, r: Fs, x: nat, reg: nat)
    requires WfFs(c) && Begins(s, c) && reg != NO_REG && r == if x != reg then Emit(c, Move(reg, x)) else c
    ensures Loads(s, c, r, reg, Get(EndRegs(s, c), x))
  {
    if x != reg {
      SimpleLoads(s, c, r, Move(reg, x), reg, Get(EndRegs(s, c), x));
    }
  }

  lemma NumberLoads(s: Start, c: Fs, r: Fs, reg: nat, n: real)
    requires WfFs(c) && Begins(s, c) && reg != NO_REG && r == EmitK(AddK(c, Num(n)).0, reg, AddK(c, Num(n)).1) && r.k <= s.ks
    ensures Loads(s, c, r, reg, Num(n))
  {
    var (c1, i) := AddK(c, Num(n));
    assert WfFs(c1) && Sofar(s, c1) == Sofar(s, c) && Begins(s, c1);
    EmitKKeeps(c1, reg, i);
    ConstantLoads(s, c1, r, reg, i);
    assert Framed(c, c1, []);
    FramedTrans(c, c1, r, [], []);
  }

  lemma EmitKKeeps(fs: Fs, reg: nat, i: nat)
    ensures EmitK(fs, reg, i) == fs.(code := EmitK(fs, reg, i).code, jpc := [])
  {
  }

  /** discharge2reg puts the value of the descriptor into the register. */
  lemma DischargeLoads(s: Start, fs: Fs, e: Exp, reg: nat, r: Fs)
    requires WfExp(fs, e) && !e.k.VJmp? && Begins(s, Core(fs, e)) && reg != NO_REG
    requires r == Discharge2Reg(fs, e, reg).0 && r.k <= s.ks
    ensures Loads(s, Core(fs, e), r, reg, PrimValue(fs, e, EndRegs(s, Core(fs, e))))
    ensures Discharge2Reg(fs, e, reg).1 == e.(k := VNonReloc(reg))
  {
    hide EmitNil, EmitK, AddK, Emit, Loads, WfFs, Begins, Relocate;
    match e.k
    case VNil => NilLoads(s, fs, r, reg);
    case VTrue => SimpleLoads(s, fs, r, LoadBool(reg, true, false), reg, Bool(true));
    case VFalse => SimpleLoads(s, fs, r, LoadBool(reg, false, false), reg, Bool(false));
    case VK(i) =>
      EmitKKeeps(fs, reg, i);
      ConstantLoads(s, fs, r, reg, i);
    case VKNum(n) => NumberLoads(s, fs, r, reg, n);
    case VReloc(pc) => RelocateLoads(s, fs, e, r, reg);
    case VNonReloc(x) => MoveLoads(s, fs, r, x, reg);
    case VLocal(x) => MoveLoads(s, fs, r, x, reg);
  }
}
