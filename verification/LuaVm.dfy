/** The instructions that boolean expressions compile to, and a machine that runs them.

    The machine also runs unfinished code: a jump whose target is not known yet (`Jmp(NO_JUMP)`)
    ends the run with `Exit`.  In code without such jumps this is the machine described in
    lopcodes.h. */
module LuaVm {
  import opened Common

  const NO_JUMP := -1
  /** A register number that no function uses. */
  const NO_REG := 255

  /** `Other` are tables, functions, userdata and threads. */
  datatype Value = Nil | Bool(b: bool) | Num(n: real) | Str(s: string) | Other(id: nat)

  predicate Truthy(v: Value) { v != Nil && v != Bool(false) }

  datatype CmpOp = OpEq | OpLt | OpLe

  /** The meaning of the comparisons, which may call metamethods; `None` is a run-time error. */
  datatype Prims = Prims(eq: (Value, Value) -> Option<bool>, lt: (Value, Value) -> Option<bool>, le: (Value, Value) -> Option<bool>)

  function Compare(p: Prims, op: CmpOp, x: Value, y: Value): Option<bool> {
    match op
    case OpEq => p.eq(x, y)
    case OpLt => p.lt(x, y)
    case OpLe => p.le(x, y)
  }

  /** An operand: a constant or a register. */
  datatype RK = K(i: nat) | R(i: nat)

  datatype Instr =
    | Move(a: nat, b: nat)
    | LoadK(a: nat, bx: nat)
    | LoadKX(a: nat)
    | ExtraArg(ax: nat)
    | LoadBool(a: nat, v: bool, skip: bool)
    | LoadNil(a: nat, n: nat)
    | Not(a: nat, b: nat)
    | Jmp(sbx: int)
    | Cmp(op: CmpOp, cond: bool, x: RK, y: RK)
    | Test(a: nat, c: bool)
    | TestSet(a: nat, b: nat, c: bool)
    | Return(a: nat)

  /** `testTMode`: the next instruction must be a jump. */
  predicate IsTest(i: Instr) { i.Cmp? || i.Test? || i.TestSet? }

  type Regs = map<nat, Value>

  function Get(r: Regs, i: nat): Value { if i in r then r[i] else Nil }

  function Set(r: Regs, i: nat, v: Value): Regs { if i == NO_REG then r else r[i := v] }

  function SetNils(r: Regs, a: nat, n: nat): Regs
    decreases n
  {
    if n == 0 then Set(r, a, Nil) else SetNils(Set(r, a, Nil), a + 1, n - 1)
  }

  function RKValue(ks: seq<Value>, r: Regs, x: RK): Option<Value> {
    match x
    case R(i) => Some(Get(r, i))
    case K(i) => if i < |ks| then Some(ks[i]) else None
  }

  /** The end of a run: behind the last instruction, at a jump without target, or an error. */
  datatype Out = Fall(r: Regs) | Exit(j: nat, r: Regs) | Err | Stuck

  /** Control may arrive at `d` other than from the test before it. */
  predicate Landing(code: seq<Instr>, d: int) {
    0 <= d <= |code| && (d == 0 || !IsTest(code[d - 1]))
  }

  datatype Taken = Jump | Skip | Error | Bad

  /** Does the test let the jump behind it happen? */
  function Decide(p: Prims, ks: seq<Value>, i: Instr, r: Regs): Taken
    requires IsTest(i)
  {
    match i
    case Cmp(op, cond, x, y) =>
      (match (RKValue(ks, r, x), RKValue(ks, r, y))
       case (Some(v), Some(w)) =>
         (match Compare(p, op, v, w)
          case None => Error
          case Some(b) => if b == cond then Jump else Skip)
       case _ => Bad)
    case Test(a, c) => if Truthy(Get(r, a)) == c then Jump else Skip
    case TestSet(_, b, c) => if Truthy(Get(r, b)) == c then Jump else Skip
  }

  /** The registers after a test that lets the jump happen. */
  function Carry(i: Instr, r: Regs): Regs {
    if i.TestSet? then Set(r, i.a, Get(r, i.b)) else r
  }

  /** What one instruction leads to: another position, a jump instruction, or the end. */
  datatype Next = Go(pc: nat, r: Regs) | At(j: nat, r: Regs) | Halt(o: Out)

  /** Go on at `d`, if control may arrive there. */
  function Land(code: seq<Instr>, pc: nat, d: int, r: Regs): Next {
    if pc < d && Landing(code, d) then Go(d, r) else Halt(Stuck)
  }

  /** One instruction of a straight line. */
  function Simple(ks: seq<Value>, i: Instr, r: Regs): Option<Regs> {
    match i
    case Move(a, b) => Some(Set(r, a, Get(r, b)))
    case LoadK(a, bx) => if bx < |ks| then Some(Set(r, a, ks[bx])) else None
    case LoadBool(a, v, false) => Some(Set(r, a, Bool(v)))
    case LoadNil(a, n) => Some(SetNils(r, a, n))
    case Not(a, b) => Some(Set(r, a, Bool(!Truthy(Get(r, b)))))
    case _ => None
  }

  function StepAt(p: Prims, ks: seq<Value>, code: seq<Instr>, pc: nat, r: Regs): (n: Next)
    requires pc < |code|
    ensures n.Go? ==> pc < n.pc && Landing(code, n.pc)
    ensures n.At? ==> pc <= n.j < |code| && code[n.j].Jmp? && (n.j == pc || IsTest(code[n.j - 1]))
  {
    var i := code[pc];
    if IsTest(i) then
      if pc + 1 >= |code| || !code[pc + 1].Jmp? then Halt(Stuck)
      else
        match Decide(p, ks, i, r)
        case Jump => At(pc + 1, Carry(i, r))
        case Skip => Go(pc + 2, r)
        case Error => Halt(Err)
        case Bad => Halt(Stuck)
    else if i.Jmp? then At(pc, r)
    else if i.LoadKX? then
      if pc + 1 < |code| && code[pc + 1].ExtraArg? && code[pc + 1].ax < |ks|
      then Go(pc + 2, Set(r, i.a, ks[code[pc + 1].ax])) else Halt(Stuck)
    else if i.LoadBool? && i.skip then Land(code, pc, pc + 2, Set(r, i.a, Bool(i.v)))
    else
      match Simple(ks, i, r)
      case Some(r') => Go(pc + 1, r')
      case None => Halt(Stuck)
  }

  /** Where the jump at `j` leads. */
  function Follow(code: seq<Instr>, j: nat, r: Regs): (n: Next)
    requires j < |code| && code[j].Jmp?
    ensures n.Go? ==> j < n.pc && Landing(code, n.pc)
    ensures !n.At?
  {
    if code[j].sbx == NO_JUMP then Halt(Exit(j, r)) else Land(code, j, j + 1 + code[j].sbx, r)
  }

  /** An instruction together with the jump it takes. */
  function Advance(p: Prims, ks: seq<Value>, code: seq<Instr>, pc: nat, r: Regs): (n: Next)
    requires pc < |code|
    ensures n.Go? ==> pc < n.pc && Landing(code, n.pc)
    ensures !n.At?
  {
    match StepAt(p, ks, code, pc, r)
    case At(j, r') => Follow(code, j, r')
    case n => n
  }

  /** Run from `pc` on.  Jumps go forward in the code of an expression. */
  function Run(p: Prims, ks: seq<Value>, code: seq<Instr>, pc: nat, r: Regs): Out
    requires pc <= |code|
    decreases |code| - pc
  {
    if pc == |code| then Fall(r)
    else
      match Advance(p, ks, code, pc, r)
      case Go(pc', r') => Run(p, ks, code, pc', r')
      case Halt(o) => o
  }

  // ----- appending code -----

  lemma AdvanceAppend(p: Prims, ks: seq<Value>, code: seq<Instr>, ext: seq<Instr>, pc: nat, r: Regs)
    requires pc < |code| && Advance(p, ks, code, pc, r) != Halt(Stuck)
    ensures Advance(p, ks, code + ext, pc, r) == Advance(p, ks, code, pc, r)
  {
    var all := code + ext;
    assert forall i :: 0 <= i < |code| ==> all[i] == code[i];
  }

  /** Appended code is reached exactly where the old code ended. */
  lemma {:induction false} RunAppend(p: Prims, ks: seq<Value>, code: seq<Instr>, ext: seq<Instr>, pc: nat, r: Regs)
    requires pc <= |code| && Run(p, ks, code, pc, r) != Stuck
    ensures Run(p, ks, code + ext, pc, r) ==
            match Run(p, ks, code, pc, r)
            case Fall(r') => Run(p, ks, code + ext, |code|, r')
            case o => o
    decreases |code| - pc
  {
    if pc < |code| {
      AdvanceAppend(p, ks, code, ext, pc, r);
      match Advance(p, ks, code, pc, r)
      case Go(pc', r') => RunAppend(p, ks, code, ext, pc', r');
      case Halt(_) =>
    }
  }

  // ----- patching jumps -----

  /** A jump without target, not steered by a test, or steered by the test before it. */
  predicate Pending(code: seq<Instr>, j: int) { 0 <= j < |code| && code[j] == Jmp(NO_JUMP) }

  /** The jump carries a value: its test is a TESTSET. */
  predicate HasValue(code: seq<Instr>, j: nat)
    requires j < |code|
  {
    j > 0 && code[j - 1].TestSet?
  }

  /** `patchtestreg` on the test of a jump: store the tested value in `reg`, or, with no
      register or the value there already, do not store it. */
  function Retarget(i: Instr, reg: nat): Instr {
    if !i.TestSet? then i
    else if reg != NO_REG && reg != i.b then TestSet(reg, i.b, i.c)
    else Test(i.b, i.c)
  }

  function PatchedAt(code: seq<Instr>, list: seq<nat>, vtarget: int, reg: nat, dtarget: int, i: nat): Instr
    requires i < |code|
  {
    if i in list then Jmp((if HasValue(code, i) then vtarget else dtarget) - (i + 1))
    else if i + 1 in list then Retarget(code[i], reg)
    else code[i]
  }

  /** `patchlistaux`: jumps with a value go to `vtarget` and leave it in `reg`, the others
      go to `dtarget`. */
  function PatchList(code: seq<Instr>, list: seq<nat>, vtarget: int, reg: nat, dtarget: int): (r: seq<Instr>)
    ensures |r| == |code|
    ensures forall i :: 0 <= i < |code| ==> r[i] == PatchedAt(code, list, vtarget, reg, dtarget, i)
  {
    seq(|code|, i requires 0 <= i < |code| => PatchedAt(code, list, vtarget, reg, dtarget, i))
  }

  /** Where a patched jump goes, and with which registers. */
  function PatchTarget(code: seq<Instr>, j: nat, vtarget: int, dtarget: int): int
    requires j < |code|
  {
    if HasValue(code, j) then vtarget else dtarget
  }

  function PatchRegs(code: seq<Instr>, j: nat, reg: nat, r: Regs): Regs
    requires j < |code|
  {
    if HasValue(code, j) && reg != code[j - 1].b then Set(r, reg, Get(r, code[j - 1].b)) else r
  }

  /** The nodes of a list: jumps without target, whose value tests have no register yet. */
  ghost predicate IsPendingList(code: seq<Instr>, list: seq<nat>) {
    && (forall k :: 0 <= k < |list| ==> Pending(code, list[k]))
    && (forall k :: 0 <= k < |list| && HasValue(code, list[k]) ==> code[list[k] - 1].a == NO_REG)
  }

  lemma PatchLandings(code: seq<Instr>, list: seq<nat>, vt: int, reg: nat, dt: int)
    requires IsPendingList(code, list)
    ensures var c := PatchList(code, list, vt, reg, dt);
      forall d :: Landing(c, d) <==> Landing(code, d)
  {
    var c := PatchList(code, list, vt, reg, dt);
    forall i | 0 <= i < |code|
      ensures IsTest(c[i]) <==> IsTest(code[i])
    {
      if i in list {
        assert Pending(code, i);
      }
    }
  }

  lemma RetargetDecides(p: Prims, ks: seq<Value>, i: Instr, reg: nat, r: Regs)
    requires IsTest(i)
    ensures IsTest(Retarget(i, reg)) && Decide(p, ks, Retarget(i, reg), r) == Decide(p, ks, i, r)
  {
  }

  /** Apart from the jumps of the list and their tests, the code is as before. */
  lemma PatchStep(p: Prims, ks: seq<Value>, code: seq<Instr>, list: seq<nat>, vt: int, reg: nat, dt: int, pc: nat, r: Regs)
    requires IsPendingList(code, list) && pc < |code|
    requires StepAt(p, ks, code, pc, r) != Halt(Stuck)
    ensures var c := PatchList(code, list, vt, reg, dt);
      match StepAt(p, ks, code, pc, r)
      case At(j, r') =>
        StepAt(p, ks, c, pc, r) == At(j, if j == pc then r else Carry(c[pc], r)) && r' == if j == pc then r else Carry(code[pc], r)
      case n => StepAt(p, ks, c, pc, r) == n
  {
    var c := PatchList(code, list, vt, reg, dt);
    PatchLandings(code, list, vt, reg, dt);
    assert forall i :: 0 <= i < |code| && i in list ==> Pending(code, i);
    if IsTest(code[pc]) {
      RetargetDecides(p, ks, code[pc], reg, r);
      assert pc !in list;
      assert c[pc] == code[pc] || c[pc] == Retarget(code[pc], reg);
      assert pc + 1 < |code| && c[pc + 1].Jmp?;
    } else if code[pc].Jmp? {
      assert c[pc].Jmp?;
    } else {
      assert c[pc] == code[pc];
      if code[pc].LoadKX? {
        assert c[pc + 1] == code[pc + 1];
      }
    }
  }

  lemma PatchFollow(code: seq<Instr>, list: seq<nat>, vt: int, reg: nat, dt: int, j: nat, r: Regs)
    requires IsPendingList(code, list) && j < |code| && code[j].Jmp?
    requires j in list ==> PatchTarget(code, j, vt, dt) > j
    ensures var c := PatchList(code, list, vt, reg, dt);
      c[j].Jmp? && Follow(c, j, r) == if j in list then Land(c, j, PatchTarget(code, j, vt, dt), r) else Follow(code, j, r)
  {
    PatchLandings(code, list, vt, reg, dt);
  }

  lemma PatchCarry(code: seq<Instr>, list: seq<nat>, vt: int, reg: nat, dt: int, pc: nat, r: Regs)
    requires IsPendingList(code, list) && pc + 1 < |code| && IsTest(code[pc]) && code[pc + 1].Jmp?
    ensures var c := PatchList(code, list, vt, reg, dt);
      Carry(c[pc], r) == if pc + 1 in list then PatchRegs(code, pc + 1, reg, Carry(code[pc], r)) else Carry(code[pc], r)
  {
    assert forall i :: 0 <= i < |code| && i in list ==> Pending(code, i);
    assert pc !in list;
    if pc + 1 in list {
      var k :| 0 <= k < |list| && list[k] == pc + 1;
      assert HasValue(code, list[k]) ==> code[list[k] - 1].a == NO_REG;
    }
  }

  ghost predicate ForwardTargets(code: seq<Instr>, list: seq<nat>, vt: int, dt: int) {
    forall k :: 0 <= k < |list| && list[k] < |code| ==> PatchTarget(code, list[k], vt, dt) > list[k]
  }

  /** One step of the patched code: as before, unless it takes a patched jump. */
  lemma AdvancePatch(p: Prims, ks: seq<Value>, code: seq<Instr>, list: seq<nat>, vt: int, reg: nat, dt: int, pc: nat, r: Regs)
    requires IsPendingList(code, list) && pc < |code| && Landing(code, pc) && ForwardTargets(code, list, vt, dt)
    requires Advance(p, ks, code, pc, r) != Halt(Stuck)
    ensures var c := PatchList(code, list, vt, reg, dt);
      match Advance(p, ks, code, pc, r)
      case Halt(Exit(j, r')) =>
        && j < |code|
        && Advance(p, ks, c, pc, r) ==
           if j in list then Land(c, j, PatchTarget(code, j, vt, dt), PatchRegs(code, j, reg, r')) else Halt(Exit(j, r'))
      case n => Advance(p, ks, c, pc, r) == n
  {
    hide PatchedAt, Decide, Retarget;
    PatchStep(p, ks, code, list, vt, reg, dt, pc, r);
    match StepAt(p, ks, code, pc, r)
    case At(j, r') =>
      PatchFollow(code, list, vt, reg, dt, j, r');
      if j == pc {
        assert !HasValue(code, j);
      } else {
        PatchCarry(code, list, vt, reg, dt, pc, r);
        PatchFollow(code, list, vt, reg, dt, j, Carry(PatchList(code, list, vt, reg, dt)[pc], r));
      }
    case _ =>
  }

  /** Runs of the patched code: they end as before, except that a patched jump is taken. */
  lemma {:induction false} RunPatch(p: Prims, ks: seq<Value>, code: seq<Instr>, list: seq<nat>, vt: int, reg: nat, dt: int, pc: nat, r: Regs)
    requires IsPendingList(code, list) && pc <= |code| && Landing(code, pc) && ForwardTargets(code, list, vt, dt)
    requires Run(p, ks, code, pc, r) != Stuck
    requires Landing(code, vt) && (Landing(code, dt) || forall k :: 0 <= k < |list| && list[k] < |code| ==> HasValue(code, list[k]))
    ensures var c, o := PatchList(code, list, vt, reg, dt), Run(p, ks, code, pc, r);
      if o.Exit? && o.j in list then
        && o.j < |code| && 0 <= PatchTarget(code, o.j, vt, dt) <= |code|
        && Run(p, ks, c, pc, r) == Run(p, ks, c, PatchTarget(code, o.j, vt, dt), PatchRegs(code, o.j, reg, o.r))
      else Run(p, ks, c, pc, r) == o
    decreases |code| - pc
  {
    if pc < |code| {
      var c := PatchList(code, list, vt, reg, dt);
      AdvancePatch(p, ks, code, list, vt, reg, dt, pc, r);
      PatchLandings(code, list, vt, reg, dt);
      match Advance(p, ks, code, pc, r)
      case Go(pc', r') => RunPatch(p, ks, code, list, vt, reg, dt, pc', r');
      case Halt(_) =>
    }
  }
}
