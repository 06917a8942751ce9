/** What emitting instructions does to the runs of unfinished code. */
module LuaEmit {
  import opened Common
  import opened LuaVm
  import opened LuaCode

  /** A run: the primitive operations, the constants, and where and with which registers it
      starts. */
  datatype Start = Start(p: Prims, ks: seq<Value>, pc: nat, r: Regs)

  /** The run of the code so far.  The jumps to here have arrived. */
  function Sofar(s: Start, fs: Fs): Out
    requires s.pc <= |fs.code|
  {
    var o := Run(s.p, s.ks, fs.code, s.pc, s.r);
    if o.Exit? && o.j in fs.jpc then Fall(o.r) else o
  }

  /** A jump to the current position. */
  predicate JumpsTo(code: seq<Instr>, i: nat, d: int)
    requires i < |code|
  {
    code[i].Jmp? && code[i].sbx != NO_JUMP && i + 1 + code[i].sbx == d
  }

  ghost predicate NoJumpTo(code: seq<Instr>, d: int) {
    forall i :: 0 <= i < |code| ==> !JumpsTo(code, i, d)
  }

  /** The state of the generator: pending jumps are jumps without target, the position is a
      possible target, `lasttarget` knows about all jumps to it, and the registers in use are
      below the stack size. */
  ghost predicate WfFs(fs: Fs) {
    && IsPendingList(fs.code, fs.jpc) && NoDup(fs.jpc)
    && Landing(fs.code, |fs.code|)
    && (fs.jpc != [] ==> fs.lasttarget >= |fs.code|)
    && (forall i :: 0 <= i < |fs.code| && JumpsTo(fs.code, i, |fs.code|) ==> fs.lasttarget >= |fs.code|)
    && SkipsOk(fs.code) && TargetsOk(fs.code)
    && fs.nactvar <= fs.freereg <= fs.maxstack
  }

  /** A LOADBOOL that skips is followed by the LOADBOOL it skips. */
  ghost predicate SkipsOk(code: seq<Instr>) {
    forall i :: 0 <= i < |code| && code[i].LoadBool? && code[i].skip ==> i + 1 < |code| && code[i + 1].LoadBool?
  }

  /** No jump goes beyond the end. */
  ghost predicate TargetsOk(code: seq<Instr>) {
    forall i :: 0 <= i < |code| && code[i].Jmp? && code[i].sbx != NO_JUMP ==> i + 1 + code[i].sbx <= |code|
  }

  /** The start is a place where runs may begin: inside the code, or at a label. */
  ghost predicate Begins(s: Start, fs: Fs) {
    && s.pc <= |fs.code| && Landing(fs.code, s.pc)
    && (s.pc == |fs.code| ==> fs.lasttarget >= |fs.code|)
    && Sofar(s, fs) != Stuck
  }

  lemma DischargeForward(fs: Fs)
    requires IsPendingList(fs.code, fs.jpc)
    ensures ForwardTargets(fs.code, fs.jpc, |fs.code|, |fs.code|)
  {
    forall k | 0 <= k < |fs.jpc| && fs.jpc[k] < |fs.code|
      ensures PatchTarget(fs.code, fs.jpc[k], |fs.code|, |fs.code|) > fs.jpc[k]
    {
      assert Pending(fs.code, fs.jpc[k]);
    }
  }

  /** Discharging the jumps to here changes no run. */
  lemma DischargeRun(s: Start, fs: Fs)
    requires WfFs(fs) && Begins(s, fs)
    ensures Run(s.p, s.ks, Discharge(fs).code, s.pc, s.r) == Sofar(s, fs)
    ensures Landing(Discharge(fs).code, |fs.code|) && Landing(Discharge(fs).code, s.pc)
  {
    DischargeForward(fs);
    RunPatch(s.p, s.ks, fs.code, fs.jpc, |fs.code|, NO_REG, |fs.code|, s.pc, s.r);
    PatchLandings(fs.code, fs.jpc, |fs.code|, NO_REG, |fs.code|);
  }

  /** Emitted code runs where the code so far ended. */
  lemma EmitRun(s: Start, fs: Fs, ext: seq<Instr>)
    requires WfFs(fs) && Begins(s, fs)
    ensures var c := Discharge(fs).code;
      Run(s.p, s.ks, c + ext, s.pc, s.r) ==
      (if Sofar(s, fs).Fall? then Run(s.p, s.ks, c + ext, |c|, Sofar(s, fs).r) else Sofar(s, fs))
  {
    DischargeRun(s, fs);
    RunAppend(s.p, s.ks, Discharge(fs).code, ext, s.pc, s.r);
  }

  lemma SimpleRun(p: Prims, ks: seq<Value>, c: seq<Instr>, i: Instr, r: Regs)
    requires !IsTest(i) && Simple(ks, i, r).Some?
    ensures Run(p, ks, c + [i], |c|, r) == Fall(Simple(ks, i, r).value)
  {
    assert (c + [i])[|c|] == i;
    assert Advance(p, ks, c + [i], |c|, r) == Go(|c| + 1, Simple(ks, i, r).value);
  }

  /** What emitting a simple instruction does to a run. */
  function Then(ks: seq<Value>, o: Out, i: Instr): Out {
    if o.Fall? then (match Simple(ks, i, o.r) case Some(r) => Fall(r) case None => Stuck) else o
  }

  /** Emitting a simple instruction: the run goes through it. */
  lemma EmitSimple(s: Start, fs: Fs, i: Instr)
    requires WfFs(fs) && Begins(s, fs) && (Sofar(s, fs).Fall? ==> Simple(s.ks, i, Sofar(s, fs).r).Some?)
    requires i.Move? || i.LoadK? || (i.LoadBool? && !i.skip) || i.LoadNil? || i.Not?
    ensures Sofar(s, Emit(fs, i)) == Then(s.ks, Sofar(s, fs), i)
    ensures Begins(s, Emit(fs, i))
  {
    EmitRun(s, fs, [i]);
    var c := Discharge(fs).code;
    if Sofar(s, fs).Fall? {
      SimpleRun(s.p, s.ks, c, i, Sofar(s, fs).r);
    }
    LandingAppend(fs, [i], s.pc);
  }

  lemma LandingAppend(fs: Fs, ext: seq<Instr>, d: nat)
    requires WfFs(fs) && d <= |fs.code| && Landing(fs.code, d)
    ensures Landing(Discharge(fs).code + ext, d)
  {
    PatchLandings(fs.code, fs.jpc, |fs.code|, NO_REG, |fs.code|);
    assert Landing(Discharge(fs).code, d);
  }

  // ----- the shape of the code -----

  lemma DischargeAt(fs: Fs, i: nat)
    requires IsPendingList(fs.code, fs.jpc) && i < |fs.code|
    ensures i !in fs.jpc && i + 1 !in fs.jpc ==> Discharge(fs).code[i] == fs.code[i]
    ensures Discharge(fs).code[i].Jmp? <==> fs.code[i].Jmp?
    ensures IsTest(Discharge(fs).code[i]) <==> IsTest(fs.code[i])
    ensures !fs.code[i].Jmp? && !fs.code[i].TestSet? ==> Discharge(fs).code[i] == fs.code[i]
    ensures Discharge(fs).code[i] == Jmp(NO_JUMP) ==> fs.code[i] == Jmp(NO_JUMP) && i !in fs.jpc
    ensures i in fs.jpc ==> Discharge(fs).code[i] == Jmp(|fs.code| - (i + 1))
  {
    if i in fs.jpc {
      assert Pending(fs.code, i);
    }
  }

  /** An instruction that may follow without being a jump's test. */
  lemma EmitWf(fs: Fs, i: Instr)
    requires WfFs(fs) && !IsTest(i) && !i.Jmp? && !(i.LoadBool? && i.skip)
    ensures WfFs(Emit(fs, i))
  {
    var r := Emit(fs, i);
    DischargeShape(fs);
    forall k | 0 <= k < |r.code|
      ensures !JumpsTo(r.code, k, |r.code|)
    {
      if k < |fs.code| {
        assert r.code[k] == Discharge(fs).code[k];
      }
    }
  }

  lemma DischargeShape(fs: Fs)
    requires WfFs(fs)
    ensures SkipsOk(Discharge(fs).code) && TargetsOk(Discharge(fs).code) && Landing(Discharge(fs).code, |fs.code|)
  {
    var d := Discharge(fs).code;
    PatchLandings(fs.code, fs.jpc, |fs.code|, NO_REG, |fs.code|);
    forall k | 0 <= k < |d|
      ensures d[k].LoadBool? && d[k].skip ==> k + 1 < |d| && d[k + 1].LoadBool?
      ensures d[k].Jmp? && d[k].sbx != NO_JUMP ==> k + 1 + d[k].sbx <= |d|
    {
      DischargeAt(fs, k);
      if k + 1 < |d| {
        DischargeAt(fs, k + 1);
      }
    }
  }

  // ----- tests and jumps -----

  /** What a test with its jump at `j` does to a run. */
  function Branch(s: Start, o: Out, test: Instr, j: nat): Out
    requires IsTest(test)
  {
    if o.Fall? then
      match Decide(s.p, s.ks, test, o.r)
      case Jump => Exit(j, Carry(test, o.r))
      case Skip => o
      case Error => Err
      case Bad => Stuck
    else o
  }

  lemma TestRun(p: Prims, ks: seq<Value>, c: seq<Instr>, test: Instr, r: Regs)
    requires IsTest(test)
    ensures Run(p, ks, c + [test, Jmp(NO_JUMP)], |c|, r) == Branch(Start(p, ks, 0, r), Fall(r), test, |c| + 1)
  {
    var all := c + [test, Jmp(NO_JUMP)];
    assert all[|c|] == test && all[|c| + 1] == Jmp(NO_JUMP) && |all| == |c| + 2;
  }

  /** A conditional jump: where the code ended, the run now jumps or goes on. */
  lemma CondJumpRun(s: Start, fs: Fs, test: Instr)
    requires WfFs(fs) && Begins(s, fs) && IsTest(test)
    ensures var (r, list) := CondJump(fs, test);
      && |r.code| == |fs.code| + 2 && list == [|fs.code| + 1]
      && Sofar(s, r) == Branch(s, Sofar(s, fs), test, |fs.code| + 1)
  {
    hide WfFs, Run;
    var (r, list) := CondJump(fs, test);
    var c := Discharge(fs).code;
    assert r.code == c + [test, Jmp(NO_JUMP)];
    EmitRun(s, fs, [test, Jmp(NO_JUMP)]);
    if Sofar(s, fs).Fall? {
      TestRun(s.p, s.ks, c, test, Sofar(s, fs).r);
    }
  }

  lemma CondJumpWf(fs: Fs, test: Instr)
    requires WfFs(fs) && IsTest(test)
    ensures var (r, list) := CondJump(fs, test);
      WfFs(r) && r.jpc == [] && r == fs.(code := r.code, jpc := []) && r.code == Discharge(fs).code + [test, Jmp(NO_JUMP)]
  {
    var (r, list) := CondJump(fs, test);
    assert r.code == Discharge(fs).code + [test, Jmp(NO_JUMP)];
    DischargeShape(fs);
    forall k | 0 <= k < |r.code|
      ensures !JumpsTo(r.code, k, |r.code|)
      ensures r.code[k].LoadBool? && r.code[k].skip ==> k + 1 < |r.code| && r.code[k + 1].LoadBool?
      ensures r.code[k].Jmp? && r.code[k].sbx != NO_JUMP ==> k + 1 + r.code[k].sbx <= |r.code|
    {
      if k < |fs.code| {
        assert r.code[k] == Discharge(fs).code[k];
        if k + 1 < |fs.code| {
          assert r.code[k + 1] == Discharge(fs).code[k + 1];
        }
      }
    }
  }

  /** An unconditional jump: the run stops at a node of its list. */
  lemma EmitJumpRun(s: Start, fs: Fs)
    requires WfFs(fs) && Begins(s, fs)
    ensures var (r, list) := EmitJump(fs);
      if Sofar(s, fs).Fall? then Sofar(s, r).Exit? && Sofar(s, r).j in list && Sofar(s, r).r == Sofar(s, fs).r
      else Sofar(s, r) == Sofar(s, fs)
  {
    var (r, list) := EmitJump(fs);
    RunAppend(s.p, s.ks, fs.code, [Jmp(NO_JUMP)], s.pc, s.r);
    assert r.code[|fs.code|] == Jmp(NO_JUMP);
  }

  lemma EmitJumpWf(fs: Fs)
    requires WfFs(fs)
    ensures var (r, list) := EmitJump(fs);
      WfFs(r) && r.jpc == [] && IsPendingList(r.code, list) && NoDup(list)
  {
    var (r, list) := EmitJump(fs);
    forall k | 0 <= k < |r.code|
      ensures !JumpsTo(r.code, k, |r.code|)
      ensures r.code[k].LoadBool? && r.code[k].skip ==> k + 1 < |r.code| && r.code[k + 1].LoadBool?
    {
      if k < |fs.code| {
        assert r.code[k] == fs.code[k];
      }
    }
    forall k | 0 <= k < |list|
      ensures Pending(r.code, list[k]) && (HasValue(r.code, list[k]) ==> r.code[list[k] - 1].a == NO_REG)
      ensures k > 0 ==> list[k] < |fs.code|
    {
      if k > 0 {
        assert list[k] == fs.jpc[k - 1] && Pending(fs.code, fs.jpc[k - 1]);
        assert HasValue(r.code, list[k]) <==> HasValue(fs.code, list[k]);
      } else {
        assert Landing(fs.code, |fs.code|);
      }
    }
    NoDupAppend([|fs.code|], fs.jpc);
  }

  // ----- constants -----

  /** `r2` is `r` with `v` in register `reg`. */
  ghost predicate Updates(r: Regs, r2: Regs, reg: nat, v: Value) {
    Get(r2, reg) == v && forall i :: i != reg ==> Get(r2, i) == Get(r, i)
  }

  lemma SetUpdates(r: Regs, reg: nat, v: Value)
    requires reg != NO_REG
    ensures Updates(r, Set(r, reg, v), reg, v)
  {
  }

  lemma EmitKRun(s: Start, fs: Fs, reg: nat, i: nat)
    requires WfFs(fs) && Begins(s, fs) && i < |s.ks| && reg != NO_REG
    ensures var r := EmitK(fs, reg, i);
      if Sofar(s, fs).Fall? then Sofar(s, r) == Fall(Set(Sofar(s, fs).r, reg, s.ks[i])) else Sofar(s, r) == Sofar(s, fs)
  {
    if i <= MAXARG_Bx {
      EmitSimple(s, fs, LoadK(reg, i));
    } else {
      var c := Discharge(fs).code;
      var r := EmitK(fs, reg, i);
      EmitKCode(fs, reg, i);
      EmitRun(s, fs, [LoadKX(reg), ExtraArg(i)]);
      var all := c + [LoadKX(reg), ExtraArg(i)];
      assert all[|c|] == LoadKX(reg) && all[|c| + 1] == ExtraArg(i) && |all| == |c| + 2;
    }
  }

  lemma EmitKCode(fs: Fs, reg: nat, i: nat)
    requires i > MAXARG_Bx
    ensures EmitK(fs, reg, i).code == Discharge(fs).code + [LoadKX(reg), ExtraArg(i)] && EmitK(fs, reg, i).jpc == []
  {
    var e := Emit(fs, LoadKX(reg));
    assert Discharge(e).code == e.code;
  }

  lemma EmitKWf(fs: Fs, reg: nat, i: nat)
    requires WfFs(fs)
    ensures WfFs(EmitK(fs, reg, i))
  {
    if i <= MAXARG_Bx {
      EmitWf(fs, LoadK(reg, i));
    } else {
      EmitWf(fs, LoadKX(reg));
      EmitWf(Emit(fs, LoadKX(reg)), ExtraArg(i));
    }
  }

  // ----- nil -----

  lemma {:induction false} SetNilsGet(r: Regs, a: nat, n: nat, i: nat)
    ensures Get(SetNils(r, a, n), i) == if a <= i <= a + n && i != NO_REG then Nil else Get(r, i)
    decreases n
  {
    if n > 0 {
      SetNilsGet(Set(r, a, Nil), a + 1, n - 1, i);
    }
  }

  /** If nothing arrives behind the last instruction except from it, then the code before
      it is a run of its own. */
  lemma {:induction false} PrefixRun(p: Prims, ks: seq<Value>, c: seq<Instr>, last: Instr, pc: nat, r: Regs)
    requires last.LoadNil? && pc <= |c| && Landing(c, pc) && SkipsOk(c + [last])
    requires NoJumpTo(c + [last], |c| + 1)
    requires Run(p, ks, c + [last], pc, r) != Stuck
    ensures Run(p, ks, c, pc, r) != Stuck
    decreases |c| - pc
  {
    if pc < |c| {
      var all := c + [last];
      assert forall i :: 0 <= i < |c| ==> all[i] == c[i];
      assert all[|c|] == last;
      PrefixAdvance(p, ks, c, last, pc, r);
      match Advance(p, ks, all, pc, r)
      case Go(pc', r') => PrefixRun(p, ks, c, last, pc', r');
      case Halt(_) =>
    }
  }

  lemma PrefixAdvance(p: Prims, ks: seq<Value>, c: seq<Instr>, last: Instr, pc: nat, r: Regs)
    requires last.LoadNil? && pc < |c| && SkipsOk(c + [last])
    requires NoJumpTo(c + [last], |c| + 1)
    requires Advance(p, ks, c + [last], pc, r) != Halt(Stuck)
    ensures Advance(p, ks, c, pc, r) == Advance(p, ks, c + [last], pc, r)
  {
    hide StepAt, Follow, SkipsOk, NoJumpTo, Landing;
    PrefixStep(p, ks, c, last, pc, r);
    match StepAt(p, ks, c + [last], pc, r)
    case At(j, r') => PrefixFollow(c, last, j, r');
    case _ =>
  }

  lemma PrefixStep(p: Prims, ks: seq<Value>, c: seq<Instr>, last: Instr, pc: nat, r: Regs)
    requires last.LoadNil? && pc < |c| && SkipsOk(c + [last])
    requires StepAt(p, ks, c + [last], pc, r) != Halt(Stuck)
    ensures StepAt(p, ks, c, pc, r) == StepAt(p, ks, c + [last], pc, r)
    ensures var n := StepAt(p, ks, c, pc, r); n.At? ==> n.j < |c|
  {
    hide Decide, Simple, SetNils;
    var all := c + [last];
    assert forall i :: 0 <= i < |c| ==> all[i] == c[i];
    assert all[|c|] == last && all[pc] == c[pc];
  }

  lemma PrefixFollow(c: seq<Instr>, last: Instr, j: nat, r: Regs)
    requires last.LoadNil? && j < |c| && c[j].Jmp? && (c + [last])[j] == c[j]
    requires NoJumpTo(c + [last], |c| + 1)
    ensures Follow(c, j, r) == Follow(c + [last], j, r)
  {
    var all := c + [last];
    assert forall i :: 0 <= i < |c| ==> all[i] == c[i];
    assert !JumpsTo(all, j, |c| + 1);
  }

  lemma NilJoinRun(s: Start, fs: Fs, from: nat)
    requires WfFs(fs) && Begins(s, fs) && NilJoins(fs, from) && from != NO_REG
    ensures var r := EmitNil(fs, from);
      if Sofar(s, fs).Fall? then Sofar(s, r).Fall? && Updates(Sofar(s, fs).r, Sofar(s, r).r, from, Nil)
      else Sofar(s, r) == Sofar(s, fs)
  {
    var r := EmitNil(fs, from);
    var n := |fs.code| - 1;
    var c, last, joined := fs.code[..n], fs.code[n], r.code[n];
    assert fs.code == c + [last] && r.code == c + [joined] && fs.jpc == [];
    assert Landing(c, s.pc);
    assert NoJumpTo(fs.code, |fs.code|);
    PrefixRun(s.p, s.ks, c, last, s.pc, s.r);
    RunAppend(s.p, s.ks, c, [last], s.pc, s.r);
    RunAppend(s.p, s.ks, c, [joined], s.pc, s.r);
    var o := Run(s.p, s.ks, c, s.pc, s.r);
    if o.Fall? {
      SimpleRun(s.p, s.ks, c, last, o.r);
      SimpleRun(s.p, s.ks, c, joined, o.r);
      forall i: nat
        ensures Get(SetNils(o.r, joined.a, joined.n), i) == if i == from then Nil else Get(SetNils(o.r, last.a, last.n), i)
      {
        SetNilsGet(o.r, joined.a, joined.n, i);
        SetNilsGet(o.r, last.a, last.n, i);
      }
    }
  }

  lemma EmitNilRun(s: Start, fs: Fs, from: nat)
    requires WfFs(fs) && Begins(s, fs) && from != NO_REG
    ensures var r := EmitNil(fs, from);
      if Sofar(s, fs).Fall? then Sofar(s, r).Fall? && Updates(Sofar(s, fs).r, Sofar(s, r).r, from, Nil)
      else Sofar(s, r) == Sofar(s, fs)
  {
    if NilJoins(fs, from) {
      NilJoinRun(s, fs, from);
    } else {
      EmitSimple(s, fs, LoadNil(from, 0));
      if Sofar(s, fs).Fall? {
        SetUpdates(Sofar(s, fs).r, from, Nil);
      }
    }
  }

  lemma EmitNilWf(fs: Fs, from: nat)
    requires WfFs(fs)
    ensures WfFs(EmitNil(fs, from))
  {
    if NilJoins(fs, from) {
      var r := EmitNil(fs, from);
      assert fs.jpc == [];
      forall k | 0 <= k < |r.code|
        ensures r.code[k].Jmp? ==> r.code[k] == fs.code[k]
        ensures r.code[k].LoadBool? ==> r.code[k] == fs.code[k]
      {
      }
      assert forall k :: 0 <= k < |r.code| ==> !JumpsTo(r.code, k, |r.code|) || JumpsTo(fs.code, k, |fs.code|);
    } else {
      EmitWf(fs, LoadNil(from, 0));
    }
  }
}
