/** The code generator as it works in place: one code array whose pending jumps are linked
    through their targets, and descriptors that hold the heads of those lists.

    Every operation is proved to do what the corresponding function of module LuaCode does to
    the code without links, to leave exactly the lists that it promises, and not to touch the
    lists that others hold. */
module LuaFuncState {
  import opened Common
  import opened LuaVm
  import opened LuaCode
  import opened LuaJumpList
  import opened LuaMono
  import opened LuaFits

  /** `expdesc`: `t` and `f` are list heads. */
  datatype ExpDesc = ExpDesc(k: Kind, t: int, f: int)

  /** The nodes that belong to a descriptor: its lists and, for a comparison, its jump. */
  function Own(e: Exp): seq<nat> { e.t + e.f + if e.k.VJmp? then [e.k.pc] else [] }

  /** Pending jumps not owned by an operation are as before and still owned by nobody else, and
      no jump is left pending that nobody owns: `c`, `p` and `o` are the code, the pending
      jumps and the owned ones. */
  ghost predicate Kept(c0: seq<Instr>, p0: set<nat>, o0: seq<nat>, c1: seq<Instr>, p1: set<nat>, o1: seq<nat>) {
    && (forall j :: j in p0 && j !in o0 ==> j in p1 && j !in o1 && j < |c0| && j < |c1| && c1[j] == c0[j])
    && (forall j :: j in p1 && j !in o1 ==> j in p0 && j !in o0)
  }

  lemma KeptTrans(c0: seq<Instr>, p0: set<nat>, o0: seq<nat>, c1: seq<Instr>, p1: set<nat>, o1: seq<nat>, c2: seq<Instr>, p2: set<nat>, o2: seq<nat>)
    requires Kept(c0, p0, o0, c1, p1, o1) && Kept(c1, p1, o1, c2, p2, o2)
    ensures Kept(c0, p0, o0, c2, p2, o2)
  {
  }

  /** A list held by somebody else is still there. */
  lemma KeptList(c0: seq<Instr>, p0: set<nat>, o0: seq<nat>, c1: seq<Instr>, p1: set<nat>, o1: seq<nat>, head: int, nodes: seq<nat>)
    requires Kept(c0, p0, o0, c1, p1, o1) && IsList(c0, head, nodes) && forall j :: j in nodes ==> j in p0 && j !in o0
    ensures IsList(c1, head, nodes) && forall j :: j in nodes ==> j in p1 && j !in o1
  {
    ListKept(c0, c1, head, nodes);
  }

  /** A descriptor that is an operand as it is. */
  predicate IsOperand(e: Exp, o: RK) {
    e.t == [] && e.f == [] && match e.k case VK(i) => i <= MAXINDEXRK && o == K(i) case VNonReloc(x) => o == R(x) case _ => false
  }

  ghost predicate ApartFrom(a: seq<nat>, b: seq<nat>) { forall j :: j in a ==> j !in b }

  /** `luaK_dischargevars`. */
  function Vars(d: ExpDesc): ExpDesc { if d.k.VLocal? then d.(k := VNonReloc(d.k.reg)) else d }

  /** The lists of a descriptor: all their nodes are pending, and nobody else's. */
  ghost predicate ListsAt(code: seq<Instr>, pend: set<nat>, jnodes: seq<nat>, d: ExpDesc, e: Exp) {
    && IsList(code, d.t, e.t) && IsList(code, d.f, e.f) && NoDup(Own(e) + jnodes) && Nodes(Own(e)) <= pend
  }

  /** The instructions that a descriptor speaks about. */
  predicate Fits(code: seq<Instr>, e: Exp) {
    match e.k
    case VReloc(pc) => pc + 1 == |code| && code[pc].Not?
    case VJmp(pc) => pc + 1 == |code| && pc > 0 && code[pc] == Jmp(NO_JUMP) && code[pc - 1].Cmp?
    case _ => true
  }

  class FuncState {
    var code: seq<Instr>
    var jpc: int
    var lasttarget: int
    var freereg: nat
    var nactvar: nat
    var maxstack: nat
    var k: seq<Value>
    /** The jumps to here. */
    ghost var jnodes: seq<nat>
    /** All pending jumps. */
    ghost var pend: set<nat>

    ghost predicate Valid()
      reads this
    {
      AllJumps(code, pend) && IsList(code, jpc, jnodes) && Nodes(jnodes) <= pend && freereg <= maxstack < MAXSTACK && OffsetsFit(code)
    }

    /** The state without links. */
    ghost function Abs(): Fs
      reads this
    {
      Fs(Erased(code, pend), jnodes, lasttarget, freereg, nactvar, maxstack, k)
    }

    /** The descriptor `d` stands for `e`, whose nodes are all pending and nobody else's. */
    ghost predicate Holds(d: ExpDesc, e: Exp)
      reads this
    {
      d.k == e.k && ListsAt(code, pend, jnodes, d, e) && Fits(code, e)
    }

    /** What happened to the jumps that the operation does not own. */
    twostate predicate Moved(o0: seq<nat>, o1: seq<nat>)
      reads this
    {
      Kept(old(code), old(pend), o0 + old(jnodes), code, pend, o1 + jnodes)
    }

    /** A new function with `n` parameters. */
    constructor (n: nat)
      requires n < MAXSTACK
      ensures Valid() && pend == {} && fresh(this)
      ensures Abs() == Fs([], [], 0, n, n, if n > 2 then n else 2, [])
    {
      code, jpc, lasttarget := [], NO_JUMP, 0;
      freereg, nactvar, maxstack, k := n, n, if n > 2 then n else 2, [];
      jnodes, pend := [], {};
    }

    // ----- jump lists -----

    /** `fixjump`: fails exactly when the target is too far away. */
    method FixJump(pc: nat, dest: int) returns (r: Outcome)
      requires pc < |code| && code[pc].Jmp?
      modifies `code
      ensures r.Failed? <==> dest - (pc + 1) > MAXARG_sBx || dest - (pc + 1) < -MAXARG_sBx
      ensures code == if r.Failed? then old(code) else old(code)[pc := Jmp(dest - (pc + 1))]
      ensures OffsetsFit(old(code)) ==> OffsetsFit(code)
    {
      var offset := dest - (pc + 1);
      if (if offset < 0 then -offset else offset) > MAXARG_sBx {
        return Failed("control structure too long");
      }
      code := code[pc := Jmp(offset)];
      r := Done;
    }

    /** `luaK_concat`: the nodes of both lists, in order, and nothing else. */
    method Concat(l1: int, l2: int, ghost n1: seq<nat>, ghost n2: seq<nat>) returns (r: Outcome, head: int)
      requires IsList(code, l1, n1) && IsList(code, l2, n2) && forall j :: j in n1 ==> j !in n2
      modifies `code
      ensures r.Done? ==> IsList(code, head, n1 + n2) && |code| == |old(code)|
      ensures r.Done? ==> forall i :: 0 <= i < |code| && (i !in n1 || n2 == []) ==> code[i] == old(code)[i]
      ensures r.Done? ==> forall i :: 0 <= i < |code| && i in n1 ==> code[i].Jmp?
      ensures |old(code)| < MAXARG_sBx ==> r.Done?
      ensures r.Done? <==> ConcatFits(n1, n2)
      ensures OffsetsFit(old(code)) ==> OffsetsFit(code)
    {
      if l2 == NO_JUMP {
        assert n1 + n2 == n1;
        return Done, l1;
      }
      if l1 == NO_JUMP {
        assert n1 + n2 == n2;
        return Done, l2;
      }
      var list := l1;
      ghost var i := 0;
      while Link(code, list) != NO_JUMP
        invariant code == old(code) && 0 <= i < |n1| && list == n1[i]
        decreases |n1| - i
      {
        list := Link(code, list);
        i := i + 1;
      }
      head := l1;
      r := FixJump(list, l2);
      if r.Done? {
        Linked(old(code), code, n1, n2, l1, l2);
      }
    }

    /** `patchtestreg`. */
    method PatchTestReg(node: nat, reg: nat) returns (b: bool)
      requires node < |code| && code[node].Jmp?
      modifies `code
      ensures b == HasValue(old(code), node)
      ensures code == if b then old(code)[node - 1 := Retarget(old(code)[node - 1], reg)] else old(code)
      ensures |code| == |old(code)| && code[node] == old(code)[node]
      ensures OffsetsFit(old(code)) ==> OffsetsFit(code)
    {
      var control := if node >= 1 && IsTest(code[node - 1]) then node - 1 else node;
      var i := code[control];
      if !i.TestSet? {
        return false;
      }
      if reg != NO_REG && reg != i.b {
        code := code[control := TestSet(reg, i.b, i.c)];
      } else {
        code := code[control := Test(i.b, i.c)];
      }
      b := true;
    }

    /** `patchlistaux`: every node of the list goes to its target, once, and no other jump
        changes. */
    method PatchListAux(head: int, ghost nodes: seq<nat>, vtarget: int, reg: nat, dtarget: int) returns (r: Outcome)
      requires IsList(code, head, nodes)
      modifies `code
      ensures r.Done? ==> code == PatchList(old(code), nodes, vtarget, reg, dtarget)
      ensures Near(|old(code)|, vtarget, dtarget) ==> r.Done?
      ensures r.Done? <==> PatchFits(old(code), nodes, vtarget, dtarget)
      ensures OffsetsFit(old(code)) ==> OffsetsFit(code)
    {
      hide IsList, PatchedAt, Retarget, HasValue, PatchFits;
      var list := head;
      ghost var c, n := code, 0;
      NothingFits(c, vtarget, dtarget);
      PatchNothing(c, head, nodes, vtarget, reg, dtarget);
      while list != NO_JUMP
        invariant 0 <= n <= |nodes| && list == After(nodes, n)
        invariant code == PatchList(c, nodes[..n], vtarget, reg, dtarget)
        invariant PatchFits(c, nodes[..n], vtarget, dtarget)
        invariant OffsetsFit(c) ==> OffsetsFit(code)
        decreases |nodes| - n
      {
        MoreFits(c, nodes, n, vtarget, dtarget);
        PatchedNode(c, head, nodes, n, vtarget, reg, dtarget);
        var next := Link(code, list);
        var b := PatchTestReg(list, reg);
        r := FixJump(list, if b then vtarget else dtarget);
        if r.Failed? {
          return;
        }
        PatchedNext(c, head, nodes, n, vtarget, reg, dtarget, code);
        list := next;
        n := n + 1;
      }
      assert nodes[..n] == nodes;
      r := Done;
    }

    /** `removevalues`. */
    method RemoveValuesOf(head: int, ghost nodes: seq<nat>)
      requires IsList(code, head, nodes)
      modifies `code
      ensures code == DropValues(old(code), nodes)
      ensures OffsetsFit(old(code)) ==> OffsetsFit(code)
    {
      hide IsList, Retarget, HasValue;
      var list := head;
      ghost var c, n := code, 0;
      DropNothing(c, head, nodes);
      while list != NO_JUMP
        invariant 0 <= n <= |nodes| && list == After(nodes, n)
        invariant code == DropValues(c, nodes[..n])
        invariant OffsetsFit(c) ==> OffsetsFit(code)
        decreases |nodes| - n
      {
        DroppedNode(c, head, nodes, n);
        var b := PatchTestReg(list, NO_REG);
        DroppedNext(c, head, nodes, n, code);
        list := Link(code, list);
        n := n + 1;
      }
      assert nodes[..n] == nodes;
    }

    /** `dischargejpc`. */
    method DischargeJpc() returns (r: Outcome)
      requires Valid()
      modifies this
      ensures r.Done? ==> Valid() && Abs() == Discharge(old(Abs())) && jnodes == [] && jpc == NO_JUMP && pend == old(pend) - Nodes(old(jnodes))
      ensures r.Done? ==> |code| == |old(code)| && Kept(old(code), old(pend), old(jnodes), code, pend, [])
      ensures r.Done? && old(jnodes) == [] ==> code == old(code)
      ensures |old(code)| < MAXARG_sBx ==> r.Done?
      ensures r.Done? <==> EmitFits(old(Abs()))
    {
      hide PatchFits, OffsetsFit, PatchedAt;
      ErasePatch(code, pend, jnodes, |code|, NO_REG, |code|);
      FitsErased(code, pend, jnodes, |code|, |code|);
      PatchNothing(code, jpc, jnodes, |code|, NO_REG, |code|);
      r := PatchListAux(jpc, jnodes, |code|, NO_REG, |code|);
      jpc, pend, jnodes := NO_JUMP, pend - Nodes(jnodes), [];
    }

    /** `luaK_code`. */
    method Code(i: Instr) returns (r: Outcome)
      requires Valid() && (i.Jmp? ==> i == Jmp(NO_JUMP))
      modifies this
      ensures r.Done? ==> Valid() && Abs() == Emit(old(Abs()), i) && jnodes == [] && jpc == NO_JUMP && pend == old(pend) - Nodes(old(jnodes))
      ensures r.Done? ==> |code| == |old(code)| + 1 && code[|old(code)|] == i
      ensures r.Done? ==> Kept(old(code), old(pend), old(jnodes), code, pend, [])
      ensures r.Done? && old(jnodes) == [] ==> code == old(code) + [i]
      ensures |old(code)| + 1 < MAXARG_sBx ==> r.Done?
      ensures r.Done? <==> EmitFits(old(Abs()))
    {
      r := DischargeJpc();
      if r.Done? {
        EraseAppend(code, pend, i);
        code := code + [i];
      }
    }

    /** `luaK_jump`: the new jump and, behind it, the jumps to here. */
    method Jump() returns (r: Outcome, j: int, ghost nodes: seq<nat>)
      requires Valid()
      modifies this
      ensures r.Done? ==> Valid() && (Abs(), nodes) == EmitJump(old(Abs())) && jnodes == [] && jpc == NO_JUMP
      ensures r.Done? ==> IsList(code, j, nodes) && pend == old(pend) + {|old(code)|} && Nodes(nodes) <= pend
      ensures r.Done? ==> |code| == |old(code)| + 1 && (old(jnodes) == [] ==> code[|old(code)|] == Jmp(NO_JUMP))
      ensures r.Done? ==> forall i :: 0 <= i < |old(code)| && i !in old(jnodes) ==> code[i] == old(code)[i]
      ensures |old(code)| + 1 < MAXARG_sBx ==> r.Done?
      ensures r.Done? <==> JumpFits(old(Abs()))
    {
      hide IsList, AllJumps, Erased, Link, OffsetsFit;
      var save := jpc;
      ghost var c0, p0, saved := code, pend, jnodes;
      jpc, jnodes := NO_JUMP, [];
      NoList(code);
      j := |code|;
      nodes := [|c0|] + saved;
      r := Code(Jmp(NO_JUMP));
      if r.Failed? {
        return;
      }
      pend := pend + {|c0|};
      JumpAppended(c0, p0, save, saved, code, pend);
      ghost var c1 := code;
      r, j := Concat(j, save, [|c0|], saved);
      if r.Done? {
        ConcatErased(c1, code, pend, [|c0|]);
        NoList(code);
      }
    }

    /** `condjump`. */
    method CondJumpTo(test: Instr) returns (r: Outcome, j: int, ghost nodes: seq<nat>)
      requires Valid() && IsTest(test)
      modifies this
      ensures r.Done? ==> Valid() && (Abs(), nodes) == CondJump(old(Abs()), test) && jnodes == [] && jpc == NO_JUMP
      ensures r.Done? ==> |code| == |old(code)| + 2 && nodes == [|old(code)| + 1] && IsList(code, j, nodes) && Nodes(nodes) <= pend
      ensures r.Done? ==> code[|old(code)|] == test && code[|old(code)| + 1] == Jmp(NO_JUMP)
      ensures r.Done? ==> Moved([], nodes)
      ensures |old(code)| + 2 < MAXARG_sBx ==> r.Done?
      ensures r.Done? <==> EmitFits(old(Abs()))
    {
      hide IsList, AllJumps, Erased, Link, Emit, OffsetsFit, EmitFits;
      j, nodes := NO_JUMP, [];
      AllInside(code, pend);
      r := Code(test);
      if r.Failed? {
        return;
      }
      ghost var c1 := code;
      r, j, nodes := Jump();
      if r.Done? {
        EmptyTail(|c1|);
      }
    }

    /** `luaK_getlabel`. */
    method GetLabel() returns (pc: nat)
      modifies `lasttarget
      ensures pc == |code| && lasttarget == pc && Abs() == Label(old(Abs()))
    {
      lasttarget := |code|;
      pc := |code|;
    }

    /** `luaK_patchtohere`. */
    method PatchHere(list: int, ghost nodes: seq<nat>) returns (r: Outcome)
      requires Valid() && IsList(code, list, nodes) && Nodes(nodes) <= pend && NoDup(nodes + jnodes)
      modifies this
      ensures r.Done? ==> Valid() && Abs() == PatchToHere(old(Abs()), nodes) && pend == old(pend) && |code| == |old(code)|
      ensures r.Done? ==> forall i :: 0 <= i < |code| && i !in old(jnodes) ==> code[i] == old(code)[i]
      ensures |old(code)| < MAXARG_sBx ==> r.Done?
      ensures r.Done? <==> HereFits(old(Abs()), nodes)
    {
      hide Link, Erased, OffsetsFit, IsList, NoDup, AllJumps, ConcatFits, Nodes;
      ghost var c0, j0 := code, jnodes;
      ListDisjoint(jnodes, nodes);
      var pc := GetLabel();
      r, jpc := Concat(jpc, list, jnodes, nodes);
      jnodes := jnodes + nodes;
      if r.Done? {
        ConcatErased(c0, code, pend, j0);
        NodesConcat(j0, nodes);
      }
    }

    // ----- simple instructions -----

    /** `luaK_nil` for one register. */
    method CodeNil(from: nat) returns (r: Outcome)
      requires Valid()
      modifies this
      ensures r.Done? ==> Valid() && Abs() == EmitNil(old(Abs()), from) && Moved([], [])
      ensures Small(EmitNil(old(Abs()), from)) ==> r.Done?
      ensures r.Done? <==> NilFits(old(Abs()), from)
    {
      hide AllJumps, IsList, Erased, NilJoins, EmitNil, Emit;
      if |code| > lasttarget && |code| > 0 && code[|code| - 1].LoadNil? {
        var i := code[|code| - 1];
        var last := i.a + i.n;
        if (i.a <= from <= last + 1) || (from <= i.a <= from + 1) {
          var a := if i.a < from then i.a else from;
          var l := if last > from then last else from;
          code := code[|code| - 1 := LoadNil(a, l - a)];
          Joined(old(code), pend, old(Abs()), from, code, jpc, jnodes);
          r := Done;
          return;
        }
      }
      NotJoined(code, pend, old(Abs()), from);
      EmitSize(Abs(), LoadNil(from, 0));
      r := Code(LoadNil(from, 0));
    }

    /** `luaK_codek`. */
    method CodeK(reg: nat, i: nat) returns (r: Outcome)
      requires Valid()
      modifies this
      ensures r.Done? ==> Valid() && Abs() == EmitK(old(Abs()), reg, i) && Moved([], [])
      ensures Small(EmitK(old(Abs()), reg, i)) ==> r.Done?
      ensures r.Done? <==> EmitFits(old(Abs()))
    {
      hide AllJumps, OffsetsFit, IsList, Erased, Emit;
      ghost var c0, p0, j0 := code, pend, jnodes;
      if i <= MAXARG_Bx {
        EmitSize(Abs(), LoadK(reg, i));
        r := Code(LoadK(reg, i));
      } else {
        EmitSize(Abs(), LoadKX(reg));
        EmitSize(Emit(Abs(), LoadKX(reg)), ExtraArg(i));
        r := Code(LoadKX(reg));
        if r.Done? {
          ghost var c1, p1 := code, pend;
          r := Code(ExtraArg(i));
          if r.Done? {
            KeptTrans(c0, p0, j0, c1, p1, [], code, pend, []);
          }
        }
      }
    }

    /** `addk`: the constant is at the index returned; old constants keep theirs, and no
        constant is entered twice unless its twin was filed in its place. */
    method AddConstant(v: Value) returns (i: nat)
      modifies `k
      ensures i < |k| && k[i] == v && old(k) <= k && |k| <= |old(k)| + 1
      ensures NoDup(old(k)) ==> (NoDup(k) <==> !Covered(old(k), v))
      ensures (Abs(), i) == AddK(old(Abs()), v)
    {
      if NoDup(k) {
        EnteredOnce(Abs(), v);
      }
      var n := |k|;
      while n > 0 && KeyOf(k[n - 1]) != KeyOf(v)
        invariant 0 <= n <= |k| && forall j :: n <= j < |k| ==> KeyOf(k[j]) != KeyOf(v)
      {
        n := n - 1;
      }
      FiledLast(k, KeyOf(v), n);
      if n > 0 && k[n - 1] == v {
        return n - 1;
      }
      i := |k|;
      k := k + [v];
    }

    // ----- registers -----

    /** `luaK_reserveregs` for one register: fails exactly when the function needs too many. */
    method ReserveReg() returns (r: Outcome)
      modifies `freereg, `maxstack
      ensures r.Failed? <==> old(freereg) + 1 > old(maxstack) && old(freereg) + 1 >= MAXSTACK
      ensures r.Done? ==> Abs() == Reserve(old(Abs())) && (old(maxstack) < MAXSTACK ==> maxstack < MAXSTACK)
      ensures r.Done? ==> freereg == old(freereg) + 1 && freereg <= maxstack && (maxstack == old(maxstack) || maxstack == freereg > old(maxstack))
    {
      var newstack := freereg + 1;
      if newstack > maxstack {
        if newstack >= MAXSTACK {
          return Failed("function or expression too complex");
        }
        maxstack := newstack;
      }
      freereg := freereg + 1;
      r := Done;
    }

    /** `freeexp`. */
    method FreeReg(d: ExpDesc, ghost e: Exp)
      requires d.k == e.k
      modifies `freereg
      ensures Abs() == FreeExp(old(Abs()), e) && freereg <= old(freereg)
    {
      if d.k.VNonReloc? && d.k.reg >= nactvar && freereg > 0 {
        freereg := freereg - 1;
      }
    }

    // ----- expressions to registers -----

    /** `discharge2reg`. */
    method DischargeToReg(d0: ExpDesc, ghost e: Exp, reg: nat) returns (r: Outcome, d: ExpDesc, ghost e1: Exp)
      requires Valid() && Holds(d0, e)
      modifies this
      ensures r.Done? ==> Valid() && Holds(d, e1) && (Abs(), e1) == Discharge2Reg(old(Abs()), e, reg) && Moved(Own(e), Own(e1))
      ensures r.Done? ==> d.t == d0.t && d.f == d0.f
      ensures Small(Discharge2Reg(old(Abs()), e, reg).0) ==> r.Done?
      ensures r.Done? <==> Discharge2RegFits(old(Abs()), e, reg)
    {
      hide AllJumps, IsList, Erased, Emit, EmitNil, EmitK, AddK, NoDup, Kept, PatchFits;
      ghost var c0, p0, j0 := code, pend, jnodes;
      var k0 := if d0.k.VLocal? then VNonReloc(d0.k.reg) else d0.k;
      d, e1 := d0.(k := VNonReloc(reg)), e.(k := VNonReloc(reg));
      r := Done;
      NothingMoved(c0, p0, j0);
      match k0 {
        case VNil => r := CodeNil(reg);
        case VTrue => EmitSize(Abs(), LoadBool(reg, true, false)); r := Code(LoadBool(reg, true, false)); EmptyRight(j0);
        case VFalse => EmitSize(Abs(), LoadBool(reg, false, false)); r := Code(LoadBool(reg, false, false)); EmptyRight(j0);
        case VK(i) => r := CodeK(reg, i);
        case VKNum(n) =>
          var i := AddConstant(Num(n));
          r := CodeK(reg, i);
        case VReloc(pc) =>
          RelocateKeeps(code, pend, pc, reg);
          code := code[pc := Not(reg, code[pc].b)];
          ListKept(c0, code, jpc, jnodes) by { InPend(jnodes, pend); AllInside(c0, pend); }
          JustMoved(c0, p0, j0, code);
        case VNonReloc(x) =>
          if x != reg {
            EmitSize(Abs(), Move(reg, x));
            r := Code(Move(reg, x));
            EmptyRight(j0);
          }
        case VJmp(_) =>
          d, e1 := d0, e;
          MovedSame(c0, p0, j0, e);
          return;
      }
      if r.Done? {
        NewKind(c0, p0, j0, code, pend, jnodes, d0, e, d, e1) by { ListNoDup(code, jpc, jnodes); }
      }
    }

    /** `patchlistaux` on a list of pending jumps. */
    method PatchTo(head: int, ghost nodes: seq<nat>, vtarget: int, reg: nat, dtarget: int) returns (r: Outcome)
      requires Valid() && IsList(code, head, nodes) && Nodes(nodes) <= pend && NoDup(nodes + jnodes)
      modifies `code, `pend
      ensures r.Done? ==> Valid() && Abs() == old(Abs()).(code := PatchList(old(Abs()).code, nodes, vtarget, reg, dtarget))
      ensures r.Done? ==> pend == old(pend) - Nodes(nodes) && |code| == |old(code)|
      ensures r.Done? ==> forall j :: j in pend ==> j < |code| && code[j] == old(code)[j]
      ensures Near(|old(code)|, vtarget, dtarget) ==> r.Done?
      ensures r.Done? <==> PatchFits(old(Abs()).code, nodes, vtarget, dtarget)
    {
      hide PatchedAt, PatchFits, OffsetsFit;
      ErasePatch(code, pend, nodes, vtarget, reg, dtarget);
      FitsErased(code, pend, nodes, vtarget, dtarget);
      AllInside(code, pend);
      InPend(jnodes, pend);
      ListDisjoint(jnodes, nodes);
      ghost var c0 := code;
      r := PatchListAux(head, nodes, vtarget, reg, dtarget);
      if r.Done? {
        pend := pend - Nodes(nodes);
        ListKept(c0, code, jpc, jnodes);
      }
    }

    /** `code_label`. */
    method CodeLabel(reg: nat, b: bool, skip: bool) returns (r: Outcome, pc: nat)
      requires Valid()
      modifies this
      ensures r.Done? ==> Valid() && Abs() == Emit(Label(old(Abs())), LoadBool(reg, b, skip)) && jnodes == [] && jpc == NO_JUMP
      ensures r.Done? ==> |code| == |old(code)| + 1 && Kept(old(code), old(pend), old(jnodes), code, pend, [])
      ensures pc == |old(code)| && (|old(code)| + 1 < MAXARG_sBx ==> r.Done?)
      ensures r.Done? <==> EmitFits(old(Abs()))
    {
      hide AllJumps, OffsetsFit, IsList, Erased, Emit, Nodes, Kept;
      pc := GetLabel();
      r := Code(LoadBool(reg, b, skip));
    }

    /** The loads of true and false in `exp2reg`. */
    method CodeBooleans(reg: nat, jmp: bool) returns (r: Outcome, pf: int, pt: int)
      requires Valid()
      modifies this
      ensures r.Done? ==> Valid() && (Abs(), pf, pt) == LoadBooleans(old(Abs()), reg, jmp)
      ensures r.Done? ==> Kept(old(code), old(pend), old(jnodes), code, pend, jnodes)
      ensures r.Done? ==> |code| == |old(code)| + (if jmp then 2 else 3) && -1 <= pf <= |code| && -1 <= pt <= |code|
      ensures |old(code)| + (if jmp then 2 else 3) < MAXARG_sBx ==> r.Done?
      ensures r.Done? <==> BooleansFit(old(Abs()), jmp)
    {
      hide AllJumps, OffsetsFit, IsList, Erased, Emit, Nodes, Kept;
      var fj := NO_JUMP;
      ghost var fnodes: seq<nat> := [];
      pf, pt := NO_JUMP, NO_JUMP;
      ghost var c0, p0, j0 := code, pend, jnodes;
      if !jmp {
        r, fj, fnodes := Jump();
        if r.Failed? {
          return;
        }
        JumpKept(c0, p0, j0, code, pend);
      } else {
        NoList(code);
        NothingKept(c0, p0, j0);
      }
      ghost var c1, p1, j1 := code, pend, jnodes;
      r, pf := CodeLabel(reg, false, true);
      if r.Failed? {
        return;
      }
      ghost var c2, p2 := code, pend;
      r, pt := CodeLabel(reg, true, false);
      if r.Failed? {
        return;
      }
      ghost var c3, p3 := code, pend;
      FreshKept(c1, p1, j1, c2, p2, c3, p3, fj, fnodes);
      r := PatchHere(fj, fnodes);
      if r.Done? {
        BooleansKept(c0, p0, j0, c1, p1, j1, c2, p2, c3, p3, code, fnodes);
      }
    }

    /** The end of `exp2reg`. */
    method JoinLists(t: int, f: int, ghost nt: seq<nat>, ghost nf: seq<nat>, reg: nat, jmp: bool) returns (r: Outcome)
      requires Valid() && IsList(code, t, nt) && IsList(code, f, nf) && Nodes(nt + nf) <= pend && NoDup(nt + nf + jnodes)
      modifies this
      ensures r.Done? ==> Valid() && Abs() == JoinJumps(old(Abs()), nt, nf, reg, jmp)
      ensures r.Done? ==> Kept(old(code), old(pend), nt + nf + old(jnodes), code, pend, jnodes)
      ensures Small(JoinJumps(old(Abs()), nt, nf, reg, jmp)) ==> r.Done?
      ensures r.Done? <==> JoinFits(old(Abs()), nt, nf, reg, jmp)
    {
      hide AllJumps, OffsetsFit, IsList, Erased, LoadBooleans, NeedValue, NoDup, Nodes, PatchList, PatchFits, BooleansFit;
      ghost var c0, p0, j0 := code, pend, jnodes;
      JoinSize(Abs(), nt, nf, reg, jmp);
      HeadsDiffer(code, t, nt, f, nf, jnodes, pend);
      if t == f {
        KeptMore(c0, p0, nt + nf, j0);
        return Done;
      }
      var b1 := NeedsValue(code, t, nt);
      var b2 := NeedsValue(code, f, nf);
      EraseNeeds(code, pend, nt);
      EraseNeeds(code, pend, nf);
      var pf, pt := NO_JUMP, NO_JUMP;
      if b1 || b2 {
        r, pf, pt := CodeBooleans(reg, jmp);
        if r.Failed? {
          return;
        }
      } else {
        KeptNothing(c0, p0, j0);
      }
      ghost var c1, p1, j1 := code, pend, jnodes;
      BothKept(c0, p0, j0, c1, p1, j1, t, nt, f, nf) by { ListNoDup(c1, jpc, j1); }
      var final := GetLabel();
      r := PatchTo(f, nf, final, reg, pf);
      if r.Failed? {
        return;
      }
      ghost var c2, p2 := code, pend;
      StillList(c1, p1, c2, p2, t, nt, nf, j1);
      r := PatchTo(t, nt, final, reg, pt);
      if r.Done? {
        JoinedKept(c0, p0, j0, c1, p1, j1, c2, p2, code, pend, nt, nf);
      }
    }

    /** `exp2reg`. */
    method ExpToReg(d0: ExpDesc, ghost e: Exp, reg: nat) returns (r: Outcome, d: ExpDesc, ghost e1: Exp)
      requires Valid() && Holds(d0, e)
      modifies this
      ensures r.Done? ==> Valid() && Holds(d, e1) && (Abs(), e1) == Exp2Reg(old(Abs()), e, reg) && Moved(Own(e), Own(e1))
      ensures r.Done? ==> d == ExpDesc(VNonReloc(reg), NO_JUMP, NO_JUMP) && e1 == Exp(VNonReloc(reg), [], [])
      ensures Small(Exp2Reg(old(Abs()), e, reg).0) ==> r.Done?
      ensures r.Done? <==> Exp2RegFits(old(Abs()), e, reg)
    {
      hide AllJumps, OffsetsFit, IsList, Erased, Discharge2Reg, JoinJumps, NoDup, Nodes, Kept, Link, Discharge2RegFits, JoinFits, ConcatFits;
      ghost var c0, p0, j0 := code, pend, jnodes;
      RegParts(Abs(), e, reg);
      r, d, e1 := DischargeToReg(d0, e, reg);
      if r.Failed? {
        return;
      }
      ghost var c1, p1, j1, d1, e2 := code, pend, jnodes, d, e1;
      var t := d.t;
      ghost var nt := e1.t;
      OwnParts(code, pend, jnodes, d, e1);
      if d.k.VJmp? {
        JmpAlone(code, pend, jnodes, d, e1);
        r, t := Concat(d.t, d.k.pc, e1.t, [d.k.pc]);
        nt := e1.t + [d.k.pc];
        if r.Failed? {
          return;
        }
        JmpLinked(c1, code, pend, jpc, jnodes, d, e1);
      }
      ghost var c2 := code;
      r := JoinLists(t, d.f, nt, e1.f, reg, d.k.VJmp?);
      d, e1 := ExpDesc(VNonReloc(reg), NO_JUMP, NO_JUMP), Exp(VNonReloc(reg), [], []);
      if r.Done? {
        RegKept(c0, p0, j0, e, c1, p1, j1, e2, c2, code, pend, jnodes, nt);
        NoLists(code, pend, jpc, jnodes, d, e1);
      }
    }

    /** `luaK_exp2nextreg`. */
    method ExpToNextReg(d0: ExpDesc, ghost e: Exp) returns (r: Outcome, d: ExpDesc, ghost e1: Exp)
      requires Valid() && Holds(d0, e)
      modifies this
      ensures r.Done? ==> Valid() && Holds(d, e1) && (Abs(), e1) == Exp2NextReg(old(Abs()), e) && Moved(Own(e), Own(e1))
      ensures r.Done? ==> d.k.VNonReloc? && d.t == NO_JUMP && d.f == NO_JUMP
      ensures Small(Exp2NextReg(old(Abs()), e).0) ==> r.Done?
      ensures r.Done? <==> Exp2NextRegFits(old(Abs()), e)
    {
      hide AllJumps, OffsetsFit, IsList, Erased, Exp2Reg, NoDup, Nodes, Kept, Exp2RegFits;
      d, e1 := Vars(d0), DischargeVars(e);
      ghost var e2 := e1;
      NextRegParts(Abs(), e);
      VarsHold(code, pend, jnodes, d0, e);
      FreeReg(d, e1);
      r := ReserveReg();
      if r.Failed? {
        return;
      }
      r, d, e1 := ExpToReg(d, e1, freereg - 1);
    }

    /** `luaK_exp2anyreg`. */
    method ExpToAnyReg(d0: ExpDesc, ghost e: Exp) returns (r: Outcome, d: ExpDesc, ghost e1: Exp)
      requires Valid() && Holds(d0, e)
      modifies this
      ensures r.Done? ==> Valid() && Holds(d, e1) && (Abs(), e1) == Exp2AnyReg(old(Abs()), e) && Moved(Own(e), Own(e1))
      ensures r.Done? ==> d.k.VNonReloc? && d.t == NO_JUMP && d.f == NO_JUMP
      ensures Small(Exp2AnyReg(old(Abs()), e).0) ==> r.Done?
      ensures r.Done? <==> Exp2AnyRegFits(old(Abs()), e)
    {
      hide AllJumps, OffsetsFit, IsList, Erased, Exp2Reg, NoDup, Nodes, Kept, Exp2NextReg, Exp2RegFits, Exp2NextRegFits;
      d, e1 := Vars(d0), DischargeVars(e);
      VarsHold(code, pend, jnodes, d0, e);
      HeadsEmpty(code, pend, jnodes, d, e1);
      MovedSame(code, pend, jnodes, e);
      if d.k.VNonReloc? {
        if d.t == d.f {
          return Done, d, e1;
        }
        if d.k.reg >= nactvar {
          r, d, e1 := ExpToReg(d, e1, d.k.reg);
          return;
        }
      }
      r, d, e1 := ExpToNextReg(d, e1);
    }

    /** `luaK_exp2RK`. */
    method ExpToRK(d0: ExpDesc, ghost e: Exp) returns (r: Outcome, d: ExpDesc, ghost e1: Exp, o: RK)
      requires Valid() && Holds(d0, e)
      modifies this
      ensures r.Done? ==> Valid() && Holds(d, e1) && (Abs(), e1, o) == Exp2RK(old(Abs()), e) && Moved(Own(e), Own(e1))
      ensures r.Done? ==> IsOperand(e1, o)
      ensures Small(Exp2RK(old(Abs()), e).0) ==> r.Done?
      ensures r.Done? <==> Exp2RKFits(old(Abs()), e)
    {
      hide AllJumps, OffsetsFit, IsList, Erased, Exp2AnyReg, NoDup, Nodes, AddK, Kept, Exp2AnyRegFits;
      ghost var c0, p0, j0 := code, pend, jnodes;
      o := R(0);
      RKParts(Abs(), e);
      HeadsEmpty(code, pend, jnodes, d0, e);
      d, e1 := Vars(d0), DischargeVars(e);
      VarsHold(code, pend, jnodes, d0, e);
      MovedSame(code, pend, jnodes, e);
      if d0.t != d0.f {
        r, d, e1 := ExpToAnyReg(d0, e);
        if r.Failed? {
          return;
        }
        HeadsEmpty(code, pend, jnodes, d, e1);
      }
      ghost var c1, p1, j1, d1, e2 := code, pend, jnodes, d, e1;
      if d.k.VNil? || d.k.VTrue? || d.k.VFalse? {
        if |k| <= MAXINDEXRK {
          SmallIndex(Abs(), if d.k.VNil? then Nil else Bool(d.k.VTrue?));
          var i := AddConstant(if d.k.VNil? then Nil else Bool(d.k.VTrue?));
          d, e1, o := d.(k := VK(i)), e1.(k := VK(i)), K(i);
          ConstHolds(code, pend, jnodes, d1, e2, d, e1);
          r := Done;
          return;
        }
      } else if d.k.VKNum? {
        var i := AddConstant(Num(d.k.n));
        d, e1 := d.(k := VK(i)), e1.(k := VK(i));
        ConstHolds(code, pend, jnodes, d1, e2, d, e1);
        if i <= MAXINDEXRK {
          o := K(i);
          r := Done;
          return;
        }
      } else if d.k.VK? {
        if d.k.i <= MAXINDEXRK {
          o := K(d.k.i);
          r := Done;
          return;
        }
      }
      ghost var e3 := e1;
      r, d, e1 := ExpToAnyReg(d, e1);
      if r.Done? {
        o := R(d.k.reg);
        HeadsEmpty(code, pend, jnodes, d, e1);
        MovedTwice(c0, p0, Own(e), j0, c1, p1, Own(e2), j1, code, pend, Own(e1), jnodes);
      }
    }

    // ----- conditions -----

    /** `invertjump`. */
    method Invert(d: ExpDesc, ghost e: Exp)
      requires Valid() && Holds(d, e) && d.k.VJmp?
      modifies `code
      ensures Valid() && Holds(d, e) && Abs() == InvertJump(old(Abs()), d.k.pc) && Moved(Own(e), Own(e))
    {
      hide AllJumps, IsList, Erased, NoDup, Nodes;
      ghost var c0 := code;
      var i := code[d.k.pc - 1];
      InvertKeeps(code, pend, jnodes, jpc, d, e);
      code := code[d.k.pc - 1 := i.(cond := !i.cond)];
    }

    /** `discharge2anyreg`. */
    method DischargeToAnyReg(d0: ExpDesc, ghost e: Exp) returns (r: Outcome, d: ExpDesc, ghost e1: Exp)
      requires Valid() && Holds(d0, e)
      modifies this
      ensures r.Done? ==> Valid() && Holds(d, e1) && (Abs(), e1) == Discharge2AnyReg(old(Abs()), e) && Moved(Own(e), Own(e1))
      ensures r.Done? ==> d.t == d0.t && d.f == d0.f
      ensures Small(Discharge2AnyReg(old(Abs()), e).0) ==> r.Done?
      ensures r.Done? <==> Discharge2AnyRegFits(old(Abs()), e)
    {
      hide AllJumps, OffsetsFit, IsList, Erased, NoDup, Nodes, Discharge2Reg, Kept, Discharge2RegFits;
      d, e1 := d0, e;
      r := Done;
      MovedSame(code, pend, jnodes, e);
      if !d.k.VNonReloc? {
        MonoDischarge(Reserve(Abs()), e, freereg);
        r := ReserveReg();
        if r.Failed? {
          return;
        }
        r, d, e1 := DischargeToReg(d, e1, freereg - 1);
      }
    }

    /** `jumponcond`: a NOT just emitted is taken back. */
    method JumpOn(d0: ExpDesc, ghost e: Exp, cond: bool) returns (r: Outcome, j: int, ghost nodes: seq<nat>)
      requires Valid() && Holds(d0, e) && !d0.k.VJmp? && !d0.k.VLocal?
      modifies this
      ensures r.Done? ==> Valid() && (Abs(), nodes) == JumpOnCond(old(Abs()), e, cond) && IsList(code, j, nodes)
      ensures r.Done? ==> ListsAt(code, pend, jnodes, d0, e.(k := VTrue)) && ApartFrom(nodes, e.t + e.f + jnodes) && Nodes(nodes) <= pend
      ensures r.Done? ==> Moved(Own(e), e.t + e.f + nodes)
      ensures Small(JumpOnCond(old(Abs()), e, cond).0) ==> r.Done?
      ensures r.Done? <==> JumpOnCondFits(old(Abs()), e)
    {
      hide AllJumps, IsList, Erased, NoDup, Nodes, Discharge2AnyReg, CondJump, Kept, ApartFrom, EmitFits, Discharge2AnyRegFits;
      ghost var c0, p0, j0 := code, pend, jnodes;
      j, nodes := NO_JUMP, [];
      ForkSize(Abs(), e, cond);
      if d0.k.VReloc? {
        var ie := code[d0.k.pc];
        PopNot(code, pend, jpc, jnodes, d0, e);
        code := code[..|code| - 1];
        ghost var c1 := code;
        r, j, nodes := CondJumpTo(Test(ie.b, !cond));
        if r.Done? {
          Forked(c1, p0, j0, code, pend, jnodes, d0, e, nodes) by { ListNoDup(code, jpc, jnodes); }
          PopKept(c0, c1, p0, e.t + e.f + j0, code, pend, e.t + e.f + nodes + jnodes);
          PlainOwn(e);
        }
        return;
      }
      ghost var e1: Exp;
      var d: ExpDesc;
      r, d, e1 := DischargeToAnyReg(d0, e);
      if r.Failed? {
        return;
      }
      AnyRegKind(old(Abs()), e);
      FreeReg(d, e1);
      ghost var c1, p1, j1 := code, pend, jnodes;
      r, j, nodes := CondJumpTo(TestSet(NO_REG, d.k.reg, cond));
      if r.Done? {
        Forked(c1, p1, j1, code, pend, jnodes, d, e1, nodes) by { ListNoDup(code, jpc, jnodes); }
        PlainOwn(e1);
        SameLists(code, pend, jnodes, d, e1, d0, e);
        KeptTrans(c0, p0, Own(e) + j0, c1, p1, Own(e1) + j1, code, pend, e.t + e.f + nodes + jnodes);
      }
    }

    /** The end of `luaK_goiftrue` and `luaK_goiffalse`: the new jump goes to the end of one
        list, the other list comes here. */
    method Part(stay: int, leave: int, j: int, ghost ns: seq<nat>, ghost nl: seq<nat>, ghost nodes: seq<nat>) returns (r: Outcome, head: int)
      requires Valid() && IsList(code, stay, ns) && IsList(code, leave, nl) && IsList(code, j, nodes)
      requires Nodes(ns) <= pend && Nodes(nl) <= pend && Nodes(nodes) <= pend && NoDup(ns + nl + nodes + jnodes)
      modifies this
      ensures r.Done? ==> Valid() && Abs() == PatchToHere(old(Abs()), ns) && IsList(code, head, nl + nodes)
      ensures r.Done? ==> NoDup(nl + nodes + jnodes) && Nodes(nl + nodes) <= pend && pend == old(pend)
      ensures r.Done? ==> Kept(old(code), old(pend), ns + nl + nodes + old(jnodes), code, pend, nl + nodes + jnodes)
      ensures |old(code)| < MAXARG_sBx ==> r.Done?
      ensures r.Done? <==> PartFits(old(Abs()), ns, nl, nodes)
    {
      hide IsList, Erased, NoDup, Link;
      ghost var c0, j0 := code, jnodes;
      PartApart(ns, nl, nodes, jnodes);
      r, head := Concat(leave, j, nl, nodes);
      if r.Failed? {
        return;
      }
      ghost var c1 := code;
      ConcatErased(c0, code, pend, nl);
      ListKept(c0, code, stay, ns);
      ListKept(c0, code, jpc, jnodes);
      r := PatchHere(stay, ns);
      if r.Done? {
        ListKept(c1, code, head, nl + nodes);
        PartKept(c0, pend, c1, code, ns, nl, nodes, j0);
      }
    }

    /** `luaK_goiftrue`. */
    method GoTrue(d0: ExpDesc, ghost e: Exp) returns (r: Outcome, d: ExpDesc, ghost e1: Exp)
      requires Valid() && Holds(d0, e)
      modifies this
      ensures r.Done? ==> Valid() && (Abs(), e1) == GoIfTrue(old(Abs()), e) && IsList(code, d.f, e1.f) && e1.t == []
      ensures r.Done? ==> NoDup(e1.f + jnodes) && Nodes(e1.f) <= pend && Moved(Own(e), e1.f)
      ensures Small(GoIfTrue(old(Abs()), e).0) ==> r.Done?
      ensures r.Done? <==> GoIfTrueFits(old(Abs()), e)
    {
      hide AllJumps, OffsetsFit, IsList, Erased, NoDup, Nodes, Kept, JumpOnCond, ApartFrom, InvertJump, JumpOnCondFits, PartFits;
      ghost var c0, p0, j0 := code, pend, jnodes;
      d, e1 := Vars(d0), DischargeVars(e);
      VarsHold(code, pend, jnodes, d0, e);
      var j := NO_JUMP;
      ghost var nodes: seq<nat> := [];
      NoList(code);
      MovedSame(code, pend, jnodes, e);
      if d.k.VJmp? {
        Invert(d, e1);
        j, nodes := d.k.pc, [d.k.pc];
        JmpParts(code, pend, jnodes, d, e1);
      } else if d.k.VK? || d.k.VKNum? || d.k.VTrue? {
        ConstParts(code, pend, jnodes, d, e1);
      } else {
        r, j, nodes := JumpOn(d, e1, false);
        if r.Failed? {
          return;
        }
        ForkParts(code, pend, jnodes, d, e1, nodes) by { ListNoDup(code, j, nodes); ListNoDup(code, jpc, jnodes); }
      }
      ghost var c1, p1, j1, e2 := code, pend, jnodes, e1;
      var f;
      r, f := Part(d.t, d.f, j, e1.t, e1.f, nodes);
      d, e1 := d.(f := f, t := NO_JUMP), e1.(f := e1.f + nodes, t := []);
      if r.Done? {
        KeptTrans(c0, p0, Own(e) + j0, c1, p1, e2.t + e2.f + nodes + j1, code, pend, e1.f + jnodes);
      }
    }

    /** `luaK_goiffalse`. */
    method GoFalse(d0: ExpDesc, ghost e: Exp) returns (r: Outcome, d: ExpDesc, ghost e1: Exp)
      requires Valid() && Holds(d0, e)
      modifies this
      ensures r.Done? ==> Valid() && (Abs(), e1) == GoIfFalse(old(Abs()), e) && IsList(code, d.t, e1.t) && e1.f == []
      ensures r.Done? ==> NoDup(e1.t + jnodes) && Nodes(e1.t) <= pend && Moved(Own(e), e1.t)
      ensures Small(GoIfFalse(old(Abs()), e).0) ==> r.Done?
      ensures r.Done? <==> GoIfFalseFits(old(Abs()), e)
    {
      hide AllJumps, OffsetsFit, IsList, Erased, NoDup, Nodes, Kept, JumpOnCond, ApartFrom, JumpOnCondFits, PartFits;
      ghost var c0, p0, j0 := code, pend, jnodes;
      d, e1 := Vars(d0), DischargeVars(e);
      VarsHold(code, pend, jnodes, d0, e);
      var j := NO_JUMP;
      ghost var nodes: seq<nat> := [];
      NoList(code);
      MovedSame(code, pend, jnodes, e);
      if d.k.VJmp? {
        j, nodes := d.k.pc, [d.k.pc];
        JmpParts(code, pend, jnodes, d, e1);
      } else if d.k.VNil? || d.k.VFalse? {
        ConstParts(code, pend, jnodes, d, e1);
      } else {
        r, j, nodes := JumpOn(d, e1, true);
        if r.Failed? {
          return;
        }
        ForkParts(code, pend, jnodes, d, e1, nodes) by { ListNoDup(code, j, nodes); ListNoDup(code, jpc, jnodes); }
      }
      ghost var c1, p1, j1, e2 := code, pend, jnodes, e1;
      SwapParts(e1.t, e1.f, nodes, jnodes);
      var t;
      r, t := Part(d.f, d.t, j, e1.f, e1.t, nodes);
      d, e1 := d.(t := t, f := NO_JUMP), e1.(t := e1.t + nodes, f := []);
      if r.Done? {
        KeptSame(c1, p1, e2.f + e2.t + nodes + j1, e2.t + e2.f + nodes + j1, code, pend, e1.t + jnodes);
        KeptTrans(c0, p0, Own(e) + j0, c1, p1, e2.t + e2.f + nodes + j1, code, pend, e1.t + jnodes);
      }
    }

    /** The first part of `codenot`. */
    method Flip(d0: ExpDesc, ghost e: Exp) returns (r: Outcome, d: ExpDesc, ghost e1: Exp)
      requires Valid() && Holds(d0, e) && !d0.k.VLocal?
      modifies this
      ensures r.Done? ==> Valid() && Holds(d, e1) && (Abs(), e1) == FlipKind(old(Abs()), e) && Moved(Own(e), Own(e1))
      ensures Small(FlipKind(old(Abs()), e).0) ==> r.Done?
      ensures r.Done? <==> FlipFits(old(Abs()), e)
    {
      hide AllJumps, OffsetsFit, IsList, Erased, NoDup, Nodes, Kept, Discharge2AnyReg, InvertJump, Emit, ListsAt, EmitFits, Discharge2AnyRegFits;
      ghost var c0, p0, j0 := code, pend, jnodes;
      d, e1 := d0, e;
      MovedSame(code, pend, jnodes, e);
      r := Done;
      if d.k.VNil? || d.k.VFalse? {
        d, e1 := d.(k := VTrue), e1.(k := VTrue);
        PlainKind(code, pend, jnodes, d0, e, d, e1);
      } else if d.k.VK? || d.k.VKNum? || d.k.VTrue? {
        d, e1 := d.(k := VFalse), e1.(k := VFalse);
        PlainKind(code, pend, jnodes, d0, e, d, e1);
      } else if d.k.VJmp? {
        Invert(d, e1);
      } else {
        AnyRegKind(Abs(), e1);
        FlipSize(Abs(), e1);
        r, d, e1 := DischargeToAnyReg(d, e1);
        if r.Failed? {
          return;
        }
        ghost var c1, p1, j1, d2, e3 := code, pend, jnodes, d, e1;
        FreeReg(d, e1);
        r := Code(Not(0, d.k.reg));
        if r.Failed? {
          return;
        }
        d, e1 := d.(k := VReloc(|code| - 1)), e1.(k := VReloc(|code| - 1));
        EmptyRight(j1);
        NewKind(c1, p1, j1, code, pend, jnodes, d2, e3, d, e1) by { ListNoDup(code, jpc, jnodes); }
        MovedTwice(c0, p0, Own(e), j0, c1, p1, Own(e3), j1, code, pend, Own(e1), jnodes);
      }
    }

    /** `codenot`. */
    method Negate(d0: ExpDesc, ghost e: Exp) returns (r: Outcome, d: ExpDesc, ghost e1: Exp)
      requires Valid() && Holds(d0, e)
      modifies this
      ensures r.Done? ==> Valid() && Holds(d, e1) && (Abs(), e1) == CodeNot(old(Abs()), e) && Moved(Own(e), Own(e1))
      ensures Small(CodeNot(old(Abs()), e).0) ==> r.Done?
      ensures r.Done? <==> FlipFits(old(Abs()), DischargeVars(e))
    {
      hide AllJumps, OffsetsFit, IsList, Erased, NoDup, Nodes, Kept, FlipKind, DropValues, ListsAt, Fits, FlipFits;
      ghost var c0, p0, j0 := code, pend, jnodes;
      d, e1 := Vars(d0), DischargeVars(e);
      VarsHold(code, pend, jnodes, d0, e);
      NotSize(Abs(), e);
      r, d, e1 := Flip(d, e1);
      if r.Failed? {
        return;
      }
      ghost var c3, e4, d4 := code, e1, d;
      d, e1 := ExpDesc(d.k, d.f, d.t), Exp(e1.k, e1.f, e1.t);
      DropOne(c3, pend, jpc, jnodes, d4, e4, e1.f);
      OwnParts(c3, pend, jnodes, d4, e4);
      RemoveValuesOf(d.f, e1.f);
      ghost var c4 := code;
      DropOne(c4, pend, jpc, jnodes, d4, e4, e1.t);
      OwnParts(c4, pend, jnodes, d4, e4);
      RemoveValuesOf(d.t, e1.t);
      SwapHolds(code, pend, jnodes, d4, e4, d, e1);
      SwapKept(c0, p0, Own(e) + j0, c3, c4, code, pend, jnodes, e4, e1);
    }

    /** The end of `codecomp`. */
    method CodeTest(op: Rel, r1: RK, r2: RK) returns (r: Outcome, d: ExpDesc, ghost e: Exp)
      requires Valid()
      modifies this
      ensures r.Done? ==> |code| >= 1 && e == Exp(VJmp(|code| - 1), [], []) && jnodes == []
      ensures r.Done? ==> Valid() && Holds(d, e) && Moved([], [e.k.pc])
      ensures r.Done? ==> Abs() == CondJump(old(Abs()), Comparison(op, r1, r2)).0
      ensures |old(code)| + 2 < MAXARG_sBx ==> r.Done?
      ensures r.Done? <==> EmitFits(old(Abs()))
    {
      hide AllJumps, OffsetsFit, IsList, Erased, NoDup, Nodes, Kept, CondJump, EmitFits;
      d, e := ExpDesc(VNil, NO_JUMP, NO_JUMP), Exp(VNil, [], []);
      var o1, o2, cond := r1, r2, RelCond(op);
      if !cond && RelOp(op) != OpEq {
        o1, o2, cond := o2, o1, true;
      }
      var j;
      ghost var nodes;
      r, j, nodes := CondJumpTo(Cmp(RelOp(op), cond, o1, o2));
      if r.Done? {
        d, e := ExpDesc(VJmp(|code| - 1), NO_JUMP, NO_JUMP), Exp(VJmp(|code| - 1), [], []);
        InPend(nodes, pend);
        CompHolds(code, pend, jnodes, d, e);
      }
    }

    /** `codecomp`, for a first operand that is in place. */
    method Compare(op: Rel, d1: ExpDesc, ghost e1: Exp, ghost o: RK, d2: ExpDesc, ghost e2: Exp) returns (r: Outcome, d: ExpDesc, ghost e: Exp)
      requires Valid() && Holds(d1, e1) && IsOperand(e1, o) && Holds(d2, e2)
      modifies this
      ensures r.Done? ==> Valid() && Holds(d, e) && (Abs(), e) == CodeComp(old(Abs()), op, e1, e2) && Moved(Own(e2), Own(e))
      ensures Small(CodeComp(old(Abs()), op, e1, e2).0) ==> r.Done?
      ensures r.Done? <==> CodeCompFits(old(Abs()), op, e1, e2)
    {
      hide AllJumps, OffsetsFit, IsList, Erased, NoDup, Nodes, Kept, Exp2RK, CondJump, FreeExp, Emit, Small, EmitFits, Exp2RKFits;
      ghost var c0, p0, j0, fs0 := code, pend, jnodes, Abs();
      var f1, o1, f2, o2;
      ghost var g1, g2;
      d, e := d2, e2;
      OperandStays(fs0, e1, o);
      CompSize(fs0, op, e1, e2);
      r, f1, g1, o1 := ExpToRK(d1, e1);
      if r.Failed? {
        return;
      }
      StillHolds(c0, p0, jpc, j0, code, pend, jnodes, d2, e2, e1, g1) by { ListNoDup(code, jpc, jnodes); }
      ghost var c1, p1, j1 := code, pend, jnodes;
      r, f2, g2, o2 := ExpToRK(d2, e2);
      if r.Failed? {
        return;
      }
      FreeReg(f2, g2);
      FreeReg(f1, g1);
      ghost var c2, p2, j2 := code, pend, jnodes;
      r, d, e := CodeTest(op, o1, o2);
      if r.Done? {
        CompKept(c0, p0, j0, e1, g1, e2, g2, c1, p1, j1, c2, p2, j2, code, pend, jnodes, e);
      }
    }

    /** What the parser has the generator do for an expression. */
    method CompileExpr(x: Expr) returns (r: Outcome, d: ExpDesc, ghost e: Exp)
      requires Valid()
      modifies this
      ensures r.Done? ==> Valid() && Holds(d, e) && (Abs(), e) == Compile(old(Abs()), x) && Moved([], Own(e))
      ensures Small(Compile(old(Abs()), x).0) ==> r.Done?
      ensures r.Done? <==> CompileFits(old(Abs()), x)
      decreases x, 1
    {
      hide AllJumps, OffsetsFit, IsList, Erased, NoDup, Nodes, Kept, GoIfTrue, GoIfFalse, CodeNot, CodeComp, Exp2RK, AddK, GoIfTrueFits, GoIfFalseFits, FlipFits, CodeCompFits, Exp2RKFits, ConcatFits;
      ghost var c0, p0, j0 := code, pend, jnodes;
      d, e := ExpDesc(VNil, NO_JUMP, NO_JUMP), Exp(VNil, [], []);
      r := Done;
      match x {
        case ENil =>
        case ETrue => d, e := d.(k := VTrue), e.(k := VTrue);
        case EFalse => d, e := d.(k := VFalse), e.(k := VFalse);
        case ENum(n) => d, e := d.(k := VKNum(n)), e.(k := VKNum(n));
        case EStr(s) =>
          var i := AddConstant(Str(s));
          d, e := d.(k := VK(i)), e.(k := VK(i));
        case ELocal(reg) => d, e := d.(k := VLocal(reg)), e.(k := VLocal(reg));
        case ENot(y) =>
          MonoNot(Compile(Abs(), y).0, Compile(Abs(), y).1);
          r, d, e := CompileExpr(y);
          if r.Failed? {
            return;
          }
          ghost var c1, p1, j1, e1 := code, pend, jnodes, e;
          r, d, e := Negate(d, e);
          if r.Done? {
            MovedTwice(c0, p0, [], j0, c1, p1, Own(e1), j1, code, pend, Own(e), jnodes);
          }
          return;
        case EAnd(l, y) => r, d, e := CompileAnd(l, y); return;
        case EOr(l, y) => r, d, e := CompileOr(l, y); return;
        case ERel(op, l, y) => r, d, e := CompileRel(op, l, y); return;
      }
      NoLists(code, pend, jpc, jnodes, d, e);
      LeafKept(code, pend, jnodes, e);
    }

    method CompileAnd(l: Expr, y: Expr) returns (r: Outcome, d: ExpDesc, ghost e: Exp)
      requires Valid()
      modifies this
      ensures r.Done? ==> Valid() && Holds(d, e) && (Abs(), e) == Compile(old(Abs()), EAnd(l, y)) && Moved([], Own(e))
      ensures Small(Compile(old(Abs()), EAnd(l, y)).0) ==> r.Done?
      ensures r.Done? <==> CompileFits(old(Abs()), EAnd(l, y))
      decreases EAnd(l, y), 0
    {
      hide AllJumps, OffsetsFit, IsList, Erased, NoDup, Nodes, Kept, GoIfTrue, ListsAt, Compile, Fits, DischargeVars;
      ghost var c0, p0, j0 := code, pend, jnodes;
      AndDef(Abs(), l, y);
      r, d, e := CompileExpr(l);
      if r.Failed? {
        return;
      }
      ghost var c1, p1, j1, e1 := code, pend, jnodes, e;
      r, d, e := GoTrue(d, e);
      if r.Failed? {
        return;
      }
      ghost var c2, p2, j2, nodes := code, pend, jnodes, e.f;
      var list := d.f;
      r, d, e := CompileExpr(y);
      if r.Failed? {
        return;
      }
      ghost var c3, p3, j3, d3, e3 := code, pend, jnodes, d, e;
      d, e := Vars(d), DischargeVars(e);
      VarsHold(code, pend, jnodes, d3, e3);
      VarsKeepLists(e3);
      HeldList(c2, p2, j2, c3, p3, j3, d, e, list, nodes);
      var f;
      r, f := Concat(d.f, list, e.f, nodes);
      if r.Done? {
        d, e := d.(f := f), e.(f := e.f + nodes);
        AndHolds(c3, code, pend, jpc, jnodes, d, e, DischargeVars(e3), Vars(d3), nodes) by { ListNoDup(c3, list, nodes); }
        LogicKept(c0, p0, j0, c1, p1, j1, e1, c2, p2, j2, nodes, c3, p3, j3, e3, code, e, e3.f) by { AllInside(c3, p3); FInOwn(e3); }
      }
    }

    method CompileOr(l: Expr, y: Expr) returns (r: Outcome, d: ExpDesc, ghost e: Exp)
      requires Valid()
      modifies this
      ensures r.Done? ==> Valid() && Holds(d, e) && (Abs(), e) == Compile(old(Abs()), EOr(l, y)) && Moved([], Own(e))
      ensures Small(Compile(old(Abs()), EOr(l, y)).0) ==> r.Done?
      ensures r.Done? <==> CompileFits(old(Abs()), EOr(l, y))
      decreases EOr(l, y), 0
    {
      hide AllJumps, OffsetsFit, IsList, Erased, NoDup, Nodes, Kept, GoIfFalse, ListsAt, Compile, Fits, DischargeVars;
      ghost var c0, p0, j0 := code, pend, jnodes;
      OrDef(Abs(), l, y);
      r, d, e := CompileExpr(l);
      if r.Failed? {
        return;
      }
      ghost var c1, p1, j1, e1 := code, pend, jnodes, e;
      r, d, e := GoFalse(d, e);
      if r.Failed? {
        return;
      }
      ghost var c2, p2, j2, nodes := code, pend, jnodes, e.t;
      var list := d.t;
      r, d, e := CompileExpr(y);
      if r.Failed? {
        return;
      }
      ghost var c3, p3, j3, d3, e3 := code, pend, jnodes, d, e;
      d, e := Vars(d), DischargeVars(e);
      VarsHold(code, pend, jnodes, d3, e3);
      VarsKeepLists(e3);
      HeldList(c2, p2, j2, c3, p3, j3, d, e, list, nodes);
      var t;
      r, t := Concat(d.t, list, e.t, nodes);
      if r.Done? {
        d, e := d.(t := t), e.(t := e.t + nodes);
        OrHolds(c3, code, pend, jpc, jnodes, d, e, DischargeVars(e3), Vars(d3), nodes) by { ListNoDup(c3, list, nodes); }
        LogicKept(c0, p0, j0, c1, p1, j1, e1, c2, p2, j2, nodes, c3, p3, j3, e3, code, e, e3.t) by { AllInside(c3, p3); FInOwn(e3); }
      }
    }

    method CompileRel(op: Rel, l: Expr, y: Expr) returns (r: Outcome, d: ExpDesc, ghost e: Exp)
      requires Valid()
      modifies this
      ensures r.Done? ==> Valid() && Holds(d, e) && (Abs(), e) == Compile(old(Abs()), ERel(op, l, y)) && Moved([], Own(e))
      ensures Small(Compile(old(Abs()), ERel(op, l, y)).0) ==> r.Done?
      ensures r.Done? <==> CompileFits(old(Abs()), ERel(op, l, y))
      decreases ERel(op, l, y), 0
    {
      hide AllJumps, OffsetsFit, IsList, Erased, NoDup, Nodes, Kept, Exp2RK, CodeComp, Compile, ListsAt;
      ghost var c0, p0, j0 := code, pend, jnodes;
      RelDef(Abs(), op, l, y);
      r, d, e := CompileExpr(l);
      if r.Failed? {
        return;
      }
      ghost var c1, p1, j1, e1 := code, pend, jnodes, e;
      var d1, o1;
      ghost var g1;
      r, d1, g1, o1 := ExpToRK(d, e);
      if r.Failed? {
        return;
      }
      ghost var c2, p2, j2 := code, pend, jnodes;
      r, d, e := CompileExpr(y);
      if r.Failed? {
        return;
      }
      ghost var c3, p3, j3, e3 := code, pend, jnodes, e;
      NoNodes(g1, o1);
      OperandHolds(c2, p2, j2, c3, p3, jpc, j3, d1, g1, o1);
      r, d, e := Compare(op, d1, g1, o1, d, e);
      if r.Done? {
        MovedTwice(c0, p0, [], j0, c1, p1, Own(e1), j1, c2, p2, Own(g1), j2);
        MovedTwice(c0, p0, [], j0, c2, p2, [], j2, c3, p3, Own(e3), j3);
        MovedTwice(c0, p0, [], j0, c3, p3, Own(e3), j3, code, pend, Own(e), jnodes);
      }
    }
  }

  lemma NoList(code: seq<Instr>)
    ensures IsList(code, NO_JUMP, []) && Nodes([]) == {}
  {
  }

  lemma PatchNothing(c: seq<Instr>, head: int, nodes: seq<nat>, vt: int, reg: nat, dt: int)
    requires IsList(c, head, nodes)
    ensures c == PatchList(c, nodes[..0], vt, reg, dt) && head == After(nodes, 0)
  {
  }

  lemma DropNothing(c: seq<Instr>, head: int, nodes: seq<nat>)
    requires IsList(c, head, nodes)
    ensures c == DropValues(c, nodes[..0]) && head == After(nodes, 0)
  {
  }

  lemma NotBefore(nodes: seq<nat>, n: nat)
    requires NoDup(nodes) && n < |nodes|
    ensures nodes[n] !in nodes[..n] && nodes[..n + 1] == nodes[..n] + [nodes[n]]
  {
  }

  lemma ListJumps(c: seq<Instr>, head: int, nodes: seq<nat>, n: nat)
    requires IsList(c, head, nodes) && n <= |nodes|
    ensures forall j :: j in nodes[..n] ==> j < |c| && c[j].Jmp?
  {
  }

  lemma NothingFits(c: seq<Instr>, vt: int, dt: int)
    ensures PatchFits(c, [], vt, dt)
  {
  }

  lemma MoreFits(c: seq<Instr>, nodes: seq<nat>, n: nat, vt: int, dt: int)
    requires n < |nodes| && PatchFits(c, nodes[..n], vt, dt)
    ensures PatchFits(c, nodes[..n + 1], vt, dt) <==> OffsetFits(nodes[n], if nodes[n] < |c| && HasValue(c, nodes[n]) then vt else dt)
    ensures PatchFits(c, nodes, vt, dt) ==> PatchFits(c, nodes[..n + 1], vt, dt)
  {
    assert forall k :: 0 <= k < n ==> nodes[..n][k] == nodes[..n + 1][k];
    assert nodes[..n + 1][n] == nodes[n];
    forall k | 0 <= k < n + 1
      ensures nodes[..n + 1][k] == nodes[k]
    {
    }
  }

  /** The next node is still as it was. */
  lemma PatchedNode(c: seq<Instr>, head: int, nodes: seq<nat>, n: nat, vt: int, reg: nat, dt: int)
    requires IsList(c, head, nodes) && n < |nodes|
    ensures var code, j := PatchList(c, nodes[..n], vt, reg, dt), nodes[n];
      && j < |c| && code[j] == c[j] && c[j].Jmp? && (HasValue(code, j) <==> HasValue(c, j)) && (HasValue(c, j) ==> code[j - 1] == c[j - 1])
      && Link(code, j) == After(nodes, n + 1)
  {
    NotBefore(nodes, n);
    ListJumps(c, head, nodes, n);
    PatchOther(c, nodes[..n], vt, reg, dt, nodes[n]);
  }

  lemma PatchOther(c: seq<Instr>, list: seq<nat>, vt: int, reg: nat, dt: int, j: nat)
    requires j < |c| && j !in list && c[j].Jmp? && forall i :: i in list ==> i < |c| && c[i].Jmp?
    ensures var code := PatchList(c, list, vt, reg, dt);
      code[j] == c[j] && (HasValue(code, j) <==> HasValue(c, j)) && (HasValue(c, j) ==> code[j - 1] == c[j - 1])
  {
    if j > 0 && j - 1 in list {
      assert c[j - 1].Jmp?;
    }
  }

  lemma PatchedNext(c: seq<Instr>, head: int, nodes: seq<nat>, n: nat, vt: int, reg: nat, dt: int, r: seq<Instr>)
    requires IsList(c, head, nodes) && n < |nodes|
    requires var code, j := PatchList(c, nodes[..n], vt, reg, dt), nodes[n];
      var code1 := if HasValue(code, j) then code[j - 1 := Retarget(code[j - 1], reg)] else code;
      r == code1[j := Jmp((if HasValue(code, j) then vt else dt) - (j + 1))]
    ensures r == PatchList(c, nodes[..n + 1], vt, reg, dt)
  {
    hide IsList, NoDup, Retarget;
    PatchedNode(c, head, nodes, n, vt, reg, dt);
    ListFacts(c, head, nodes, n);
    ListJumps(c, head, nodes, n);
    PatchMore(c, nodes[..n], nodes[n], vt, reg, dt, r);
  }

  lemma ListFacts(c: seq<Instr>, head: int, nodes: seq<nat>, n: nat)
    requires IsList(c, head, nodes) && n < |nodes|
    ensures nodes[n] !in nodes[..n] && nodes[..n + 1] == nodes[..n] + [nodes[n]]
  {
    NotBefore(nodes, n);
  }

  lemma PatchMore(c: seq<Instr>, list: seq<nat>, j: nat, vt: int, reg: nat, dt: int, r: seq<Instr>)
    requires j < |c| && j !in list && c[j].Jmp? && forall i :: i in list ==> i < |c| && c[i].Jmp?
    requires var code := PatchList(c, list, vt, reg, dt);
      var code1 := if HasValue(code, j) then code[j - 1 := Retarget(code[j - 1], reg)] else code;
      r == code1[j := Jmp((if HasValue(code, j) then vt else dt) - (j + 1))]
    ensures r == PatchList(c, list + [j], vt, reg, dt)
  {
    PatchOther(c, list, vt, reg, dt, j);
    var s := list + [j];
    forall i | 0 <= i < |c|
      ensures r[i] == PatchList(c, s, vt, reg, dt)[i]
    {
      assert i in s <==> i in list || i == j;
      assert i + 1 in s <==> i + 1 in list || i + 1 == j;
    }
  }

  lemma DroppedNode(c: seq<Instr>, head: int, nodes: seq<nat>, n: nat)
    requires IsList(c, head, nodes) && n < |nodes|
    ensures var code, j := DropValues(c, nodes[..n]), nodes[n];
      j < |c| && code[j] == c[j] && c[j].Jmp? && (HasValue(code, j) <==> HasValue(c, j)) && (HasValue(c, j) ==> code[j - 1] == c[j - 1])
  {
    NotBefore(nodes, n);
  }

  lemma DroppedNext(c: seq<Instr>, head: int, nodes: seq<nat>, n: nat, r: seq<Instr>)
    requires IsList(c, head, nodes) && n < |nodes|
    requires var code, j := DropValues(c, nodes[..n]), nodes[n];
      r == if HasValue(code, j) then code[j - 1 := Retarget(code[j - 1], NO_REG)] else code
    ensures r == DropValues(c, nodes[..n + 1]) && nodes[n] < |r| && r[nodes[n]].Jmp? && Link(r, nodes[n]) == After(nodes, n + 1)
  {
    DroppedNode(c, head, nodes, n);
    NotBefore(nodes, n);
    DropMore(c, nodes[..n], nodes[n], r);
  }

  lemma DropMore(c: seq<Instr>, list: seq<nat>, j: nat, r: seq<Instr>)
    requires j < |c| && j !in list && c[j].Jmp?
    requires var code := DropValues(c, list);
      && (HasValue(code, j) <==> HasValue(c, j)) && (HasValue(c, j) ==> code[j - 1] == c[j - 1])
      && r == if HasValue(code, j) then code[j - 1 := Retarget(code[j - 1], NO_REG)] else code
    ensures r == DropValues(c, list + [j]) && r[j] == c[j]
  {
    var s := list + [j];
    forall i | 0 <= i < |c|
      ensures r[i] == DropValues(c, s)[i]
    {
      assert i + 1 in s <==> i + 1 in list || i + 1 == j;
    }
  }

  /** The new jump in front of the jumps to here. */
  lemma JumpAppended(c0: seq<Instr>, p0: set<nat>, head: int, nodes: seq<nat>, c1: seq<Instr>, p1: set<nat>)
    requires AllJumps(c0, p0) && IsList(c0, head, nodes) && Nodes(nodes) <= p0
    requires c1 == c0 + [Jmp(NO_JUMP)] && p1 == p0 + {|c0|}
    ensures AllJumps(c1, p1) && IsList(c1, head, nodes) && IsList(c1, |c0|, [|c0|]) && |c0| !in nodes
    ensures Erased(c1, p1) == Erased(c0, p0) + [Jmp(NO_JUMP)]
  {
    assert forall j :: j in nodes ==> j in Nodes(nodes);
    EraseAppend(c0, p0, Jmp(NO_JUMP));
    ListKept(c0, c1, head, nodes);
  }

  /** Linking lists changes nothing but links. */
  lemma ConcatErased(c0: seq<Instr>, c1: seq<Instr>, p: set<nat>, n1: seq<nat>)
    requires AllJumps(c0, p) && Nodes(n1) <= p && |c1| == |c0|
    requires forall i :: 0 <= i < |c1| && i !in n1 ==> c1[i] == c0[i]
    requires forall i :: 0 <= i < |c1| && i in n1 ==> c1[i].Jmp?
    ensures Erased(c1, p) == Erased(c0, p) && AllJumps(c1, p)
  {
    assert forall i :: i in n1 ==> i in Nodes(n1);
  }

  lemma EmptyTail(n: nat)
    ensures [n] + [] == [n]
  {
  }

  lemma AllInside(code: seq<Instr>, pend: set<nat>)
    requires AllJumps(code, pend)
    ensures forall j :: j in pend ==> j < |code| && code[j].Jmp?
  {
  }

  lemma InPend(list: seq<nat>, pend: set<nat>)
    requires Nodes(list) <= pend
    ensures forall j :: j in list ==> j in pend
  {
    assert forall j :: j in list ==> j in Nodes(list);
  }

  lemma NodesConcat(a: seq<nat>, b: seq<nat>)
    ensures Nodes(a + b) == Nodes(a) + Nodes(b)
  {
    assert forall j :: j in a + b <==> j in a || j in b;
  }

  lemma ListDisjoint(a: seq<nat>, b: seq<nat>)
    requires NoDup(b + a)
    ensures NoDup(a) && NoDup(b) && (forall j :: j in a ==> j !in b) && NoDup(a + b)
  {
    var s := b + a;
    assert forall i :: 0 <= i < |b| ==> s[i] == b[i];
    assert forall i :: 0 <= i < |a| ==> s[|b| + i] == a[i];
    NoDupAppend(a, b);
  }

  /** A LOADNIL extended in place. */
  lemma Joined(c0: seq<Instr>, p: set<nat>, fs: Fs, from: nat, c1: seq<Instr>, head: int, nodes: seq<nat>)
    requires AllJumps(c0, p) && fs.code == Erased(c0, p) && |c0| > fs.lasttarget && |c0| > 0 && c0[|c0| - 1].LoadNil?
    requires var i := c0[|c0| - 1]; var last := i.a + i.n;
      && ((i.a <= from <= last + 1) || (from <= i.a <= from + 1))
      && var a, l := if i.a < from then i.a else from, if last > from then last else from;
         c1 == c0[|c0| - 1 := LoadNil(a, l - a)]
    requires IsList(c0, head, nodes) && Nodes(nodes) <= p
    ensures AllJumps(c1, p) && EmitNil(fs, from) == fs.(code := Erased(c1, p)) && IsList(c1, head, nodes) && NilJoins(fs, from)
    ensures forall j :: j in p ==> j < |c0| && j < |c1| && c1[j] == c0[j]
  {
    var n := |c0| - 1;
    assert n !in p by { AllInside(c0, p); }
    assert fs.code[n] == c0[n];
    assert NilJoins(fs, from);
    EraseUpdate(c0, p, n, c1[n]);
    assert c1 == c0[n := c1[n]];
    assert EmitNil(fs, from) == fs.(code := fs.code[n := c1[n]]);
    hide EmitNil, NilJoins;
    InPend(nodes, p);
    ListKept(c0, c1, head, nodes);
  }

  lemma EraseUpdate(c: seq<Instr>, p: set<nat>, i: nat, x: Instr)
    requires AllJumps(c, p) && i < |c| && i !in p
    ensures Erased(c[i := x], p) == Erased(c, p)[i := x] && AllJumps(c[i := x], p)
    ensures forall j :: j in p ==> c[i := x][j] == c[j]
  {
  }

  lemma NotJoined(code: seq<Instr>, pend: set<nat>, fs: Fs, from: nat)
    requires AllJumps(code, pend) && fs.code == Erased(code, pend)
    requires !(|code| > fs.lasttarget && |code| > 0 && code[|code| - 1].LoadNil? &&
               var i := code[|code| - 1]; var last := i.a + i.n; (i.a <= from <= last + 1) || (from <= i.a <= from + 1))
    ensures EmitNil(fs, from) == Emit(fs, LoadNil(from, 0)) && !NilJoins(fs, from)
  {
  }

  lemma EmptyRight(j: seq<nat>)
    ensures [] + j == j && j + [] == j
  {
  }

  lemma NothingMoved(c: seq<Instr>, p: set<nat>, j: seq<nat>)
    requires AllJumps(c, p)
    ensures Kept(c, p, [] + j, c, p, [] + j)
  {
  }

  lemma JustMoved(c0: seq<Instr>, p: set<nat>, j: seq<nat>, c1: seq<Instr>)
    requires AllJumps(c0, p) && |c1| == |c0| && forall i :: i in p ==> c1[i] == c0[i]
    ensures Kept(c0, p, [] + j, c1, p, [] + j)
  {
  }

  lemma MovedSame(c: seq<Instr>, p: set<nat>, j: seq<nat>, e: Exp)
    requires AllJumps(c, p)
    ensures Kept(c, p, Own(e) + j, c, p, Own(e) + j)
  {
  }

  lemma RelocateKeeps(c: seq<Instr>, p: set<nat>, pc: nat, reg: nat)
    requires AllJumps(c, p) && pc < |c| && c[pc].Not?
    ensures var c1 := c[pc := Not(reg, c[pc].b)];
      && AllJumps(c1, p) && (forall j :: j in p ==> c1[j] == c[j]) && Erased(c1, p) == Erased(c, p)[pc := Not(reg, c[pc].b)]
      && Erased(c, p)[pc] == c[pc]
  {
    AllInside(c, p);
    EraseUpdate(c, p, pc, Not(reg, c[pc].b));
  }

  lemma ListNoDup(code: seq<Instr>, head: int, nodes: seq<nat>)
    requires IsList(code, head, nodes)
    ensures NoDup(nodes)
  {
  }

  /** Code was emitted and the kind of the descriptor changed; its lists are as before. */
  lemma NewKind(c0: seq<Instr>, p0: set<nat>, j0: seq<nat>, c1: seq<Instr>, p1: set<nat>, j1: seq<nat>, d0: ExpDesc, e0: Exp, d: ExpDesc, e: Exp)
    requires ListsAt(c0, p0, j0, d0, e0) && Kept(c0, p0, [] + j0, c1, p1, [] + j1) && NoDup(j1)
    requires !e0.k.VJmp? && !e.k.VJmp? && e == e0.(k := e.k) && d.t == d0.t && d.f == d0.f
    ensures ListsAt(c1, p1, j1, d, e) && Kept(c0, p0, Own(e0) + j0, c1, p1, Own(e) + j1)
  {
    var own := e0.t + e0.f;
    assert Own(e0) == own && Own(e) == own;
    assert [] + j0 == j0 && [] + j1 == j1;
    OwnApart(own, j0);
    InPend(own, p0);
    KeptList(c0, p0, j0, c1, p1, j1, d.t, e.t);
    KeptList(c0, p0, j0, c1, p1, j1, d.f, e.f);
    NoDupAppend(own, j1);
  }

  lemma OwnApart(own: seq<nat>, j: seq<nat>)
    requires NoDup(own + j)
    ensures NoDup(own) && forall i :: i in own ==> i !in j
  {
    ListDisjoint(j, own);
  }

  /** A fresh list is kept while code is emitted twice. */
  lemma FreshKept(c1: seq<Instr>, p1: set<nat>, j1: seq<nat>, c2: seq<Instr>, p2: set<nat>, c3: seq<Instr>, p3: set<nat>, head: int, nodes: seq<nat>)
    requires Kept(c1, p1, j1, c2, p2, []) && Kept(c2, p2, [], c3, p3, [])
    requires IsList(c1, head, nodes) && Nodes(nodes) <= p1 && forall j :: j in nodes ==> j !in j1
    ensures IsList(c3, head, nodes) && Nodes(nodes) <= p3 && NoDup(nodes + [])
  {
    InPend(nodes, p1);
    KeptList(c1, p1, j1, c2, p2, [], head, nodes);
    KeptList(c2, p2, [], c3, p3, [], head, nodes);
    assert nodes + [] == nodes;
  }

  /** A new jump and the jumps to here now make a list. */
  lemma JumpKept(c0: seq<Instr>, p0: set<nat>, j0: seq<nat>, c1: seq<Instr>, p1: set<nat>)
    requires AllJumps(c0, p0) && Nodes(j0) <= p0 && |c1| == |c0| + 1 && p1 == p0 + {|c0|}
    requires forall i :: 0 <= i < |c0| && i !in j0 ==> c1[i] == c0[i]
    ensures Kept(c0, p0, j0, c1, p1, [|c0|] + j0 + [])
  {
    AllInside(c0, p0);
    InPend(j0, p0);
  }

  lemma NothingKept(c: seq<Instr>, p: set<nat>, j: seq<nat>)
    requires AllJumps(c, p)
    ensures Kept(c, p, j, c, p, [] + j)
  {
  }

  lemma BooleansKept(c0: seq<Instr>, p0: set<nat>, j0: seq<nat>, c1: seq<Instr>, p1: set<nat>, j1: seq<nat>, c2: seq<Instr>, p2: set<nat>,
    c3: seq<Instr>, p3: set<nat>, c4: seq<Instr>, nodes: seq<nat>)
    requires Kept(c0, p0, j0, c1, p1, nodes + j1)
    requires Kept(c1, p1, j1, c2, p2, []) && Kept(c2, p2, [], c3, p3, [])
    requires |c4| == |c3| && forall i :: 0 <= i < |c4| ==> c4[i] == c3[i]
    ensures Kept(c0, p0, j0, c4, p3, [] + nodes)
  {
  }

  /** Two lists have different heads unless both are empty. */
  lemma HeadsDiffer(code: seq<Instr>, t: int, nt: seq<nat>, f: int, nf: seq<nat>, j: seq<nat>, pend: set<nat>)
    requires IsList(code, t, nt) && IsList(code, f, nf) && NoDup(nt + nf + j) && Nodes(nt + nf) <= pend
    ensures t == f <==> nt == [] && nf == []
    ensures Nodes(nt) <= pend && Nodes(nf) <= pend
  {
    ListDisjoint(j, nt + nf);
    ListDisjoint(nf, nt);
    NodesConcat(nt, nf);
    assert nt != [] ==> nt[0] in nt;
    assert nf != [] ==> nf[0] in nf;
  }

  lemma KeptNothing(c: seq<Instr>, p: set<nat>, j: seq<nat>)
    requires AllJumps(c, p)
    ensures Kept(c, p, j, c, p, j)
  {
  }

  lemma KeptMore(c: seq<Instr>, p: set<nat>, own: seq<nat>, j: seq<nat>)
    requires AllJumps(c, p) && own == []
    ensures Kept(c, p, own + j, c, p, j)
  {
    assert own + j == j;
  }

  lemma BothKept(c0: seq<Instr>, p0: set<nat>, j0: seq<nat>, c1: seq<Instr>, p1: set<nat>, j1: seq<nat>, t: int, nt: seq<nat>, f: int, nf: seq<nat>)
    requires Kept(c0, p0, j0, c1, p1, j1) && IsList(c0, t, nt) && IsList(c0, f, nf)
    requires Nodes(nt + nf) <= p0 && NoDup(nt + nf + j0) && NoDup(j1)
    ensures IsList(c1, t, nt) && IsList(c1, f, nf) && Nodes(nt) <= p1 && Nodes(nf) <= p1
    ensures NoDup(nt + j1) && NoDup(nf + j1) && forall j :: j in nt ==> j !in nf
  {
    OwnApart(nt + nf, j0);
    ListDisjoint(nf, nt);
    InPend(nt + nf, p0);
    KeptList(c0, p0, j0, c1, p1, j1, t, nt);
    KeptList(c0, p0, j0, c1, p1, j1, f, nf);
    NoDupAppend(nt, j1);
    NoDupAppend(nf, j1);
  }

  lemma StillList(c1: seq<Instr>, p1: set<nat>, c2: seq<Instr>, p2: set<nat>, t: int, nt: seq<nat>, nf: seq<nat>, j1: seq<nat>)
    requires IsList(c1, t, nt) && Nodes(nt) <= p1 && p2 == p1 - Nodes(nf) && (forall j :: j in nt ==> j !in nf)
    requires forall j :: j in p2 ==> j < |c2| && j < |c1| && c2[j] == c1[j]
    ensures IsList(c2, t, nt) && Nodes(nt) <= p2
  {
    InPend(nt, p1);
    assert forall j :: j in nt ==> j in p2;
    ListKept(c1, c2, t, nt);
  }

  lemma JoinedKept(c0: seq<Instr>, p0: set<nat>, j0: seq<nat>, c1: seq<Instr>, p1: set<nat>, j1: seq<nat>,
    c2: seq<Instr>, p2: set<nat>, c3: seq<Instr>, p3: set<nat>, nt: seq<nat>, nf: seq<nat>)
    requires Kept(c0, p0, j0, c1, p1, j1) && p2 == p1 - Nodes(nf) && p3 == p2 - Nodes(nt)
    requires forall j :: j in p2 ==> j < |c2| && j < |c1| && c2[j] == c1[j]
    requires forall j :: j in p3 ==> j < |c3| && j < |c2| && c3[j] == c2[j]
    ensures Kept(c0, p0, nt + nf + j0, c3, p3, j1)
  {
    forall j | j in p0 && j !in nt + nf + j0
      ensures j in p3 && j !in j1 && j < |c0| && j < |c3| && c3[j] == c0[j]
    {
      assert j !in nt && j !in nf && j !in j0;
      assert j in p2 && j in p3;
    }
  }

  lemma OwnParts(c: seq<Instr>, p: set<nat>, j: seq<nat>, d: ExpDesc, e: Exp)
    requires ListsAt(c, p, j, d, e)
    ensures IsList(c, d.t, e.t) && IsList(c, d.f, e.f)
    ensures !e.k.VJmp? ==> Own(e) == e.t + e.f
    ensures !e.k.VJmp? ==> Nodes(e.t + e.f) <= p && NoDup(e.t + e.f + j)
  {
    if !e.k.VJmp? {
      assert Own(e) == e.t + e.f;
    }
  }

  /** The jump of a comparison is a list of its own. */
  lemma JmpAlone(c: seq<Instr>, p: set<nat>, j: seq<nat>, d: ExpDesc, e: Exp)
    requires ListsAt(c, p, j, d, e) && e.k.VJmp? && Fits(c, e)
    ensures IsList(c, e.k.pc, [e.k.pc]) && e.k.pc !in e.t && e.k.pc !in e.f && e.k.pc !in j && e.k.pc in p
    ensures NoDup(e.t + [e.k.pc] + e.f + j) && Nodes(e.t + [e.k.pc] + e.f) <= p
    ensures forall i :: i in e.t ==> i !in [e.k.pc]
  {
    var own, pc := Own(e), e.k.pc;
    assert own == e.t + e.f + [pc];
    OwnApart(own, j);
    ListDisjoint([pc], e.t + e.f);
    ListDisjoint(e.f, e.t);
    assert pc in [pc] && pc in own;
    InPend(own, p);
    NoDupAppend(e.t, [pc]);
    NoDupAppend(e.t + [pc], e.f);
    assert NoDup(j) by { ListDisjoint(j, own); }
    assert forall i :: i in e.t + [pc] + e.f <==> i in own;
    NoDupAppend(e.t + [pc] + e.f, j);
  }

  /** The jump of a comparison was put at the end of its true list. */
  lemma JmpLinked(c0: seq<Instr>, c1: seq<Instr>, p: set<nat>, jpc: int, j: seq<nat>, d: ExpDesc, e: Exp)
    requires AllJumps(c0, p) && ListsAt(c0, p, j, d, e) && e.k.VJmp? && Fits(c0, e) && IsList(c0, jpc, j) && Nodes(j) <= p
    requires |c1| == |c0| && (forall i :: 0 <= i < |c1| && i !in e.t ==> c1[i] == c0[i]) && (forall i :: 0 <= i < |c1| && i in e.t ==> c1[i].Jmp?)
    ensures AllJumps(c1, p) && IsList(c1, jpc, j) && Erased(c1, p) == Erased(c0, p)
    ensures IsList(c1, d.f, e.f)
    ensures NoDup(e.t + [e.k.pc] + e.f + j) && Nodes(e.t + [e.k.pc] + e.f) <= p
  {
    JmpAlone(c0, p, j, d, e);
    ListDisjoint(j, e.t + [e.k.pc] + e.f);
    ListDisjoint(e.f, e.t + [e.k.pc]);
    assert forall i :: i in e.t ==> i in e.t + [e.k.pc];
    assert forall i :: i in e.t ==> i in e.t + [e.k.pc] + e.f;
    ListKept(c0, c1, jpc, j);
    ListKept(c0, c1, d.f, e.f);
    InPend(e.t + [e.k.pc] + e.f, p);
    assert forall i :: i in Nodes(e.t) ==> i in e.t + [e.k.pc] + e.f;
    ConcatErased(c0, c1, p, e.t);
  }

  lemma RegKept(c0: seq<Instr>, p0: set<nat>, j0: seq<nat>, e: Exp, c1: seq<Instr>, p1: set<nat>, j1: seq<nat>, e1: Exp,
    c2: seq<Instr>, c3: seq<Instr>, p3: set<nat>, j3: seq<nat>, nt: seq<nat>)
    requires Kept(c0, p0, Own(e) + j0, c1, p1, Own(e1) + j1) && Kept(c2, p1, nt + e1.f + j1, c3, p3, j3)
    requires nt == if e1.k.VJmp? then e1.t + [e1.k.pc] else e1.t
    requires |c2| == |c1| && forall i :: 0 <= i < |c1| && i !in e1.t ==> c2[i] == c1[i]
    ensures Kept(c0, p0, Own(e) + j0, c3, p3, Own(Exp(VNonReloc(0), [], [])) + j3)
  {
    forall j | j in p0 && j !in Own(e) + j0
      ensures j in p3 && j !in j3 && j < |c0| && j < |c3| && c3[j] == c0[j]
    {
      assert j !in Own(e1) && j !in j1;
      assert j !in nt + e1.f + j1;
    }
  }

  lemma NoLists(c: seq<Instr>, p: set<nat>, jpc: int, j: seq<nat>, d: ExpDesc, e: Exp)
    requires IsList(c, jpc, j) && e.t == [] && e.f == [] && !e.k.VJmp? && d.t == NO_JUMP && d.f == NO_JUMP
    ensures ListsAt(c, p, j, d, e)
  {
    NoList(c);
    assert Own(e) == [] && [] + j == j;
  }

  lemma VarsHold(c: seq<Instr>, p: set<nat>, j: seq<nat>, d: ExpDesc, e: Exp)
    requires d.k == e.k && ListsAt(c, p, j, d, e) && Fits(c, e)
    ensures var d1, e1 := Vars(d), DischargeVars(e);
      d1.k == e1.k && ListsAt(c, p, j, d1, e1) && Fits(c, e1) && Own(e1) == Own(e) && !d1.k.VLocal?
  {
  }

  lemma HeadsEmpty(c: seq<Instr>, p: set<nat>, j: seq<nat>, d: ExpDesc, e: Exp)
    requires ListsAt(c, p, j, d, e)
    ensures d.t == d.f <==> !HasJumps(e)
    ensures (d.t == NO_JUMP <==> e.t == []) && (d.f == NO_JUMP <==> e.f == [])
  {
    OwnApart(Own(e), j);
    var tail := if e.k.VJmp? then [e.k.pc] else [];
    ListDisjoint(tail, e.t + e.f);
    ListDisjoint(e.f, e.t);
    assert e.t != [] ==> e.t[0] in e.t;
    assert e.f != [] ==> e.f[0] in e.f;
  }

  lemma ConstHolds(c: seq<Instr>, p: set<nat>, j: seq<nat>, d0: ExpDesc, e0: Exp, d: ExpDesc, e: Exp)
    requires ListsAt(c, p, j, d0, e0) && !e0.k.VJmp? && e.k.VK? && e == e0.(k := e.k) && d == d0.(k := e.k)
    ensures ListsAt(c, p, j, d, e) && Own(e) == Own(e0)
  {
  }

  lemma MovedTwice(c0: seq<Instr>, p0: set<nat>, o0: seq<nat>, j0: seq<nat>, c1: seq<Instr>, p1: set<nat>, o1: seq<nat>, j1: seq<nat>,
    c2: seq<Instr>, p2: set<nat>, o2: seq<nat>, j2: seq<nat>)
    requires Kept(c0, p0, o0 + j0, c1, p1, o1 + j1) && Kept(c1, p1, o1 + j1, c2, p2, o2 + j2)
    ensures Kept(c0, p0, o0 + j0, c2, p2, o2 + j2)
  {
    KeptTrans(c0, p0, o0 + j0, c1, p1, o1 + j1, c2, p2, o2 + j2);
  }

  lemma InvertKeeps(c: seq<Instr>, p: set<nat>, j: seq<nat>, jpc: int, d: ExpDesc, e: Exp)
    requires AllJumps(c, p) && IsList(c, jpc, j) && Nodes(j) <= p && ListsAt(c, p, j, d, e) && Fits(c, e) && e.k.VJmp? && d.k == e.k
    ensures var i := e.k.pc - 1; var x := c[i].(cond := !c[i].cond); var c1 := c[i := x];
      && AllJumps(c1, p) && IsList(c1, jpc, j) && ListsAt(c1, p, j, d, e) && Fits(c1, e)
      && Erased(c, p)[i] == c[i] && Erased(c1, p) == Erased(c, p)[i := x]
      && Kept(c, p, Own(e) + j, c1, p, Own(e) + j)
  {
    var i := e.k.pc - 1;
    var x := c[i].(cond := !c[i].cond);
    AllInside(c, p);
    EraseUpdate(c, p, i, x);
    InPend(j, p);
    InPend(Own(e), p);
    ListKept(c, c[i := x], jpc, j);
    assert forall n :: n in e.t ==> n in Own(e);
    assert forall n :: n in e.f ==> n in Own(e);
    ListKept(c, c[i := x], d.t, e.t);
    ListKept(c, c[i := x], d.f, e.f);
  }

  lemma PlainOwn(e: Exp)
    requires !e.k.VJmp?
    ensures Own(e) == e.t + e.f && Own(e.(k := VTrue)) == e.t + e.f
  {
  }

  lemma AnyRegKind(fs: Fs, e: Exp)
    requires !e.k.VJmp? && !e.k.VLocal?
    ensures var e1 := Discharge2AnyReg(fs, e).1; e1.k.VNonReloc? && e1.t == e.t && e1.f == e.f
  {
  }

  /** Taking back the last instruction leaves all lists alone. */
  lemma PopNot(c: seq<Instr>, p: set<nat>, jpc: int, j: seq<nat>, d: ExpDesc, e: Exp)
    requires AllJumps(c, p) && IsList(c, jpc, j) && Nodes(j) <= p && ListsAt(c, p, j, d, e) && Fits(c, e) && e.k.VReloc?
    ensures var c1 := c[..|c| - 1];
      && AllJumps(c1, p) && IsList(c1, jpc, j) && ListsAt(c1, p, j, d, e) && Erased(c1, p) == Erased(c, p)[..|c| - 1]
      && Erased(c, p)[e.k.pc] == c[e.k.pc]
  {
    hide Erased, IsList, NoDup, Nodes;
    var c1 := c[..|c| - 1];
    ErasePop(c, p);
    AllInside(c, p);
    InPend(j, p);
    InPend(Own(e), p);
    ListKept(c, c1, jpc, j);
    assert forall n :: n in e.t ==> n in Own(e);
    assert forall n :: n in e.f ==> n in Own(e);
    ListKept(c, c1, d.t, e.t);
    ListKept(c, c1, d.f, e.f);
  }

  lemma ErasePop(c: seq<Instr>, p: set<nat>)
    requires AllJumps(c, p) && |c| > 0 && !c[|c| - 1].Jmp?
    ensures var c1 := c[..|c| - 1]; AllJumps(c1, p) && Erased(c1, p) == Erased(c, p)[..|c| - 1] && Erased(c, p)[|c| - 1] == c[|c| - 1]
  {
    var c1 := c[..|c| - 1];
    assert |c| - 1 !in p;
    assert Erased(c1, p) == Erased(c, p)[..|c| - 1];
  }

  lemma PopKept(c0: seq<Instr>, c1: seq<Instr>, p0: set<nat>, o0: seq<nat>, c2: seq<Instr>, p2: set<nat>, o2: seq<nat>)
    requires AllJumps(c1, p0) && |c1| <= |c0| && c1 == c0[..|c1|] && Kept(c1, p0, o0, c2, p2, o2)
    ensures Kept(c0, p0, o0, c2, p2, o2)
  {
  }

  /** A conditional jump was emitted: the descriptor's lists and the new node. */
  lemma Forked(c0: seq<Instr>, p0: set<nat>, j0: seq<nat>, c1: seq<Instr>, p1: set<nat>, j1: seq<nat>, d: ExpDesc, e: Exp, nodes: seq<nat>)
    requires AllJumps(c0, p0) && ListsAt(c0, p0, j0, d, e) && !e.k.VJmp? && Kept(c0, p0, [] + j0, c1, p1, nodes + j1) && NoDup(j1)
    requires nodes == [|c0| + 1] && j1 == []
    ensures ListsAt(c1, p1, j1, d, e.(k := VTrue)) && ApartFrom(nodes, e.t + e.f + j1)
    ensures Kept(c0, p0, e.t + e.f + j0, c1, p1, e.t + e.f + nodes + j1)
  {
    var own, e1 := e.t + e.f, e.(k := VTrue);
    assert [] + j0 == j0;
    PlainOwn(e);
    OwnApart(own, j0);
    InPend(own, p0);
    AllInside(c0, p0);
    KeptList(c0, p0, j0, c1, p1, nodes + j1, d.t, e.t);
    KeptList(c0, p0, j0, c1, p1, nodes + j1, d.f, e.f);
    NoDupAppend(own, j1);
  }

  lemma SameLists(c: seq<Instr>, p: set<nat>, j: seq<nat>, d1: ExpDesc, e1: Exp, d0: ExpDesc, e0: Exp)
    requires ListsAt(c, p, j, d1, e1.(k := VTrue)) && e1.t == e0.t && e1.f == e0.f
    requires (d1.t == d0.t && d1.f == d0.f)
    ensures ListsAt(c, p, j, d0, e0.(k := VTrue))
  {
    assert Own(e0.(k := VTrue)) == Own(e1.(k := VTrue));
  }

  lemma PartApart(ns: seq<nat>, nl: seq<nat>, nodes: seq<nat>, j: seq<nat>)
    requires NoDup(ns + nl + nodes + j)
    ensures ApartFrom(nl, nodes) && ApartFrom(nl, ns) && ApartFrom(nl, j) && ApartFrom(nodes, ns) && ApartFrom(nodes, j) && ApartFrom(ns, j)
    ensures NoDup(ns + j) && NoDup(nl + nodes + (j + ns))
    ensures ApartFrom(j, nl) && ApartFrom(j, nodes) && ApartFrom(ns, nl) && ApartFrom(ns, nodes)
  {
    ListDisjoint(j, ns + nl + nodes);
    ListDisjoint(nodes, ns + nl);
    ListDisjoint(nl, ns);
    var all := ns + nl + nodes;
    assert forall i :: i in ns ==> i in ns + nl && i in all;
    assert forall i :: i in nl ==> i in ns + nl && i in all;
    assert forall i :: i in nodes ==> i in all;
    NoDupAppend(ns, j);
    NoDupAppend(nl, nodes);
    NoDupAppend(j, ns);
    NoDupAppend(nl + nodes, j + ns);
  }

  lemma PartKept(c0: seq<Instr>, p: set<nat>, c1: seq<Instr>, c2: seq<Instr>, ns: seq<nat>, nl: seq<nat>, nodes: seq<nat>, j: seq<nat>)
    requires AllJumps(c0, p) && |c0| == |c1| == |c2|
    requires forall i :: 0 <= i < |c1| && i !in nl ==> c1[i] == c0[i]
    requires forall i :: 0 <= i < |c2| && i !in j ==> c2[i] == c1[i]
    ensures Kept(c0, p, ns + nl + nodes + j, c2, p, nl + nodes + (j + ns))
  {
    assert forall i :: i in ns + nl + nodes + j <==> i in nl + nodes + (j + ns);
  }

  lemma JmpParts(c: seq<Instr>, p: set<nat>, j: seq<nat>, d: ExpDesc, e: Exp)
    requires ListsAt(c, p, j, d, e) && e.k.VJmp? && Fits(c, e)
    ensures IsList(c, e.k.pc, [e.k.pc]) && IsList(c, d.t, e.t) && IsList(c, d.f, e.f)
    ensures Own(e) == e.t + e.f + [e.k.pc] && NoDup(e.t + e.f + [e.k.pc] + j)
    ensures Nodes(e.t) <= p && Nodes(e.f) <= p && Nodes([e.k.pc]) <= p
  {
    JmpAlone(c, p, j, d, e);
    InPend(Own(e), p);
    assert forall i :: i in e.t || i in e.f || i in [e.k.pc] ==> i in Own(e);
  }

  lemma ConstParts(c: seq<Instr>, p: set<nat>, j: seq<nat>, d: ExpDesc, e: Exp)
    requires ListsAt(c, p, j, d, e) && !e.k.VJmp?
    ensures IsList(c, d.t, e.t) && IsList(c, d.f, e.f) && Own(e) == e.t + e.f + []
    ensures NoDup(e.t + e.f + [] + j) && Nodes(e.t) <= p && Nodes(e.f) <= p && Nodes([]) <= p
  {
    InPend(Own(e), p);
    assert forall i :: i in e.t || i in e.f ==> i in Own(e);
  }

  lemma ForkParts(c: seq<Instr>, p: set<nat>, j: seq<nat>, d: ExpDesc, e: Exp, nodes: seq<nat>)
    requires ListsAt(c, p, j, d, e.(k := VTrue)) && ApartFrom(nodes, e.t + e.f + j) && NoDup(nodes) && NoDup(j)
    ensures IsList(c, d.t, e.t) && IsList(c, d.f, e.f) && NoDup(e.t + e.f + nodes + j) && Nodes(e.t) <= p && Nodes(e.f) <= p
  {
    var e1 := e.(k := VTrue);
    assert Own(e1) == e.t + e.f;
    InPend(Own(e1), p);
    assert forall i :: i in e.t || i in e.f ==> i in Own(e1);
    OwnApart(e.t + e.f, j);
    NoDupAppend(e.t + e.f, nodes);
    NoDupAppend(e.t + e.f + nodes, j);
  }

  lemma SwapParts(t: seq<nat>, f: seq<nat>, nodes: seq<nat>, j: seq<nat>)
    requires NoDup(t + f + nodes + j)
    ensures NoDup(f + t + nodes + j)
  {
    ListDisjoint(j, t + f + nodes);
    ListDisjoint(nodes, t + f);
    ListDisjoint(f, t);
    NoDupAppend(f, t);
    NoDupAppend(f + t, nodes);
    NoDupAppend(f + t + nodes, j);
  }

  lemma KeptSame(c1: seq<Instr>, p1: set<nat>, a: seq<nat>, b: seq<nat>, c2: seq<Instr>, p2: set<nat>, o: seq<nat>)
    requires Kept(c1, p1, a, c2, p2, o) && forall j :: j in a <==> j in b
    ensures Kept(c1, p1, b, c2, p2, o)
  {
  }

  lemma PlainKind(c: seq<Instr>, p: set<nat>, j: seq<nat>, d0: ExpDesc, e0: Exp, d: ExpDesc, e: Exp)
    requires ListsAt(c, p, j, d0, e0) && !e0.k.VJmp? && (e.k.VTrue? || e.k.VFalse?) && e == e0.(k := e.k) && d == d0.(k := e.k)
    ensures ListsAt(c, p, j, d, e) && Own(e) == Own(e0)
  {
  }

  ghost predicate DropOk(c: seq<Instr>, p: set<nat>, jpc: int, j: seq<nat>, d: ExpDesc, e: Exp, list: seq<nat>) {
    var c1 := DropValues(c, list);
    && AllJumps(c1, p) && IsList(c1, jpc, j) && ListsAt(c1, p, j, d, e) && Fits(c1, e)
    && Erased(c1, p) == DropValues(Erased(c, p), list) && forall i :: i in p ==> i < |c| && c1[i] == c[i]
  }

  /** Removing values from a list leaves all lists alone. */
  lemma DropOne(c: seq<Instr>, p: set<nat>, jpc: int, j: seq<nat>, d: ExpDesc, e: Exp, list: seq<nat>)
    requires AllJumps(c, p) && IsList(c, jpc, j) && Nodes(j) <= p && ListsAt(c, p, j, d, e) && Fits(c, e)
    ensures DropOk(c, p, jpc, j, d, e, list)
  {
    var c1 := DropValues(c, list);
    EraseDrop(c, p, list);
    AllInside(c, p);
    InPend(j, p);
    InPend(Own(e), p);
    ListKept(c, c1, jpc, j);
    assert forall n :: n in e.t ==> n in Own(e);
    assert forall n :: n in e.f ==> n in Own(e);
    ListKept(c, c1, d.t, e.t);
    ListKept(c, c1, d.f, e.f);
  }

  lemma SwapHolds(c: seq<Instr>, p: set<nat>, j: seq<nat>, d0: ExpDesc, e0: Exp, d: ExpDesc, e: Exp)
    requires ListsAt(c, p, j, d0, e0) && Fits(c, e0) && d == ExpDesc(d0.k, d0.f, d0.t) && e == Exp(e0.k, e0.f, e0.t)
    ensures ListsAt(c, p, j, d, e) && Fits(c, e)
  {
    var tail := if e.k.VJmp? then [e.k.pc] else [];
    assert Own(e0) == e0.t + e0.f + tail && Own(e) == e0.f + e0.t + tail;
    SwapParts(e0.t, e0.f, tail, j);
    assert forall i :: i in Own(e) <==> i in Own(e0);
    assert Nodes(Own(e)) == Nodes(Own(e0));
  }

  lemma SwapKept(c0: seq<Instr>, p0: set<nat>, o0: seq<nat>, c3: seq<Instr>, c4: seq<Instr>, c5: seq<Instr>, p: set<nat>, j: seq<nat>, e0: Exp, e: Exp)
    requires Kept(c0, p0, o0, c3, p, Own(e0) + j) && e == Exp(e0.k, e0.f, e0.t)
    requires forall i :: i in p ==> i < |c3| && i < |c4| && c4[i] == c3[i]
    requires forall i :: i in p ==> i < |c4| && i < |c5| && c5[i] == c4[i]
    ensures Kept(c0, p0, o0, c5, p, Own(e) + j)
  {
    assert forall i :: i in Own(e) <==> i in Own(e0);
    assert forall i :: i in Own(e) + j <==> i in Own(e0) + j;
  }

  lemma SmallIndex(fs: Fs, v: Value)
    requires |fs.k| <= MAXINDEXRK
    ensures AddK(fs, v).1 <= MAXINDEXRK
  {
  }

  lemma AndDef(fs: Fs, l: Expr, y: Expr)
    ensures var (fs1, d) := Compile(fs, l); var (fs2, d1) := GoIfTrue(fs1, d); var (fs3, d2) := Compile(fs2, y);
      && Compile(fs, EAnd(l, y)) == (fs3, DischargeVars(d2).(f := DischargeVars(d2).f + d1.f))
      && (Small(fs3) ==> Small(fs1) && Small(fs2))
  {
    hide GoIfTrue;
    var (fs1, d) := Compile(fs, l);
    MonoGoIf(fs1, d);
    MonoCompile(GoIfTrue(fs1, d).0, y);
  }

  lemma OrDef(fs: Fs, l: Expr, y: Expr)
    ensures var (fs1, d) := Compile(fs, l); var (fs2, d1) := GoIfFalse(fs1, d); var (fs3, d2) := Compile(fs2, y);
      && Compile(fs, EOr(l, y)) == (fs3, DischargeVars(d2).(t := DischargeVars(d2).t + d1.t))
      && (Small(fs3) ==> Small(fs1) && Small(fs2))
  {
    hide GoIfFalse;
    var (fs1, d) := Compile(fs, l);
    MonoGoIf(fs1, d);
    MonoCompile(GoIfFalse(fs1, d).0, y);
  }

  lemma RelDef(fs: Fs, op: Rel, l: Expr, y: Expr)
    ensures var (fs1, d) := Compile(fs, l); var (fs2, d1, o) := Exp2RK(fs1, d); var (fs3, d2) := Compile(fs2, y);
      && Compile(fs, ERel(op, l, y)) == CodeComp(fs3, op, d1, d2)
      && (Small(CodeComp(fs3, op, d1, d2).0) ==> Small(fs1) && Small(fs2) && Small(fs3))
  {
    hide Exp2RK, CodeComp;
    var (fs1, d) := Compile(fs, l);
    MonoRK(fs1, d);
    var (fs2, d1, o) := Exp2RK(fs1, d);
    MonoCompile(fs2, y);
    var (fs3, d2) := Compile(fs2, y);
    MonoComp(fs3, op, d1, d2);
  }

  lemma VarsKeepLists(e: Exp)
    ensures DischargeVars(e).t == e.t && DischargeVars(e).f == e.f
  {
  }

  lemma OperandStays(fs: Fs, e: Exp, o: RK)
    requires IsOperand(e, o)
    ensures Exp2RK(fs, e) == (fs, e, o)
  {
  }

  lemma NoNodes(e: Exp, o: RK)
    requires IsOperand(e, o)
    ensures Own(e) == []
  {
  }

  /** The second operand's descriptor, after the first operand was looked at again. */
  lemma StillHolds(c0: seq<Instr>, p0: set<nat>, jpc: int, j0: seq<nat>, c1: seq<Instr>, p1: set<nat>, j1: seq<nat>, d: ExpDesc, e: Exp, e1: Exp, g1: Exp)
    requires AllJumps(c0, p0) && AllJumps(c1, p1) && ListsAt(c0, p0, j0, d, e) && Fits(c0, e) && Own(e1) == [] && Own(g1) == [] && NoDup(j1)
    requires Kept(c0, p0, Own(e1) + j0, c1, p1, Own(g1) + j1) && Erased(c1, p1) == Erased(c0, p0)
    ensures ListsAt(c1, p1, j1, d, e) && Fits(c1, e)
  {
    assert [] + j0 == j0 && [] + j1 == j1;
    OwnApart(Own(e), j0);
    InPend(Own(e), p0);
    assert forall n :: n in e.t ==> n in Own(e);
    assert forall n :: n in e.f ==> n in Own(e);
    KeptList(c0, p0, j0, c1, p1, j1, d.t, e.t);
    KeptList(c0, p0, j0, c1, p1, j1, d.f, e.f);
    NoDupAppend(Own(e), j1);
    assert |c1| == |Erased(c1, p1)|;
    if e.k.VReloc? {
      assert Erased(c0, p0)[e.k.pc] == c0[e.k.pc];
      assert Erased(c1, p1)[e.k.pc] == c1[e.k.pc];
    } else if e.k.VJmp? {
      assert e.k.pc in Own(e);
      assert Erased(c0, p0)[e.k.pc - 1] == c0[e.k.pc - 1];
      assert Erased(c1, p1)[e.k.pc - 1] == c1[e.k.pc - 1];
    }
  }

  lemma CompHolds(c: seq<Instr>, p: set<nat>, j: seq<nat>, d: ExpDesc, e: Exp)
    requires |c| >= 2 && e == Exp(VJmp(|c| - 1), [], []) && d == ExpDesc(VJmp(|c| - 1), NO_JUMP, NO_JUMP) && j == []
    requires |c| - 1 in p
    ensures ListsAt(c, p, j, d, e)
  {
    NoList(c);
    assert Own(e) == [e.k.pc] && Own(e) + j == [e.k.pc];
  }

  lemma CompKept(c0: seq<Instr>, p0: set<nat>, j0: seq<nat>, e1: Exp, g1: Exp, e2: Exp, g2: Exp, c1: seq<Instr>, p1: set<nat>, j1: seq<nat>,
    c2: seq<Instr>, p2: set<nat>, j2: seq<nat>, c3: seq<Instr>, p3: set<nat>, j3: seq<nat>, e: Exp)
    requires Own(e1) == [] && Own(g1) == [] && Own(g2) == [] && e.k.VJmp? && e.t == [] && e.f == [] && j3 == []
    requires Kept(c0, p0, Own(e1) + j0, c1, p1, Own(g1) + j1) && Kept(c1, p1, Own(e2) + j1, c2, p2, Own(g2) + j2)
    requires Kept(c2, p2, [] + j2, c3, p3, [e.k.pc] + j3)
    requires NoDup(Own(e2) + j0) && NoDup(Own(e2) + j1) && Nodes(Own(e2)) <= p0 && Nodes(Own(e2)) <= p1
    ensures Kept(c0, p0, Own(e2) + j0, c3, p3, Own(e) + j3)
  {
    assert [] + j0 == j0 && [] + j1 == j1 && [] + j2 == j2 && Own(e) == [e.k.pc];
    OwnApart(Own(e2), j0);
    OwnApart(Own(e2), j1);
    InPend(Own(e2), p0);
    InPend(Own(e2), p1);
    assert Kept(c0, p0, Own(e2) + j0, c1, p1, Own(e2) + j1);
    KeptTrans(c0, p0, Own(e2) + j0, c1, p1, Own(e2) + j1, c2, p2, j2);
    KeptTrans(c0, p0, Own(e2) + j0, c2, p2, j2, c3, p3, [e.k.pc] + j3);
  }

  lemma LeafKept(c: seq<Instr>, p: set<nat>, j: seq<nat>, e: Exp)
    requires AllJumps(c, p) && e.t == [] && e.f == [] && !e.k.VJmp?
    ensures Kept(c, p, [] + j, c, p, Own(e) + j)
  {
    assert Own(e) == [];
  }

  /** The list of the first operand, after the second was compiled. */
  lemma HeldList(c2: seq<Instr>, p2: set<nat>, j2: seq<nat>, c3: seq<Instr>, p3: set<nat>, j3: seq<nat>, d: ExpDesc, e: Exp, list: int, nodes: seq<nat>)
    requires Kept(c2, p2, [] + j2, c3, p3, Own(e) + j3) && IsList(c2, list, nodes) && Nodes(nodes) <= p2 && NoDup(nodes + j2)
    requires ListsAt(c3, p3, j3, d, e)
    ensures IsList(c3, list, nodes) && Nodes(nodes) <= p3 && ApartFrom(nodes, Own(e) + j3)
    ensures IsList(c3, d.t, e.t) && IsList(c3, d.f, e.f) && ApartFrom(e.t, nodes) && ApartFrom(e.f, nodes)
  {
    assert [] + j2 == j2;
    OwnApart(nodes, j2);
    InPend(nodes, p2);
    KeptList(c2, p2, j2, c3, p3, Own(e) + j3, list, nodes);
    assert forall n :: n in e.t || n in e.f ==> n in Own(e) + j3;
  }

  lemma FInOwn(e: Exp)
    ensures forall n :: n in e.t || n in e.f ==> n in Own(e)
  {
  }

  lemma AndHolds(c0: seq<Instr>, c1: seq<Instr>, p: set<nat>, jpc: int, j: seq<nat>, d: ExpDesc, e: Exp, e0: Exp, d0: ExpDesc, nodes: seq<nat>)
    requires AllJumps(c0, p) && IsList(c0, jpc, j) && Nodes(j) <= p && ListsAt(c0, p, j, d0, e0) && Fits(c0, e0)
    requires Nodes(nodes) <= p && ApartFrom(nodes, Own(e0) + j) && NoDup(nodes)
    requires e == e0.(f := e0.f + nodes) && d.t == d0.t && IsList(c1, d.f, e.f)
    requires |c1| == |c0| && (forall i :: 0 <= i < |c1| && (i !in e0.f || nodes == []) ==> c1[i] == c0[i]) && (forall i :: 0 <= i < |c1| && i in e0.f ==> c1[i].Jmp?)
    ensures AllJumps(c1, p) && IsList(c1, jpc, j) && Erased(c1, p) == Erased(c0, p) && ListsAt(c1, p, j, d, e) && Fits(c1, e)
  {
    OwnParted(c0, p, j, d0, e0);
    ListKept(c0, c1, jpc, j);
    ListKept(c0, c1, d.t, e.t);
    ConcatErased(c0, c1, p, e0.f);
    GrownOwn(e0, e, nodes, j, p);
    GrownFits(c0, c1, e0, e, e0.f);
  }

  lemma OrHolds(c0: seq<Instr>, c1: seq<Instr>, p: set<nat>, jpc: int, j: seq<nat>, d: ExpDesc, e: Exp, e0: Exp, d0: ExpDesc, nodes: seq<nat>)
    requires AllJumps(c0, p) && IsList(c0, jpc, j) && Nodes(j) <= p && ListsAt(c0, p, j, d0, e0) && Fits(c0, e0)
    requires Nodes(nodes) <= p && ApartFrom(nodes, Own(e0) + j) && NoDup(nodes)
    requires e == e0.(t := e0.t + nodes) && d.f == d0.f && IsList(c1, d.t, e.t)
    requires |c1| == |c0| && (forall i :: 0 <= i < |c1| && (i !in e0.t || nodes == []) ==> c1[i] == c0[i]) && (forall i :: 0 <= i < |c1| && i in e0.t ==> c1[i].Jmp?)
    ensures AllJumps(c1, p) && IsList(c1, jpc, j) && Erased(c1, p) == Erased(c0, p) && ListsAt(c1, p, j, d, e) && Fits(c1, e)
  {
    OwnParted(c0, p, j, d0, e0);
    ListKept(c0, c1, jpc, j);
    ListKept(c0, c1, d.f, e.f);
    ConcatErased(c0, c1, p, e0.t);
    GrownOwn(e0, e, nodes, j, p);
    GrownFits(c0, c1, e0, e, e0.t);
  }

  /** The parts of a descriptor's nodes are apart from each other. */
  lemma OwnParted(c: seq<Instr>, p: set<nat>, j: seq<nat>, d: ExpDesc, e: Exp)
    requires ListsAt(c, p, j, d, e)
    ensures ApartFrom(e.t, e.f) && ApartFrom(e.f, e.t) && ApartFrom(j, e.t) && ApartFrom(j, e.f) && Nodes(e.t) <= p && Nodes(e.f) <= p
    ensures e.k.VJmp? ==> e.k.pc !in e.t && e.k.pc !in e.f
    ensures NoDup(Own(e)) && NoDup(j) && ApartFrom(Own(e), j)
  {
    var tail := if e.k.VJmp? then [e.k.pc] else [];
    assert Own(e) == e.t + e.f + tail;
    ListDisjoint(j, Own(e));
    ListDisjoint(tail, e.t + e.f);
    ListDisjoint(e.f, e.t);
    InPend(Own(e), p);
    FInOwn(e);
    assert e.k.VJmp? ==> e.k.pc in tail;
  }

  lemma GrownOwn(e0: Exp, e: Exp, nodes: seq<nat>, j: seq<nat>, p: set<nat>)
    requires NoDup(Own(e0)) && NoDup(j) && ApartFrom(Own(e0), j) && Nodes(Own(e0)) <= p && Nodes(nodes) <= p
    requires ApartFrom(nodes, Own(e0) + j) && NoDup(nodes)
    requires e == e0.(f := e0.f + nodes) || e == e0.(t := e0.t + nodes)
    ensures NoDup(Own(e) + j) && Nodes(Own(e)) <= p
  {
    var tail := if e.k.VJmp? then [e.k.pc] else [];
    assert Own(e0) == e0.t + e0.f + tail;
    ListDisjoint(tail, e0.t + e0.f);
    ListDisjoint(e0.f, e0.t);
    FInOwn(e0);
    if e == e0.(f := e0.f + nodes) {
      NoDupAppend(e0.f, nodes);
      NoDupAppend(e0.t, e.f);
    } else {
      NoDupAppend(e0.t, nodes);
      NoDupAppend(e.t, e0.f);
    }
    assert forall i :: i in tail ==> i in Own(e0);
    NoDupAppend(e.t + e.f, tail);
    NoDupAppend(Own(e), j);
    InPend(Own(e0), p);
    InPend(nodes, p);
  }

  lemma GrownFits(c0: seq<Instr>, c1: seq<Instr>, e0: Exp, e: Exp, list: seq<nat>)
    requires Fits(c0, e0) && e.k == e0.k && |c1| == |c0|
    requires forall i :: 0 <= i < |c1| && i !in list ==> c1[i] == c0[i]
    requires forall i :: i in list && i < |c0| ==> c0[i].Jmp?
    requires e.k.VJmp? ==> e.k.pc !in list
    ensures Fits(c1, e)
  {
  }

  lemma LogicKept(c0: seq<Instr>, p0: set<nat>, j0: seq<nat>, c1: seq<Instr>, p1: set<nat>, j1: seq<nat>, e1: Exp, c2: seq<Instr>, p2: set<nat>, j2: seq<nat>,
    nodes: seq<nat>, c3: seq<Instr>, p3: set<nat>, j3: seq<nat>, e3: Exp, c4: seq<Instr>, e: Exp, list: seq<nat>)
    requires Kept(c0, p0, [] + j0, c1, p1, Own(e1) + j1) && Kept(c1, p1, Own(e1) + j1, c2, p2, nodes + j2) && Kept(c2, p2, [] + j2, c3, p3, Own(e3) + j3)
    requires NoDup(nodes + j2) && Nodes(nodes) <= p2
    requires (forall j :: j in p3 ==> j < |c3|) && |c4| == |c3| && (forall i :: 0 <= i < |c4| && (i !in list || nodes == []) ==> c4[i] == c3[i])
    requires forall n :: n in list ==> n in Own(e3)
    requires Own(DischargeVars(e3)) == Own(e3)
    requires e == DischargeVars(e3).(f := e3.f + nodes) || e == DischargeVars(e3).(t := e3.t + nodes)
    ensures Kept(c0, p0, [] + j0, c4, p3, Own(e) + j3)
  {
    KeptTrans(c0, p0, [] + j0, c1, p1, Own(e1) + j1, c2, p2, nodes + j2);
    assert [] + j2 == j2;
    InPend(nodes, p2);
    OwnApart(nodes, j2);
    assert forall n :: n in Own(e) <==> n in Own(e3) || n in nodes;
    assert Kept(c2, p2, nodes + j2, c3, p3, Own(e) + j3);
    KeptTrans(c0, p0, [] + j0, c2, p2, nodes + j2, c3, p3, Own(e) + j3);
  }

  lemma OperandHolds(c2: seq<Instr>, p2: set<nat>, j2: seq<nat>, c3: seq<Instr>, p3: set<nat>, jpc: int, j3: seq<nat>, d: ExpDesc, e: Exp, o: RK)
    requires IsOperand(e, o) && ListsAt(c2, p2, j2, d, e) && IsList(c3, jpc, j3)
    ensures ListsAt(c3, p3, j3, d, e)
  {
    NoNodes(e, o);
    NoList(c3);
    assert [] + j3 == j3;
  }
}
