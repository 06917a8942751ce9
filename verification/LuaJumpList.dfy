/** Lists of pending jumps, threaded through the jump instructions themselves: the target of a
    pending jump is the next jump of its list. */
module LuaJumpList {
  import opened Common
  import opened LuaVm
  import opened LuaCode

  const MAXARG_sBx := 131071

  /** `getjump`: the next node; a jump to itself ends the list. */
  function Link(code: seq<Instr>, pc: nat): int
    requires pc < |code| && code[pc].Jmp?
  {
    if code[pc].sbx == NO_JUMP then NO_JUMP else pc + 1 + code[pc].sbx
  }

  /** What follows node `i`. */
  function After(nodes: seq<nat>, i: nat): int { if i < |nodes| then nodes[i] else NO_JUMP }

  /** The list that starts at `head` has exactly these nodes, in this order. */
  ghost predicate IsList(code: seq<Instr>, head: int, nodes: seq<nat>) {
    && NoDup(nodes) && head == After(nodes, 0)
    && forall i :: 0 <= i < |nodes| ==> nodes[i] < |code| && code[nodes[i]].Jmp? && Link(code, nodes[i]) == After(nodes, i + 1)
  }

  /** A list has only one sequence of nodes. */
  lemma {:induction false} ListUnique(code: seq<Instr>, head: int, a: seq<nat>, b: seq<nat>)
    requires IsList(code, head, a) && IsList(code, head, b)
    ensures a == b
  {
    UniqueFrom(code, a, b, 0);
  }

  lemma {:induction false} UniqueFrom(code: seq<Instr>, a: seq<nat>, b: seq<nat>, i: nat)
    requires IsList(code, After(a, 0), a) && IsList(code, After(b, 0), b)
    requires i <= |a| && i <= |b| && a[..i] == b[..i] && After(a, i) == After(b, i)
    ensures a == b
    decreases |a| - i
  {
    if i < |a| {
      assert a[..i + 1] == a[..i] + [a[i]] && b[..i + 1] == b[..i] + [b[i]];
      UniqueFrom(code, a, b, i + 1);
    } else {
      assert a == a[..i] && b == b[..i];
    }
  }

  /** A list depends on its own nodes only. */
  lemma ListKept(c0: seq<Instr>, c1: seq<Instr>, head: int, nodes: seq<nat>)
    requires IsList(c0, head, nodes) && forall j :: j in nodes && j < |c0| ==> j < |c1| && c1[j] == c0[j]
    ensures IsList(c1, head, nodes)
  {
    forall i | 0 <= i < |nodes|
      ensures nodes[i] < |c1| && c1[nodes[i]].Jmp? && Link(c1, nodes[i]) == After(nodes, i + 1)
    {
      assert nodes[i] in nodes;
    }
  }

  /** Linking the last node of one list to the head of another appends them. */
  lemma Linked(c0: seq<Instr>, c1: seq<Instr>, a: seq<nat>, b: seq<nat>, l1: int, l2: int)
    requires IsList(c0, l1, a) && IsList(c0, l2, b) && a != [] && b != [] && forall j :: j in a ==> j !in b
    requires c1 == c0[a[|a| - 1] := Jmp(l2 - (a[|a| - 1] + 1))]
    ensures IsList(c1, l1, a + b)
  {
    var n, last := a + b, a[|a| - 1];
    NoDupAppend(a, b);
    assert b[0] in b && last in a;
    forall i | 0 <= i < |n|
      ensures n[i] < |c1| && c1[n[i]].Jmp? && Link(c1, n[i]) == After(n, i + 1)
    {
      if i < |a| - 1 {
        assert n[i] == a[i] && n[i + 1] == a[i + 1] && a[i] != last;
      } else if i == |a| - 1 {
        assert n[i] == last && n[i + 1] == b[0];
      } else {
        assert n[i] == b[i - |a|] && b[i - |a|] in b;
      }
    }
  }

  /** The code with every pending jump unlinked: what the machine-level results speak about. */
  function Erased(code: seq<Instr>, pend: set<nat>): (r: seq<Instr>)
    ensures |r| == |code|
    ensures forall i :: 0 <= i < |code| ==> r[i] == if i in pend then Jmp(NO_JUMP) else code[i]
  {
    seq(|code|, i requires 0 <= i < |code| => if i in pend then Jmp(NO_JUMP) else code[i])
  }

  ghost predicate AllJumps(code: seq<Instr>, pend: set<nat>) {
    forall j :: j in pend ==> j < |code| && code[j].Jmp?
  }

  function Nodes(list: seq<nat>): set<nat> { set j | j in list }

  /** Patching the threaded code patches the code without links. */
  lemma ErasePatch(code: seq<Instr>, pend: set<nat>, list: seq<nat>, vt: int, reg: nat, dt: int)
    requires AllJumps(code, pend) && Nodes(list) <= pend
    ensures Erased(PatchList(code, list, vt, reg, dt), pend - Nodes(list)) == PatchList(Erased(code, pend), list, vt, reg, dt)
    ensures AllJumps(PatchList(code, list, vt, reg, dt), pend)
    ensures forall j :: j in pend && j !in list ==> PatchList(code, list, vt, reg, dt)[j] == code[j]
  {
    var c, e := PatchList(code, list, vt, reg, dt), Erased(code, pend);
    forall i | 0 <= i < |code|
      ensures Erased(c, pend - Nodes(list))[i] == PatchList(e, list, vt, reg, dt)[i]
    {
      assert i in list <==> i in Nodes(list);
      assert HasValue(e, i) <==> HasValue(code, i);
    }
    forall j | j in pend && j !in list
      ensures c[j] == code[j]
    {
      assert code[j].Jmp?;
    }
    forall j | j in pend
      ensures j < |c| && c[j].Jmp?
    {
      assert code[j].Jmp?;
    }
  }

  lemma EraseDrop(code: seq<Instr>, pend: set<nat>, list: seq<nat>)
    requires AllJumps(code, pend)
    ensures Erased(DropValues(code, list), pend) == DropValues(Erased(code, pend), list)
    ensures AllJumps(DropValues(code, list), pend)
    ensures forall j :: j in pend ==> DropValues(code, list)[j] == code[j]
  {
    forall j | j in pend
      ensures DropValues(code, list)[j] == code[j]
    {
      assert code[j].Jmp?;
    }
  }

  lemma EraseNeeds(code: seq<Instr>, pend: set<nat>, list: seq<nat>)
    requires AllJumps(code, pend)
    ensures NeedValue(Erased(code, pend), list) == NeedValue(code, list)
  {
    assert forall j :: 0 <= j < |code| ==> (HasValue(Erased(code, pend), j) <==> HasValue(code, j));
  }

  lemma EraseAppend(code: seq<Instr>, pend: set<nat>, i: Instr)
    requires AllJumps(code, pend)
    ensures Erased(code + [i], pend) == Erased(code, pend) + [i]
    ensures i == Jmp(NO_JUMP) ==> Erased(code + [i], pend + {|code|}) == Erased(code, pend) + [i]
  {
  }

  // ----- walking a list -----

  /** `fixjump` and its error. */
  datatype Outcome = Done | Failed(msg: string)

  /** `need_value`. */
  method NeedsValue(code: seq<Instr>, head: int, ghost nodes: seq<nat>) returns (b: bool)
    requires IsList(code, head, nodes)
    ensures b == NeedValue(code, nodes)
  {
    var list := head;
    ghost var n := 0;
    while list != NO_JUMP
      invariant 0 <= n <= |nodes| && list == After(nodes, n)
      invariant forall k :: 0 <= k < n ==> HasValue(code, nodes[k])
      decreases |nodes| - n
    {
      if !HasValue(code, list) {
        return true;
      }
      list := Link(code, list);
      n := n + 1;
    }
    b := false;
  }
}
