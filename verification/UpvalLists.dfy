/** The lists behind the upvalues: the open upvalues of a thread, singly linked, and all open
    upvalues on a ring that starts at `uvhead`, doubly linked. */
module UpvalLists {
  import opened Common
  import opened Upvalues

  const NIL := -1
  /** The head of the ring. */
  const HEAD := -1

  // ----- a singly linked list -----

  function After(list: seq<nat>, i: nat): int { if i < |list| then list[i] else NIL }

  ghost predicate IsList(next: map<nat, int>, head: int, list: seq<nat>) {
    && NoDup(list) && head == After(list, 0)
    && forall i :: 0 <= i < |list| ==> list[i] in next && next[list[i]] == After(list, i + 1)
  }

  /** Linking a new node in front of position `k`. */
  lemma ListInsert(next: map<nat, int>, head: int, list: seq<nat>, k: nat, u: nat, next1: map<nat, int>, head1: int)
    requires IsList(next, head, list) && k <= |list| && u !in list
    requires next1 == (if k == 0 then next else next[list[k - 1] := u])[u := After(list, k)]
    requires head1 == if k == 0 then u else head
    ensures IsList(next1, head1, list[..k] + [u] + list[k..])
  {
    var n := list[..k] + [u] + list[k..];
    InsertAt(list, k, u, n);
    forall i | 0 <= i < |n|
      ensures n[i] in next1 && next1[n[i]] == After(n, i + 1)
    {
      if i < k {
        assert n[i] == list[i] && list[i] != u;
        assert i < k - 1 ==> list[i] != list[k - 1];
      } else if i > k {
        assert n[i] == list[i - 1] && list[i - 1] != u;
        assert k > 0 ==> list[i - 1] != list[k - 1];
      }
    }
    forall i, j | 0 <= i < j < |n|
      ensures n[i] != n[j]
    {
      var a, b := if i < k then i else i - 1, if j < k then j else j - 1;
      assert i != k && j != k ==> list[a] != list[b];
    }
  }

  lemma ListTail(next: map<nat, int>, head: int, list: seq<nat>)
    requires IsList(next, head, list) && list != []
    ensures head == list[0] && head in next && IsList(next, next[list[0]], list[1..])
  {
    var t := list[1..];
    NoDupTail(list[0], t) by { assert list == [list[0]] + t; }
    forall i | 0 <= i < |t|
      ensures t[i] in next && next[t[i]] == After(t, i + 1)
    {
      assert t[i] == list[i + 1];
    }
  }

  // ----- a ring -----

  /** The `i`-th node of the ring, counted from the head. */
  function RingAt(ring: seq<int>, i: nat): int { if 1 <= i <= |ring| then ring[i - 1] else HEAD }

  predicate NextOk(next: map<int, int>, ring: seq<int>, i: nat) {
    RingAt(ring, i) in next && next[RingAt(ring, i)] == RingAt(ring, i + 1)
  }

  predicate PrevOk(prev: map<int, int>, ring: seq<int>, i: nat) {
    RingAt(ring, i + 1) in prev && prev[RingAt(ring, i + 1)] == RingAt(ring, i)
  }

  /** Following `next` goes round the ring, and `prev` goes back. */
  ghost predicate IsRing(next: map<int, int>, prev: map<int, int>, ring: seq<int>) {
    && NoDup(ring) && HEAD !in ring
    && (forall i :: 0 <= i <= |ring| ==> NextOk(next, ring, i))
    && (forall i :: 0 <= i <= |ring| ==> PrevOk(prev, ring, i))
  }

  /** The nodes of a ring are different. */
  lemma RingDiffer(ring: seq<int>, i: nat, j: nat)
    requires NoDup(ring) && HEAD !in ring && 1 <= i <= |ring| && i != j
    ensures RingAt(ring, i) != RingAt(ring, j)
  {
    assert ring[i - 1] in ring;
  }

  lemma RingInsert(next: map<int, int>, prev: map<int, int>, ring: seq<int>, u: int, next1: map<int, int>, prev1: map<int, int>)
    requires IsRing(next, prev, ring) && u !in ring && u != HEAD
    requires HEAD in next && next1 == next[u := next[HEAD]][HEAD := u] && prev1 == prev[u := HEAD][next[HEAD] := u]
    ensures IsRing(next1, prev1, [u] + ring)
  {
    var n := [u] + ring;
    NoDupAppend([u], ring);
    assert NextOk(next, ring, 0);
    forall i | 0 <= i <= |n|
      ensures NextOk(next1, n, i) && PrevOk(prev1, n, i)
    {
      if i >= 2 {
        assert NextOk(next, ring, i - 1) && PrevOk(prev, ring, i - 1);
        assert ring[i - 2] in ring && (i <= |ring| ==> ring[i - 1] in ring);
        RingDiffer(ring, 1, i);
      }
    }
  }

  /** `unlinkupval`. */
  lemma RingRemove(next: map<int, int>, prev: map<int, int>, ring: seq<int>, k: nat, next1: map<int, int>, prev1: map<int, int>)
    requires IsRing(next, prev, ring) && k < |ring|
    requires ring[k] in next && ring[k] in prev
    requires next1 == next[prev[ring[k]] := next[ring[k]]] && prev1 == prev[next[ring[k]] := prev[ring[k]]]
    ensures IsRing(next1, prev1, ring[..k] + ring[k + 1..])
  {
    var n := ring[..k] + ring[k + 1..];
    NoDupRemove(ring, k);
    assert NextOk(next, ring, k + 1) && PrevOk(prev, ring, k);
    forall i | 0 <= i <= |n|
      ensures NextOk(next1, n, i) && PrevOk(prev1, n, i)
    {
      var a, b := Shift(k, i), Shift(k, i + 1);
      assert RingAt(n, i) == RingAt(ring, a);
      assert RingAt(n, i + 1) == RingAt(ring, b);
      assert NextOk(next, ring, a) && PrevOk(prev, ring, b - 1);
      RingOrder(ring, k, i);
    }
  }

  /** The place in the old ring of the `i`-th node after the removal. */
  function Shift(k: nat, i: nat): nat { if i <= k then i else i + 1 }

  lemma RingOrder(ring: seq<int>, k: nat, i: nat)
    requires NoDup(ring) && HEAD !in ring && k < |ring| && i < |ring|
    ensures RingAt(ring, Shift(k, i)) == RingAt(ring, k) <==> i == k
    ensures RingAt(ring, Shift(k, i + 1)) == RingAt(ring, k + 2) <==> i == k
  {
    if i != k {
      if k >= 1 {
        RingDiffer(ring, k, Shift(k, i));
      } else {
        RingDiffer(ring, Shift(k, i), 0);
      }
      if k + 2 <= |ring| {
        RingDiffer(ring, k + 2, Shift(k, i + 1));
      } else {
        RingDiffer(ring, i + 1, k + 2);
      }
    }
  }

  // ----- a thread with its lists -----

  class Thread {
    var stack: seq<Value>
    var uvs: map<nat, UpVal>
    /** Links of the list of open upvalues, and its head. */
    var next: map<nat, int>
    var openupval: int
    /** Links of the ring. */
    var ringNext: map<int, int>
    var ringPrev: map<int, int>
    var newId: nat
    ghost var open: seq<nat>
    ghost var ring: seq<int>

    ghost function Abs(): State
      reads this
    {
      State(stack, uvs, open, newId)
    }

    /** Both lists hold exactly the open upvalues. */
    ghost predicate Valid()
      reads this
    {
      && Wf(Abs()) && IsList(next, openupval, open) && IsRing(ringNext, ringPrev, ring)
      && (forall u: nat :: u in ring <==> u in open) && (forall x :: x in ring ==> x >= 0)
    }

    constructor (stack: seq<Value>)
      ensures Valid() && Abs() == State(stack, map[], [], 0)
    {
      this.stack, uvs, next, openupval, newId := stack, map[], map[], NIL, 0;
      ringNext, ringPrev := map[HEAD := HEAD], map[HEAD := HEAD];
      open, ring := [], [];
    }

    /** `luaF_findupval`. */
    method FindUpval(level: nat) returns (u: nat)
      requires Valid() && level < |stack|
      modifies this
      ensures Valid() && (Abs(), u) == Find(old(Abs()), level)
    {
      hide IsRing, Wf, IsList, Search;
      var last, p;
      ghost var k;
      last, p, k := Locate(level);
      if p != NIL && Level(uvs, p) == level {
        return p;
      }
      u := newId;
      Insert(level, last, p, k);
    }

    /** The walk along the list: `p` is the first upvalue not above the level, and `last` the
        one before it. */
    method Locate(level: nat) returns (last: int, p: int, ghost k: nat)
      requires Valid()
      ensures k == Search(uvs, open, level) && p == After(open, k) && last == if k == 0 then NIL else open[k - 1]
    {
      hide IsRing, Wf;
      last, p, k := NIL, openupval, 0;
      while p != NIL && Level(uvs, p) >= level
        invariant 0 <= k <= |open| && p == After(open, k) && last == (if k == 0 then NIL else open[k - 1])
        invariant forall i :: 0 <= i < k ==> Level(uvs, open[i]) > level
        decreases |open| - k
      {
        if Level(uvs, p) == level {
          break;
        }
        last := p;
        p := next[p];
        k := k + 1;
      }
      SearchIs(uvs, open, level, k);
    }

    /** A new open upvalue between `last` and `p`. */
    method Insert(level: nat, last: int, p: int, ghost k: nat)
      requires Valid() && level < |stack| && k == Search(uvs, open, level)
      requires p == After(open, k) && last == if k == 0 then NIL else open[k - 1]
      requires p == NIL || Level(uvs, p) != level
      modifies this
      ensures Valid() && (Abs(), old(newId)) == Find(old(Abs()), level)
    {
      hide IsRing, Wf, IsList, Search;
      FindWf(Abs(), level);
      NotListed(Abs());
      var u := newId;
      ghost var next0, head0, open0 := next, openupval, open;
      if last == NIL {
        openupval := u;
      } else {
        next := next[last := u];
      }
      next := next[u := p];
      ListInsert(next0, head0, open0, k, u, next, openupval);
      uvs, newId := uvs[u := Open(level)], newId + 1;
      LinkRing(u);
      open := open0[..k] + [u] + open0[k..];
      Inserted(open0, k, u, old(ring), open, ring);
    }

    /** The new upvalue goes to the front of the ring. */
    method LinkRing(u: nat)
      requires IsRing(ringNext, ringPrev, ring) && u !in ring
      modifies `ringNext, `ringPrev, `ring
      ensures IsRing(ringNext, ringPrev, ring) && ring == [u as int] + old(ring)
    {
      assert NextOk(ringNext, ring, 0);
      ghost var n0, p0 := ringNext, ringPrev;
      var second := ringNext[HEAD];
      ringPrev := ringPrev[u := HEAD];
      ringNext := ringNext[u := second];
      ringPrev := ringPrev[second := u];
      ringNext := ringNext[HEAD := u];
      RingInsert(n0, p0, ring, u, ringNext, ringPrev);
      ring := [u as int] + ring;
    }

    /** `unlinkupval`. */
    method UnlinkRing(u: nat)
      requires IsRing(ringNext, ringPrev, ring) && u in ring
      modifies `ringNext, `ringPrev, `ring
      ensures IsRing(ringNext, ringPrev, ring) && forall x :: x in ring <==> x in old(ring) && x != u
    {
      ghost var k :| 0 <= k < |ring| && ring[k] == u;
      assert NextOk(ringNext, ring, k + 1) && PrevOk(ringPrev, ring, k);
      ghost var n0, p0 := ringNext, ringPrev;
      var next, prev := ringNext[u], ringPrev[u];
      ringPrev := ringPrev[next := prev];
      ringNext := ringNext[prev := next];
      RingRemove(n0, p0, ring, k, ringNext, ringPrev);
      NoDupRemove(ring, k);
      ring := ring[..k] + ring[k + 1..];
    }

    /** `luaF_close`: every upvalue of the level and above gets its value. */
    method CloseFrom(level: nat)
      requires Valid()
      modifies this
      ensures Valid() && Abs() == Close(old(Abs()), level)
    {
      while openupval != NIL && Level(uvs, openupval) >= level
        invariant Valid() && Close(Abs(), level) == Close(old(Abs()), level)
        decreases |open|
      {
        CloseTop();
      }
    }

    method CloseTop()
      requires Valid() && openupval != NIL
      modifies this
      ensures Valid() && old(open) != [] && old(open)[0] in old(uvs) && Abs() == CloseFirst(old(Abs()))
    {
      hide IsRing, Wf, IsList;
      NotEmpty(next, openupval, open);
      CloseFirstWf(Abs());
      FirstListed(Abs());
      ListTail(next, openupval, open);
      ListRest(next, openupval, open);
      var u := openupval;
      openupval := next[u];
      UnlinkRing(u);
      uvs := uvs[u := Closed(Content(stack, uvs[u]))];
      open := open[1..];
    }
  }

  /** The search stops where the function Search says. */
  lemma {:induction false} SearchIs(uvs: map<nat, UpVal>, open: seq<nat>, level: nat, k: nat)
    requires k <= |open| && (forall i :: 0 <= i < k ==> Level(uvs, open[i]) > level) && (k < |open| ==> Level(uvs, open[k]) <= level)
    ensures Search(uvs, open, level) == k
  {
    if k > 0 {
      SearchIs(uvs, open[1..], level, k - 1);
    }
  }

  /** The list and the ring have the same elements again. */
  lemma Inserted(list: seq<nat>, k: nat, u: nat, ring: seq<int>, list1: seq<nat>, ring1: seq<int>)
    requires k <= |list| && (forall x: nat :: x in ring <==> x in list) && forall x :: x in ring ==> x >= 0
    requires list1 == list[..k] + [u] + list[k..] && ring1 == [u as int] + ring
    ensures forall x: nat :: x in ring1 <==> x in list1
    ensures forall x :: x in ring1 ==> x >= 0
  {
    InsertAt(list, k, u, list1);
  }

  lemma NotEmpty(next: map<nat, int>, head: int, list: seq<nat>)
    requires IsList(next, head, list) && head != NIL
    ensures list != []
  {
  }

  lemma ListRest(next: map<nat, int>, head: int, list: seq<nat>)
    requires IsList(next, head, list) && list != []
    ensures forall x :: x in list[1..] <==> x in list && x != list[0]
  {
    NoDupTail(list[0], list[1..]) by { assert list == [list[0]] + list[1..]; }
  }

  lemma FirstListed(s: State)
    requires Wf(s) && s.open != []
    ensures s.open[0] in s.uvs && s.open[0] in s.open
  {
  }

  lemma NotListed(s: State)
    requires Wf(s)
    ensures s.newId !in s.open && s.newId !in s.uvs
  {
  }
}
