/** References: luaL_ref and luaL_unref, which keep their free entries as a chain inside the
    table itself, starting at index 0. */
module LuaRef {
  import opened Common

  const LUA_REFNIL := -1

  /** A value other than nil.  Chain links are integers, but a user may store integers too. */
  datatype Val = Int(i: int) | Other(x: nat)

  /** A table; an absent index holds nil. */
  type Table = map<int, Val>

  function At(t: Table, i: int): Option<Val> { if i in t then Some(t[i]) else None }

  function Put(t: Table, i: int, v: Option<Val>): Table {
    match v case None => t - {i} case Some(x) => t[i := x]
  }

  /** `lua_tointeger`; the values at index 0 are integers or nil. */
  function ToInteger(v: Option<Val>): int {
    match v case Some(Int(i)) => i case _ => 0
  }

  /** What `lua_rawlen` may return: any border of the table. */
  predicate Border(t: Table, n: nat) { (n == 0 || n in t) && n + 1 !in t }

  /** `luaL_ref` on a value other than nil; `len` is the result of lua_rawlen. */
  function RefIndex(t: Table, len: nat): int {
    var ref := ToInteger(At(t, 0));
    if ref != 0 then ref else len + 1
  }

  function RefTable(t: Table, v: Val, len: nat): Table {
    var ref := ToInteger(At(t, 0));
    if ref != 0 then Put(Put(t, 0, At(t, ref)), ref, Some(v)) else Put(t, len + 1, Some(v))
  }

  /** `luaL_unref` for a reference that is not negative. */
  function UnrefTable(t: Table, ref: int): Table { Put(Put(t, ref, At(t, 0)), 0, Some(Int(ref))) }

  // ----- the invariant -----

  /** Link from the `i`-th free entry to the next. */
  function Link(free: seq<int>, i: nat): Option<Val> { if i < |free| then Some(Int(free[i])) else None }

  /** The free entries form one chain from index 0. */
  ghost predicate Chain(t: Table, free: seq<int>) {
    && NoDup(free) && At(t, 0) == Link(free, 0)
    && forall i :: 0 <= i < |free| ==> At(t, free[i]) == Link(free, i + 1)
  }

  /** The entries 1 to `n` are each live or free, and there is nothing else. */
  ghost predicate Inv(t: Table, live: map<int, Val>, free: seq<int>, n: nat) {
    && Chain(t, free)
    && (forall i :: 1 <= i <= n <==> i in live || i in free)
    && (forall i :: i in live ==> i !in free && At(t, i) == Some(live[i]))
    && (forall i :: i in t ==> 0 <= i <= n)
  }

  /** With no free entry the table is dense, so its only border is its size. */
  lemma Dense(t: Table, live: map<int, Val>, n: nat, len: nat)
    requires Inv(t, live, [], n) && Border(t, len)
    ensures len == n && forall i :: i in live <==> 1 <= i <= n
  {
    assert len + 1 in live ==> len + 1 in t;
  }

  /** Taking a reference: a new one, with its value; the others stay. */
  lemma RefInv(t: Table, live: map<int, Val>, free: seq<int>, n: nat, v: Val, len: nat)
    requires Inv(t, live, free, n) && Border(t, len)
    ensures var r := RefIndex(t, len);
      && r >= 1 && r !in live
      && Inv(RefTable(t, v, len), live[r := v], if free == [] then [] else free[1..], if free == [] then n + 1 else n)
  {
    if free == [] {
      Dense(t, live, n, len);
    } else {
      TakeFree(t, live, free, n, v, len);
    }
  }

  lemma TakeFree(t: Table, live: map<int, Val>, free: seq<int>, n: nat, v: Val, len: nat)
    requires Inv(t, live, free, n) && free != []
    ensures RefIndex(t, len) == free[0] && free[0] >= 1 && free[0] !in live
    ensures Inv(RefTable(t, v, len), live[free[0] := v], free[1..], n)
  {
    var r, rest, t1 := free[0], free[1..], RefTable(t, v, len);
    assert r in free;
    NoDupTail(r, rest) by { assert free == [r] + rest; }
    assert t1 == Put(Put(t, 0, At(t, r)), r, Some(v));
    forall i | 0 <= i < |rest|
      ensures At(t1, rest[i]) == Link(rest, i + 1)
    {
      assert rest[i] == free[i + 1] && rest[i] in free && rest[i] in rest;
      assert At(t, free[i + 1]) == Link(free, i + 2);
    }
    assert At(t, free[0]) == Link(free, 1);
    forall i
      ensures 1 <= i <= n <==> i in live[r := v] || i in rest
    {
      assert i in free <==> i == r || i in rest;
    }
  }

  /** Releasing a live reference. */
  lemma UnrefInv(t: Table, live: map<int, Val>, free: seq<int>, n: nat, r: int)
    requires Inv(t, live, free, n) && r in live
    ensures Inv(UnrefTable(t, r), live - {r}, [r] + free, n)
  {
    var more, t1 := [r] + free, UnrefTable(t, r);
    assert r >= 1;
    NoDupAppend([r], free);
    forall i | 0 <= i < |more|
      ensures At(t1, more[i]) == Link(more, i + 1)
    {
      if i > 0 {
        assert more[i] == free[i - 1] && free[i - 1] in free;
        assert At(t, free[i - 1]) == Link(free, i);
      }
    }
    forall i
      ensures 1 <= i <= n <==> i in live - {r} || i in more
    {
      assert i in more <==> i == r || i in free;
    }
  }

  // ----- every sequence of calls -----

  /** A reference is taken for a value, with some border as the length, or a live reference
      is released. */
  datatype Call = Ref(v: Val, len: nat) | Unref(r: int)

  datatype State = State(t: Table, live: map<int, Val>)

  predicate Enabled(s: State, c: Call) {
    match c
    case Ref(_, len) => Border(s.t, len)
    case Unref(r) => r in s.live
  }

  function Next(s: State, c: Call): State {
    match c
    case Ref(v, len) => State(RefTable(s.t, v, len), s.live[RefIndex(s.t, len) := v])
    case Unref(r) => State(UnrefTable(s.t, r), s.live - {r})
  }

  ghost predicate Runs(calls: seq<Call>, states: seq<State>) {
    && |states| == |calls| + 1 && states[0] == State(map[], map[])
    && forall i :: 0 <= i < |calls| ==> Enabled(states[i], calls[i]) && states[i + 1] == Next(states[i], calls[i])
  }

  /** The largest number of references that were live at once. */
  ghost function Peak(states: seq<State>, k: nat): nat
    requires k < |states|
  {
    if k == 0 || |states[k].live| > Peak(states, k - 1) then |states[k].live| else Peak(states, k - 1)
  }

  /** In every sequence of calls on a table of its own: every live reference keeps its value,
      the free entries form one chain, and there are as many entries as were ever live at once. */
  lemma {:induction false} RefsKept(calls: seq<Call>, states: seq<State>, k: nat) returns (free: seq<int>, n: nat)
    requires Runs(calls, states) && k <= |calls|
    ensures Inv(states[k].t, states[k].live, free, n)
    ensures |states[k].live| + |free| == n == Peak(states, k)
  {
    hide Inv, Border, RefTable, RefIndex, UnrefTable;
    if k == 0 {
      assert Inv(map[], map[], [], 0) by { NoneInv(); }
      return [], 0;
    }
    free, n := RefsKept(calls, states, k - 1);
    var s, c := states[k - 1], calls[k - 1];
    assert Enabled(s, c) && states[k] == Next(s, c);
    match c
    case Ref(v, len) =>
      RefInv(s.t, s.live, free, n, v, len);
      if free == [] {
        n := n + 1;
      } else {
        free := free[1..];
      }
    case Unref(r) =>
      UnrefInv(s.t, s.live, free, n, r);
      LessLive(s.live, r);
      free := [r] + free;
  }

  lemma NoneInv()
    ensures Inv(map[], map[], [], 0)
  {
  }

  lemma LessLive(live: map<int, Val>, r: int)
    requires r in live
    ensures |live - {r}| == |live| - 1
  {
    assert live == (live - {r})[r := live[r]];
  }

  /** No table grows beyond need: a reference handed out is at most the number of references
      that were ever live at once. */
  lemma RefsTight(calls: seq<Call>, states: seq<State>, k: nat)
    requires Runs(calls, states) && k < |calls| && calls[k].Ref?
    ensures RefIndex(states[k].t, calls[k].len) <= Peak(states, k + 1)
  {
    var free, n := RefsKept(calls, states, k + 1);
    assert states[k + 1] == Next(states[k], calls[k]);
    assert RefIndex(states[k].t, calls[k].len) in states[k + 1].live;
  }

  /** A reference just handed out is not in use, and the others keep their values. */
  lemma RefsFresh(calls: seq<Call>, states: seq<State>, k: nat)
    requires Runs(calls, states) && k < |calls| && calls[k].Ref?
    ensures var r := RefIndex(states[k].t, calls[k].len);
      && r !in states[k].live && r >= 1
      && At(states[k + 1].t, r) == Some(calls[k].v)
      && forall i :: i in states[k].live ==> At(states[k + 1].t, i) == Some(states[k].live[i])
  {
    var free, n := RefsKept(calls, states, k);
    var c := calls[k];
    assert Enabled(states[k], c) && states[k + 1] == Next(states[k], c);
    RefInv(states[k].t, states[k].live, free, n, c.v, c.len);
  }

  // ----- the table as an object -----

  class Registry {
    var t: Table

    constructor ()
      ensures t == map[]
    {
      t := map[];
    }

    /** `lua_rawlen`: some border; this one is found by counting. */
    method RawLen(ghost bound: nat) returns (n: nat)
      requires forall i :: i in t ==> i <= bound
      ensures Border(t, n)
    {
      n := 0;
      while n + 1 in t
        invariant n == 0 || n in t
        invariant n <= bound
        decreases bound - n
      {
        n := n + 1;
      }
    }

    /** `luaL_ref`. */
    method Ref(v: Option<Val>, ghost bound: nat) returns (ref: int, ghost len: nat)
      requires forall i :: i in t ==> i <= bound
      modifies this
      ensures v.None? ==> ref == LUA_REFNIL && t == old(t)
      ensures v.Some? ==> Border(old(t), len) && ref == RefIndex(old(t), len) && t == RefTable(old(t), v.value, len)
    {
      len := 0;
      if v.None? {
        return LUA_REFNIL, 0;
      }
      ref := ToInteger(At(t, 0));
      var n := RawLen(bound);
      len := n;
      if ref != 0 {
        t := Put(t, 0, At(t, ref));
      } else {
        ref := n + 1;
      }
      t := Put(t, ref, v);
    }

    /** `luaL_unref`. */
    method Unref(ref: int)
      modifies this
      ensures t == if ref >= 0 then UnrefTable(old(t), ref) else old(t)
    {
      if ref >= 0 {
        t := Put(t, ref, At(t, 0));
        t := Put(t, 0, Some(Int(ref)));
      }
    }
  }
}
