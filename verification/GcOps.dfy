/** The operations of the mutator, each keeping the invariant of the collector. */
module GcOps {
  import opened Common
  import opened GcState
  import opened GcOpen
  import opened GcMark
  import opened GcCycle
  import opened GcSurgery
  import opened GcSweep
  import opened GcStep
  import opened GcMutator
  import opened GcEffects
  import opened GcBarrier

  // ----- the operations -----

  function Nils(n: nat): seq<Option<Id>> { seq(n, k => None) }

  /** Push a value on the stack of the running thread. */
  function Push(g: G, v: Option<Id>): G
    requires g.h.running in g.h.objs
  {
    g.(h := SetSlotsH(g.h, g.h.running, g.h.objs[g.h.running].slots + [v]))
  }

  /** `luaC_newobj`: the new object has the current white and sits at the head of its list. */
  function Create(g: G, i: Id, kind: Kind, n: nat, b: nat): G
    requires kind.KShrStr? ==> b < |g.h.strt|
  {
    var o := Obj(kind, false, Nils(n), Own, []);
    g.(h := if kind.KShrStr? then AddStringH(g.h, i, o, b) else AddListedH(g.h, i, o),
       mark := g.mark[i := White(g.white)])
  }

  /** Create an object and anchor it in the running thread's stack. */
  function NewObj(g: G, i: Id, kind: Kind, n: nat, b: nat): G
    requires kind.KShrStr? ==> b < |g.h.strt|
    requires g.h.running in g.h.objs
  {
    Push(Create(g, i, kind, n, b), Some(i))
  }

  /** `changewhite` on an object that is dead but not swept yet. */
  function Resurrect(g: G, i: Id): G { if Dead(g, i) then SetMark(g, i, White(g.white)) else g }

  /** `internshrstr` finding string `i` in the table. */
  function Intern(g: G, i: Id): G
    requires g.h.running in g.h.objs
  {
    Push(Resurrect(g, i), Some(i))
  }

  /** Store `v` in slot `k` of an object (at the end, the object grows), with its barrier. */
  function SetSlot(g: G, o: Id, k: nat, v: Option<Id>): G
    requires o in g.h.objs && k <= |g.h.objs[o].slots|
  {
    var s := g.h.objs[o].slots;
    Barrier(g.(h := SetSlotsH(g.h, o, if k < |s| then s[k := v] else s + [v])), o, v)
  }

  /** Store into an open upvalue: the value goes to the stack slot. */
  function SetOpenUpval(g: G, u: Id, v: Option<Id>): G
    requires u in g.h.objs && g.h.objs[u].home.Slot? && g.h.objs[u].home.thread in g.h.objs
    requires g.h.objs[u].home.level < |g.h.objs[g.h.objs[u].home.thread].slots|
  {
    var Slot(t, l) := g.h.objs[u].home;
    Barrier(g.(h := SetSlotsH(g.h, t, g.h.objs[t].slots[l := v])), u, v)
  }

  /** The stack of a thread is overwritten, without a barrier. */
  function SetStack(g: G, t: Id, s: seq<Option<Id>>): G
    requires t in g.h.objs
  {
    g.(h := SetSlotsH(g.h, t, s))
  }

  /** `luaC_barrierproto`. */
  function BarrierProto(g: G, p: Id, c: Id): G
    requires p in g.h.objs && c in g.h.objs
  {
    if !IsBlack(g, p) then g
    else if p !in g.cache then (if IsWhite(g, c) then BarrierForward(g, p, c) else g)
    else BarrierBack(g, p)
  }

  function SetCache(g: G, p: Id, c: Id): G
    requires p in g.h.objs && c in g.h.objs
  {
    var g1 := BarrierProto(g, p, c);
    g1.(cache := g1.cache[p := c])
  }

  /** `luaF_findupval` on the running thread: the upvalue, a dead one resurrected, or `u`
      as a new one. */
  function FindUpval(g: G, level: nat, u: Id): (r: (G, Id))
    requires g.h.running in g.h.objs
  {
    var t := g.h.running;
    var us := g.h.objs[t].openupval;
    var found := FindOpen(g.h, us, t, level);
    if found.Some? then (Resurrect(g, found.value), found.value)
    else (g.(h := AddOpenH(g.h, u, t, level, Position(g.h, us, level)), mark := g.mark[u := White(g.white)]), u)
  }

  // ----- they keep the invariant -----

  lemma RunningFacts(g: G)
    requires Inv(g)
    ensures g.h.running in g.h.objs && Live(g, g.h.running)
    ensures g.h.objs[g.h.running].kind.KThread? && g.h.objs[g.h.running].home.Own? && !IsBlack(g, g.h.running)
    ensures Shape(g.h.objs[g.h.running])
    ensures forall j :: Some(j) in g.h.objs[g.h.running].slots ==> Live(g, j)
    ensures forall u :: u in g.h.objs[g.h.running].openupval ==> OpenAt(g.h, u, g.h.running)
  {
    InvParts(g);
    hide Inv;
    assert Root(g.h, g.h.running);
    assert Shape(g.h.objs[g.h.running]);
    forall j | Some(j) in g.h.objs[g.h.running].slots
      ensures Live(g, j)
    {
      assert Some(j) in Vals(g.h, g.h.running);
      assert Edge(g.h, g.cache, g.h.running, j);
    }
  }

  lemma SetStackInv(g: G, r: G, t: Id, s: seq<Option<Id>>)
    requires Inv(g) && t in g.h.objs && g.h.objs[t].kind.KThread? && SlotsOk(g, t, s)
    requires FitSlots(g.h, t, s) && r == SetStack(g, t, s)
    ensures Inv(r)
  {
    hide Inv, InvBut, Wf;
    InvParts(g);
    WfParts(g.h);
    assert Shape(g.h.objs[t]);
    SlotsInv(g, r, t, s);
    assert !IsBlack(r, t);
    InvButNotBlack(r, t);
  }

  lemma PushInv(g: G, r: G, v: Option<Id>)
    requires Inv(g) && (v.Some? ==> Live(g, v.value)) && g.h.running in g.h.objs && r == Push(g, v)
    ensures Inv(r)
  {
    hide Inv;
    RunningFacts(g);
    var s := g.h.objs[g.h.running].slots + [v];
    assert FitSlots(g.h, g.h.running, s);
    SetStackInv(g, r, g.h.running, s);
  }

  lemma CreateGrows(g: G, r: G, i: Id, kind: Kind, n: nat, b: nat)
    requires MarksOk(g) && LiveClosed(g) && i !in g.h.objs && (kind.KShrStr? ==> b < |g.h.strt|) && r == Create(g, i, kind, n, b)
    requires forall k :: k in g.h.objs ==> Vals(r.h, k) == Vals(g.h, k)
    ensures Grows(g, r, i) && HeadGrowth(g, r)
  {
    assert i !in g.cache;
    forall k, j | Edge(r.h, r.cache, k, j)
      ensures k in g.h.objs && Edge(g.h, g.cache, k, j)
    {
    }
    forall k | Root(r.h, k)
      ensures Live(r, k)
    {
      assert Root(g.h, k) && Live(g, k);
    }
  }

  /** Objects the allocator can be asked for; an upvalue created here is a closed one. */
  predicate Creatable(kind: Kind, n: nat) {
    && (IsString(kind) ==> n == 0)
    && (kind.KUpval? ==> n == 1)
  }

  lemma CreateInv(g: G, r: G, i: Id, kind: Kind, n: nat, b: nat)
    requires Inv(g) && i !in g.h.objs && Creatable(kind, n) && (kind.KShrStr? ==> b < |g.h.strt|) && r == Create(g, i, kind, n, b)
    ensures Inv(r) && Live(r, i)
  {
    hide Inv, InvBut, Wf, Grows, HeadGrowth, MarksOk, LiveClosed;
    InvParts(g);
    var o := Obj(kind, false, Nils(n), Own, []);
    if kind.KShrStr? {
      AddStringWf(g.h, r.h, i, o, b);
    } else {
      AddListedWf(g.h, r.h, i, o);
    }
    CreateGrows(g, r, i, kind, n, b);
    GrowsInv(g, r, i);
    InvButNotBlack(r, i);
  }

  lemma NewObjInv(g: G, r: G, i: Id, kind: Kind, n: nat, b: nat)
    requires Inv(g) && i !in g.h.objs && Creatable(kind, n) && (kind.KShrStr? ==> b < |g.h.strt|)
    requires g.h.running in g.h.objs && r == NewObj(g, i, kind, n, b)
    ensures Inv(r)
  {
    hide Inv;
    var g1 := Create(g, i, kind, n, b);
    CreateInv(g, g1, i, kind, n, b);
    PushInv(g1, r, Some(i));
  }

  lemma ResurrectSweep(g: G, r: G, i: Id)
    requires SweepColors(g) && Dead(g, i) && r == Resurrect(g, i)
    requires forall j :: Edge(g.h, g.cache, i, j) ==> Live(g, j)
    ensures SweepColors(r)
  {
    assert forall k :: Live(r, k) <==> Live(g, k) || k == i;
    forall k | k in r.h.objs
      ensures Ahead(r, k) || r.mark[k] == White(r.white)
    {
      assert Ahead(g, k) || g.mark[k] == White(g.white);
      if Ahead(g, k) {
        AheadStays(g, r, k);
      }
    }
  }

  lemma OnlyDeadInSweep(g: G, i: Id)
    requires Inv(g) && Dead(g, i)
    ensures InSweep(g)
  {
  }

  /** Resurrecting keeps the invariant if what the object refers to is live. */
  lemma ResurrectInv(g: G, r: G, i: Id)
    requires Inv(g) && i in g.h.objs && r == Resurrect(g, i)
    requires forall j :: Edge(g.h, g.cache, i, j) ==> Live(g, j)
    ensures Inv(r) && Live(r, i) && r.h == g.h
  {
    hide Wf, SweepColors, Colored;
    if Dead(g, i) {
      OnlyDeadInSweep(g, i);
      ResurrectSweep(g, r, i);
    }
  }

  lemma InternInv(g: G, r: G, i: Id)
    requires Inv(g) && InBucket(g.h, i) && g.h.running in g.h.objs && r == Intern(g, i)
    ensures Inv(r)
  {
    hide Inv, Wf;
    InvParts(g);
    WfParts(g.h);
    assert i in g.h.objs && Shape(g.h.objs[i]);
    var g1 := Resurrect(g, i);
    ResurrectInv(g, g1, i);
    PushInv(g1, r, Some(i));
  }

  // ----- writes -----

  lemma WriteEdges(g: G, g1: G, o: Id, k: nat, v: Option<Id>, s: seq<Option<Id>>)
    requires o in g.h.objs && g.h.objs[o].home.Own? && k <= |g.h.objs[o].slots|
    requires s == if k < |g.h.objs[o].slots| then g.h.objs[o].slots[k := v] else g.h.objs[o].slots + [v]
    requires g1 == g.(h := SetSlotsH(g.h, o, s))
    ensures forall j: Id :: Edge(g1.h, g1.cache, o, j) ==> Edge(g.h, g.cache, o, j) || v == Some(j)
  {
    forall j: Id | Edge(g1.h, g1.cache, o, j)
      ensures Edge(g.h, g.cache, o, j) || v == Some(j)
    {
      if Some(j) in s {
        var m :| 0 <= m < |s| && s[m] == Some(j);
        if m != k {
          assert Some(j) in Vals(g.h, o);
        }
      }
    }
  }

  /** While the invariant is kept, the values of a black object are not white. */
  lemma BlackCovered(g: G, o: Id)
    requires Inv(g) && g.phase.Propagate? && IsBlack(g, o)
    ensures Covered(g, o)
  {
  }

  lemma SetSlotStores(g: G, r: G, o: Id, k: nat, v: Option<Id>)
    requires Inv(g) && o in g.h.objs && !g.h.objs[o].kind.KThread? && g.h.objs[o].home.Own? && k <= |g.h.objs[o].slots|
    requires r == SetSlot(g, o, k, v)
    ensures Stored(g.h, r.h, o, k, v)
  {
    hide Inv, Wf, Stored, Barrier;
    InvParts(g);
    WfParts(g.h);
    var s := g.h.objs[o].slots;
    var g1 := g.(h := SetSlotsH(g.h, o, if k < |s| then s[k := v] else s + [v]));
    BarrierHeap(g1, o, v);
    StoredAt(g.h, g1.h, o, k, v);
  }

  lemma SetSlotInv(g: G, r: G, o: Id, k: nat, v: Option<Id>)
    requires Inv(g) && Live(g, o) && (v.Some? ==> Live(g, v.value)) && k <= |g.h.objs[o].slots|
    requires !g.h.objs[o].kind.KThread? && !IsString(g.h.objs[o].kind) && g.h.objs[o].home.Own?
    requires g.h.objs[o].kind.KUpval? ==> k == 0
    requires r == SetSlot(g, o, k, v)
    ensures Inv(r) && Stored(g.h, r.h, o, k, v)
  {
    hide Stored, Inv, InvBut, Wf, MarksOk, LiveClosed, Shapes, OpenOk, ThreadsOk, StrListOk, AllListOk, UvheadOk, Shape, FitSlots, Barrier, OpenSorted;
    SetSlotStores(g, r, o, k, v);
    InvParts(g);
    WfParts(g.h);
    var s := if k < |g.h.objs[o].slots| then g.h.objs[o].slots[k := v] else g.h.objs[o].slots + [v];
    var g1 := g.(h := SetSlotsH(g.h, o, s));
    OneSlotFits(g.h, o, k, v, s);
    SlotsInv(g, g1, o, s);
    WriteEdges(g, g1, o, k, v, s);
    BarrierAfterWrite(g, g1, r, o, v);
  }

  lemma OneSlotFits(h: Heap, o: Id, k: nat, v: Option<Id>, s: seq<Option<Id>>)
    requires Shapes(h) && OpenOk(h) && o in h.objs && k <= |h.objs[o].slots|
    requires !h.objs[o].kind.KThread? && !IsString(h.objs[o].kind) && h.objs[o].home.Own? && (h.objs[o].kind.KUpval? ==> k == 0)
    requires s == if k < |h.objs[o].slots| then h.objs[o].slots[k := v] else h.objs[o].slots + [v]
    ensures FitSlots(h, o, s)
  {
    assert Shape(h.objs[o]);
  }

  lemma BarrierAfterWrite(g: G, g1: G, r: G, o: Id, v: Option<Id>)
    requires Inv(g) && InvBut(g1, o) && Live(g, o) && (v.Some? ==> Live(g, v.value)) && o in g1.h.objs && r == Barrier(g1, o, v)
    requires g1 == g.(h := g1.h) && g1.h.objs.Keys == g.h.objs.Keys
    requires forall i :: i in g.h.objs ==> g1.h.objs[i].fixed == g.h.objs[i].fixed
    requires forall j: Id :: Edge(g1.h, g1.cache, o, j) ==> Edge(g.h, g.cache, o, j) || v == Some(j)
    ensures Inv(r)
  {
    hide Inv, InvBut;
    if !IsBlack(g, o) {
      InvButNotBlack(g1, o);
    } else if g.phase.Propagate? {
      BlackCovered(g, o);
      BarrierInv(g1, r, o, v);
    } else {
      BarrierElsewhere(g1, r, o, v);
    }
  }

  /** Outside the marking phase the barrier has nothing to restore. */
  lemma BarrierElsewhere(g: G, r: G, o: Id, v: Option<Id>)
    requires InvBut(g, o) && !g.phase.Propagate? && Live(g, o) && (v.Some? ==> Live(g, v.value)) && r == Barrier(g, o, v)
    ensures Inv(r) && r.h == g.h
  {
    hide Wf, SweepColors;
    if v.Some? && IsWhite(g, v.value) && IsBlack(g, o) {
      if g.phase.Pause? {
        NoBlackAtRest(g, o);
      } else if g.h.objs[o].kind.KTable? {
        BackSweep(g, r, o);
      } else {
        WhitenSweeps(g, r, o);
      }
    }
  }

  lemma OpenUpvalFacts(g: G, u: Id)
    requires Inv(g) && u in g.h.objs && g.h.objs[u].home.Slot?
    ensures OpenAt(g.h, u, g.h.objs[u].home.thread)
    ensures g.h.objs[g.h.objs[u].home.thread].kind.KThread? && g.h.objs[g.h.objs[u].home.thread].home.Own?
    ensures Shape(g.h.objs[g.h.objs[u].home.thread]) && !IsBlack(g, u)
    ensures forall w :: w in g.h.objs[g.h.objs[u].home.thread].openupval ==> OpenAt(g.h, w, g.h.objs[u].home.thread)
  {
    InvParts(g);
    hide Inv;
    var t := g.h.objs[u].home.thread;
    assert u in g.h.objs[t].openupval;
    assert OpenAt(g.h, u, t) && Shape(g.h.objs[t]);
  }

  lemma OpenUpvalStores(g: G, r: G, u: Id, v: Option<Id>)
    requires Inv(g) && u in g.h.objs && g.h.objs[u].home.Slot?
    requires g.h.objs[u].home.thread in g.h.objs && g.h.objs[u].home.level < |g.h.objs[g.h.objs[u].home.thread].slots|
    requires r == SetOpenUpval(g, u, v)
    ensures StoredThrough(g.h, r.h, u, v)
  {
    hide Inv, Wf, StoredThrough, Barrier;
    InvParts(g);
    WfParts(g.h);
    OpenUpvalFacts(g, u);
    var Slot(t, l) := g.h.objs[u].home;
    var g1 := g.(h := SetSlotsH(g.h, t, g.h.objs[t].slots[l := v]));
    BarrierHeap(g1, u, v);
    IsStoredThrough(g.h, g1.h, u, v);
  }

  lemma SetOpenUpvalInv(g: G, r: G, u: Id, v: Option<Id>)
    requires Inv(g) && u in g.h.objs && g.h.objs[u].home.Slot? && (v.Some? ==> Live(g, v.value))
    requires g.h.objs[u].home.thread in g.h.objs && g.h.objs[u].home.level < |g.h.objs[g.h.objs[u].home.thread].slots|
    requires r == SetOpenUpval(g, u, v)
    ensures Inv(r) && StoredThrough(g.h, r.h, u, v)
  {
    hide Inv, StoredThrough;
    OpenUpvalStores(g, r, u, v);
    OpenUpvalFacts(g, u);
    var Slot(t, l) := g.h.objs[u].home;
    var s := g.h.objs[t].slots[l := v];
    assert FitSlots(g.h, t, s);
    SetStackInv(g, SetStack(g, t, s), t, s);
  }

  // ----- the cache of a prototype -----

  lemma CacheGrows(g: G, r: G, p: Id, c: Id)
    requires MarksOk(g) && LiveClosed(g) && p in g.h.objs && g.h.objs[p].kind.KProto? && Live(g, c)
    requires r == g.(cache := g.cache[p := c])
    ensures Grows(g, r, p) && HeadGrowth(g, r)
  {
    forall i, j | Edge(r.h, r.cache, i, j)
      ensures Edge(g.h, g.cache, i, j) || NewEdgeOk(g, r, p, i, j)
    {
      assert Live(g, j) ==> Live(r, j);
    }
    forall i | Root(r.h, i)
      ensures Live(r, i)
    {
      assert Root(g.h, i) && Live(g, i);
    }
  }

  lemma CacheInv(g: G, r: G, p: Id, c: Id)
    requires Inv(g) && p in g.h.objs && g.h.objs[p].kind.KProto? && Live(g, c)
    requires r == g.(cache := g.cache[p := c])
    requires g.phase.Propagate? ==> !IsBlack(g, p) || !IsWhite(g, c)
    ensures Inv(r)
  {
    hide Inv, InvBut, Wf, Grows, HeadGrowth, MarksOk, LiveClosed;
    InvParts(g);
    CacheGrows(g, r, p, c);
    GrowsInv(g, r, p);
    if !IsBlack(r, p) {
      InvButNotBlack(r, p);
    } else if g.phase.Propagate? {
      BlackCovered(g, p);
      forall j: Id | Edge(r.h, r.cache, p, j)
        ensures !IsWhite(r, j)
      {
        assert j == c || Edge(g.h, g.cache, p, j);
      }
      InvButCovered(r, p);
    } else {
      InvButElsewhere(r, p);
    }
  }

  lemma InvButElsewhere(g: G, x: Id)
    requires InvBut(g, x) && !g.phase.Propagate?
    ensures Inv(g)
  {
  }

  lemma InvGivesBut(g: G, x: Id)
    requires Inv(g)
    ensures InvBut(g, x)
  {
  }

  /** `luaC_barrierproto` keeps the invariant and makes room for the new cache. */
  lemma BarrierProtoInv(g: G, r: G, p: Id, c: Id)
    requires Inv(g) && Live(g, p) && g.h.objs[p].kind.KProto? && Live(g, c) && r == BarrierProto(g, p, c)
    ensures Inv(r) && r.h == g.h && Live(r, c)
    ensures r.phase.Propagate? ==> !IsBlack(r, p) || !IsWhite(r, c)
  {
    if IsBlack(g, p) {
      InvGivesBut(g, p);
      if p in g.cache {
        ProtoBack(g, r, p);
      } else if IsWhite(g, c) {
        if g.phase.Propagate? {
          BlackCovered(g, p);
          ForwardColored(g, r, p, c);
        } else {
          ProtoForwardSweep(g, r, p, c);
        }
      }
      assert Live(r, c);
    }
  }

  lemma ForwardColored(g: G, r: G, p: Id, c: Id)
    requires Inv(g) && g.phase.Propagate? && c in g.h.objs && IsWhite(g, c) && Covered(g, p) && r == ReallyMark(g, c)
    ensures Inv(r) && r.h == g.h && !IsWhite(r, c) && Live(r, c)
  {
    hide Wf, Marks;
    ReallyMarkMarks(g, c);
    MarksKeeps(g, r);
    MarksMain(g, r);
    RootsIn(g);
  }

  lemma RootsIn(g: G)
    requires Colored(g)
    ensures g.h.mainthread in g.h.objs
  {
    assert Root(g.h, g.h.mainthread);
  }

  lemma MarksMain(g: G, r: G)
    requires Marks(g, r)
    ensures r.phase == g.phase && r.h == g.h && r.white == g.white
    ensures forall i :: !IsWhite(g, i) ==> !IsWhite(r, i)
    ensures forall i :: IsWhite(r, i) ==> r.mark[i] == g.mark[i]
  {
  }

  lemma ProtoForwardSweep(g: G, r: G, p: Id, c: Id)
    requires Inv(g) && !g.phase.Propagate? && Live(g, p) && IsBlack(g, p) && c in g.h.objs && IsWhite(g, c) && Live(g, c) && r == BarrierForward(g, p, c)
    ensures Inv(r) && r.h == g.h && !IsBlack(r, p) && Live(r, c)
  {
    hide Wf, SweepColors;
    if g.phase.Pause? {
      NoBlackAtRest(g, p);
    } else {
      WhitenSweeps(g, r, p);
    }
  }

  lemma ProtoBack(g: G, r: G, p: Id)
    requires Inv(g) && InvBut(g, p) && p in g.h.objs && g.h.objs[p].kind.KProto? && IsBlack(g, p) && r == BarrierBack(g, p)
    ensures Inv(r) && r.h == g.h && !IsBlack(r, p) && forall i :: Live(g, i) <==> Live(r, i)
  {
    hide Wf, SweepColors, ColoredBut, Colored;
    if g.phase.Pause? {
      NoBlackAtRest(g, p);
    } else if g.phase.Propagate? {
      BackMarks(g, r, p);
    } else {
      BackSweep(g, r, p);
    }
  }

  lemma SetCacheInv(g: G, r: G, p: Id, c: Id)
    requires Inv(g) && Live(g, p) && g.h.objs[p].kind.KProto? && Live(g, c) && r == SetCache(g, p, c)
    ensures Inv(r)
  {
    hide Inv;
    var g1 := BarrierProto(g, p, c);
    BarrierProtoInv(g, g1, p, c);
    CacheInv(g1, r, p, c);
  }

  // ----- capturing and closing upvalues -----

  lemma AddOpenGrows(g: G, r: G, u: Id, t: Id, level: nat, pos: nat)
    requires MarksOk(g) && LiveClosed(g) && u !in g.h.objs && Live(g, t) && g.h.objs[t].home.Own? && level < |g.h.objs[t].slots|
    requires pos <= |g.h.objs[t].openupval|
    requires r == g.(h := AddOpenH(g.h, u, t, level, pos), mark := g.mark[u := White(g.white)])
    requires forall k :: k in g.h.objs ==> Vals(r.h, k) == Vals(g.h, k)
    requires Vals(r.h, u) == [g.h.objs[t].slots[level]]
    ensures Grows(g, r, u) && HeadGrowth(g, r)
  {
    hide Edge, Vals, NewEdgeOk;
    assert u !in g.cache;
    forall k: Id, j: Id | Edge(r.h, r.cache, k, j)
      ensures (k in g.h.objs && Edge(g.h, g.cache, k, j)) || NewEdgeOk(g, r, u, k, j)
    {
      AddOpenEdge(g, r, u, t, level, k, j);
    }
    forall k | Root(r.h, k)
      ensures Live(r, k)
    {
      assert Root(g.h, k) && Live(g, k);
    }
  }

  lemma AddOpenEdge(g: G, r: G, u: Id, t: Id, level: nat, k: Id, j: Id)
    requires MarksOk(g) && LiveClosed(g) && u !in g.h.objs && Live(g, t) && g.h.objs[t].home.Own? && level < |g.h.objs[t].slots|
    requires r.h.objs.Keys == g.h.objs.Keys + {u} && r.cache == g.cache && r.white == g.white && r.mark == g.mark[u := White(g.white)]
    requires forall i :: i in g.h.objs ==> r.h.objs[i].fixed == g.h.objs[i].fixed
    requires k in g.h.objs ==> Vals(r.h, k) == Vals(g.h, k)
    requires Vals(r.h, u) == [g.h.objs[t].slots[level]] && Edge(r.h, r.cache, k, j)
    ensures (k in g.h.objs && Edge(g.h, g.cache, k, j)) || NewEdgeOk(g, r, u, k, j)
  {
    if k == u {
      assert Some(j) in Vals(g.h, t);
      assert Edge(g.h, g.cache, t, j);
      assert Live(g, j);
    }
  }

  /** `luaF_findupval` keeps the invariant and returns a live upvalue of that slot. */
  lemma FindUpvalInv(g: G, level: nat, u: Id)
    requires Inv(g) && u !in g.h.objs && g.h.running in g.h.objs
    requires level < |g.h.objs[g.h.running].slots|
    ensures var (r, w) := FindUpval(g, level, u);
      && Inv(r) && Live(r, w) && r.h.objs[w].home == Slot(g.h.running, level)
      && (forall i :: Live(g, i) ==> Live(r, i) && r.mark[i] == g.mark[i] && r.h.objs[i].kind == g.h.objs[i].kind)
      && r.h.running == g.h.running && r.white == g.white
  {
    hide Inv, InvBut, Wf, Grows, HeadGrowth, MarksOk, LiveClosed;
    var t := g.h.running;
    var (r, w) := FindUpval(g, level, u);
    RunningFacts(g);
    InvParts(g);
    SameKeys(g);
    if FindOpen(g.h, g.h.objs[t].openupval, t, level).Some? {
      assert OpenAt(g.h, w, t);
      NoCache(g, w);
      assert forall j: Id :: Edge(g.h, g.cache, w, j) ==> Live(g, j);
      ResurrectInv(g, r, w);
    } else {
      NewUpvalInv(g, r, u, level);
    }
  }

  lemma NewUpvalInv(g: G, r: G, u: Id, level: nat)
    requires Inv(g) && u !in g.h.objs && g.h.running in g.h.objs && level < |g.h.objs[g.h.running].slots|
    requires FindOpen(g.h, g.h.objs[g.h.running].openupval, g.h.running, level).None? && r == FindUpval(g, level, u).0
    ensures Inv(r)
  {
    hide Inv, InvBut, Wf, Grows, HeadGrowth, MarksOk, LiveClosed, Position, FindOpen;
    var t := g.h.running;
    var pos := Position(g.h, g.h.objs[t].openupval, level);
    RunningFacts(g);
    InvParts(g);
    AddOpenWf(g.h, r.h, u, t, level, pos);
    AddOpenGrows(g, r, u, t, level, pos);
    GrowsInv(g, r, u);
    InvButNotBlack(r, u);
  }

  lemma SameKeys(g: G)
    requires MarksOk(g)
    ensures g.mark.Keys == g.h.objs.Keys
  {
  }

  lemma NoCache(g: G, w: Id)
    requires MarksOk(g) && Wf(g.h) && w in g.h.objs && g.h.objs[w].home.Slot?
    ensures w !in g.cache
  {
    assert Shape(g.h.objs[w]);
  }

  lemma CloseHeap(g: G, g1: G, t: Id, u: Id)
    requires MarksOk(g) && LiveClosed(g) && SameVals(g.h, g1.h) && g1.h.objs.Keys == g.h.objs.Keys
    requires t in g.h.objs && g.h.objs[t].openupval != [] && u == g.h.objs[t].openupval[0] && u in g.h.objs
    requires OpenAt(g.h, u, t) && Shape(g.h.objs[u])
    requires g1 == g.(h := CloseH(g.h, t))
    ensures MarksOk(g1) && LiveClosed(g1)
    ensures forall i, j :: Edge(g1.h, g1.cache, i, j) <==> Edge(g.h, g.cache, i, j)
  {
    forall i, j
      ensures Edge(g1.h, g1.cache, i, j) <==> Edge(g.h, g.cache, i, j)
    {
    }
    assert forall i :: Live(g1, i) <==> Live(g, i);
    forall i | Root(g1.h, i)
      ensures Live(g1, i)
    {
      assert Root(g.h, i);
    }
  }

  /** Edges and colors are those of `g`, except that `u` may have turned black. */
  lemma RecolorColored(g: G, r: G, u: Id)
    requires Colored(g) && Shapes(r.h) && MarksOk(r) && GrayListed(r) && r.white == g.white
    requires r.h.objs.Keys == g.h.objs.Keys && forall i :: Live(r, i) <==> Live(g, i)
    requires forall i, j :: Edge(r.h, r.cache, i, j) <==> Edge(g.h, g.cache, i, j)
    requires forall i :: Root(r.h, i) ==> Root(g.h, i)
    requires r.mark == g.mark || (IsGray(g, u) && r.mark == g.mark[u := Black])
    ensures ColoredBut(r, u) && (r.mark == g.mark ==> Colored(r))
  {
    hide GrayListed, Shapes, MarksOk, Edge, Root;
    forall i, j | Live(r, i) && Edge(r.h, r.cache, i, j)
      ensures Live(r, j)
    {
      assert Edge(g.h, g.cache, i, j);
    }
  }

  lemma CloseColored(g: G, g1: G, t: Id, u: Id)
    requires Colored(g) && Shapes(g1.h) && SameVals(g.h, g1.h) && g1.h.objs.Keys == g.h.objs.Keys
    requires t in g.h.objs && g.h.objs[t].openupval != [] && u == g.h.objs[t].openupval[0] && u in g.h.objs
    requires OpenAt(g.h, u, t) && Shape(g.h.objs[u])
    requires g1 == g.(h := CloseH(g.h, t))
    ensures IsGray(g, u) ==> ColoredBut(SetMark(g1, u, Black), u)
    ensures !IsGray(g, u) ==> Colored(g1)
  {
    CloseHeap(g, g1, t, u);
    CloseGray(g, g1, t, u);
    CloseMarks(g, g1, t, u);
    hide Colored, ColoredBut, GrayListed, MarksOk, LiveClosed, Shapes, Edge;
    RecolorColored(g, if IsGray(g, u) then SetMark(g1, u, Black) else g1, u);
  }

  lemma CloseMarks(g: G, g1: G, t: Id, u: Id)
    requires MarksOk(g1) && SameVals(g.h, g1.h) && g1.h.objs.Keys == g.h.objs.Keys && u in g1.h.objs
    requires g1.mark == g.mark && g1.white == g.white && g1.h.objs[u].home.Own? && !g1.h.objs[u].kind.KThread?
    ensures MarksOk(SetMark(g1, u, Black))
    ensures forall i :: Live(g1, i) <==> Live(g, i)
    ensures IsGray(g, u) ==> forall i :: Live(SetMark(g1, u, Black), i) <==> Live(g, i)
    ensures forall i :: Root(g1.h, i) ==> Root(g.h, i)
  {
  }

  lemma CloseGray(g: G, g1: G, t: Id, u: Id)
    requires GrayListed(g) && t in g.h.objs && g.h.objs[t].openupval != [] && u == g.h.objs[t].openupval[0] && u in g.h.objs
    requires g.h.objs[u].kind.KUpval? && g1 == g.(h := CloseH(g.h, t)) && g1.h.objs.Keys == g.h.objs.Keys
    ensures IsGray(g, u) ==> GrayListed(SetMark(g1, u, Black))
    ensures !IsGray(g, u) ==> GrayListed(g1)
  {
    assert u !in g.gray + g.grayagain;
  }

  lemma CloseHeadMark(g: G, r: G, t: Id, u: Id)
    requires Marking(g) && !IsWhite(g, g.h.mainthread) && g.phase.Propagate?
    requires t in g.h.objs && g.h.objs[t].openupval != [] && u == g.h.objs[t].openupval[0] && u in g.h.objs
    requires r == CloseHead(g, t)
    ensures Marking(r) && !IsWhite(r, r.h.mainthread) && r.phase == g.phase
  {
    hide Wf, Colored, ColoredBut, Marks;
    var g1 := g.(h := CloseH(g.h, t));
    OpenFacts(g.h, t, 0);
    CloseWf(g.h, g1.h, t, u);
    ShapesOf(g1.h);
    CloseColored(g, g1, t, u);
    NotDead(g, u);
    if IsGray(g, u) {
      var g2 := SetMark(g1, u, Black);
      ButReady(g2, u);
      MarkAllMarks(g2, Vals(g1.h, u));
      assert r == MarkAll(g2, Vals(g1.h, u));
      MarksKeepsBut(g2, r, u);
      MarksMain(g2, r);
      MarksCache(g2, r);
      CoveredColored(g2, r, u);
    }
  }

  lemma ShapesOf(h: Heap)
    requires Wf(h)
    ensures Shapes(h)
  {
  }

  lemma NotDead(g: G, u: Id)
    requires Colored(g)
    ensures !Dead(g, u)
  {
  }

  lemma MarksCache(g: G, r: G)
    requires Marks(g, r)
    ensures r.cache == g.cache
  {
  }

  lemma CoveredColored(g: G, r: G, u: Id)
    requires ColoredBut(r, u) && r.h == g.h && r.cache == g.cache && u in r.h.objs && !r.h.objs[u].kind.KProto?
    requires forall j :: Some(j) in Vals(g.h, u) ==> !IsWhite(r, j)
    ensures Colored(r)
  {
    hide LiveClosed, NoOtherWhite, GrayListed;
    assert u !in r.cache;
    assert Covered(r, u);
    ButCovered(r, u);
  }

  lemma CloseHeadRest(g: G, r: G, t: Id, u: Id)
    requires Resting(g) && g.phase.Pause?
    requires t in g.h.objs && g.h.objs[t].openupval != [] && u == g.h.objs[t].openupval[0] && u in g.h.objs
    requires r == CloseHead(g, t)
    ensures Resting(r) && r.phase == g.phase
  {
    hide Wf;
    var g1 := g.(h := CloseH(g.h, t));
    OpenFacts(g.h, t, 0);
    CloseWf(g.h, g1.h, t, u);
    CloseHeap(g, g1, t, u);
    assert !Dead(g, u) && !IsGray(g, u);
  }

  /** Closing an upvalue keeps the invariant in every phase. */
  lemma CloseHeadInv(g: G, r: G, t: Id)
    requires Inv(g) && t in g.h.objs && g.h.objs[t].openupval != [] && g.h.objs[t].openupval[0] in g.h.objs
    requires r == CloseHead(g, t)
    ensures Inv(r)
  {
    hide Wf, Colored, SweepColors, Sweeps;
    var u := g.h.objs[t].openupval[0];
    if g.phase.Pause? {
      CloseHeadRest(g, r, t, u);
    } else if g.phase.Propagate? {
      CloseHeadMark(g, r, t, u);
    } else {
      CloseHeadSweeps(g, r, t);
      WhiteBit(g, r);
    }
  }

  // ----- creating a closure -----

  /** Where a new closure gets an upvalue from: a slot of the running thread (`newUpval`
      is the address of a new upvalue), or the enclosing closure. */
  datatype Capture = InStack(level: nat, newUpval: Id) | Enclosing(u: Id)

  /** Append a value to a new object, without a barrier. */
  function Fill(g: G, o: Id, v: Option<Id>): G
    requires o in g.h.objs
  {
    g.(h := SetSlotsH(g.h, o, g.h.objs[o].slots + [v]))
  }

  predicate CaptureFits(g: G, c: Capture) {
    c.InStack? ==>
      && g.h.running in g.h.objs && c.newUpval !in g.h.objs
      && c.level < |g.h.objs[g.h.running].slots|
  }

  function CaptureOne(g: G, cl: Id, c: Capture): G
    requires CaptureFits(g, c) && cl in g.h.objs
  {
    match c
    case InStack(level, u) =>
      var (g1, w) := FindUpval(g, level, u);
      if cl in g1.h.objs then Fill(g1, cl, Some(w)) else g1
    case Enclosing(w) => Fill(g, cl, Some(w))
  }

  ghost predicate CapturesFit(g: G, cl: Id, cs: seq<Capture>)
    decreases |cs|
  {
    cs == [] || (CaptureFits(g, cs[0]) && cl in g.h.objs && CapturesFit(CaptureOne(g, cl, cs[0]), cl, cs[1..]))
  }

  function CaptureAll(g: G, cl: Id, cs: seq<Capture>): G
    requires CapturesFit(g, cl, cs)
    decreases |cs|
  {
    if cs == [] then g else CaptureAll(CaptureOne(g, cl, cs[0]), cl, cs[1..])
  }

  lemma FillInv(g: G, r: G, o: Id, v: Option<Id>)
    requires Inv(g) && Live(g, o) && g.h.objs[o].kind.KLClosure? && (v.Some? ==> Live(g, v.value)) && !IsBlack(g, o)
    requires r == Fill(g, o, v)
    ensures Inv(r)
    ensures forall i :: Live(g, i) ==> Live(r, i) && r.h.objs[i].kind == g.h.objs[i].kind && (IsBlack(r, i) <==> IsBlack(g, i))
  {
    hide Inv, InvBut, Wf;
    InvParts(g);
    WfParts(g.h);
    assert Shape(g.h.objs[o]);
    var s := g.h.objs[o].slots + [v];
    assert FitSlots(g.h, o, s);
    SlotsInv(g, r, o, s);
    InvButNotBlack(r, o);
  }

  ghost predicate Enclosed(g: G, cs: seq<Capture>) {
    forall k :: 0 <= k < |cs| && cs[k].Enclosing? ==> Live(g, cs[k].u)
  }

  lemma CaptureOneInv(g: G, r: G, cl: Id, c: Capture)
    requires Inv(g) && Live(g, cl) && g.h.objs[cl].kind.KLClosure? && !IsBlack(g, cl)
    requires CaptureFits(g, c) && (c.Enclosing? ==> Live(g, c.u)) && r == CaptureOne(g, cl, c)
    ensures Inv(r) && !IsBlack(r, cl)
    ensures forall i :: Live(g, i) ==> Live(r, i) && r.h.objs[i].kind == g.h.objs[i].kind
  {
    hide Inv, CaptureFits;
    match c
    case InStack(level, u) =>
      Fits(g, c);
      FindUpvalInv(g, level, u);
      var (g1, w) := FindUpval(g, level, u);
      FillInv(g1, r, cl, Some(w));
    case Enclosing(w) => FillInv(g, r, cl, Some(w));
  }

  lemma Fits(g: G, c: Capture)
    requires CaptureFits(g, c) && c.InStack?
    ensures g.h.running in g.h.objs && c.newUpval !in g.h.objs
    ensures c.level < |g.h.objs[g.h.running].slots|
  {
  }

  lemma {:induction false} CaptureAllInv(g: G, r: G, cl: Id, cs: seq<Capture>)
    requires Inv(g) && Live(g, cl) && g.h.objs[cl].kind.KLClosure? && !IsBlack(g, cl)
    requires CapturesFit(g, cl, cs) && Enclosed(g, cs) && r == CaptureAll(g, cl, cs)
    ensures Inv(r) && forall i :: Live(g, i) ==> Live(r, i) && r.h.objs[i].kind == g.h.objs[i].kind
    decreases |cs|
  {
    hide Inv, CaptureFits;
    if cs != [] {
      var g1 := CaptureOne(g, cl, cs[0]);
      CaptureOneInv(g, g1, cl, cs[0]);
      CaptureAllInv(g1, r, cl, cs[1..]);
    }
  }

  /** `pushclosure`: a new closure is anchored, gets its prototype and its upvalues, and
      becomes the cache of the prototype. */
  function NewClosure(g: G, cl: Id, p: Id): G
    requires g.h.running in g.h.objs
  {
    var g1 := NewObj(g, cl, KLClosure, 0, 0);
    if cl in g1.h.objs then Fill(g1, cl, Some(p)) else g1
  }

  function PushClosure(g: G, cl: Id, p: Id, cs: seq<Capture>): G
    requires g.h.running in g.h.objs && CapturesFit(NewClosure(g, cl, p), cl, cs)
  {
    var g2 := CaptureAll(NewClosure(g, cl, p), cl, cs);
    if p in g2.h.objs && cl in g2.h.objs then SetCache(g2, p, cl) else g2
  }

  lemma NewClosureInv(g: G, r: G, cl: Id, p: Id)
    requires Inv(g) && cl !in g.h.objs && Live(g, p) && g.h.objs[p].kind.KProto?
    requires g.h.running in g.h.objs && r == NewClosure(g, cl, p)
    ensures Inv(r) && Live(r, cl) && r.h.objs[cl].kind.KLClosure? && !IsBlack(r, cl)
    ensures forall i :: Live(g, i) ==> Live(r, i) && r.h.objs[i].kind == g.h.objs[i].kind
  {
    hide Inv;
    RunningFacts(g);
    assert cl != g.h.running;
    var g1 := NewObj(g, cl, KLClosure, 0, 0);
    NewObjInv(g, g1, cl, KLClosure, 0, 0);
    assert Live(g1, cl) && g1.mark[cl] == White(g1.white);
    InvMarks(g);
    assert forall i :: Live(g, i) ==> Live(g1, i) && g1.h.objs[i].kind == g.h.objs[i].kind;
    FillInv(g1, r, cl, Some(p));
  }

  lemma InvMarks(g: G)
    requires Inv(g)
    ensures g.mark.Keys == g.h.objs.Keys
  {
  }

  lemma PushClosureInv(g: G, r: G, cl: Id, p: Id, cs: seq<Capture>)
    requires Inv(g) && cl !in g.h.objs && Live(g, p) && g.h.objs[p].kind.KProto? && g.h.running in g.h.objs
    requires CapturesFit(NewClosure(g, cl, p), cl, cs) && Enclosed(g, cs) && r == PushClosure(g, cl, p, cs)
    ensures Inv(r)
  {
    hide Inv, CapturesFit;
    var g1 := NewClosure(g, cl, p);
    NewClosureInv(g, g1, cl, p);
    var g2 := CaptureAll(g1, cl, cs);
    CaptureAllInv(g1, g2, cl, cs);
    SetCacheInv(g2, r, p, cl);
  }

  // ----- what the operations that create and push do -----

  lemma StackSets(g: G, r: G, t: Id, s: seq<Option<Id>>)
    requires Inv(g) && t in g.h.objs && g.h.objs[t].kind.KThread? && FitSlots(g.h, t, s) && r == SetStack(g, t, s)
    ensures StackIs(g.h, r.h, t, s)
  {
    hide Inv, Wf, StackIs;
    InvParts(g);
    WfParts(g.h);
    assert Shape(g.h.objs[t]);
    StackIsSet(g.h, r.h, t, s);
  }

  lemma PushPushes(g: G, r: G, v: Option<Id>)
    requires Inv(g) && g.h.running in g.h.objs && r == Push(g, v)
    ensures OnTop(g.h, r.h, v)
  {
    hide Inv, Wf, OnTop;
    InvParts(g);
    WfParts(g.h);
    RunningFacts(g);
    IsOnTop(g.h, r.h, v);
  }

  lemma InternPushes(g: G, r: G, i: Id)
    requires Inv(g) && g.h.running in g.h.objs && r == Intern(g, i)
    ensures OnTop(g.h, r.h, Some(i))
  {
    hide Inv, OnTop;
    PushPushes(g, Push(g, Some(i)), Some(i));
  }

  lemma NewObjCreates(g: G, r: G, i: Id, kind: Kind, n: nat, b: nat)
    requires Inv(g) && i !in g.h.objs && Creatable(kind, n) && (kind.KShrStr? ==> b < |g.h.strt|)
    requires g.h.running in g.h.objs && r == NewObj(g, i, kind, n, b)
    ensures Created(g.h, r.h, i, kind, n)
  {
    hide Inv, Wf, OnTop, Created;
    var g1, o := Create(g, i, kind, n, b), Obj(kind, false, Nils(n), Own, []);
    CreateInv(g, g1, i, kind, n, b);
    CreateShows(g, g1, i, kind, n, b);
    InvParts(g1);
    WfParts(g1.h);
    PushPushes(g1, r, Some(i));
    IsCreated(g.h, g1.h, r.h, i, o);
  }

  lemma CreateShows(g: G, r: G, i: Id, kind: Kind, n: nat, b: nat)
    requires Inv(g) && i !in g.h.objs && Creatable(kind, n) && (kind.KShrStr? ==> b < |g.h.strt|) && r == Create(g, i, kind, n, b)
    ensures SameRoot(g.h, r.h) && OthersShow(g.h, r.h, {})
  {
    hide Inv, Wf, MarksOk, LiveClosed;
    InvParts(g);
    var o := Obj(kind, false, Nils(n), Own, []);
    if kind.KShrStr? {
      AddStringWf(g.h, r.h, i, o, b);
    } else {
      AddListedWf(g.h, r.h, i, o);
    }
  }

  // ----- what a new closure holds -----

  /** The value is the upvalue that the capture asks for: the one of the enclosing closure,
      or the open upvalue of that slot of thread `t`. */
  predicate Caught(h: Heap, v: Option<Id>, c: Capture, t: Id) {
    match c
    case Enclosing(u) => v == Some(u)
    case InStack(level, _) => v.Some? && v.value in h.objs && h.objs[v.value].home == Slot(t, level)
  }

  /** Objects may have been added; those that were there are what they were. */
  ghost predicate Extended(h: Heap, r: Heap, except: set<Id>) {
    && SameRoot(h, r) && OthersShow(h, r, except)
    && forall i :: i in h.objs ==> i in r.objs && r.objs[i].kind == h.objs[i].kind && r.objs[i].fixed == h.objs[i].fixed && r.objs[i].home == h.objs[i].home
  }

  /** The closure `cl` has got the upvalues of the captures, behind what it had. */
  ghost predicate GotUpvals(h: Heap, r: Heap, cl: Id, cs: seq<Capture>) {
    && Extended(h, r, {cl}) && cl in h.objs && h.objs[cl].home.Own? && |Vals(r, cl)| == |Vals(h, cl)| + |cs|
    && (forall k :: 0 <= k < |Vals(h, cl)| ==> Vals(r, cl)[k] == Vals(h, cl)[k])
    && forall k :: 0 <= k < |cs| ==> Caught(r, Vals(r, cl)[|Vals(h, cl)| + k], cs[k], h.running)
  }

  /** The new closure `cl` holds the prototype and then, in order, the upvalues of its
      captures; it is on the top of the stack. */
  ghost predicate ClosureMade(h: Heap, r: Heap, cl: Id, p: Id, cs: seq<Capture>) {
    && cl !in h.objs && cl in r.objs && r.objs[cl].kind.KLClosure? && |Vals(r, cl)| == 1 + |cs| && Vals(r, cl)[0] == Some(p)
    && (forall k :: 0 <= k < |cs| ==> Caught(r, Vals(r, cl)[1 + k], cs[k], h.running))
    && h.running in h.objs && h.running in r.objs && Vals(r, h.running) == Vals(h, h.running) + [Some(cl)]
    && Extended(h, r, {h.running})
  }

  lemma FindUpvalShows(g: G, level: nat, u: Id)
    requires Inv(g) && u !in g.h.objs && g.h.running in g.h.objs && level < |g.h.objs[g.h.running].slots|
    ensures var (r, w) := FindUpval(g, level, u);
      Extended(g.h, r.h, {}) && w in r.h.objs && r.h.objs[w].home == Slot(g.h.running, level)
  {
    hide Inv, Wf, MarksOk, LiveClosed, Position, FindOpen, Shape;
    var t := g.h.running;
    InvParts(g);
    RunningFacts(g);
    if FindOpen(g.h, g.h.objs[t].openupval, t, level).None? {
      AddOpenWf(g.h, FindUpval(g, level, u).0.h, u, t, level, Position(g.h, g.h.objs[t].openupval, level));
    }
  }

  lemma FillFills(g: G, r: G, o: Id, v: Option<Id>)
    requires Inv(g) && o in g.h.objs && !g.h.objs[o].kind.KThread? && g.h.objs[o].home.Own? && r == Fill(g, o, v)
    ensures Stored(g.h, r.h, o, |Vals(g.h, o)|, v)
  {
    hide Inv, Wf, Stored;
    InvParts(g);
    WfParts(g.h);
    StoredAt(g.h, r.h, o, |g.h.objs[o].slots|, v);
  }

  /** Storing one more value behind those of a closure. */
  lemma GotOne(h: Heap, h1: Heap, r: Heap, cl: Id, c: Capture, v: Option<Id>)
    requires Extended(h, h1, {}) && cl in h.objs && h.objs[cl].home.Own? && Stored(h1, r, cl, |Vals(h1, cl)|, v) && Caught(h1, v, c, h.running)
    ensures GotUpvals(h, r, cl, [c])
  {
    forall i | i in h.objs && i != cl
      ensures Vals(r, i) == Vals(h, i)
    {
      assert Vals(h1, i) == Vals(h, i);
    }
  }

  lemma CaptureOneCatches(g: G, r: G, cl: Id, c: Capture)
    requires Inv(g) && Live(g, cl) && g.h.objs[cl].kind.KLClosure? && g.h.objs[cl].home.Own?
    requires CaptureFits(g, c) && r == CaptureOne(g, cl, c)
    ensures GotUpvals(g.h, r.h, cl, [c])
  {
    hide Inv, CaptureFits, Stored, GotUpvals, FindUpval;
    match c
    case InStack(level, u) =>
      Fits(g, c);
      FindUpvalInv(g, level, u);
      FindUpvalShows(g, level, u);
      var (g1, w) := FindUpval(g, level, u);
      FillFills(g1, r, cl, Some(w));
      GotOne(g.h, g1.h, r.h, cl, c, Some(w));
    case Enclosing(w) =>
      FillFills(g, r, cl, Some(w));
      GotOne(g.h, g.h, r.h, cl, c, Some(w));
  }

  lemma GotMore(h: Heap, h1: Heap, r: Heap, cl: Id, cs: seq<Capture>)
    requires cs != [] && GotUpvals(h, h1, cl, [cs[0]]) && GotUpvals(h1, r, cl, cs[1..])
    ensures GotUpvals(h, r, cl, cs)
  {
    var n := |Vals(h, cl)|;
    forall k | 0 <= k < |cs|
      ensures Caught(r, Vals(r, cl)[n + k], cs[k], h.running)
    {
      if k == 0 {
        assert Caught(h1, Vals(h1, cl)[n + 0], [cs[0]][0], h.running);
      } else {
        assert Caught(r, Vals(r, cl)[|Vals(h1, cl)| + (k - 1)], cs[1..][k - 1], h1.running);
      }
    }
    forall i | i in h.objs && i != cl
      ensures Vals(r, i) == Vals(h, i)
    {
      assert Vals(h1, i) == Vals(h, i);
    }
  }

  lemma {:induction false} CaptureAllCatches(g: G, r: G, cl: Id, cs: seq<Capture>)
    requires Inv(g) && Live(g, cl) && g.h.objs[cl].kind.KLClosure? && g.h.objs[cl].home.Own? && !IsBlack(g, cl)
    requires CapturesFit(g, cl, cs) && Enclosed(g, cs) && r == CaptureAll(g, cl, cs)
    ensures GotUpvals(g.h, r.h, cl, cs)
    decreases |cs|
  {
    if cs != [] {
      hide Inv, CaptureFits, GotUpvals, CaptureOne;
      var g1 := CaptureOne(g, cl, cs[0]);
      CaptureOneInv(g, g1, cl, cs[0]);
      CaptureOneCatches(g, g1, cl, cs[0]);
      GotHome(g.h, g1.h, cl, [cs[0]]);
      CaptureAllCatches(g1, r, cl, cs[1..]);
      GotMore(g.h, g1.h, r.h, cl, cs);
    }
  }

  lemma GotHome(h: Heap, r: Heap, cl: Id, cs: seq<Capture>)
    requires GotUpvals(h, r, cl, cs)
    ensures cl in r.objs && r.objs[cl].home.Own?
  {
  }

  lemma CacheHeap(g: G, p: Id, c: Id)
    requires p in g.h.objs && c in g.h.objs
    ensures SetCache(g, p, c).h == g.h && p in SetCache(g, p, c).cache && SetCache(g, p, c).cache[p] == c
  {
    hide ReallyMark;
    assert IsWhite(g, c) ==> ReallyMark(g, c).h == g.h;
  }

  /** The new closure with its prototype, before it gets its upvalues. */
  ghost predicate Begun(h: Heap, h2: Heap, cl: Id, p: Id) {
    && cl !in h.objs && cl in h2.objs && h2.objs[cl].kind.KLClosure? && Vals(h2, cl) == [Some(p)]
    && h.running in h.objs && h.running in h2.objs && Vals(h2, h.running) == Vals(h, h.running) + [Some(cl)]
    && Extended(h, h2, {h.running})
  }

  lemma IsBegun(h: Heap, h1: Heap, h2: Heap, cl: Id, p: Id)
    requires Created(h, h1, cl, KLClosure, 0) && Stored(h1, h2, cl, 0, Some(p))
    requires forall i :: i in h.objs ==> h1.objs[i].home == h.objs[i].home
    ensures Begun(h, h2, cl, p)
  {
    forall i | i in h.objs && i != h.running
      ensures Vals(h2, i) == Vals(h, i)
    {
      assert Vals(h1, i) == Vals(h, i);
    }
  }

  lemma ClosureHolds(h: Heap, h2: Heap, r: Heap, cl: Id, p: Id, cs: seq<Capture>)
    requires Begun(h, h2, cl, p) && GotUpvals(h2, r, cl, cs)
    ensures ClosureMade(h, r, cl, p, cs)
  {
    forall k | 0 <= k < |cs|
      ensures Caught(r, Vals(r, cl)[1 + k], cs[k], h.running)
    {
      assert Caught(r, Vals(r, cl)[|Vals(h2, cl)| + k], cs[k], h2.running);
    }
    forall i | i in h.objs && i != h.running
      ensures Vals(r, i) == Vals(h, i)
    {
      assert Vals(h2, i) == Vals(h, i);
    }
  }

  /** `pushclosure`: what the new closure holds, and that the prototype remembers it. */
  lemma PushClosureHolds(g: G, r: G, cl: Id, p: Id, cs: seq<Capture>)
    requires Inv(g) && cl !in g.h.objs && Live(g, p) && g.h.objs[p].kind.KProto? && g.h.running in g.h.objs
    requires CapturesFit(NewClosure(g, cl, p), cl, cs) && Enclosed(g, cs) && r == PushClosure(g, cl, p, cs)
    ensures ClosureMade(g.h, r.h, cl, p, cs) && p in r.cache && r.cache[p] == cl
  {
    hide Inv, CapturesFit, Created, Stored, Begun, GotUpvals, ClosureMade, SetCache, CaptureAll;
    var g0, g1 := NewObj(g, cl, KLClosure, 0, 0), NewClosure(g, cl, p);
    NewObjCreates(g, g0, cl, KLClosure, 0, 0);
    NewObjInv(g, g0, cl, KLClosure, 0, 0);
    NewClosureInv(g, g1, cl, p);
    FillFills(g0, g1, cl, Some(p));
    var g2 := CaptureAll(g1, cl, cs);
    CaptureAllCatches(g1, g2, cl, cs);
    CaptureAllInv(g1, g2, cl, cs);
    CacheHeap(g2, p, cl);
    IsBegun(g.h, g0.h, g1.h, cl, p);
    ClosureHolds(g.h, g1.h, r.h, cl, p, cs);
  }

  // ----- the roots -----

  /** `luaS_fix`: the string will never be collected. */
  function Fix(g: G, i: Id): G
    requires i in g.h.objs
  {
    g.(h := g.h.(objs := g.h.objs[i := g.h.objs[i].(fixed := true)]))
  }

  lemma FixGrows(g: G, r: G, i: Id)
    requires MarksOk(g) && LiveClosed(g) && Live(g, i) && r == Fix(g, i)
    ensures Grows(g, r, g.h.running) && HeadGrowth(g, r)
  {
    forall k, j | Edge(r.h, r.cache, k, j)
      ensures Edge(g.h, g.cache, k, j)
    {
      assert Vals(r.h, k) == Vals(g.h, k);
    }
    forall k | Root(r.h, k)
      ensures Live(r, k)
    {
      assert Root(g.h, k);
    }
  }

  lemma FixWf(h: Heap, r: Heap, i: Id)
    requires Wf(h) && i in h.objs && IsString(h.objs[i].kind) && r == h.(objs := h.objs[i := h.objs[i].(fixed := true)])
    ensures Wf(r)
  {
    FixLists(h, r, i);
    FixOpen(h, r, i);
    FixSorted(h, r, i);
  }

  lemma FixSorted(h: Heap, r: Heap, i: Id)
    requires OpenOk(h) && OpenSorted(h) && OpenOk(r) && i in h.objs && r == h.(objs := h.objs[i := h.objs[i].(fixed := true)])
    ensures OpenSorted(r)
  {
    hide NoDup, Descends;
    SortedKept(h, r);
  }

  lemma FixLists(h: Heap, r: Heap, i: Id)
    requires Shapes(h) && AllListOk(h) && StrListOk(h) && Owned(h) && ThreadsOk(h) && UvheadOk(h)
    requires i in h.objs && IsString(h.objs[i].kind) && r == h.(objs := h.objs[i := h.objs[i].(fixed := true)])
    ensures Shapes(r) && AllListOk(r) && StrListOk(r) && Owned(r) && ThreadsOk(r) && UvheadOk(r)
  {
    hide NoDup, AllListOk, StrListOk, Owned, UvheadOk;
    FixObjects(h, r, i);
    FixBuckets(h, r, i);
  }

  lemma FixObjects(h: Heap, r: Heap, i: Id)
    requires AllListOk(h) && UvheadOk(h) && i in h.objs && r == h.(objs := h.objs[i := h.objs[i].(fixed := true)])
    ensures AllListOk(r) && UvheadOk(r)
  {
    hide NoDup;
  }

  lemma FixBuckets(h: Heap, r: Heap, i: Id)
    requires StrListOk(h) && Owned(h) && i in h.objs && r == h.(objs := h.objs[i := h.objs[i].(fixed := true)])
    ensures StrListOk(r) && Owned(r)
  {
    hide NoDup;
    forall k | k in r.objs && InBucket(h, k)
      ensures InBucket(r, k)
    {
    }
  }

  lemma FixOpen(h: Heap, r: Heap, i: Id)
    requires OpenOk(h) && i in h.objs && r == h.(objs := h.objs[i := h.objs[i].(fixed := true)])
    ensures OpenOk(r)
  {
    hide NoDup;
    forall t, u | t in r.objs && u in r.objs[t].openupval
      ensures OpenAt(r, u, t)
    {
      assert OpenAt(h, u, t);
    }
  }

  /** A live string may be fixed in every phase. */
  lemma FixInv(g: G, r: G, i: Id)
    requires Inv(g) && Live(g, i) && IsString(g.h.objs[i].kind) && r == Fix(g, i)
    ensures Inv(r)
  {
    hide Inv, InvBut, Grows, HeadGrowth, MarksOk, LiveClosed, Wf;
    InvParts(g);
    RunningFacts(g);
    FixGrows(g, r, i);
    FixWf(g.h, r.h, i);
    GrowsInv(g, r, g.h.running);
    ThreadNotBlack(r, g);
    InvButNotBlack(r, r.h.running);
  }

  lemma RootsGrow(g: G, r: G)
    requires MarksOk(g) && LiveClosed(g)
    requires r == g.(h := g.h.(running := r.h.running, registry := r.h.registry, mt := r.h.mt))
    requires forall i :: Root(r.h, i) ==> Live(g, i)
    ensures Grows(g, r, r.h.running) && HeadGrowth(g, r)
  {
    forall i, j | Edge(r.h, r.cache, i, j)
      ensures Edge(g.h, g.cache, i, j)
    {
      assert Vals(r.h, i) == Vals(g.h, i);
    }
  }

  /** Roots may be changed to live objects at any time, without a barrier. */
  lemma RootsInv(g: G, r: G)
    requires Inv(g) && r == g.(h := g.h.(running := r.h.running, registry := r.h.registry, mt := r.h.mt))
    requires forall i :: Root(r.h, i) ==> Live(g, i)
    requires r.h.running in g.h.objs && g.h.objs[r.h.running].kind.KThread?
    ensures Inv(r)
  {
    hide Inv, InvBut, Grows, HeadGrowth, MarksOk, LiveClosed, Wf;
    InvParts(g);
    RootsGrow(g, r);
    RootsWf(g.h, r.h);
    GrowsInv(g, r, r.h.running);
    ThreadNotBlack(r, g);
    InvButNotBlack(r, r.h.running);
  }

  lemma ThreadNotBlack(r: G, g: G)
    requires MarksOk(g) && r.h.running in g.h.objs && g.h.objs[r.h.running].kind.KThread? && r.mark == g.mark
    ensures !IsBlack(r, r.h.running)
  {
  }

  lemma RootsWf(h: Heap, r: Heap)
    requires Wf(h) && r == h.(running := r.running, registry := r.registry, mt := r.mt)
    requires r.running in h.objs && h.objs[r.running].kind.KThread?
    ensures Wf(r)
  {
    assert OpenOk(r) by {
      forall t, u | t in r.objs && u in r.objs[t].openupval
        ensures OpenAt(r, u, t)
      {
        assert OpenAt(h, u, t);
      }
    }
    assert OpenSorted(r) by { SortedKept(h, r); }
    assert Owned(r) by {
      forall i | i in r.objs && InBucket(h, i)
        ensures InBucket(r, i)
      {
      }
    }
  }
}
