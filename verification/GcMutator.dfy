/** What the mutator does to the heap: allocation, barriered writes, stack changes,
    capturing and closing upvalues.  Every change keeps the invariant in every phase. */
module GcMutator {
  import opened Common
  import opened GcState
  import opened GcOpen
  import opened GcMark
  import opened GcCycle
  import opened GcSurgery
  import opened GcSweep
  import opened GcStep

  // ----- changes of the heap -----

  /** `luaC_newobj` with the standard list. */
  function AddListedH(h: Heap, i: Id, o: Obj): Heap { h.(objs := h.objs[i := o], allgc := [i] + h.allgc) }

  /** `luaC_newobj` with a bucket of the string table as its list. */
  function AddStringH(h: Heap, i: Id, o: Obj, b: nat): Heap
    requires b < |h.strt|
  {
    h.(objs := h.objs[i := o], strt := h.strt[b := [i] + h.strt[b]])
  }

  /** `luaC_newobj` with a link of an `openupval` list: a new open upvalue of thread `t`. */
  function AddOpenH(h: Heap, u: Id, t: Id, level: nat, pos: nat): Heap
    requires t in h.objs && pos <= |h.objs[t].openupval|
  {
    var us := h.objs[t].openupval;
    h.(objs := h.objs[t := WithOpen(h.objs[t], us[..pos] + ([u] + us[pos..]))][u := Obj(KUpval, false, [], Slot(t, level), [])],
       uvhead := [u] + h.uvhead)
  }

  function SetSlotsH(h: Heap, o: Id, s: seq<Option<Id>>): Heap
    requires o in h.objs
  {
    h.(objs := h.objs[o := h.objs[o].(slots := s)])
  }

  lemma AddListedWf(h: Heap, r: Heap, i: Id, o: Obj)
    requires Wf(h) && i !in h.objs && Shape(o) && o.home.Own? && o.openupval == [] && !o.kind.KShrStr?
    requires r == AddListedH(h, i, o)
    ensures Wf(r) && forall k :: k in h.objs ==> Vals(r, k) == Vals(h, k)
  {
    AddListedLists(h, r, i, o);
    AddSimpleOpen(h, r, i, o);
    AddSimpleSorted(h, r, i, o);
  }

  lemma AddListedLists(h: Heap, r: Heap, i: Id, o: Obj)
    requires Shapes(h) && AllListOk(h) && StrListOk(h) && Owned(h) && ThreadsOk(h)
    requires i !in h.objs && Shape(o) && o.home.Own? && o.openupval == [] && !o.kind.KShrStr?
    requires r == AddListedH(h, i, o)
    ensures Shapes(r) && AllListOk(r) && StrListOk(r) && Owned(r) && ThreadsOk(r)
  {
    NoDupAppend([i], h.allgc);
    forall k | k in r.objs && InBucket(h, k)
      ensures InBucket(r, k)
    {
    }
  }

  /** A new object that is not an open upvalue changes nothing for those that are. */
  lemma AddSimpleOpen(h: Heap, r: Heap, i: Id, o: Obj)
    requires OpenOk(h) && UvheadOk(h) && i !in h.objs && o.home.Own? && o.openupval == []
    requires r.objs == h.objs[i := o] && r.uvhead == h.uvhead
    ensures OpenOk(r) && UvheadOk(r) && forall k :: k in h.objs ==> Vals(r, k) == Vals(h, k)
  {
    forall s, w | s in r.objs && w in r.objs[s].openupval
      ensures OpenAt(r, w, s)
    {
      assert OpenAt(h, w, s);
    }
    forall k | k in h.objs
      ensures Vals(r, k) == Vals(h, k)
    {
      if h.objs[k].home.Slot? {
        assert h.objs[k].home.thread in h.objs;
      }
    }
  }

  lemma AddSimpleSorted(h: Heap, r: Heap, i: Id, o: Obj)
    requires OpenOk(h) && OpenSorted(h) && OpenOk(r) && i !in h.objs && o.home.Own? && o.openupval == [] && r.objs == h.objs[i := o]
    ensures OpenSorted(r)
  {
    hide NoDup, Descends;
    SortedKept(h, r);
  }

  lemma AddStringWf(h: Heap, r: Heap, i: Id, o: Obj, b: nat)
    requires Wf(h) && i !in h.objs && Shape(o) && o.home.Own? && o.openupval == [] && o.kind.KShrStr?
    requires b < |h.strt| && r == AddStringH(h, i, o, b)
    ensures Wf(r) && forall k :: k in h.objs ==> Vals(r, k) == Vals(h, k)
  {
    AddStringLists(h, r, i, o, b);
    AddStringBuckets(h, r, i, o, b);
    AddSimpleOpen(h, r, i, o);
    AddSimpleSorted(h, r, i, o);
  }

  lemma AddStringLists(h: Heap, r: Heap, i: Id, o: Obj, b: nat)
    requires Shapes(h) && AllListOk(h) && ThreadsOk(h)
    requires i !in h.objs && Shape(o) && b < |h.strt| && r == AddStringH(h, i, o, b)
    ensures Shapes(r) && AllListOk(r) && ThreadsOk(r)
  {
  }

  lemma AddStringBuckets(h: Heap, r: Heap, i: Id, o: Obj, b: nat)
    requires StrListOk(h) && Owned(h)
    requires i !in h.objs && o.kind.KShrStr? && b < |h.strt| && r == AddStringH(h, i, o, b)
    ensures StrListOk(r) && Owned(r)
  {
    assert i !in h.strt[b];
    NoDupAppend([i], h.strt[b]);
    forall k, x | 0 <= k < |r.strt|
      ensures x in r.strt[k] <==> x in h.strt[k] || (k == b && x == i)
    {
    }
    forall x | x in r.objs && (x == i || InBucket(h, x))
      ensures InBucket(r, x)
    {
      if x == i {
        assert x in r.strt[b];
      } else {
        var k :| 0 <= k < |h.strt| && x in h.strt[k];
        assert x in r.strt[k];
      }
    }
  }

  lemma AddOpenWf(h: Heap, r: Heap, u: Id, t: Id, level: nat, pos: nat)
    requires Wf(h) && u !in h.objs && t in h.objs && h.objs[t].kind.KThread?
    requires level < |h.objs[t].slots| && pos == Position(h, h.objs[t].openupval, level) && r == AddOpenH(h, u, t, level, pos)
    requires FindOpen(h, h.objs[t].openupval, t, level).None?
    ensures Wf(r) && forall k :: k in h.objs ==> Vals(r, k) == Vals(h, k)
    ensures Vals(r, u) == [h.objs[t].slots[level]]
  {
    AddOpenLists(h, r, u, t, level, pos);
    AddOpenOpen(h, r, u, t, level, pos);
    AddOpenSorted(h, r, u, t, level);
    hide Wf;
    forall k | k in h.objs
      ensures Vals(r, k) == Vals(h, k)
    {
    }
  }

  lemma AddOpenSorted(h: Heap, r: Heap, u: Id, t: Id, level: nat)
    requires OpenOk(h) && OpenSorted(h) && OpenOk(r) && u !in h.objs && t in h.objs && h.objs[t].home.Own?
    requires r == AddOpenH(h, u, t, level, Position(h, h.objs[t].openupval, level)) && FindOpen(h, h.objs[t].openupval, t, level).None?
    ensures OpenSorted(r)
  {
    hide NoDup, Descends;
    forall s | s in r.objs
      ensures Descends(r, r.objs[s].openupval)
    {
      if s == t {
        AddedDescends(h, r, u, t, level);
      } else if s == u {
        NoneDescend(r);
      } else {
        OthersDescend(h, r, s);
      }
    }
  }

  lemma NoneDescend(r: Heap)
    ensures Descends(r, [])
  {
  }

  lemma OthersDescend(h: Heap, r: Heap, s: Id)
    requires OpenOk(h) && OpenSorted(h) && s in h.objs && forall w :: w in h.objs && h.objs[w].home.Slot? ==> w in r.objs && r.objs[w].home == h.objs[w].home
    ensures Descends(r, h.objs[s].openupval)
  {
    hide NoDup, Descends;
    forall w | w in h.objs[s].openupval
      ensures w in h.objs && w in r.objs && r.objs[w].home == h.objs[w].home
    {
      assert OpenAt(h, w, s);
    }
    DescendsSame(h, r, h.objs[s].openupval);
  }

  lemma AddedDescends(h: Heap, r: Heap, u: Id, t: Id, level: nat)
    requires OpenOk(h) && OpenSorted(h) && u !in h.objs && t in h.objs && h.objs[t].home.Own?
    requires r == AddOpenH(h, u, t, level, Position(h, h.objs[t].openupval, level)) && FindOpen(h, h.objs[t].openupval, t, level).None?
    ensures Descends(r, r.objs[t].openupval)
  {
    hide NoDup, Descends;
    var us := h.objs[t].openupval;
    forall w | w in us
      ensures OpenAt(h, w, t)
    {
    }
    OthersDescend(h, r, t);
    FindOpenMisses(h, us, t, level);
    DescendsMore(r, us, Position(h, us, level), u);
  }

  lemma AddOpenLists(h: Heap, r: Heap, u: Id, t: Id, level: nat, pos: nat)
    requires Shapes(h) && AllListOk(h) && StrListOk(h) && Owned(h) && ThreadsOk(h) && UvheadOk(h)
    requires u !in h.objs && t in h.objs && h.objs[t].kind.KThread?
    requires pos <= |h.objs[t].openupval| && r == AddOpenH(h, u, t, level, pos)
    ensures Shapes(r) && AllListOk(r) && StrListOk(r) && Owned(r) && ThreadsOk(r) && UvheadOk(r)
  {
    hide StrListOk, AllListOk, Owned, InBucket;
    assert Shape(h.objs[t]);
    NoDupAppend([u], h.uvhead);
    AddOpenKept(h, r, u, t, level, pos);
  }

  lemma AddOpenKept(h: Heap, r: Heap, u: Id, t: Id, level: nat, pos: nat)
    requires AllListOk(h) && StrListOk(h) && Owned(h) && u !in h.objs && t in h.objs
    requires pos <= |h.objs[t].openupval| && r == AddOpenH(h, u, t, level, pos)
    ensures AllListOk(r) && StrListOk(r) && Owned(r)
  {
    forall k | k in r.objs && InBucket(h, k)
      ensures InBucket(r, k)
    {
    }
  }

  lemma AddOpenOpen(h: Heap, r: Heap, u: Id, t: Id, level: nat, pos: nat)
    requires OpenOk(h) && u !in h.objs && t in h.objs && h.objs[t].home.Own?
    requires level < |h.objs[t].slots| && pos <= |h.objs[t].openupval| && r == AddOpenH(h, u, t, level, pos)
    ensures OpenOk(r)
  {
    var us := h.objs[t].openupval;
    assert us[..pos] + us[pos..] == us;
    assert forall w :: w in us ==> OpenAt(h, w, t);
    NoDupInsert(us[..pos], us[pos..], u);
    forall s, w | s in r.objs && w in r.objs[s].openupval
      ensures OpenAt(r, w, s)
    {
      if w != u {
        assert w in h.objs[s].openupval;
        assert OpenAt(h, w, s);
      }
    }
    forall w | w in r.objs && r.objs[w].home.Slot?
      ensures r.objs[w].home.thread in r.objs && w in r.objs[r.objs[w].home.thread].openupval
    {
      if w != u {
        assert w in h.objs[h.objs[w].home.thread].openupval;
      }
    }
  }

  /** Slots that keep the shape of their object; a stack keeps the captured slots. */
  ghost predicate FitSlots(h: Heap, o: Id, s: seq<Option<Id>>) {
    && o in h.objs && Shape(h.objs[o].(slots := s))
    && forall u :: u in h.objs[o].openupval && u in h.objs && h.objs[u].home.Slot? ==> h.objs[u].home.level < |s|
  }

  lemma SetSlotsWf(h: Heap, r: Heap, o: Id, s: seq<Option<Id>>)
    requires Wf(h) && FitSlots(h, o, s) && r == SetSlotsH(h, o, s)
    ensures Wf(r)
  {
    SetSlotsLists(h, r, o, s);
    SetSlotsOpen(h, r, o, s);
    SetSlotsSorted(h, r, o, s);
  }

  lemma SetSlotsSorted(h: Heap, r: Heap, o: Id, s: seq<Option<Id>>)
    requires OpenOk(h) && OpenSorted(h) && OpenOk(r) && o in h.objs && r == SetSlotsH(h, o, s)
    ensures OpenSorted(r)
  {
    hide NoDup, Descends;
    SortedKept(h, r);
  }

  lemma SetSlotsLists(h: Heap, r: Heap, o: Id, s: seq<Option<Id>>)
    requires Shapes(h) && AllListOk(h) && StrListOk(h) && Owned(h) && ThreadsOk(h) && UvheadOk(h)
    requires FitSlots(h, o, s) && r == SetSlotsH(h, o, s)
    ensures Shapes(r) && AllListOk(r) && StrListOk(r) && Owned(r) && ThreadsOk(r) && UvheadOk(r)
  {
    forall k | k in r.objs && InBucket(h, k)
      ensures InBucket(r, k)
    {
    }
  }

  lemma SetSlotsOpen(h: Heap, r: Heap, o: Id, s: seq<Option<Id>>)
    requires OpenOk(h) && FitSlots(h, o, s) && r == SetSlotsH(h, o, s)
    ensures OpenOk(r)
  {
    forall t, w | t in r.objs && w in r.objs[t].openupval
      ensures OpenAt(r, w, t)
    {
      assert OpenAt(h, w, t);
    }
    forall w | w in r.objs && r.objs[w].home.Slot?
      ensures r.objs[w].home.thread in r.objs && w in r.objs[r.objs[w].home.thread].openupval
    {
      assert w in h.objs[h.objs[w].home.thread].openupval;
    }
  }

  // ----- growing the graph -----

  /** An edge that a mutator step may add: to a live object, and from an object that is
      not black, unless that object is `x` or the target is marked. */
  ghost predicate NewEdgeOk(g: G, r: G, x: Id, i: Id, j: Id) {
    Live(r, j) && (i == x || !IsBlack(g, i) || !IsWhite(r, j))
  }

  ghost predicate Stays(g: G, r: G, i: Id)
    requires i in g.h.objs
  {
    && i in r.h.objs && i in g.mark && i in r.mark && r.mark[i] == g.mark[i]
    && r.h.objs[i].kind == g.h.objs[i].kind && r.h.objs[i].home == g.h.objs[i].home
    && (r.h.objs[i].fixed == g.h.objs[i].fixed || (Live(g, i) && r.h.objs[i].fixed))
  }

  /** The mutator adds objects with the current white, and edges. */
  ghost predicate Grows(g: G, r: G, x: Id) {
    && r == g.(h := r.h, mark := r.mark, cache := r.cache)
    && r.mark.Keys == r.h.objs.Keys
    && (forall i :: i in g.h.objs ==> Stays(g, r, i))
    && (forall i :: i in r.h.objs && i !in g.h.objs ==> r.mark[i] == White(g.white))
    && (forall i :: i in r.cache ==> i in r.h.objs && r.h.objs[i].kind.KProto?)
    && (forall i, j :: Edge(r.h, r.cache, i, j) ==>
          (i in g.h.objs && Edge(g.h, g.cache, i, j)) || NewEdgeOk(g, r, x, i, j))
    && (forall i :: Root(r.h, i) ==> Live(r, i))
    && r.h.mainthread == g.h.mainthread
  }

  lemma GrowsLive(g: G, r: G, x: Id)
    requires Grows(g, r, x) && MarksOk(g) && LiveClosed(g)
    ensures MarksOk(r) && LiveClosed(r)
    ensures forall i :: i in g.h.objs ==> (Live(r, i) <==> Live(g, i)) && (IsWhite(r, i) <==> IsWhite(g, i)) && (IsBlack(r, i) <==> IsBlack(g, i))
  {
    forall i | i in g.h.objs
      ensures Live(r, i) <==> Live(g, i)
    {
    }
    forall i, j | Live(r, i) && Edge(r.h, r.cache, i, j)
      ensures Live(r, j)
    {
    }
  }

  lemma GrowsColored(g: G, r: G, x: Id)
    requires Grows(g, r, x) && Colored(g) && Shapes(r.h)
    ensures ColoredBut(r, x)
  {
    GrowsLive(g, r, x);
    forall i, j | i != x && IsBlack(r, i) && Edge(r.h, r.cache, i, j)
      ensures !IsWhite(r, j)
    {
      if i in g.h.objs && Edge(g.h, g.cache, i, j) {
        assert Live(g, i) && Live(g, j);
      }
    }
  }

  /** The lists may have grown at their heads only. */
  ghost predicate HeadGrowth(g: G, r: G) {
    && |g.h.allgc| <= |r.h.allgc|
    && r.h.allgc[|r.h.allgc| - |g.h.allgc|..] == g.h.allgc
    && |g.h.strt| == |r.h.strt|
    && forall k, i :: 0 <= k < |g.h.strt| && i in g.h.strt[k] ==> i in r.h.strt[k]
  }

  lemma GrowsSweep(g: G, r: G, x: Id)
    requires Grows(g, r, x) && SweepColors(g) && HeadGrowth(g, r)
    ensures SweepColors(r)
  {
    GrowsLive(g, r, x);
    assert Rest(r) == Rest(g);
    forall y | AheadListed(g, y)
      ensures AheadListed(r, y)
    {
    }
    forall i | i in r.h.objs
      ensures Ahead(r, i) || r.mark[i] == White(r.white)
    {
      if i in g.h.objs {
        assert Ahead(g, i) || g.mark[i] == White(g.white);
      }
    }
  }

  lemma GrowsRest(g: G, r: G, x: Id)
    requires Grows(g, r, x) && MarksOk(g) && LiveClosed(g) && AllWhite(g)
    ensures MarksOk(r) && LiveClosed(r) && AllWhite(r)
  {
    GrowsLive(g, r, x);
  }

  /** A step that only grows the graph keeps the invariant, except that `x` may be a
      black object pointing to a white one. */
  ghost predicate InvBut(g: G, x: Id) {
    match g.phase
    case Propagate => Wf(g.h) && ColoredBut(g, x) && !IsWhite(g, g.h.mainthread)
    case _ => Inv(g)
  }

  lemma GrowsInv(g: G, r: G, x: Id)
    requires Inv(g) && Grows(g, r, x) && HeadGrowth(g, r) && Wf(r.h)
    ensures InvBut(r, x)
  {
    hide AllListOk, StrListOk, OpenOk, Owned, UvheadOk, Grows, HeadGrowth, SweepColors, Colored, ColoredBut, MarksOk, LiveClosed, AllWhite;
    if g.phase.Pause? {
      GrowsRest(g, r, x);
      GrowsPhase(g, r, x);
    } else if g.phase.Propagate? {
      GrowsColored(g, r, x);
      GrowsPhase(g, r, x);
    } else {
      GrowsSweep(g, r, x);
      GrowsPhase(g, r, x);
    }
  }

  lemma GrowsPhase(g: G, r: G, x: Id)
    requires Grows(g, r, x) && g.h.mainthread in g.h.objs
    ensures r.phase == g.phase && (IsWhite(r, r.h.mainthread) <==> IsWhite(g, g.h.mainthread))
  {
  }

  lemma InvButNotBlack(g: G, x: Id)
    requires InvBut(g, x) && !IsBlack(g, x)
    ensures Inv(g)
  {
  }

  lemma InvButCovered(g: G, x: Id)
    requires InvBut(g, x) && Covered(g, x)
    ensures Inv(g)
  {
  }

  // ----- writes -----

  /** Each slot is unchanged, empty or refers to a live object. */
  ghost predicate SlotsOk(g: G, o: Id, s: seq<Option<Id>>) {
    o in g.h.objs &&
    forall k :: 0 <= k < |s| ==>
      s[k].None? || Live(g, s[k].value) || (k < |g.h.objs[o].slots| && s[k] == g.h.objs[o].slots[k])
  }

  lemma SlotsEdge(g: G, r: G, o: Id, s: seq<Option<Id>>, i: Id, j: Id)
    requires MarksOk(g) && SlotsOk(g, o, s) && g.h.objs[o].home.Own?
    requires r == g.(h := SetSlotsH(g.h, o, s)) && Edge(r.h, r.cache, i, j)
    requires forall u :: u in g.h.objs && g.h.objs[u].home.Slot? && g.h.objs[u].home.thread == o ==> g.h.objs[u].home.level < |g.h.objs[o].slots|
    ensures Edge(g.h, g.cache, i, j) || NewEdgeOk(g, r, o, i, j)
  {
    assert Live(g, j) ==> Live(r, j);
    if i == o && Some(j) in s {
      var k :| 0 <= k < |s| && s[k] == Some(j);
      if k < |g.h.objs[o].slots| && s[k] == g.h.objs[o].slots[k] {
        assert Some(j) in Vals(g.h, o);
      }
    } else if g.h.objs[i].home.Slot? && g.h.objs[i].home.thread == o {
      assert !IsBlack(g, i);
      var l := g.h.objs[i].home.level;
      assert Vals(g.h, i) == [g.h.objs[o].slots[l]];
    }
  }

  lemma SlotsGrow(g: G, r: G, o: Id, s: seq<Option<Id>>)
    requires MarksOk(g) && LiveClosed(g) && SlotsOk(g, o, s) && g.h.objs[o].home.Own?
    requires r == g.(h := SetSlotsH(g.h, o, s))
    requires forall u :: u in g.h.objs && g.h.objs[u].home.Slot? && g.h.objs[u].home.thread == o ==> g.h.objs[u].home.level < |g.h.objs[o].slots|
    ensures Grows(g, r, o) && HeadGrowth(g, r)
  {
    forall i, j | Edge(r.h, r.cache, i, j)
      ensures Edge(g.h, g.cache, i, j) || NewEdgeOk(g, r, o, i, j)
    {
      SlotsEdge(g, r, o, s, i, j);
    }
    forall i | Root(r.h, i)
      ensures Live(r, i)
    {
      assert Root(g.h, i);
    }
  }

  lemma OpenLevels(h: Heap, o: Id)
    requires OpenOk(h) && o in h.objs
    ensures forall u :: u in h.objs && h.objs[u].home.Slot? && h.objs[u].home.thread == o ==> h.objs[u].home.level < |h.objs[o].slots|
  {
    forall u | u in h.objs && h.objs[u].home.Slot? && h.objs[u].home.thread == o
      ensures h.objs[u].home.level < |h.objs[o].slots|
    {
      assert OpenAt(h, u, o);
    }
  }

  lemma InvParts(g: G)
    requires Inv(g)
    ensures Wf(g.h) && MarksOk(g) && LiveClosed(g)
  {
  }

  lemma WfParts(h: Heap)
    requires Wf(h)
    ensures OpenOk(h) && OpenSorted(h) && Shapes(h) && ThreadsOk(h) && StrListOk(h) && AllListOk(h) && UvheadOk(h)
  {
  }

  /** Writing slots keeps the invariant but for the written object. */
  lemma SlotsInv(g: G, r: G, o: Id, s: seq<Option<Id>>)
    requires Inv(g) && o in g.h.objs && SlotsOk(g, o, s) && FitSlots(g.h, o, s) && g.h.objs[o].home.Own?
    requires r == g.(h := SetSlotsH(g.h, o, s))
    ensures InvBut(r, o)
  {
    hide Inv, InvBut, Wf, OpenOk, Grows, HeadGrowth, MarksOk, LiveClosed, SlotsOk, FitSlots;
    InvParts(g);
    WfParts(g.h);
    OpenLevels(g.h, o);
    SlotsGrow(g, r, o, s);
    SetSlotsWf(g.h, r.h, o, s);
    GrowsInv(g, r, o);
  }
}
