/** The write barriers of `lgc.h` and `lgc.c`, and the mutator operations built on them. */
module GcBarrier {
  import opened Common
  import opened GcState
  import opened GcMark
  import opened GcCycle
  import opened GcSurgery
  import opened GcSweep
  import opened GcStep
  import opened GcMutator

  /** `keepinvariantout`. */
  predicate KeepInvariant(g: G) { g.phase.Propagate? || g.phase.Atomic? }

  /** `luaC_barrier_`: mark the white object, or in a sweep make the black one white. */
  function BarrierForward(g: G, o: Id, v: Id): G
    requires v in g.h.objs && IsWhite(g, v)
  {
    if KeepInvariant(g) then ReallyMark(g, v) else SetMark(g, o, White(g.white))
  }

  /** `luaC_barrierback_`: the black object becomes gray again. */
  function BarrierBack(g: G, o: Id): G { SetMark(g, o, Gray).(grayagain := [o] + g.grayagain) }

  /** `luaC_barrierback` for tables, `luaC_barrier` and `luaC_objbarrier` for the rest. */
  function Barrier(g: G, o: Id, v: Option<Id>): G
    requires o in g.h.objs
  {
    if v.Some? && v.value in g.h.objs && IsWhite(g, v.value) && IsBlack(g, o) then
      if g.h.objs[o].kind.KTable? then BarrierBack(g, o) else BarrierForward(g, o, v.value)
    else g
  }

  lemma BarrierHeap(g: G, o: Id, v: Option<Id>)
    requires o in g.h.objs
    ensures Barrier(g, o, v).h == g.h
  {
  }

  lemma ForwardMarks(g: G, r: G, o: Id, v: Id)
    requires Wf(g.h) && ColoredBut(g, o) && v in g.h.objs && IsWhite(g, v) && r == ReallyMark(g, v)
    requires forall j :: Edge(g.h, g.cache, o, j) && IsWhite(g, j) ==> j == v
    requires !IsWhite(g, g.h.mainthread)
    ensures Colored(r) && r.h == g.h && r.phase == g.phase && !IsWhite(r, r.h.mainthread)
  {
    hide Wf, ColoredBut, Colored, Shapes, MarksOk, Pushed, Vals, ReallyMark;
    ButReady(g, o);
    ReallyMarkMarks(g, v);
    MarksKeepsBut(g, r, o);
    forall j | Edge(r.h, r.cache, o, j)
      ensures !IsWhite(r, j)
    {
      assert Edge(g.h, g.cache, o, j);
    }
    ButCovered(r, o);
  }

  lemma ButReady(g: G, x: Id)
    requires ColoredBut(g, x)
    ensures Ready(g)
  {
  }

  lemma ButCovered(g: G, x: Id)
    requires ColoredBut(g, x) && Covered(g, x)
    ensures Colored(g)
  {
  }

  lemma BackMarks(g: G, r: G, o: Id)
    requires ColoredBut(g, o) && o in g.h.objs && IsBlack(g, o) && Listable(g.h.objs[o].kind) && r == BarrierBack(g, o)
    ensures Colored(r) && r.h == g.h && r.phase == g.phase
    ensures forall i :: IsWhite(r, i) <==> IsWhite(g, i)
  {
    assert o !in g.gray + g.grayagain;
    assert r.gray + r.grayagain == g.gray + ([o] + g.grayagain);
    NoDupInsert(g.gray, g.grayagain, o);
    assert forall i :: Live(r, i) <==> Live(g, i);
  }

  lemma BackSweep(g: G, r: G, o: Id)
    requires SweepColors(g) && o in g.h.objs && IsBlack(g, o) && r == BarrierBack(g, o)
    ensures SweepColors(r)
  {
    assert forall i :: Live(r, i) <==> Live(g, i);
    forall i | i in r.h.objs
      ensures Ahead(r, i) || r.mark[i] == White(r.white)
    {
      assert Ahead(g, i) || g.mark[i] == White(g.white);
      if Ahead(g, i) {
        AheadStays(g, r, i);
      }
    }
  }

  lemma NoBlackAtRest(g: G, o: Id)
    requires InvBut(g, o) && g.phase.Pause?
    ensures !IsBlack(g, o)
  {
  }

  /** After the barrier the invariant holds again.  The assertions of `luaC_barrier_`
      hold: its objects are not dead, and the collector is not at rest. */
  lemma BarrierInv(g: G, r: G, o: Id, v: Option<Id>)
    requires InvBut(g, o) && Live(g, o) && (v.Some? ==> Live(g, v.value)) && r == Barrier(g, o, v)
    requires forall j: Id :: Edge(g.h, g.cache, o, j) && IsWhite(g, j) ==> v == Some(j)
    ensures Inv(r) && r.h == g.h
    ensures r != g ==> !g.phase.Pause?
  {
    hide Wf, SweepColors, ColoredBut, Colored;
    if v.Some? && IsWhite(g, v.value) && IsBlack(g, o) {
      if g.phase.Pause? {
        NoBlackAtRest(g, o);
      } else if g.phase.Propagate? {
        if g.h.objs[o].kind.KTable? {
          BackMarks(g, r, o);
        } else {
          ForwardMarks(g, r, o, v.value);
        }
      } else if g.h.objs[o].kind.KTable? {
        BackSweep(g, r, o);
      } else {
        WhitenSweeps(g, r, o);
      }
    } else if !IsBlack(g, o) {
      InvButNotBlack(g, o);
    } else {
      assert Covered(g, o);
      InvButCovered(g, o);
    }
  }
}
