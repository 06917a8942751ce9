/** `singlestep`: one step of the collector in each phase, and what it keeps. */
module GcStep {
  import opened Common
  import opened GcState
  import opened GcMark
  import opened GcCycle
  import opened GcSurgery
  import opened GcSweep

  ghost function DeadSet(g: G): set<Id> { set i | i in g.h.objs && Dead(g, i) }

  /** `sweeptolive` from the head of `allgc`: it stops behind the first live object. */
  function SweepToLive(g: G): G
    requires Sweeping(g) && InSweep(g)
    decreases DeadSet(g)
  {
    if g.h.allgc == [] then g.(sweepgc := 0)
    else
      var g0 := g.(sweepgc := |g.h.allgc|);
      CursorBack(g, g0);
      SweepNextSweeps(g0);
      var g1 := SweepNext(g0);
      if Dead(g0, g.h.allgc[0]) then
        DeadShrinks(g0, g1, g.h.allgc[0]);
        SweepToLive(g1)
      else g1
  }

  /** `entersweep`. */
  function EnterSweep(g: G): G
    requires Sweeping(Entering(g))
  {
    SweepToLive(Entering(g))
  }

  function Entering(g: G): G { g.(phase := SweepString, sweepstr := 0, sweepgc := |g.h.allgc|) }

  /** `singlestep`; `max` is the number of elements swept at a time. */
  function SingleStep(g: G, max: nat): G
    requires Inv(g)
  {
    match g.phase
    case Pause => Restart(g).(phase := Propagate)
    case Propagate =>
      if g.gray != [] then PropagateMark(g)
      else
        AtomicEnters(g);
        EnterSweep(AtomicMark(g))
    case SweepString =>
      var g1 := SweepStrings(g, max);
      if g1.sweepstr >= |g1.h.strt| then g1.(phase := SweepUdata) else g1
    case SweepUdata => g.(phase := Sweep)
    case Sweep =>
      if g.sweepgc > 0 then SweepGc(g, max) else SweepMain(g).(phase := Pause)
  }

  // ----- sweeptolive -----

  /** Putting the cursor back to the head only puts more objects ahead of it. */
  lemma CursorBack(g: G, r: G)
    requires Sweeping(g) && r == g.(sweepgc := |g.h.allgc|)
    ensures Sweeping(r)
  {
    hide Wf;
    assert forall i :: Live(r, i) <==> Live(g, i);
    assert forall x :: AheadListed(g, x) ==> AheadListed(r, x);
  }

  lemma DeadShrinks(g: G, r: G, i: Id)
    requires Sweeping(g) && Sweeps(g, r) && Dead(g, i) && i !in r.h.objs
    ensures DeadSet(r) < DeadSet(g)
  {
    hide Wf;
    assert i in DeadSet(g) && i !in DeadSet(r);
  }

  lemma CursorEnd(g: G, r: G)
    requires Sweeping(g) && g.h.allgc == [] && r == g.(sweepgc := 0)
    ensures Sweeping(r) && Sweeps(g, r)
  {
    hide Wf;
    assert forall i :: Live(r, i) <==> Live(g, i);
    assert forall x :: AheadListed(g, x) ==> AheadListed(r, x);
  }

  lemma {:induction false} SweepToLiveSweeps(g: G)
    requires Sweeping(g) && InSweep(g)
    ensures Sweeps(g, SweepToLive(g)) && Sweeping(SweepToLive(g)) && InSweep(SweepToLive(g))
    decreases DeadSet(g)
  {
    hide Wf, Sweeps, SweepColors;
    if g.h.allgc == [] {
      CursorEnd(g, g.(sweepgc := 0));
    } else {
      var g0 := g.(sweepgc := |g.h.allgc|);
      CursorBack(g, g0);
      SweepNextSweeps(g0);
      var g1 := SweepNext(g0);
      SweepsFrom(g, g0, g1);
      if Dead(g0, g.h.allgc[0]) {
        DeadShrinks(g0, g1, g.h.allgc[0]);
        SweepToLiveSweeps(g1);
        SweepsThen(g, g1, SweepToLive(g));
      }
    }
  }

  lemma SweepsFrom(g: G, g0: G, r: G)
    requires SweepColors(g) && g0 == g.(sweepgc := g0.sweepgc) && Sweeps(g0, r)
    ensures Sweeps(g, r)
  {
  }

  // ----- from marking to sweeping -----

  lemma AllAhead(h: Heap, g: G, i: Id)
    requires Wf(h) && g.h == h && i in h.objs && g.phase.SweepString? && g.sweepstr == 0 && g.sweepgc == |h.allgc|
    ensures Ahead(g, i)
  {
    assert h.allgc[0..] == h.allgc;
    if h.objs[i].home.Slot? {
      var t := h.objs[i].home.thread;
      assert i in h.objs[t].openupval && Shape(h.objs[t]);
      assert h.objs[t].kind.KThread?;
      assert !InBucket(h, t) && h.objs[t].home.Own?;
    }
  }

  lemma FlipEnters(m: G, r: G)
    requires Complete(m) && Wf(m.h) && r == Entering(m.(white := !m.white))
    ensures Sweeping(r)
  {
    hide Wf, Complete;
    var f := m.(white := !m.white);
    FlipLiveClosed(m, f);
    assert forall i :: Live(r, i) <==> Live(f, i);
    forall i | i in r.h.objs && i in r.mark
      ensures Ahead(r, i)
    {
      AllAhead(m.h, r, i);
    }
  }

  lemma AtomicEnters(g: G)
    requires Inv(g) && g.phase.Propagate?
    ensures Sweeping(Entering(AtomicMark(g)))
  {
    AtomicCompletes(g);
    var m :| Complete(m) && Darker(g, m) && AtomicMark(g) == m.(white := !m.white);
    FlipEnters(m, Entering(AtomicMark(g)));
  }

  // ----- the invariant -----

  /** Before anything is marked the marking invariant holds. */
  lemma RestingColored(g: G, g0: G)
    requires Resting(g) && g0 == g.(gray := [], grayagain := [])
    ensures Wf(g0.h) && Colored(g0)
  {
    hide AllListOk, StrListOk, OpenOk, Owned, UvheadOk;
  }

  lemma RestartKeeps(g: G)
    requires Resting(g)
    ensures Marking(Restart(g).(phase := Propagate)) && !IsWhite(Restart(g), g.h.mainthread)
    ensures Marks(g.(gray := [], grayagain := []), Restart(g))
  {
    hide Wf, MarksOk, LiveClosed, AllWhite, Colored, Marks;
    var g0 := g.(gray := [], grayagain := []);
    RestingColored(g, g0);
    var vs := [Some(g.h.mainthread), g.h.registry] + g.h.mt;
    MarkAllKeeps(g0, vs);
    assert Some(g.h.mainthread) in vs;
    PhaseFree(Restart(g), Propagate);
  }

  lemma PhaseFree(g: G, p: Phase)
    requires Colored(g)
    ensures Colored(g.(phase := p))
  {
    var r := g.(phase := p);
    assert forall i :: Live(r, i) <==> Live(g, i);
  }

  /** The main thread stays marked during a propagation step. */
  lemma PropagateStep(g: G, r: G)
    requires Marking(g) && !IsWhite(g, g.h.mainthread) && g.gray != [] && r == PropagateMark(g)
    ensures Marking(r) && !IsWhite(r, r.h.mainthread) && r.phase == g.phase && r.h == g.h
  {
    hide Wf;
    PropagateKeeps(g);
    TakeGrayCovered(g, r, g.gray[0]);
    TakeGrayEffect(g, TakeGray(g), g.gray[0]);
  }

  /** Every collector step keeps the invariant. */
  lemma SingleStepInv(g: G, max: nat)
    requires Inv(g)
    ensures Inv(SingleStep(g, max))
  {
    hide Wf, SweepColors, Sweeps, Colored, Marks;
    match g.phase
    case Pause => RestartKeeps(g);
    case Propagate =>
      if g.gray != [] {
        PropagateStep(g, SingleStep(g, max));
      } else {
        AtomicEnters(g);
        SweepToLiveSweeps(Entering(AtomicMark(g)));
        WhiteBit(Entering(AtomicMark(g)), SingleStep(g, max));
      }
    case SweepString =>
      SweepStringsSweeps(g, max);
      WhiteBit(g, SweepStrings(g, max));
      if SweepStrings(g, max).sweepstr >= |SweepStrings(g, max).h.strt| {
        StringsDone(SweepStrings(g, max), SingleStep(g, max));
      }
    case SweepUdata => UdataDone(g, SingleStep(g, max));
    case Sweep =>
      if g.sweepgc > 0 {
        SweepGcSweeps(g, max);
        WhiteBit(g, SingleStep(g, max));
      } else {
        RootLive(g);
        SweepMainRests(g, SingleStep(g, max));
      }
  }
}
