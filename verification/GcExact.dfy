/** Precision: a cycle without mutator steps keeps exactly the strongly reachable objects
    and the fixed strings, and every sweep comes to an end. */
module GcExact {
  import opened Common
  import opened GcState
  import opened GcMark
  import opened GcCycle
  import opened GcSurgery
  import opened GcSweep
  import opened GcStep
  import opened GcMutator
  import opened GcBarrier
  import opened GcOps
  import opened GcRun
  import opened GcComplete

  /** No object outside `u` refers into `u`. */
  ghost predicate Shut(h: Heap, u: set<Id>) {
    forall i, j :: i in h.objs && i !in u && Some(j) in Vals(h, i) ==> j !in u
  }

  ghost predicate Avoids(vs: seq<Option<Id>>, u: set<Id>) { forall j :: Some(j) in vs ==> j !in u }

  ghost predicate Untouched(g: G, r: G, u: set<Id>) {
    forall i :: i in u ==> (i in r.mark <==> i in g.mark) && (i in g.mark ==> r.mark[i] == g.mark[i])
  }

  lemma {:induction false} ReallyMarkAvoids(g: G, i: Id, u: set<Id>)
    requires IsWhite(g, i) && i in g.h.objs && i !in u && Shut(g.h, u) && Shapes(g.h)
    ensures Untouched(g, ReallyMark(g, i), u)
    decreases Whites(g), 0
  {
    var o, g1 := g.h.objs[i], SetMark(g, i, Gray);
    assert i in Whites(g) && i !in Whites(g1) && Whites(g1) <= Whites(g);
    if o.kind.KUdata? || o.kind.KUpval? {
      assert Shape(o);
      MarkAllAvoids(g1, Vals(g.h, i), u);
    }
  }

  lemma {:induction false} MarkAllAvoids(g: G, vs: seq<Option<Id>>, u: set<Id>)
    requires Avoids(vs, u) && Shut(g.h, u) && Shapes(g.h)
    ensures Untouched(g, MarkAll(g, vs), u)
    decreases Whites(g), 2, |vs|
  {
    if vs != [] {
      var v, g1 := vs[0], Mark(g, vs[0]);
      if v.Some? && v.value in g.h.objs && IsWhite(g, v.value) {
        ReallyMarkAvoids(g, v.value, u);
      }
      assert Whites(g1) == Whites(g) || Whites(g1) < Whites(g);
      assert Avoids(vs[1..], u);
      MarkAllAvoids(g1, vs[1..], u);
    }
  }

  /** The objects of `u` are unmarked. */
  ghost predicate Pale(g: G, u: set<Id>) { forall i :: i in u && i in g.mark ==> g.mark[i].White? }

  lemma PropagateAvoids(g: G, u: set<Id>)
    requires Colored(g) && g.gray != [] && Shut(g.h, u) && Pale(g, u)
    ensures Pale(PropagateMark(g), u) && PropagateMark(g).h == g.h
  {
    var i := g.gray[0];
    assert i in g.gray + g.grayagain;
    assert i !in u && Shape(g.h.objs[i]);
    assert Avoids(Vals(g.h, i), u);
    MarkAllAvoids(TakeGray(g), g.h.objs[i].slots, u);
  }

  lemma {:induction false} PropagateAllAvoids(g: G, u: set<Id>)
    requires Colored(g) && Shut(g.h, u) && Pale(g, u)
    ensures Pale(PropagateAll(g), u) && PropagateAll(g).h == g.h
    decreases Whites(g), |g.gray|
  {
    hide LiveClosed, NoOtherWhite, TriColor, Shut, Pale;
    if g.gray != [] {
      assert g.gray[0] in g.gray + g.grayagain;
      PropagateShrinks(g);
      PropagateAvoids(g, u);
      PropagateAllAvoids(PropagateMark(g), u);
    }
  }

  lemma {:induction false} RemarkUpvalsAvoids(g: G, us: seq<Id>, u: set<Id>)
    requires Shapes(g.h) && Shut(g.h, u) && Pale(g, u)
    ensures Pale(RemarkUpvals(g, us), u)
    decreases |us|
  {
    if us != [] {
      if us[0] in g.h.objs && IsGray(g, us[0]) {
        assert us[0] !in u && Avoids(Vals(g.h, us[0]), u);
        MarkAllAvoids(g, Vals(g.h, us[0]), u);
        RemarkUpvalsAvoids(MarkAll(g, Vals(g.h, us[0])), us[1..], u);
      } else {
        RemarkUpvalsAvoids(g, us[1..], u);
      }
    }
  }

  ghost predicate RootsOutside(h: Heap, u: set<Id>) { forall i :: Root(h, i) ==> i !in u }

  lemma AtomicAvoids(g: G, u: set<Id>)
    requires Colored(g) && Shut(g.h, u) && Pale(g, u) && RootsOutside(g.h, u)
    ensures Pale(AtomicMark(g), u) && AtomicMark(g).h == g.h && AtomicMark(g).white != g.white
  {
    var vs := [Some(g.h.running), g.h.registry] + g.h.mt;
    assert Avoids(vs, u);
    MarkAllAvoids(g, vs, u);
    RemarkUpvalsAvoids(MarkAll(g, vs), g.h.uvhead, u);
    RemarkKeeps(g);
    PropagateAllKeeps(Remark(g));
    PropagateAllAvoids(Remark(g), u);
    PropagateAllDarker(Remark(g));
    var g1 := PropagateAll(Remark(g));
    TakeGrayAgainKeeps(g1);
    PropagateAllAvoids(TakeGrayAgain(g1), u);
    PropagateAllDarker(TakeGrayAgain(g1));
    assert Remark(g).white == g.white by {
      MarkAllKeeps(g, vs);
      RemarkUpvalsKeeps(MarkAll(g, vs), g.h.uvhead);
    }
  }

  /** What a cycle without mutator steps does to garbage: it stays unmarked, then it is
      dead, then it is gone. */
  ghost predicate Doomed(h: Heap, s: G, u: set<Id>) {
    || (forall i :: i in u ==> i !in s.h.objs)
    || (s.phase.Propagate? && s.h == h && Pale(s, u))
    || (InSweep(s) && forall i :: i in u && i in s.h.objs ==> Dead(s, i))
  }

  /** A set of objects that nothing outside refers to, without fixed objects. */
  ghost predicate Isolated(h: Heap, u: set<Id>) {
    Shut(h, u) && RootsOutside(h, u) && forall i :: i in u && i in h.objs ==> !h.objs[i].fixed
  }

  lemma RestartDooms(g: G, u: set<Id>, max: nat)
    requires Inv(g) && g.phase.Pause? && Isolated(g.h, u)
    ensures Doomed(g.h, SingleStep(g, max), u)
  {
    var g0 := g.(gray := [], grayagain := []);
    var vs := [Some(g.h.mainthread), g.h.registry] + g.h.mt;
    assert Avoids(vs, u);
    MarkAllAvoids(g0, vs, u);
    assert Pale(SingleStep(g, max), u);
  }

  lemma AtomicDooms(g: G, u: set<Id>, max: nat)
    requires Inv(g) && g.phase.Propagate? && g.gray == [] && Isolated(g.h, u) && Pale(g, u)
    ensures Doomed(g.h, SingleStep(g, max), u)
  {
    hide Wf, SweepColors, Sweeps, Colored, Isolated, Pale;
    AtomicEnters(g);
    AtomicDead(g, Entering(AtomicMark(g)), u);
    hide Inv;
    var e := Entering(AtomicMark(g));
    SweepToLiveSweeps(e);
    WhiteBit(e, SingleStep(g, max));
    SweepsDead(e, SingleStep(g, max), u);
  }

  lemma AtomicDead(g: G, e: G, u: set<Id>)
    requires Inv(g) && g.phase.Propagate? && Isolated(g.h, u) && Pale(g, u) && e == Entering(AtomicMark(g))
    ensures forall i :: i in u && i in e.h.objs ==> Dead(e, i)
  {
    hide Wf, Colored, Complete, Darker, Isolated, Pale;
    AtomicFlips(g);
    AtomicPale(g, u);
    var m :| Complete(m) && Darker(g, m) && AtomicMark(g) == m.(white := !m.white);
    hide Inv;
    forall i | i in u && i in e.h.objs
      ensures Dead(e, i)
    {
      CompleteWhite(m, i);
      assert AtomicMark(g).mark[i].White?;
    }
  }

  lemma AtomicFlips(g: G)
    requires Inv(g) && g.phase.Propagate?
    ensures exists m :: Complete(m) && Darker(g, m) && AtomicMark(g) == m.(white := !m.white)
  {
    AtomicCompletes(g);
  }

  lemma AtomicPale(g: G, u: set<Id>)
    requires Colored(g) && Isolated(g.h, u) && Pale(g, u)
    ensures AtomicMark(g).h == g.h
    ensures forall i :: i in u && i in AtomicMark(g).mark ==> AtomicMark(g).mark[i].White?
    ensures forall i :: i in u && i in g.h.objs ==> !g.h.objs[i].fixed
  {
    hide Colored;
    AtomicAvoids(g, u);
  }

  lemma CompleteWhite(m: G, i: Id)
    requires Complete(m) && i in m.h.objs
    ensures i in m.mark && m.mark[i] != White(!m.white)
  {
  }

  lemma SweepsDead(g: G, r: G, u: set<Id>)
    requires SweepColors(g) && Sweeps(g, r) && forall i :: i in u && i in g.h.objs ==> Dead(g, i)
    ensures forall i :: i in u && i in r.h.objs ==> Dead(r, i)
  {
  }

  /** Garbage stays on its way out. */
  lemma CollectDooms(h: Heap, g: G, u: set<Id>, max: nat)
    requires Inv(g) && Doomed(h, g, u) && Isolated(h, u)
    ensures Doomed(h, SingleStep(g, max), u)
  {
    if forall i :: i in u ==> i !in g.h.objs {
      KeysShrink(g, max);
    } else if g.phase.Propagate? {
      if g.gray != [] {
        PropagateAvoids(g, u);
        PropagateStep(g, SingleStep(g, max));
      } else {
        AtomicDooms(g, u, max);
      }
    } else {
      SweepDooms(h, g, u, max);
    }
  }

  lemma SweepDooms(h: Heap, g: G, u: set<Id>, max: nat)
    requires Inv(g) && InSweep(g) && forall i :: i in u && i in g.h.objs ==> Dead(g, i)
    ensures Doomed(h, SingleStep(g, max), u)
  {
    var r := SingleStep(g, max);
    SingleStepInv(g, max);
    hide Inv;
    CollectFair(g, r, max);
    KeysShrink(g, max);
    if r.phase.Pause? {
      forall i | i in u
        ensures i !in r.h.objs
      {
        NoDeadAtRest(r, i);
      }
    }
  }

  lemma KeysShrink(g: G, max: nat)
    requires Inv(g)
    ensures SingleStep(g, max).h.objs.Keys <= g.h.objs.Keys
  {
    var r := SingleStep(g, max);
    hide Wf, SweepColors, Sweeps, Colored, Marks;
    if InSweep(g) {
      SweepStep(g, max);
      SweepsKeys(g, r.(phase := g.phase));
    } else if g.phase.Pause? {
      RestartKeeps(g);
      MarksMain(g.(gray := [], grayagain := []), Restart(g));
    } else if g.gray != [] {
      PropagateStep(g, r);
    } else {
      AtomicEnters(g);
      var e := Entering(AtomicMark(g));
      SweepToLiveSweeps(e);
      SweepsKeys(e, r);
      AtomicHeap(g);
    }
  }

  lemma SweepsKeys(g: G, r: G)
    requires Sweeps(g, r)
    ensures r.h.objs.Keys <= g.h.objs.Keys
  {
  }

  // ----- a whole cycle -----

  /** Collector steps only. */
  ghost function Cycle(g: G, ms: seq<nat>): (r: G)
    requires Inv(g)
    ensures Inv(r)
    decreases |ms|
  {
    if ms == [] then g else
      SingleStepInv(g, ms[0]);
      Cycle(SingleStep(g, ms[0]), ms[1..])
  }

  lemma {:induction false} CycleDooms(h: Heap, g: G, u: set<Id>, ms: seq<nat>)
    requires Inv(g) && Doomed(h, g, u) && Isolated(h, u)
    ensures Doomed(h, Cycle(g, ms), u)
    decreases |ms|
  {
    hide Inv, Doomed, Isolated;
    if ms != [] {
      SingleStepInv(g, ms[0]);
      CollectDooms(h, g, u, ms[0]);
      CycleDooms(h, SingleStep(g, ms[0]), u, ms[1..]);
    }
  }

  lemma {:induction false} CycleKeeps(g: G, ms: seq<nat>, i: Id)
    requires Inv(g) && StronglyReachable(g.h, i)
    ensures i in Cycle(g, ms).h.objs && i in g.h.objs && Vals(Cycle(g, ms).h, i) == Vals(g.h, i)
    decreases |ms|
  {
    CollectKeeps(g, 0, i);
    hide Inv, StronglyReachable;
    if ms != [] {
      SingleStepInv(g, ms[0]);
      CollectKeeps(g, ms[0], i);
      CycleKeeps(SingleStep(g, ms[0]), ms[1..], i);
    }
  }

  lemma FixedKept(g: G, max: nat, i: Id)
    requires Inv(g) && i in g.h.objs && g.h.objs[i].fixed
    ensures i in SingleStep(g, max).h.objs && SingleStep(g, max).h.objs[i].fixed
  {
    var r := SingleStep(g, max);
    hide Wf, SweepColors, Sweeps, Colored, Marks;
    if InSweep(g) {
      SweepStep(g, max);
      SweepsFixed(g, r.(phase := g.phase), i);
    } else if g.phase.Pause? {
      RestartKeeps(g);
      MarksMain(g.(gray := [], grayagain := []), Restart(g));
    } else if g.gray != [] {
      PropagateStep(g, r);
    } else {
      AtomicEnters(g);
      var e := Entering(AtomicMark(g));
      SweepToLiveSweeps(e);
      AtomicHeap(g);
      SweepsFixed(e, r, i);
    }
  }

  lemma SweepsFixed(g: G, r: G, i: Id)
    requires Sweeps(g, r) && i in g.h.objs && g.h.objs[i].fixed
    ensures i in r.h.objs && r.h.objs[i].fixed
  {
  }

  ghost predicate FixedIn(h: Heap, i: Id) { i in h.objs && h.objs[i].fixed }

  lemma CaptureOneFixed(g: G, cl: Id, c: Capture, i: Id)
    requires CaptureFits(g, c) && cl in g.h.objs && FixedIn(g.h, i)
    ensures FixedIn(CaptureOne(g, cl, c).h, i)
  {
  }

  lemma {:induction false} CaptureAllFixed(g: G, cl: Id, cs: seq<Capture>, i: Id)
    requires CapturesFit(g, cl, cs) && FixedIn(g.h, i)
    ensures FixedIn(CaptureAll(g, cl, cs).h, i)
    decreases |cs|
  {
    if cs != [] {
      CaptureOneFixed(g, cl, cs[0], i);
      CaptureAllFixed(CaptureOne(g, cl, cs[0]), cl, cs[1..], i);
    }
  }

  lemma StepFixed(g: G, op: Op, i: Id)
    requires Inv(g) && Enabled(g, op) && FixedIn(g.h, i)
    ensures FixedIn(Apply(g, op).h, i)
  {
    hide Inv, Reachable, NewObj, Intern, SetSlot, SingleStep, ApplyUpval, CapturesFit;
    EnabledFits(g, op);
    match op
    case NewObject(k, kind, n, b) => NewObjFixed(g, k, kind, n, b, i);
    case InternString(k) => InternFixed(g, k, i);
    case StoreSlot(o, k, v) => SetSlotFixed(g, o, k, v, i);
    case StoreUpval(u, v) => UpvalStepFixed(g, op, i);
    case MakeClosure(cl, p, cs) => UpvalStepFixed(g, op, i);
    case CloseUpval(t) => UpvalStepFixed(g, op, i);
    case Collect(max) => FixedKept(g, max, i);
    case _ =>
  }

  lemma UpvalStepFixed(g: G, op: Op, i: Id)
    requires Inv(g) && Enabled(g, op) && (op.StoreUpval? || op.MakeClosure? || op.CloseUpval?) && FixedIn(g.h, i)
    ensures FixedIn(ApplyUpval(g, op).h, i)
  {
    hide Inv, Reachable, SetOpenUpval, PushClosure, CloseHead, CapturesFit;
    EnabledFits(g, op);
    match op
    case StoreUpval(u, v) => SetUpvalFixed(g, u, v, i);
    case MakeClosure(cl, p, cs) => PushClosureFixed(g, cl, p, cs, i);
    case CloseUpval(t) => CloseFixed(g, t, i);
  }

  lemma NewObjFixed(g: G, k: Id, kind: Kind, n: nat, b: nat, i: Id)
    requires k !in g.h.objs && (kind.KShrStr? ==> b < |g.h.strt|) && g.h.running in g.h.objs && FixedIn(g.h, i)
    ensures FixedIn(NewObj(g, k, kind, n, b).h, i)
  {
  }

  lemma InternFixed(g: G, k: Id, i: Id)
    requires g.h.running in g.h.objs && FixedIn(g.h, i)
    ensures FixedIn(Intern(g, k).h, i)
  {
  }

  lemma SetSlotFixed(g: G, o: Id, k: nat, v: Option<Id>, i: Id)
    requires o in g.h.objs && k <= |g.h.objs[o].slots| && FixedIn(g.h, i)
    ensures FixedIn(SetSlot(g, o, k, v).h, i)
  {
    hide Barrier;
    var s := g.h.objs[o].slots;
    BarrierHeap(g.(h := SetSlotsH(g.h, o, if k < |s| then s[k := v] else s + [v])), o, v);
  }

  lemma SetUpvalFixed(g: G, u: Id, v: Option<Id>, i: Id)
    requires u in g.h.objs && g.h.objs[u].home.Slot? && g.h.objs[u].home.thread in g.h.objs
    requires g.h.objs[u].home.level < |g.h.objs[g.h.objs[u].home.thread].slots| && FixedIn(g.h, i)
    ensures FixedIn(SetOpenUpval(g, u, v).h, i)
  {
    hide Barrier;
    var Slot(t, l) := g.h.objs[u].home;
    BarrierHeap(g.(h := SetSlotsH(g.h, t, g.h.objs[t].slots[l := v])), u, v);
  }

  lemma PushClosureFixed(g: G, cl: Id, p: Id, cs: seq<Capture>, i: Id)
    requires cl !in g.h.objs && g.h.running in g.h.objs && CapturesFit(NewClosure(g, cl, p), cl, cs) && FixedIn(g.h, i)
    ensures FixedIn(PushClosure(g, cl, p, cs).h, i)
  {
    hide CapturesFit, CaptureAll, ReallyMark;
    CaptureAllFixed(NewClosure(g, cl, p), cl, cs, i);
  }

  lemma CloseFixed(g: G, t: Id, i: Id)
    requires Inv(g) && t in g.h.objs && g.h.objs[t].openupval != [] && g.h.objs[t].openupval[0] in g.h.objs && FixedIn(g.h, i)
    ensures FixedIn(CloseHead(g, t).h, i)
  {
    hide Inv, Wf, CheckUpvalColor;
    var u := g.h.objs[t].openupval[0];
    NotFixed(g, t, i);
    UpvalColorHeap(g.(h := CloseH(g.h, t)), u);
  }

  lemma NotFixed(g: G, t: Id, i: Id)
    requires Inv(g) && t in g.h.objs && g.h.objs[t].openupval != [] && FixedIn(g.h, i)
    ensures i != g.h.objs[t].openupval[0]
  {
    InvParts(g);
    WfParts(g.h);
    hide Inv, Wf, OpenSorted;
    assert OpenAt(g.h, g.h.objs[t].openupval[0], t);
    assert Shape(g.h.objs[i]);
  }

  lemma UpvalColorHeap(g: G, u: Id)
    requires u in g.h.objs
    ensures CheckUpvalColor(g, u).h == g.h
  {
  }

  /** A string that was fixed is never freed, in any run. */
  lemma {:induction false} FixedForever(g: G, ops: seq<Op>, i: Id)
    requires Inv(g) && Runs(g, ops) && FixedIn(g.h, i)
    ensures FixedIn(Exec(g, ops).h, i)
    decreases |ops|
  {
    hide Inv, Enabled, Apply;
    if ops != [] {
      StepInv(g, ops[0]);
      StepFixed(g, ops[0], i);
      FixedForever(Apply(g, ops[0]), ops[1..], i);
    }
  }

  lemma {:induction false} CycleKeepsFixed(g: G, ms: seq<nat>, i: Id)
    requires Inv(g) && i in g.h.objs && g.h.objs[i].fixed
    ensures i in Cycle(g, ms).h.objs
    decreases |ms|
  {
    hide Inv;
    if ms != [] {
      SingleStepInv(g, ms[0]);
      FixedKept(g, ms[0], i);
      CycleKeepsFixed(SingleStep(g, ms[0]), ms[1..], i);
    }
  }

  lemma {:induction false} CycleShrinks(g: G, ms: seq<nat>)
    requires Inv(g)
    ensures Cycle(g, ms).h.objs.Keys <= g.h.objs.Keys
    decreases |ms|
  {
    hide Inv;
    if ms != [] {
      SingleStepInv(g, ms[0]);
      KeysShrink(g, ms[0]);
      CycleShrinks(SingleStep(g, ms[0]), ms[1..]);
    }
  }

  /** The garbage of a heap. */
  ghost function Garbage(h: Heap): set<Id> {
    set i | i in h.objs && !h.objs[i].fixed && !StronglyReachable(h, i)
  }

  lemma GarbageIsolated(h: Heap)
    requires Wf(h)
    ensures Isolated(h, Garbage(h))
  {
    var u := Garbage(h);
    forall i | Root(h, i)
      ensures i !in u
    {
      assert StrongPath(h, [i], i);
    }
    forall i, j | i in h.objs && i !in u && Some(j) in Vals(h, i)
      ensures j !in u
    {
      assert Shape(h.objs[i]);
      if !h.objs[i].fixed {
        var path :| StrongPath(h, path, i);
        assert Edge(h, map[], i, j);
        assert StrongPath(h, path + [j], j) by {
          forall k | 0 <= k < |path + [j]| - 1
            ensures Edge(h, map[], (path + [j])[k], (path + [j])[k + 1])
          {
            if k < |path| - 1 {
              assert Edge(h, map[], path[k], path[k + 1]);
            }
          }
        }
      }
    }
  }

  /** A cycle without mutator steps keeps exactly the strongly reachable objects and the
      fixed ones. */
  lemma FullCycleExact(g: G, ms: seq<nat>, i: Id)
    requires Inv(g) && g.phase.Pause? && ms != [] && Cycle(g, ms).phase.Pause?
    ensures i in Cycle(g, ms).h.objs <==> i in g.h.objs && (StronglyReachable(g.h, i) || g.h.objs[i].fixed)
  {
    hide Inv, Wf, StronglyReachable, Isolated, Garbage;
    InvParts(g);
    var u := Garbage(g.h);
    GarbageIsolated(g.h);
    SingleStepInv(g, ms[0]);
    RestartDooms(g, u, ms[0]);
    CycleDooms(g.h, SingleStep(g, ms[0]), u, ms[1..]);
    CycleShrinks(g, ms);
    if StronglyReachable(g.h, i) {
      CycleKeeps(g, ms, i);
    } else if i in g.h.objs && g.h.objs[i].fixed {
      CycleKeepsFixed(g, ms, i);
    } else if i in g.h.objs {
      InGarbage(g.h, i);
      assert i in u;
    }
  }

  lemma InGarbage(h: Heap, i: Id)
    requires i in h.objs && !h.objs[i].fixed && !StronglyReachable(h, i)
    ensures i in Garbage(h)
  {
  }

  // ----- the sweep ends -----

  /** An upper bound for the collector steps left in a sweep. */
  function Remaining(g: G): int {
    g.sweepgc +
    match g.phase
    case SweepString => 4 + |g.h.strt| - g.sweepstr
    case SweepUdata => 2
    case Sweep => 1
    case _ => 0
  }

  /** Collector steps bring a sweep closer to its end, mutator steps never move it back. */
  lemma SweepProgress(g: G, op: Op)
    requires Inv(g) && InSweep(g) && Enabled(g, op)
    ensures var r := Apply(g, op);
      || r.phase.Pause?
      || (InSweep(r) && 0 <= Remaining(r) <= Remaining(g) && (op.Collect? && op.max > 0 ==> Remaining(r) < Remaining(g)))
  {
    hide Inv, Wf, SweepColors, Sweeps;
    EnabledFits(g, op);
    StepInv(g, op);
    var r := Apply(g, op);
    if op.Collect? {
      CollectProgress(g, r, op.max);
    } else if op.CloseUpval? {
      SweepingOf(g);
      CloseHeadSweeps(g, r, op.t);
      WhiteBit(g, r);
      CloseCursor(g, op.t);
      SweepingOf(r);
      CursorStr(r);
    } else {
      MutatorProgress(g, op);
    }
  }

  lemma MutatorProgress(g: G, op: Op)
    requires Inv(g) && InSweep(g) && Enabled(g, op) && !op.Collect? && !op.CloseUpval?
    ensures InSweep(Apply(g, op)) && 0 <= Remaining(Apply(g, op)) == Remaining(g)
  {
    hide Inv, Enabled;
    MutatorCalm(g, op);
    SweepingOf(g);
    CursorStr(g);
  }

  lemma CloseCursor(g: G, t: Id)
    requires t in g.h.objs && g.h.objs[t].openupval != [] && g.h.objs[t].openupval[0] in g.h.objs && InSweep(g)
    ensures CloseHead(g, t).sweepstr == g.sweepstr && |CloseHead(g, t).h.strt| == |g.h.strt|
  {
  }

  lemma CollectProgress(g: G, r: G, max: nat)
    requires Inv(g) && InSweep(g) && r == SingleStep(g, max) && Inv(r)
    ensures r.phase.Pause? || (InSweep(r) && 0 <= Remaining(r) <= Remaining(g))
    ensures r.phase.Pause? || (max > 0 ==> Remaining(r) < Remaining(g))
  {
    hide Inv, Wf, SweepColors, Sweeps;
    SweepingOf(g);
    CursorStr(g);
    SweepStepPhase(g, max);
    if InSweep(r) {
      SweepingOf(r);
      CursorStr(r);
    }
    match g.phase
    case SweepString =>
      SweepStringsSweeps(g, max);
      WhiteBit(g, SweepStrings(g, max));
      SweepStringsCursor(g, max);
    case SweepUdata =>
    case Sweep =>
      if g.sweepgc > 0 {
        SweepGcSweeps(g, max);
        WhiteBit(g, r);
      }
  }

  lemma {:induction false} SweepBucketCursor(g: G, k: nat, j: nat, n: nat)
    ensures SweepBucket(g, k, j, n).sweepgc == g.sweepgc
    decreases n
  {
    if !(n == 0 || k >= |g.h.strt| || j >= |g.h.strt[k]|) {
      if Dead(g, g.h.strt[k][j]) {
        SweepBucketCursor(FreeStr(g, k, j), k, j, n - 1);
      } else {
        SweepBucketCursor(SetMark(g, g.h.strt[k][j], White(g.white)), k, j + 1, n - 1);
      }
    }
  }

  lemma {:induction false} SweepStringsCursor(g: G, n: nat)
    ensures SweepStrings(g, n).sweepgc == g.sweepgc
    decreases n
  {
    if !(n == 0 || g.sweepstr >= |g.h.strt|) {
      SweepBucketCursor(g, g.sweepstr, 0, |g.h.strt[g.sweepstr]|);
      var g1 := SweepBucket(g, g.sweepstr, 0, |g.h.strt[g.sweepstr]|);
      SweepStringsCursor(g1.(sweepstr := g.sweepstr + 1), n - 1);
    }
  }

  /** From every sweep state some number of collector steps leads to rest. */
  lemma {:induction false} SweepEnds(g: G, max: nat) returns (ms: seq<nat>)
    requires Inv(g) && InSweep(g) && max > 0
    ensures Cycle(g, ms).phase.Pause? && ms != []
    decreases Remaining(g)
  {
    SingleStepInv(g, max);
    var r := SingleStep(g, max);
    CollectProgress(g, r, max);
    hide Inv;
    ms := [];
    if !r.phase.Pause? {
      ms := SweepEnds(r, max);
    }
    assert ([max] + ms)[1..] == ms;
    ms := [max] + ms;
  }

  lemma {:induction false} MarkEnds(g: G, max: nat) returns (ms: seq<nat>)
    requires Inv(g) && g.phase.Propagate? && max > 0
    ensures Cycle(g, ms).phase.Pause? && ms != []
    decreases Whites(g), |g.gray|
  {
    hide Wf, Colored, SweepColors, Sweeps;
    SingleStepInv(g, max);
    var r := SingleStep(g, max);
    if g.gray != [] {
      PropagateShrinks(g);
      PropagateStep(g, r);
      ms := MarkEnds(r, max);
    } else {
      AtomicEnters(g);
      SweepToLiveSweeps(Entering(AtomicMark(g)));
      ms := SweepEnds(r, max);
    }
    assert ([max] + ms)[1..] == ms;
    ms := [max] + ms;
  }

  /** A full cycle always ends, so that `FullCycleExact` applies to it. */
  lemma FullCycleEnds(g: G, max: nat) returns (ms: seq<nat>)
    requires Inv(g) && g.phase.Pause? && max > 0
    ensures ms != [] && Cycle(g, ms).phase.Pause?
  {
    SingleStepInv(g, max);
    hide Inv;
    ms := MarkEnds(SingleStep(g, max), max);
    assert ([max] + ms)[1..] == ms;
    ms := [max] + ms;
  }
}
