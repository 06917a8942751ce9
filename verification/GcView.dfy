/** What a program sees of a run: the effect of every step of the mutator on the values that
    objects show, whatever the collector is doing. */
module GcView {
  import opened Common
  import opened GcState
  import opened GcOpen
  import opened GcMark
  import opened GcCycle
  import opened GcSurgery
  import opened GcSweep
  import opened GcStep
  import opened GcMutator
  import opened GcEffects
  import opened GcBarrier
  import opened GcOps
  import opened GcRun
  import opened GcExact

  /** The upvalue `u` is closed: it is off the list of its thread and, unless it was dead, owns
      the value it showed.  Every object that is left shows what it showed. */
  ghost predicate Closed(g: G, r: G, t: Id, u: Id) {
    && SameVals(g.h, r.h) && t in g.h.objs && t in r.h.objs && g.h.objs[t].openupval == [u] + r.h.objs[t].openupval
    && (if Dead(g, u) then r.h.objs.Keys == g.h.objs.Keys - {u} else r.h.objs.Keys == g.h.objs.Keys && u in r.h.objs && r.h.objs[u].home.Own?)
  }

  /** The string `i` is fixed, and that is all. */
  ghost predicate FixedNow(h: Heap, r: Heap, i: Id) {
    && r.objs.Keys == h.objs.Keys && SameRoot(h, r) && OthersShow(h, r, {}) && FixedIn(r, i)
    && forall k :: k in h.objs ==> r.objs[k].kind == h.objs[k].kind && (k != i ==> r.objs[k].fixed == h.objs[k].fixed)
  }

  ghost predicate RootsAre(h: Heap, r: Heap, t: Id, registry: Option<Id>, mt: seq<Option<Id>>) {
    && r.objs == h.objs && r.mainthread == h.mainthread && r.running == t && r.registry == registry && r.mt == mt
    && r.allgc == h.allgc && r.strt == h.strt && r.uvhead == h.uvhead
  }

  /** What a step of the mutator is meant to do. */
  ghost predicate Effect(g: G, op: Op, r: G) {
    match op
    case NewObject(i, kind, n, _) => Created(g.h, r.h, i, kind, n)
    case InternString(i) => OnTop(g.h, r.h, Some(i))
    case FixString(i) => FixedNow(g.h, r.h, i)
    case StoreSlot(o, k, v) => Stored(g.h, r.h, o, k, v)
    case StoreUpval(u, v) => StoredThrough(g.h, r.h, u, v)
    case StoreStack(t, s) => StackIs(g.h, r.h, t, s)
    case SetRoots(t, registry, mt) => RootsAre(g.h, r.h, t, registry, mt)
    case MakeClosure(cl, p, cs) => ClosureMade(g.h, r.h, cl, p, cs) && p in r.cache && r.cache[p] == cl
    case CloseUpval(t) => t in g.h.objs && g.h.objs[t].openupval != [] && Closed(g, r, t, g.h.objs[t].openupval[0])
    case Collect(_) => true
  }

  lemma FixFixes(g: G, i: Id)
    requires i in g.h.objs
    ensures FixedNow(g.h, Fix(g, i).h, i)
  {
  }

  lemma CloseCloses(g: G, r: G, t: Id)
    requires Inv(g) && t in g.h.objs && g.h.objs[t].openupval != [] && g.h.objs[t].openupval[0] in g.h.objs && r == CloseHead(g, t)
    ensures Closed(g, r, t, g.h.objs[t].openupval[0])
  {
    hide Inv, Wf, CheckUpvalColor, SameVals;
    InvParts(g);
    var us := g.h.objs[t].openupval;
    var u := us[0];
    OpenFacts(g.h, t, 0);
    assert us == [u] + us[1..];
    if Dead(g, u) {
      FreeOpenWf(g.h, r.h, t, 0);
      assert us[..0] + us[1..] == us[1..];
    } else {
      var g1 := g.(h := CloseH(g.h, t));
      CloseWf(g.h, g1.h, t, u);
      UpvalColorHeap(g1, u);
    }
  }

  lemma UpvalEffect(g: G, op: Op)
    requires Inv(g) && Enabled(g, op) && (op.StoreUpval? || op.MakeClosure? || op.CloseUpval?)
    ensures Effect(g, op, ApplyUpval(g, op))
  {
    hide Inv, LiveClosed, Reachable, SetOpenUpval, PushClosure, CloseHead, CapturesFit, StoredThrough, ClosureMade, Closed;
    EnabledFits(g, op);
    var r := ApplyUpval(g, op);
    match op
    case StoreUpval(u, v) => OpenUpvalStores(g, r, u, v);
    case MakeClosure(cl, p, cs) =>
      InvParts(g);
      ReachableLive(g, p);
      forall k | 0 <= k < |cs| && cs[k].Enclosing?
        ensures Live(g, cs[k].u)
      {
        ReachableLive(g, cs[k].u);
      }
      PushClosureHolds(g, r, cl, p, cs);
    case CloseUpval(t) => CloseCloses(g, r, t);
  }

  /** In whatever phase of the collector it is taken, every step of the mutator does what it
      is meant to do and nothing else. */
  lemma StepEffect(g: G, op: Op)
    requires Inv(g) && Enabled(g, op)
    ensures Effect(g, op, Apply(g, op))
  {
    hide Inv, Reachable, NewObj, Intern, SetSlot, SingleStep, ApplyUpval, CapturesFit, Created, OnTop, FixedNow, Stored, StackIs, ClosureMade, Closed, StoredThrough;
    EnabledFits(g, op);
    var r := Apply(g, op);
    match op
    case NewObject(i, kind, n, b) => NewObjCreates(g, r, i, kind, n, b);
    case InternString(i) => InternPushes(g, r, i);
    case FixString(i) => FixFixes(g, i);
    case StoreSlot(o, k, v) => SetSlotStores(g, r, o, k, v);
    case StoreStack(t, s) => StackEffect(g, r, t, s);
    case StoreUpval(_, _) => UpvalEffect(g, op);
    case MakeClosure(_, _, _) => UpvalEffect(g, op);
    case CloseUpval(_) => UpvalEffect(g, op);
    case _ =>
  }

  lemma StackEffect(g: G, r: G, t: Id, s: seq<Option<Id>>)
    requires Inv(g) && Enabled(g, StoreStack(t, s)) && r == SetStack(g, t, s)
    ensures StackIs(g.h, r.h, t, s)
  {
    InvParts(g);
    WfParts(g.h);
    hide Inv, Wf, Reachable, StackIs;
    assert Shape(g.h.objs[t]);
    StackSets(g, r, t, s);
  }

  /** A string that some step of a run fixes is allocated ever after, whatever the mutator and
      the collector do. */
  lemma {:induction false} FixedEverAfter(g: G, ops: seq<Op>, n: nat, i: Id)
    requires Inv(g) && Runs(g, ops) && n < |ops| && ops[n] == FixString(i)
    ensures i in Exec(g, ops).h.objs && !Dead(Exec(g, ops), i)
    decreases n
  {
    hide Inv, Enabled, Apply;
    StepInv(g, ops[0]);
    var g1 := Apply(g, ops[0]);
    if n > 0 {
      FixedEverAfter(g1, ops[1..], n - 1, i);
    } else {
      StepEffect(g, ops[0]);
      FixedForever(g1, ops[1..], i);
    }
  }
}
