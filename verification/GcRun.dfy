/** Runs of the collector interleaved with the mutator, and what holds in all of them. */
module GcRun {
  import opened Common
  import opened GcState
  import opened GcMark
  import opened GcCycle
  import opened GcSurgery
  import opened GcSweep
  import opened GcStep
  import opened GcMutator
  import opened GcEffects
  import opened GcBarrier
  import opened GcOps

  /** One step of the interleaving. */
  datatype Op =
    | NewObject(i: Id, kind: Kind, n: nat, bucket: nat)
    | InternString(i: Id)
    | FixString(i: Id)
    | StoreSlot(o: Id, k: nat, v: Option<Id>)
    | StoreUpval(u: Id, v: Option<Id>)
    | StoreStack(t: Id, s: seq<Option<Id>>)
    | SetRoots(running: Id, registry: Option<Id>, mt: seq<Option<Id>>)
    | MakeClosure(cl: Id, p: Id, captures: seq<Capture>)
    | CloseUpval(t: Id)
    | Collect(max: nat)

  ghost predicate ReachableKind(g: G, i: Id, kind: Kind) {
    Reachable(g, i) && i in g.h.objs && g.h.objs[i].kind == kind
  }

  /** The mutator uses only what it can reach; new objects get unused addresses; slots
      captured by open upvalues are not popped. */
  ghost predicate Enabled(g: G, op: Op) {
    match op
    case NewObject(i, kind, n, b) => i !in g.h.objs && Creatable(kind, n) && (kind.KShrStr? ==> b < |g.h.strt|)
    case InternString(i) => InBucket(g.h, i)
    case FixString(i) => Reachable(g, i) && i in g.h.objs && IsString(g.h.objs[i].kind)
    case StoreSlot(o, k, v) =>
      && Reachable(g, o) && Usable(g, v) && o in g.h.objs && k <= |g.h.objs[o].slots|
      && !g.h.objs[o].kind.KThread? && !IsString(g.h.objs[o].kind) && g.h.objs[o].home.Own?
      && (g.h.objs[o].kind.KUpval? ==> k == 0)
    case StoreUpval(u, v) => Reachable(g, u) && Usable(g, v) && u in g.h.objs && g.h.objs[u].home.Slot?
    case StoreStack(t, s) =>
      && ReachableKind(g, t, KThread) && (forall k :: 0 <= k < |s| ==> Usable(g, s[k]))
      && forall u :: u in g.h.objs[t].openupval && u in g.h.objs && g.h.objs[u].home.Slot? ==> g.h.objs[u].home.level < |s|
    case SetRoots(t, registry, mt) =>
      ReachableKind(g, t, KThread) && Usable(g, registry) && forall k :: 0 <= k < |mt| ==> Usable(g, mt[k])
    case MakeClosure(cl, p, cs) =>
      && cl !in g.h.objs && ReachableKind(g, p, KProto) && g.h.running in g.h.objs
      && CapturesFit(NewClosure(g, cl, p), cl, cs)
      && forall k :: 0 <= k < |cs| && cs[k].Enclosing? ==> Reachable(g, cs[k].u)
    case CloseUpval(t) => ReachableKind(g, t, KThread) && g.h.objs[t].openupval != []
    case Collect(max) => true
  }

  lemma EnabledFits(g: G, op: Op)
    requires Inv(g) && Enabled(g, op)
    ensures g.h.running in g.h.objs
    ensures op.StoreUpval? ==> g.h.objs[op.u].home.thread in g.h.objs && g.h.objs[op.u].home.level < |g.h.objs[g.h.objs[op.u].home.thread].slots|
    ensures op.CloseUpval? ==> g.h.objs[op.t].openupval[0] in g.h.objs
  {
    hide Inv, Reachable;
    RunningFacts(g);
    if op.StoreUpval? {
      OpenUpvalFacts(g, op.u);
    } else if op.CloseUpval? {
      InvParts(g);
      OpenFacts(g.h, op.t, 0);
    }
  }

  /** The effect of an enabled step. */
  ghost function Apply(g: G, op: Op): G
    requires Inv(g) && Enabled(g, op)
  {
    EnabledFits(g, op);
    match op
    case NewObject(i, kind, n, b) => NewObj(g, i, kind, n, b)
    case InternString(i) => Intern(g, i)
    case FixString(i) => Fix(g, i)
    case StoreSlot(o, k, v) => SetSlot(g, o, k, v)
    case StoreStack(t, s) => SetStack(g, t, s)
    case SetRoots(t, registry, mt) => g.(h := g.h.(running := t, registry := registry, mt := mt))
    case Collect(max) => SingleStep(g, max)
    case _ => ApplyUpval(g, op)
  }

  /** The effect of a step that deals with upvalues. */
  ghost function ApplyUpval(g: G, op: Op): G
    requires Inv(g) && Enabled(g, op) && (op.StoreUpval? || op.MakeClosure? || op.CloseUpval?)
  {
    EnabledFits(g, op);
    if op.StoreUpval? then SetOpenUpval(g, op.u, op.v)
    else if op.MakeClosure? then PushClosure(g, op.cl, op.p, op.captures)
    else CloseHead(g, op.t)
  }

  lemma UsableLive(g: G, v: Option<Id>)
    requires LiveClosed(g) && Usable(g, v)
    ensures v.Some? ==> Live(g, v.value)
  {
    if v.Some? {
      ReachableLive(g, v.value);
    }
  }

  lemma StackOk(g: G, t: Id, s: seq<Option<Id>>)
    requires LiveClosed(g) && t in g.h.objs && forall k :: 0 <= k < |s| ==> Usable(g, s[k])
    ensures SlotsOk(g, t, s)
  {
    forall k | 0 <= k < |s|
      ensures s[k].None? || Live(g, s[k].value)
    {
      UsableLive(g, s[k]);
    }
  }

  lemma RootsOk(g: G, r: G, op: Op)
    requires Inv(g) && Enabled(g, op) && op.SetRoots? && r == Apply(g, op)
    ensures Inv(r)
  {
    InvParts(g);
    hide Inv, Wf;
    ReachableLive(g, op.running);
    UsableLive(g, op.registry);
    forall i: Id | Root(r.h, i)
      ensures Live(g, i)
    {
      if Some(i) in op.mt {
        var k :| 0 <= k < |op.mt| && op.mt[k] == Some(i);
        UsableLive(g, op.mt[k]);
      } else if i == g.h.mainthread {
        assert Root(g.h, i);
      }
    }
    RootsInv(g, r);
  }

  lemma StackStep(g: G, r: G, op: Op)
    requires Inv(g) && Enabled(g, op) && op.StoreStack? && r == Apply(g, op)
    ensures Inv(r)
  {
    InvParts(g);
    WfParts(g.h);
    hide Inv, Wf, LiveClosed;
    StackOk(g, op.t, op.s);
    assert Shape(g.h.objs[op.t]);
    SetStackInv(g, r, op.t, op.s);
  }

  lemma ClosureStep(g: G, r: G, op: Op)
    requires Inv(g) && Enabled(g, op) && op.MakeClosure? && r == Apply(g, op)
    ensures Inv(r)
  {
    InvParts(g);
    hide Inv, Wf, LiveClosed, Reachable;
    ReachableLive(g, op.p);
    forall k | 0 <= k < |op.captures| && op.captures[k].Enclosing?
      ensures Live(g, op.captures[k].u)
    {
      ReachableLive(g, op.captures[k].u);
    }
    PushClosureInv(g, r, op.cl, op.p, op.captures);
  }

  /** Every step, of the mutator or of the collector, keeps the invariant. */
  lemma StepInv(g: G, op: Op)
    requires Inv(g) && Enabled(g, op)
    ensures Inv(Apply(g, op))
  {
    InvParts(g);
    EnabledFits(g, op);
    var r := Apply(g, op);
    hide Inv, Wf, LiveClosed, Reachable;
    match op
    case NewObject(i, kind, n, b) => NewObjInv(g, r, i, kind, n, b);
    case InternString(i) => InternInv(g, r, i);
    case FixString(i) =>
      ReachableLive(g, i);
      FixInv(g, r, i);
    case StoreSlot(o, k, v) =>
      ReachableLive(g, o);
      UsableLive(g, v);
      SetSlotInv(g, r, o, k, v);
    case StoreUpval(u, v) =>
      UsableLive(g, v);
      SetOpenUpvalInv(g, r, u, v);
    case StoreStack(t, s) => StackStep(g, r, op);
    case SetRoots(t, registry, mt) => RootsOk(g, r, op);
    case MakeClosure(cl, p, cs) => ClosureStep(g, r, op);
    case CloseUpval(t) => CloseHeadInv(g, r, t);
    case Collect(max) => SingleStepInv(g, max);
  }

  // ----- runs -----

  /** A new state: the main thread only, with the first white, and the collector at rest. */
  function Init(main: Id, buckets: nat): G {
    G(Heap(map[main := Obj(KThread, false, [], Own, [])], main, main, None, [], [], [], seq(buckets, k => [])),
      map[main := White(false)], map[], false, Pause, [], [], 0, 0)
  }

  ghost predicate Runs(g: G, ops: seq<Op>)
    requires Inv(g)
    decreases |ops|
  {
    ops == [] || (Enabled(g, ops[0]) && (StepInv(g, ops[0]); Runs(Apply(g, ops[0]), ops[1..])))
  }

  ghost function Exec(g: G, ops: seq<Op>): (r: G)
    requires Inv(g) && Runs(g, ops)
    ensures Inv(r)
    decreases |ops|
  {
    if ops == [] then g else
      StepInv(g, ops[0]);
      Exec(Apply(g, ops[0]), ops[1..])
  }

  lemma InitInv(main: Id, buckets: nat)
    ensures Inv(Init(main, buckets))
  {
    var g := Init(main, buckets);
    assert Vals(g.h, main) == [];
  }

  ghost predicate RunsFromStart(main: Id, buckets: nat, ops: seq<Op>) {
    InitInv(main, buckets);
    Runs(Init(main, buckets), ops)
  }

  /** The state after a run from the start. */
  ghost function After(main: Id, buckets: nat, ops: seq<Op>): G
    requires RunsFromStart(main, buckets, ops)
  {
    InitInv(main, buckets);
    Exec(Init(main, buckets), ops)
  }

  /** Safety: in every state of every run, whatever the mutator can reach, also through a
      prototype's cache, is allocated and not about to be freed. */
  lemma RunSafe(main: Id, buckets: nat, ops: seq<Op>, i: Id)
    requires RunsFromStart(main, buckets, ops)
    requires Reachable(After(main, buckets, ops), i)
    ensures Live(After(main, buckets, ops), i)
  {
    var g := After(main, buckets, ops);
    InvParts(g);
    ReachableLive(g, i);
  }

  /** The main invariant: in every state of every run, while marking, no black object
      points to a white one and every gray object will be visited again. */
  lemma RunTriColor(main: Id, buckets: nat, ops: seq<Op>)
    requires RunsFromStart(main, buckets, ops)
    requires After(main, buckets, ops).phase.Propagate?
    ensures TriColor(After(main, buckets, ops)) && GrayListed(After(main, buckets, ops))
  {
  }

  // ----- the collector does not disturb the mutator -----

  /** Reachable without the caches of prototypes. */
  ghost predicate StrongPath(h: Heap, path: seq<Id>, i: Id) { PathTo(h, map[], path, i) }

  ghost predicate StronglyReachable(h: Heap, i: Id) { exists path :: StrongPath(h, path, i) }

  /** `i` is still there and holds what it held. */
  ghost predicate Kept(g: Heap, r: Heap, i: Id) {
    i in g.objs && i in r.objs && r.objs[i].kind == g.objs[i].kind && Vals(r, i) == Vals(g, i)
  }

  lemma StrongPathLive(g: G, path: seq<Id>, i: Id)
    requires LiveClosed(g) && StrongPath(g.h, path, i)
    ensures forall k :: 0 <= k < |path| ==> Live(g, path[k])
  {
    forall k | 0 <= k < |path| - 1
      ensures Edge(g.h, g.cache, path[k], path[k + 1])
    {
      assert Edge(g.h, map[], path[k], path[k + 1]);
    }
    assert Path(g.h, g.cache, path);
    PathLive(g, path);
  }

  lemma StrongPathKept(g: Heap, r: Heap, path: seq<Id>, i: Id)
    requires StrongPath(g, path, i) && SameRoot(g, r)
    requires forall k :: 0 <= k < |path| ==> Kept(g, r, path[k])
    ensures StrongPath(r, path, i)
  {
    forall k | 0 <= k < |path| - 1
      ensures Edge(r, map[], path[k], path[k + 1])
    {
      assert Edge(g, map[], path[k], path[k + 1]);
      assert Kept(g, r, path[k]);
    }
  }

  lemma SweepsKept(g: G, r: G)
    requires Sweeps(g, r)
    ensures SameRoot(g.h, r.h) && forall i :: Live(g, i) ==> Kept(g.h, r.h, i)
  {
  }

  lemma SweepsPhase(g: G, a: G, r: G)
    requires Sweeps(g, a) && r == a.(phase := r.phase)
    ensures Sweeps(g, r.(phase := g.phase))
  {
  }

  /** A collector step of a sweep phase only sweeps. */
  lemma SweepStep(g: G, max: nat)
    requires Inv(g) && InSweep(g)
    ensures Sweeps(g, SingleStep(g, max).(phase := g.phase))
  {
    hide Wf, SweepColors, Sweeps;
    var r := SingleStep(g, max);
    match g.phase
    case SweepString =>
      SweepStringsSweeps(g, max);
      SweepsPhase(g, SweepStrings(g, max), r);
    case SweepUdata =>
      SweepsRefl(g);
      SweepsPhase(g, g, r);
    case Sweep =>
      if g.sweepgc > 0 {
        SweepGcSweeps(g, max);
        SweepsPhase(g, r, r);
      } else {
        RootLive(g);
        SweepMainRests(g, r);
      }
  }

  /** A collector step of the marking half changes the heap only when `atomic` has just
      made the unmarked objects dead. */
  lemma MarkStep(g: G, max: nat) returns (e: G)
    requires Inv(g) && !InSweep(g)
    ensures e.h == g.h && LiveClosed(e)
    ensures SameRoot(e.h, SingleStep(g, max).h) && forall i :: Live(e, i) ==> Kept(e.h, SingleStep(g, max).h, i)
  {
    hide Wf, SweepColors, Sweeps, Colored, Marks, LiveClosed, MarksOk;
    var r := SingleStep(g, max);
    InvParts(g);
    e := g;
    if g.phase.Pause? {
      RestartKeeps(g);
      MarksMain(g.(gray := [], grayagain := []), Restart(g));
    } else if g.gray != [] {
      PropagateStep(g, r);
    } else {
      AtomicEnters(g);
      e := Entering(AtomicMark(g));
      SweepToLiveSweeps(e);
      SweepsKept(e, r);
      AtomicHeap(g);
      SweepingLive(e);
    }
  }

  lemma SweepingLive(g: G)
    requires SweepColors(g)
    ensures LiveClosed(g)
  {
  }

  lemma AtomicHeap(g: G)
    requires Inv(g) && g.phase.Propagate?
    ensures AtomicMark(g).h == g.h
  {
    AtomicCompletes(g);
  }

  /** No collector step frees or changes a strongly reachable object, in whatever phase and
      between whatever mutator steps it is taken. */
  lemma CollectKeeps(g: G, max: nat, i: Id)
    requires Inv(g) && StronglyReachable(g.h, i)
    ensures Kept(g.h, SingleStep(g, max).h, i) && StronglyReachable(SingleStep(g, max).h, i)
  {
    var path :| StrongPath(g.h, path, i);
    var r := SingleStep(g, max);
    InvParts(g);
    hide Inv, Sweeps, LiveClosed, StrongPath, Wf;
    var e := g;
    if InSweep(g) {
      SweepStep(g, max);
      SweepsKept(g, r.(phase := g.phase));
    } else {
      e := MarkStep(g, max);
    }
    StrongPathLive(e, path, i);
    StrongPathKept(g.h, r.h, path, i);
    PathEnd(g.h, path, i);
  }

  lemma PathEnd(h: Heap, path: seq<Id>, i: Id)
    requires StrongPath(h, path, i)
    ensures path != [] && path[|path| - 1] == i
  {
  }
}
