/** The collector as the source has it: an object whose fields are updated in place by
    loops.  Every method is proved against the function that specifies it. */
module GcCollector {
  import opened Common
  import opened GcState
  import opened GcOpen
  import opened GcMark
  import opened GcCycle
  import opened GcSurgery
  import opened GcSweep
  import opened GcStep
  import opened GcMutator
  import opened GcEffects
  import opened GcBarrier
  import opened GcOps
  import opened GcRun

  class GlobalState {
    var objs: map<Id, Obj>
    var mark: map<Id, Color>
    var cache: map<Id, Id>
    const mainthread: Id
    var running: Id
    var registry: Option<Id>
    var mt: seq<Option<Id>>
    var uvhead: seq<Id>
    var allgc: seq<Id>
    var strt: seq<seq<Id>>
    var currentwhite: bool
    var gcstate: Phase
    var gray: seq<Id>
    var grayagain: seq<Id>
    var sweepgc: nat
    var sweepstrgc: nat

    /** The fields as one value. */
    ghost function State(): G
      reads this
    {
      G(Heap(objs, mainthread, running, registry, mt, uvhead, allgc, strt), mark, cache,
        currentwhite, gcstate, gray, grayagain, sweepgc, sweepstrgc)
    }

    constructor (main: Id, buckets: nat)
      ensures Inv(State()) && gcstate == Pause && objs.Keys == {main}
    {
      objs := map[main := Obj(KThread, false, [], Own, [])];
      mark := map[main := White(false)];
      cache := map[];
      mainthread := main;
      running := main;
      registry := None;
      mt := [];
      uvhead, allgc := [], [];
      strt := seq(buckets, k => []);
      currentwhite, gcstate := false, Pause;
      gray, grayagain := [], [];
      sweepgc, sweepstrgc := 0, 0;
      new;
      hide Inv;
      assert State() == Init(main, buckets);
      InitInv(main, buckets);
    }

    // ----- marking -----

    /** `reallymarkobject`. */
    method ReallyMarkObject(i: Id)
      requires IsWhite(State(), i) && i in objs
      modifies this
      ensures State() == ReallyMark(old(State()), i)
      decreases Whites(State()), 0
    {
      ghost var g := State();
      mark := mark[i := Gray];
      assert i in Whites(g) && i !in Whites(State()) && Whites(State()) <= Whites(g);
      var o := objs[i];
      match o.kind
      case KShrStr => mark := mark[i := Black];
      case KLngStr => mark := mark[i := Black];
      case KUdata =>
        MarkValues(o.slots);
        mark := mark[i := Black];
      case KUpval =>
        MarkValues(ValuesOf(i));
        if o.home.Own? {
          mark := mark[i := Black];
        }
      case _ => gray := [i] + gray;
    }

    /** The values an object holds; an open upvalue looks into its thread's stack. */
    function ValuesOf(i: Id): (vs: seq<Option<Id>>)
      requires i in objs
      reads this
      ensures vs == Vals(State().h, i)
    {
      match objs[i].home
      case Own => objs[i].slots
      case Slot(t, l) => if t in objs && l < |objs[t].slots| then [objs[t].slots[l]] else []
    }

    /** `markvalue` and `markobject`. */
    method MarkValue(v: Option<Id>)
      modifies this
      ensures State() == Mark(old(State()), v)
      decreases Whites(State()), 1
    {
      if v.Some? && v.value in objs && v.value in mark && mark[v.value].White? {
        ReallyMarkObject(v.value);
      }
    }

    /** The loop of a traversal function. */
    method MarkValues(vs: seq<Option<Id>>)
      modifies this
      ensures State() == MarkAll(old(State()), vs)
      decreases Whites(State()), 2
    {
      ghost var g := State();
      var k := 0;
      while k < |vs|
        invariant 0 <= k <= |vs|
        invariant MarkAll(State(), vs[k..]) == MarkAll(g, vs)
        invariant Whites(State()) <= Whites(g)
      {
        assert vs[k..][1..] == vs[k + 1..];
        assert Whites(State()) == Whites(g) || Whites(State()) < Whites(g);
        MarkValue(vs[k]);
        k := k + 1;
      }
    }

    /** `propagatemark`. */
    method PropagateOne()
      requires gray != [] && gray[0] in objs
      modifies this
      ensures State() == PropagateMark(old(State()))
    {
      hide MarkAll, Whites;
      var i := gray[0];
      gray := gray[1..];
      if objs[i].kind.KThread? {
        grayagain := [i] + grayagain;
      } else {
        if i in cache && cache[i] in mark && mark[cache[i]].White? {
          cache := cache - {i};
        }
        mark := mark[i := Black];
      }
      MarkValues(objs[i].slots);
    }

    /** `propagateall`. */
    method PropagateGrays()
      requires Colored(State())
      modifies this
      ensures State() == PropagateAll(old(State()))
    {
      ghost var g := State();
      while gray != []
        invariant Colored(State()) && PropagateAll(State()) == PropagateAll(g)
        decreases Whites(State()), |gray|
      {
        assert gray[0] in gray + grayagain;
        PropagateShrinks(State());
        PropagateOne();
      }
    }

    /** `restartcollection`. */
    method RestartCollection()
      modifies this
      ensures State() == Restart(old(State()))
    {
      gray, grayagain := [], [];
      MarkValues([Some(mainthread), registry] + mt);
    }

    /** `remarkupvals`. */
    method RemarkOpenUpvals()
      modifies this
      ensures State() == RemarkUpvals(old(State()), old(uvhead))
    {
      ghost var g := State();
      var us := uvhead;
      var k := 0;
      while k < |us|
        invariant 0 <= k <= |us|
        invariant RemarkUpvals(State(), us[k..]) == RemarkUpvals(g, us)
      {
        assert us[k..][1..] == us[k + 1..];
        if us[k] in objs && us[k] in mark && mark[us[k]].Gray? {
          MarkValues(ValuesOf(us[k]));
        }
        k := k + 1;
      }
    }

    /** `atomic`. */
    method AtomicPhase()
      requires Colored(State())
      modifies this
      ensures State() == AtomicMark(old(State()))
    {
      ghost var g := State();
      MarkValues([Some(running), registry] + mt);
      RemarkOpenUpvals();
      RemarkKeeps(g);
      PropagateAllKeeps(Remark(g));
      PropagateGrays();
      TakeGrayAgainKeeps(State());
      gray, grayagain := grayagain, [];
      PropagateGrays();
      currentwhite := !currentwhite;
    }

    // ----- sweeping -----

    /** `isdead`. */
    predicate IsDead(i: Id)
      reads this
      ensures IsDead(i) <==> Dead(State(), i)
    {
      i in objs && i in mark && mark[i] == White(!currentwhite) && !objs[i].fixed
    }

    /** Unlink and free the `k`-th open upvalue of thread `t`. */
    method FreeOpenUpval(t: Id, k: nat)
      requires t in objs && k < |objs[t].openupval|
      modifies this
      ensures State() == FreeOpen(old(State()), t, k)
    {
      var us := objs[t].openupval;
      objs := objs[t := objs[t].(openupval := us[..k] + us[k + 1..])] - {us[k]};
      uvhead := Minus(uvhead, {us[k]});
      mark := mark - {us[k]};
    }

    /** The loop of `luaF_close`, for at most `n` upvalues of thread `t`. */
    method CloseUpvals(t: Id, n: nat)
      modifies this
      ensures State() == CloseSome(old(State()), t, n)
    {
      ghost var g := State();
      var k := 0;
      while k < n && t in objs && objs[t].openupval != [] && objs[t].openupval[0] in objs
        invariant 0 <= k <= n
        invariant CloseSome(State(), t, n - k) == CloseSome(g, t, n)
        decreases n - k
      {
        CloseFirst(t);
        k := k + 1;
      }
    }

    method CloseFirst(t: Id)
      requires t in objs && objs[t].openupval != [] && objs[t].openupval[0] in objs
      modifies this
      ensures State() == CloseHead(old(State()), t)
    {
      var u := objs[t].openupval[0];
      if IsDead(u) {
        assert objs[t].openupval[..0] + objs[t].openupval[1..] == objs[t].openupval[1..];
        FreeOpenUpval(t, 0);
      } else {
        var closed := objs[u].(slots := ValuesOf(u), home := Own);
        objs := objs[t := objs[t].(openupval := objs[t].openupval[1..])][u := closed];
        uvhead := Minus(uvhead, {u});
        allgc := [u] + allgc;
        if u in mark && mark[u].Gray? {
          if gcstate.Propagate? || gcstate.Atomic? {
            mark := mark[u := Black];
            MarkValues(ValuesOf(u));
          } else {
            mark := mark[u := White(currentwhite)];
          }
        }
      }
    }

    /** `sweepthread`: the loop over the open upvalues of a thread. */
    method SweepThread(t: Id)
      requires t in objs
      modifies this
      ensures State() == SweepOpen(old(State()), t, 0, |old(objs[t].openupval)|)
    {
      ghost var g := State();
      var n := |objs[t].openupval|;
      var k: nat, left: nat := 0, n;
      while left > 0 && t in objs && k < |objs[t].openupval|
        invariant SweepOpen(State(), t, k, left) == SweepOpen(g, t, 0, n)
        decreases left
      {
        var u := objs[t].openupval[k];
        if IsDead(u) {
          FreeOpenUpval(t, k);
        } else {
          mark := mark[u := White(currentwhite)];
          k := k + 1;
        }
        left := left - 1;
      }
    }

    /** Unlink and free the object behind the cursor. */
    method FreeAtCursor()
      requires 0 < sweepgc <= |allgc|
      modifies this
      ensures State() == FreeNext(old(State()))
    {
      var p := |allgc| - sweepgc;
      var i := allgc[p];
      objs, mark, cache := objs - {i}, mark - {i}, cache - {i};
      allgc := allgc[..p] + allgc[p + 1..];
      sweepgc := sweepgc - 1;
    }

    /** One round of `sweeplist` on `allgc`.  `freeobj` on a thread first closes its open
        upvalues, which go to the head of `allgc` and do not disturb the cursor. */
    method SweepOne()
      requires 0 < sweepgc <= |allgc| && allgc[|allgc| - sweepgc] in objs
      modifies this
      ensures State() == SweepNext(old(State()))
    {
      var i, left, white := allgc[|allgc| - sweepgc], sweepgc - 1, White(currentwhite);
      if IsDead(i) {
        if objs[i].kind.KThread? {
          CloseUpvals(i, |objs[i].openupval|);
        }
        FreeAtCursor();
      } else {
        if objs[i].kind.KThread? {
          SweepThread(i);
        }
        mark := mark[i := white];
        sweepgc := left;
      }
    }

    /** `sweeplist` on `allgc`, from the cursor, at most `count` objects. */
    method SweepList(count: nat)
      requires Sweeping(State()) && InSweep(State())
      modifies this
      ensures State() == SweepGc(old(State()), count)
    {
      hide Wf, SweepColors, Sweeps;
      ghost var g := State();
      var left := count;
      while left > 0 && sweepgc > 0
        invariant Sweeping(State()) && InSweep(State()) && SweepGc(State(), left) == SweepGc(g, count)
        decreases left
      {
        SweepNextSweeps(State());
        SweepOne();
        left := left - 1;
      }
    }

    /** `sweepwholelist` on one bucket of the string table. */
    method SweepStringList(k: nat)
      requires k < |strt|
      modifies this
      ensures State() == SweepBucket(old(State()), k, 0, |old(strt)[k]|)
    {
      ghost var g := State();
      var n := |strt[k]|;
      var j: nat, left: nat := 0, n;
      while left > 0 && k < |strt| && j < |strt[k]|
        invariant SweepBucket(State(), k, j, left) == SweepBucket(g, k, 0, n)
        decreases left
      {
        ghost var before := State();
        var i := strt[k][j];
        if IsDead(i) {
          objs, mark := objs - {i}, mark - {i};
          strt := strt[k := strt[k][..j] + strt[k][j + 1..]];
          assert State() == FreeStr(before, k, j);
        } else {
          mark := mark[i := White(currentwhite)];
          assert State() == SetMark(before, i, White(currentwhite));
          j := j + 1;
        }
        left := left - 1;
      }
    }

    /** The loop of the string phase of `singlestep`. */
    method SweepSomeStrings(max: nat)
      modifies this
      ensures State() == SweepStrings(old(State()), max)
    {
      ghost var g := State();
      var left := max;
      while left > 0 && sweepstrgc < |strt|
        invariant SweepStrings(State(), left) == SweepStrings(g, max)
        decreases left
      {
        var k := sweepstrgc;
        SweepStringList(k);
        sweepstrgc := k + 1;
        left := left - 1;
      }
    }

    /** `sweeptolive` from the head of `allgc`. */
    method SweepHeadToLive()
      requires Sweeping(State()) && InSweep(State())
      modifies this
      ensures State() == SweepToLive(old(State()))
    {
      hide Wf, SweepColors, Sweeps;
      ghost var g := State();
      while allgc != []
        invariant Sweeping(State()) && InSweep(State()) && SweepToLive(State()) == SweepToLive(g)
        decreases DeadSet(State())
      {
        ghost var g0 := State().(sweepgc := |allgc|);
        CursorBack(State(), g0);
        SweepNextSweeps(g0);
        sweepgc := |allgc|;
        var i := allgc[0];
        var dead := IsDead(i);
        SweepOne();
        if !dead {
          return;
        }
        DeadShrinks(g0, State(), i);
      }
      sweepgc := 0;
    }

    /** `entersweep`. */
    method StartSweep()
      requires Sweeping(Entering(State()))
      modifies this
      ensures State() == EnterSweep(old(State()))
    {
      hide Sweeping, SweepToLive;
      ghost var g := State();
      gcstate := SweepString;
      sweepstrgc, sweepgc := 0, |allgc|;
      assert State() == Entering(g);
      SweepHeadToLive();
    }

    /** `singlestep`: one step of the collector. */
    method Step(max: nat)
      requires Inv(State())
      modifies this
      ensures State() == SingleStep(old(State()), max) && Inv(State())
    {
      hide Wf, SweepColors, Sweeps;
      ghost var g := State();
      SingleStepInv(g, max);
      match gcstate
      case Pause =>
        RestartCollection();
        gcstate := Propagate;
      case Propagate =>
        if gray != [] {
          assert gray[0] in gray + grayagain;
          PropagateOne();
        } else {
          AtomicEnters(g);
          AtomicPhase();
          StartSweep();
        }
      case SweepString =>
        SweepSomeStrings(max);
        if sweepstrgc >= |strt| {
          gcstate := SweepUdata;
        }
      case SweepUdata => gcstate := Sweep;
      case Sweep =>
        if sweepgc > 0 {
          SweepList(max);
        } else {
          RootLive(g);
          var white := White(currentwhite);
          SweepThread(mainthread);
          mark := mark[mainthread := white];
          gcstate := Pause;
        }
    }

    // ----- the mutator's side -----

    /** `luaC_newobj`, with the new object anchored in the running thread's stack. */
    method NewObject(i: Id, kind: Kind, n: nat, bucket: nat)
      requires Inv(State()) && i !in objs && Creatable(kind, n) && (kind.KShrStr? ==> bucket < |strt|)
      modifies this
      ensures running in old(objs) && State() == NewObj(old(State()), i, kind, n, bucket) && Inv(State())
      ensures Created(old(State()).h, State().h, i, kind, n)
    {
      hide Inv, Created;
      RunningFacts(State());
      NewObjCreates(State(), NewObj(State(), i, kind, n, bucket), i, kind, n, bucket);
      NewObjInv(State(), NewObj(State(), i, kind, n, bucket), i, kind, n, bucket);
      var o := Obj(kind, false, Nils(n), Own, []);
      objs, mark := objs[i := o], mark[i := White(currentwhite)];
      if kind.KShrStr? {
        strt := strt[bucket := [i] + strt[bucket]];
      } else {
        allgc := [i] + allgc;
      }
      objs := objs[running := objs[running].(slots := objs[running].slots + [Some(i)])];
    }

    /** `luaC_barrier_`. */
    method BarrierForwardTo(o: Id, v: Id)
      requires v in objs && IsWhite(State(), v)
      modifies this
      ensures State() == BarrierForward(old(State()), o, v)
    {
      if gcstate.Propagate? || gcstate.Atomic? {
        ReallyMarkObject(v);
      } else {
        mark := mark[o := White(currentwhite)];
      }
    }

    /** A store with its barrier: `luaC_barrierback` for tables, else `luaC_barrier`. */
    method Store(o: Id, k: nat, v: Option<Id>)
      requires Inv(State()) && Live(State(), o) && (v.Some? ==> Live(State(), v.value)) && k <= |objs[o].slots|
      requires !objs[o].kind.KThread? && !IsString(objs[o].kind) && objs[o].home.Own?
      requires objs[o].kind.KUpval? ==> k == 0
      modifies this
      ensures State() == SetSlot(old(State()), o, k, v) && Inv(State())
      ensures Stored(old(State()).h, State().h, o, k, v)
    {
      hide Inv, Stored;
      SetSlotInv(State(), SetSlot(State(), o, k, v), o, k, v);
      var s := objs[o].slots;
      objs := objs[o := objs[o].(slots := if k < |s| then s[k := v] else s + [v])];
      if v.Some? && v.value in objs && v.value in mark && mark[v.value].White? && o in mark && mark[o].Black? {
        if objs[o].kind.KTable? {
          mark := mark[o := Gray];
          grayagain := [o] + grayagain;
        } else {
          BarrierForwardTo(o, v.value);
        }
      }
    }

    /** The loop of `luaF_findupval`, which stops at the first open upvalue not above the level. */
    method LocateUpvalue(level: nat) returns (k: nat)
      requires running in objs
      ensures k == Position(State().h, objs[running].openupval, level)
    {
      var us := objs[running].openupval;
      k := 0;
      while k < |us| && us[k] in objs && objs[us[k]].home.Slot? && objs[us[k]].home.level > level
        invariant 0 <= k <= |us| && forall j :: 0 <= j < k ==> Above(State().h, us[j], level)
      {
        k := k + 1;
      }
      PositionIs(State().h, us, level, k);
    }

    /** `luaF_findupval` on the running thread. */
    method FindUpvalue(level: nat, u: Id) returns (w: Id)
      requires Inv(State()) && u !in objs && running in objs && level < |objs[running].slots|
      modifies this
      ensures (State(), w) == FindUpval(old(State()), level, u) && Inv(State()) && Live(State(), w)
    {
      hide Inv, Position;
      ghost var g := State();
      FindUpvalInv(g, level, u);
      var us := objs[running].openupval;
      var pos := LocateUpvalue(level);
      if pos < |us| && us[pos] in objs && objs[us[pos]].home == Slot(running, level) {
        w := us[pos];
        if IsDead(w) {
          mark := mark[w := White(currentwhite)];
        }
        return;
      }
      w := u;
      objs := objs[running := objs[running].(openupval := us[..pos] + ([u] + us[pos..]))][u := Obj(KUpval, false, [], Slot(running, level), [])];
      uvhead := [u] + uvhead;
      mark := mark[u := White(currentwhite)];
    }
  }
}
