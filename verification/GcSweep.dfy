/** The sweeping half of a collection cycle.  Sweeping frees dead objects and gives the
    current white to the others; the relation `Sweeps` says that this is all it does. */
module GcSweep {
  import opened Common
  import opened GcState
  import opened GcMark
  import opened GcSurgery

  /** `issweepphase`. */
  predicate InSweep(g: G) { g.phase.SweepString? || g.phase.SweepUdata? || g.phase.Sweep? }

  // ----- the steps -----

  /** Free the `k`-th open upvalue of thread `t`. */
  function FreeOpen(g: G, t: Id, k: nat): G
    requires t in g.h.objs && k < |g.h.objs[t].openupval|
  {
    g.(h := FreeOpenH(g.h, t, k), mark := g.mark - {g.h.objs[t].openupval[k]})
  }

  /** `luaC_checkupvalcolor` for an upvalue that has just been closed. */
  function CheckUpvalColor(g: G, u: Id): G
    requires u in g.h.objs
  {
    if !IsGray(g, u) then g
    else if g.phase.Propagate? || g.phase.Atomic? then MarkAll(SetMark(g, u, Black), Vals(g.h, u))
    else SetMark(g, u, White(g.white))
  }

  /** One round of the loop of `luaF_close`, for the first open upvalue of thread `t`. */
  function CloseHead(g: G, t: Id): (r: G)
    requires t in g.h.objs && g.h.objs[t].openupval != [] && g.h.objs[t].openupval[0] in g.h.objs
    ensures r.sweepgc == g.sweepgc && |g.h.allgc| <= |r.h.allgc|
  {
    var u := g.h.objs[t].openupval[0];
    if Dead(g, u) then FreeOpen(g, t, 0)
    else CheckUpvalColor(g.(h := CloseH(g.h, t)), u)
  }

  /** `luaF_close` on thread `t`, for at most `n` upvalues. */
  function CloseSome(g: G, t: Id, n: nat): (r: G)
    ensures r.sweepgc == g.sweepgc && |g.h.allgc| <= |r.h.allgc|
    decreases n
  {
    if n == 0 || t !in g.h.objs || g.h.objs[t].openupval == [] || g.h.objs[t].openupval[0] !in g.h.objs then g
    else CloseSome(CloseHead(g, t), t, n - 1)
  }

  /** `luaF_close` for the whole stack of a thread, as `luaE_freethread` calls it. */
  function CloseAll(g: G, t: Id): (r: G)
    requires t in g.h.objs
    ensures r.sweepgc == g.sweepgc && |g.h.allgc| <= |r.h.allgc|
  {
    CloseSome(g, t, |g.h.objs[t].openupval|)
  }

  /** The facts about an open upvalue that the color lemmas use. */
  lemma OpenFacts(h: Heap, t: Id, k: nat)
    requires Wf(h) && t in h.objs && k < |h.objs[t].openupval|
    ensures OpenAt(h, h.objs[t].openupval[k], t)
    ensures Shape(h.objs[h.objs[t].openupval[k]]) && Shape(h.objs[t])
    ensures h.objs[t].openupval[k] !in h.allgc && NoDup(h.objs[t].openupval)
  {
    assert OpenAt(h, h.objs[t].openupval[k], t);
  }

  lemma CloseHeadHeap(g: G, t: Id)
    requires Wf(g.h) && t in g.h.objs && g.h.objs[t].openupval != []
    requires g.h.objs[t].openupval[0] in g.h.objs && InSweep(g)
    ensures Wf(CloseHead(g, t).h) && SameVals(g.h, CloseHead(g, t).h)
    ensures t in CloseHead(g, t).h.objs
    ensures CloseHead(g, t).h.objs[t].openupval == g.h.objs[t].openupval[1..]
  {
    var u := g.h.objs[t].openupval[0];
    OpenFacts(g.h, t, 0);
    FreeOpenWf(g.h, FreeOpenH(g.h, t, 0), t, 0);
    CloseWf(g.h, CloseH(g.h, t), t, u);
    CloseHeadShape(g, t, u);
  }

  lemma CloseHeadShape(g: G, t: Id, u: Id)
    requires t in g.h.objs && g.h.objs[t].openupval != [] && u == g.h.objs[t].openupval[0] && InSweep(g)
    requires u in g.h.objs && OpenAt(g.h, u, t) && Shape(g.h.objs[u]) && Shape(g.h.objs[t])
    ensures CloseHead(g, t).h == if Dead(g, u) then FreeOpenH(g.h, t, 0) else CloseH(g.h, t)
    ensures t in CloseHead(g, t).h.objs
    ensures CloseHead(g, t).h.objs[t].openupval == g.h.objs[t].openupval[1..]
  {
  }

  /** In a sweep phase a closed upvalue ends up with the current white. */
  lemma CloseHeadLive(g: G, r: G, t: Id, u: Id)
    requires MarksOk(g) && InSweep(g) && t in g.h.objs && g.h.objs[t].openupval != []
    requires u == g.h.objs[t].openupval[0] && u in g.h.objs && !Dead(g, u) && r == CloseHead(g, t)
    requires OpenAt(g.h, u, t) && Shape(g.h.objs[u]) && Shape(g.h.objs[t])
    ensures r == g.(h := CloseH(g.h, t), mark := g.mark[u := White(g.white)])
    ensures r.h.objs.Keys == g.h.objs.Keys
    ensures forall i :: i in r.h.objs && i != u ==> r.h.objs[i].home == g.h.objs[i].home
  {
    if !IsGray(g, u) {
      assert g.mark[u] == White(g.white);
      assert g.mark[u := White(g.white)] == g.mark;
    }
  }

  /** `sweepwholelist` on the open upvalues of a live thread: from position `k` on, the
      next `n` of them. */
  function SweepOpen(g: G, t: Id, k: nat, n: nat): G
    decreases n
  {
    if n == 0 || t !in g.h.objs || k >= |g.h.objs[t].openupval| then g
    else if Dead(g, g.h.objs[t].openupval[k]) then SweepOpen(FreeOpen(g, t, k), t, k, n - 1)
    else SweepOpen(SetMark(g, g.h.objs[t].openupval[k], White(g.white)), t, k + 1, n - 1)
  }

  /** The object right behind the sweep cursor. */
  function Next(g: G): Id
    requires 0 < g.sweepgc <= |g.h.allgc|
  {
    g.h.allgc[|g.h.allgc| - g.sweepgc]
  }

  /** Free the object right behind the cursor. */
  function FreeNext(g: G): G
    requires 0 < g.sweepgc <= |g.h.allgc|
  {
    g.(h := FreeListedH(g.h, |g.h.allgc| - g.sweepgc), mark := g.mark - {Next(g)},
       cache := g.cache - {Next(g)}, sweepgc := g.sweepgc - 1)
  }

  /** One round of `sweeplist` on `allgc`. */
  function SweepNext(g: G): G
    requires 0 < g.sweepgc <= |g.h.allgc| && Next(g) in g.h.objs
  {
    var i := Next(g);
    if Dead(g, i) then
      FreeNext(if g.h.objs[i].kind.KThread? then CloseAll(g, i) else g)
    else
      var g1 := if g.h.objs[i].kind.KThread? then SweepOpen(g, i, 0, |g.h.objs[i].openupval|) else g;
      SetMark(g1, i, White(g.white)).(sweepgc := g.sweepgc - 1)
  }

  /** Free the `j`-th string of bucket `k`. */
  function FreeStr(g: G, k: nat, j: nat): G
    requires k < |g.h.strt| && j < |g.h.strt[k]|
  {
    g.(h := FreeStrH(g.h, k, j), mark := g.mark - {g.h.strt[k][j]})
  }

  /** `sweepwholelist` on a bucket: from position `j` on, the next `n` strings. */
  function SweepBucket(g: G, k: nat, j: nat, n: nat): G
    decreases n
  {
    if n == 0 || k >= |g.h.strt| || j >= |g.h.strt[k]| then g
    else if Dead(g, g.h.strt[k][j]) then SweepBucket(FreeStr(g, k, j), k, j, n - 1)
    else SweepBucket(SetMark(g, g.h.strt[k][j], White(g.white)), k, j + 1, n - 1)
  }

  /** The loop of the string phase: at most `n` buckets. */
  function SweepStrings(g: G, n: nat): G
    decreases n
  {
    if n == 0 || g.sweepstr >= |g.h.strt| then g
    else
      var g1 := SweepBucket(g, g.sweepstr, 0, |g.h.strt[g.sweepstr]|);
      SweepStrings(g1.(sweepstr := g.sweepstr + 1), n - 1)
  }

  /** Sweep the main thread, which is on no list. */
  function SweepMain(g: G): G
    requires g.h.mainthread in g.h.objs
  {
    var t := g.h.mainthread;
    SetMark(SweepOpen(g, t, 0, |g.h.objs[t].openupval|), t, White(g.white))
  }

  // ----- what sweeping does -----

  /** Dead objects may be gone, live ones may have got the current white; every object
      that is left shows the values it showed. */
  ghost predicate Sweeps(g: G, r: G) {
    && r.white == g.white && r.phase == g.phase
    && SameVals(g.h, r.h)
    && (forall i :: i in g.h.objs && i !in r.h.objs ==> Dead(g, i))
    && (forall i :: i in r.cache ==> i in g.cache && r.cache[i] == g.cache[i])
    && r.mark.Keys == r.h.objs.Keys
    && (forall i :: i in r.h.objs && i in g.mark ==>
          r.mark[i] == g.mark[i] || (r.mark[i] == White(g.white) && !Dead(g, i)))
  }

  lemma SweepsTrans(g: G, a: G, b: G)
    requires Sweeps(g, a) && Sweeps(a, b) && MarksOk(g)
    ensures Sweeps(g, b)
  {
    hide Vals;
    SweepsMarks(g, a, b);
  }

  lemma SweepsMarks(g: G, a: G, b: G)
    requires Sweeps(g, a) && Sweeps(a, b) && MarksOk(g)
    ensures forall i :: i in b.h.objs && i in g.mark ==> b.mark[i] == g.mark[i] || (b.mark[i] == White(g.white) && !Dead(g, i))
  {
    hide Vals;
  }

  /** Exactly the live objects stay live. */
  lemma SweepsLive(g: G, r: G)
    requires Sweeps(g, r) && MarksOk(g)
    ensures forall i :: Live(r, i) <==> Live(g, i)
  {
  }

  lemma SweepsKeeps(g: G, r: G)
    requires Sweeps(g, r) && MarksOk(g) && LiveClosed(g)
    ensures LiveClosed(r)
  {
    SweepsLive(g, r);
    forall i, j | Live(r, i) && Edge(r.h, r.cache, i, j)
      ensures Live(r, j)
    {
      assert Edge(g.h, g.cache, i, j);
    }
  }

  /** The part of `allgc` behind the cursor. */
  function Rest(g: G): seq<Id>
    requires g.sweepgc <= |g.h.allgc|
  {
    g.h.allgc[|g.h.allgc| - g.sweepgc..]
  }

  lemma AheadStays(g: G, r: G, i: Id)
    requires g.sweepgc <= |g.h.allgc| && r.sweepgc <= |r.h.allgc| && Rest(r) == Rest(g)
    requires r.phase == g.phase && r.sweepstr == g.sweepstr && r.h.strt == g.h.strt
    requires r.h.mainthread == g.h.mainthread
    requires i in g.h.objs && i in r.h.objs && r.h.objs[i].home == g.h.objs[i].home && Ahead(g, i)
    ensures Ahead(r, i)
  {
    assert forall j :: AheadListed(g, j) ==> AheadListed(r, j);
  }

  /** Freed objects were dead, homes and lists ahead of the cursor are the same. */
  lemma SweepsColors(g: G, r: G)
    requires SweepColors(g) && Sweeps(g, r) && r.sweepgc <= |r.h.allgc| && Rest(r) == Rest(g)
    requires r.sweepstr == g.sweepstr && r.h.strt == g.h.strt
    requires forall i :: i in r.h.objs ==> r.h.objs[i].home == g.h.objs[i].home
    requires forall i :: i in r.cache ==> i in r.h.objs
    ensures SweepColors(r)
  {
    SweepsKeeps(g, r);
    forall i | i in r.h.objs
      ensures Ahead(r, i) || r.mark[i] == White(r.white)
    {
      if Ahead(g, i) {
        AheadStays(g, r, i);
      }
    }
  }

  lemma WhitenSweeps(g: G, r: G, i: Id)
    requires SweepColors(g) && i in g.h.objs && !Dead(g, i) && r == SetMark(g, i, White(g.white))
    ensures Sweeps(g, r) && SweepColors(r)
  {
    assert Sweeps(g, r);
    SweepsColors(g, r);
  }

  lemma FreeOpenColors(g: G, r: G, t: Id, k: nat)
    requires SweepColors(g) && t in g.h.objs && k < |g.h.objs[t].openupval|
    requires Dead(g, g.h.objs[t].openupval[k]) && r == FreeOpen(g, t, k)
    requires OpenAt(g.h, g.h.objs[t].openupval[k], t) && Shape(g.h.objs[g.h.objs[t].openupval[k]])
    requires SameVals(g.h, r.h) && r.h.objs.Keys == g.h.objs.Keys - {g.h.objs[t].openupval[k]}
    ensures Sweeps(g, r) && SweepColors(r)
  {
    assert Sweeps(g, r);
    SweepsColors(g, r);
  }

  lemma FreeOpenSweeps(g: G, r: G, t: Id, k: nat)
    requires Sweeping(g) && t in g.h.objs && k < |g.h.objs[t].openupval|
    requires Dead(g, g.h.objs[t].openupval[k]) && r == FreeOpen(g, t, k)
    ensures Sweeps(g, r) && Sweeping(r)
  {
    OpenFacts(g.h, t, k);
    FreeOpenWf(g.h, r.h, t, k);
    FreeOpenColors(g, r, t, k);
  }

  lemma CloseColors(g: G, r: G, t: Id, u: Id)
    requires SweepColors(g) && t in g.h.objs && g.h.objs[t].openupval != []
    requires u == g.h.objs[t].openupval[0] && u in g.h.objs && !Dead(g, u)
    requires r == g.(h := CloseH(g.h, t), mark := g.mark[u := White(g.white)])
    requires SameVals(g.h, r.h) && r.h.objs.Keys == g.h.objs.Keys
    requires forall i :: i in r.h.objs && i != u ==> r.h.objs[i].home == g.h.objs[i].home
    ensures Sweeps(g, r) && SweepColors(r) && Rest(r) == Rest(g)
  {
    assert Sweeps(g, r);
    SweepsKeeps(g, r);
    assert r.h.allgc == [u] + g.h.allgc;
    assert Rest(r) == Rest(g);
    forall i | i in r.h.objs && i != u
      ensures Ahead(r, i) || r.mark[i] == White(r.white)
    {
      if Ahead(g, i) {
        AheadStays(g, r, i);
      }
    }
  }

  lemma CloseHeadSweeps(g: G, r: G, t: Id)
    requires Sweeping(g) && InSweep(g) && t in g.h.objs && g.h.objs[t].openupval != []
    requires g.h.objs[t].openupval[0] in g.h.objs && r == CloseHead(g, t)
    ensures Sweeps(g, r) && Sweeping(r) && Rest(r) == Rest(g) && r.sweepgc == g.sweepgc
    ensures t in r.h.objs && r.h.objs[t].openupval == g.h.objs[t].openupval[1..]
  {
    hide Wf;
    CloseHeadHeap(g, t);
    var u := g.h.objs[t].openupval[0];
    OpenFacts(g.h, t, 0);
    if Dead(g, u) {
      FreeOpenSweeps(g, r, t, 0);
    } else {
      CloseHeadLive(g, r, t, u);
      CloseColors(g, r, t, u);
    }
  }

  lemma {:induction false} CloseSomeSweeps(g: G, r: G, t: Id, n: nat)
    requires Sweeping(g) && InSweep(g) && t in g.h.objs && n == |g.h.objs[t].openupval|
    requires r == CloseSome(g, t, n)
    ensures Sweeps(g, r) && Sweeping(r) && Rest(r) == Rest(g) && r.sweepgc == g.sweepgc
    ensures t in r.h.objs && r.h.objs[t].openupval == []
    decreases n
  {
    hide Wf, SweepColors, Sweeps;
    if n == 0 {
      SweepsRefl(g);
    } else {
      OpenFacts(g.h, t, 0);
      var g1 := CloseHead(g, t);
      CloseHeadSweeps(g, g1, t);
      CloseSomeSweeps(g1, r, t, n - 1);
      SweepsThen(g, g1, r);
    }
  }

  lemma SweepsRefl(g: G)
    requires SweepColors(g)
    ensures Sweeps(g, g)
  {
  }

  lemma SweepsThen(g: G, a: G, b: G)
    requires SweepColors(g) && Sweeps(g, a) && Sweeps(a, b)
    ensures Sweeps(g, b)
  {
    SweepsTrans(g, a, b);
  }

  /** The first `k` open upvalues of `t` have the current white. */
  ghost predicate OpenWhite(g: G, t: Id, k: nat) {
    t in g.h.objs && k <= |g.h.objs[t].openupval| &&
    forall j :: 0 <= j < k ==> g.h.objs[t].openupval[j] in g.mark && g.mark[g.h.objs[t].openupval[j]] == White(g.white)
  }

  lemma FreeOpenWhite(g: G, r: G, t: Id, k: nat)
    requires t in g.h.objs && k < |g.h.objs[t].openupval| && r == FreeOpen(g, t, k)
    requires OpenAt(g.h, g.h.objs[t].openupval[k], t) && Shape(g.h.objs[g.h.objs[t].openupval[k]])
    requires Shape(g.h.objs[t]) && NoDup(g.h.objs[t].openupval) && OpenWhite(g, t, k)
    ensures OpenWhite(r, t, k) && |r.h.objs[t].openupval| == |g.h.objs[t].openupval| - 1
  {
    var us := g.h.objs[t].openupval;
    assert r.h.objs[t].openupval == us[..k] + us[k + 1..];
  }

  lemma FreeOpenStep(g: G, r: G, t: Id, k: nat)
    requires Sweeping(g) && OpenWhite(g, t, k) && k < |g.h.objs[t].openupval|
    requires Dead(g, g.h.objs[t].openupval[k]) && r == FreeOpen(g, t, k)
    ensures Sweeps(g, r) && Sweeping(r) && Rest(r) == Rest(g) && r.sweepgc == g.sweepgc
    ensures OpenWhite(r, t, k) && |r.h.objs[t].openupval| == |g.h.objs[t].openupval| - 1
  {
    hide Wf, SweepColors;
    OpenFacts(g.h, t, k);
    FreeOpenSweeps(g, r, t, k);
    FreeOpenWhite(g, r, t, k);
    CursorOk(g);
  }

  lemma CursorOk(g: G)
    requires SweepColors(g)
    ensures g.sweepgc <= |g.h.allgc|
  {
  }

  lemma WhitenOpenStep(g: G, r: G, t: Id, k: nat)
    requires Sweeping(g) && OpenWhite(g, t, k) && k < |g.h.objs[t].openupval|
    requires !Dead(g, g.h.objs[t].openupval[k]) && r == SetMark(g, g.h.objs[t].openupval[k], White(g.white))
    ensures Sweeps(g, r) && Sweeping(r) && Rest(r) == Rest(g) && r.sweepgc == g.sweepgc
    ensures OpenWhite(r, t, k + 1) && r.h == g.h
  {
    hide Wf, SweepColors, Sweeps, Vals;
    OpenFacts(g.h, t, k);
    WhitenSweeps(g, r, g.h.objs[t].openupval[k]);
    CursorOk(g);
  }

  lemma {:induction false} SweepOpenSweeps(g: G, r: G, t: Id, k: nat, n: nat)
    requires Sweeping(g) && OpenWhite(g, t, k) && n == |g.h.objs[t].openupval| - k
    requires r == SweepOpen(g, t, k, n)
    ensures Sweeps(g, r) && Sweeping(r) && Rest(r) == Rest(g) && r.sweepgc == g.sweepgc
    ensures t in r.h.objs && OpenWhite(r, t, |r.h.objs[t].openupval|)
    decreases n
  {
    hide Wf, SweepColors, Sweeps;
    CursorOk(g);
    if n == 0 {
      SweepsRefl(g);
    } else if Dead(g, g.h.objs[t].openupval[k]) {
      var g1 := FreeOpen(g, t, k);
      FreeOpenStep(g, g1, t, k);
      SweepOpenSweeps(g1, r, t, k, n - 1);
      SweepsThen(g, g1, r);
    } else {
      var g1 := SetMark(g, g.h.objs[t].openupval[k], White(g.white));
      WhitenOpenStep(g, g1, t, k);
      SweepOpenSweeps(g1, r, t, k + 1, n - 1);
      SweepsThen(g, g1, r);
    }
  }

  // ----- sweeplist on allgc -----

  lemma NextFacts(g: G)
    requires Sweeping(g) && 0 < g.sweepgc
    ensures Next(g) in g.h.objs && g.h.objs[Next(g)].home.Own? && Next(g) != g.h.mainthread
    ensures Next(g) in Rest(g) && Rest(g) == [Next(g)] + Rest(g)[1..] && NoDup(Rest(g))
    ensures Shape(g.h.objs[Next(g)])
    ensures g.h.running in g.h.objs && Live(g, g.h.running)
  {
    assert Next(g) in g.h.allgc;
    assert Root(g.h, g.h.running);
  }

  /** Behind the moved cursor there is one object less. */
  lemma AheadMoves(g: G, r: G, i: Id, k: Id)
    requires 0 < g.sweepgc <= |g.h.allgc| && i == Next(g)
    requires r.sweepgc == g.sweepgc - 1 <= |r.h.allgc| && Rest(r) == Rest(g)[1..]
    requires r.phase == g.phase && r.sweepstr == g.sweepstr && r.h.strt == g.h.strt
    requires r.h.mainthread == g.h.mainthread
    requires k in g.h.objs && k in r.h.objs && r.h.objs[k].home == g.h.objs[k].home && Ahead(g, k)
    requires k != i && (g.h.objs[k].home.Slot? ==> g.h.objs[k].home.thread != i)
    ensures Ahead(r, k)
  {
    forall j | AheadListed(g, j) && j != i
      ensures AheadListed(r, j)
    {
      if j in Rest(g) {
        var m :| 0 <= m < |Rest(g)| && Rest(g)[m] == j;
        assert Rest(r)[m - 1] == j;
      }
    }
  }

  lemma FreeNextColors(g: G, r: G, i: Id)
    requires SweepColors(g) && 0 < g.sweepgc && i == Next(g) && Dead(g, i) && r == FreeNext(g)
    requires i in Rest(g) && i in g.h.objs && i != g.h.mainthread
    requires SameVals(g.h, r.h) && r.h.objs.Keys == g.h.objs.Keys - {i}
    requires forall u :: u in g.h.objs && g.h.objs[u].home.Slot? ==> g.h.objs[u].home.thread != i
    ensures Sweeps(g, r) && SweepColors(r) && Rest(r) == Rest(g)[1..]
  {
    assert Sweeps(g, r);
    SweepsKeeps(g, r);
    assert Rest(r) == Rest(g)[1..];
    forall k | k in r.h.objs
      ensures Ahead(r, k) || r.mark[k] == White(r.white)
    {
      if Ahead(g, k) {
        AheadMoves(g, r, i, k);
      }
    }
  }

  lemma NoHomeAt(h: Heap, t: Id)
    requires OpenOk(h) && t in h.objs && h.objs[t].openupval == []
    ensures forall u :: u in h.objs && h.objs[u].home.Slot? ==> h.objs[u].home.thread != t
  {
  }

  lemma FreeNextSweeps(g: G, r: G, i: Id)
    requires Sweeping(g) && 0 < g.sweepgc && i == Next(g) && Dead(g, i) && r == FreeNext(g)
    requires i in g.h.objs && g.h.objs[i].openupval == []
    ensures Sweeps(g, r) && Sweeping(r) && Rest(r) == Rest(g)[1..] && r.sweepgc == g.sweepgc - 1
  {
    hide SweptWhite, LiveClosed, MarksOk, Shapes, StrListOk, Owned, UvheadOk;
    NextFacts(g);
    FreeListedWf(g.h, r.h, |g.h.allgc| - g.sweepgc);
    NoHomeAt(g.h, i);
    FreeNextColors(g, r, i);
  }

  lemma WhitenNextColors(g: G, r: G, i: Id)
    requires SweepColors(g) && 0 < g.sweepgc && i == Next(g) && !Dead(g, i) && i in g.h.objs
    requires r == SetMark(g, i, White(g.white)).(sweepgc := g.sweepgc - 1)
    requires forall u :: u in g.h.objs && g.h.objs[u].home.Slot? && g.h.objs[u].home.thread == i ==> u in g.mark && g.mark[u] == White(g.white)
    ensures Sweeps(g, r) && SweepColors(r) && Rest(r) == Rest(g)[1..]
  {
    WhitenNextSwept(g, r, i);
    WhitenNextMarks(g, r, i);
    hide SweptWhite, LiveClosed, Sweeps, MarksOk;
    SweepsKeeps(g, r);
  }

  lemma WhitenNextMarks(g: G, r: G, i: Id)
    requires MarksOk(g) && 0 < g.sweepgc && !Dead(g, i) && i in g.h.objs
    requires r == SetMark(g, i, White(g.white)).(sweepgc := g.sweepgc - 1)
    ensures Sweeps(g, r) && MarksOk(r)
  {
  }

  lemma WhitenNextSwept(g: G, r: G, i: Id)
    requires SweptWhite(g) && g.mark.Keys == g.h.objs.Keys && 0 < g.sweepgc <= |g.h.allgc| && i == Next(g) && i in g.h.objs
    requires r == SetMark(g, i, White(g.white)).(sweepgc := g.sweepgc - 1)
    requires forall u :: u in g.h.objs && g.h.objs[u].home.Slot? && g.h.objs[u].home.thread == i ==> u in g.mark && g.mark[u] == White(g.white)
    ensures SweptWhite(r) && Rest(r) == Rest(g)[1..]
  {
    assert Rest(r) == Rest(g)[1..];
    forall k | k in r.h.objs
      ensures Ahead(r, k) || r.mark[k] == White(r.white)
    {
      if Ahead(g, k) && k != i && !(g.h.objs[k].home.Slot? && g.h.objs[k].home.thread == i) {
        AheadMoves(g, r, i, k);
      }
    }
  }

  lemma OpenWhiteHomes(g: G, t: Id)
    requires OpenOk(g.h) && t in g.h.objs && OpenWhite(g, t, |g.h.objs[t].openupval|)
    ensures forall u :: u in g.h.objs && g.h.objs[u].home.Slot? && g.h.objs[u].home.thread == t ==> u in g.mark && g.mark[u] == White(g.white)
  {
    forall u | u in g.h.objs && g.h.objs[u].home.Slot? && g.h.objs[u].home.thread == t
      ensures u in g.mark && g.mark[u] == White(g.white)
    {
      var j :| 0 <= j < |g.h.objs[t].openupval| && g.h.objs[t].openupval[j] == u;
    }
  }

  lemma NoOpenUnlessThread(g: G, i: Id)
    requires Shapes(g.h) && i in g.h.objs && !g.h.objs[i].kind.KThread?
    ensures g.h.objs[i].openupval == []
  {
    assert Shape(g.h.objs[i]);
  }

  lemma SweepNextDead(g: G, r: G, i: Id)
    requires Sweeping(g) && InSweep(g) && 0 < g.sweepgc && i == Next(g) && Dead(g, i) && r == SweepNext(g)
    ensures Sweeps(g, r) && Sweeping(r) && Rest(r) == Rest(g)[1..] && r.sweepgc == g.sweepgc - 1
    ensures i !in r.h.objs
  {
    hide Sweeps, SweepColors, OpenOk, AllListOk, StrListOk, Owned, UvheadOk, ThreadsOk;
    CursorOk(g);
    if g.h.objs[i].kind.KThread? {
      var g1 := CloseAll(g, i);
      CloseSomeSweeps(g, g1, i, |g.h.objs[i].openupval|);
      assert Rest(g)[0] == i && Rest(g1)[0] == Next(g1);
      DeadStays(g, g1, i);
      FreeNextSweeps(g1, r, i);
      SweepsThen(g, g1, r);
    } else {
      NoOpenUnlessThread(g, i);
      FreeNextSweeps(g, r, i);
    }
  }

  lemma DeadStays(g: G, r: G, i: Id)
    requires SweepColors(g) && Sweeps(g, r) && Dead(g, i) && i in r.h.objs
    ensures Dead(r, i)
  {
  }

  lemma LiveStays(g: G, r: G, i: Id)
    requires SweepColors(g) && Sweeps(g, r) && Live(g, i)
    ensures Live(r, i)
  {
  }

  lemma SweepNextLive(g: G, r: G, i: Id)
    requires Sweeping(g) && InSweep(g) && 0 < g.sweepgc && i == Next(g) && i in g.h.objs && !Dead(g, i) && r == SweepNext(g)
    ensures Sweeps(g, r) && Sweeping(r) && Rest(r) == Rest(g)[1..] && r.sweepgc == g.sweepgc - 1
  {
    hide Sweeps, SweepColors, AllListOk, StrListOk, Owned, UvheadOk, ThreadsOk, OpenOk;
    CursorOk(g);
    var g1 := if g.h.objs[i].kind.KThread? then SweepOpen(g, i, 0, |g.h.objs[i].openupval|) else g;
    if g.h.objs[i].kind.KThread? {
      SweepOpenSweeps(g, g1, i, 0, |g.h.objs[i].openupval|);
      LiveStays(g, g1, i);
    } else {
      NoOpenUnlessThread(g, i);
      SweepsRefl(g);
    }
    CursorOk(g1);
    OpenWhiteHomes(g1, i);
    assert Rest(g)[0] == i && Rest(g1)[0] == Next(g1);
    WhiteBit(g, g1);
    WhitenNextColors(g1, r, i);
    SweepsThen(g, g1, r);
  }

  lemma WhiteBit(g: G, r: G)
    requires Sweeps(g, r)
    ensures r.white == g.white && r.phase == g.phase
  {
  }

  /** `sweeplist` on `allgc`, at most `n` objects. */
  function SweepGc(g: G, n: nat): G
    requires Sweeping(g) && InSweep(g)
    decreases n
  {
    if n == 0 || g.sweepgc == 0 then g
    else
      SweepNextSweeps(g);
      SweepGc(SweepNext(g), n - 1)
  }

  lemma SweepNextSweeps(g: G)
    requires Sweeping(g) && InSweep(g) && 0 < g.sweepgc
    ensures g.sweepgc <= |g.h.allgc| && Next(g) in g.h.objs
    ensures Sweeps(g, SweepNext(g)) && Sweeping(SweepNext(g)) && InSweep(SweepNext(g))
    ensures Rest(SweepNext(g)) == Rest(g)[1..]
    ensures SweepNext(g).sweepgc == g.sweepgc - 1
    ensures Dead(g, Next(g)) ==> Next(g) !in SweepNext(g).h.objs
  {
    hide Sweeps, SweepColors, Wf;
    NextFacts(g);
    CursorOk(g);
    var i, r := Next(g), SweepNext(g);
    if Dead(g, i) {
      SweepNextDead(g, r, i);
    } else {
      SweepNextLive(g, r, i);
    }
    WhiteBit(g, r);
  }

  lemma {:induction false} SweepGcSweeps(g: G, n: nat)
    requires Sweeping(g) && InSweep(g)
    ensures Sweeps(g, SweepGc(g, n)) && Sweeping(SweepGc(g, n)) && InSweep(SweepGc(g, n))
    ensures SweepGc(g, n).sweepgc == if n < g.sweepgc then g.sweepgc - n else 0
    decreases n
  {
    hide Sweeps, SweepColors, Wf;
    if n == 0 || g.sweepgc == 0 {
      SweepsRefl(g);
    } else {
      SweepNextSweeps(g);
      SweepGcSweeps(SweepNext(g), n - 1);
      SweepsThen(g, SweepNext(g), SweepGc(g, n));
    }
  }

  // ----- strings -----

  lemma StrFacts(h: Heap, k: nat, j: nat)
    requires Wf(h) && k < |h.strt| && j < |h.strt[k]|
    ensures h.strt[k][j] in h.objs && h.strt[k][j] in h.strt[k] && NoDup(h.strt[k])
    ensures h.objs[h.strt[k][j]].kind.KShrStr?
    ensures h.strt[k][j] != h.mainthread && h.strt[k][j] !in h.allgc
  {
    assert h.strt[k][j] in h.strt[k];
  }

  lemma AheadAfterStr(g: G, r: G, k: nat, j: nat, x: Id)
    requires g.sweepgc <= |g.h.allgc| && k < |g.h.strt| && j < |g.h.strt[k]| && r == FreeStr(g, k, j)
    requires NoDup(g.h.strt[k]) && AheadListed(g, x) && x != g.h.strt[k][j]
    ensures AheadListed(r, x)
  {
    NoDupRemove(g.h.strt[k], j);
    if g.phase.SweepString? && exists l :: g.sweepstr <= l < |g.h.strt| && x in g.h.strt[l] {
      var l :| g.sweepstr <= l < |g.h.strt| && x in g.h.strt[l];
      assert x in r.h.strt[l];
    }
  }

  lemma FreeStrRelates(g: G, r: G, k: nat, j: nat)
    requires SweepColors(g) && k < |g.h.strt| && j < |g.h.strt[k]| && r == FreeStr(g, k, j)
    requires Dead(g, g.h.strt[k][j])
    requires forall c :: c in g.cache ==> c != g.h.strt[k][j]
    requires SameVals(g.h, r.h) && r.h.objs.Keys == g.h.objs.Keys - {g.h.strt[k][j]}
    ensures Sweeps(g, r)
  {
    hide LiveClosed, SweptWhite;
  }

  lemma FreeStrColors(g: G, r: G, k: nat, j: nat)
    requires SweepColors(g) && k < |g.h.strt| && j < |g.h.strt[k]| && r == FreeStr(g, k, j)
    requires Dead(g, g.h.strt[k][j]) && NoDup(g.h.strt[k])
    requires forall u :: u in g.h.objs && g.h.objs[u].home.Slot? ==> g.h.objs[u].home.thread != g.h.strt[k][j]
    requires forall c :: c in g.cache ==> c != g.h.strt[k][j]
    requires SameVals(g.h, r.h) && r.h.objs.Keys == g.h.objs.Keys - {g.h.strt[k][j]}
    ensures Sweeps(g, r) && SweepColors(r) && Rest(r) == Rest(g)
  {
    hide StrListOk, LiveClosed, Sweeps;
    FreeStrRelates(g, r, k, j);
    SweepsKeeps(g, r);
    forall x | x in r.h.objs
      ensures Ahead(r, x) || r.mark[x] == White(r.white)
    {
      if AheadListed(g, x) {
        AheadAfterStr(g, r, k, j, x);
      } else if g.h.objs[x].home.Slot? && AheadListed(g, g.h.objs[x].home.thread) {
        AheadAfterStr(g, r, k, j, g.h.objs[x].home.thread);
      }
    }
  }

  lemma FreeStrSweeps(g: G, r: G, k: nat, j: nat)
    requires Sweeping(g) && k < |g.h.strt| && j < |g.h.strt[k]| && r == FreeStr(g, k, j)
    requires Dead(g, g.h.strt[k][j])
    ensures Sweeps(g, r) && Sweeping(r)
  {
    hide AllListOk, StrListOk, Owned, UvheadOk, ThreadsOk;
    StrFacts(g.h, k, j);
    FreeStrWf(g.h, r.h, k, j);
    assert Shape(g.h.objs[g.h.strt[k][j]]);
    NoHomeAt(g.h, g.h.strt[k][j]);
    FreeStrColors(g, r, k, j);
  }

  /** The first `j` strings of bucket `k` have the current white. */
  ghost predicate StrWhite(g: G, k: nat, j: nat) {
    k < |g.h.strt| && j <= |g.h.strt[k]| &&
    forall m :: 0 <= m < j ==> g.h.strt[k][m] in g.mark && g.mark[g.h.strt[k][m]] == White(g.white)
  }

  lemma FreeStrStep(g: G, r: G, k: nat, j: nat)
    requires Sweeping(g) && StrWhite(g, k, j) && j < |g.h.strt[k]| && Dead(g, g.h.strt[k][j]) && r == FreeStr(g, k, j)
    ensures Sweeps(g, r) && Sweeping(r) && r.sweepstr == g.sweepstr && |r.h.strt| == |g.h.strt|
    ensures StrWhite(r, k, j) && |r.h.strt[k]| == |g.h.strt[k]| - 1
  {
    hide Wf, SweepColors;
    StrFacts(g.h, k, j);
    FreeStrSweeps(g, r, k, j);
    assert r.h.strt[k] == g.h.strt[k][..j] + g.h.strt[k][j + 1..];
    forall m | 0 <= m < j
      ensures r.h.strt[k][m] in r.mark && r.mark[r.h.strt[k][m]] == White(r.white)
    {
      assert r.h.strt[k][m] == g.h.strt[k][m] != g.h.strt[k][j];
    }
  }

  lemma WhitenStrStep(g: G, r: G, k: nat, j: nat)
    requires Sweeping(g) && StrWhite(g, k, j) && j < |g.h.strt[k]| && !Dead(g, g.h.strt[k][j])
    requires r == SetMark(g, g.h.strt[k][j], White(g.white))
    ensures Sweeps(g, r) && Sweeping(r) && r.h == g.h && r.sweepstr == g.sweepstr && StrWhite(r, k, j + 1)
  {
    hide Wf, SweepColors;
    StrFacts(g.h, k, j);
    WhitenSweeps(g, r, g.h.strt[k][j]);
  }

  lemma {:induction false} SweepBucketSweeps(g: G, r: G, k: nat, j: nat, n: nat)
    requires Sweeping(g) && StrWhite(g, k, j) && n == |g.h.strt[k]| - j && r == SweepBucket(g, k, j, n)
    ensures Sweeps(g, r) && Sweeping(r) && r.sweepstr == g.sweepstr && |r.h.strt| == |g.h.strt|
    ensures StrWhite(r, k, |r.h.strt[k]|)
    decreases n
  {
    hide Wf, SweepColors, Sweeps;
    if n == 0 {
      SweepsRefl(g);
    } else if Dead(g, g.h.strt[k][j]) {
      var g1 := FreeStr(g, k, j);
      FreeStrStep(g, g1, k, j);
      SweepBucketSweeps(g1, r, k, j, n - 1);
      SweepsThen(g, g1, r);
    } else {
      var g1 := SetMark(g, g.h.strt[k][j], White(g.white));
      WhitenStrStep(g, g1, k, j);
      SweepBucketSweeps(g1, r, k, j + 1, n - 1);
      SweepsThen(g, g1, r);
    }
  }

  lemma HomesNotInBucket(h: Heap, k: nat)
    requires OpenOk(h) && Shapes(h) && StrListOk(h) && k < |h.strt|
    ensures forall u :: u in h.objs && h.objs[u].home.Slot? ==> h.objs[u].home.thread !in h.strt[k]
  {
    forall u | u in h.objs && h.objs[u].home.Slot?
      ensures h.objs[u].home.thread !in h.strt[k]
    {
      assert Shape(h.objs[h.objs[u].home.thread]);
    }
  }

  lemma AheadAfterBucket(g: G, r: G, x: Id)
    requires g.sweepstr < |g.h.strt| && r == g.(sweepstr := g.sweepstr + 1)
    requires AheadListed(g, x) && x !in g.h.strt[g.sweepstr]
    ensures AheadListed(r, x)
  {
  }

  /** A bucket that is white may fall behind the sweeper. */
  lemma BucketDone(g: G, r: G)
    requires Sweeping(g) && g.phase.SweepString? && g.sweepstr < |g.h.strt|
    requires StrWhite(g, g.sweepstr, |g.h.strt[g.sweepstr]|)
    requires r == g.(sweepstr := g.sweepstr + 1)
    ensures Sweeps(g, r) && Sweeping(r)
  {
    hide OpenOk, Shapes, StrListOk, AllListOk, Owned, UvheadOk, ThreadsOk;
    HomesNotInBucket(g.h, g.sweepstr);
    hide Wf;
    assert Sweeps(g, r);
    SweepsKeeps(g, r);
    forall x | x in r.h.objs && Ahead(g, x)
      ensures Ahead(r, x) || r.mark[x] == White(r.white)
    {
      if x in g.h.strt[g.sweepstr] {
        var m :| 0 <= m < |g.h.strt[g.sweepstr]| && g.h.strt[g.sweepstr][m] == x;
      } else if AheadListed(g, x) {
        AheadAfterBucket(g, r, x);
      } else {
        AheadAfterBucket(g, r, g.h.objs[x].home.thread);
      }
    }
  }

  lemma {:induction false} SweepStringsSweeps(g: G, n: nat)
    requires Sweeping(g) && g.phase.SweepString?
    ensures Sweeps(g, SweepStrings(g, n)) && Sweeping(SweepStrings(g, n))
    ensures SweepStrings(g, n).sweepstr <= |SweepStrings(g, n).h.strt|
    ensures |SweepStrings(g, n).h.strt| == |g.h.strt|
    ensures n > 0 && g.sweepstr < |g.h.strt| ==> SweepStrings(g, n).sweepstr > g.sweepstr
    ensures SweepStrings(g, n).sweepstr >= g.sweepstr
    decreases n
  {
    hide Wf, SweepColors, Sweeps;
    if n == 0 || g.sweepstr >= |g.h.strt| {
      SweepsRefl(g);
      CursorStr(g);
    } else {
      var g1 := SweepBucket(g, g.sweepstr, 0, |g.h.strt[g.sweepstr]|);
      SweepBucketSweeps(g, g1, g.sweepstr, 0, |g.h.strt[g.sweepstr]|);
      WhiteBit(g, g1);
      var g2 := g1.(sweepstr := g.sweepstr + 1);
      BucketDone(g1, g2);
      SweepStringsSweeps(g2, n - 1);
      SweepsThen(g, g1, g2);
      SweepsThen(g, g2, SweepStrings(g, n));
    }
  }

  lemma CursorStr(g: G)
    requires SweepColors(g)
    ensures g.sweepstr <= |g.h.strt|
  {
  }

  // ----- changes of phase -----

  /** With all buckets behind it, the sweeper may leave the string phase. */
  lemma StringsDone(g: G, r: G)
    requires Sweeping(g) && g.phase.SweepString? && g.sweepstr >= |g.h.strt| && r == g.(phase := SweepUdata)
    ensures Sweeping(r)
  {
    hide Wf;
    assert forall i :: Live(r, i) <==> Live(g, i);
    assert forall x :: AheadListed(g, x) ==> AheadListed(r, x);
  }

  lemma UdataDone(g: G, r: G)
    requires Sweeping(g) && g.phase.SweepUdata? && r == g.(phase := Sweep)
    ensures Sweeping(r)
  {
    hide Wf;
    assert forall i :: Live(r, i) <==> Live(g, i);
    assert forall x :: AheadListed(g, x) ==> AheadListed(r, x);
  }

  /** At the end of the sweep only the main thread and its upvalues are left. */
  lemma LastColors(g: G, r: G)
    requires SweepColors(g) && g.phase.Sweep? && g.sweepgc == 0 && g.h.mainthread in g.h.objs && Live(g, g.h.mainthread)
    requires forall u :: u in g.h.objs && g.h.objs[u].home.Slot? && g.h.objs[u].home.thread == g.h.mainthread ==> g.mark[u] == White(g.white)
    requires r == SetMark(g, g.h.mainthread, White(g.white)).(phase := Pause)
    ensures MarksOk(r) && LiveClosed(r) && AllWhite(r)
  {
    forall i | i in r.mark
      ensures r.mark[i] == White(r.white)
    {
      assert Ahead(g, i) || g.mark[i] == White(g.white);
      assert Rest(g) == [];
    }
    assert forall i :: Live(r, i) <==> Live(g, i);
  }

  lemma SweepMainRests(g: G, r: G)
    requires Sweeping(g) && g.phase.Sweep? && g.sweepgc == 0 && g.h.mainthread in g.h.objs
    requires r == SweepMain(g).(phase := Pause)
    ensures Resting(r) && Sweeps(g, r.(phase := g.phase))
  {
    hide Sweeps, SweepColors, AllListOk, StrListOk, Owned, UvheadOk, ThreadsOk, OpenOk;
    var t := g.h.mainthread;
    RootLive(g);
    var g1 := SweepOpen(g, t, 0, |g.h.objs[t].openupval|);
    SweepOpenSweeps(g, g1, t, 0, |g.h.objs[t].openupval|);
    LiveStays(g, g1, t);
    OpenWhiteHomes(g1, t);
    WhiteBit(g, g1);
    WhitenSweeps(g1, SetMark(g1, t, White(g.white)), t);
    SweepsThen(g, g1, SetMark(g1, t, White(g.white)));
    SameRoots(g, g1);
    LastColors(g1, r);
  }

  lemma RootLive(g: G)
    requires SweepColors(g)
    ensures Live(g, g.h.mainthread)
  {
    assert Root(g.h, g.h.mainthread);
  }

  lemma SameRoots(g: G, r: G)
    requires Sweeps(g, r)
    ensures r.h.mainthread == g.h.mainthread
  {
  }
}
