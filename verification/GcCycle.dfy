/** The marking half of a collection cycle: `restartcollection`, `propagatemark` and
    `atomic`, and what they keep of the main invariant. */
module GcCycle {
  import opened Common
  import opened GcState
  import opened GcMark

  // ----- the steps -----

  /** The first gray object leaves the gray list and turns black.  A thread goes to
      `grayagain` and stays gray; a prototype forgets a cached closure that is white. */
  function TakeGray(g: G): G
    requires g.gray != [] && g.gray[0] in g.h.objs
  {
    var i := g.gray[0];
    var g0 := g.(gray := g.gray[1..]);
    if g.h.objs[i].kind.KThread? then g0.(grayagain := [i] + g0.grayagain)
    else if i in g.cache && IsWhite(g, g.cache[i]) then SetMark(g0, i, Black).(cache := g.cache - {i})
    else SetMark(g0, i, Black)
  }

  /** `propagatemark`. */
  function PropagateMark(g: G): (r: G)
    requires g.gray != [] && g.gray[0] in g.h.objs
  {
    MarkAll(TakeGray(g), g.h.objs[g.gray[0]].slots)
  }

  /** `propagateall`. */
  function PropagateAll(g: G): G
    requires Colored(g)
    decreases Whites(g), |g.gray|
  {
    if g.gray == [] then g
    else
      PropagateShrinks(g);
      PropagateAll(PropagateMark(g))
  }

  /** `restartcollection`. */
  function Restart(g: G): G {
    MarkAll(g.(gray := [], grayagain := []), [Some(g.h.mainthread), g.h.registry] + g.h.mt)
  }

  /** `remarkupvals`, over the rest of the `uvhead` list. */
  function RemarkUpvals(g: G, us: seq<Id>): (r: G)
    ensures r.h == g.h
    decreases |us|
  {
    if us == [] then g
    else if us[0] in g.h.objs && IsGray(g, us[0]) then RemarkUpvals(MarkAll(g, Vals(g.h, us[0])), us[1..])
    else RemarkUpvals(g, us[1..])
  }

  /** The first part of `atomic`: what may have changed behind the collector's back is
      marked again. */
  function Remark(g: G): G {
    RemarkUpvals(MarkAll(g, [Some(g.h.running), g.h.registry] + g.h.mt), g.h.uvhead)
  }

  /** `retraversegrays` turns the objects caught by barriers into gray work again. */
  function TakeGrayAgain(g: G): G { g.(gray := g.grayagain, grayagain := []) }

  /** `atomic`: mark again, propagate, visit `grayagain`, flip the white. */
  function AtomicMark(g: G): G
    requires Colored(g)
  {
    RemarkKeeps(g);
    PropagateAllKeeps(Remark(g));
    var g1 := PropagateAll(Remark(g));
    TakeGrayAgainKeeps(g1);
    var g2 := PropagateAll(TakeGrayAgain(g1));
    g2.(white := !g2.white)
  }

  // ----- what marking keeps -----

  /** `Colored` with one black object that may still refer to white ones. */
  ghost predicate ColoredBut(g: G, x: Id) {
    && Shapes(g.h) && MarksOk(g) && LiveClosed(g) && NoOtherWhite(g) && GrayListed(g)
    && forall i, j :: i != x && IsBlack(g, i) && Edge(g.h, g.cache, i, j) ==> !IsWhite(g, j)
  }

  lemma MarksGrayListed(g: G, r: G)
    requires GrayListed(g) && Marks(g, r)
    ensures GrayListed(r)
  {
    var pushed := r.gray[..|r.gray| - |g.gray|];
    assert r.gray + r.grayagain == pushed + (g.gray + g.grayagain);
    assert forall i :: i in g.gray + g.grayagain ==> i !in pushed;
    NoDupAppend(pushed, g.gray + g.grayagain);
    forall i | i in r.h.objs && IsGray(r, i) && !r.h.objs[i].home.Slot?
      ensures i in r.gray + r.grayagain
    {
      if IsWhite(g, i) {
        assert Settled(r, i);
      }
    }
  }

  lemma MarksKeepsBut(g: G, r: G, x: Id)
    requires ColoredBut(g, x) && Marks(g, r)
    ensures ColoredBut(r, x)
  {
    MarksReady(g, r);
    MarksGrayListed(g, r);
    assert forall i :: Live(r, i) <==> Live(g, i);
    forall i, j | i != x && IsBlack(r, i) && Edge(r.h, r.cache, i, j)
      ensures !IsWhite(r, j)
    {
      if IsWhite(g, i) {
        assert Settled(r, i);
      }
    }
  }

  /** Marking white objects keeps the main invariant. */
  lemma MarksKeeps(g: G, r: G)
    requires Colored(g) && Marks(g, r)
    ensures Colored(r)
  {
    assert ColoredBut(g, 0) && ColoredBut(g, 1);
    MarksKeepsBut(g, r, 0);
    MarksKeepsBut(g, r, 1);
  }

  lemma MarkAllKeeps(g: G, vs: seq<Option<Id>>)
    requires Colored(g)
    ensures Colored(MarkAll(g, vs)) && Marks(g, MarkAll(g, vs))
    ensures forall j :: Some(j) in vs ==> !IsWhite(MarkAll(g, vs), j)
  {
    MarkAllMarks(g, vs);
    MarksKeeps(g, MarkAll(g, vs));
  }

  // ----- propagatemark -----

  lemma TakeGrayLists(g: G, r: G, i: Id)
    requires GrayListed(g) && g.gray != [] && i == g.gray[0] && r == TakeGray(g)
    ensures GrayListed(r)
  {
    hide NoDup;
    var all, rest := g.gray + g.grayagain, g.gray[1..];
    assert all == [i] + (rest + g.grayagain);
    NoDupTail(i, rest + g.grayagain);
    TakenLists(g, r, i);
    if g.h.objs[i].kind.KThread? {
      NoDupInsert(rest, g.grayagain, i);
      assert r.gray + r.grayagain == rest + ([i] + g.grayagain);
    } else {
      assert r.gray + r.grayagain == rest + g.grayagain;
    }
  }

  lemma TakenLists(g: G, r: G, i: Id)
    requires GrayListed(g) && g.gray != [] && i == g.gray[0] && r == TakeGray(g)
    ensures forall k :: k in r.gray + r.grayagain ==> k in g.gray + g.grayagain && k in r.h.objs && IsGray(r, k) && Listable(r.h.objs[k].kind)
    ensures forall k :: k in r.h.objs && IsGray(r, k) ==> r.h.objs[k].home.Slot? || k in r.gray + r.grayagain
  {
    hide NoDup;
    var others := g.gray[1..] + g.grayagain;
    assert i in g.gray + g.grayagain && g.gray + g.grayagain == [i] + others;
    NoDupTail(i, others);
    if g.h.objs[i].kind.KThread? {
      TakenThread(g, r, i, others);
    } else {
      TakenOther(g, r, i, others);
    }
  }

  lemma TakenThread(g: G, r: G, i: Id, others: seq<Id>)
    requires GrayListed(g) && g.gray != [] && i == g.gray[0] && others == g.gray[1..] + g.grayagain && g.gray + g.grayagain == [i] + others
    requires r == g.(gray := g.gray[1..], grayagain := [i] + g.grayagain)
    ensures forall k :: k in r.gray + r.grayagain <==> k in g.gray + g.grayagain
  {
    hide NoDup, GrayListed;
    assert r.gray + r.grayagain == g.gray[1..] + [i] + g.grayagain;
    forall k
      ensures k in r.gray + r.grayagain <==> k == i || k in others
    {
    }
    forall k
      ensures k in g.gray + g.grayagain <==> k == i || k in others
    {
    }
  }

  lemma TakenOther(g: G, r: G, i: Id, others: seq<Id>)
    requires GrayListed(g) && g.gray != [] && others == g.gray[1..] + g.grayagain && g.gray + g.grayagain == [i] + others && i !in others
    requires r.h == g.h && r.mark == g.mark[i := Black] && r.gray + r.grayagain == others
    ensures forall k :: k in others ==> k in g.gray + g.grayagain && k in r.h.objs && IsGray(r, k) && Listable(r.h.objs[k].kind)
    ensures forall k :: k in r.h.objs && IsGray(r, k) ==> r.h.objs[k].home.Slot? || k in others
  {
    hide NoDup;
    forall k
      ensures k in g.gray + g.grayagain <==> k == i || k in others
    {
    }
  }

  lemma TakeGrayEffect(g: G, r: G, i: Id)
    requires Colored(g) && g.gray != [] && i == g.gray[0] && r == TakeGray(g)
    ensures r.h == g.h && r.white == g.white && r.phase == g.phase && r.gray == g.gray[1..]
    ensures r.mark.Keys == g.mark.Keys
    ensures i in g.h.objs && g.h.objs[i].home.Own?
    ensures r.mark[i] == if g.h.objs[i].kind.KThread? then Gray else Black
    ensures forall k :: k in g.mark && k != i ==> r.mark[k] == g.mark[k]
    ensures forall k :: IsWhite(r, k) <==> IsWhite(g, k)
    ensures forall k :: k in r.cache ==> k in g.cache && r.cache[k] == g.cache[k]
    ensures i in r.cache ==> !IsWhite(g, r.cache[i])
  {
    assert i in g.gray + g.grayagain;
    assert Shape(g.h.objs[i]);
  }

  lemma TakeGrayKeeps(g: G, r: G, i: Id)
    requires Colored(g) && g.gray != [] && i == g.gray[0] && r == TakeGray(g)
    ensures ColoredBut(r, i)
    ensures Whites(r) == Whites(g)
  {
    TakeGrayLists(g, r, i);
    TakeGrayEffect(g, r, i);
    FewerEdges(g, r);
    TakeGrayLive(g, r, i);
  }

  lemma TakeGrayLive(g: G, r: G, i: Id)
    requires Colored(g) && g.gray != [] && i == g.gray[0] && r == TakeGray(g)
    requires r.h == g.h && r.white == g.white && r.mark.Keys == g.mark.Keys && i in g.h.objs && g.h.objs[i].home.Own?
    requires r.mark[i] == if g.h.objs[i].kind.KThread? then Gray else Black
    requires forall k :: k in g.mark && k != i ==> r.mark[k] == g.mark[k]
    requires forall k :: IsWhite(r, k) <==> IsWhite(g, k)
    requires forall k, j :: Edge(r.h, r.cache, k, j) ==> Edge(g.h, g.cache, k, j)
    requires forall k :: k in r.cache ==> k in g.cache
    ensures MarksOk(r) && LiveClosed(r) && NoOtherWhite(r) && Whites(r) == Whites(g)
    ensures forall k, j :: k != i && IsBlack(r, k) && Edge(r.h, r.cache, k, j) ==> !IsWhite(r, j)
  {
    hide GrayListed, Edge, TakeGray, Shapes;
    forall k
      ensures Live(r, k) <==> Live(g, k)
      ensures k in Whites(r) <==> k in Whites(g)
    {
      assert IsWhite(r, k) <==> IsWhite(g, k);
    }
  }

  lemma FewerEdges(g: G, r: G)
    requires r.h == g.h
    requires forall k :: k in r.cache ==> k in g.cache && r.cache[k] == g.cache[k]
    ensures forall k, j :: Edge(r.h, r.cache, k, j) ==> Edge(g.h, g.cache, k, j)
  {
  }

  /** After its traversal the object refers to no white object. */
  lemma TakeGrayCovered(g: G, r: G, i: Id)
    requires Colored(g) && g.gray != [] && i == g.gray[0] && r == PropagateMark(g)
    ensures Marks(TakeGray(g), r) && Covered(r, i)
  {
    var g1 := TakeGray(g);
    TakeGrayKeeps(g, g1, i);
    TakeGrayEffect(g, g1, i);
    MarkAllMarks(g1, g.h.objs[i].slots);
  }

  /** `propagatemark` keeps the main invariant. */
  lemma PropagateKeeps(g: G)
    requires Colored(g) && g.gray != []
    ensures Colored(PropagateMark(g))
  {
    var i, g1, r := g.gray[0], TakeGray(g), PropagateMark(g);
    TakeGrayKeeps(g, g1, i);
    TakeGrayCovered(g, r, i);
    MarksKeepsBut(g1, r, i);
  }

  /** Nothing turns white, and unless something is marked the gray list gets shorter. */
  lemma PropagateShrinks(g: G)
    requires Colored(g) && g.gray != []
    ensures Colored(PropagateMark(g))
    ensures Whites(PropagateMark(g)) <= Whites(g)
    ensures Whites(PropagateMark(g)) == Whites(g) ==> |PropagateMark(g).gray| < |g.gray|
  {
    PropagateKeeps(g);
    var i, g1, r := g.gray[0], TakeGray(g), PropagateMark(g);
    TakeGrayCovered(g, r, i);
    TakeGrayKeeps(g, g1, i);
    if |r.gray| > |g1.gray| {
      var x := r.gray[0];
      assert x in r.gray[..|r.gray| - |g1.gray|];
      assert IsWhite(g1, x) && IsGray(r, x);
      assert x in Whites(g1) && x !in Whites(r);
    }
  }

  lemma {:induction false} PropagateAllKeeps(g: G)
    requires Colored(g)
    ensures Colored(PropagateAll(g)) && PropagateAll(g).gray == []
    decreases Whites(g), |g.gray|
  {
    if g.gray != [] {
      PropagateShrinks(g);
      PropagateAllKeeps(PropagateMark(g));
    }
  }

  // ----- atomic -----

  lemma {:induction false} RemarkUpvalsKeeps(g: G, us: seq<Id>)
    requires Colored(g)
    ensures Colored(RemarkUpvals(g, us)) && Marks(g, RemarkUpvals(g, us))
    decreases |us|
  {
    if us != [] {
      if us[0] in g.h.objs && IsGray(g, us[0]) {
        var g1 := MarkAll(g, Vals(g.h, us[0]));
        MarkAllKeeps(g, Vals(g.h, us[0]));
        RemarkUpvalsKeeps(g1, us[1..]);
        MarksTrans(g, g1, RemarkUpvals(g1, us[1..]));
      } else {
        RemarkUpvalsKeeps(g, us[1..]);
      }
    }
  }

  lemma RemarkKeeps(g: G)
    requires Colored(g)
    ensures Colored(Remark(g))
  {
    var vs := [Some(g.h.running), g.h.registry] + g.h.mt;
    MarkAllKeeps(g, vs);
    RemarkUpvalsKeeps(MarkAll(g, vs), g.h.uvhead);
  }

  lemma TakeGrayAgainKeeps(g: G)
    requires Colored(g) && g.gray == []
    ensures Colored(TakeGrayAgain(g))
  {
    var r := TakeGrayAgain(g);
    assert r.gray + r.grayagain == g.gray + g.grayagain;
  }

  /** The open upvalues that are marked refer to marked objects only. */
  ghost predicate OpenCovered(g: G) {
    forall u :: u in g.h.objs && g.h.objs[u].home.Slot? && IsGray(g, u) ==> Covered(g, u)
  }

  /** Marked objects that are not waiting on the gray list refer to marked objects only. */
  ghost predicate Closing(g: G) {
    forall i :: i in g.h.objs && !IsWhite(g, i) ==> i in g.gray || Covered(g, i)
  }

  lemma MarksOpenCovered(g: G, r: G)
    requires Marks(g, r) && OpenCovered(g) && Shapes(g.h)
    ensures OpenCovered(r)
  {
    forall u | u in r.h.objs && r.h.objs[u].home.Slot? && IsGray(r, u)
      ensures Covered(r, u)
    {
      assert Shape(g.h.objs[u]);
      if IsWhite(g, u) {
        assert Settled(r, u);
      }
    }
  }

  lemma PropagateOpenCovered(g: G)
    requires Colored(g) && g.gray != [] && OpenCovered(g)
    ensures OpenCovered(PropagateMark(g))
  {
    var i, g1, r := g.gray[0], TakeGray(g), PropagateMark(g);
    TakeGrayCovered(g, r, i);
    TakeGrayEffect(g, g1, i);
    FewerEdges(g, g1);
    forall u | u in g1.h.objs && g1.h.objs[u].home.Slot? && IsGray(g1, u)
      ensures Covered(g1, u)
    {
      assert Covered(g, u);
    }
    MarksOpenCovered(g1, r);
  }

  lemma PropagateClosing(g: G)
    requires Colored(g) && g.gray != [] && Closing(g)
    ensures Closing(PropagateMark(g))
  {
    var i, g1, r := g.gray[0], TakeGray(g), PropagateMark(g);
    TakeGrayCovered(g, r, i);
    TakeGrayEffect(g, g1, i);
    FewerEdges(g, g1);
    forall k | k in r.h.objs && !IsWhite(r, k) && k != i
      ensures k in r.gray || Covered(r, k)
    {
      if IsWhite(g1, k) {
        assert Settled(r, k);
      } else if k in g.gray {
        assert k in g1.gray;
        assert k in r.gray[|r.gray| - |g1.gray|..];
      } else {
        assert Covered(g, k);
        assert Covered(g1, k);
      }
    }
  }

  lemma {:induction false} PropagateAllOpenCovered(g: G)
    requires Colored(g) && OpenCovered(g)
    ensures OpenCovered(PropagateAll(g))
    decreases Whites(g), |g.gray|
  {
    if g.gray != [] {
      PropagateShrinks(g);
      PropagateOpenCovered(g);
      PropagateAllOpenCovered(PropagateMark(g));
    }
  }

  lemma {:induction false} PropagateAllClosing(g: G)
    requires Colored(g) && Closing(g)
    ensures Closing(PropagateAll(g))
    decreases Whites(g), |g.gray|
  {
    if g.gray != [] {
      PropagateShrinks(g);
      PropagateClosing(g);
      PropagateAllClosing(PropagateMark(g));
    }
  }

  /** What stays marked, and the parts of the heap that marking does not touch. */
  ghost predicate Darker(g: G, r: G) {
    && r == g.(mark := r.mark, gray := r.gray, grayagain := r.grayagain, cache := r.cache)
    && (forall i :: i in g.h.objs && !IsWhite(g, i) ==> !IsWhite(r, i))
    && (forall i :: i in r.cache ==> i in g.cache && r.cache[i] == g.cache[i])
  }

  lemma PropagateDarker(g: G, r: G)
    requires Colored(g) && g.gray != [] && r == PropagateMark(g)
    ensures Darker(g, r)
  {
    TakeGrayCovered(g, r, g.gray[0]);
    TakeGrayEffect(g, TakeGray(g), g.gray[0]);
    hide Colored;
  }

  lemma {:induction false} PropagateAllDarker(g: G)
    requires Colored(g)
    ensures Darker(g, PropagateAll(g))
    decreases Whites(g), |g.gray|
  {
    if g.gray != [] {
      PropagateShrinks(g);
      PropagateDarker(g, PropagateMark(g));
      hide Colored;
      PropagateAllDarker(PropagateMark(g));
    }
  }

  /** `remarkupvals` reaches every marked open upvalue. */
  lemma {:induction false} RemarkUpvalsCovers(g: G, us: seq<Id>, done: seq<Id>)
    requires Colored(g) && UvheadOk(g.h) && g.h.uvhead == done + us
    requires forall u :: u in done && IsGray(g, u) ==> Covered(g, u)
    ensures OpenCovered(RemarkUpvals(g, us))
    decreases |us|
  {
    hide Colored, Covered, Marks, OpenCovered, MarkAll, Vals;
    if us == [] {
      assert done == g.h.uvhead;
      DoneCovered(g);
    } else {
      var u := us[0];
      assert u in g.h.uvhead;
      var g1 := if IsGray(g, u) then MarkAll(g, Vals(g.h, u)) else g;
      MarkAllKeeps(g, Vals(g.h, u));
      assert g.h.uvhead == (done + [u]) + us[1..];
      forall w | w in done + [u] && IsGray(g1, w)
        ensures Covered(g1, w)
      {
        RemarkStep(g, g1, u, w);
      }
      assert RemarkUpvals(g, us) == RemarkUpvals(g1, us[1..]);
      RemarkUpvalsCovers(g1, us[1..], done + [u]);
    }
  }

  lemma DoneCovered(g: G)
    requires UvheadOk(g.h) && forall u :: u in g.h.uvhead && IsGray(g, u) ==> Covered(g, u)
    ensures OpenCovered(g)
  {
  }

  lemma RemarkStep(g: G, g1: G, u: Id, w: Id)
    requires Colored(g) && UvheadOk(g.h) && u in g.h.uvhead && w in g.h.uvhead && IsGray(g1, w)
    requires w != u && IsGray(g, w) ==> Covered(g, w)
    requires if IsGray(g, u) then Marks(g, g1) && forall j :: Some(j) in Vals(g.h, u) ==> !IsWhite(g1, j) else g1 == g
    ensures Covered(g1, w)
  {
    assert Shape(g.h.objs[w]);
    if w == u && IsGray(g, u) {
      assert w !in g.cache;
    } else if IsWhite(g, w) {
      assert Settled(g1, w);
    }
  }

  lemma DarkerTrans(g: G, a: G, b: G)
    requires Darker(g, a) && Darker(a, b)
    ensures Darker(g, b)
  {
  }

  /** The state of `atomic` just before the flip. */
  ghost predicate Complete(g: G) {
    && Colored(g) && g.gray == []
    && (forall i :: i in g.h.objs && !IsWhite(g, i) ==> Covered(g, i))
    && (forall i :: Root(g.h, i) ==> !IsWhite(g, i))
  }

  lemma RemarkRoots(g: G)
    requires Colored(g) && UvheadOk(g.h)
    ensures Colored(Remark(g)) && Marks(g, Remark(g)) && OpenCovered(Remark(g))
    ensures forall i :: Root(g.h, i) && i != g.h.mainthread ==> !IsWhite(Remark(g), i)
  {
    var vs := [Some(g.h.running), g.h.registry] + g.h.mt;
    MarkAllKeeps(g, vs);
    var g1 := MarkAll(g, vs);
    RemarkUpvalsKeeps(g1, g.h.uvhead);
    RemarkUpvalsCovers(g1, g.h.uvhead, []);
    var r := Remark(g);
    MarksTrans(g, g1, r);
    forall i | Root(g.h, i) && i != g.h.mainthread
      ensures !IsWhite(r, i)
    {
      assert vs[0] == Some(g.h.running) && vs[1] == g.h.registry;
      assert Some(i) in vs;
      assert !IsWhite(g1, i);
    }
  }

  lemma TakeGrayAgainClosing(g: G, r: G)
    requires Colored(g) && g.gray == [] && OpenCovered(g) && r == TakeGrayAgain(g)
    ensures Closing(r)
  {
    forall i | i in r.h.objs && !IsWhite(r, i)
      ensures i in r.gray || Covered(r, i)
    {
      if IsBlack(g, i) {
        assert Covered(g, i);
      } else if g.h.objs[i].home.Slot? {
        assert Covered(g, i);
      } else {
        assert i in g.gray + g.grayagain;
      }
    }
  }

  /** At the end of `atomic` the marked objects contain the roots and are closed. */
  lemma AtomicCompletes(g: G)
    requires Colored(g) && UvheadOk(g.h) && !IsWhite(g, g.h.mainthread)
    ensures exists m :: Complete(m) && Darker(g, m) && AtomicMark(g) == m.(white := !m.white)
  {
    RemarkRoots(g);
    var g0 := Remark(g);
    PropagateAllKeeps(g0);
    PropagateAllOpenCovered(g0);
    PropagateAllDarker(g0);
    var g1 := PropagateAll(g0);
    TakeGrayAgainKeeps(g1);
    var g2 := TakeGrayAgain(g1);
    TakeGrayAgainClosing(g1, g2);
    PropagateAllKeeps(g2);
    PropagateAllClosing(g2);
    PropagateAllDarker(g2);
    var m := PropagateAll(g2);
    assert Darker(g, g0) && Darker(g1, g2);
    DarkerTrans(g, g0, g1);
    DarkerTrans(g, g1, g2);
    DarkerTrans(g, g2, m);
    forall i | Root(m.h, i)
      ensures !IsWhite(m, i)
    {
      assert !IsWhite(g0, i);
      assert i in g.h.objs by {
        assert Live(g, i);
      }
    }
    assert Complete(m);
  }

  /** After the flip the unmarked objects are dead, and no live one refers to them. */
  lemma FlipLiveClosed(m: G, r: G)
    requires Complete(m) && r == m.(white := !m.white)
    ensures LiveClosed(r) && MarksOk(r)
    ensures forall i :: Live(r, i) <==> i in m.h.objs && (!IsWhite(m, i) || m.h.objs[i].fixed)
  {
    forall i
      ensures Live(r, i) <==> i in m.h.objs && (!IsWhite(m, i) || m.h.objs[i].fixed)
    {
      if i in m.mark {
        assert m.mark[i] != White(!m.white);
      }
    }
    forall i, j | Live(r, i) && Edge(r.h, r.cache, i, j)
      ensures Live(r, j)
    {
      assert Live(m, i) && Live(m, j) && Shape(m.h.objs[i]);
      assert !m.h.objs[i].fixed;
      assert Covered(m, i);
    }
  }
}
