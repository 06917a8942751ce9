/** Completeness of the sweep: what is dead after the flip is freed before the collector
    rests again, although the mutator runs in between, unless the mutator looks it up while
    it is dead; and nothing else is freed. */
module GcComplete {
  import opened Common
  import opened GcState
  import opened GcOpen
  import opened GcMark
  import opened GcCycle
  import opened GcSurgery
  import opened GcSweep
  import opened GcStep
  import opened GcMutator
  import opened GcBarrier
  import opened GcOps
  import opened GcRun

  /** A step of the mutator during a sweep: nothing is freed, nothing dies, and exactly the
      dead objects of `back` are brought back to life. */
  ghost predicate Calm(g: G, r: G, back: set<Id>) {
    && r.white == g.white && r.phase == g.phase && r.sweepgc == g.sweepgc && r.sweepstr == g.sweepstr
    && |r.h.strt| == |g.h.strt|
    && (forall i :: i in g.h.objs ==> i in r.h.objs)
    && (forall i :: Dead(r, i) ==> Dead(g, i))
    && (forall i :: Dead(g, i) ==> Dead(r, i) || i in back)
    && (forall i :: i in back ==> !Dead(r, i))
  }

  lemma CalmTrans(g: G, a: G, b: G, x: set<Id>, y: set<Id>)
    requires Calm(g, a, x) && Calm(a, b, y)
    ensures Calm(g, b, x + y)
  {
  }

  lemma BarrierCalm(g: G, r: G, o: Id, v: Option<Id>)
    requires InSweep(g) && o in g.h.objs && Live(g, o) && r == Barrier(g, o, v)
    ensures Calm(g, r, {})
  {
  }

  lemma SlotsCalm(g: G, r: G, o: Id, s: seq<Option<Id>>)
    requires o in g.h.objs && r == g.(h := SetSlotsH(g.h, o, s))
    ensures Calm(g, r, {}) && forall i :: Live(g, i) <==> Live(r, i)
  {
  }

  lemma CreateCalm(g: G, r: G, i: Id, kind: Kind, n: nat, b: nat)
    requires g.mark.Keys == g.h.objs.Keys && i !in g.h.objs && (kind.KShrStr? ==> b < |g.h.strt|) && r == Create(g, i, kind, n, b)
    ensures Calm(g, r, {}) && r.mark.Keys == r.h.objs.Keys && forall k :: Live(g, k) ==> Live(r, k)
  {
  }

  lemma ResurrectCalm(g: G, r: G, i: Id)
    requires r == Resurrect(g, i)
    ensures Calm(g, r, {i})
  {
  }

  lemma SetSlotCalm(g: G, r: G, o: Id, k: nat, v: Option<Id>)
    requires InSweep(g) && Live(g, o) && k <= |g.h.objs[o].slots| && r == SetSlot(g, o, k, v)
    ensures Calm(g, r, {})
  {
    var s := if k < |g.h.objs[o].slots| then g.h.objs[o].slots[k := v] else g.h.objs[o].slots + [v];
    var g1 := g.(h := SetSlotsH(g.h, o, s));
    SlotsCalm(g, g1, o, s);
    BarrierCalm(g1, r, o, v);
    CalmTrans(g, g1, r, {}, {});
  }

  lemma NewObjCalm(g: G, r: G, i: Id, kind: Kind, n: nat, b: nat)
    requires g.mark.Keys == g.h.objs.Keys && i !in g.h.objs && (kind.KShrStr? ==> b < |g.h.strt|)
    requires g.h.running in g.h.objs && r == NewObj(g, i, kind, n, b)
    ensures Calm(g, r, {}) && r.mark.Keys == r.h.objs.Keys
  {
    var g1 := Create(g, i, kind, n, b);
    CreateCalm(g, g1, i, kind, n, b);
    SlotsCalm(g1, r, g.h.running, g1.h.objs[g.h.running].slots + [Some(i)]);
    CalmTrans(g, g1, r, {}, {});
  }

  lemma InternCalm(g: G, r: G, i: Id)
    requires g.h.running in g.h.objs && r == Intern(g, i)
    ensures Calm(g, r, {i})
  {
    var g1 := Resurrect(g, i);
    ResurrectCalm(g, g1, i);
    SlotsCalm(g1, r, g.h.running, g1.h.objs[g.h.running].slots + [Some(i)]);
    CalmTrans(g, g1, r, {i}, {});
  }

  // ----- captured upvalues -----

  /** The open upvalue of the running thread that `luaF_findupval` finds for a level. */
  ghost function Found(h: Heap, level: nat): Option<Id> {
    if h.running in h.objs then FindOpen(h, h.objs[h.running].openupval, h.running, level) else None
  }

  /** The open upvalues that the captures find. */
  ghost function Captured(h: Heap, cs: seq<Capture>): set<Id> {
    set k | 0 <= k < |cs| && cs[k].InStack? && Found(h, cs[k].level).Some? :: Found(h, cs[k].level).value
  }

  lemma FoundBy(h: Heap, cs: seq<Capture>, k: nat, u: Id)
    requires k < |cs| && cs[k].InStack? && Found(h, cs[k].level) == Some(u)
    ensures u in Captured(h, cs)
  {
  }

  /** A search finds the same upvalues later, or new ones. */
  ghost predicate FindsSame(h: Heap, r: Heap) {
    forall level :: if Found(h, level).Some? then Found(r, level) == Found(h, level) else Found(r, level).Some? ==> Found(r, level).value !in h.objs
  }

  lemma {:induction false} PositionSame(h: Heap, r: Heap, us: seq<Id>, level: nat)
    requires forall w :: w in us ==> w in h.objs && w in r.objs && r.objs[w].home == h.objs[w].home
    ensures Position(r, us, level) == Position(h, us, level)
    decreases |us|
  {
    if us != [] {
      assert us[0] in us;
      PositionSame(h, r, us[1..], level);
    }
  }

  lemma OpenSame(h: Heap, r: Heap, us: seq<Id>, t: Id, level: nat)
    requires forall w :: w in us ==> w in h.objs && w in r.objs && r.objs[w].home == h.objs[w].home
    ensures FindOpen(r, us, t, level) == FindOpen(h, us, t, level)
  {
    PositionSame(h, r, us, level);
  }

  /** A new upvalue is found for its own level, and the others as before. */
  lemma OpenInsert(h: Heap, r: Heap, us: seq<Id>, pos: nat, u: Id, t: Id, l: nat, level: nat)
    requires pos == Position(h, us, l) && u !in h.objs && u in r.objs && r.objs[u].home == Slot(t, l)
    requires forall w :: w in us ==> w in h.objs && w in r.objs && r.objs[w].home == h.objs[w].home && h.objs[w].home.Slot?
    requires FindOpen(h, us, t, l).None?
    ensures FindOpen(r, us[..pos] + [u] + us[pos..], t, level) == if level == l then Some(u) else FindOpen(h, us, t, level)
  {
    hide Position, Above, FindOpen;
    var vs, k := us[..pos] + [u] + us[pos..], Position(h, us, level);
    assert forall j :: 0 <= j < pos ==> vs[j] == us[j];
    assert forall j :: pos < j < |vs| ==> vs[j] == us[j - 1];
    assert forall j :: 0 <= j < |us| ==> us[j] in us;
    var k1 := if level == l then pos else if k < pos then k else if level > l then pos else k + 1;
    InsertPosition(h, r, us, vs, pos, u, l, level, k, k1);
    PositionIs(r, vs, level, k1);
    InsertFinds(h, r, us, vs, pos, u, t, l, level, k1);
  }

  lemma InsertFinds(h: Heap, r: Heap, us: seq<Id>, vs: seq<Id>, pos: nat, u: Id, t: Id, l: nat, level: nat, k1: nat)
    requires pos == Position(h, us, l) && |vs| == |us| + 1 && vs[pos] == u && u in r.objs && r.objs[u].home == Slot(t, l)
    requires (forall j :: 0 <= j < pos ==> vs[j] == us[j]) && (forall j :: pos < j < |vs| ==> vs[j] == us[j - 1])
    requires forall j :: 0 <= j < |us| ==> us[j] in h.objs && us[j] in r.objs && r.objs[us[j]].home == h.objs[us[j]].home && h.objs[us[j]].home.Slot?
    requires FindOpen(h, us, t, l).None? && k1 == Position(r, vs, level)
    requires var k := Position(h, us, level); k1 == if level == l then pos else if k < pos then k else if level > l then pos else k + 1
    ensures FindOpen(r, vs, t, level) == if level == l then Some(u) else FindOpen(h, us, t, level)
  {
    hide Position;
    var k := Position(h, us, level);
    // the search for a higher level stops at or before the first lower upvalue
    AboveLower(h, us, pos, l, level);
    assert level > l ==> k <= pos;
    assert level != l && k1 != pos ==> (k1 < |vs| ==> k < |us| && vs[k1] == us[k]);
  }

  lemma AboveLower(h: Heap, us: seq<Id>, pos: nat, l: nat, level: nat)
    requires pos <= |us|
    ensures pos < |us| && level > l && Above(h, us[pos], level) ==> Above(h, us[pos], l)
  {
  }

  lemma InsertPosition(h: Heap, r: Heap, us: seq<Id>, vs: seq<Id>, pos: nat, u: Id, l: nat, level: nat, k: nat, k1: nat)
    requires pos <= |us| && |vs| == |us| + 1 && vs[pos] == u && u in r.objs && r.objs[u].home.Slot? && r.objs[u].home.level == l
    requires (forall j :: 0 <= j < pos ==> vs[j] == us[j]) && (forall j :: pos < j < |vs| ==> vs[j] == us[j - 1])
    requires forall j :: 0 <= j < |us| ==> us[j] in h.objs && us[j] in r.objs && r.objs[us[j]].home == h.objs[us[j]].home && h.objs[us[j]].home.Slot?
    requires (forall j :: 0 <= j < pos ==> Above(h, us[j], l)) && (pos < |us| ==> !Above(h, us[pos], l))
    requires k <= |us| && (forall j :: 0 <= j < k ==> Above(h, us[j], level)) && (k < |us| ==> !Above(h, us[k], level))
    requires k1 == if level == l then pos else if k < pos then k else if level > l then pos else k + 1
    ensures k1 <= |vs| && (forall j :: 0 <= j < k1 ==> Above(r, vs[j], level)) && (k1 < |vs| ==> !Above(r, vs[k1], level))
  {
    forall j | 0 <= j < k1
      ensures Above(r, vs[j], level)
    {
      assert j < pos ==> Above(h, us[j], l);
      assert j < k ==> Above(h, us[j], level);
      assert pos < j ==> Above(h, us[j - 1], level);
    }
  }

  ghost predicate OpenKnown(h: Heap) {
    h.running in h.objs && forall w :: w in h.objs[h.running].openupval ==> w in h.objs && h.objs[w].home.Slot?
  }

  lemma SlotsFind(h: Heap, r: Heap, o: Id, s: seq<Option<Id>>)
    requires OpenKnown(h) && o in h.objs && r == SetSlotsH(h, o, s)
    ensures FindsSame(h, r) && OpenKnown(r)
  {
    forall level
      ensures Found(r, level) == Found(h, level)
    {
      OpenSame(h, r, h.objs[h.running].openupval, h.running, level);
    }
  }

  lemma FindsTrans(h: Heap, a: Heap, r: Heap)
    requires FindsSame(h, a) && FindsSame(a, r) && forall i :: i in h.objs ==> i in a.objs
    ensures FindsSame(h, r)
  {
  }

  lemma FindUpvalFinds(g: G, level: nat, u: Id)
    requires OpenKnown(g.h) && u !in g.h.objs
    ensures var r := FindUpval(g, level, u).0; FindsSame(g.h, r.h) && OpenKnown(r.h)
  {
    hide Position, FindOpen, FindsSame;
    var r := FindUpval(g, level, u).0;
    var us := g.h.objs[g.h.running].openupval;
    var pos := Position(g.h, us, level);
    if Found(g.h, level).None? {
      assert r.h.objs[g.h.running].openupval == us[..pos] + [u] + us[pos..];
      forall l
        ensures Found(r.h, l) == if l == level then Some(u) else Found(g.h, l)
      {
        OpenInsert(g.h, r.h, us, pos, u, g.h.running, level, l);
      }
      FoundMore(g.h, r.h, level, u);
    } else {
      FoundAgain(g.h, r.h);
    }
  }

  lemma FoundMore(h: Heap, r: Heap, level: nat, u: Id)
    requires u !in h.objs && Found(h, level).None? && forall l :: Found(r, l) == if l == level then Some(u) else Found(h, l)
    ensures FindsSame(h, r)
  {
    hide Found;
  }

  lemma FoundAgain(h: Heap, r: Heap)
    requires r == h
    ensures FindsSame(h, r)
  {
    hide Found;
  }

  lemma FindUpvalCalm(g: G, level: nat, u: Id)
    requires g.mark.Keys == g.h.objs.Keys && u !in g.h.objs && g.h.running in g.h.objs
    ensures var (r, w) := FindUpval(g, level, u);
      && Calm(g, r, {w}) && r.mark.Keys == r.h.objs.Keys && r.h.running == g.h.running
      && (w in g.h.objs ==> Found(g.h, level) == Some(w)) && (Found(g.h, level).Some? ==> Found(g.h, level) == Some(w))
  {
    var (r, w) := FindUpval(g, level, u);
    var t := g.h.running;
    if FindOpen(g.h, g.h.objs[t].openupval, t, level).Some? {
      ResurrectCalm(g, r, w);
    } else {
      assert forall i :: Dead(r, i) <==> Dead(g, i);
    }
  }

  /** Capturing revives the upvalue found, and no other. */
  lemma CaptureOneCalm(g: G, r: G, cl: Id, c: Capture)
    requires g.mark.Keys == g.h.objs.Keys && OpenKnown(g.h) && CaptureFits(g, c) && cl in g.h.objs && r == CaptureOne(g, cl, c)
    ensures Calm(g, r, Captured(g.h, [c])) && r.mark.Keys == r.h.objs.Keys
    ensures FindsSame(g.h, r.h) && OpenKnown(r.h)
  {
    hide Calm, FindsSame, Found, FindUpval, OpenKnown;
    match c
    case InStack(level, u) =>
      FindUpvalCalm(g, level, u);
      FindUpvalFinds(g, level, u);
      var (g1, w) := FindUpval(g, level, u);
      CalmKeys(g, g1, {w});
      SlotsCalm(g1, r, cl, g1.h.objs[cl].slots + [Some(w)]);
      SlotsFind(g1.h, r.h, cl, g1.h.objs[cl].slots + [Some(w)]);
      FindsTrans(g.h, g1.h, r.h);
      CalmTrans(g, g1, r, {w}, {});
      if w in g.h.objs {
        FoundBy(g.h, [c], 0, w);
      }
      CalmBack(g, r, {w} + {}, Captured(g.h, [c]));
    case Enclosing(w) =>
      SlotsCalm(g, r, cl, g.h.objs[cl].slots + [Some(w)]);
      SlotsFind(g.h, r.h, cl, g.h.objs[cl].slots + [Some(w)]);
      CalmBack(g, r, {}, Captured(g.h, [c]));
  }

  lemma CalmKeys(g: G, r: G, back: set<Id>)
    requires Calm(g, r, back)
    ensures forall i :: i in g.h.objs ==> i in r.h.objs
  {
  }

  lemma CalmBack(g: G, r: G, x: set<Id>, y: set<Id>)
    requires Calm(g, r, x) && y <= x && forall i :: i in x && i in g.h.objs ==> i in y
    ensures Calm(g, r, y)
  {
  }

  lemma {:induction false} CaptureAllCalm(g: G, r: G, cl: Id, cs: seq<Capture>)
    requires g.mark.Keys == g.h.objs.Keys && OpenKnown(g.h) && CapturesFit(g, cl, cs) && r == CaptureAll(g, cl, cs)
    ensures Calm(g, r, Captured(g.h, cs))
    decreases |cs|
  {
    hide Calm, Found, FindsSame;
    if cs == [] {
      CalmSame(g, Captured(g.h, cs));
    } else {
      var g1 := CaptureOne(g, cl, cs[0]);
      CaptureOneCalm(g, g1, cl, cs[0]);
      CaptureAllCalm(g1, r, cl, cs[1..]);
      CalmTrans(g, g1, r, Captured(g.h, [cs[0]]), Captured(g1.h, cs[1..]));
      CapturedParts(g.h, g1.h, cs);
      CalmBack(g, r, Captured(g.h, [cs[0]]) + Captured(g1.h, cs[1..]), Captured(g.h, cs));
    }
  }

  lemma CalmSame(g: G, back: set<Id>)
    requires back == {}
    ensures Calm(g, g, back)
  {
  }

  lemma CapturedParts(h: Heap, r: Heap, cs: seq<Capture>)
    requires cs != [] && FindsSame(h, r)
    ensures forall i :: i in h.objs && (i in Captured(h, [cs[0]]) || i in Captured(r, cs[1..])) ==> i in Captured(h, cs)
    ensures forall i :: i in Captured(h, cs) ==> i in Captured(h, [cs[0]]) || i in Captured(r, cs[1..])
  {
    hide Found;
    forall i | i in h.objs && (i in Captured(h, [cs[0]]) || i in Captured(r, cs[1..]))
      ensures i in Captured(h, cs)
    {
      if i in Captured(h, [cs[0]]) {
        FoundBy(h, cs, 0, i);
      } else {
        var k :| 0 <= k < |cs[1..]| && cs[1..][k].InStack? && Found(r, cs[1..][k].level) == Some(i);
        FoundBy(h, cs, k + 1, i);
      }
    }
    forall i | i in Captured(h, cs)
      ensures i in Captured(h, [cs[0]]) || i in Captured(r, cs[1..])
    {
      var k :| 0 <= k < |cs| && cs[k].InStack? && Found(h, cs[k].level) == Some(i);
      if k == 0 {
        FoundBy(h, [cs[0]], 0, i);
      } else {
        assert cs[1..][k - 1] == cs[k];
        FoundBy(r, cs[1..], k - 1, i);
      }
    }
  }

  lemma SetCacheCalm(g: G, r: G, p: Id, c: Id)
    requires InSweep(g) && Live(g, p) && c in g.h.objs && r == SetCache(g, p, c)
    ensures Calm(g, r, {})
  {
  }

  // ----- one step of a sweep -----

  /** The objects that `internshrstr` and `luaF_findupval` bring back if they are dead. */
  ghost function Revived(h: Heap, op: Op): set<Id> {
    match op
    case InternString(i) => {i}
    case MakeClosure(cl, p, cs) => Captured(h, cs)
    case _ => {}
  }

  lemma NewClosureCalm(g: G, r: G, cl: Id, p: Id)
    requires g.mark.Keys == g.h.objs.Keys && cl !in g.h.objs && g.h.running in g.h.objs && r == NewClosure(g, cl, p)
    ensures Calm(g, r, {}) && r.mark.Keys == r.h.objs.Keys
    ensures OpenKnown(g.h) ==> FindsSame(g.h, r.h) && OpenKnown(r.h)
  {
    var g1 := NewObj(g, cl, KLClosure, 0, 0);
    NewObjCalm(g, g1, cl, KLClosure, 0, 0);
    SlotsCalm(g1, r, cl, g1.h.objs[cl].slots + [Some(p)]);
    CalmTrans(g, g1, r, {}, {});
    if OpenKnown(g.h) {
      forall level
        ensures Found(r.h, level) == Found(g.h, level)
      {
        OpenSame(g.h, r.h, g.h.objs[g.h.running].openupval, g.h.running, level);
      }
    }
  }

  lemma PushClosureCalm(g: G, r: G, cl: Id, p: Id, cs: seq<Capture>)
    requires InSweep(g) && g.mark.Keys == g.h.objs.Keys && cl !in g.h.objs && Live(g, p) && OpenKnown(g.h)
    requires CapturesFit(NewClosure(g, cl, p), cl, cs) && r == PushClosure(g, cl, p, cs)
    ensures Calm(g, r, Captured(g.h, cs))
  {
    hide Captured, FindsSame, CapturesFit, CaptureAll, SetCache;
    var g1 := NewClosure(g, cl, p);
    NewClosureCalm(g, g1, cl, p);
    assert cl in g1.h.objs;
    var g2 := CaptureAll(g1, cl, cs);
    CaptureAllCalm(g1, g2, cl, cs);
    CalmTrans(g, g1, g2, {}, Captured(g1.h, cs));
    assert Live(g2, p);
    SetCacheCalm(g2, r, p, cl);
    CalmTrans(g, g2, r, {} + Captured(g1.h, cs), {});
    CapturedSame(g.h, g1.h, cs);
    CalmBack(g, r, {} + Captured(g1.h, cs) + {}, Captured(g.h, cs));
  }

  lemma CapturedSame(h: Heap, r: Heap, cs: seq<Capture>)
    requires FindsSame(h, r)
    ensures Captured(h, cs) <= Captured(r, cs) && forall i :: i in h.objs && i in Captured(r, cs) ==> i in Captured(h, cs)
  {
    hide Found;
    forall i | i in Captured(h, cs)
      ensures i in Captured(r, cs)
    {
      var k :| 0 <= k < |cs| && cs[k].InStack? && Found(h, cs[k].level) == Some(i);
      FoundBy(r, cs, k, i);
    }
    forall i | i in h.objs && i in Captured(r, cs)
      ensures i in Captured(h, cs)
    {
      var k :| 0 <= k < |cs| && cs[k].InStack? && Found(r, cs[k].level) == Some(i);
      FoundBy(h, cs, k, i);
    }
  }

  lemma StoreUpvalCalm(g: G, r: G, u: Id, v: Option<Id>)
    requires InSweep(g) && Live(g, u) && g.h.objs[u].home.Slot? && g.h.objs[u].home.thread in g.h.objs
    requires g.h.objs[u].home.level < |g.h.objs[g.h.objs[u].home.thread].slots| && r == SetOpenUpval(g, u, v)
    ensures Calm(g, r, {})
  {
    var Slot(t, l) := g.h.objs[u].home;
    var g1 := g.(h := SetSlotsH(g.h, t, g.h.objs[t].slots[l := v]));
    SlotsCalm(g, g1, t, g.h.objs[t].slots[l := v]);
    BarrierCalm(g1, r, u, v);
    CalmTrans(g, g1, r, {}, {});
  }

  lemma KnownOpen(g: G)
    requires Inv(g)
    ensures OpenKnown(g.h)
  {
    hide Inv;
    RunningFacts(g);
  }

  lemma MutatorCalm(g: G, op: Op)
    requires Inv(g) && InSweep(g) && Enabled(g, op) && !op.Collect? && !op.CloseUpval?
    ensures Calm(g, Apply(g, op), Revived(g.h, op))
  {
    InvParts(g);
    InvMarks(g);
    EnabledFits(g, op);
    var r := Apply(g, op);
    hide Inv, Wf, LiveClosed, Reachable, Calm, Captured, PushClosure, CapturesFit, OpenKnown, NewClosure;
    match op
    case NewObject(i, kind, n, b) => NewObjCalm(g, r, i, kind, n, b);
    case InternString(i) => InternCalm(g, r, i);
    case FixString(i) =>
      ReachableLive(g, i);
      FixCalm(g, r, i);
    case StoreSlot(o, k, v) =>
      ReachableLive(g, o);
      SetSlotCalm(g, r, o, k, v);
    case StoreUpval(u, v) =>
      ReachableLive(g, u);
      StoreUpvalCalm(g, r, u, v);
    case StoreStack(t, s) => SlotsCalm(g, r, t, s);
    case SetRoots(t, registry, mt) => RootsCalm(g, r);
    case MakeClosure(cl, p, cs) =>
      ReachableLive(g, p);
      KnownOpen(g);
      PushClosureCalm(g, r, cl, p, cs);
  }

  lemma FixCalm(g: G, r: G, i: Id)
    requires Live(g, i) && r == Fix(g, i)
    ensures Calm(g, r, {})
  {
  }

  lemma RootsCalm(g: G, r: G)
    requires r == g.(h := g.h.(running := r.h.running, registry := r.h.registry, mt := r.h.mt))
    ensures Calm(g, r, {})
  {
  }

  /** One step during a sweep frees dead objects only, lets nothing die, and leaves a dead
      object dead unless it frees or revives it; what it revives is live. */
  ghost predicate SweepFair(g: G, r: G, back: set<Id>) {
    && r.white == g.white
    && (forall i :: i in g.h.objs && i !in r.h.objs ==> Dead(g, i))
    && (forall i :: Dead(r, i) ==> Dead(g, i))
    && (forall i :: Dead(g, i) ==> Dead(r, i) || i !in r.h.objs || i in back)
    && (forall i :: Dead(g, i) && i in back ==> Live(r, i))
  }

  lemma SweepsFair(g: G, r: G)
    requires MarksOk(g) && Sweeps(g, r.(phase := g.phase))
    ensures SweepFair(g, r, {})
  {
    var a := r.(phase := g.phase);
    SweepsLive(g, a);
    forall i
      ensures Dead(r, i) <==> Dead(a, i)
    {
    }
    forall i | Dead(g, i) && i in r.h.objs
      ensures Dead(a, i)
    {
      assert !Live(g, i);
    }
  }

  lemma CalmFair(g: G, r: G, back: set<Id>)
    requires Calm(g, r, back)
    ensures SweepFair(g, r, back)
  {
  }

  lemma CollectFair(g: G, r: G, max: nat)
    requires Inv(g) && InSweep(g) && r == SingleStep(g, max)
    ensures SweepFair(g, r, {}) && (InSweep(r) || r.phase.Pause?)
  {
    InvParts(g);
    hide Inv, Wf, LiveClosed, SweepFair, Sweeps;
    SweepStep(g, max);
    SweepsFair(g, r);
    SweepStepPhase(g, max);
  }

  lemma SweepingOf(g: G)
    requires Inv(g) && InSweep(g)
    ensures Sweeping(g)
  {
  }

  lemma CloseFair(g: G, r: G, t: Id)
    requires Inv(g) && InSweep(g) && t in g.h.objs && g.h.objs[t].openupval != [] && g.h.objs[t].openupval[0] in g.h.objs
    requires r == CloseHead(g, t)
    ensures SweepFair(g, r, {}) && InSweep(r)
  {
    InvParts(g);
    SweepingOf(g);
    hide Inv, Wf, LiveClosed, SweepFair, Sweeps, SweepColors;
    CloseHeadSweeps(g, r, t);
    WhiteBit(g, r);
    SweepsFair(g, r);
  }

  lemma MutatorFair(g: G, op: Op)
    requires Inv(g) && InSweep(g) && Enabled(g, op) && !op.Collect? && !op.CloseUpval?
    ensures SweepFair(g, Apply(g, op), Revived(g.h, op)) && InSweep(Apply(g, op))
  {
    hide Inv, Enabled, SweepFair, Calm;
    MutatorCalm(g, op);
    CalmFair(g, Apply(g, op), Revived(g.h, op));
    CalmPhase(g, Apply(g, op), Revived(g.h, op));
  }

  lemma SweepStepFair(g: G, op: Op)
    requires Inv(g) && InSweep(g) && Enabled(g, op)
    ensures SweepFair(g, Apply(g, op), Revived(g.h, op))
    ensures InSweep(Apply(g, op)) || Apply(g, op).phase.Pause?
  {
    hide Inv, SweepFair, Enabled, Apply;
    if op.Collect? {
      CollectOp(g, op);
    } else if op.CloseUpval? {
      CloseOp(g, op);
    } else {
      MutatorFair(g, op);
    }
  }

  lemma CollectOp(g: G, op: Op)
    requires Inv(g) && InSweep(g) && Enabled(g, op) && op.Collect?
    ensures SweepFair(g, Apply(g, op), Revived(g.h, op)) && (InSweep(Apply(g, op)) || Apply(g, op).phase.Pause?)
  {
    hide Inv, SweepFair, SingleStep, ApplyUpval;
    CollectFair(g, Apply(g, op), op.max);
  }

  lemma CloseOp(g: G, op: Op)
    requires Inv(g) && InSweep(g) && Enabled(g, op) && op.CloseUpval?
    ensures SweepFair(g, Apply(g, op), Revived(g.h, op)) && InSweep(Apply(g, op))
  {
    hide Inv, SweepFair, CloseHead, Reachable;
    EnabledFits(g, op);
    CloseFair(g, Apply(g, op), op.t);
  }

  lemma CalmPhase(g: G, r: G, back: set<Id>)
    requires Calm(g, r, back)
    ensures r.phase == g.phase
  {
  }

  lemma SweepStepPhase(g: G, max: nat)
    requires Inv(g) && InSweep(g)
    ensures InSweep(SingleStep(g, max)) || SingleStep(g, max).phase.Pause?
  {
    hide Wf, SweepColors, Sweeps;
    match g.phase
    case SweepString =>
      SweepStringsSweeps(g, max);
      WhiteBit(g, SweepStrings(g, max));
    case SweepUdata =>
    case Sweep =>
      if g.sweepgc > 0 {
        SweepGcSweeps(g, max);
      }
  }

  // ----- whole sweeps -----

  /** The state after the first `k` steps of a run. */
  ghost function StateAt(g: G, ops: seq<Op>, k: nat): (r: G)
    requires Inv(g) && Runs(g, ops) && k <= |ops|
    ensures Inv(r) && (k < |ops| ==> Enabled(r, ops[k]))
    decreases k
  {
    if k == 0 then g else
      StepInv(g, ops[0]);
      StateAt(Apply(g, ops[0]), ops[1..], k - 1)
  }

  lemma FairAt(g: G, r: G, back: set<Id>, i: Id)
    requires SweepFair(g, r, back)
    ensures Dead(g, i) && i in back ==> Live(r, i)
    ensures Dead(g, i) && i !in back ==> Dead(r, i) || i !in r.h.objs
    ensures Live(g, i) ==> Live(r, i)
    ensures !Dead(g, i) ==> !Dead(r, i)
  {
  }

  lemma NoDeadAtRest(g: G, i: Id)
    requires Inv(g) && g.phase.Pause?
    ensures !Dead(g, i)
  {
  }

  /** No object that is live during a sweep, in particular none created during it, is freed
      before the collector rests. */
  lemma {:induction false} SweepKeepsLive(g: G, ops: seq<Op>, i: Id)
    requires Inv(g) && Runs(g, ops) && Live(g, i)
    requires forall k :: 0 <= k < |ops| ==> InSweep(StateAt(g, ops, k))
    ensures Live(Exec(g, ops), i)
    decreases |ops|
  {
    if ops != [] {
      assert InSweep(StateAt(g, ops, 0));
      StepInv(g, ops[0]);
      SweepStepFair(g, ops[0]);
      var r := Apply(g, ops[0]);
      forall k | 0 <= k < |ops[1..]|
        ensures InSweep(StateAt(r, ops[1..], k))
      {
        assert InSweep(StateAt(g, ops, k + 1));
      }
      SweepKeepsLive(r, ops[1..], i);
    }
  }

  lemma {:induction false} NeverDead(g: G, ops: seq<Op>, i: Id, k: nat)
    requires Inv(g) && Runs(g, ops) && !Dead(g, i) && k <= |ops|
    requires forall j :: 0 <= j < |ops| ==> InSweep(StateAt(g, ops, j))
    ensures !Dead(StateAt(g, ops, k), i)
    ensures Live(g, i) ==> Live(StateAt(g, ops, k), i)
    decreases k
  {
    hide Inv, Enabled, SweepFair, Apply, Revived, InSweep;
    if k > 0 {
      assert InSweep(StateAt(g, ops, 0));
      StepInv(g, ops[0]);
      SweepStepFair(g, ops[0]);
      var r := Apply(g, ops[0]);
      FairAt(g, r, Revived(g.h, ops[0]), i);
      forall j | 0 <= j < |ops[1..]|
        ensures InSweep(StateAt(r, ops[1..], j))
      {
        assert InSweep(StateAt(g, ops, j + 1));
      }
      NeverDead(r, ops[1..], i, k - 1);
    }
  }

  ghost predicate IsFreed(g: G, ops: seq<Op>, i: Id)
    requires Inv(g) && Runs(g, ops)
  {
    exists k :: 0 <= k <= |ops| && i !in StateAt(g, ops, k).h.objs
  }

  ghost predicate IsRevived(g: G, ops: seq<Op>, i: Id)
    requires Inv(g) && Runs(g, ops)
  {
    exists k :: 0 <= k < |ops| && Dead(StateAt(g, ops, k), i) && i in Revived(StateAt(g, ops, k).h, ops[k])
  }

  /** A dead object is freed before the collector rests exactly if the mutator never looks it
      up, as a string or as an upvalue, while it is dead. */
  lemma {:induction false} SweepExact(g: G, ops: seq<Op>, i: Id)
    requires Inv(g) && Runs(g, ops) && Exec(g, ops).phase.Pause? && Dead(g, i)
    requires forall k :: 0 <= k < |ops| ==> InSweep(StateAt(g, ops, k))
    ensures IsFreed(g, ops, i) <==> !IsRevived(g, ops, i)
    decreases |ops|
  {
    hide Inv, Enabled, SweepFair, Apply, Revived, InSweep;
    if ops == [] {
      NoDeadAtRest(g, i);
    } else {
      assert InSweep(StateAt(g, ops, 0));
      StepInv(g, ops[0]);
      SweepStepFair(g, ops[0]);
      var r := Apply(g, ops[0]);
      FairAt(g, r, Revived(g.h, ops[0]), i);
      forall k | 0 <= k < |ops[1..]|
        ensures InSweep(StateAt(r, ops[1..], k))
      {
        assert InSweep(StateAt(g, ops, k + 1));
      }
      if Dead(r, i) {
        SweepExact(r, ops[1..], i);
        Later(g, ops, i);
      } else {
        Decided(g, ops, i);
      }
    }
  }

  /** The first step freed the object or revived it. */
  lemma Decided(g: G, ops: seq<Op>, i: Id)
    requires Inv(g) && Runs(g, ops) && ops != [] && Dead(g, i) && !Dead(Apply(g, ops[0]), i)
    requires Inv(Apply(g, ops[0])) && Runs(Apply(g, ops[0]), ops[1..])
    requires forall k :: 0 <= k < |ops[1..]| ==> InSweep(StateAt(Apply(g, ops[0]), ops[1..], k))
    requires if i in Revived(g.h, ops[0]) then Live(Apply(g, ops[0]), i) else i !in Apply(g, ops[0]).h.objs
    ensures IsFreed(g, ops, i) <==> !IsRevived(g, ops, i)
  {
    hide Inv, Enabled, Apply, Revived, InSweep;
    var r := Apply(g, ops[0]);
    assert StateAt(g, ops, 0) == g && StateAt(g, ops, 1) == r;
    forall k | 0 < k <= |ops|
      ensures !Dead(StateAt(g, ops, k), i) && (Live(r, i) ==> i in StateAt(g, ops, k).h.objs)
    {
      NeverDead(r, ops[1..], i, k - 1);
    }
  }

  /** A dead object that the first step neither frees nor revives has its fate to come. */
  lemma Later(g: G, ops: seq<Op>, i: Id)
    requires Inv(g) && Runs(g, ops) && ops != [] && Dead(g, i) && i !in Revived(g.h, ops[0])
    requires Inv(Apply(g, ops[0])) && Runs(Apply(g, ops[0]), ops[1..])
    ensures IsFreed(g, ops, i) <==> IsFreed(Apply(g, ops[0]), ops[1..], i)
    ensures IsRevived(g, ops, i) <==> IsRevived(Apply(g, ops[0]), ops[1..], i)
  {
    hide Inv, Enabled, Apply, Revived, InSweep;
    var r := Apply(g, ops[0]);
    forall k | 0 < k <= |ops|
      ensures StateAt(g, ops, k) == StateAt(r, ops[1..], k - 1)
    {
    }
    forall k | 0 <= k <= |ops[1..]|
      ensures StateAt(r, ops[1..], k) == StateAt(g, ops, k + 1)
    {
    }
    assert StateAt(g, ops, 0) == g;
  }
}
