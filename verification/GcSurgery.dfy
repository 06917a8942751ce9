/** Changes of the heap's lists: objects are freed, created, captured and closed. */
module GcSurgery {
  import opened Common
  import opened GcState
  import opened GcOpen

  function WithOpen(o: Obj, us: seq<Id>): Obj { o.(openupval := us) }

  /** Remove the `k`-th open upvalue of thread `t` from the heap. */
  function FreeOpenH(h: Heap, t: Id, k: nat): Heap
    requires t in h.objs && k < |h.objs[t].openupval|
  {
    var us := h.objs[t].openupval;
    var rest := us[..k] + us[k + 1..];
    h.(objs := h.objs[t := WithOpen(h.objs[t], rest)] - {us[k]}, uvhead := Minus(h.uvhead, {us[k]}))
  }

  /** Close the first open upvalue of thread `t`: it takes its value and moves to `allgc`. */
  function CloseH(h: Heap, t: Id): Heap
    requires t in h.objs && h.objs[t].openupval != [] && h.objs[t].openupval[0] in h.objs
  {
    var u := h.objs[t].openupval[0];
    var closed := h.objs[u].(slots := Vals(h, u), home := Own);
    h.(objs := h.objs[t := WithOpen(h.objs[t], h.objs[t].openupval[1..])][u := closed],
       uvhead := Minus(h.uvhead, {u}), allgc := [u] + h.allgc)
  }

  /** Remove the `p`-th object of `allgc` from the heap. */
  function FreeListedH(h: Heap, p: nat): Heap
    requires p < |h.allgc|
  {
    h.(objs := h.objs - {h.allgc[p]}, allgc := h.allgc[..p] + h.allgc[p + 1..])
  }

  /** Remove the `j`-th string of bucket `k` from the heap. */
  function FreeStrH(h: Heap, k: nat, j: nat): Heap
    requires k < |h.strt| && j < |h.strt[k]|
  {
    h.(objs := h.objs - {h.strt[k][j]}, strt := h.strt[k := h.strt[k][..j] + h.strt[k][j + 1..]])
  }

  /** The objects that remain hold the values they held. */
  ghost predicate SameVals(h: Heap, r: Heap) {
    && r.objs.Keys <= h.objs.Keys
    && (forall i :: i in r.objs ==> Vals(r, i) == Vals(h, i))
    && (forall i :: i in r.objs ==> r.objs[i].kind == h.objs[i].kind && r.objs[i].fixed == h.objs[i].fixed)
    && r.mainthread == h.mainthread && r.running == h.running && r.registry == h.registry && r.mt == h.mt
  }

  lemma FreeOpenShapes(h: Heap, r: Heap, t: Id, k: nat)
    requires Wf(h) && t in h.objs && k < |h.objs[t].openupval| && r == FreeOpenH(h, t, k)
    ensures Shapes(r) && AllListOk(r) && StrListOk(r) && ThreadsOk(r)
    ensures r.objs.Keys == h.objs.Keys - {h.objs[t].openupval[k]}
  {
    hide Owned, UvheadOk, Minus;
    var us := h.objs[t].openupval;
    var u := us[k];
    assert OpenAt(h, u, t);
    assert Shape(h.objs[u]) && Shape(h.objs[t]);
  }

  lemma FreeOpenOpen(h: Heap, r: Heap, t: Id, k: nat)
    requires OpenOk(h) && t in h.objs && k < |h.objs[t].openupval| && r == FreeOpenH(h, t, k)
    requires Shapes(h) && UvheadOk(h)
    ensures OpenOk(r) && UvheadOk(r)
  {
    var us := h.objs[t].openupval;
    var u, rest := us[k], us[..k] + us[k + 1..];
    assert OpenAt(h, u, t) && Shape(h.objs[u]);
    NoDupRemove(us, k);
    MinusNoDup(h.uvhead, {u});
    assert r.objs[t].openupval == rest;
    forall s, w | s in r.objs && w in r.objs[s].openupval
      ensures OpenAt(r, w, s)
    {
      assert OpenAt(h, w, s);
    }
    forall w | w in r.objs && r.objs[w].home.Slot?
      ensures r.objs[w].home.thread in r.objs && w in r.objs[r.objs[w].home.thread].openupval
    {
      assert w in h.objs && h.objs[w].home == r.objs[w].home;
      assert w in h.objs[h.objs[w].home.thread].openupval;
    }
  }

  lemma FreeOpenOwned(h: Heap, r: Heap, t: Id, k: nat)
    requires Owned(h) && t in h.objs && k < |h.objs[t].openupval| && r == FreeOpenH(h, t, k)
    ensures Owned(r)
  {
    forall i | i in r.objs && InBucket(h, i)
      ensures InBucket(r, i)
    {
    }
  }

  lemma FreeOpenWf(h: Heap, r: Heap, t: Id, k: nat)
    requires Wf(h) && t in h.objs && k < |h.objs[t].openupval| && r == FreeOpenH(h, t, k)
    ensures Wf(r) && SameVals(h, r)
    ensures r.objs.Keys == h.objs.Keys - {h.objs[t].openupval[k]}
  {
    FreeOpenShapes(h, r, t, k);
    FreeOpenOpen(h, r, t, k);
    FreeOpenOwned(h, r, t, k);
    FreeOpenVals(h, r, t, k);
    FreeOpenSorted(h, r, t, k);
  }

  lemma FreeOpenSorted(h: Heap, r: Heap, t: Id, k: nat)
    requires OpenOk(h) && OpenSorted(h) && OpenOk(r) && t in h.objs && k < |h.objs[t].openupval| && r == FreeOpenH(h, t, k)
    ensures OpenSorted(r)
  {
    hide NoDup, Minus, Descends;
    SortedKept(h, r);
  }

  lemma FreeOpenVals(h: Heap, r: Heap, t: Id, k: nat)
    requires Wf(h) && t in h.objs && k < |h.objs[t].openupval| && r == FreeOpenH(h, t, k)
    ensures SameVals(h, r)
  {
    hide AllListOk, StrListOk, Owned, UvheadOk, Minus;
    var u := h.objs[t].openupval[k];
    assert OpenAt(h, u, t) && Shape(h.objs[u]);
    forall i | i in r.objs
      ensures Vals(r, i) == Vals(h, i)
    {
      if h.objs[i].home.Slot? {
        assert h.objs[i].home.thread in h.objs;
      }
    }
  }

  lemma CloseShapes(h: Heap, r: Heap, t: Id, u: Id)
    requires Wf(h) && t in h.objs && h.objs[t].openupval != [] && u == h.objs[t].openupval[0]
    requires u in h.objs && r == CloseH(h, t)
    ensures Shapes(r) && AllListOk(r) && StrListOk(r) && ThreadsOk(r)
    ensures r.objs.Keys == h.objs.Keys
  {
    hide NoDup;
    assert OpenAt(h, u, t) && Shape(h.objs[u]) && Shape(h.objs[t]);
    CloseListed(h, r, t, u);
    CloseStrings(h, r, t, u);
  }

  lemma CloseListed(h: Heap, r: Heap, t: Id, u: Id)
    requires AllListOk(h) && OpenOk(h) && t in h.objs && h.objs[t].openupval != [] && u == h.objs[t].openupval[0]
    requires u in h.objs && h.objs[u].kind.KUpval? && h.objs[u].home.Slot? && r == CloseH(h, t) && ThreadsOk(h)
    ensures AllListOk(r) && ThreadsOk(r)
  {
    hide NoDup;
    assert u !in h.allgc;
    assert NoDup([u] + h.allgc) by { AddFront(u, h.allgc); }
  }

  lemma AddFront(u: Id, s: seq<Id>)
    requires NoDup(s) && u !in s
    ensures NoDup([u] + s)
  {
    NoDupAppend([u], s);
  }

  lemma CloseStrings(h: Heap, r: Heap, t: Id, u: Id)
    requires StrListOk(h) && t in h.objs && h.objs[t].openupval != [] && u == h.objs[t].openupval[0]
    requires u in h.objs && h.objs[u].kind.KUpval? && r == CloseH(h, t)
    ensures StrListOk(r)
  {
    hide NoDup;
  }

  lemma CloseOpen(h: Heap, r: Heap, t: Id, u: Id)
    requires OpenOk(h) && Shapes(h) && UvheadOk(h) && t in h.objs && h.objs[t].openupval != []
    requires u == h.objs[t].openupval[0] && u in h.objs && r == CloseH(h, t)
    ensures OpenOk(r) && UvheadOk(r)
  {
    hide NoDup;
    assert OpenAt(h, u, t) && Shape(h.objs[u]) && Shape(h.objs[t]);
    var us := h.objs[t].openupval;
    assert us == [u] + us[1..];
    NoDupTail(u, us[1..]);
    MinusNoDup(h.uvhead, {u});
    assert r.objs[t].openupval == us[1..] && u != t;
    CloseOthers(h, r, t, u);
  }

  lemma CloseOthers(h: Heap, r: Heap, t: Id, u: Id)
    requires OpenOk(h) && t in h.objs && h.objs[t].openupval != [] && h.objs[t].home.Own? && u == h.objs[t].openupval[0]
    requires u in h.objs && r == CloseH(h, t) && u !in h.objs[t].openupval[1..] && u != t && h.objs[u].openupval == [] && OpenAt(h, u, t)
    ensures forall s, w :: s in r.objs && w in r.objs[s].openupval ==> OpenAt(r, w, s)
    ensures forall w :: w in r.objs && r.objs[w].home.Slot? ==>
      r.objs[w].home.thread in r.objs && w in r.objs[r.objs[w].home.thread].openupval
  {
    hide NoDup;
    var us := h.objs[t].openupval;
    assert us == [u] + us[1..];
    forall s, w | s in r.objs && w in r.objs[s].openupval
      ensures OpenAt(r, w, s)
    {
      assert OpenAt(h, w, s);
    }
    forall w | w in r.objs && r.objs[w].home.Slot?
      ensures r.objs[w].home.thread in r.objs && w in r.objs[r.objs[w].home.thread].openupval
    {
      assert w != u && h.objs[w].home == r.objs[w].home;
      assert w in h.objs[h.objs[w].home.thread].openupval;
    }
  }

  lemma CloseVals(h: Heap, r: Heap, t: Id, u: Id)
    requires Shapes(h) && OpenOk(h) && t in h.objs && h.objs[t].openupval != []
    requires u == h.objs[t].openupval[0] && u in h.objs && r == CloseH(h, t)
    ensures SameVals(h, r)
  {
    assert OpenAt(h, u, t) && Shape(h.objs[u]) && Shape(h.objs[t]);
    forall i | i in r.objs
      ensures Vals(r, i) == Vals(h, i)
    {
      if h.objs[i].home.Slot? {
        assert i in h.objs[h.objs[i].home.thread].openupval;
        assert Shape(h.objs[h.objs[i].home.thread]);
      }
    }
  }

  lemma CloseOwned(h: Heap, r: Heap, t: Id, u: Id)
    requires Owned(h) && t in h.objs && h.objs[t].openupval != []
    requires u == h.objs[t].openupval[0] && u in h.objs && r == CloseH(h, t)
    ensures Owned(r)
  {
    forall i | i in r.objs && InBucket(h, i)
      ensures InBucket(r, i)
    {
    }
  }

  /** Closing an upvalue keeps the heap's shape and every value it shows. */
  lemma CloseWf(h: Heap, r: Heap, t: Id, u: Id)
    requires Wf(h) && t in h.objs && h.objs[t].openupval != [] && u == h.objs[t].openupval[0]
    requires u in h.objs && r == CloseH(h, t)
    ensures Wf(r) && SameVals(h, r)
    ensures r.objs.Keys == h.objs.Keys
  {
    CloseShapes(h, r, t, u);
    CloseOpen(h, r, t, u);
    CloseOwned(h, r, t, u);
    CloseVals(h, r, t, u);
    CloseSorted(h, r, t, u);
  }

  lemma CloseSorted(h: Heap, r: Heap, t: Id, u: Id)
    requires OpenOk(h) && OpenSorted(h) && OpenOk(r) && t in h.objs && h.objs[t].openupval != [] && u == h.objs[t].openupval[0]
    requires u in h.objs && r == CloseH(h, t)
    ensures OpenSorted(r)
  {
    hide NoDup, Minus, Descends;
    var us := h.objs[t].openupval;
    assert us[1..] == us[..0] + us[0 + 1..];
    forall s | s in r.objs
      ensures Thinned(h, s, r.objs[s].openupval)
    {
      if s == t && s != u {
        assert r.objs[s].openupval == us[..0] + us[0 + 1..];
      }
    }
    SortedKept(h, r);
  }

  lemma FreeListedOpen(h: Heap, r: Heap, p: nat)
    requires OpenOk(h) && UvheadOk(h) && AllListOk(h) && p < |h.allgc| && r == FreeListedH(h, p)
    requires h.allgc[p] in h.objs && h.objs[h.allgc[p]].openupval == []
    ensures OpenOk(r) && UvheadOk(r)
  {
    var i := h.allgc[p];
    forall s, w | s in r.objs && w in r.objs[s].openupval
      ensures OpenAt(r, w, s)
    {
      assert OpenAt(h, w, s);
    }
    forall w | w in r.objs && r.objs[w].home.Slot?
      ensures r.objs[w].home.thread in r.objs && w in r.objs[r.objs[w].home.thread].openupval
    {
      assert w in h.objs[h.objs[w].home.thread].openupval;
    }
  }

  lemma FreeListedLists(h: Heap, r: Heap, p: nat)
    requires Shapes(h) && AllListOk(h) && ThreadsOk(h)
    requires p < |h.allgc| && r == FreeListedH(h, p) && h.allgc[p] != h.running
    ensures Shapes(r) && AllListOk(r) && ThreadsOk(r)
  {
    NoDupRemove(h.allgc, p);
    assert h.allgc[p] in h.allgc;
  }

  lemma FreeListedBuckets(h: Heap, r: Heap, p: nat)
    requires AllListOk(h) && StrListOk(h) && Owned(h) && p < |h.allgc| && r == FreeListedH(h, p)
    ensures StrListOk(r) && Owned(r)
  {
    NoDupRemove(h.allgc, p);
    assert h.allgc[p] in h.allgc;
    forall i | i in r.objs && InBucket(h, i)
      ensures InBucket(r, i)
    {
    }
  }

  lemma FreeListedWf(h: Heap, r: Heap, p: nat)
    requires Wf(h) && p < |h.allgc| && r == FreeListedH(h, p)
    requires h.allgc[p] != h.running && h.objs[h.allgc[p]].openupval == []
    ensures Wf(r) && SameVals(h, r) && r.objs.Keys == h.objs.Keys - {h.allgc[p]}
  {
    FreeListedLists(h, r, p);
    FreeListedBuckets(h, r, p);
    FreeListedOpen(h, r, p);
    FreedSorted(h, r, h.allgc[p]);
    forall i | i in r.objs
      ensures Vals(r, i) == Vals(h, i)
    {
      if h.objs[i].home.Slot? {
        assert i in h.objs[h.objs[i].home.thread].openupval;
      }
    }
  }

  lemma FreeStrBuckets(h: Heap, r: Heap, k: nat, j: nat)
    requires StrListOk(h) && Owned(h) && k < |h.strt| && j < |h.strt[k]| && r == FreeStrH(h, k, j)
    ensures StrListOk(r) && Owned(r)
  {
    var i, rest := h.strt[k][j], h.strt[k][..j] + h.strt[k][j + 1..];
    NoDupRemove(h.strt[k], j);
    assert forall l :: 0 <= l < |r.strt| ==> r.strt[l] == if l == k then rest else h.strt[l];
    forall l, x | 0 <= l < |r.strt| && x in r.strt[l]
      ensures x in h.strt[l] && x in r.objs && r.objs[x].kind.KShrStr?
    {
    }
    forall x | x in r.objs && InBucket(h, x)
      ensures InBucket(r, x)
    {
      var l :| 0 <= l < |h.strt| && x in h.strt[l];
      assert x in r.strt[l];
    }
  }

  lemma FreeStrLists(h: Heap, r: Heap, k: nat, j: nat)
    requires Shapes(h) && AllListOk(h) && StrListOk(h) && ThreadsOk(h)
    requires k < |h.strt| && j < |h.strt[k]| && r == FreeStrH(h, k, j)
    ensures Shapes(r) && AllListOk(r) && ThreadsOk(r)
  {
    assert h.strt[k][j] in h.strt[k];
  }

  lemma FreeStrOpen(h: Heap, r: Heap, k: nat, j: nat)
    requires OpenOk(h) && UvheadOk(h) && StrListOk(h) && Shapes(h)
    requires k < |h.strt| && j < |h.strt[k]| && r == FreeStrH(h, k, j)
    ensures OpenOk(r) && UvheadOk(r) && SameVals(h, r)
  {
    var i := h.strt[k][j];
    assert i in h.strt[k] && Shape(h.objs[i]);
    forall s, w | s in r.objs && w in r.objs[s].openupval
      ensures OpenAt(r, w, s)
    {
      assert OpenAt(h, w, s);
    }
    forall w | w in r.objs && r.objs[w].home.Slot?
      ensures r.objs[w].home.thread in r.objs && w in r.objs[r.objs[w].home.thread].openupval
    {
      assert w in h.objs[h.objs[w].home.thread].openupval;
      assert h.objs[h.objs[w].home.thread].openupval != [];
    }
  }

  lemma FreeStrWf(h: Heap, r: Heap, k: nat, j: nat)
    requires Wf(h) && k < |h.strt| && j < |h.strt[k]| && r == FreeStrH(h, k, j)
    ensures Wf(r) && SameVals(h, r) && r.objs.Keys == h.objs.Keys - {h.strt[k][j]}
  {
    FreeStrLists(h, r, k, j);
    FreeStrBuckets(h, r, k, j);
    FreeStrOpen(h, r, k, j);
    FreedSorted(h, r, h.strt[k][j]);
  }

  lemma FreedSorted(h: Heap, r: Heap, i: Id)
    requires OpenOk(h) && OpenSorted(h) && OpenOk(r) && r.objs == h.objs - {i}
    ensures OpenSorted(r)
  {
    hide NoDup, Descends;
    SortedKept(h, r);
  }
}
