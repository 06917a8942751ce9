/** What the operations of the mutator do to what a program sees: the objects, their kinds,
    the values they show, and the roots. */
module GcEffects {
  import opened Common
  import opened GcState
  import opened GcMutator

  ghost predicate SameRoot(g: Heap, r: Heap) {
    r.mainthread == g.mainthread && r.running == g.running && r.registry == g.registry && r.mt == g.mt
  }

  /** The heaps have the same objects, lists and roots; objects differ in their slots only. */
  ghost predicate SameFrame(h: Heap, r: Heap) {
    && r == h.(objs := r.objs) && r.objs.Keys == h.objs.Keys
    && forall i :: i in h.objs ==> r.objs[i] == h.objs[i].(slots := r.objs[i].slots)
  }

  /** The second sequence has `v` at index `k`, and elsewhere what the first one has; it is
      longer only when `k` is behind the end of the first. */
  ghost predicate OneChanged(vs: seq<Option<Id>>, ws: seq<Option<Id>>, k: nat, v: Option<Id>) {
    && k <= |vs| && |ws| == (if k < |vs| then |vs| else |vs| + 1) && ws[k] == v
    && forall j :: 0 <= j < |vs| && j != k ==> ws[j] == vs[j]
  }

  ghost predicate OthersShow(h: Heap, r: Heap, except: set<Id>) {
    forall i :: i in h.objs && i !in except ==> i in r.objs && Vals(r, i) == Vals(h, i)
  }

  /** `v` was stored at index `k` of object `o`, and that is all. */
  ghost predicate Stored(h: Heap, r: Heap, o: Id, k: nat, v: Option<Id>) {
    SameFrame(h, r) && o in h.objs && OneChanged(Vals(h, o), Vals(r, o), k, v) && OthersShow(h, r, {o})
  }

  /** `v` was stored through the open upvalue `u`: it shows `v`, so does its slot of the
      stack, and that is all. */
  ghost predicate StoredThrough(h: Heap, r: Heap, u: Id, v: Option<Id>) {
    && SameFrame(h, r) && u in h.objs && h.objs[u].home.Slot?
    && var Slot(t, l) := h.objs[u].home;
    && t in h.objs && l < |Vals(h, t)| && OneChanged(Vals(h, t), Vals(r, t), l, v)
    && Vals(r, u) == [v] && OthersShow(h, r, {u, t})
  }

  /** The stack of thread `t` is `s`; its open upvalues show their slots of it. */
  ghost predicate StackIs(h: Heap, r: Heap, t: Id, s: seq<Option<Id>>) {
    && SameFrame(h, r) && t in h.objs && Vals(r, t) == s
    && forall i :: i in h.objs && i != t ==>
      var o := h.objs[i];
      Vals(r, i) == if o.home.Slot? && o.home.thread == t && o.home.level < |s| then [s[o.home.level]] else Vals(h, i)
  }

  /** `v` was pushed on the stack of the running thread, and that is all. */
  ghost predicate OnTop(h: Heap, r: Heap, v: Option<Id>) {
    && SameFrame(h, r) && h.running in h.objs && Vals(r, h.running) == Vals(h, h.running) + [v]
    && OthersShow(h, r, {h.running})
  }

  /** A new object with `n` values, none of them collectable, is on the top of the stack. */
  ghost predicate Created(h: Heap, r: Heap, i: Id, kind: Kind, n: nat) {
    && SameRoot(h, r) && i !in h.objs && r.objs.Keys == h.objs.Keys + {i}
    && r.objs[i].kind == kind && !r.objs[i].fixed && r.objs[i].home.Own? && |Vals(r, i)| == n && (forall k :: 0 <= k < n ==> Vals(r, i)[k] == None)
    && h.running in h.objs && Vals(r, h.running) == Vals(h, h.running) + [Some(i)] && OthersShow(h, r, {h.running})
    && forall k :: k in h.objs ==> r.objs[k].kind == h.objs[k].kind && r.objs[k].fixed == h.objs[k].fixed
  }

  // ----- the changes of the heap have these effects -----

  lemma OpenThread(h: Heap, u: Id)
    requires Shapes(h) && OpenOk(h) && u in h.objs && h.objs[u].home.Slot?
    ensures OpenAt(h, u, h.objs[u].home.thread)
    ensures h.objs[h.objs[u].home.thread].kind.KThread? && h.objs[h.objs[u].home.thread].home.Own?
  {
    var t := h.objs[u].home.thread;
    assert u in h.objs[t].openupval;
    assert OpenAt(h, u, t) && Shape(h.objs[t]);
  }

  lemma StoredAt(h: Heap, r: Heap, o: Id, k: nat, v: Option<Id>)
    requires Shapes(h) && OpenOk(h) && o in h.objs && !h.objs[o].kind.KThread? && h.objs[o].home.Own? && k <= |h.objs[o].slots|
    requires r == SetSlotsH(h, o, if k < |h.objs[o].slots| then h.objs[o].slots[k := v] else h.objs[o].slots + [v])
    ensures Stored(h, r, o, k, v)
  {
    forall i | i in h.objs && i != o
      ensures Vals(r, i) == Vals(h, i)
    {
      if h.objs[i].home.Slot? {
        OpenThread(h, i);
      }
    }
  }

  lemma StackIsSet(h: Heap, r: Heap, t: Id, s: seq<Option<Id>>)
    requires Shapes(h) && OpenOk(h) && t in h.objs && h.objs[t].kind.KThread? && h.objs[t].home.Own? && r == SetSlotsH(h, t, s)
    requires forall u :: u in h.objs[t].openupval && u in h.objs && h.objs[u].home.Slot? ==> h.objs[u].home.level < |s|
    ensures StackIs(h, r, t, s)
  {
    forall i | i in h.objs && i != t
      ensures var o := h.objs[i];
        Vals(r, i) == if o.home.Slot? && o.home.thread == t && o.home.level < |s| then [s[o.home.level]] else Vals(h, i)
    {
      if h.objs[i].home.Slot? {
        OpenThread(h, i);
      }
    }
  }

  lemma IsOnTop(h: Heap, r: Heap, v: Option<Id>)
    requires Shapes(h) && OpenOk(h) && h.running in h.objs && h.objs[h.running].kind.KThread? && h.objs[h.running].home.Own?
    requires r == SetSlotsH(h, h.running, h.objs[h.running].slots + [v])
    ensures OnTop(h, r, v)
  {
    forall i | i in h.objs && i != h.running
      ensures Vals(r, i) == Vals(h, i)
    {
      if h.objs[i].home.Slot? {
        OpenThread(h, i);
      }
    }
  }

  /** No two open upvalues share a slot. */
  lemma OneUpvalPerSlot(h: Heap, u: Id, w: Id)
    requires OpenOk(h) && OpenSorted(h) && u in h.objs && w in h.objs && h.objs[u].home.Slot? && h.objs[u].home == h.objs[w].home
    ensures u == w
  {
    var t := h.objs[u].home.thread;
    var us := h.objs[t].openupval;
    assert u in us && w in us && Descends(h, us);
    var a :| 0 <= a < |us| && us[a] == u;
    var b :| 0 <= b < |us| && us[b] == w;
    assert a == b;
  }

  lemma IsStoredThrough(h: Heap, r: Heap, u: Id, v: Option<Id>)
    requires Shapes(h) && OpenOk(h) && OpenSorted(h) && u in h.objs && h.objs[u].home.Slot? && OpenAt(h, u, h.objs[u].home.thread)
    requires r == SetSlotsH(h, h.objs[u].home.thread, h.objs[h.objs[u].home.thread].slots[h.objs[u].home.level := v])
    ensures StoredThrough(h, r, u, v)
  {
    hide OpenSorted;
    OpenThread(h, u);
    var Slot(t, l) := h.objs[u].home;
    forall i | i in h.objs && i != u && i != t
      ensures Vals(r, i) == Vals(h, i)
    {
      if h.objs[i].home.Slot? {
        OpenThread(h, i);
        if h.objs[i].home == h.objs[u].home {
          OneUpvalPerSlot(h, u, i);
        }
      }
    }
  }

  /** A new object and then its reference on the stack. */
  lemma IsCreated(h: Heap, h1: Heap, r: Heap, i: Id, o: Obj)
    requires Shapes(h1) && OpenOk(h1) && i !in h.objs && i != h.running && o.home.Own? && !o.fixed && (forall k :: 0 <= k < |o.slots| ==> o.slots[k] == None)
    requires h1.objs == h.objs[i := o] && SameRoot(h, h1) && OthersShow(h, h1, {})
    requires h.running in h.objs && OnTop(h1, r, Some(i))
    ensures Created(h, r, i, o.kind, |o.slots|)
  {
    assert Vals(h1, i) == o.slots;
    forall k | k in h.objs
      ensures r.objs[k].kind == h.objs[k].kind && r.objs[k].fixed == h.objs[k].fixed && (k != h.running ==> Vals(r, k) == Vals(h, k))
    {
      assert h1.objs[k] == h.objs[k] && Vals(h1, k) == Vals(h, k);
    }
  }
}
