/** Ephemeron tables: a value counts only while its key is marked some other way. */
module Ephemerons {
  import opened Common

  type Id = nat

  /** A key that is not collectable, a string (which is marked when it is met, and never
      cleared), or another object. */
  datatype Key = Plain | Str(id: Id) | Obj(id: Id)

  /** An entry; `None` is a value that is not collectable. */
  datatype Entry = Entry(key: Key, value: Option<Id>)

  /** A string, an object with strong references, or a table with weak keys: its array part
      is strong. */
  datatype Object = Text | Strong(refs: seq<Id>) | Ephemeron(slots: seq<Id>, entries: seq<Entry>)

  type Heap = map<Id, Object>

  predicate EntryOk(h: Heap, e: Entry) {
    && (e.value.Some? ==> e.value.value in h)
    && (e.key.Str? ==> e.key.id in h && h[e.key.id].Text?)
    && (e.key.Obj? ==> e.key.id in h && !h[e.key.id].Text?)
  }

  ghost predicate WfHeap(h: Heap) {
    forall x :: x in h ==>
      match h[x]
      case Text => true
      case Strong(refs) => forall i :: 0 <= i < |refs| ==> refs[i] in h
      case Ephemeron(slots, entries) =>
        (forall i :: 0 <= i < |slots| ==> slots[i] in h) && (forall i :: 0 <= i < |entries| ==> EntryOk(h, entries[i]))
  }

  /** `iscleared`: the key is an object that is not marked. */
  predicate Cleared(m: set<Id>, k: Key) { k.Obj? && k.id !in m }

  predicate ValueIn(m: set<Id>, e: Entry) { e.value.Some? ==> e.value.value in m }

  predicate KeyIn(m: set<Id>, e: Entry) { e.key.Str? ==> e.key.id in m }

  // ----- what should be marked -----

  /** The set contains what its element `x` keeps alive. */
  ghost predicate ClosedAt(h: Heap, m: set<Id>, x: Id)
    requires x in h
  {
    match h[x]
    case Text => true
    case Strong(refs) => forall i :: 0 <= i < |refs| ==> refs[i] in m
    case Ephemeron(slots, entries) =>
      && (forall i :: 0 <= i < |slots| ==> slots[i] in m)
      && (forall i :: 0 <= i < |entries| ==> EntryClosed(m, entries[i]))
  }

  predicate EntryClosed(m: set<Id>, e: Entry) { KeyIn(m, e) && (!Cleared(m, e.key) ==> ValueIn(m, e)) }

  ghost predicate Closed(h: Heap, m: set<Id>) { m <= h.Keys && forall x :: x in m ==> ClosedAt(h, m, x) }

  /** The objects in every closed set that contains `start`. */
  ghost function Least(h: Heap, start: set<Id>): set<Id> {
    set x | x in h && InAll(h, start, x)
  }

  ghost predicate InAll(h: Heap, start: set<Id>, x: Id) {
    forall c :: Closed(h, c) && start <= c ==> x in c
  }

  /** The closed sets that contain `start` have a least one. */
  lemma LeastClosed(h: Heap, start: set<Id>)
    requires WfHeap(h) && start <= h.Keys
    ensures Closed(h, Least(h, start)) && start <= Least(h, start)
    ensures forall c :: Closed(h, c) && start <= c ==> Least(h, start) <= c
  {
    var l := Least(h, start);
    forall x | x in l
      ensures ClosedAt(h, l, x)
    {
      match h[x]
      case Text =>
      case Strong(refs) =>
        forall i | 0 <= i < |refs|
          ensures refs[i] in l
        {
          forall c | Closed(h, c) && start <= c
            ensures refs[i] in c
          {
            assert ClosedAt(h, c, x);
          }
          assert InAll(h, start, refs[i]);
        }
      case Ephemeron(slots, entries) =>
        forall i | 0 <= i < |slots|
          ensures slots[i] in l
        {
          forall c | Closed(h, c) && start <= c
            ensures slots[i] in c
          {
            assert ClosedAt(h, c, x);
          }
          assert InAll(h, start, slots[i]);
        }
        forall i | 0 <= i < |entries|
          ensures EntryClosed(l, entries[i])
        {
          LeastEntry(h, start, x, entries, i);
        }
    }
    forall x | x in start
      ensures x in l
    {
      assert InAll(h, start, x);
    }
  }

  lemma LeastEntry(h: Heap, start: set<Id>, x: Id, entries: seq<Entry>, i: nat)
    requires WfHeap(h) && x in Least(h, start) && h[x].Ephemeron? && h[x].entries == entries && i < |entries|
    ensures EntryClosed(Least(h, start), entries[i])
  {
    var l, e := Least(h, start), entries[i];
    assert EntryOk(h, e);
    forall c | Closed(h, c) && start <= c
      ensures EntryClosed(c, e) && l <= c
    {
      assert ClosedAt(h, c, x);
    }
    if e.key.Str? {
      assert InAll(h, start, e.key.id);
    }
    if !Cleared(l, e.key) && e.value.Some? {
      assert InAll(h, start, e.value.value);
    }
  }

  // ----- where the collector is -----

  /** `x` has been traversed and needs no further visit: all it refers to is marked. */
  ghost predicate Finished(h: Heap, m: set<Id>, x: Id)
    requires x in h
  {
    match h[x]
    case Text => true
    case Strong(refs) => forall i :: 0 <= i < |refs| ==> refs[i] in m
    case Ephemeron(slots, entries) =>
      && (forall i :: 0 <= i < |slots| ==> slots[i] in m)
      && (forall i :: 0 <= i < |entries| ==> KeyIn(m, entries[i]) && ValueIn(m, entries[i]))
  }

  /** A table on the ephemeron list has been traversed, but may have entries whose keys and
      values are not marked. */
  ghost predicate Visited(h: Heap, m: set<Id>, x: Id)
    requires x in h
  {
    && h[x].Ephemeron? && (forall i :: 0 <= i < |h[x].slots| ==> h[x].slots[i] in m)
    && (forall i :: 0 <= i < |h[x].entries| ==> KeyIn(m, h[x].entries[i]))
  }

  /** Nothing is forgotten: what is marked is finished, on the gray list, or on a list of
      ephemeron tables; `todo` are those still to be visited in this round. */
  ghost predicate Inv(h: Heap, m: set<Id>, gray: seq<Id>, eph: seq<Id>, todo: seq<Id>) {
    && m <= h.Keys && (forall x :: x in gray ==> x in m)
    && (forall x :: x in eph || x in todo ==> x in m && Visited(h, m, x))
    && (forall x :: x in m ==> x in gray || x in eph || x in todo || Finished(h, m, x))
  }

  lemma VisitedMono(h: Heap, m: set<Id>, n: set<Id>, x: Id)
    requires m <= n && x in h
    ensures Visited(h, m, x) ==> Visited(h, n, x)
    ensures Finished(h, m, x) ==> Finished(h, n, x)
  {
    if Visited(h, m, x) {
      forall i | 0 <= i < |h[x].entries|
        ensures KeyIn(n, h[x].entries[i])
      {
        assert KeyIn(m, h[x].entries[i]);
      }
    }
    if Finished(h, m, x) && h[x].Ephemeron? {
      forall i | 0 <= i < |h[x].entries|
        ensures KeyIn(n, h[x].entries[i]) && ValueIn(n, h[x].entries[i])
      {
        assert KeyIn(m, h[x].entries[i]) && ValueIn(m, h[x].entries[i]);
      }
    }
  }

  /** At the end, with nothing gray and every table on the list closed, the marks are closed. */
  lemma InvClosed(h: Heap, m: set<Id>, eph: seq<Id>)
    requires WfHeap(h) && Inv(h, m, [], eph, []) && forall x :: x in eph ==> x in h && ClosedAt(h, m, x)
    ensures Closed(h, m)
  {
    forall x | x in m
      ensures ClosedAt(h, m, x)
    {
      if x !in eph {
        assert Finished(h, m, x);
        if h[x].Ephemeron? {
          forall i | 0 <= i < |h[x].entries|
            ensures EntryClosed(m, h[x].entries[i])
          {
            assert KeyIn(m, h[x].entries[i]) && ValueIn(m, h[x].entries[i]);
          }
        }
      }
    }
  }

  /** Only strings were marked. */
  ghost predicate OnlyTexts(h: Heap, m: set<Id>, n: set<Id>) {
    m <= n <= h.Keys && forall x :: x in n && x !in m ==> h[x].Text?
  }

  /** Marking strings clears no key, so closed tables stay closed. */
  lemma TextsKeepClosed(h: Heap, m: set<Id>, n: set<Id>, x: Id)
    requires WfHeap(h) && OnlyTexts(h, m, n) && x in h && ClosedAt(h, m, x)
    ensures ClosedAt(h, n, x)
  {
    if h[x].Ephemeron? {
      forall i | 0 <= i < |h[x].entries|
        ensures EntryClosed(n, h[x].entries[i])
      {
        assert EntryOk(h, h[x].entries[i]) && EntryClosed(m, h[x].entries[i]);
      }
    }
  }

  // ----- the collector -----

  class Collector {
    const heap: Heap
    var marked: set<Id>
    var gray: seq<Id>
    var ephemeron: seq<Id>
    var allweak: seq<Id>
    var grayagain: seq<Id>

    /** `lim` is a closed set beyond which nothing may be marked. */
    ghost predicate Within(lim: set<Id>)
      reads this
    {
      WfHeap(heap) && Closed(heap, lim) && marked <= lim && forall x :: x in gray ==> x in marked
    }

    /** From `m0` and `g0` on, marks and gray list have only grown, and what is new is gray or
        a string. */
    ghost predicate Grown(m0: set<Id>, g0: seq<Id>)
      reads this
    {
      && m0 <= marked <= heap.Keys && (forall x :: x in g0 ==> x in gray)
      && (forall x :: x in gray ==> x in g0 || (x in marked && x !in m0))
      && (forall x :: x in marked && x !in m0 ==> x in gray || heap[x].Text?)
    }

    /** `markobject`. */
    method MarkObject(o: Id, ghost lim: set<Id>)
      requires Within(lim) && o in lim
      modifies `marked, `gray
      ensures Within(lim) && Grown(old(marked), old(gray)) && marked == old(marked) + {o}
      ensures heap[o].Text? ==> gray == old(gray)
    {
      if o !in marked {
        marked := marked + {o};
        if !heap[o].Text? {
          gray := [o] + gray;
        }
      }
    }

    /** The array part of a table, or the references of an object. */
    method MarkAll(refs: seq<Id>, ghost lim: set<Id>) returns (m: bool)
      requires Within(lim) && forall i :: 0 <= i < |refs| ==> refs[i] in lim
      modifies `marked, `gray
      ensures Within(lim) && Grown(old(marked), old(gray)) && forall i :: 0 <= i < |refs| ==> refs[i] in marked
      ensures m <==> marked != old(marked)
      ensures !m ==> gray == old(gray)
    {
      m := false;
      for i := 0 to |refs|
        invariant Within(lim) && Grown(old(marked), old(gray)) && forall j :: 0 <= j < i ==> refs[j] in marked
        invariant m <==> marked != old(marked)
        invariant !m ==> gray == old(gray)
      {
        if refs[i] !in marked {
          m := true;
          MarkObject(refs[i], lim);
        }
      }
    }

    /** The hash part of an ephemeron table. */
    method MarkEntries(entries: seq<Entry>, ghost lim: set<Id>) returns (m: bool, hasclears: bool, prop: bool)
      requires Within(lim) && forall i :: 0 <= i < |entries| ==> EntryOk(heap, entries[i]) && EntryClosed(lim, entries[i])
      modifies `marked, `gray
      ensures Within(lim) && Grown(old(marked), old(gray)) && forall i :: 0 <= i < |entries| ==> KeyIn(marked, entries[i])
      ensures !prop ==> forall i :: 0 <= i < |entries| ==> ValueIn(marked, entries[i])
      ensures m ==> marked != old(marked)
      ensures !m ==> gray == old(gray) && OnlyTexts(heap, old(marked), marked)
      ensures !m ==> forall i :: 0 <= i < |entries| ==> EntryClosed(marked, entries[i])
    {
      m, hasclears, prop := false, false, false;
      for i := 0 to |entries|
        invariant Within(lim) && Grown(old(marked), old(gray))
        invariant forall j :: 0 <= j < i ==> KeyIn(marked, entries[j]) && (!prop ==> ValueIn(marked, entries[j]))
        invariant m ==> marked != old(marked)
        invariant !m ==> gray == old(gray) && OnlyTexts(heap, old(marked), marked)
        invariant !m ==> forall j :: 0 <= j < i ==> EntryClosed(marked, entries[j])
      {
        var e := entries[i];
        assert EntryOk(heap, e) && EntryClosed(lim, e);
        ghost var m0 := marked;
        if e.key.Str? {
          MarkObject(e.key.id, lim);
        }
        if Cleared(marked, e.key) {
          hasclears := true;
          if e.value.Some? && e.value.value !in marked {
            prop := true;
          }
        } else if e.value.Some? && e.value.value !in marked {
          m := true;
          MarkObject(e.value.value, lim);
        }
        assert KeyIn(marked, e) && (!prop ==> ValueIn(marked, e)) && (!m ==> EntryClosed(marked, e));
        forall j | 0 <= j < i
          ensures KeyIn(marked, entries[j]) && (!prop ==> ValueIn(marked, entries[j])) && (!m ==> EntryClosed(marked, entries[j]))
        {
          assert KeyIn(m0, entries[j]) && EntryOk(heap, entries[j]);
        }
      }
    }

    /** `traverseephemeron`. */
    method TraverseEphemeron(t: Id, ghost lim: set<Id>) returns (m: bool)
      requires Within(lim) && t in marked && heap[t].Ephemeron?
      modifies `marked, `gray, `ephemeron, `allweak, `grayagain
      ensures Within(lim) && Grown(old(marked), old(gray)) && Visited(heap, marked, t)
      ensures ephemeron == [t] + old(ephemeron) || (ephemeron == old(ephemeron) && Finished(heap, marked, t))
      ensures m ==> marked != old(marked)
      ensures !m ==> gray == old(gray) && OnlyTexts(heap, old(marked), marked) && ClosedAt(heap, marked, t)
    {
      TableLimits(heap, lim, t);
      ghost var m0, g0 := marked, gray;
      m := MarkAll(heap[t].slots, lim);
      ghost var m1, g1 := marked, gray;
      var m', hasclears, prop := MarkEntries(heap[t].entries, lim);
      m := m || m';
      if prop {
        ephemeron := [t] + ephemeron;
      } else if hasclears {
        allweak := [t] + allweak;
      } else {
        grayagain := [t] + grayagain;
      }
    }

    /** `propagatemark`. */
    method PropagateMark(ghost todo: seq<Id>, ghost lim: set<Id>)
      requires Within(lim) && gray != [] && Inv(heap, marked, gray, ephemeron, todo)
      modifies `marked, `gray, `ephemeron, `allweak, `grayagain
      ensures Within(lim) && Inv(heap, marked, gray, ephemeron, todo) && old(marked) <= marked
      ensures marked == old(marked) ==> |gray| < |old(gray)|
    {
      hide Finished, Visited, Closed;
      ghost var m0, g0, e0 := marked, gray, ephemeron;
      var o := gray[0];
      gray := gray[1..];
      ghost var g1 := gray;
      LimitIn(heap, lim, o);
      if heap[o].Ephemeron? {
        var m := TraverseEphemeron(o, lim);
      } else if heap[o].Strong? {
        StrongLimits(heap, lim, o);
        var m := MarkAll(heap[o].refs, lim);
        StrongFinished(heap, marked, o);
      } else {
        StrongFinished(heap, marked, o);
      }
      Popped(heap, m0, g0, e0, todo, o, g1, marked, gray, ephemeron);
    }

    /** `propagateall`. */
    method PropagateAll(ghost todo: seq<Id>, ghost lim: set<Id>)
      requires Within(lim) && Inv(heap, marked, gray, ephemeron, todo)
      modifies `marked, `gray, `ephemeron, `allweak, `grayagain
      ensures Within(lim) && Inv(heap, marked, gray, ephemeron, todo) && old(marked) <= marked && gray == []
    {
      hide Inv, Closed;
      while gray != []
        invariant Within(lim) && Inv(heap, marked, gray, ephemeron, todo) && old(marked) <= marked
        decreases |heap.Keys - marked|, |gray|
      {
        ghost var m0 := marked;
        PropagateMark(todo, lim);
        MarkedIn(heap, marked, gray, ephemeron, todo);
        FewerLeft(heap.Keys, m0, marked);
      }
    }

    /** One round of `convergeephemerons`: the tables on the list are visited again. */
    method Round(ghost lim: set<Id>) returns (changed: bool)
      requires Within(lim) && gray == [] && Inv(heap, marked, gray, ephemeron, [])
      modifies `marked, `gray, `ephemeron, `allweak, `grayagain
      ensures Within(lim) && gray == [] && Inv(heap, marked, gray, ephemeron, []) && old(marked) <= marked
      ensures changed ==> marked != old(marked)
      ensures !changed ==> forall x :: x in ephemeron ==> x in heap && ClosedAt(heap, marked, x)
    {
      hide Finished, Visited, Closed;
      var next := ephemeron;
      ephemeron := [];
      changed := false;
      ListsMoved(heap, marked, next);
      for i := 0 to |next|
        invariant Within(lim) && gray == [] && Inv(heap, marked, gray, ephemeron, next[i..]) && old(marked) <= marked
        invariant changed ==> marked != old(marked)
        invariant !changed ==> forall x :: x in ephemeron ==> x in heap && ClosedAt(heap, marked, x)
      {
        var w := next[i];
        ghost var m0, e0 := marked, ephemeron;
        assert next[i..] == [w] + next[i + 1..];
        TodoFirst(heap, marked, ephemeron, w, next[i + 1..]);
        var m := TraverseEphemeron(w, lim);
        Revisited(heap, m0, e0, w, next[i + 1..], marked, gray, ephemeron);
        if m {
          PropagateAll(next[i + 1..], lim);
          changed := true;
        } else if !changed {
          forall x | x in ephemeron
            ensures x in heap && ClosedAt(heap, marked, x)
          {
            if x in e0 {
              TextsKeepClosed(heap, m0, marked, x);
            }
          }
        }
      }
      assert next[|next|..] == [];
    }

    /** `convergeephemerons`: it ends, and then exactly the objects are marked that the marks
        it started with keep alive. */
    method Converge()
      requires WfHeap(heap) && gray == [] && Inv(heap, marked, gray, ephemeron, [])
      modifies `marked, `gray, `ephemeron, `allweak, `grayagain
      ensures marked == Least(heap, old(marked)) && Closed(heap, marked) && gray == []
    {
      hide Inv, Least, ClosedAt;
      ghost var lim := Least(heap, marked);
      MarkedIn(heap, marked, gray, ephemeron, []);
      LeastClosed(heap, marked);
      var changed := true;
      while changed
        invariant Within(lim) && gray == [] && Inv(heap, marked, gray, ephemeron, []) && old(marked) <= marked
        invariant !changed ==> forall x :: x in ephemeron ==> x in heap && ClosedAt(heap, marked, x)
        decreases |heap.Keys - marked|, changed
      {
        ghost var m0 := marked;
        changed := Round(lim);
        MarkedIn(heap, marked, gray, ephemeron, []);
        FewerLeft(heap.Keys, m0, marked);
      }
      InvClosed(heap, marked, ephemeron);
    }
  }

  lemma FewerLeft(all: set<Id>, m: set<Id>, n: set<Id>)
    requires m <= n <= all
    ensures m != n ==> |all - n| < |all - m|
    ensures |all - n| <= |all - m|
  {
    assert all - m == (all - n) + (n - m);
    if m != n {
      assert n - m != {};
    }
  }

  lemma MarkedIn(h: Heap, m: set<Id>, gray: seq<Id>, eph: seq<Id>, todo: seq<Id>)
    requires Inv(h, m, gray, eph, todo)
    ensures m <= h.Keys
  {
  }

  lemma LimitIn(h: Heap, lim: set<Id>, x: Id)
    requires Closed(h, lim)
    ensures lim <= h.Keys
  {
  }

  lemma TableLimits(h: Heap, lim: set<Id>, t: Id)
    requires WfHeap(h) && Closed(h, lim) && t in lim && h[t].Ephemeron?
    ensures (forall i :: 0 <= i < |h[t].slots| ==> h[t].slots[i] in lim)
    ensures forall i :: 0 <= i < |h[t].entries| ==> EntryOk(h, h[t].entries[i]) && EntryClosed(lim, h[t].entries[i])
  {
    assert ClosedAt(h, lim, t);
  }

  lemma StrongLimits(h: Heap, lim: set<Id>, t: Id)
    requires Closed(h, lim) && t in lim && h[t].Strong?
    ensures forall i :: 0 <= i < |h[t].refs| ==> h[t].refs[i] in lim
  {
    assert ClosedAt(h, lim, t);
  }

  lemma StrongFinished(h: Heap, m: set<Id>, o: Id)
    requires o in h && (h[o].Text? || (h[o].Strong? && forall i :: 0 <= i < |h[o].refs| ==> h[o].refs[i] in m))
    ensures Finished(h, m, o)
  {
  }

  /** The object `o` was taken from the gray list and traversed. */
  lemma Popped(h: Heap, m0: set<Id>, g0: seq<Id>, e0: seq<Id>, todo: seq<Id>, o: Id, g1: seq<Id>, m: set<Id>, g: seq<Id>, e: seq<Id>)
    requires Inv(h, m0, g0, e0, todo) && g0 != [] && o == g0[0] && g1 == g0[1..] && m0 <= m <= h.Keys
    requires (forall x :: x in g1 ==> x in g) && (forall x :: x in g ==> x in g1 || x in m) && (forall x :: x in m && x !in m0 ==> x in g || h[x].Text?)
    requires (e == [o] + e0 && Visited(h, m, o)) || (e == e0 && Finished(h, m, o))
    ensures Inv(h, m, g, e, todo)
  {
    forall x | x in m
      ensures x in g || x in e || x in todo || Finished(h, m, x)
    {
      if x in m0 {
        VisitedMono(h, m0, m, x);
        assert x in g0 <==> x == o || x in g1;
      }
    }
    forall x | x in e || x in todo
      ensures x in m && Visited(h, m, x)
    {
      if x in e0 || x in todo {
        VisitedMono(h, m0, m, x);
      }
    }
  }

  /** The ephemeron list becomes the list of tables to visit. */
  lemma ListsMoved(h: Heap, m: set<Id>, next: seq<Id>)
    requires Inv(h, m, [], next, [])
    ensures Inv(h, m, [], [], next[0..]) && Inv(h, m, [], [], next)
  {
    assert next[0..] == next;
  }

  lemma TodoFirst(h: Heap, m: set<Id>, eph: seq<Id>, w: Id, rest: seq<Id>)
    requires Inv(h, m, [], eph, [w] + rest)
    ensures w in m && w in h && h[w].Ephemeron?
  {
    assert w in [w] + rest;
    assert Visited(h, m, w);
  }

  /** The table `w` was visited again. */
  lemma Revisited(h: Heap, m0: set<Id>, e0: seq<Id>, w: Id, rest: seq<Id>, m: set<Id>, g: seq<Id>, e: seq<Id>)
    requires Inv(h, m0, [], e0, [w] + rest) && m0 <= m <= h.Keys
    requires (forall x :: x in g ==> x in m) && (forall x :: x in m && x !in m0 ==> x in g || h[x].Text?)
    requires w in h && ((e == [w] + e0 && Visited(h, m, w)) || (e == e0 && Finished(h, m, w)))
    ensures Inv(h, m, g, e, rest)
  {
    forall x | x in m
      ensures x in g || x in e || x in rest || Finished(h, m, x)
    {
      if x in m0 {
        VisitedMono(h, m0, m, x);
        assert x in [w] + rest <==> x == w || x in rest;
      }
    }
    forall x | x in e || x in rest
      ensures x in m && Visited(h, m, x)
    {
      if x in e0 || x in rest {
        assert x in rest ==> x in [w] + rest;
        VisitedMono(h, m0, m, x);
      } else {
        assert w in [w] + rest;
      }
    }
  }
}
