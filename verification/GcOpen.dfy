/** The order of the open upvalues of a thread. */
module GcOpen {
  import opened Common
  import opened GcState

  lemma DescendsSame(h: Heap, r: Heap, us: seq<Id>)
    requires Descends(h, us) && forall w :: w in us ==> w in h.objs && w in r.objs && r.objs[w].home == h.objs[w].home
    ensures Descends(r, us)
  {
    forall a, b | 0 <= a < b < |us| && us[b] in r.objs && r.objs[us[b]].home.Slot?
      ensures Above(r, us[a], r.objs[us[b]].home.level)
    {
      assert us[a] in us && us[b] in us;
    }
  }

  lemma DescendsLess(h: Heap, us: seq<Id>, k: nat)
    requires Descends(h, us) && k < |us|
    ensures Descends(h, us[..k] + us[k + 1..])
  {
    var rest := us[..k] + us[k + 1..];
    forall a, b | 0 <= a < b < |rest| && rest[b] in h.objs && h.objs[rest[b]].home.Slot?
      ensures Above(h, rest[a], h.objs[rest[b]].home.level)
    {
      assert rest[a] == us[if a < k then a else a + 1] && rest[b] == us[if b < k then b else b + 1];
    }
  }

  lemma DescendsMore(h: Heap, us: seq<Id>, k: nat, u: Id)
    requires Descends(h, us) && k <= |us| && u in h.objs && h.objs[u].home.Slot?
    requires forall j :: 0 <= j < k ==> Above(h, us[j], h.objs[u].home.level)
    requires forall j :: k <= j < |us| ==> us[j] in h.objs && h.objs[us[j]].home.Slot? && h.objs[us[j]].home.level < h.objs[u].home.level
    ensures Descends(h, us[..k] + ([u] + us[k..]))
  {
    var vs := us[..k] + ([u] + us[k..]);
    forall a, b | 0 <= a < b < |vs| && vs[b] in h.objs && h.objs[vs[b]].home.Slot?
      ensures Above(h, vs[a], h.objs[vs[b]].home.level)
    {
      assert a < k ==> vs[a] == us[a];
      assert a > k ==> vs[a] == us[a - 1];
      assert b < k ==> vs[b] == us[b];
      assert b > k ==> vs[b] == us[b - 1];
    }
  }

  /** Lists that are kept, or lose one element, stay sorted while no upvalue on them changes
      its slot. */
  lemma SortedKept(h: Heap, r: Heap)
    requires OpenOk(h) && OpenSorted(h) && OpenOk(r)
    requires forall w :: w in r.objs && r.objs[w].home.Slot? ==> w in h.objs && r.objs[w].home == h.objs[w].home
    requires forall t :: t in r.objs ==> Thinned(h, t, r.objs[t].openupval)
    ensures OpenSorted(r)
  {
    hide NoDup;
    forall t | t in r.objs
      ensures Descends(r, r.objs[t].openupval)
    {
      var vs := r.objs[t].openupval;
      if vs != [] {
        var us := h.objs[t].openupval;
        if us != vs {
          var k :| 0 <= k < |us| && vs == us[..k] + us[k + 1..];
          DescendsLess(h, us, k);
        }
        forall w | w in vs
          ensures w in h.objs && w in r.objs && r.objs[w].home == h.objs[w].home
        {
          assert OpenAt(r, w, t);
        }
        DescendsSame(h, r, vs);
      }
    }
  }

  /** `vs` is the list of `t`, perhaps without one element. */
  ghost predicate Thinned(h: Heap, t: Id, vs: seq<Id>) {
    || vs == []
    || (t in h.objs && (vs == h.objs[t].openupval || exists k :: 0 <= k < |h.objs[t].openupval| && vs == h.objs[t].openupval[..k] + h.objs[t].openupval[k + 1..]))
  }

  /** Where the search for a level stops: at the first upvalue that is not above it. */
  function Position(h: Heap, us: seq<Id>, level: nat): (k: nat)
    ensures k <= |us| && (forall j :: 0 <= j < k ==> Above(h, us[j], level)) && (k < |us| ==> !Above(h, us[k], level))
  {
    if us == [] || !Above(h, us[0], level) then 0 else 1 + Position(h, us[1..], level)
  }

  /** The open upvalue of `t` that the search for a level finds. */
  function FindOpen(h: Heap, us: seq<Id>, t: Id, level: nat): (u: Option<Id>)
    ensures u.Some? ==> u.value in us && u.value in h.objs && h.objs[u.value].home == Slot(t, level)
  {
    var k := Position(h, us, level);
    if k < |us| && us[k] in h.objs && h.objs[us[k]].home == Slot(t, level) then Some(us[k]) else None
  }

  lemma PositionIs(h: Heap, us: seq<Id>, level: nat, k: nat)
    requires k <= |us| && (forall j :: 0 <= j < k ==> Above(h, us[j], level)) && (k < |us| ==> !Above(h, us[k], level))
    ensures k == Position(h, us, level)
  {
  }

  /** The search stops early and misses nothing. */
  lemma FindOpenMisses(h: Heap, us: seq<Id>, t: Id, level: nat)
    requires Descends(h, us) && (forall w :: w in us ==> w in h.objs && h.objs[w].home.Slot? && h.objs[w].home.thread == t) && FindOpen(h, us, t, level).None?
    ensures forall j :: Position(h, us, level) <= j < |us| ==> us[j] in h.objs && h.objs[us[j]].home.level < level
    ensures forall w :: w in us ==> h.objs[w].home != Slot(t, level)
  {
    var k := Position(h, us, level);
    forall j | k <= j < |us|
      ensures us[j] in h.objs && h.objs[us[j]].home.level < level
    {
      assert us[j] in us && us[k] in us;
      if j > k {
        assert Above(h, us[k], h.objs[us[j]].home.level);
      }
    }
  }
}
