/** Marking: what `reallymarkobject`, the traversal functions and `propagatemark` do to
    the colors, as functions, and the relation `Marks` that every one of them satisfies. */
module GcMark {
  import opened Common
  import opened GcState

  function SetMark(g: G, i: Id, c: Color): G { g.(mark := g.mark[i := c]) }

  ghost function Whites(g: G): set<Id> { set i | i in g.mark && g.mark[i].White? }

  /** `reallymarkobject`: strings, userdata and closed upvalues turn black, open upvalues
      stay gray, everything else turns gray and goes to the gray list. */
  function ReallyMark(g: G, i: Id): (r: G)
    requires IsWhite(g, i) && i in g.h.objs
    ensures r == g.(mark := r.mark, gray := r.gray) && Whites(r) <= Whites(g)
    decreases Whites(g), 0
  {
    var g1 := SetMark(g, i, Gray);
    assert i in Whites(g) && i !in Whites(g1) && Whites(g1) <= Whites(g);
    var o := g.h.objs[i];
    if IsString(o.kind) then SetMark(g1, i, Black)
    else if o.kind.KUdata? then
      var g2 := MarkAll(g1, o.slots);
      SetMark(g2, i, Black)
    else if o.kind.KUpval? then
      var g2 := MarkAll(g1, Vals(g.h, i));
      if o.home.Slot? then g2 else SetMark(g2, i, Black)
    else g1.(gray := [i] + g1.gray)
  }

  /** `markvalue` and `markobject`. */
  function Mark(g: G, v: Option<Id>): (r: G)
    ensures r == g.(mark := r.mark, gray := r.gray) && Whites(r) <= Whites(g)
    decreases Whites(g), 1
  {
    if v.Some? && v.value in g.h.objs && IsWhite(g, v.value) then ReallyMark(g, v.value) else g
  }

  /** A traversal loop: mark every value in turn. */
  function MarkAll(g: G, vs: seq<Option<Id>>): (r: G)
    ensures r == g.(mark := r.mark, gray := r.gray) && Whites(r) <= Whites(g)
    decreases Whites(g), 2, |vs|
  {
    if vs == [] then g
    else
      var g1 := Mark(g, vs[0]);
      assert Whites(g1) == Whites(g) || Whites(g1) < Whites(g);
      MarkAll(g1, vs[1..])
  }

  /** No value or cache of `i` is white. */
  ghost predicate Covered(g: G, i: Id) {
    forall j :: Edge(g.h, g.cache, i, j) ==> !IsWhite(g, j)
  }

  /** A newly marked object: it waits on the gray list, or its references are marked. */
  ghost predicate Settled(g: G, i: Id) {
    i in g.h.objs && i in g.mark &&
    if Listable(g.h.objs[i].kind) then g.mark[i].Gray? && i in g.gray
    else Covered(g, i) && g.mark[i] == if g.h.objs[i].home.Slot? then Gray else Black
  }

  /** White objects may have been marked; no other color has changed. */
  ghost predicate Darkens(g: G, r: G) {
    && r == g.(mark := r.mark, gray := r.gray)
    && r.mark.Keys == g.mark.Keys
    && (forall i :: i in g.mark && !g.mark[i].White? ==> r.mark[i] == g.mark[i])
    && (forall i :: i in g.mark && r.mark[i].White? ==> r.mark[i] == g.mark[i])
  }

  /** The gray list grew at its head, by objects that were white. */
  ghost predicate Pushed(g: G, r: G) {
    && |g.gray| <= |r.gray|
    && r.gray[|r.gray| - |g.gray|..] == g.gray
    && NoDup(r.gray[..|r.gray| - |g.gray|])
    && forall i :: i in r.gray[..|r.gray| - |g.gray|] ==>
         IsWhite(g, i) && IsGray(r, i) && i in r.h.objs && Listable(r.h.objs[i].kind)
  }

  /** `r` is `g` with some white objects marked and everything marked settled. */
  ghost predicate Marks(g: G, r: G) {
    && Darkens(g, r)
    && (forall i :: IsWhite(g, i) && !IsWhite(r, i) ==> Settled(r, i))
    && Pushed(g, r)
  }

  /** What marking needs of the heap. */
  ghost predicate Ready(g: G) { Shapes(g.h) && MarksOk(g) }

  lemma PushedTrans(g: G, a: G, b: G)
    requires Marks(g, a) && Marks(a, b)
    ensures Pushed(g, b)
  {
    var n := |b.gray| - |a.gray|;
    var m := |a.gray| - |g.gray|;
    var bn, am := b.gray[..n], a.gray[..m];
    assert b.gray[n..] == a.gray;
    assert b.gray[..n + m] == bn + am;
    assert b.gray[n + m..] == g.gray;
    forall i | i in am
      ensures i !in bn && IsWhite(g, i) && IsGray(b, i) && i in b.h.objs && Listable(b.h.objs[i].kind)
    {
      assert IsGray(a, i);
    }
    forall i | i in bn
      ensures IsWhite(g, i)
    {
      assert IsWhite(a, i);
    }
    NoDupAppend(bn, am);
  }

  lemma SettledStays(a: G, b: G, i: Id)
    requires Marks(a, b) && Settled(a, i)
    ensures Settled(b, i)
  {
    if i in a.gray {
      assert i in b.gray[|b.gray| - |a.gray|..];
    }
    if Covered(a, i) {
      assert Covered(b, i);
    }
  }

  lemma MarksTrans(g: G, a: G, b: G)
    requires Marks(g, a) && Marks(a, b)
    ensures Marks(g, b)
  {
    PushedTrans(g, a, b);
    forall i | IsWhite(g, i) && !IsWhite(b, i)
      ensures Settled(b, i)
    {
      if !IsWhite(a, i) {
        SettledStays(a, b, i);
      }
    }
  }

  /** Marking keeps threads and open upvalues from being black. */
  lemma MarksReady(g: G, r: G)
    requires Ready(g) && Marks(g, r)
    ensures Ready(r)
  {
    forall i | i in r.h.objs && r.mark[i].Black?
      ensures !r.h.objs[i].kind.KThread? && r.h.objs[i].home.Own?
    {
      if IsWhite(g, i) {
        assert Settled(r, i);
      }
    }
  }

  lemma MarksString(g: G, r: G, i: Id)
    requires Ready(g) && IsWhite(g, i) && i in g.h.objs && IsString(g.h.objs[i].kind)
    requires r == SetMark(g, i, Black)
    ensures Marks(g, r)
  {
    assert Shape(g.h.objs[i]);
    assert Vals(r.h, i) == [];
    assert Settled(r, i);
  }

  lemma MarksListable(g: G, r: G, i: Id)
    requires IsWhite(g, i) && i in g.h.objs && Listable(g.h.objs[i].kind)
    requires r == SetMark(g, i, Gray).(gray := [i] + g.gray)
    ensures Marks(g, r)
  {
    assert r.gray[1..] == g.gray;
    assert r.gray[..1] == [i];
    assert Settled(r, i);
  }

  /** While the values of `i` are marked, `i` itself is gray and on no list; it gets its
      color afterwards. */
  lemma MarksWrap(g: G, g1: G, g2: G, r: G, i: Id)
    requires Ready(g) && IsWhite(g, i) && i in g.h.objs && g1 == SetMark(g, i, Gray)
    requires Marks(g1, g2)
    requires forall j :: Some(j) in Vals(g.h, i) ==> !IsWhite(g2, j)
    requires g.h.objs[i].kind.KUdata? || g.h.objs[i].kind.KUpval?
    requires r == if g.h.objs[i].home.Slot? then g2 else SetMark(g2, i, Black)
    ensures Marks(g, r)
  {
    hide Pushed, Settled, Shapes, Vals;
    WrapPushed(g, g1, g2, r, i);
    assert g2.mark[i].Gray?;
    forall k | IsWhite(g, k) && !IsWhite(r, k)
      ensures Settled(r, k)
    {
      if k == i {
        WrapFirst(g, g2, r, i);
      } else {
        WrapOther(g2, r, i, k);
      }
    }
  }

  lemma WrapFirst(g: G, g2: G, r: G, i: Id)
    requires i in g.h.objs && g2.h == g.h && i in g2.mark && g2.mark[i].Gray? && Shapes(g.h) && MarksOk(g) && g2.cache == g.cache
    requires forall j :: Some(j) in Vals(g.h, i) ==> !IsWhite(g2, j)
    requires g.h.objs[i].kind.KUdata? || g.h.objs[i].kind.KUpval?
    requires r == if g.h.objs[i].home.Slot? then g2 else SetMark(g2, i, Black)
    ensures Settled(r, i)
  {
    assert Covered(r, i);
  }

  lemma WrapOther(g2: G, r: G, i: Id, k: Id)
    requires Settled(g2, k) && k != i && (r == g2 || r == SetMark(g2, i, Black))
    ensures Settled(r, k)
  {
    assert Covered(g2, k) ==> Covered(r, k);
  }

  lemma WrapPushed(g: G, g1: G, g2: G, r: G, i: Id)
    requires IsWhite(g, i) && i in g.h.objs && g1 == SetMark(g, i, Gray) && Darkens(g1, g2) && Pushed(g1, g2)
    requires r == g2 || r == SetMark(g2, i, Black)
    ensures Pushed(g, r)
  {
    forall k | k in r.gray[..|r.gray| - |g.gray|]
      ensures IsWhite(g, k) && IsGray(r, k)
    {
      assert IsWhite(g1, k);
    }
  }

  /** Marking settles what it marks. */
  lemma {:induction false} ReallyMarkMarks(g: G, i: Id)
    requires Ready(g) && IsWhite(g, i) && i in g.h.objs
    ensures Marks(g, ReallyMark(g, i)) && !IsWhite(ReallyMark(g, i), i)
    decreases Whites(g), 0
  {
    var o, r := g.h.objs[i], ReallyMark(g, i);
    if IsString(o.kind) {
      MarksString(g, r, i);
    } else if o.kind.KUdata? || o.kind.KUpval? {
      assert Shape(o);
      var g1 := SetMark(g, i, Gray);
      assert i in Whites(g) && i !in Whites(g1) && Whites(g1) <= Whites(g);
      MarkAllMarks(g1, Vals(g.h, i));
      MarksWrap(g, g1, MarkAll(g1, Vals(g.h, i)), r, i);
    } else {
      MarksListable(g, r, i);
    }
  }

  lemma {:induction false} MarkMarks(g: G, v: Option<Id>)
    requires Ready(g)
    ensures Marks(g, Mark(g, v))
    ensures v.Some? ==> !IsWhite(Mark(g, v), v.value)
    decreases Whites(g), 1
  {
    if v.Some? && v.value in g.h.objs && IsWhite(g, v.value) {
      ReallyMarkMarks(g, v.value);
    }
  }

  lemma {:induction false} MarkAllMarks(g: G, vs: seq<Option<Id>>)
    requires Ready(g)
    ensures Marks(g, MarkAll(g, vs))
    ensures forall j :: Some(j) in vs ==> !IsWhite(MarkAll(g, vs), j)
    decreases Whites(g), 2, |vs|
  {
    if vs != [] {
      MarkMarks(g, vs[0]);
      var g1 := Mark(g, vs[0]);
      MarksReady(g, g1);
      assert Whites(g1) == Whites(g) || Whites(g1) < Whites(g);
      MarkAllMarks(g1, vs[1..]);
      var r := MarkAll(g1, vs[1..]);
      MarksTrans(g, g1, r);
      forall j | Some(j) in vs
        ensures !IsWhite(r, j)
      {
        if vs[0] == Some(j) {
          assert !IsWhite(g1, j);
        } else {
          assert Some(j) in vs[1..];
        }
      }
    }
  }
}
