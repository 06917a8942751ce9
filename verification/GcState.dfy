/** The collectable heap of Lua's global state: objects, colors, lists and roots.

    A linked list of the source (`allgc`, a string bucket, an `openupval` list, a gray
    list) is the sequence of its elements, head first.  The sweep cursor `sweepgc`, a
    pointer to a link inside `allgc`, is the number of elements behind that link: objects
    inserted at the head do not move it, and 0 is the null cursor.

    The fields of an object are spread over three maps, so that a change of color
    visibly changes nothing else: `Heap.objs` (what the mutator reads and writes),
    `G.mark` (the color bits) and `G.cache` (the weak field of prototypes). */
module GcState {
  import opened Common

  type Id = nat

  /** White comes in two kinds; `bit` tells which. */
  datatype Color = White(bit: bool) | Gray | Black

  datatype Kind = KShrStr | KLngStr | KUdata | KUpval | KLClosure | KCClosure | KTable | KThread | KProto

  /** An upvalue is closed (it owns its value) or open (its value is a stack slot). */
  datatype Home = Own | Slot(thread: Id, level: nat)

  /** `slots` are the values an object holds: the stack of a thread, the entries and the
      metatable of a table, and so on.  `None` is any value that is not collectable. */
  datatype Obj = Obj(kind: Kind, fixed: bool, slots: seq<Option<Id>>, home: Home, openupval: seq<Id>)

  datatype Heap = Heap(objs: map<Id, Obj>, mainthread: Id, running: Id,
                       registry: Option<Id>, mt: seq<Option<Id>>,
                       uvhead: seq<Id>, allgc: seq<Id>, strt: seq<seq<Id>>)

  datatype Phase = Pause | Propagate | Atomic | SweepString | SweepUdata | Sweep

  datatype G = G(h: Heap, mark: map<Id, Color>, cache: map<Id, Id>,
                 white: bool, phase: Phase, gray: seq<Id>, grayagain: seq<Id>,
                 sweepgc: nat, sweepstr: nat)

  predicate IsWhite(g: G, i: Id) { i in g.mark && g.mark[i].White? }

  predicate IsGray(g: G, i: Id) { i in g.mark && g.mark[i].Gray? }

  predicate IsBlack(g: G, i: Id) { i in g.mark && g.mark[i].Black? }

  /** Marked with the other white and not fixed: the sweeper frees it. */
  predicate Dead(g: G, i: Id) {
    i in g.h.objs && i in g.mark && g.mark[i] == White(!g.white) && !g.h.objs[i].fixed
  }

  predicate Live(g: G, i: Id) { i in g.h.objs && !Dead(g, i) }

  /** The values held by object `i`; an open upvalue shows the slot it points to. */
  function Vals(h: Heap, i: Id): seq<Option<Id>>
    requires i in h.objs
  {
    match h.objs[i].home
    case Own => h.objs[i].slots
    case Slot(t, l) =>
      if t in h.objs && l < |h.objs[t].slots| then [h.objs[t].slots[l]] else []
  }

  /** `i` refers to `j`, through a value or through the cache of a prototype. */
  ghost predicate Edge(h: Heap, c: map<Id, Id>, i: Id, j: Id) {
    i in h.objs && (Some(j) in Vals(h, i) || (i in c && c[i] == j))
  }

  ghost predicate Root(h: Heap, i: Id) {
    i == h.mainthread || i == h.running || h.registry == Some(i) || Some(i) in h.mt
  }

  /** `path` leads from a root to its last element along edges. */
  ghost predicate Path(h: Heap, c: map<Id, Id>, path: seq<Id>) {
    && path != []
    && Root(h, path[0])
    && forall k :: 0 <= k < |path| - 1 ==> Edge(h, c, path[k], path[k + 1])
  }

  ghost predicate PathTo(h: Heap, c: map<Id, Id>, path: seq<Id>, i: Id) {
    Path(h, c, path) && path[|path| - 1] == i
  }

  /** What the mutator can get at. */
  ghost predicate Reachable(g: G, i: Id) { exists path :: PathTo(g.h, g.cache, path, i) }

  /** A value the mutator may store: not collectable, or reachable. */
  ghost predicate Usable(g: G, v: Option<Id>) { v.Some? ==> Reachable(g, v.value) }

  predicate IsString(k: Kind) { k.KShrStr? || k.KLngStr? }

  /** Kinds with a `gclist` field. */
  predicate Listable(k: Kind) { k.KLClosure? || k.KCClosure? || k.KTable? || k.KThread? || k.KProto? }

  // ----- shape of the heap -----

  ghost predicate Shape(o: Obj) {
    && (IsString(o.kind) ==> o.slots == [])
    && (o.home.Slot? ==> o.kind.KUpval? && o.slots == [])
    && (o.kind.KUpval? && o.home.Own? ==> |o.slots| == 1)
    && (o.openupval != [] ==> o.kind.KThread?)
    && (o.fixed ==> IsString(o.kind))
  }

  ghost predicate Shapes(h: Heap) { forall i :: i in h.objs ==> Shape(h.objs[i]) }

  ghost predicate AllListOk(h: Heap) {
    && NoDup(h.allgc)
    && forall i :: i in h.allgc ==>
         i in h.objs && !h.objs[i].kind.KShrStr? && h.objs[i].home.Own? && i != h.mainthread
  }

  ghost predicate StrListOk(h: Heap) {
    && (forall k :: 0 <= k < |h.strt| ==> NoDup(h.strt[k]))
    && (forall k, i :: 0 <= k < |h.strt| && i in h.strt[k] ==> i in h.objs && h.objs[i].kind.KShrStr?)
    && (forall k, l, i :: 0 <= k < |h.strt| && 0 <= l < |h.strt| && i in h.strt[k] && i in h.strt[l] ==> k == l)
  }

  /** `u` is an open upvalue of thread `t`. */
  ghost predicate OpenAt(h: Heap, u: Id, t: Id) {
    && u in h.objs && t in h.objs
    && h.objs[u].home.Slot? && h.objs[u].home.thread == t
    && h.objs[u].home.level < |h.objs[t].slots|
  }

  ghost predicate OpenOk(h: Heap) {
    && (forall t :: t in h.objs ==> NoDup(h.objs[t].openupval))
    && (forall t, u :: t in h.objs && u in h.objs[t].openupval ==> OpenAt(h, u, t))
    && (forall u :: u in h.objs && h.objs[u].home.Slot? ==>
          h.objs[u].home.thread in h.objs && u in h.objs[h.objs[u].home.thread].openupval)
  }

  /** `u` is an open upvalue above the given level. */
  predicate Above(h: Heap, u: Id, level: nat) { u in h.objs && h.objs[u].home.Slot? && h.objs[u].home.level > level }

  ghost predicate Descends(h: Heap, us: seq<Id>) {
    forall a, b :: 0 <= a < b < |us| && us[b] in h.objs && h.objs[us[b]].home.Slot? ==> Above(h, us[a], h.objs[us[b]].home.level)
  }

  /** The open upvalues of a thread are sorted by level, the highest first. */
  ghost predicate OpenSorted(h: Heap) {
    forall t {:trigger Descends(h, h.objs[t].openupval)} :: t in h.objs ==> Descends(h, h.objs[t].openupval)
  }

  ghost predicate InBucket(h: Heap, i: Id) { exists k :: 0 <= k < |h.strt| && i in h.strt[k] }

  /** Every object is kept on one of the lists (the main thread on none). */
  ghost predicate Owned(h: Heap) {
    forall i :: i in h.objs ==>
      i == h.mainthread || i in h.allgc || h.objs[i].home.Slot? || InBucket(h, i)
  }

  ghost predicate ThreadsOk(h: Heap) {
    && h.mainthread in h.objs && h.objs[h.mainthread].kind.KThread?
    && h.running in h.objs && h.objs[h.running].kind.KThread?
  }

  ghost predicate UvheadOk(h: Heap) {
    && NoDup(h.uvhead)
    && forall u :: u in h.uvhead <==> u in h.objs && h.objs[u].home.Slot?
  }

  ghost predicate Wf(h: Heap) {
    Shapes(h) && AllListOk(h) && StrListOk(h) && OpenOk(h) && OpenSorted(h) && Owned(h) && ThreadsOk(h) && UvheadOk(h)
  }

  // ----- what the collector keeps -----

  /** Every object has a color; only prototypes have a cache; threads and open upvalues
      are never black. */
  ghost predicate MarksOk(g: G) {
    && g.mark.Keys == g.h.objs.Keys
    && (forall i :: i in g.cache ==> i in g.h.objs && g.h.objs[i].kind.KProto?)
    && (forall i :: i in g.h.objs && g.mark[i].Black? ==> !g.h.objs[i].kind.KThread? && g.h.objs[i].home.Own?)
  }

  /** No live object and no root refers to a missing or dead object. */
  ghost predicate LiveClosed(g: G) {
    && (forall i, j :: Live(g, i) && Edge(g.h, g.cache, i, j) ==> Live(g, j))
    && (forall i :: Root(g.h, i) ==> Live(g, i))
  }

  /** The main invariant: no black object points to a white one. */
  ghost predicate TriColor(g: G) {
    forall i, j :: IsBlack(g, i) && Edge(g.h, g.cache, i, j) ==> !IsWhite(g, j)
  }

  /** A gray object is on a gray list or is an open upvalue; the lists hold each
      gray object once, so that one `gclist` link per object is enough. */
  ghost predicate GrayListed(g: G) {
    && NoDup(g.gray + g.grayagain)
    && (forall i :: i in g.gray + g.grayagain ==> i in g.h.objs && IsGray(g, i) && Listable(g.h.objs[i].kind))
    && (forall i :: i in g.h.objs && IsGray(g, i) ==> g.h.objs[i].home.Slot? || i in g.gray + g.grayagain)
  }

  ghost predicate NoOtherWhite(g: G) {
    forall i :: i in g.mark ==> g.mark[i] != White(!g.white)
  }

  ghost predicate AllWhite(g: G) {
    forall i :: i in g.mark ==> g.mark[i] == White(g.white)
  }

  /** Still ahead of the sweeper, on one of its lists ... */
  ghost predicate AheadListed(g: G, i: Id) {
    || i == g.h.mainthread
    || (g.sweepgc <= |g.h.allgc| && i in g.h.allgc[|g.h.allgc| - g.sweepgc..])
    || (g.phase.SweepString? && exists k :: g.sweepstr <= k < |g.h.strt| && i in g.h.strt[k])
  }

  /** ... or as an open upvalue of a thread that is. */
  ghost predicate Ahead(g: G, i: Id) {
    && i in g.h.objs
    && (AheadListed(g, i) || (g.h.objs[i].home.Slot? && AheadListed(g, g.h.objs[i].home.thread)))
  }

  /** Behind the sweeper everything has the current white. */
  ghost predicate SweptWhite(g: G) {
    forall i :: i in g.h.objs && i in g.mark ==> Ahead(g, i) || g.mark[i] == White(g.white)
  }

  /** The invariant of the marking phase: its part about colors, and all of it. */
  ghost predicate Colored(g: G) {
    Shapes(g.h) && MarksOk(g) && LiveClosed(g) && NoOtherWhite(g) && TriColor(g) && GrayListed(g)
  }

  ghost predicate Marking(g: G) { Wf(g.h) && Colored(g) }

  /** The invariant of the sweep phases: its part about colors, and all of it. */
  ghost predicate SweepColors(g: G) {
    && MarksOk(g) && LiveClosed(g) && SweptWhite(g)
    && g.sweepgc <= |g.h.allgc| && g.sweepstr <= |g.h.strt|
  }

  ghost predicate Sweeping(g: G) { Wf(g.h) && SweepColors(g) }

  ghost predicate Resting(g: G) {
    Wf(g.h) && MarksOk(g) && LiveClosed(g) && AllWhite(g)
  }

  ghost predicate Inv(g: G) {
    match g.phase
    case Pause => Resting(g)
    case Propagate => Marking(g) && !IsWhite(g, g.h.mainthread)
    case Atomic => false
    case SweepString => Sweeping(g)
    case SweepUdata => Sweeping(g)
    case Sweep => Sweeping(g)
  }

  lemma {:induction false} PathLive(g: G, path: seq<Id>)
    requires LiveClosed(g) && Path(g.h, g.cache, path)
    ensures forall k :: 0 <= k < |path| ==> Live(g, path[k])
  {
    if |path| > 1 {
      var front := path[..|path| - 1];
      assert Path(g.h, g.cache, front) by {
        forall k | 0 <= k < |front| - 1
          ensures Edge(g.h, g.cache, front[k], front[k + 1])
        {
          assert Edge(g.h, g.cache, path[k], path[k + 1]);
        }
      }
      PathLive(g, front);
      assert Live(g, front[|front| - 1]) && Edge(g.h, g.cache, path[|path| - 2], path[|path| - 1]);
    }
  }

  /** Everything the mutator can get at is allocated and not dead. */
  lemma ReachableLive(g: G, i: Id)
    requires LiveClosed(g) && Reachable(g, i)
    ensures Live(g, i)
  {
    var path :| PathTo(g.h, g.cache, path, i);
    PathLive(g, path);
  }
}
