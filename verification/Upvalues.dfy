/** Upvalues of one thread: closures that capture a stack slot share a variable with it, and
    keep the variable when the slot goes away. */
module Upvalues {
  import opened Common

  type Value = int

  /** An open upvalue refers to a stack slot, a closed one holds its value. */
  datatype UpVal = Open(level: nat) | Closed(v: Value)

  /** `open` is the list of open upvalues, from the top of the stack down. */
  datatype State = State(stack: seq<Value>, uvs: map<nat, UpVal>, open: seq<nat>, newId: nat)

  function Level(uvs: map<nat, UpVal>, u: nat): nat {
    if u in uvs && uvs[u].Open? then uvs[u].level else 0
  }

  /** Open upvalues are exactly those of the list, which is strictly descending. */
  ghost predicate Wf(s: State) {
    && (forall i :: 0 <= i < |s.open| ==> s.open[i] in s.uvs && s.uvs[s.open[i]].Open? && s.uvs[s.open[i]].level < |s.stack|)
    && (forall i, j :: 0 <= i < j < |s.open| ==> Level(s.uvs, s.open[i]) > Level(s.uvs, s.open[j]))
    && (forall u :: u in s.uvs ==> u < s.newId && (s.uvs[u].Open? ==> u in s.open))
  }

  /** Where the search for a level stops: the first upvalue that is not above it. */
  function Search(uvs: map<nat, UpVal>, open: seq<nat>, level: nat): (k: nat)
    ensures k <= |open|
    ensures forall i :: 0 <= i < k ==> Level(uvs, open[i]) > level
    ensures k < |open| ==> Level(uvs, open[k]) <= level
  {
    if open == [] || Level(uvs, open[0]) <= level then 0 else 1 + Search(uvs, open[1..], level)
  }

  /** `luaF_findupval`. */
  function Find(s: State, level: nat): (State, nat) {
    var k := Search(s.uvs, s.open, level);
    if k < |s.open| && Level(s.uvs, s.open[k]) == level then (s, s.open[k])
    else (State(s.stack, s.uvs[s.newId := Open(level)], s.open[..k] + [s.newId] + s.open[k..], s.newId + 1), s.newId)
  }

  function Content(stack: seq<Value>, uv: UpVal): Value {
    match uv
    case Open(l) => if l < |stack| then stack[l] else 0
    case Closed(v) => v
  }

  /** One round of `luaF_close`. */
  function CloseFirst(s: State): State
    requires s.open != [] && s.open[0] in s.uvs
  {
    var u := s.open[0];
    State(s.stack, s.uvs[u := Closed(Content(s.stack, s.uvs[u]))], s.open[1..], s.newId)
  }

  /** `luaF_close`. */
  function Close(s: State, level: nat): State
    decreases |s.open|
  {
    if s.open != [] && s.open[0] in s.uvs && Level(s.uvs, s.open[0]) >= level then Close(CloseFirst(s), level) else s
  }

  /** The value seen through an upvalue. */
  function Read(s: State, u: nat): Value { if u in s.uvs then Content(s.stack, s.uvs[u]) else 0 }

  /** An assignment through an upvalue. */
  function Write(s: State, u: nat, v: Value): State {
    if u !in s.uvs then s
    else
      match s.uvs[u]
      case Open(l) => if l < |s.stack| then s.(stack := s.stack[l := v]) else s
      case Closed(_) => s.(uvs := s.uvs[u := Closed(v)])
  }

  // ----- shared variables -----

  /** A variable: a stack slot between two closings of it. */
  datatype Var = Var(level: nat, gen: nat)

  /** Closures hold handles to variables; several may hold the same. */
  datatype Spec = Spec(store: Var -> Value, gen: nat -> nat, handles: map<nat, Var>, newId: nat)

  function Current(a: Spec, l: nat): Var { Var(l, a.gen(l)) }

  function Assign(a: Spec, x: Var, v: Value): Spec { a.(store := (y: Var) => if y == x then v else a.store(y)) }

  /** Capturing gives the handle that the variable has, or a new one. */
  ghost function Capture(a: Spec, l: nat): (Spec, nat) {
    if u :| u in a.handles && a.handles[u] == Current(a, l) then (a, u)
    else (a.(handles := a.handles[a.newId := Current(a, l)], newId := a.newId + 1), a.newId)
  }

  function NextGen(a: Spec, level: nat, l: nat): nat { if l >= level then a.gen(l) + 1 else a.gen(l) }

  /** The slots from `level` on become new variables, which start with what is in them. */
  function Renew(a: Spec, level: nat): Spec {
    a.(gen := (l: nat) => NextGen(a, level, l),
       store := (x: Var) => if x.level >= level && x.gen == a.gen(x.level) + 1 then a.store(Var(x.level, a.gen(x.level))) else a.store(x))
  }

  // ----- refinement -----

  /** A thread implements shared variables: slots and upvalues show the values of their
      variables, each variable has at most one handle, and an upvalue is open exactly while
      its variable is the current one of its slot. */
  ghost predicate Implements(s: State, a: Spec) {
    && s.newId == a.newId && s.uvs.Keys == a.handles.Keys
    && (forall l :: 0 <= l < |s.stack| ==> s.stack[l] == a.store(Current(a, l)))
    && (forall u :: u in s.uvs ==> HandleOk(s, a, u))
    && (forall u, w :: u in s.uvs && w in s.uvs && u != w ==> a.handles[u] != a.handles[w])
  }

  ghost predicate HandleOk(s: State, a: Spec, u: nat)
    requires u in s.uvs && u in a.handles
  {
    var x := a.handles[u];
    && Content(s.stack, s.uvs[u]) == a.store(x)
    && match s.uvs[u] case Open(l) => x == Current(a, l) && l < |s.stack| case Closed(_) => x.gen < a.gen(x.level)
  }

  lemma FindWf(s: State, level: nat)
    requires Wf(s) && level < |s.stack|
    ensures Wf(Find(s, level).0)
  {
    var k := Search(s.uvs, s.open, level);
    if !(k < |s.open| && Level(s.uvs, s.open[k]) == level) {
      InsertWf(s, k, level, Find(s, level).0);
    }
  }

  lemma InsertWf(s: State, k: nat, level: nat, t: State)
    requires Wf(s) && level < |s.stack| && k <= |s.open|
    requires (forall i :: 0 <= i < k ==> Level(s.uvs, s.open[i]) > level) && (k < |s.open| ==> Level(s.uvs, s.open[k]) < level)
    requires t == State(s.stack, s.uvs[s.newId := Open(level)], s.open[..k] + [s.newId] + s.open[k..], s.newId + 1)
    ensures Wf(t)
  {
    InsertAt(s.open, k, s.newId, t.open);
    forall i | 0 <= i < |s.open|
      ensures s.open[i] != s.newId && Level(t.uvs, s.open[i]) == Level(s.uvs, s.open[i])
    {
      assert s.open[i] in s.uvs;
    }
    Descending(s, t, k, level);
    forall i | 0 <= i < |t.open|
      ensures t.open[i] in t.uvs && t.uvs[t.open[i]].Open? && t.uvs[t.open[i]].level < |t.stack|
    {
      assert t.open[i] in t.open;
      if t.open[i] != s.newId {
        var j :| 0 <= j < |s.open| && s.open[j] == t.open[i];
      }
    }
  }

  /** The elements after an insertion. */
  lemma InsertAt(s: seq<nat>, k: nat, x: nat, n: seq<nat>)
    requires k <= |s| && n == s[..k] + [x] + s[k..]
    ensures |n| == |s| + 1
    ensures (forall i :: 0 <= i < k ==> n[i] == s[i]) && n[k] == x && (forall i {:trigger n[i]} :: k < i < |n| ==> n[i] == s[i - 1])
    ensures forall u :: u in n <==> u in s || u == x
  {
    assert s == s[..k] + s[k..];
  }

  lemma Descending(s: State, t: State, k: nat, level: nat)
    requires Wf(s) && k <= |s.open| && |t.open| == |s.open| + 1 && Level(t.uvs, s.newId) == level
    requires (forall i :: 0 <= i < k ==> t.open[i] == s.open[i]) && t.open[k] == s.newId
    requires forall i {:trigger t.open[i]} :: k < i < |t.open| ==> t.open[i] == s.open[i - 1]
    requires forall i :: 0 <= i < |s.open| ==> Level(t.uvs, s.open[i]) == Level(s.uvs, s.open[i])
    requires (forall i :: 0 <= i < k ==> Level(s.uvs, s.open[i]) > level) && (k < |s.open| ==> Level(s.uvs, s.open[k]) < level)
    ensures forall i, j :: 0 <= i < j < |t.open| ==> Level(t.uvs, t.open[i]) > Level(t.uvs, t.open[j])
  {
    forall i, j | 0 <= i < j < |t.open|
      ensures Level(t.uvs, t.open[i]) > Level(t.uvs, t.open[j])
    {
      var a, b := if i < k then i else i - 1, if j < k then j else j - 1;
      if i == k {
        assert s.open[b] == t.open[j];
        assert b > k ==> Level(s.uvs, s.open[k]) > Level(s.uvs, s.open[b]);
      } else if j == k {
        assert t.open[i] == s.open[a];
      } else {
        assert t.open[i] == s.open[a] && t.open[j] == s.open[b];
        assert Level(s.uvs, s.open[a]) > Level(s.uvs, s.open[b]);
      }
    }
  }

  /** The search misses an open upvalue of the level only if there is none. */
  lemma SearchFinds(s: State, level: nat)
    requires Wf(s)
    ensures var k := Search(s.uvs, s.open, level);
      (k < |s.open| && Level(s.uvs, s.open[k]) == level) <==> exists u :: u in s.uvs && s.uvs[u] == Open(level)
    ensures forall u :: u in s.uvs && s.uvs[u] == Open(level) ==>
      var k := Search(s.uvs, s.open, level); k < |s.open| && s.open[k] == u
  {
    var k := Search(s.uvs, s.open, level);
    forall u | u in s.uvs && s.uvs[u] == Open(level)
      ensures k < |s.open| && s.open[k] == u
    {
      var i :| 0 <= i < |s.open| && s.open[i] == u;
      NotBelow(s, k, i);
    }
  }

  lemma NotBelow(s: State, k: nat, i: nat)
    requires Wf(s) && k <= i < |s.open| && Level(s.uvs, s.open[k]) <= Level(s.uvs, s.open[i])
    ensures i == k
  {
  }

  /** Capturing a slot: the same handle as in the specification. */
  lemma FindImplements(s: State, a: Spec, level: nat)
    requires Wf(s) && Implements(s, a) && level < |s.stack|
    ensures Find(s, level).1 == Capture(a, level).1 && Implements(Find(s, level).0, Capture(a, level).0)
  {
    SearchFinds(s, level);
    var x := Current(a, level);
    forall u | u in s.uvs
      ensures a.handles[u] == x <==> s.uvs[u] == Open(level)
    {
      assert HandleOk(s, a, u);
    }
    var k := Search(s.uvs, s.open, level);
    if k < |s.open| && Level(s.uvs, s.open[k]) == level {
      assert a.handles[s.open[k]] == x;
    } else {
      var t, b := Find(s, level).0, Capture(a, level).0;
      assert s.newId !in s.uvs;
      forall u | u in t.uvs
        ensures HandleOk(t, b, u)
      {
        assert u in s.uvs ==> HandleOk(s, a, u);
      }
    }
  }

  lemma CloseFirstWf(s: State)
    requires Wf(s) && s.open != []
    ensures Wf(CloseFirst(s))
  {
    var t := CloseFirst(s);
    forall i | 0 <= i < |t.open|
      ensures t.open[i] == s.open[i + 1] && t.open[i] != s.open[0] && Level(t.uvs, t.open[i]) == Level(s.uvs, s.open[i + 1])
    {
      assert Level(s.uvs, s.open[0]) > Level(s.uvs, s.open[i + 1]);
    }
    forall u | u in t.uvs && t.uvs[u].Open?
      ensures u in t.open
    {
      var i :| 0 <= i < |s.open| && s.open[i] == u;
      assert u == t.open[i - 1];
    }
  }

  /** Closing keeps what every upvalue shows, and leaves open just those below the level. */
  lemma {:induction false} CloseSpec(s: State, level: nat)
    requires Wf(s)
    ensures var t := Close(s, level);
      && Wf(t) && t.stack == s.stack && t.newId == s.newId && t.uvs.Keys == s.uvs.Keys
      && forall u :: u in s.uvs ==> t.uvs[u] == if s.uvs[u].Open? && s.uvs[u].level >= level then Closed(Content(s.stack, s.uvs[u])) else s.uvs[u]
    decreases |s.open|
  {
    hide Wf;
    if s.open != [] && Level(s.uvs, s.open[0]) >= level {
      CloseFirstWf(s);
      FirstOpen(s);
      CloseSpec(CloseFirst(s), level);
    } else {
      NothingAbove(s, level);
    }
  }

  lemma FirstOpen(s: State)
    requires Wf(s) && s.open != []
    ensures s.open[0] in s.uvs && s.uvs[s.open[0]].Open?
  {
  }

  lemma NothingAbove(s: State, level: nat)
    requires Wf(s) && !(s.open != [] && Level(s.uvs, s.open[0]) >= level)
    ensures forall u :: u in s.uvs && s.uvs[u].Open? ==> s.uvs[u].level < level
    ensures Close(s, level) == s
  {
    forall u | u in s.uvs && s.uvs[u].Open?
      ensures s.uvs[u].level < level
    {
      var i :| 0 <= i < |s.open| && s.open[i] == u;
      assert Level(s.uvs, s.open[0]) >= Level(s.uvs, s.open[i]);
    }
  }

  lemma CloseImplements(s: State, a: Spec, level: nat)
    requires Wf(s) && Implements(s, a)
    ensures Implements(Close(s, level), Renew(a, level))
    ensures forall u :: Read(Close(s, level), u) == Read(s, u)
  {
    hide Close;
    CloseSpec(s, level);
    var t, b := Close(s, level), Renew(a, level);
    forall u | u in t.uvs
      ensures HandleOk(t, b, u)
    {
      assert HandleOk(s, a, u);
      RenewKeeps(a, level, a.handles[u]);
    }
  }

  /** Variables that exist already keep their values. */
  lemma RenewKeeps(a: Spec, level: nat, x: Var)
    requires x.gen <= a.gen(x.level)
    ensures Renew(a, level).store(x) == a.store(x) && Renew(a, level).gen(x.level) >= a.gen(x.level)
  {
  }

  lemma SetImplements(s: State, a: Spec, l: nat, v: Value)
    requires Wf(s) && Implements(s, a) && l < |s.stack|
    ensures Wf(s.(stack := s.stack[l := v])) && Implements(s.(stack := s.stack[l := v]), Assign(a, Current(a, l), v))
  {
    var t, b := s.(stack := s.stack[l := v]), Assign(a, Current(a, l), v);
    forall u | u in t.uvs
      ensures HandleOk(t, b, u)
    {
      assert HandleOk(s, a, u);
    }
  }

  lemma WriteImplements(s: State, a: Spec, u: nat, v: Value)
    requires Wf(s) && Implements(s, a) && u in s.uvs
    ensures Wf(Write(s, u, v)) && Implements(Write(s, u, v), Assign(a, a.handles[u], v))
  {
    assert HandleOk(s, a, u);
    match s.uvs[u]
    case Open(l) => SetImplements(s, a, l, v);
    case Closed(_) => WriteClosed(s, a, u, v);
  }

  lemma WriteClosed(s: State, a: Spec, u: nat, v: Value)
    requires Wf(s) && Implements(s, a) && u in s.uvs && s.uvs[u].Closed?
    ensures Wf(Write(s, u, v)) && Implements(Write(s, u, v), Assign(a, a.handles[u], v))
  {
    hide Wf;
    WriteClosedWf(s, u, v);
    var t, b := Write(s, u, v), Assign(a, a.handles[u], v);
    assert HandleOk(s, a, u);
    forall w | w in t.uvs
      ensures HandleOk(t, b, w)
    {
      assert HandleOk(s, a, w);
    }
  }

  lemma WriteClosedWf(s: State, u: nat, v: Value)
    requires Wf(s) && u in s.uvs && s.uvs[u].Closed?
    ensures Wf(Write(s, u, v))
  {
    var t := Write(s, u, v);
    forall i | 0 <= i < |s.open|
      ensures s.open[i] != u && Level(t.uvs, s.open[i]) == Level(s.uvs, s.open[i])
    {
    }
  }

  // ----- every run -----

  datatype Op = SetSlot(l: nat, v: Value) | CaptureSlot(l: nat) | Assignment(u: nat, v: Value) | CloseFrom(level: nat)

  predicate Enabled(s: State, op: Op) {
    match op
    case SetSlot(l, _) => l < |s.stack|
    case CaptureSlot(l) => l < |s.stack|
    case Assignment(u, _) => u in s.uvs
    case CloseFrom(_) => true
  }

  function Next(s: State, op: Op): State
    requires Enabled(s, op)
  {
    match op
    case SetSlot(l, v) => s.(stack := s.stack[l := v])
    case CaptureSlot(l) => Find(s, l).0
    case Assignment(u, v) => Write(s, u, v)
    case CloseFrom(level) => Close(s, level)
  }

  ghost function SpecNext(a: Spec, op: Op): Spec {
    match op
    case SetSlot(l, v) => Assign(a, Current(a, l), v)
    case CaptureSlot(l) => Capture(a, l).0
    case Assignment(u, v) => if u in a.handles then Assign(a, a.handles[u], v) else a
    case CloseFrom(level) => Renew(a, level)
  }

  ghost predicate Runs(stack: seq<Value>, ops: seq<Op>, states: seq<State>) {
    && |states| == |ops| + 1 && states[0] == State(stack, map[], [], 0)
    && forall i :: 0 <= i < |ops| ==> Enabled(states[i], ops[i]) && states[i + 1] == Next(states[i], ops[i])
  }

  /** The same run of the shared variables. */
  ghost function SpecRun(stack: seq<Value>, ops: seq<Op>): Spec {
    if ops == [] then Spec((x: Var) => if x.level < |stack| then stack[x.level] else 0, (l: nat) => 0, map[], 0)
    else SpecNext(SpecRun(stack, ops[..|ops| - 1]), ops[|ops| - 1])
  }

  /** In every run of captures, closings, and reads and writes of slots and upvalues, a thread
      behaves like shared variables, and its list of open upvalues is strictly descending. */
  lemma {:induction false} UpvaluesShare(stack: seq<Value>, ops: seq<Op>, states: seq<State>, n: nat)
    requires Runs(stack, ops, states) && n <= |ops|
    ensures Wf(states[n]) && Implements(states[n], SpecRun(stack, ops[..n])) && |states[n].stack| == |stack|
  {
    if n > 0 {
      UpvaluesShare(stack, ops, states, n - 1);
      var s, op, a := states[n - 1], ops[n - 1], SpecRun(stack, ops[..n - 1]);
      assert ops[..n][..n - 1] == ops[..n - 1] && ops[..n][n - 1] == op;
      assert Enabled(s, op) && states[n] == Next(s, op);
      hide Wf, Implements, Next, SpecNext, Enabled;
      StepImplements(s, a, op);
    }
  }

  lemma StepImplements(s: State, a: Spec, op: Op)
    requires Wf(s) && Implements(s, a) && Enabled(s, op)
    ensures Wf(Next(s, op)) && Implements(Next(s, op), SpecNext(a, op)) && |Next(s, op).stack| == |s.stack|
  {
    match op
    case SetSlot(l, v) => SetImplements(s, a, l, v);
    case CaptureSlot(l) => FindWf(s, l); FindImplements(s, a, l);
    case Assignment(u, v) => WriteImplements(s, a, u, v);
    case CloseFrom(level) => CloseSpec(s, level); CloseImplements(s, a, level);
  }

  /** What any closure sees in any run is the value of its shared variable. */
  lemma ReadsAgree(stack: seq<Value>, ops: seq<Op>, states: seq<State>, n: nat, u: nat)
    requires Runs(stack, ops, states) && n <= |ops| && u in states[n].uvs
    ensures var a := SpecRun(stack, ops[..n]); u in a.handles && Read(states[n], u) == a.store(a.handles[u])
  {
    UpvaluesShare(stack, ops, states, n);
    assert HandleOk(states[n], SpecRun(stack, ops[..n]), u);
  }
}
