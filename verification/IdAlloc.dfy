/** Connection ids: IndexMgr<uint32>. */
module IdAlloc {
  import opened Common

  const MOD := 0x1_0000_0000

  type Id = x: int | 0 <= x < MOD witness 0

  function Inc(i: Id): Id { (i + 1) % MOD }

  /** The `n`-th id from `i` on, with wrap-around. */
  function Nth(i: Id, n: nat): Id { (i + n) % MOD }

  lemma NthInc(i: Id, n: nat)
    ensures Inc(Nth(i, n)) == Nth(i, n + 1)
  {
  }

  /** Fewer than 2^32 steps do not come back. */
  lemma NthDiffer(i: Id, m: nat, n: nat)
    requires m < n < m + MOD
    ensures Nth(i, m) != Nth(i, n)
  {
  }

  /** The ids `Nth(i, 0)`, ..., `Nth(i, n - 1)`. */
  function Probed(i: Id, n: nat): set<Id> {
    if n == 0 then {} else Probed(i, n - 1) + {Nth(i, n - 1)}
  }

  lemma {:induction false} ProbedSize(i: Id, n: nat)
    requires n <= MOD
    ensures |Probed(i, n)| == n
    ensures forall x :: x in Probed(i, n) ==> exists k :: 0 <= k < n && x == Nth(i, k)
  {
    if n > 0 {
      ProbedSize(i, n - 1);
      if Nth(i, n - 1) in Probed(i, n - 1) {
        var k :| 0 <= k < n - 1 && Nth(i, n - 1) == Nth(i, k);
        NthDiffer(i, k, n - 1);
      }
    }
  }

  lemma {:induction false} ProbedHeld(i: Id, n: nat, held: set<Id>)
    requires forall k :: 0 <= k < n ==> Nth(i, k) in held
    ensures Probed(i, n) <= held
  {
    if n > 0 {
      ProbedHeld(i, n - 1, held);
    }
  }

  lemma SubsetSize(a: set<Id>, b: set<Id>)
    requires a <= b
    ensures |a| <= |b|
  {
    assert b == a + (b - a);
  }

  /** If the first `n` candidates are all held, then `n` ids are held. */
  lemma ProbesBounded(i: Id, n: nat, held: set<Id>)
    requires n <= MOD && forall k :: 0 <= k < n ==> Nth(i, k) in held
    ensures n <= |held|
  {
    ProbedSize(i, n);
    ProbedHeld(i, n, held);
    SubsetSize(Probed(i, n), held);
  }

  class IndexMgr {
    var next: Id
    var held: set<Id>

    constructor ()
      ensures next == 0 && held == {}
    {
      next, held := 0, {};
    }

    /** The first free id from `next` on, found within one probe more than there are ids held;
        `probes` counts the calls of IdExist. */
    method GetId() returns (r: Id, probes: nat)
      requires |held| < MOD
      modifies this
      ensures r !in old(held) && held == old(held) + {r} && next == Inc(r)
      ensures 1 <= probes <= |old(held)| + 1
      ensures r == Nth(old(next), probes - 1) && forall k :: 0 <= k < probes - 1 ==> Nth(old(next), k) in old(held)
    {
      ghost var first := next;
      probes := 1;
      while next in held
        invariant held == old(held) && 1 <= probes <= |held| + 1 && next == Nth(first, probes - 1)
        invariant forall k :: 0 <= k < probes - 1 ==> Nth(first, k) in held
        decreases |held| + 1 - probes
      {
        ProbesBounded(first, probes, held);
        NthInc(first, probes - 1);
        next := Inc(next);
        probes := probes + 1;
      }
      held := held + {next};
      r := next;
      next := Inc(next);
    }

    /** Returning an id that is not held does nothing. */
    method PutId(id: Id)
      modifies `held
      ensures held == old(held) - {id}
    {
      if id in held {
        held := held - {id};
      }
    }
  }

  // ----- holders -----

  /** The allocator and what each holder got. */
  datatype State = State(next: Id, held: set<Id>, owned: map<nat, Id>)

  /** Holder `h` takes the first free id, or returns the one it holds. */
  datatype Step = Take(h: nat, n: nat) | Give(h: nat)

  predicate Enabled(s: State, step: Step) {
    match step
    case Take(h, n) => h !in s.owned && Nth(s.next, n) !in s.held && forall k :: 0 <= k < n ==> Nth(s.next, k) in s.held
    case Give(h) => h in s.owned
  }

  function Next(s: State, step: Step): State
    requires Enabled(s, step)
  {
    match step
    case Take(h, n) => var r := Nth(s.next, n); State(Inc(r), s.held + {r}, s.owned[h := r])
    case Give(h) => State(s.next, s.held - {s.owned[h]}, s.owned - {h})
  }

  ghost predicate Runs(steps: seq<Step>, states: seq<State>) {
    && |states| == |steps| + 1 && states[0] == State(0, {}, map[])
    && forall i :: 0 <= i < |steps| ==> Enabled(states[i], steps[i]) && states[i + 1] == Next(states[i], steps[i])
  }

  /** The ids held are exactly those owned, each by one holder. */
  ghost predicate Distinct(s: State) {
    && (forall g, h :: g in s.owned && h in s.owned && g != h ==> s.owned[g] != s.owned[h])
    && (forall h :: h in s.owned ==> s.owned[h] in s.held)
    && (forall i :: i in s.held ==> exists h :: h in s.owned && s.owned[h] == i)
  }

  lemma StepDistinct(s: State, step: Step)
    requires Distinct(s) && Enabled(s, step)
    ensures Distinct(Next(s, step))
  {
    var t := Next(s, step);
    match step
    case Take(h, n) =>
      forall i | i in t.held
        ensures exists g :: g in t.owned && t.owned[g] == i
      {
        if i in s.held {
          var g :| g in s.owned && s.owned[g] == i;
          assert t.owned[g] == i;
        } else {
          assert t.owned[h] == i;
        }
      }
    case Give(h) =>
      forall i | i in t.held
        ensures exists g :: g in t.owned && t.owned[g] == i
      {
        var g :| g in s.owned && s.owned[g] == i;
        assert t.owned[g] == i;
      }
  }

  /** In every run, also across the wrap-around of the counter, no two holders have the same
      id. */
  lemma {:induction false} IdsDistinct(steps: seq<Step>, states: seq<State>, n: nat)
    requires Runs(steps, states) && n <= |steps|
    ensures Distinct(states[n])
  {
    if n > 0 {
      IdsDistinct(steps, states, n - 1);
      assert Enabled(states[n - 1], steps[n - 1]);
      StepDistinct(states[n - 1], steps[n - 1]);
    }
  }

  /** While some id is free a holder can take one, after at most as many probes that fail as
      there are ids held. */
  lemma TakePossible(s: State, h: nat) returns (n: nat)
    requires |s.held| < MOD && h !in s.owned
    ensures n <= |s.held| && Enabled(s, Take(h, n))
  {
    n := 0;
    while Nth(s.next, n) in s.held
      invariant 0 <= n <= |s.held| && forall k :: 0 <= k < n ==> Nth(s.next, k) in s.held
      decreases |s.held| - n
    {
      ProbesBounded(s.next, n + 1, s.held);
      n := n + 1;
    }
  }
}
