/** A run in which an object that is dead after the flip is not freed: a string that the
    mutator makes again while it waits to be swept. */
module GcRevival {
  import opened Common
  import opened GcState
  import opened GcMark
  import opened GcCycle
  import opened GcSweep
  import opened GcStep
  import opened GcMutator
  import opened GcOps
  import opened GcRun
  import opened GcComplete

  const Thread: Obj := Obj(KThread, false, [], Own, [])
  const Text: Obj := Obj(KShrStr, false, [], Own, [])

  /** The main thread 0 and the string 1, which nobody refers to. */
  const H: Heap := Heap(map[0 := Thread, 1 := Text], 0, 0, None, [], [], [], [[1]])

  function At(thread: Color, text: Color, white: bool, phase: Phase, gray: seq<Id>, grayagain: seq<Id>, strings: nat): G {
    G(H, map[0 := thread, 1 := text], map[], white, phase, gray, grayagain, 0, strings)
  }

  const Made: G := At(White(false), White(false), false, Pause, [], [], 0)
  /** The string is still on the stack. */
  const Holding: G := Made.(h := H.(objs := map[0 := Thread.(slots := [Some(1)]), 1 := Text]))
  const Marking: G := At(Gray, White(false), false, Propagate, [0], [], 0)
  const Marked: G := At(Gray, White(false), false, Propagate, [], [0], 0)
  const Flipped: G := At(Gray, White(false), true, SweepString, [], [0], 0)

  lemma Creates()
    ensures NewObj(Init(0, 1), 1, KShrStr, 0, 0) == Holding
  {
    var g0 := Init(0, 1);
    var g1 := Create(g0, 1, KShrStr, 0, 0);
    assert Nils(0) == [];
    assert g0.h.strt[0] == [] && [1] + g0.h.strt[0] == [1];
    assert g0.h.strt[0 := [1]] == [[1]];
    assert g1.h.objs == H.objs && g1.mark == Made.mark;
    assert g1 == Made;
    assert [] + [Some(1)] == [Some(1)];
    assert Push(Made, Some(1)).h.objs == Holding.h.objs;
  }

  lemma Drops()
    ensures SetStack(Holding, 0, []) == Made
  {
    assert Holding.h.objs[0 := Thread] == H.objs;
  }

  /** Marking values that are not white. */
  lemma {:induction false} MarksNothing(g: G, vs: seq<Option<Id>>)
    requires forall v :: v in vs && v.Some? ==> !IsWhite(g, v.value)
    ensures MarkAll(g, vs) == g
    decreases |vs|
  {
    if vs != [] {
      assert vs[0] in vs;
      MarksNothing(g, vs[1..]);
    }
  }

  lemma Restarts()
    ensures Restart(Made).(phase := Propagate) == Marking
  {
    var vs := [Some(0), None] + [];
    var r := Mark(Made, Some(0));
    assert r == Marking.(phase := Pause) by {
      assert r.mark == Marking.mark;
      assert r.gray == [0] + [];
    }
    assert vs[0] == Some(0) && vs[1..] == [None];
    MarksNothing(r, [None]);
    assert MarkAll(Made, vs) == MarkAll(r, vs[1..]);
  }

  lemma Propagates()
    ensures PropagateMark(Marking) == Marked
  {
    assert [0][1..] == [];
    assert [0] + [] == [0];
  }

  lemma Remarks()
    ensures Remark(Marked) == Marked
  {
    var vs := [Some(0), None] + [];
    assert forall v :: v in vs && v.Some? ==> v.value == 0;
    MarksNothing(Marked, vs);
  }

  lemma PropagatesAll(g: G)
    requires Colored(g) && (g == Marking || g == Marked)
    ensures PropagateAll(g) == Marked
  {
    if g == Marking {
      Propagates();
      PropagateKeeps(g);
      assert PropagateAll(Marked) == Marked;
    }
  }

  lemma Completes()
    requires Colored(Marked)
    ensures AtomicMark(Marked) == Marked.(white := true)
  {
    hide Colored, Remark, PropagateAll, RemarkUpvals, MarkAll;
    Remarks();
    RemarkKeeps(Marked);
    PropagatesAll(Marked);
    TakeGrayAgainKeeps(Marked);
    assert TakeGrayAgain(Marked) == Marking;
    PropagatesAll(Marking);
  }

  lemma Enters()
    requires Sweeping(Entering(Marked.(white := true)))
    ensures EnterSweep(Marked.(white := true)) == Flipped
  {
  }

  /** The first step of a run. */
  lemma First(g: G, op: Op, rest: seq<Op>, r: G)
    requires Inv(g) && Enabled(g, op) && r == Apply(g, op)
    ensures Inv(r) && (Runs(g, [op] + rest) <==> Runs(r, rest))
    ensures Runs(r, rest) ==> Exec(g, [op] + rest) == Exec(r, rest)
  {
    hide Inv, Enabled;
    StepInv(g, op);
    assert ([op] + rest)[1..] == rest;
  }

  lemma Step1(g0: G)
    requires g0 == Init(0, 1)
    ensures Inv(g0) && Enabled(g0, NewObject(1, KShrStr, 0, 0)) && Apply(g0, NewObject(1, KShrStr, 0, 0)) == Holding
  {
    hide Inv;
    InitInv(0, 1);
    Creates();
  }

  lemma Step2()
    requires Inv(Holding)
    ensures Enabled(Holding, StoreStack(0, [])) && Apply(Holding, StoreStack(0, [])) == Made
  {
    hide Inv;
    Drops();
    assert PathTo(Holding.h, Holding.cache, [0], 0);
  }

  lemma Step3()
    requires Inv(Made)
    ensures Apply(Made, Collect(1)) == Marking
  {
    hide Inv, Restart;
    Restarts();
  }

  lemma Step4()
    requires Inv(Marking)
    ensures Apply(Marking, Collect(1)) == Marked
  {
    hide Inv, PropagateMark;
    Propagates();
  }

  lemma Step5()
    requires Inv(Marked)
    ensures Apply(Marked, Collect(1)) == Flipped
  {
    hide Inv, Colored, AtomicMark, EnterSweep, Sweeping;
    InvColored(Marked);
    Completes();
    AtomicEnters(Marked);
    Enters();
  }

  /** From the start: a string is made and dropped, and a collection runs up to the flip.
      Then the string is dead, and looking it up in the string table revives it; so it is not
      freed in this cycle, by SweepExact. */
  lemma DeadStringRevived()
    ensures var ops := [NewObject(1, KShrStr, 0, 0), StoreStack(0, []), Collect(1), Collect(1), Collect(1)];
      && RunsFromStart(0, 1, ops) && InSweep(After(0, 1, ops)) && Dead(After(0, 1, ops), 1)
      && Inv(After(0, 1, ops)) && Enabled(After(0, 1, ops), InternString(1)) && Live(Apply(After(0, 1, ops), InternString(1)), 1)
  {
    hide Inv, Enabled, Apply, Init, Dead, Live, InSweep;
    var g0 := Init(0, 1);
    var c := Collect(1);
    Step1(g0);
    First(g0, NewObject(1, KShrStr, 0, 0), [StoreStack(0, []), c, c, c], Holding);
    Step2();
    First(Holding, StoreStack(0, []), [c, c, c], Made);
    CanCollect(Made);
    Step3();
    First(Made, c, [c, c], Marking);
    CanCollect(Marking);
    Step4();
    First(Marking, c, [c], Marked);
    CanCollect(Marked);
    Step5();
    First(Marked, c, [], Flipped);
    Revives();
    assert [StoreStack(0, []), c, c, c] == [StoreStack(0, [])] + [c, c, c];
    assert [c, c, c] == [c] + [c, c] && [c, c] == [c] + [c] && [c] == [c] + [];
    assert [NewObject(1, KShrStr, 0, 0), StoreStack(0, []), c, c, c] == [NewObject(1, KShrStr, 0, 0)] + [StoreStack(0, []), c, c, c];
  }

  lemma CanCollect(g: G)
    requires Inv(g)
    ensures Enabled(g, Collect(1))
  {
  }

  lemma Revives()
    requires Inv(Flipped)
    ensures InSweep(Flipped) && Dead(Flipped, 1) && Enabled(Flipped, InternString(1)) && Live(Apply(Flipped, InternString(1)), 1)
  {
    hide Inv;
    assert InBucket(Flipped.h, 1) by { assert 1 in H.strt[0]; }
  }

  lemma InvColored(g: G)
    requires Inv(g) && g.phase.Propagate?
    ensures Colored(g)
  {
  }
}
