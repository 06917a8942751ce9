/** The task queue of a provider: threads that push, one thread that runs, and Stop. */
module RpcTasks {
  import opened Common
  import RpcProtocol

  /** A request, bound to the handler that answers it. */
  type Task = RpcProtocol.Msg

  /** The running thread: about to look at the queue, asleep on the condition variable (and
      notified or not), executing a task, or finished. */
  datatype Runner = Ready | Waiting(notified: bool) | Executing(task: Task) | Finished

  /** `pushed` and `started` are history. */
  datatype State = State(tasks: seq<Task>, running: bool, runner: Runner, pushed: seq<Task>, started: seq<Task>)

  const Start: State := State([], true, Ready, [], [])

  function Notify(r: Runner): Runner { if r.Waiting? then Waiting(true) else r }

  function Pushed(s: State, t: Task): State {
    s.(tasks := s.tasks + [t], pushed := s.pushed + [t], runner := Notify(s.runner))
  }

  function Stopped(s: State): State { s.(running := false, tasks := [], runner := Notify(s.runner)) }

  /** The runner, holding the lock, in the loop of Pop and, behind it, in the loop of Run. */
  function Looked(s: State): State {
    if s.tasks == [] then s.(runner := if s.running then Waiting(false) else Finished)
    else if s.running then s.(tasks := s.tasks[1..], runner := Executing(s.tasks[0]), started := s.started + [s.tasks[0]])
    else s.(tasks := s.tasks[1..], runner := Finished)
  }

  datatype Step = Push(t: Task) | Stop | Look | Wake | Finish

  /** The runner may wake up without being notified. */
  predicate Enabled(s: State, step: Step) {
    match step
    case Push(_) => true
    case Stop => true
    case Look => s.runner.Ready?
    case Wake => s.runner.Waiting?
    case Finish => s.runner.Executing?
  }

  function Next(s: State, step: Step): State {
    match step
    case Push(t) => Pushed(s, t)
    case Stop => Stopped(s)
    case Look => Looked(s)
    case Wake => s.(runner := Ready)
    case Finish => s.(runner := Ready)
  }

  /** Steps from a state. */
  ghost predicate Path(s: State, steps: seq<Step>, states: seq<State>) {
    && |states| == |steps| + 1 && states[0] == s
    && forall i :: 0 <= i < |steps| ==> Enabled(states[i], steps[i]) && states[i + 1] == Next(states[i], steps[i])
  }

  ghost predicate Runs(steps: seq<Step>, states: seq<State>) { Path(Start, steps, states) }

  // ----- properties of every run -----

  ghost predicate Inv(s: State) {
    && (s.running ==> s.pushed == s.started + s.tasks)
    && s.started <= s.pushed
    && (s.runner == Waiting(false) ==> s.tasks == [] && s.running)
    && (s.runner.Finished? ==> !s.running)
  }

  lemma StepInv(s: State, step: Step)
    requires Inv(s) && Enabled(s, step)
    ensures Inv(Next(s, step))
  {
    if step.Look? && s.tasks != [] {
      assert s.tasks == [s.tasks[0]] + s.tasks[1..];
    }
  }

  /** In every run the tasks started are a prefix of the tasks pushed, in order, and all of
      them until Stop; a runner that sleeps and was not notified has nothing to do. */
  lemma {:induction false} TasksInOrder(steps: seq<Step>, states: seq<State>, n: nat)
    requires Runs(steps, states) && n <= |steps|
    ensures Inv(states[n])
    ensures states[n].started <= states[n].pushed
    ensures states[n].runner == Waiting(false) ==> states[n].tasks == [] && states[n].running
  {
    if n > 0 {
      TasksInOrder(steps, states, n - 1);
      assert Enabled(states[n - 1], steps[n - 1]);
      StepInv(states[n - 1], steps[n - 1]);
    }
  }

  /** After Stop no further task is started, whatever is pushed. */
  lemma {:induction false} NothingAfterStop(steps: seq<Step>, states: seq<State>, m: nat, n: nat)
    requires Runs(steps, states) && m <= n <= |steps| && !states[m].running
    ensures !states[n].running && states[n].started == states[m].started
    decreases n
  {
    if m < n {
      NothingAfterStop(steps, states, m, n - 1);
      assert states[n] == Next(states[n - 1], steps[n - 1]);
    }
  }

  // ----- every task is started -----

  /** A look while the provider runs starts exactly the first task pushed and not yet started,
      if there is one, and else puts the runner to sleep; after Stop it ends the runner. */
  lemma LookStarts(steps: seq<Step>, states: seq<State>, n: nat)
    requires Runs(steps, states) && n < |steps| && steps[n].Look?
    ensures var s, t := states[n], states[n + 1];
      t.pushed == s.pushed && t.running == s.running &&
      if s.running && |s.started| < |s.pushed|
      then t.started == s.pushed[..|s.started| + 1] && t.runner == Executing(s.pushed[|s.started|])
      else t.started == s.started && t.runner == if s.running then Waiting(false) else Finished
  {
    TasksInOrder(steps, states, n);
    var s := states[n];
    assert Enabled(s, steps[n]) && states[n + 1] == Next(s, steps[n]);
    if s.running && s.tasks != [] {
      assert s.pushed[|s.started|] == s.tasks[0];
      assert s.pushed[..|s.started| + 1] == s.started + [s.tasks[0]];
    }
  }

  /** Nothing is pushed or stopped. */
  ghost predicate Quiet(steps: seq<Step>) {
    forall i :: 0 <= i < |steps| ==> !steps[i].Push? && !steps[i].Stop?
  }

  /** The runner is woken only when it was notified. */
  ghost predicate Notified(steps: seq<Step>, states: seq<State>)
    requires |states| == |steps| + 1
  {
    forall i :: 0 <= i < |steps| && steps[i].Wake? ==> states[i].runner == Waiting(true)
  }

  /** The runner's work is done: every task is started or, after Stop, the runner has ended. */
  predicate Done(s: State) { if s.running then s.started == s.pushed else s.runner.Finished? }

  /** The steps the runner has to take until its work is done. */
  function ToDo(s: State): int {
    if Done(s) then 0
    else (if s.running then 2 * |s.tasks| else 2) - if s.runner.Ready? then 1 else 0
  }

  /** Every step of the runner brings it closer to the end of its work. */
  lemma QuietStep(s: State, step: Step)
    requires Inv(s) && Enabled(s, step) && !step.Push? && !step.Stop?
    ensures var t := Next(s, step); t.running == s.running && t.pushed == s.pushed
    ensures ToDo(s) >= 0 && ToDo(Next(s, step)) == if ToDo(s) == 0 then 0 else ToDo(s) - 1
    ensures Done(s) <==> ToDo(s) == 0
  {
    StepInv(s, step);
  }

  lemma {:induction false} Progress(steps: seq<Step>, states: seq<State>, m: nat, n: nat)
    requires Runs(steps, states) && m <= n <= |steps| && Quiet(steps[m..n])
    ensures var s, t := states[m], states[n];
      t.running == s.running && t.pushed == s.pushed && ToDo(t) == if ToDo(s) <= n - m then 0 else ToDo(s) - (n - m)
    decreases n
  {
    TasksInOrder(steps, states, n);
    if m < n {
      assert steps[m..n - 1] == steps[m..n][..n - 1 - m] && steps[n - 1] == steps[m..n][n - 1 - m];
      Progress(steps, states, m, n - 1);
      TasksInOrder(steps, states, n - 1);
      assert Enabled(states[n - 1], steps[n - 1]) && states[n] == Next(states[n - 1], steps[n - 1]);
      QuietStep(states[n - 1], steps[n - 1]);
    }
  }

  /** In every run: two steps of the runner for each task waiting, with no Push and no Stop
      among them, and every task pushed is started; after Stop two steps end the runner. */
  lemma AllStarted(steps: seq<Step>, states: seq<State>, m: nat, n: nat)
    requires Runs(steps, states) && m <= n <= |steps| && Quiet(steps[m..n])
    ensures var s, t := states[m], states[n];
      && (s.running && n - m >= 2 * (|s.pushed| - |s.started|) ==> t.started == t.pushed == s.pushed)
      && (!s.running && n - m >= 2 ==> t.runner.Finished?)
  {
    TasksInOrder(steps, states, m);
    TasksInOrder(steps, states, n);
    Progress(steps, states, m, n);
  }

  /** The steps lead from the state to the end of the runner's work. */
  ghost predicate Finishes(s: State, steps: seq<Step>, states: seq<State>) {
    Path(s, steps, states) && Quiet(steps) && Notified(steps, states) && Done(states[|steps|])
  }

  ghost predicate CanFinish(s: State) { exists steps, states :: Finishes(s, steps, states) }

  lemma FinishesAfter(s: State, step: Step, steps: seq<Step>, states: seq<State>)
    requires Enabled(s, step) && !step.Push? && !step.Stop? && (step.Wake? ==> s.runner == Waiting(true))
    requires Finishes(Next(s, step), steps, states)
    ensures Finishes(s, [step] + steps, [s] + states)
  {
    var all, them := [step] + steps, [s] + states;
    forall i | 0 <= i < |all|
      ensures Enabled(them[i], all[i]) && them[i + 1] == Next(them[i], all[i])
    {
      if i > 0 {
        assert all[i] == steps[i - 1] && them[i] == states[i - 1] && them[i + 1] == states[i];
      }
    }
    assert them[|all|] == states[|steps|];
  }

  lemma {:induction false} FinishFrom(s: State)
    requires Inv(s)
    ensures CanFinish(s)
    decreases ToDo(s)
  {
    if Done(s) {
      assert Finishes(s, [], [s]);
    } else {
      var step := if s.runner.Ready? then Look else if s.runner.Waiting? then Wake else Finish;
      QuietStep(s, step);
      StepInv(s, step);
      FinishFrom(Next(s, step));
      var steps, states :| Finishes(Next(s, step), steps, states);
      FinishesAfter(s, step, steps, states);
    }
  }

  /** No wake-up is lost: from every state of every run, with no Push, no Stop and no wake-up
      that was not notified, the runner can go on until every task pushed is started or,
      after Stop, until it has ended. */
  lemma NoLostWakeUp(steps: seq<Step>, states: seq<State>, n: nat)
    requires Runs(steps, states) && n <= |steps|
    ensures CanFinish(states[n])
  {
    TasksInOrder(steps, states, n);
    FinishFrom(states[n]);
  }

  // ----- the monitor as an object -----

  class TaskMgr {
    var tasks: seq<Task>
    var running: bool
    /** The thread that runs tasks, and what happened. */
    var runner: Runner
    ghost var pushed: seq<Task>
    ghost var started: seq<Task>

    ghost function Abs(): State
      reads this
    {
      State(tasks, running, runner, pushed, started)
    }

    constructor ()
      ensures Abs() == Start
    {
      tasks, running, runner, pushed, started := [], true, Ready, [], [];
    }

    method NotifyAll()
      modifies `runner
      ensures runner == Notify(old(runner))
    {
      if runner.Waiting? {
        runner := Waiting(true);
      }
    }

    method PushTask(t: Task)
      modifies this
      ensures Abs() == Pushed(old(Abs()), t)
    {
      tasks := tasks + [t];
      pushed := pushed + [t];
      NotifyAll();
    }

    method StopAll()
      modifies this
      ensures Abs() == Stopped(old(Abs()))
      ensures !running && tasks == [] && started == old(started)
    {
      running := false;
      while tasks != []
        invariant !running && runner == old(runner) && pushed == old(pushed) && started == old(started)
        decreases |tasks|
      {
        tasks := tasks[1..];
      }
      NotifyAll();
    }

    /** The condition variable wakes the runner, with or without a notification. */
    method Wake()
      requires runner.Waiting?
      modifies `runner
      ensures Abs() == Next(old(Abs()), Step.Wake)
    {
      runner := Ready;
    }

    /** The task is done. */
    method Finish()
      requires runner.Executing?
      modifies `runner
      ensures Abs() == Next(old(Abs()), Step.Finish)
    {
      runner := Ready;
    }

    /** `Pop` up to the point where it waits or returns: `t` is the task to run. */
    method Pop() returns (t: Option<Task>)
      requires runner.Ready?
      modifies this
      ensures Abs() == Looked(old(Abs()))
      ensures pushed == old(pushed) && running == old(running)
      ensures old(running && tasks != []) ==>
        t == Some(old(tasks[0])) && runner == Executing(t.value) && tasks == old(tasks[1..]) && started == old(started) + [t.value]
      ensures !old(running && tasks != []) ==>
        t == None && runner == (if running then Waiting(false) else Finished) && started == old(started)
    {
      if tasks == [] {
        if !running {
          runner := Finished;
          return None;
        }
        runner := Waiting(false);
        return None;
      }
      var first := tasks[0];
      tasks := tasks[1..];
      if running {
        runner, started := Executing(first), started + [first];
        return Some(first);
      }
      runner := Finished;
      return None;
    }
  }
}
