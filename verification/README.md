# Lua engine and RPC stack: a verification project

The repository is a game server: a Lua 5.2.3 engine embedded in its driver, and an RPC stack of its own
(service providers, a routing proxy, a message channel over TCP, an MD5 hash, id allocation). This project
models the parts of both whose correctness is not visible from any one function, and proves what they are
for. Nothing here is executed; everything is checked by the Dafny verifier (`dafny verify dfyconfig.toml`).

## What is modelled

**The incremental garbage collector** (modules `Gc...`). `GcState` is the collectable heap: objects, colors,
the object list with its sweep cursor, the string table, the lists of open upvalues, the gray lists and the
roots. `GcOpen` has the
sorted lists of open upvalues. `GcMark`, `GcCycle`, `GcSweep`, `GcStep` specify marking, the atomic phase, sweeping in pieces and the
single step; `GcMutator`, `GcBarrier`, `GcOps` the mutator's side with its barriers. `GcEffects` says what they
do to the values a program sees. `GcRun` interleaves both
in any order and proves safety and the tri-color invariant over every run; `GcComplete` proves which dead
objects are freed, `GcExact` that a full cycle keeps exactly what is strongly reachable, and that it ends.
`GcView` proves that every mutator step has its effect and no other, in whatever phase it is taken.
`GcCollector` is the collector as a class that updates its fields in place, proved equal to the
specification step by step, and `GcBits` ties the colors to the bits of the mark byte.

**The code generator for boolean expressions** (modules `Lua...`). `LuaVm` gives the meaning of code that has
pending jumps, `LuaMachine` the interpreter loop. `LuaCode` specifies the generator on lists of jumps;
`LuaEmit` to `LuaCorrect` prove that what it emits computes the value of the expression. `LuaFuncState` is the
generator as it works: one code array through which the lists of pending jumps are threaded, updated in
place. It is proved to do what `LuaCode` says, to conserve pending jumps exactly (`Moved`: no jump that
somebody else holds is touched, and none is lost or left over), and to fail exactly when `LuaFits` says. `LuaFrame` proves that the code stays inside the stack frame it declares. `LuaParser` is the operator-precedence parser with a minimal printer.

**Upvalues, ephemerons and small allocators.** `Upvalues` and `UpvalLists` (shared variables, from linked
lists), `Ephemerons` (convergence to the least fixed point), `LuaRef` (references with a free list inside
the table), `FbByte` (the floating-point byte), `IdAlloc` (ids with wrap-around).

**The RPC stack.** `RpcProtocol` is the protocol as a state machine over requestors, proxy, providers, task
threads and a network that may lose messages; `RpcPeers` has the handlers as classes, and `RpcSystem` puts
the objects together and proves that whatever they do is a step of the protocol. `RpcTasks` is the task
queue with its condition variable, `Registry` the proxy's name registry,
`Codec` and `Channel` framing, send queue and reassembly, `Md5Spec`, `Md5Block`, `Md5` the hash against
RFC 1321, and `Md5Vectors` two values of its appendix A.5.

## Results that are not plain confirmations

- **Sweep completeness** does not hold as it stands: a string or an open upvalue that is dead after the flip
  can be looked up again before it is swept, and is then revived. `GcRevival.DeadStringRevived` is such a run,
  and `GcComplete.SweepExact` is the exact condition.
- **The registry** keeps the entry of an id exactly if its last login was under the empty name
  (`Registry.StaleExactly`), because that name also stands for "not logged in"; `Registry.EmptyNameStays` is a run.
- **The send queue** is blocked for good as soon as its first buffer is empty, and only then
  (`Channel.StuckExactly`, `StuckForever`, `DrainsExactly`); `EmptyBufferSticks` is a run. Frames are never empty.
- **The floating-point byte** rounds up correctly exactly up to 0x78000000 (`FbByte.RoundUp`).
- **The constant table** may hold a constant twice: the number 0 and the string of its bytes share a key
  (`LuaCode.ZeroTwice`); `LuaCode.EnteredOnce` is the exact condition.
- **Decoding** rejects short payloads; `Codec.DecodeEncode` is the exact condition.

## Model

| member | source | states |
|---|---|---|
| `GcRun.RunSafe` | 3rd/lua-5.2.3/src/lgc.c:999-1103 | in every state of every run of mutator and collector steps from a new state, whatever the mutator can reach, also through a prototype's cache, is allocated and not about to be freed |
| `GcRun.RunTriColor` | 3rd/lua-5.2.3/src/lgc.h:14-25 | in every run, while marking, no black object refers to a white one, and every gray object is on exactly one gray list once, or is an open upvalue |
| `GcRun.StepInv` | 3rd/lua-5.2.3/src/lgc.c:1040-1103 | every enabled mutator step (allocation, interning and fixing of strings, barriered and unbarriered stores, closure creation, upvalue closing, root changes) and every collector step keeps the invariant |
| `GcRun.InitInv` | 3rd/lua-5.2.3/src/lstate.c:266-303 | the invariant holds of a new state |
| `GcRun.CollectKeeps` | 3rd/lua-5.2.3/src/lgc.c:1040-1103 | no collector step, in whatever phase, frees or changes a strongly reachable object or cuts a strong path to it |
| `GcRun.SweepStep` | 3rd/lua-5.2.3/src/lgc.c:719-767 | a collector step of a sweep phase frees dead objects only, turns live ones to the current white, and changes no value |
| `GcComplete.SweepExact` | 3rd/lua-5.2.3/src/lgc.c:719-767 | an object that is dead after the flip is freed before the collector rests if and only if the mutator never looks it up, in the string table or among the open upvalues, while it is dead |
| `GcComplete.SweepKeepsLive` | 3rd/lua-5.2.3/src/lgc.c:212-224 | what is live during a sweep, in particular what is created during it, is not freed before the collector rests |
| `GcComplete.SweepStepFair` | 3rd/lua-5.2.3/src/lgc.c:936-946 | one step during a sweep: what is freed was dead, nothing dies, dead objects are freed, revived or stay dead, and what is revived is live |
| `GcComplete.CaptureAllCalm` | 3rd/lua-5.2.3/src/lvm.c:401-417 | capturing variables while a sweep is on revives exactly the dead open upvalues that the searches find |
| `GcRevival.DeadStringRevived` | 3rd/lua-5.2.3/src/lstring.c:133-150 | a concrete run from the start: a string is dead after the flip and looking it up makes it live, so that plain sweep completeness is false |
| `GcExact.FullCycleExact` | 3rd/lua-5.2.3/src/lgc.c:1040-1103 | a collection cycle without mutator steps keeps exactly the strongly reachable and the fixed objects |
| `GcExact.FullCycleEnds` | 3rd/lua-5.2.3/src/lgc.c:1110-1113 | from every resting state some number of collector steps completes a cycle |
| `GcExact.SweepEnds` | 3rd/lua-5.2.3/src/lgc.c:1068-1100 | from every state of a sweep some number of collector steps leads to rest |
| `GcExact.SweepProgress` | 3rd/lua-5.2.3/src/lgc.c:1068-1100 | every collector step brings a sweep closer to its end, and no mutator step moves it back |
| `GcCycle.AtomicCompletes` | 3rd/lua-5.2.3/src/lgc.c:999-1037 | at the end of the atomic phase the marked objects contain the roots and are closed under references |
| `GcCycle.FlipLiveClosed` | 3rd/lua-5.2.3/src/lgc.c:999-1037 | after the flip exactly the unmarked objects that are not fixed are dead, and no live object or root refers to a dead one |
| `GcCycle.PropagateKeeps` | 3rd/lua-5.2.3/src/lgc.c:521-563 | blackening a gray object keeps the marking invariant |
| `GcCycle.RemarkUpvalsCovers` | 3rd/lua-5.2.3/src/lgc.c:324-332 | after the upvalues are marked again, no gray open upvalue shows a white value |
| `GcMark.ReallyMarkMarks` | 3rd/lua-5.2.3/src/lgc.c:243-295 | marking turns white objects gray or black only; what it blackens refers to nothing white, everything else it marks is on the gray list |
| `GcState.ReachableLive` | 3rd/lua-5.2.3/src/lgc.c:719-752 | if no live object refers to a dead one then everything reachable is live |
| `GcStep.SingleStepInv` | 3rd/lua-5.2.3/src/lgc.c:1040-1103 | every collector step keeps the invariant, in every phase |
| `GcSweep.SweepGcSweeps` | 3rd/lua-5.2.3/src/lgc.c:719-752 | a bounded piece of the sweep of the object list keeps the sweep invariant, sweeps only, and moves the cursor by the number of objects asked for |
| `GcSweep.SweepBucketSweeps` | 3rd/lua-5.2.3/src/lgc.c:1068-1076 | sweeping a string bucket frees its dead strings only and leaves all others with the current white |
| `GcSweep.SweepsLive` | 3rd/lua-5.2.3/src/lgc.c:719-752 | sweeping leaves exactly the live objects live |
| `GcSweep.SweepMainRests` | 3rd/lua-5.2.3/src/lgc.c:1087-1100 | after the main thread is swept every object has the current white and the collector may rest |
| `GcSurgery.CloseWf` | 3rd/lua-5.2.3/src/lfunc.c:89-107 | closing an upvalue keeps the lists and ownership in order and changes no value that any object shows |
| `GcBarrier.BarrierInv` | 3rd/lua-5.2.3/src/lgc.c:135-161 | a store that broke the marking invariant at one object is repaired by its barrier; the barrier does nothing while the collector rests |
| `GcOps.SetSlotInv` | 3rd/lua-5.2.3/src/lgc.h:127-141 | a store into a table, closure, userdata or closed upvalue followed by its barrier keeps the invariant in every phase; afterwards the object shows the value at that index and what it showed at all others, grows only at its end, and everything else is as it was |
| `GcOps.SetOpenUpvalInv` | 3rd/lua-5.2.3/src/lvm.c:595-599 | a store through an open upvalue keeps the invariant although the value lands in a stack; afterwards the upvalue and its stack slot show the value, and nothing else has changed |
| `GcOps.NewObjInv` | 3rd/lua-5.2.3/src/lgc.c:212-224 | creating an object in any phase keeps the invariant |
| `GcOps.InternInv` | 3rd/lua-5.2.3/src/lstring.c:133-150 | finding a string in the string table, also a dead one, keeps the invariant |
| `GcOps.ResurrectInv` | 3rd/lua-5.2.3/src/lstring.c:144-146 | an object that refers to live objects only may be revived |
| `GcOps.FindUpvalInv` | 3rd/lua-5.2.3/src/lfunc.c:47-72 | finding or creating the upvalue of a slot, at its place in the sorted list, keeps the invariant and yields a live upvalue of that slot, also if the one found was dead |
| `GcOpen.FindOpenMisses` | 3rd/lua-5.2.3/src/lfunc.c:52-62 | on a sorted list the search that stops at the first upvalue not above the level misses none, and stops where a new one belongs |
| `GcOps.FixInv` | 3rd/lua-5.2.3/src/lstring.h:22 | a live string may be fixed in every phase |
| `GcExact.FixedForever` | 3rd/lua-5.2.3/src/lstring.h:22 | a string that was fixed is never freed, in any run of mutator and collector steps |
| `GcView.FixedEverAfter` | 3rd/lua-5.2.3/src/lstring.h:22 | in every run, a string that some step has fixed is allocated in every later state |
| `GcOps.CloseHeadInv` | 3rd/lua-5.2.3/src/lgc.c:190-204 | closing an upvalue keeps the invariant in every phase, with its color corrected |
| `GcOps.BarrierProtoInv` | 3rd/lua-5.2.3/src/lgc.c:172-184 | the prototype barrier keeps the invariant and makes room for a new cached closure |
| `GcOps.SetCacheInv` | 3rd/lua-5.2.3/src/lgc.c:172-184 | setting a prototype's weak cache after its barrier keeps the invariant |
| `GcOps.PushClosureInv` | 3rd/lua-5.2.3/src/lvm.c:401-417 | creating a closure, capturing its upvalues and caching it keeps the invariant |
| `GcOps.PushClosureHolds` | 3rd/lua-5.2.3/src/lvm.c:401-417 | the new closure holds its prototype and then, in the order of its captures, the upvalues of the enclosing closure or the open upvalues of the stack slots; it is on the top of the stack and is the cache of the prototype |
| `GcOps.NewObjCreates` | 3rd/lua-5.2.3/src/lgc.c:212-224 | a new object has the kind asked for and no collectable value, and its reference is on the top of the stack; nothing else has changed |
| `GcEffects.OneUpvalPerSlot` | 3rd/lua-5.2.3/src/lfunc.c:47-72 | no two open upvalues share a stack slot |
| `GcView.StepEffect` | 3rd/lua-5.2.3/src/lgc.c:999-1103 | in whatever phase of the collector it is taken, every enabled step of the mutator does to the objects, values and roots that a program sees what it is meant to do, and nothing else |
| `GcView.CloseCloses` | 3rd/lua-5.2.3/src/lfunc.c:89-107 | closing takes the upvalue off the list of its thread; unless it was dead it owns the value it showed, and every object that is left shows what it showed |
| `GcOps.RootsInv` | 3rd/lua-5.2.3/src/lgc.c:337-346 | roots may be redirected to live objects at any time without a barrier |
| `GcBits.ColorTests` | 3rd/lua-5.2.3/src/lgc.h:86-119 | the three tests on the color bits tell white, gray and black apart |
| `GcBits.DeadTest` | 3rd/lua-5.2.3/src/lgc.h:110-112 | the one-expression death test is true exactly of the other white without the fixed bit |
| `GcBits.Flip` | 3rd/lua-5.2.3/src/lgc.h:110 | the flip exchanges the two whites |
| `GcBits.ColorChanges` | 3rd/lua-5.2.3/src/lgc.c:58-63 | the color changing macros do to the represented color what they say, and keep the fixed bit |
| `GcBits.DeadBytes` | 3rd/lua-5.2.3/src/lgc.h:110-112 | for bytes that represent the colors of a state, the test on the bytes is the death predicate of all results above |
| `GcCollector.GlobalState.constructor` | 3rd/lua-5.2.3/src/lstate.c:266-303 | a new state satisfies the invariant |
| `GcCollector.GlobalState.ReallyMarkObject` | 3rd/lua-5.2.3/src/lgc.c:243-295 | marks in place what the specification marks |
| `GcCollector.GlobalState.MarkValues` | 3rd/lua-5.2.3/src/lgc.c:486-493 | the traversal loop marks every value in turn |
| `GcCollector.GlobalState.PropagateOne` | 3rd/lua-5.2.3/src/lgc.c:521-563 | takes the first gray object, colors it and marks what it holds |
| `GcCollector.GlobalState.PropagateGrays` | 3rd/lua-5.2.3/src/lgc.c:566-568 | empties the gray list; the loop ends because white objects or gray entries get fewer |
| `GcCollector.GlobalState.RestartCollection` | 3rd/lua-5.2.3/src/lgc.c:337-346 | clears the gray lists and marks the roots |
| `GcCollector.GlobalState.RemarkOpenUpvals` | 3rd/lua-5.2.3/src/lgc.c:324-332 | marks the values of all gray open upvalues |
| `GcCollector.GlobalState.AtomicPhase` | 3rd/lua-5.2.3/src/lgc.c:999-1037 | marks again, propagates, visits what barriers caught, and flips the white |
| `GcCollector.GlobalState.IsDead` | 3rd/lua-5.2.3/src/lgc.h:110-112 | the test used by the sweep is the death predicate |
| `GcCollector.GlobalState.CloseUpvals` | 3rd/lua-5.2.3/src/lfunc.c:89-107 | the closing loop: dead upvalues are freed, the others get their value and go to the object list |
| `GcCollector.GlobalState.SweepThread` | 3rd/lua-5.2.3/src/lgc.c:698-707 | sweeps the open upvalues of a thread |
| `GcCollector.GlobalState.SweepOne` | 3rd/lua-5.2.3/src/lgc.c:719-752 | one round: frees a dead object, a thread with its upvalues, or whitens a live one |
| `GcCollector.GlobalState.SweepList` | 3rd/lua-5.2.3/src/lgc.c:719-752 | sweeps at most the given number of objects from the cursor |
| `GcCollector.GlobalState.SweepSomeStrings` | 3rd/lua-5.2.3/src/lgc.c:1068-1076 | sweeps at most the given number of string buckets |
| `GcCollector.GlobalState.SweepHeadToLive` | 3rd/lua-5.2.3/src/lgc.c:758-767 | sweeps until one object at the head is live, so that new objects do not move the cursor |
| `GcCollector.GlobalState.StartSweep` | 3rd/lua-5.2.3/src/lgc.c:936-946 | sets both sweep cursors for the coming sweep |
| `GcCollector.GlobalState.Step` | 3rd/lua-5.2.3/src/lgc.c:1040-1103 | one collector step in place is the specified step, and keeps the invariant |
| `GcCollector.GlobalState.NewObject` | 3rd/lua-5.2.3/src/lgc.c:212-224 | allocates at the head of the right list with the current white, and keeps the invariant; the object is as asked for and on the top of the stack, and nothing else has changed |
| `GcCollector.GlobalState.BarrierForwardTo` | 3rd/lua-5.2.3/src/lgc.c:135-149 | marks the value while marking, and sweeps the object otherwise |
| `GcCollector.GlobalState.Store` | 3rd/lua-5.2.3/src/lvm.c:154-158 | a store with the barrier its kind of object needs keeps the invariant; the value is at that index, the object keeps its other values, and every other object, the roots and the lists are as they were |
| `GcCollector.GlobalState.FindUpvalue` | 3rd/lua-5.2.3/src/lfunc.c:47-72 | the search loop returns a live upvalue of the slot, reviving it or creating it, and keeps the invariant |
| `LuaMachine.ReturnCorrect` | 3rd/lua-5.2.3/src/lcode.c:813-859 | for every expression of locals, constants, comparisons, `not`, `and` and `or`, the instruction interpreter started on the compiled function reaches RETURN with the value of the expression in the returned register, or raises an error exactly when the expression does |
| `LuaMachine.StoreCorrect` | 3rd/lua-5.2.3/src/lcode.c:468-489 | for every such expression, compiled after any code, the code left by exp2reg puts its value into the target register, keeps every other register in use, and fails exactly when the expression does; runs that end elsewhere are untouched |
| `LuaCorrect.CompileOk` | 3rd/lua-5.2.3/src/lcode.c:786-859 | the descriptor left for an expression delivers its value: in a register, as a constant, as a comparison or at the jumps of its two lists |
| `LuaCorrect.LogicCompiled` | 3rd/lua-5.2.3/src/lcode.c:786-829 | `and` and `or`: the jumps of the first operand deliver its value, and otherwise the second operand is the value |
| `LuaCorrect.RelCompiled` | 3rd/lua-5.2.3/src/lcode.c:746-759 | comparisons: both operands keep their values until the comparison, which decides as the operator says |
| `LuaCorrect.CompOk` | 3rd/lua-5.2.3/src/lcode.c:746-759 | the comparison emitted for two operands decides as the operator says, also when it exchanges or negates |
| `LuaJoin.Exp2RegDelivers` | 3rd/lua-5.2.3/src/lcode.c:468-489 | whichever way a descriptor delivers its value, exp2reg leads it into the register, and the lists of others are kept |
| `LuaJoin.JoinOk` | 3rd/lua-5.2.3/src/lcode.c:468-489 | after both lists are patched, every jump of either arrives here with the value it carries in the register |
| `LuaSem.DischargeLoads` | 3rd/lua-5.2.3/src/lcode.c:421-457 | discharging a descriptor loads its value into the register and changes nothing else |
| `LuaCond.GoIfTrueOk` | 3rd/lua-5.2.3/src/lcode.c:621-642 | the run goes on exactly if the value is true, and otherwise stops at a jump of the false list that carries the value |
| `LuaCond.GoIfFalseOk` | 3rd/lua-5.2.3/src/lcode.c:645-665 | the run goes on exactly if the value is false, and otherwise stops at a jump of the true list that carries the value |
| `LuaCond.JumpOnCondOk` | 3rd/lua-5.2.3/src/lcode.c:606-618 | the test jumps exactly if the value has the given truth, also when a NOT just emitted is taken back |
| `LuaCond.InvertOk` | 3rd/lua-5.2.3/src/lcode.c:598-603 | inverting a comparison negates its value and changes nothing else |
| `LuaNot.CodeNotOk` | 3rd/lua-5.2.3/src/lcode.c:668-700 | the descriptor left by codenot delivers the negation of the value, over all ways it can arrive |
| `LuaNot.DropRun` | 3rd/lua-5.2.3/src/lcode.c:144-147 | removing the values of the tests before pending jumps changes no run |
| `LuaOperand.NextRegOk` | 3rd/lua-5.2.3/src/lcode.c:492-497 | the value goes to the next free register, which is then held |
| `LuaOperand.AnyRKOk` | 3rd/lua-5.2.3/src/lcode.c:500-511 | the value is available in some register |
| `LuaOperand.Exp2RKOk` | 3rd/lua-5.2.3/src/lcode.c:528-555 | the value is available as a register or constant operand |
| `LuaEmit.EmitSimple` | 3rd/lua-5.2.3/src/lcode.c:212-224 | an instruction emitted after any code with pending jumps to here acts on every run that arrives |
| `LuaEmit.DischargeRun` | 3rd/lua-5.2.3/src/lcode.c:163-166 | fixing the jumps to here changes no run |
| `LuaEmit.CondJumpRun` | 3rd/lua-5.2.3/src/lcode.c:74-77 | a test and its jump: the run stops at the new jump or goes on |
| `LuaEmit.EmitNilRun` | 3rd/lua-5.2.3/src/lcode.c:37-56 | loading nil, also by extending a LOADNIL before, clears the register and changes nothing else |
| `LuaVm.RunAppend` | 3rd/lua-5.2.3/src/lopcodes.h:165-253 | appended code is reached exactly where the old code ended |
| `LuaVm.RunPatch` | 3rd/lua-5.2.3/src/lcode.c:150-160 | after a list is patched, runs end as before except that a patched jump is taken, with the value of its test in the register |
| `LuaMachine.RunCycles` | 3rd/lua-5.2.3/src/lvm.c:502-508 | a run over forward code is what the interpreter loop does instruction by instruction |
| `LuaMono.MonoCompile` | 3rd/lua-5.2.3/src/lcode.c:813-859 | constants, stack size and code only grow while an expression is compiled |
| `LuaFrame.ReturnInFrame` | 3rd/lua-5.2.3/src/lcode.c:261-274 | for every expression over its parameters, every register that an instruction of the compiled function names is below the stack size it declares, and that size is at most two or what the nesting of comparisons needs above the parameters; no constant is in its table twice, unless the number 0 and the string of its bytes both are |
| `LuaFrame.StoreInFrame` | 3rd/lua-5.2.3/src/lcode.c:261-274 | compiling any expression into a register after any code that fits into its frame leaves code that does, with the same registers in use and a stack size that grows by no more than the expression needs |
| `LuaFrame.CompileBelow` | 3rd/lua-5.2.3/src/lparser.c:1591-1592 | from a function that fits into its frame every expression leads to one that does: the registers in use are at least the local variables and at most the stack size, and are the same before and after |
| `LuaFrame.FrameSuffices` | 3rd/lua-5.2.3/src/ldo.c:340-346 | on the machine, however far a compiled function runs, no register outside its frame is written, and what is there makes no difference |
| `LuaJumpList.ListUnique` | 3rd/lua-5.2.3/src/lcode.c:100-106 | a list threaded through the code has exactly one sequence of nodes |
| `LuaJumpList.Linked` | 3rd/lua-5.2.3/src/lcode.c:198-209 | redirecting the last link of one list to the head of another appends them |
| `LuaJumpList.ErasePatch` | 3rd/lua-5.2.3/src/lcode.c:150-160 | patching the threaded code patches the code without links, and leaves every other pending jump as it was |
| `LuaJumpList.NeedsValue` | 3rd/lua-5.2.3/src/lcode.c:122-128 | the walk finds whether some jump of the list carries no value |
| `LuaFuncState.FuncState.constructor` | 3rd/lua-5.2.3/src/lparser.c:527-552 | a new function has no code and no pending jumps |
| `LuaFuncState.FuncState.FixJump` | 3rd/lua-5.2.3/src/lcode.c:80-87 | stores the offset, and fails exactly if it does not fit |
| `LuaFuncState.FuncState.Concat` | 3rd/lua-5.2.3/src/lcode.c:198-209 | the result holds exactly the nodes of both lists, in order; nothing but links of the first list changes; it fails exactly if the new link does not fit |
| `LuaFuncState.FuncState.PatchTestReg` | 3rd/lua-5.2.3/src/lcode.c:131-141 | retargets the test before a jump or turns it into a plain test, and tells whether it carried a value |
| `LuaFuncState.FuncState.PatchListAux` | 3rd/lua-5.2.3/src/lcode.c:150-160 | every node of the list goes once to its value or default target and no other instruction changes; the walk ends although links run both ways |
| `LuaFuncState.FuncState.RemoveValuesOf` | 3rd/lua-5.2.3/src/lcode.c:144-147 | every test before a node of the list stops delivering its value, and nothing else changes |
| `LuaFuncState.FuncState.DischargeJpc` | 3rd/lua-5.2.3/src/lcode.c:163-166 | the jumps to here are fixed to the current position and no longer pending; all other lists are kept |
| `LuaFuncState.FuncState.Code` | 3rd/lua-5.2.3/src/lcode.c:212-224 | fixes the jumps to here and appends the instruction |
| `LuaFuncState.FuncState.Jump` | 3rd/lua-5.2.3/src/lcode.c:59-66 | a new pending jump with the jumps to here behind it |
| `LuaFuncState.FuncState.CondJumpTo` | 3rd/lua-5.2.3/src/lcode.c:74-77 | a test and a new pending jump |
| `LuaFuncState.FuncState.GetLabel` | 3rd/lua-5.2.3/src/lcode.c:94-97 | the current position becomes a jump target |
| `LuaFuncState.FuncState.PatchHere` | 3rd/lua-5.2.3/src/lcode.c:192-195 | the list joins the jumps to here |
| `LuaFuncState.FuncState.CodeNil` | 3rd/lua-5.2.3/src/lcode.c:37-56 | extends a LOADNIL next to the register or emits one |
| `LuaFuncState.FuncState.CodeK` | 3rd/lua-5.2.3/src/lcode.c:250-258 | loads a constant, in two instructions if its index is large |
| `LuaFuncState.FuncState.AddConstant` | 3rd/lua-5.2.3/src/lcode.c:291-316 | the constant is at the index returned, old constants keep their indices, and it is entered twice exactly if its twin was filed in its place |
| `LuaCode.EnteredOnce` | 3rd/lua-5.2.3/src/lcode.c:291-338 | a constant enters the table a second time if and only if it is there and the other constant with the same key, of the number 0 and the string of its eight bytes, is behind it |
| `LuaCode.ZeroTwice` | 3rd/lua-5.2.3/src/lcode.c:301-302 | 0, the string of its bytes and 0 again leave 0 in the table twice |
| `LuaFuncState.FuncState.ReserveReg` | 3rd/lua-5.2.3/src/lcode.c:261-274 | reserves a register, and fails exactly if the function would need too many |
| `LuaFuncState.FuncState.FreeReg` | 3rd/lua-5.2.3/src/lcode.c:285-288 | frees the register of a temporary |
| `LuaFuncState.FuncState.DischargeToReg` | 3rd/lua-5.2.3/src/lcode.c:421-457 | in place what the discharge function does, with the lists of the descriptor kept |
| `LuaFuncState.FuncState.CodeLabel` | 3rd/lua-5.2.3/src/lcode.c:415-418 | a labelled boolean load |
| `LuaFuncState.FuncState.CodeBooleans` | 3rd/lua-5.2.3/src/lcode.c:474-481 | loads of false and true that values without a register jump to |
| `LuaFuncState.FuncState.JoinLists` | 3rd/lua-5.2.3/src/lcode.c:472-486 | both lists are patched and no longer pending; all other lists are kept |
| `LuaFuncState.FuncState.ExpToReg` | 3rd/lua-5.2.3/src/lcode.c:468-489 | in place what exp2reg does; no pending jump is lost or left over |
| `LuaFuncState.FuncState.ExpToNextReg` | 3rd/lua-5.2.3/src/lcode.c:492-497 | in place what the specification does, with exact conservation of pending jumps |
| `LuaFuncState.FuncState.ExpToAnyReg` | 3rd/lua-5.2.3/src/lcode.c:500-511 | in place what the specification does, with exact conservation of pending jumps |
| `LuaFuncState.FuncState.ExpToRK` | 3rd/lua-5.2.3/src/lcode.c:528-555 | in place what the specification does; the result is an operand without jumps |
| `LuaFuncState.FuncState.Invert` | 3rd/lua-5.2.3/src/lcode.c:598-603 | inverts the comparison before the jump |
| `LuaFuncState.FuncState.DischargeToAnyReg` | 3rd/lua-5.2.3/src/lcode.c:460-465 | in place what the specification does |
| `LuaFuncState.FuncState.JumpOn` | 3rd/lua-5.2.3/src/lcode.c:606-618 | takes back a NOT or tests a register, and leaves one new pending jump |
| `LuaFuncState.FuncState.Part` | 3rd/lua-5.2.3/src/lcode.c:634-641 | the new jump goes to the end of one list, the other list comes here |
| `LuaFuncState.FuncState.GoTrue` | 3rd/lua-5.2.3/src/lcode.c:621-642 | in place what the specification does; the true list comes here |
| `LuaFuncState.FuncState.GoFalse` | 3rd/lua-5.2.3/src/lcode.c:645-665 | in place what the specification does; the false list comes here |
| `LuaFuncState.FuncState.Flip` | 3rd/lua-5.2.3/src/lcode.c:668-694 | negates the value of the descriptor |
| `LuaFuncState.FuncState.Negate` | 3rd/lua-5.2.3/src/lcode.c:668-700 | exchanges the two lists, whose tests lose their values |
| `LuaFuncState.FuncState.CodeTest` | 3rd/lua-5.2.3/src/lcode.c:746-759 | exchanges the operands where the operator needs it, and emits the test and its pending jump |
| `LuaFuncState.FuncState.Compare` | 3rd/lua-5.2.3/src/lcode.c:746-759 | emits the comparison of two operands and its pending jump |
| `LuaFuncState.FuncState.CompileExpr` | 3rd/lua-5.2.3/src/lparser.c:1037-1064 | drives the generator over an expression; it leaves exactly the pending jumps of its descriptor, and succeeds if and only if the registers suffice and every offset fits |
| `LuaCompiler.CompileFunction` | 3rd/lua-5.2.3/src/lcode.c:813-859 | the code compiled in place, with all links resolved and all offsets in range, is the code that ReturnCorrect speaks about; compilation succeeds if and only if the registers suffice and every link and target on the way fits into its jump, in particular for all code shorter than the longest jump; every register it names is below the stack size it returns |
| `LuaParser.RoundTrip` | 3rd/lua-5.2.3/src/lparser.c:1037-1064 | printing any operator tree with parentheses only where the priorities need them and parsing it returns the tree and stops at the first operator not above the limit, if and only if the nesting limit suffices |
| `LuaParser.ParensNeeded` | 3rd/lua-5.2.3/src/lparser.c:1019-1030 | where the printer writes parentheses, the text without them is not read as the same tree |
| `LuaParser.OperatorsGroup` | 3rd/lua-5.2.3/src/lparser.c:1019-1030 | for all operators, `a p b q c` is read as `a p (b q c)` if q is on a higher level than p, or on the same and that level groups to the right, and else as `(a p b) q c`, where the levels are: or; and; comparisons; concatenation; + and -; *, / and %; unary; power |
| `LuaParser.UnaryGroups` | 3rd/lua-5.2.3/src/lparser.c:1019-1030 | for all operators, `u a p b` is read as `u (a p b)` if p is the power and else as `(u a) p b`, and `a p u b` as `a p (u b)` |
| `LuaParser.EveryOperatorListed` | 3rd/lua-5.2.3/src/lparser.c:987-1016 | every binary and unary operator is on one of these levels |
| `LuaParser.Parser.SubExpr` | 3rd/lua-5.2.3/src/lparser.c:1037-1064 | the loop reads the specified tree and returns the first untreated operator, or fails exactly where the specification does |
| `LuaParser.Parser.SimpleExp` | 3rd/lua-5.2.3/src/lparser.c:877-896 | reads an atom or a parenthesized expression |
| `LuaParser.Parser.Expr` | 3rd/lua-5.2.3/src/lparser.c:1067-1069 | with some C levels in use, a printed tree is read back as that tree if it needs no more levels than are left, and rejected otherwise |
| `LuaRef.RefsKept` | 3rd/lua-5.2.3/src/lauxlib.c:522-551 | after every sequence of references and single releases on a private table, live references keep their values, the free entries form one chain from index 0, and the table is dense when the chain is empty |
| `LuaRef.RefsFresh` | 3rd/lua-5.2.3/src/lauxlib.c:522-540 | a reference handed out is not in use, and all live ones keep their values |
| `LuaRef.RefsTight` | 3rd/lua-5.2.3/src/lauxlib.c:522-540 | a reference handed out is at most the number of references that were ever live at once, so released ones are used again |
| `LuaRef.Dense` | 3rd/lua-5.2.3/src/lauxlib.c:522-540 | with no free entry every border of the table is its size, so size plus one is unused |
| `LuaRef.UnrefInv` | 3rd/lua-5.2.3/src/lauxlib.c:543-551 | releasing a live reference puts it in front of the chain and keeps the others |
| `LuaRef.Registry.RawLen` | 3rd/lua-5.2.3/src/lauxlib.c:535 | counts up to a border |
| `LuaRef.Registry.Ref` | 3rd/lua-5.2.3/src/lauxlib.c:522-540 | nil gets the fixed reference and changes nothing; other values take the first free entry or a new one |
| `LuaRef.Registry.Unref` | 3rd/lua-5.2.3/src/lauxlib.c:543-551 | links the entry into the chain; negative references change nothing |
| `FbByte.RoundUp` | 3rd/lua-5.2.3/src/lobject.c:36-52 | decoding the encoded size gives the least representable value not below it, if and only if the size is at most 0x78000000 |
| `FbByte.SqueezeCeil` | 3rd/lua-5.2.3/src/lobject.c:36-44 | the repeated rounding halvings are one division that rounds up |
| `FbByte.AboveLimit` | 3rd/lua-5.2.3/src/lobject.c:48-52 | no byte stands for a value between the limit and the largest int |
| `FbByte.IntToFb` | 3rd/lua-5.2.3/src/lobject.c:36-44 | the loop computes the specified byte |
| `Upvalues.UpvaluesShare` | 3rd/lua-5.2.3/src/lfunc.c:47-107 | in every run of captures, closings, reads and writes, a thread implements shared variables, and its open list is strictly descending by level |
| `Upvalues.ReadsAgree` | 3rd/lua-5.2.3/src/lfunc.c:47-107 | what any closure reads in any run is the value of the shared variable |
| `Upvalues.FindImplements` | 3rd/lua-5.2.3/src/lfunc.c:47-72 | capturing a slot twice yields the same variable, capturing a new one yields a new variable |
| `Upvalues.CloseSpec` | 3rd/lua-5.2.3/src/lfunc.c:89-107 | closing keeps what every upvalue shows and leaves open just those below the level |
| `Upvalues.SearchFinds` | 3rd/lua-5.2.3/src/lfunc.c:47-72 | the search that stops at the first upvalue not above the level misses none |
| `UpvalLists.Thread.FindUpval` | 3rd/lua-5.2.3/src/lfunc.c:47-72 | walks the linked list, and finds or links the upvalue as specified |
| `UpvalLists.Thread.Insert` | 3rd/lua-5.2.3/src/lfunc.c:64-71 | links a new upvalue into the list and the ring |
| `UpvalLists.Thread.LinkRing` | 3rd/lua-5.2.3/src/lfunc.c:67-70 | the doubly linked ring gets the new element in front |
| `UpvalLists.Thread.UnlinkRing` | 3rd/lua-5.2.3/src/lfunc.c:75-79 | the ring loses exactly that element |
| `UpvalLists.Thread.CloseFrom` | 3rd/lua-5.2.3/src/lfunc.c:89-107 | every upvalue of the level and above leaves list and ring with its value |
| `UpvalLists.RingRemove` | 3rd/lua-5.2.3/src/lfunc.c:75-79 | unlinking one element of a ring leaves the ring of the others |
| `Ephemerons.Collector.Converge` | 3rd/lua-5.2.3/src/lgc.c:594-609 | ends, and then exactly the least closed set that contains the given marks is marked: no marked key has an unmarked value, and nothing else is marked |
| `Ephemerons.LeastClosed` | 3rd/lua-5.2.3/src/lgc.c:378-413 | the sets closed under references and ephemeron entries that contain given marks have a least one |
| `Ephemerons.InvClosed` | 3rd/lua-5.2.3/src/lgc.c:594-609 | with nothing gray and every table of the list closed, the marks are closed |
| `Ephemerons.Collector.TraverseEphemeron` | 3rd/lua-5.2.3/src/lgc.c:378-413 | marks the array part and the values of marked keys; a table that is not put back on the list is finished |
| `Ephemerons.Collector.MarkEntries` | 3rd/lua-5.2.3/src/lgc.c:391-405 | reports a mark only if something new is marked, and remembers pairs whose key is still unmarked |
| `Ephemerons.Collector.PropagateMark` | 3rd/lua-5.2.3/src/lgc.c:521-563 | one gray object fewer, or one more marked |
| `Ephemerons.Collector.PropagateAll` | 3rd/lua-5.2.3/src/lgc.c:566-568 | ends with nothing gray |
| `Ephemerons.Collector.Round` | 3rd/lua-5.2.3/src/lgc.c:597-608 | a round that reports no change leaves every listed table closed |
| `RpcProtocol.CallbacksOnce` | RpcLib/rpc_service.h:76-163 | with distinct names, in every interleaving of logins, logouts, calls, routing, offline errors, task execution and message loss, every callback runs at most once and only with the reply made for its own request, although ids are reused |
| `RpcProtocol.CallAnswered` | RpcLib/rpc_service.h:76-163 | end to end, in every run: a callback that runs does so at its caller, and its reply is what the function of that name at the peer of that service name makes of the body that was passed to the call, or the error that this peer has no such function or is not online |
| `RpcProtocol.CallSends` | RpcLib/rpc_service.h:89-98 | a call records and sends a request that carries the service, the name and the body as passed, the name of the caller and the id of the callback |
| `RpcProtocol.CallsCanComplete` | RpcLib/rpc_service.h:76-163 | in every run, while the message of a call is not lost and its caller is logged in, the handlers can go on until the callback runs: with the reply of the service if it is logged in, else with the error |
| `RpcProtocol.OneMessagePerSlot` | RpcLib/rpc_service.h:76-98 | at most one message in the system belongs to an outstanding callback id of a requestor |
| `RpcProtocol.RepliesFinal` | RpcLib/rpc_service.h:116-149 | a call gets at most one reply; it is made from that request by its handler or by the proxy, and never changes |
| `RpcProtocol.StepInv` | RpcProxyServer/RpcProxyServer.cpp:27-58 | every step of every participant keeps the protocol invariant |
| `RpcProtocol.LookupInv` | RpcLib/rpc_service.h:151-163 | the callback found under the id of a response belongs to the call that the response answers |
| `RpcSystem.System.PeersRunOnce` | RpcLib/rpc_service.h:151-163 | whatever the objects have done: at every provider object each callback has run at most once, and with what the peer it called makes of its own request |
| `RpcSystem.StepLocal` | RpcLib/rpc_service.h:76-163 | a step changes nothing for the other peers, and nothing that is queued gets lost |
| `RpcSystem.System.LogIn` | RpcProxyServer/RpcProxyServer.cpp:20-25 | what the login handler does to the connection manager is the login step of the protocol |
| `RpcSystem.System.Disconnect` | RpcProxyServer/RpcProxyServer.cpp:95-102 | what the disconnect handler does is the logout step, also for peers that are not registered and for the empty name |
| `RpcSystem.System.CallService` | RpcLib/rpc_service.h:76-98 | filing the callback and sending the request is the call step; the message sent is the packet of the call and carries the service, the caller, the id, the name and the body as passed |
| `RpcSystem.System.ProxyReceive` | RpcProxyServer/RpcProxyServer.cpp:27-58 | what the proxy handlers do with a message is the routing step; what they send is the packet that travels on |
| `RpcSystem.System.ReceiveRequest` | RpcLib/rpc_service.h:116-149 | accepting or ignoring a request is the accept step, with the task queue of the provider |
| `RpcSystem.System.ExecuteTask` | RpcLib/rpc_service.h:122-147 | the task in the hands of the task thread is an accepted request, and answering it is the execution step, with the reply of the registered function or the error |
| `RpcSystem.System.TakeTask` | RpcLib/rpc_task.h:83-95 | taking a task from the queue is no step of the protocol and keeps the agreement |
| `RpcSystem.System.StopTasks` | RpcLib/rpc_task.h:72-80 | clearing the queue only makes requests go unanswered |
| `RpcSystem.System.LookUpCallback` | RpcLib/rpc_service.h:242-250 | the first locked part of a response handler is the lookup step; it always finds the callback of the answered call |
| `RpcSystem.System.RemoveCallback` | RpcLib/rpc_service.h:251-255 | the second locked part is the erasing step |
| `RpcSystem.System.RunFound` | RpcLib/rpc_service.h:161-163 | running the callback is the last step |
| `RpcSystem.System.ReceiveResponse` | RpcLib/rpc_service.h:151-163 | without interference the three parts run the callback of the id once with the result and remove it |
| `RpcSystem.System.LoseMessage` | RpcLib/rpc_service.h:89-98 | a message may get lost on either way |
| `RpcPeers.ProxyServer.HandleRpcRequest` | RpcProxyServer/RpcProxyServer.cpp:27-47 | forwards the request unchanged, or answers the requestor that the service is not online |
| `RpcPeers.ProxyServer.HandleRpcResponse` | RpcProxyServer/RpcProxyServer.cpp:49-58 | forwards the response to its requestor, or drops it |
| `RpcPeers.ProxyServer.HandleMessage` | RpcProxyServer/RpcProxyServer.cpp:60-68 | dispatches to the handler of the kind of message |
| `RpcTasks.TasksInOrder` | RpcLib/rpc_task.h:57-95 | in every interleaving of pushers, one runner and Stop, the tasks started are a prefix of those pushed, and a runner that sleeps without a pending notification has an empty queue and no Stop |
| `RpcTasks.LookStarts` | RpcLib/rpc_task.h:83-95 | in every run, a look while running starts exactly the first task pushed and not yet started, or waits if there is none; after Stop it ends the runner |
| `RpcTasks.AllStarted` | RpcLib/rpc_task.h:64-95 | in every run, two steps of the runner for each waiting task, with no Push and no Stop among them, start every task pushed; after Stop two steps end the runner |
| `RpcTasks.NoLostWakeUp` | RpcLib/rpc_task.h:57-95 | from every state of every run, without Push, Stop and wake-ups that were not notified, the runner can go on until every task is started or, after Stop, until it has ended |
| `RpcTasks.NothingAfterStop` | RpcLib/rpc_task.h:64-95 | after Stop no further task is started |
| `RpcTasks.TaskMgr.PushTask` | RpcLib/rpc_task.h:57-62 | appends and notifies |
| `RpcTasks.TaskMgr.StopAll` | RpcLib/rpc_task.h:72-80 | clears the running flag and the queue, and notifies |
| `RpcTasks.TaskMgr.Pop` | RpcLib/rpc_task.h:83-95 | while running, takes the first task of the queue and starts it, or waits if there is none; gives up after Stop |
| `Registry.RegistryConsistent` | RpcProxyServer/ConnMgr.h:14-53 | in every run, with the lookup and the erasure of a deletion as separate locked steps, the two maps are inverse to each other as far as names are not empty, and the entry of a connection is there exactly from its login to its deletion |
| `Registry.StaleExactly` | RpcProxyServer/ConnMgr.h:45-53 | in every run an id that nobody holds has a name entry if and only if its last login was under the empty name, so such an entry stays until that id logs in under another name |
| `Registry.NamedRuns` | RpcProxyServer/ConnMgr.h:14-53 | if nobody logs in under the empty name, no entry is left for an id that is free to be handed out again |
| `Registry.EmptyNameStays` | RpcProxyServer/ConnMgr.h:45-53 | a concrete run that leaves an entry behind |
| `Registry.ConnMgr.Add` | RpcProxyServer/ConnMgr.h:14-23 | is the login step on the two maps; a name that is taken passes to the new connection |
| `Registry.ConnMgr.NameOf` | RpcProxyServer/ConnMgr.h:25-33 | the name of an id, or the empty name |
| `Registry.ConnMgr.ConnOf` | RpcProxyServer/ConnMgr.h:35-43 | in a consistent registry, exactly the connection that has logged in under the name and is still there |
| `Registry.ConnMgr.EraseEntries` | RpcProxyServer/ConnMgr.h:47-52 | is the erasing step of a deletion, whatever happened to other connections since the lookup |
| `Registry.ConnMgr.Del` | RpcProxyServer/ConnMgr.h:45-53 | is the lookup step followed by the erasing step |
| `IdAlloc.IdsDistinct` | ServerLib/IndexMgr.h:18-45 | in every run, also across the wrap-around of the 32-bit counter, no two holders have the same id |
| `IdAlloc.TakePossible` | ServerLib/IndexMgr.h:18-26 | while an id is free, one is found after at most as many failed probes as there are ids held |
| `IdAlloc.IndexMgr.GetId` | ServerLib/IndexMgr.h:18-26 | returns the first free id from the counter on, within one probe more than there are ids held |
| `IdAlloc.IndexMgr.PutId` | ServerLib/IndexMgr.h:28-35 | the id is free afterwards, and no other changes |
| `Channel.FifoChannel` | ServerLib/TcpConnection.cpp:35-96 | in every run that sends frames, for every cutting of the stream into chunks, the messages dispatched are a prefix of those sent, in order and intact; one write is outstanding exactly while the queue is not empty |
| `Channel.AllDelivered` | ServerLib/TcpConnection.cpp:59-96 | when all bytes have arrived, all messages have been dispatched |
| `Channel.StuckExactly` | ServerLib/TcpConnection.cpp:40-50 | in every run, whatever buffers are sent, the queue waits for a write that was never started if and only if its first buffer is empty |
| `Channel.StuckForever` | ServerLib/TcpConnection.cpp:76-96 | from then on, in every continuation, no buffer is written and no byte is put on the wire |
| `Channel.DrainsExactly` | ServerLib/Socket.cpp:23-29 | in every state of every run, everything sent can still be written if and only if no buffer sent is empty |
| `Channel.EmptyBufferSticks` | ServerLib/TcpConnection.cpp:40-50 | a concrete run that sticks, with a buffer behind the empty one |
| `Channel.StepInv` | ServerLib/TcpConnection.cpp:35-96 | every step of sender, network and receiver keeps the queue and the stream of bytes, whatever is sent |
| `Channel.Connection.RealSendBuffer` | ServerLib/TcpConnection.cpp:40-50 | queues the buffer and starts a write if none is outstanding |
| `Channel.Connection.OnWritten` | ServerLib/TcpConnection.cpp:76-96 | removes the written buffer and starts the next write |
| `Channel.Connection.OnReadChunk` | ServerLib/TcpConnection.cpp:59-74 | parses the kept bytes and the chunk, and keeps what is left |
| `Codec.DecodeEncode` | ServerLib/Codec.h:80-104 | a payload decodes to the message it was made of if and only if the type is known and parses, its name is not empty, and name and body have at least five bytes together; no other message comes out |
| `Codec.DecodeExactly` | ServerLib/Codec.h:80-104 | a buffer decodes to a name and bytes if and only if it has at least ten bytes and holds the length of the non-empty name with its end byte, the name, one byte and the bytes, which parse as that type |
| `Codec.Encode` | ServerLib/Codec.h:29-50 | the frame is the payload behind its length, filled in at the end; nothing if serialization fails |
| `Codec.OnRead` | RpcLib/rpc_service.h:192-209 | hands out the complete messages in order and counts their bytes |
| `Codec.ParseStream` | ServerLib/Dispatcher.h:62-84 | parsing loses no byte and leaves no complete message |
| `Codec.StreamPrefix` | ServerLib/Dispatcher.h:62-84 | a stream can be read in one way only: messages read from its beginning are its first messages |
| `Codec.Le32Inverse` | ServerLib/Codec.h:67-72 | the length read from a header is the length written |
| `Md5.HashPieces` | ServerLib/md5.cpp:24-107 | for every way of cutting a message into updates, the digest is that of sections 3.1 to 3.5 of RFC 1321 |
| `Md5.Context.constructor` | ServerLib/md5.cpp:24-33 | the initial registers of section 3.3 of RFC 1321, nothing taken in |
| `Md5.Context.Update` | ServerLib/md5.cpp:39-72 | whatever was taken in before, the registers and the buffer stand for the longer message |
| `Md5.Context.Count` | ServerLib/md5.cpp:45-47 | the two-word count of bytes, with its carry |
| `Md5.Context.Final` | ServerLib/md5.cpp:78-107 | pads, in one or two blocks, appends the length in bits and gives out the digest |
| `Md5.Carry` | ServerLib/md5.cpp:45-47 | the test for the carry finds every overflow of the low word |
| `Md5.LengthWords` | ServerLib/md5.cpp:100-101 | the length in bits modulo 2^64, from the two words of the byte count |
| `Md5.PaddedBlocks` | ServerLib/md5.cpp:78-101 | the last one or two blocks are those of the padded message |
| `Md5.ByteSwap` | ServerLib/md5.cpp:6-15 | the words of a block, low-order byte first |
| `Md5.OutputAnyHost` | ServerLib/md5.cpp:6-15 | the digest bytes are low-order byte first on hosts of either byte order |
| `Md5Block.Transform` | ServerLib/md5.cpp:128-208 | the 64 written-out steps are the table-driven rounds of section 3.4 of RFC 1321 |
| `Md5Block.StepSame` | ServerLib/md5.cpp:113-122 | one written-out step, with its shortened bit functions, is one step of the table |
| `Md5Vectors.EmptyMessage` | ServerLib/md5.cpp:24-33 | the digest of the empty message is that of appendix A.5 of RFC 1321 |
| `Md5Vectors.AbcMessage` | ServerLib/md5.cpp:128-208 | the digest of "abc" is that of appendix A.5 of RFC 1321 |

## Left out

- Generational mode, finalizers (`finobj`, `tobefnz`) and emergency collections: not part of this model; the
  phase that sweeps userdata with finalizers only passes on.
- Weak-value and all-weak tables, and clearing of weak entries: not part of this model. In the modules `Gc...`
  every table is strong; ephemeron tables are in `Ephemerons`, for the atomic phase only, without mutator steps.
- Collection pacing (debt, estimates, pauses): how much is done per step is a parameter, or free.
- Resizing of the string table and dead keys in tables: not part of this model.
- Addresses of new objects are parameters that are not in use; allocation failure is not modelled.
- Old bits of the mark byte: only `GcBits.ColorChanges` mentions that whitening clears them.
- The reuse of a cached closure (`getcached`): the cache is modelled as a reference the mutator may follow, so
  that safety covers it, but not the comparison of upvalues.
- Expressions other than locals, constants, comparisons, `not`, `and`, `or`: calls, indexing, upvalues,
  varargs, arithmetic and constant folding are not part of this model; neither are statements and gotos.
- Number constants are reals: NaN and negative zero are left out.
- The limit on the number of constants and the packing of instructions into 32 bits are left out; registers,
  offsets and operand indices keep their limits. The A field of JMP, which closes upvalues, is 0 here.
- Equality and order of values, with metamethods, are parameters that depend on the two values only;
  they may fail, and do not change registers.
- LuaMachine.ReturnCorrect: is about functions that need fewer registers than the limit; others are rejected
  by the compiler.
- LuaParser.Parser.SimpleExp: reads atoms and parentheses; other primary expressions count as atoms.
- LuaRef.RefsKept: references are unbounded integers, the source's int could overflow; the table is private,
  and only live references are released.
- Upvalues.UpvaluesShare: which upvalues are garbage is not modelled there, so none is freed.
- RpcProtocol.CallbacksOnce: names of participants are distinct and nobody takes over a name; callback ids are
  addresses that are not reused while the callback object is alive.
- Protobuf serialization is an abstract parameter; the secure key of the login is not checked by the source
  and left out.
- Registry.ConnMgr.Del: is about a call without interference; the two locked parts are `NameOf` and
  `EraseEntries`, and separate steps in the runs of `RegistryConsistent`.
- RpcSystem.System.LogIn: the login message takes effect at once, and the registry of a peer that reconnects
  uses the same connection number.
- Registry.RegistryConsistent: each connection logs in at most once, under a name that no live connection
  holds, and disconnects once; the source does not keep the maps consistent otherwise.
- Channel.FifoChannel: no write errors, and only frames are sent; connections of the proxy, which are shut down
  at 32 KB of buffered data, are below that limit.
- Codec.Encode: the frame is at most the largest 32-bit length, as the source's length field needs.
- Codec.ParseStream: buffers of at most the largest 32-bit length, as the source's `int32` argument has.
- Codec.DecodeEncode: the length of the type name fits in 32 bits.
- IdAlloc.IndexMgr.GetId: some id is free; otherwise the source's loop does not end.
- Md5.Context.Update: one piece is shorter than 2^32 bytes, the range of the source's argument.
- Framing in the other servers (`GenericServer`, both `IoDispatcher`s), timers, logging, configuration, sockets,
  the Lua libraries and the luabind glue are not part of this model.
