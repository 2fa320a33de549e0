# Call and while-loop lowering of the JLang compiler, in Dafny

This project models two pieces of the lowering stage of JLang, an ahead-of-time compiler
from Java to LLVM IR, and proves what they promise.

- **Call lowering** (`JLangCallExt`):
  - the direct-call analysis run at the end of type checking (`determineIfDirect`, `typeCheck`);
  - the choice of function pointer (`buildFuncPtr`): a static symbol, two dependent
    dispatch-vector loads, or a runtime interface lookup;
  - the placeholder translation of a void call;
  - the expansion of a call to a `synchronized` method into a monitor-guarded region
    with its own landing pad (`leaveTranslateLLVM`).
- **While-loop lowering** (`JLangWhileExt.overrideTranslateLLVM`): three blocks, a
  loop-context push and pop, and the control-flow edges between the blocks.

The LLVM builder becomes an immutable `State`. It holds:
- the function's basic blocks;
- the insertion point;
- a register counter;
- the exception-frame stack;
- the loop-context stack;
- the node-to-value translations.

Every LLVM call becomes an append of an abstract `Instr`. Each instruction that can raise
records the landing pad active when it was emitted, which is what LLVM's `invoke` does. A
failing `getTranslation` becomes an `Err` of a `Result`.

To state the monitor-pairing promise, `Paths.Walk` follows the emitted blocks. It takes
unconditional branches, and with `raise` set the first call leaves through its unwind
edge. `Paths.WalkRaisingAt` is the path on which the instruction at a given position
raises, whether it is a call, a monitor-enter or a monitor-exit. `Paths.Events` keeps
the monitor operations, calls and rethrows of a path.

The normal-path monitor-exit is emitted while the region's exception frame is still
pushed (`JLangCallExt.java:78-82`), and the frame is popped only in the landing pad
(`:101`). The model keeps this order. So the normal path's exit is stated as unwinding to
the region's own landing pad, `Exit(lock, Some(lpad))`. The landing pad's exit unwinds
to the landing pad that was active before the expansion. A consequence of the same
order: if the monitor-enter raises, the landing pad exits a monitor that was never
entered, and if the normal-path exit raises, the landing pad exits the monitor a second
time. `SyncPaths.ExpansionMonitorRaises` states both paths.

Modules:
- `Base`: `Option`, `Result`.
- `Ir`: instructions, blocks, builder state, the two stacks, and the `Extends` and
  `ClosedBehind` footprint predicates.
- `CallSites`: call records and the direct-call analysis.
- `Dispatch`: function-pointer construction, plus an evaluator of the emitted address
  computation against an abstract runtime.
- `Paths`: walks and events.
- `SyncPaths`: the layout of a synchronized expansion and the monitor pairing on both
  paths.
- `Calls`: `leaveTranslateLLVM`.
- `Loops`: `overrideTranslateLLVM` and a small statement language for loop bodies.

## Model

All source paths below are under `compiler/src/jlang/extension/`.

| member | source | states |
|---|---|---|
| CallSites.DetermineIfDirect | compiler/src/jlang/extension/JLangCallExt.java:121-151 | The result is the input with `direct` set exactly when it was already set or one of the three rules applies. The node is copied exactly when the flag is newly set on the extension's own node. A call already marked direct is returned as is, uncopied. |
| CallSites.TypeCheck | compiler/src/jlang/extension/JLangCallExt.java:153-157 | The type-checked node is direct exactly when the input was or a rule applies. It differs from the input at most in `direct`. |
| CallSites.DetermineIfDirectIdempotent | compiler/src/jlang/extension/JLangCallExt.java:123 | Re-running the analysis on its own output returns that output unchanged and uncopied. |
| CallSites.DetermineIfDirectMonotone | compiler/src/jlang/extension/JLangCallExt.java:144-150 | The flag is never reset. A call that stays dispatched is returned unchanged and uncopied. |
| CallSites.ClassificationRules | compiler/src/jlang/extension/JLangCallExt.java:127-144 | Each of these alone makes a call direct: static, private or final; a `super` target; a final container class. A call none of them covers stays dispatched and unchanged. |
| CallSites.DetermineIfDirectMonotoneInFlags | compiler/src/jlang/extension/JLangCallExt.java:127-141 | Adding modifiers to the method, or finality to its container, never turns a direct call into a dispatched one. |
| Dispatch.BuildFuncPtr | compiler/src/jlang/extension/JLangCallExt.java:159-177 | A direct call emits nothing and yields the method's static symbol. A dispatched call fails exactly when the receiver has no translation. An interface receiver emits one runtime lookup and no loads. Any other receiver emits exactly two loads and no lookup. Only address computations are emitted, and the stacks and translations are untouched. |
| Dispatch.BuildInstanceMethodPtr | compiler/src/jlang/extension/JLangCallExt.java:179-189 | Fails exactly when the receiver has no translation. Otherwise it appends address computations with exactly two loads and no lookup. |
| Dispatch.BuildInterfaceMethodPtr | compiler/src/jlang/extension/JLangCallExt.java:191-226 | Fails exactly when the receiver has no translation. Otherwise it appends exactly one lookup, which carries the dispatch info's method index, the interface identity and that interface's hash. The last instruction is the cast to a function pointer, which is the result. |
| Dispatch.FuncPtrSelectsDispatchTarget | compiler/src/jlang/extension/JLangCallExt.java:164-175 | Suppose the receiver's translation denotes object `o` at run time. Then evaluating the emitted code yields the call's dispatch target: the static symbol, the slot of `o`'s own dispatch vector, or the runtime lookup's answer for the interface. |
| Dispatch.InstanceRunEvaluates | compiler/src/jlang/extension/JLangCallExt.java:184-188 | The two loads are dependent: the second reads the method's slot in the vector the first one loaded from the receiver. |
| Dispatch.InterfaceRunEvaluates | compiler/src/jlang/extension/JLangCallExt.java:196-225 | The lookup is handed the receiver object, the interface identity, its hash and the method index, and its answer becomes the function pointer. |
| Calls.ReceiverArg | compiler/src/jlang/extension/JLangCallExt.java:228-231 | A non-static call passes the target's translation as its receiver argument, and fails when there is none. The test for a static call, which passes no receiver, stands in for the generic call lowering that calls `buildReceiverArg`; that lowering is not part of this model. |
| Calls.GenericCall | compiler/src/jlang/extension/JLangCallExt.java:113-114 | The generic call step fails exactly when a needed receiver translation is missing. Otherwise it appends address computations and then one call, which unwinds to the landing pad active at that point. A non-void result becomes the call node's translation. |
| Calls.LockValue | compiler/src/jlang/extension/JLangCallExt.java:67-74 | For a static method the lock is a register loaded with the class object of the method's container, and it fails exactly when the container is not a class. Otherwise the lock is the receiver's translation, with nothing emitted, and it fails exactly when that translation is missing. Only non-raising, non-branching instructions are emitted. |
| Calls.SyncRegion | compiler/src/jlang/extension/JLangCallExt.java:76-84 | After the frame push, the region is monitor-enter, the generic call and monitor-exit, all unwinding to the region's landing pad, then a branch to the block after that pad. The frame stays pushed. |
| Calls.RegionOutcome | compiler/src/jlang/extension/JLangCallExt.java:78-84 | The four appends of the protected region, made with the frame pushed, form a protected region whose call result is the node's translation. |
| Calls.SyncLandingPad | compiler/src/jlang/extension/JLangCallExt.java:89-108 | The landing pad extracts the exception and pops exactly one frame. It then exits the monitor under the landing pad left active, rethrows to the captured outer pad, and ends in `unreachable`. |
| Calls.SyncPadFacts | compiler/src/jlang/extension/JLangCallExt.java:100-107 | Since the pop restores the frame stack from before the expansion, the landing pad's monitor-exit and rethrow both go to the outer landing pad captured at line 61. |
| Calls.LowerSynchronized | compiler/src/jlang/extension/JLangCallExt.java:46-111 | The synchronized expansion fails exactly when a needed receiver translation is missing or a static method's container is not a class. On success:<br>- it adds exactly two blocks, `lpad` and `end`, and finishes positioned at the empty `end`;<br>- the frame and loop stacks are as before;<br>- the lock is the monitor of the call;<br>- the blocks are laid out as a guarded expansion. |
| Calls.GuardedRegion | compiler/src/jlang/extension/JLangCallExt.java:76-110 | Once the lock is computed, the protected region and the landing pad make a guarded expansion for that lock. |
| Calls.FinishSync | compiler/src/jlang/extension/JLangCallExt.java:86-110 | Filling in the landing pad and moving to `end` completes the expansion. Every block left behind is terminated. |
| Calls.SyncLockFacts | compiler/src/jlang/extension/JLangCallExt.java:67-74 | The register loaded with the class object, or the receiver's translation, is the monitor of the call. |
| Calls.SyncExpansionPaths | compiler/src/jlang/extension/JLangCallExt.java:58-108 | The appended instructions form lock computation, protected region and landing pad, laid out as a guarded expansion. |
| Calls.SyncFrame | compiler/src/jlang/extension/JLangCallExt.java:58-110 | The expansion only adds the blocks `lpad` and `end` and appends to the current block. The old block and `lpad` both end in terminators. |
| Calls.GuardedPaired | compiler/src/jlang/extension/JLangCallExt.java:53-55 | In every guarded expansion, the normal path and the raised path pair the monitor operations (see the next three rows). |
| SyncPaths.ExpansionPaired | compiler/src/jlang/extension/JLangCallExt.java:53-55 | For any block layout of the expansion's shape, both paths pair the monitor. |
| SyncPaths.ExpansionNormal | compiler/src/jlang/extension/JLangCallExt.java:78-84 | With no exception, the path's events are exactly enter, call and exit on the same lock, each unwinding to the region's landing pad. The path ends in the branch to `end`. |
| SyncPaths.ExpansionRaised | compiler/src/jlang/extension/JLangCallExt.java:96-108 | When the call raises, the path's events are exactly enter, call, exit on the same lock under the outer pad, and a rethrow to the outer pad. Nothing follows the rethrow. |
| Calls.GuardedMonitorRaises | compiler/src/jlang/extension/JLangCallExt.java:78-82 | In every guarded expansion, the monitor operations themselves unwind into the region's landing pad (see the next three rows). |
| SyncPaths.ExpansionMonitorRaises | compiler/src/jlang/extension/JLangCallExt.java:78-82 | For any block layout of the expansion's shape, the normal-path exit is the block's second-to-last instruction and the enter comes before it. A raising enter or exit continues through the landing pad. |
| SyncPaths.ExpansionEnterRaised | compiler/src/jlang/extension/JLangCallExt.java:78-80 | When the monitor-enter raises, the events are exactly that enter, the landing pad's exit of the same lock under the outer pad, and the rethrow. The lock is exited once without having been acquired. |
| SyncPaths.ExpansionExitRaised | compiler/src/jlang/extension/JLangCallExt.java:80-82 | When the normal-path exit raises, the events are exactly enter, call, that exit, a second exit of the same lock under the outer pad, and the rethrow. |
| Calls.LowerCall | compiler/src/jlang/extension/JLangCallExt.java:37-116 | Lowering a call fails exactly when a needed translation or a class container is missing. On success:<br>- the stacks are unchanged;<br>- blocks are only added or appended to, and those left behind are closed;<br>- the builder sits at an open block;<br>- the call node's translation is the placeholder exactly when the method returns void.<br>A non-synchronized call appends address computations and one call unwinding to the active landing pad. A synchronized one adds two blocks, ends at `end`, and is guarded by the call's monitor. |
| Calls.WithPlaceholder | compiler/src/jlang/extension/JLangCallExt.java:40-43 | A void call's node gets the placeholder translation before anything else; nothing else changes. |
| Calls.LowerPlainCall | compiler/src/jlang/extension/JLangCallExt.java:112-115 | A non-synchronized call is the generic call step: the block is unchanged apart from the appended address computations and one call. |
| Calls.LowerSynchronizedCall | compiler/src/jlang/extension/JLangCallExt.java:42-111 | A synchronized call, after the placeholder, is lowered by the expansion. It keeps both stacks, finishes at `end`, and its node's translation is the placeholder exactly for a void method. |
| Calls.SynchronizedCallLowered | compiler/src/jlang/extension/JLangCallExt.java:42-111 | The expansion's outcome, seen from the state before the placeholder, is a lowered call guarded by the call's monitor. |
| Calls.SyncCallShape | compiler/src/jlang/extension/JLangCallExt.java:58-59 | The expansion leaves the builder at the open `end` block, two blocks past the start. |
| Ir.GetTranslation | compiler/src/jlang/extension/JLangCallExt.java:73 | A node's translation is available exactly when it is recorded as a value. |
| Ir.BranchUnlessTerminated | compiler/src/jlang/extension/JLangWhileExt.java:37 | The branch is appended exactly when the block has no terminator yet. Afterwards the block is always terminated. |
| Loops.TranslateConditional | compiler/src/jlang/extension/JLangWhileExt.java:32 | The condition block ends in a conditional branch whose successors are exactly the body and end blocks. |
| Loops.LowerWhile | compiler/src/jlang/extension/JLangWhileExt.java:19-42 | A loop adds exactly its three blocks plus the body's and leaves the insertion point at `while.end`. Both stacks end at the depth they started at. A call-free body cannot fail. The edges are:<br>- entry → cond;<br>- cond → {body, end};<br>- the body's last block → cond, unless the body ended in its own jump;<br>- `break` → end, `continue` → cond. |
| Loops.WhileHead | compiler/src/jlang/extension/JLangWhileExt.java:23-32 | Three fresh blocks named `while.cond`, `while.body` and `while.end` are allocated. The loop context (cond, end) is pushed on top of the stack, the old block branches to cond, and cond tests the condition toward body and end. The body is lowered at the empty body block. |
| Loops.WhileTail | compiler/src/jlang/extension/JLangWhileExt.java:34-41 | After the body, the loop as a whole is a lowered statement with the edges above, at `while.end`, with the loop context popped. |
| Loops.TailLowered | compiler/src/jlang/extension/JLangWhileExt.java:37-40 | Moving to `while.end` and popping the context restores the loop stack and leaves an open block. |
| Loops.TailEdges | compiler/src/jlang/extension/JLangWhileExt.java:30-37 | The loop's control-flow edges as listed under `LowerWhile`. |
| Loops.LowerStmt | compiler/src/jlang/extension/JLangWhileExt.java:36 | Lowering a body statement:<br>- adds exactly its blocks and leaves the builder at its exit block;<br>- keeps both stacks;<br>- leaves its block terminated exactly when it ends in `return`, `break` or `continue`, with `break`/`continue` branching to the innermost loop context's targets.<br>A call-free statement fails exactly when it has a loose `break` or `continue` and no loop encloses it. |
| Loops.LowerEval | compiler/src/jlang/extension/JLangWhileExt.java:36 | A call statement in a body is lowered as a call and fails exactly when the call cannot be lowered. |
| Loops.LowerSeq | compiler/src/jlang/extension/JLangWhileExt.java:36 | A sequence lowers its second statement where the first left the builder, and composes their footprints. |

## Left out

- The LLVM C API. Types, constants, the personality function, names of SSA values and
  the `invoke` continuation block are left out: a call is one non-terminating `Invoke`
  instruction that records its unwind target.
- The generic call lowering of the superclass (`JLangProcedureCallExt`) is not part of
  this model. It is stood in for by `Calls.GenericCall`: the function pointer, the
  receiver argument, and one call whose result is the node's translation. Argument
  lowering is not modelled.
- `buildMonitorFunc` is not part of this model. It is stood in for by one
  `MonitorEnter`/`MonitorExit` instruction that records the landing pad active when it
  is emitted.
- Class-load checks and class-object loads are single abstract instructions.
- Polyglot's type checker and `Copy.Util.copy`: the copy is the output flag
  `Classified.copied`. The copied node is the same record apart from `direct`.
- Dispatch layout, `dispatchInfo`, `intfHash` and `toTypeIdentity` are inputs (`Layout`).
  The 32-bit width of the hash constant is not modelled.
- `__getInterfaceMethod` and the dispatch vectors are the uninterpreted functions of
  `Dispatch.Runtime`.
- Conditional lowering is one `EvalCond` plus a `CondBr` in the condition block.
  Short-circuit conditions that emit several blocks are not modelled.
- Loop bodies are a small statement language (`Loops.Stmt`):
  - straight-line code;
  - `return`;
  - call statements;
  - sequencing;
  - nested loops;
  - `break` and `continue` as branches to the innermost loop context.
  The other statement lowerings of the compiler are not part of this model.
- Runtime concurrency of monitors, and the exception runtime, are left out. The
  dominance requirement on blocks reachable from a raising call is left out too.
- Node identities are bare numbers, so the lowering of calls requires that a call's
  node differs from its target's node, as it does for any parsed call (`TargetsSeparate`
  for statements).
- The Java `assert` that a static synchronized method's container is a class becomes an
  error result (`StaticContainerNotClass`) instead of an unchecked cast.
- SyncPaths.ExpansionPaired: pairing is promised for the path with no exception and the
  path on which the call raises. It is not promised when a monitor operation itself
  raises: there the enter is unmatched or the exit doubled, as
  `SyncPaths.ExpansionMonitorRaises` states. Whether the runtime's monitor functions can
  raise is outside this model.
- Loops.LowerStmt: characterises failure only for call-free statements. A statement with
  calls fails as its calls do (see `Calls.LowerCall`).
- Loops.LowerWhile: the returned AST node, which is the input node unchanged, is not
  represented. Only the builder state is returned.
- Loops.LowerWhile: when lowering the body fails, the error is returned without a state.
  The source pushes the loop context before lowering the body and pops it afterwards,
  with no `finally`. So after a failed body the source leaves `(cond, end)` on the loop
  stack, and the model does not describe that stack.
- Calls.LowerSynchronized: on failure the partially emitted state is discarded, not
  described.
- Walks are bounded by a fuel equal to the number of instructions in the two blocks they
  cross. This is enough for the expansion's paths.
