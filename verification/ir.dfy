/**
 * The abstract SSA intermediate representation the lowering stage emits into, and the
 * translator state threaded through every lowering step: the basic blocks of the
 * function being lowered, the insertion point, the register counter, the
 * exception-frame stack, the loop-context stack and the node-to-value translations.
 *
 * The LLVM C API calls of the compiler (block creation, builder positioning, loads,
 * casts, calls) become appends of abstract instructions to the current block.
 */
module Ir {
  import opened Base

  type BlockId = nat
  type NodeId = nat
  type ClassId = nat
  type MethodId = nat

  /** An SSA operand: a virtual register, a function's static symbol, or an interface's global identity. */
  datatype Value =
    | Reg(n: nat)
    | FunctionSymbol(m: MethodId)
    | TypeIdentity(c: ClassId)

  /**
   * One emitted instruction. Instructions that call into the runtime record the landing
   * pad that was active when they were emitted (`activePad`, `unwind`).
   */
  datatype Instr =
    // control transfer
    | Br(target: BlockId)
    | CondBr(test: Value, ifTrue: BlockId, ifFalse: BlockId)
    | Ret
    | Unreachable
    // delegated lowering (statements, condition evaluation)
    | Opaque(tag: nat)
    | EvalCond(dst: nat, cond: nat)
    // dispatch address computation
    | DvPtrAddr(dst: nat, obj: Value)
    | SlotAddr(dst: nat, dv: Value, slot: nat)
    | Load(dst: nat, addr: Value)
    | CastToOpaque(dst: nat, v: Value)
    | LookupInterfaceMethod(dst: nat, obj: Value, hash: int, id: Value, index: nat)
    | CastToFuncPtr(dst: nat, v: Value)
    // calls and the synchronized region
    | Invoke(dst: nat, fn: Value, recv: Option<Value>, unwind: Option<BlockId>)
    | ClassLoadCheck(cls: ClassId)
    | LoadClassObject(dst: nat, cls: ClassId)
    | MonitorEnter(lock: Value, activePad: Option<BlockId>)
    | MonitorExit(lock: Value, activePad: Option<BlockId>)
    | LandingPad(dst: nat)
    | ExtractException(dst: nat, pad: Value)
    | Rethrow(exn: Value, unwind: Option<BlockId>)

  /** The instructions that end a basic block. */
  predicate IsTerminator(i: Instr) {
    i.Br? || i.CondBr? || i.Ret? || i.Unreachable?
  }

  /** The address computations of dynamic dispatch: none of them transfers control or calls user code. */
  predicate IsAddressComputation(i: Instr) {
    i.DvPtrAddr? || i.SlotAddr? || i.Load? || i.CastToOpaque? || i.LookupInterfaceMethod? || i.CastToFuncPtr?
  }

  /** The instructions that neither transfer control nor call code that can raise. */
  predicate IsPlain(i: Instr) {
    IsAddressComputation(i) || i.ClassLoadCheck? || i.LoadClassObject? || i.Opaque? || i.EvalCond?
    || i.LandingPad? || i.ExtractException?
  }

  datatype Block = Block(name: string, instrs: seq<Instr>)

  /** A block already ends in a transfer of control (what `branchUnlessTerminated` tests). */
  predicate Terminated(b: Block) {
    |b.instrs| > 0 && IsTerminator(b.instrs[|b.instrs| - 1])
  }

  /** One entry of the loop-context stack: where `continue` and `break` go. */
  datatype LoopContext = LoopContext(continueTarget: BlockId, breakTarget: BlockId)

  /** One entry of the exception-frame stack: the landing pad of the protected region. */
  datatype ExceptionFrame = ExceptionFrame(landingPad: BlockId)

  /** What a lowered expression node stands for: a value, or the placeholder of a void call. */
  datatype Translation = Placeholder | ValueOf(v: Value)

  datatype LoweringError =
    | NoTranslation(node: NodeId)
    | StaticContainerNotClass(m: MethodId)
    | NoEnclosingLoop

  /** The translator state. Both stacks have their top at the END of the sequence. */
  datatype State = State(
    blocks: seq<Block>,
    cur: BlockId,
    nextReg: nat,
    frames: seq<ExceptionFrame>,
    loops: seq<LoopContext>,
    translations: map<NodeId, Translation>)

  /** The builder is positioned at an existing block. */
  predicate Valid(st: State) {
    st.cur < |st.blocks|
  }

  function CurrentBlock(st: State): Block
    requires Valid(st)
  {
    st.blocks[st.cur]
  }

  /** Allocates a fresh, empty, named block; the builder stays where it is. */
  function NewBlock(st: State, name: string): (State, BlockId) {
    (st.(blocks := st.blocks + [Block(name, [])]), |st.blocks|)
  }

  /** Appends one instruction at the insertion point. */
  function Emit(st: State, i: Instr): State
    requires Valid(st)
  {
    var b := st.blocks[st.cur];
    st.(blocks := st.blocks[st.cur := b.(instrs := b.instrs + [i])])
  }

  /** Appends a run of instructions at the insertion point. */
  function EmitAll(st: State, run: seq<Instr>): State
    requires Valid(st)
  {
    var b := st.blocks[st.cur];
    st.(blocks := st.blocks[st.cur := b.(instrs := b.instrs + run)])
  }

  function PositionAtEnd(st: State, b: BlockId): State
    requires b < |st.blocks|
  {
    st.(cur := b)
  }

  /** The landing pad of the innermost exception frame, if any (`currLandingPad`). */
  function CurrLandingPad(st: State): Option<BlockId> {
    if |st.frames| == 0 then None else Some(st.frames[|st.frames| - 1].landingPad)
  }

  function PushFrame(st: State, f: ExceptionFrame): State {
    st.(frames := st.frames + [f])
  }

  function PopFrame(st: State): State
    requires |st.frames| > 0
  {
    st.(frames := st.frames[..|st.frames| - 1])
  }

  function PushLoop(st: State, ctx: LoopContext): State {
    st.(loops := st.loops + [ctx])
  }

  function PopLoop(st: State): State
    requires |st.loops| > 0
  {
    st.(loops := st.loops[..|st.loops| - 1])
  }

  /** The translation of a node as an SSA value; a missing node or a void placeholder is an error. */
  function GetTranslation(st: State, n: NodeId): (r: Result<Value, LoweringError>)
    ensures r.Ok? <==> n in st.translations && st.translations[n].ValueOf?
    ensures r.Ok? ==> st.translations[n] == ValueOf(r.value)
    ensures r.Err? ==> r.error == NoTranslation(n)
  {
    if n in st.translations && st.translations[n].ValueOf? then Ok(st.translations[n].v)
    else Err(NoTranslation(n))
  }

  /**
   * Appends a branch to `target` unless the current block already ends in a terminator
   * (`branchUnlessTerminated`). Afterwards the current block is always terminated.
   */
  function BranchUnlessTerminated(st: State, target: BlockId): (r: State)
    requires Valid(st)
    ensures Valid(r) && r.cur == st.cur
    ensures Terminated(CurrentBlock(r))
    ensures r == st <==> Terminated(CurrentBlock(st))
    ensures r != st ==> CurrentBlock(r).instrs == CurrentBlock(st).instrs + [Br(target)]
    ensures OnlyAppends(st, r)
    ensures r.frames == st.frames && r.loops == st.loops && r.translations == st.translations && r.nextReg == st.nextReg
  {
    if Terminated(CurrentBlock(st)) then st else Emit(st, Br(target))
  }

  /**
   * `s` differs from `st`, as far as the blocks go, only by instructions appended to the
   * current block: same insertion point, same set of blocks, other blocks untouched.
   */
  ghost predicate OnlyAppends(st: State, s: State) {
    && Valid(st)
    && s.cur == st.cur
    && |s.blocks| == |st.blocks|
    && (forall b :: 0 <= b < |st.blocks| && b != st.cur ==> s.blocks[b] == st.blocks[b])
    && s.blocks[st.cur].name == st.blocks[st.cur].name
    && st.blocks[st.cur].instrs <= s.blocks[st.cur].instrs
  }

  /** The instructions appended to the insertion point of `st` by the time `s` is reached. */
  function Added(st: State, s: State): seq<Instr>
    requires st.cur < |st.blocks| && st.cur < |s.blocks|
    requires |st.blocks[st.cur].instrs| <= |s.blocks[st.cur].instrs|
  {
    s.blocks[st.cur].instrs[|st.blocks[st.cur].instrs|..]
  }

  /**
   * `s` extends `st` as a lowering step may: blocks are only added, existing blocks other
   * than the insertion point are untouched, the insertion point's block only grows, the
   * builder ends at the old insertion point or at a new block, and registers stay fresh.
   */
  ghost predicate Extends(st: State, s: State) {
    && |st.blocks| <= |s.blocks|
    && (s.cur == st.cur || s.cur >= |st.blocks|)
    && st.nextReg <= s.nextReg
    && (forall b :: 0 <= b < |st.blocks| && b != st.cur ==> s.blocks[b] == st.blocks[b])
    && (st.cur < |st.blocks| ==>
          s.blocks[st.cur].name == st.blocks[st.cur].name && st.blocks[st.cur].instrs <= s.blocks[st.cur].instrs)
  }

  /**
   * Every block the builder has left behind since `st` ends in a terminator: the blocks
   * created since `st` other than the new insertion point, and the old insertion point
   * itself once the builder has moved away from it.
   */
  ghost predicate ClosedBehind(st: State, s: State) {
    && (forall b :: |st.blocks| <= b < |s.blocks| && b != s.cur ==> Terminated(s.blocks[b]))
    && (s.cur != st.cur && st.cur < |s.blocks| ==> Terminated(s.blocks[st.cur]))
  }

  lemma ExtendsTrans(a: State, b: State, c: State)
    requires Extends(a, b) && Extends(b, c)
    ensures Extends(a, c)
  {
  }

  lemma ClosedBehindTrans(a: State, b: State, c: State)
    requires Valid(a) && Valid(b)
    requires Extends(a, b) && Extends(b, c)
    requires ClosedBehind(a, b) && ClosedBehind(b, c)
    ensures ClosedBehind(a, c)
  {
    forall x | |a.blocks| <= x < |c.blocks| && x != c.cur
      ensures Terminated(c.blocks[x])
    {
      if x < |b.blocks| && x != b.cur {
        assert c.blocks[x] == b.blocks[x];
      }
    }
    if c.cur != a.cur && b.cur != a.cur {
      assert c.blocks[a.cur] == b.blocks[a.cur];
    }
  }

  lemma EmitAllAppends(st: State, run: seq<Instr>)
    requires Valid(st)
    ensures OnlyAppends(st, EmitAll(st, run))
    ensures Added(st, EmitAll(st, run)) == run
  {
  }

  lemma EmitAppends(st: State, i: Instr)
    requires Valid(st)
    ensures OnlyAppends(st, Emit(st, i))
    ensures Added(st, Emit(st, i)) == [i]
  {
  }

  lemma OnlyAppendsTrans(a: State, b: State, c: State)
    requires OnlyAppends(a, b) && OnlyAppends(b, c)
    ensures OnlyAppends(a, c)
    ensures Added(a, c) == Added(a, b) + Added(b, c)
  {
    var n := |a.blocks[a.cur].instrs|;
    var m := |b.blocks[a.cur].instrs|;
    var ic := c.blocks[a.cur].instrs;
    assert ic[n..] == ic[n..m] + ic[m..];
  }

  lemma OnlyAppendsExtends(st: State, s: State)
    requires OnlyAppends(st, s) && st.nextReg <= s.nextReg
    ensures Extends(st, s) && ClosedBehind(st, s)
  {
  }
}
