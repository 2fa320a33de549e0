/**
 * Lowering of `while` loops (`JLangWhileExt.overrideTranslateLLVM`) and of the loop
 * bodies it visits. Bodies are built from a small statement language: straight-line
 * code, `return`, `break` and `continue` (which branch through the loop-context stack),
 * call statements, sequencing and nested loops.
 */
module Loops {
  import opened Base
  import opened Ir
  import opened CallSites
  import opened Dispatch
  import opened Calls

  /** The statements a loop body is made of. `Simple` stands for any straight-line code. */
  datatype Stmt =
    | Simple(tag: nat)
    | Return
    | Break
    | Continue
    | Eval(call: Call)
    | Seq(first: Stmt, second: Stmt)
    | While(cond: nat, body: Stmt)

  /** The statement lowered last when `s` is lowered. */
  function LastStmt(s: Stmt): Stmt {
    if s.Seq? then LastStmt(s.second) else s
  }

  /** Whether `s` ends by transferring control itself, so its exit block is already terminated. */
  predicate EndsInJump(s: Stmt) {
    LastStmt(s).Return? || LastStmt(s).Break? || LastStmt(s).Continue?
  }

  /** The number of blocks lowering `s` allocates. */
  function BlocksAdded(s: Stmt): nat {
    match s
    case While(_, body) => 3 + BlocksAdded(body)
    case Eval(c) => if c.callee.flags.isSynchronized then 2 else 0
    case Seq(a, b) => BlocksAdded(a) + BlocksAdded(b)
    case _ => 0
  }

  /**
   * The block the builder is left at after lowering `s`, starting at block `cur` when
   * the function has `n` blocks: a loop ends at its `while.end` block (its third new
   * block), a synchronized call at its `end` block (its second), anything else where it
   * started.
   */
  function ExitBlock(s: Stmt, cur: BlockId, n: nat): BlockId {
    match s
    case While(_, _) => n + 2
    case Eval(c) => if c.callee.flags.isSynchronized then n + 1 else cur
    case Seq(a, b) => ExitBlock(b, ExitBlock(a, cur, n), n + BlocksAdded(a))
    case _ => cur
  }

  /** Whether `s` contains no call statement. */
  predicate CallFree(s: Stmt) {
    match s
    case Eval(_) => false
    case Seq(a, b) => CallFree(a) && CallFree(b)
    case While(_, body) => CallFree(body)
    case _ => true
  }

  /** Whether the target of every call in `s` is an AST node of its own, as it always is in a parsed program. */
  predicate TargetsSeparate(s: Stmt) {
    match s
    case Eval(c) => c.node != c.target.node
    case Seq(a, b) => TargetsSeparate(a) && TargetsSeparate(b)
    case While(_, body) => TargetsSeparate(body)
    case _ => true
  }

  /** Whether `s` has a `break` or `continue` that is not inside a loop of `s`. */
  predicate HasLooseJump(s: Stmt) {
    match s
    case Break => true
    case Continue => true
    case Seq(a, b) => HasLooseJump(a) || HasLooseJump(b)
    case _ => false
  }

  /** The last instruction of a block, when it has one. */
  function LastInstr(b: Block): Option<Instr> {
    if |b.instrs| == 0 then None else Some(b.instrs[|b.instrs| - 1])
  }

  /** The blocks control may go to once `b` ends: the targets of its terminator. */
  function Successors(b: Block): set<BlockId> {
    match LastInstr(b)
    case Some(Br(t)) => {t}
    case Some(CondBr(_, t, f)) => {t, f}
    case _ => {}
  }

  /**
   * Conditional lowering as the loop uses it: the condition is evaluated into a fresh
   * register and a conditional branch goes to `ifTrue` or `ifFalse`.
   */
  function TranslateConditional(st: State, cond: nat, ifTrue: BlockId, ifFalse: BlockId): (r: State)
    requires Valid(st)
    ensures OnlyAppends(st, r)
    ensures Added(st, r) == [EvalCond(st.nextReg, cond), CondBr(Reg(st.nextReg), ifTrue, ifFalse)]
    ensures Terminated(CurrentBlock(r)) && Successors(CurrentBlock(r)) == {ifTrue, ifFalse}
    ensures r.frames == st.frames && r.loops == st.loops && r.translations == st.translations
    ensures r.nextReg == st.nextReg + 1
  {
    var run := [EvalCond(st.nextReg, cond), CondBr(Reg(st.nextReg), ifTrue, ifFalse)];
    EmitAllAppends(st, run);
    EmitAll(st, run).(nextReg := st.nextReg + 1)
  }

  /** What lowering a statement promises, apart from its errors. */
  ghost predicate Lowered(s: Stmt, st: State, r: State) {
    && Valid(st)
    && Valid(r)
    && Extends(st, r)
    && ClosedBehind(st, r)
    && r.loops == st.loops
    && r.frames == st.frames
    && |r.blocks| == |st.blocks| + BlocksAdded(s)
    && r.cur == ExitBlock(s, st.cur, |st.blocks|)
    && (Terminated(CurrentBlock(r)) <==> EndsInJump(s))
    && (LastStmt(s).Return? ==> LastInstr(CurrentBlock(r)) == Some(Ret))
    && (LastStmt(s).Break? ==>
          |st.loops| > 0 && LastInstr(CurrentBlock(r)) == Some(Br(st.loops[|st.loops| - 1].breakTarget)))
    && (LastStmt(s).Continue? ==>
          |st.loops| > 0 && LastInstr(CurrentBlock(r)) == Some(Br(st.loops[|st.loops| - 1].continueTarget)))
  }

  /** Lowers one statement at the insertion point. */
  method LowerStmt(s: Stmt, layout: Layout, st: State) returns (r: Result<State, LoweringError>)
    requires Valid(st) && TargetsSeparate(s)
    ensures r.Ok? ==> Lowered(s, st, r.value)
    ensures CallFree(s) ==> (r.Ok? <==> |st.loops| > 0 || !HasLooseJump(s))
    decreases s, 1
  {
    match s
    case Simple(tag) =>
      var s1 := Emit(st, Opaque(tag));
      EmitAppends(st, Opaque(tag));
      OnlyAppendsExtends(st, s1);
      r := Ok(s1);
    case Return =>
      var s1 := Emit(st, Ret);
      EmitAppends(st, Ret);
      OnlyAppendsExtends(st, s1);
      r := Ok(s1);
    case Break =>
      if |st.loops| == 0 {
        r := Err(NoEnclosingLoop);
      } else {
        var jump := Br(st.loops[|st.loops| - 1].breakTarget);
        var s1 := Emit(st, jump);
        EmitAppends(st, jump);
        OnlyAppendsExtends(st, s1);
        r := Ok(s1);
      }
    case Continue =>
      if |st.loops| == 0 {
        r := Err(NoEnclosingLoop);
      } else {
        var jump := Br(st.loops[|st.loops| - 1].continueTarget);
        var s1 := Emit(st, jump);
        EmitAppends(st, jump);
        OnlyAppendsExtends(st, s1);
        r := Ok(s1);
      }
    case Eval(c) =>
      r := LowerEval(c, layout, st);
    case Seq(_, _) =>
      r := LowerSeq(s, layout, st);
    case While(_, _) =>
      r := LowerWhile(s, layout, st);
  }

  /** An expression statement: the call is lowered where the builder stands. */
  method LowerEval(c: Call, layout: Layout, st: State) returns (r: Result<State, LoweringError>)
    requires Valid(st) && c.node != c.target.node
    ensures r.Ok? ==> Lowered(Eval(c), st, r.value)
    ensures r.Ok? <==> CanLower(c, st)
  {
    r := LowerCall(c, layout, st);
    if r.Ok? {
      EvalLowered(c, st, r.value);
    }
  }

  /** A lowered call is a lowered expression statement. */
  lemma EvalLowered(c: Call, st: State, s: State)
    requires Valid(st) && CallLowered(c, st, s)
    requires !c.callee.flags.isSynchronized ==> s.cur == st.cur && |s.blocks| == |st.blocks|
    requires c.callee.flags.isSynchronized ==> s.cur == |st.blocks| + 1 && |s.blocks| == |st.blocks| + 2
    ensures Lowered(Eval(c), st, s)
  {
  }

  /** A sequence: the second statement is lowered where the first one left the builder. */
  method LowerSeq(s: Stmt, layout: Layout, st: State) returns (r: Result<State, LoweringError>)
    requires Valid(st) && s.Seq? && TargetsSeparate(s)
    ensures r.Ok? ==> Lowered(s, st, r.value)
    ensures CallFree(s) ==> (r.Ok? <==> |st.loops| > 0 || !HasLooseJump(s))
    decreases s, 0
  {
    var s1 :- LowerStmt(s.first, layout, st);
    var s2 :- LowerStmt(s.second, layout, s1);
    ExtendsTrans(st, s1, s2);
    ClosedBehindTrans(st, s1, s2);
    r := Ok(s2);
  }

  /**
   * The state in which a loop body is lowered, relative to the state `st` before the loop:
   * three new blocks, the old current block closed by a branch to `while.cond`, the
   * condition test in `while.cond`, the builder at the empty `while.body`, and the loop
   * context `(cond, end)` on top of the loop-context stack.
   */
  ghost predicate HeadReady(st: State, h: State, cond: nat) {
    var n := |st.blocks|;
    && Valid(st)
    && |h.blocks| == n + 3
    && h.cur == n + 1
    && h.loops == st.loops + [LoopContext(n, n + 2)]
    && h.frames == st.frames
    && h.translations == st.translations
    && h.nextReg == st.nextReg + 1
    && (forall b :: 0 <= b < n && b != st.cur ==> h.blocks[b] == st.blocks[b])
    && h.blocks[st.cur] == Block(st.blocks[st.cur].name, st.blocks[st.cur].instrs + [Br(n)])
    && h.blocks[n] == Block("while.cond", [EvalCond(st.nextReg, cond), CondBr(Reg(st.nextReg), n + 1, n + 2)])
    && h.blocks[n + 1] == Block("while.body", [])
    && h.blocks[n + 2] == Block("while.end", [])
  }

  /**
   * The control-flow edges of a lowered loop: the block before the loop branches to
   * `while.cond`; `while.cond` branches to `while.body` on true and to `while.end` on
   * false; `while.end` is empty; the block the body finishes in ends in a terminator,
   * which is the branch back to `while.cond` unless the body ended in a jump of its own
   * (a `break` goes to `while.end`, a `continue` to `while.cond`).
   */
  ghost predicate LoopEdges(w: Stmt, st: State, s: State)
    requires w.While? && Valid(st) && |s.blocks| >= |st.blocks| + 3
  {
    var n := |st.blocks|;
    var x := ExitBlock(w.body, n + 1, n + 3);
    && s.blocks[st.cur].instrs == st.blocks[st.cur].instrs + [Br(n)]
    && s.blocks[n] == Block("while.cond", [EvalCond(st.nextReg, w.cond), CondBr(Reg(st.nextReg), n + 1, n + 2)])
    && s.blocks[n + 1].name == "while.body"
    && s.blocks[n + 2] == Block("while.end", [])
    && Successors(s.blocks[st.cur]) == {n}
    && Successors(s.blocks[n]) == {n + 1, n + 2}
    && x < |s.blocks|
    && Terminated(s.blocks[x])
    && (!EndsInJump(w.body) ==> LastInstr(s.blocks[x]) == Some(Br(n)))
    && (LastStmt(w.body).Continue? ==> LastInstr(s.blocks[x]) == Some(Br(n)))
    && (LastStmt(w.body).Break? ==> LastInstr(s.blocks[x]) == Some(Br(n + 2)))
    && (LastStmt(w.body).Return? ==> LastInstr(s.blocks[x]) == Some(Ret))
  }

  /**
   * Lowering a `while` loop: blocks `while.cond`, `while.body` and `while.end` are
   * allocated and `(cond, end)` is pushed on the loop-context stack; the current block
   * branches to `cond`, which tests the condition and branches to `body` or `end`; the
   * body is lowered at `body` and branches back to `cond` unless it already ended in a
   * terminator; the builder moves to `end` and the loop context is popped.
   */
  method LowerWhile(w: Stmt, layout: Layout, st: State) returns (r: Result<State, LoweringError>)
    requires Valid(st) && w.While? && TargetsSeparate(w)
    ensures r.Ok? ==> Lowered(w, st, r.value)
    ensures r.Ok? ==> LoopEdges(w, st, r.value)
    ensures CallFree(w) ==> r.Ok?
    decreases w, 0
  {
    var h := WhileHead(st, w.cond);
    var b :- LowerStmt(w.body, layout, h);
    var s := WhileTail(w, st, h, b);
    r := Ok(s);
  }

  /** The loop's blocks, its context, the branch into the loop and the condition test (lines 23-35). */
  method WhileHead(st: State, condTag: nat) returns (h: State)
    requires Valid(st)
    ensures HeadReady(st, h, condTag)
  {
    var (s1, cond) := NewBlock(st, "while.cond");
    var (s2, body) := NewBlock(s1, "while.body");
    var (s3, end) := NewBlock(s2, "while.end");
    var s4 := PushLoop(s3, LoopContext(cond, end));
    var s5 := Emit(s4, Br(cond));
    var s6 := PositionAtEnd(s5, cond);
    var s7 := TranslateConditional(s6, condTag, body, end);
    h := PositionAtEnd(s7, body);
    assert h.blocks[cond].instrs == Added(s6, s7);
  }

  /** The branch back to the condition, the move to `while.end` and the pop of the loop context. */
  method WhileTail(w: Stmt, st: State, h: State, b: State) returns (s: State)
    requires w.While? && HeadReady(st, h, w.cond) && Lowered(w.body, h, b)
    ensures Lowered(w, st, s)
    ensures LoopEdges(w, st, s)
  {
    var n := |st.blocks|;
    var closed := BranchUnlessTerminated(b, n);
    var atEnd := PositionAtEnd(closed, n + 2);
    s := PopLoop(atEnd);
    WhileFrame(st, h, b, closed, s);
    TailLowered(w, st, h, b, closed, s);
    TailEdges(w, st, h, b, closed, s);
  }

  /** The loop as a whole is a lowered statement. */
  lemma TailLowered(w: Stmt, st: State, h: State, b: State, closed: State, s: State)
    requires w.While? && HeadReady(st, h, w.cond) && Lowered(w.body, h, b)
    requires closed == BranchUnlessTerminated(b, |st.blocks|)
    requires |closed.loops| > 0 && s == PopLoop(closed.(cur := |st.blocks| + 2))
    requires Extends(st, s) && ClosedBehind(st, s)
    ensures Lowered(w, st, s)
  {
  }

  /** The control-flow edges of the lowered loop. */
  lemma TailEdges(w: Stmt, st: State, h: State, b: State, closed: State, s: State)
    requires w.While? && HeadReady(st, h, w.cond) && Lowered(w.body, h, b)
    requires closed == BranchUnlessTerminated(b, |st.blocks|)
    requires |closed.loops| > 0 && s == PopLoop(closed.(cur := |st.blocks| + 2))
    ensures LoopEdges(w, st, s)
  {
  }

  /** The block-level footprint of a lowered loop. */
  lemma WhileFrame(st: State, head: State, body: State, closed: State, s: State)
    requires Valid(st)
    requires |head.blocks| == |st.blocks| + 3 && head.cur == |st.blocks| + 1 && st.nextReg <= head.nextReg
    requires forall b :: 0 <= b < |st.blocks| && b != st.cur ==> head.blocks[b] == st.blocks[b]
    requires head.blocks[st.cur] == Block(st.blocks[st.cur].name, st.blocks[st.cur].instrs + [Br(|st.blocks|)])
    requires Terminated(head.blocks[|st.blocks|])
    requires Extends(head, body) && ClosedBehind(head, body) && Valid(body)
    requires OnlyAppends(body, closed) && Terminated(CurrentBlock(closed)) && body.nextReg <= closed.nextReg
    requires s.blocks == closed.blocks && s.cur == |st.blocks| + 2 && s.nextReg == closed.nextReg
    ensures Extends(st, s) && ClosedBehind(st, s)
  {
    var n := |st.blocks|;
    assert s.blocks[st.cur] == head.blocks[st.cur];
    forall b | n <= b < |s.blocks| && b != s.cur
      ensures Terminated(s.blocks[b])
    {
      if b == body.cur {
        assert s.blocks[b] == CurrentBlock(closed);
      } else {
        assert s.blocks[b] == body.blocks[b];
      }
    }
  }
}
