/**
 * Lowering of a call expression (`JLangCallExt.leaveTranslateLLVM`): the placeholder
 * translation of a void call, the generic call step, and the expansion of a call to a
 * synchronized method into a monitor-guarded region with its own landing pad.
 */
module Calls {
  import opened Base
  import opened Ir
  import opened CallSites
  import opened Dispatch
  import opened Paths
  import opened SyncPaths

  /** A call needs its receiver's translation when it passes a receiver or dispatches on it. */
  predicate NeedsReceiver(c: Call) {
    !c.callee.flags.isStatic || !c.direct
  }

  /**
   * Everything lowering a call reads is available: the receiver's translation when the
   * call needs it, and a class to take the monitor of when a synchronized method is static.
   */
  predicate CanLower(c: Call, st: State) {
    && (NeedsReceiver(c) ==> HasValue(st, c.target.node))
    && (c.callee.flags.isSynchronized && c.callee.flags.isStatic ==> c.callee.container.ClassType?)
  }

  /** The receiver argument of the call: none for a static method, the target's translation otherwise. */
  function ReceiverArg(c: Call, st: State): (r: Result<Option<Value>, LoweringError>)
    ensures r.Ok? <==> c.callee.flags.isStatic || HasValue(st, c.target.node)
    ensures r.Ok? ==> (r.value.Some? <==> !c.callee.flags.isStatic)
    ensures r.Ok? && r.value.Some? ==> st.translations[c.target.node] == ValueOf(r.value.value)
  {
    if c.callee.flags.isStatic then Ok(None)
    else
      var v :- GetTranslation(st, c.target.node);
      Ok(Some(v))
  }

  /**
   * `s` is `st` after the generic call step: address computations for the function
   * pointer, then one call unwinding to the landing pad active in `st`; the call's
   * result, unless the method returns void, is the call node's translation.
   */
  ghost predicate CallStep(c: Call, st: State, s: State) {
    && OnlyAppends(st, s)
    && s.frames == st.frames && s.loops == st.loops
    && st.nextReg < s.nextReg
    && var run := Added(st, s);
    && |run| > 0
    && (forall i :: i in run[..|run| - 1] ==> IsAddressComputation(i))
    && run[|run| - 1].Invoke?
    && run[|run| - 1].unwind == CurrLandingPad(st)
    && (c.callee.returnsVoid ==> s.translations == st.translations)
    && (!c.callee.returnsVoid ==> s.translations == st.translations[c.node := ValueOf(Reg(run[|run| - 1].dst))])
  }

  /**
   * The generic call step the synchronized expansion wraps: the function pointer, then
   * one call that unwinds to the landing pad active at that point; a non-void call's
   * result becomes the call node's translation.
   */
  method GenericCall(c: Call, layout: Layout, st: State) returns (r: Result<State, LoweringError>)
    requires Valid(st)
    ensures r.Ok? <==> (NeedsReceiver(c) ==> HasValue(st, c.target.node))
    ensures r.Ok? ==> CallStep(c, st, r.value)
  {
    var p :- BuildFuncPtr(c, layout, st);
    var recv :- ReceiverArg(c, p.0);
    var dst := p.0.nextReg;
    var call := Invoke(dst, p.1, recv, CurrLandingPad(p.0));
    var s1 := p.0.(nextReg := dst + 1);
    var s2 := Emit(s1, call);
    EmitAppends(s1, call);
    OnlyAppendsTrans(st, s1, s2);
    r := Ok(if c.callee.returnsVoid then s2 else s2.(translations := s2.translations[c.node := ValueOf(Reg(dst))]));
  }

  /**
   * The monitor of a synchronized call: the class object of the method's container for
   * a static method (after the class-load check), the receiver's translation otherwise.
   */
  method LockValue(c: Call, st: State) returns (r: Result<(State, Value), LoweringError>)
    requires Valid(st)
    ensures r.Ok? <==>
      if c.callee.flags.isStatic then c.callee.container.ClassType? else HasValue(st, c.target.node)
    ensures r.Ok? ==>
      var s := r.value.0;
      && OnlyAppends(st, s)
      && s.frames == st.frames && s.loops == st.loops
      && s.translations == st.translations
      && st.nextReg <= s.nextReg
      && (forall i :: i in Added(st, s) ==> IsPlain(i))
    ensures r.Ok? && c.callee.flags.isStatic ==>
      && r.value.1.Reg?
      && LoadClassObject(r.value.1.n, c.callee.container.cls) in Added(st, r.value.0)
    ensures r.Ok? && !c.callee.flags.isStatic ==>
      && r.value.0 == st
      && st.translations[c.target.node] == ValueOf(r.value.1)
  {
    if c.callee.flags.isStatic {
      if c.callee.container.ClassType? {
        var cls := c.callee.container.cls;
        var n := st.nextReg;
        var run := [ClassLoadCheck(cls), LoadClassObject(n, cls)];
        EmitAllAppends(st, run);
        r := Ok((EmitAll(st, run).(nextReg := n + 1), Reg(n)));
      } else {
        r := Err(StaticContainerNotClass(c.callee.id));
      }
    } else {
      var v :- GetTranslation(st, c.target.node);
      assert Added(st, st) == [];
      r := Ok((st, v));
    }
  }

  /**
   * The protected region of the synchronized expansion (normal path): a frame for `lpad`
   * is pushed, then monitor-enter, the generic call, monitor-exit and a branch to the
   * block after `lpad` are emitted, all while that frame is the innermost one.
   */
  method SyncRegion(c: Call, layout: Layout, st: State, lock: Value, lpad: BlockId)
    returns (r: Result<State, LoweringError>)
    requires Valid(st)
    ensures r.Ok? <==> (NeedsReceiver(c) ==> HasValue(st, c.target.node))
    ensures r.Ok? ==> Protected(st, r.value, lock, lpad)
    ensures r.Ok? ==>
      var run := Added(st, r.value);
      && (c.callee.returnsVoid ==> r.value.translations == st.translations)
      && (!c.callee.returnsVoid ==> r.value.translations == st.translations[c.node := ValueOf(Reg(run[|run| - 3].dst))])
  {
    var pushed := PushFrame(st, ExceptionFrame(lpad));
    var enter := MonitorEnter(lock, CurrLandingPad(pushed));
    var entered := Emit(pushed, enter);
    var called :- GenericCall(c, layout, entered);
    var exit := MonitorExit(lock, CurrLandingPad(called));
    var exited := Emit(called, exit);
    var closed := Emit(exited, Br(lpad + 1));
    RegionOutcome(c, st, pushed, entered, called, exited, closed, lock, lpad);
    r := Ok(closed);
  }

  /** The four appends of the protected region, with the frame pushed, make a protected region. */
  lemma RegionOutcome(c: Call, st: State, pushed: State, entered: State, called: State, exited: State, closed: State, lock: Value, lpad: BlockId)
    requires Valid(st)
    requires pushed == PushFrame(st, ExceptionFrame(lpad))
    requires entered == Emit(pushed, MonitorEnter(lock, CurrLandingPad(pushed)))
    requires CallStep(c, entered, called)
    requires exited == Emit(called, MonitorExit(lock, CurrLandingPad(called)))
    requires closed == Emit(exited, Br(lpad + 1))
    ensures Protected(st, closed, lock, lpad)
    ensures var run := Added(st, closed);
      && (c.callee.returnsVoid ==> closed.translations == st.translations)
      && (!c.callee.returnsVoid ==> closed.translations == st.translations[c.node := ValueOf(Reg(run[|run| - 3].dst))])
  {
    SyncRegionShape(pushed, entered, called, exited, closed, MonitorEnter(lock, CurrLandingPad(pushed)), MonitorExit(lock, CurrLandingPad(called)), Br(lpad + 1));
    var call := Added(entered, called);
    var run := Added(pushed, closed);
    assert run[1..|run| - 3] == call[..|call| - 1];
    assert run[|run| - 3] == call[|call| - 1];
  }

  /**
   * `s` is `st` with a protected region for landing pad `lpad` appended, and with the
   * frame for `lpad` pushed; the region branches to the block after `lpad`.
   */
  ghost predicate Protected(st: State, s: State, lock: Value, lpad: BlockId) {
    && OnlyAppends(st, s)
    && s.frames == st.frames + [ExceptionFrame(lpad)]
    && s.loops == st.loops
    && st.nextReg <= s.nextReg
    && RegionShape(Added(st, s), lock, lpad, lpad + 1)
  }

  /** How the four appends of the protected region line up in the insertion block. */
  lemma SyncRegionShape(pushed: State, entered: State, called: State, exited: State, closed: State, enter: Instr, exit: Instr, br: Instr)
    requires Valid(pushed)
    requires entered == Emit(pushed, enter)
    requires OnlyAppends(entered, called)
    requires exited == Emit(called, exit) && closed == Emit(exited, br)
    ensures OnlyAppends(pushed, closed)
    ensures Added(pushed, closed) == [enter] + Added(entered, called) + [exit, br]
  {
    EmitAppends(pushed, enter);
    EmitAppends(called, exit);
    EmitAppends(exited, br);
    OnlyAppendsTrans(pushed, entered, called);
    OnlyAppendsTrans(pushed, called, exited);
    OnlyAppendsTrans(pushed, exited, closed);
  }

  /**
   * The landing pad of the synchronized expansion (exceptional path), emitted at the
   * insertion point: the exception is extracted, the region's frame is popped, the
   * monitor is exited and the exception is rethrown to `outer`; the block ends in
   * `unreachable`.
   */
  method SyncLandingPad(st: State, lock: Value, outer: Option<BlockId>) returns (r: State)
    requires Valid(st) && |st.frames| > 0
    ensures OnlyAppends(st, r)
    ensures r.frames == st.frames[..|st.frames| - 1] && r.loops == st.loops
    ensures r.translations == st.translations && st.nextReg <= r.nextReg
    ensures Added(st, r) == [LandingPad(st.nextReg), ExtractException(st.nextReg + 1, Reg(st.nextReg)),
                             MonitorExit(lock, CurrLandingPad(r)), Rethrow(Reg(st.nextReg + 1), outer), Unreachable]
  {
    var lp := st.nextReg;
    var exn := lp + 1;
    var catch := [LandingPad(lp), ExtractException(exn, Reg(lp))];
    var s1 := EmitAll(st, catch).(nextReg := exn + 1);
    var s2 := PopFrame(s1);
    var release := [MonitorExit(lock, CurrLandingPad(s2)), Rethrow(Reg(exn), outer), Unreachable];
    r := EmitAll(s2, release);
    EmitAllAppends(st, catch);
    EmitAllAppends(s2, release);
    OnlyAppendsTrans(st, s2, r);
  }

  /**
   * The monitor a synchronized call takes, as seen from the state before the call is
   * lowered: a register holding the class object of the method's container (loaded by
   * the expansion) for a static method, the receiver's translation otherwise.
   */
  ghost predicate MonitorOf(c: Call, st: State, s: State, lock: Value)
    requires Valid(st) && st.cur < |s.blocks| && |st.blocks[st.cur].instrs| <= |s.blocks[st.cur].instrs|
  {
    if c.callee.flags.isStatic then
      && c.callee.container.ClassType?
      && lock.Reg?
      && LoadClassObject(lock.n, c.callee.container.cls) in Added(st, s)
    else
      HasValue(st, c.target.node) && st.translations[c.target.node] == ValueOf(lock)
  }

  /**
   * The synchronized expansion from `st` to `s` guards its call with the monitor `lock`:
   * from where the expansion starts in the block that was current, the protected region
   * follows the lock computation, the landing pad allocated first exits `lock` and
   * rethrows to the landing pad that was active before the expansion.
   */
  ghost predicate GuardedBy(st: State, s: State, lock: Value)
    requires Valid(st)
  {
    Expansion(s.blocks, st.cur, |st.blocks[st.cur].instrs|, |st.blocks|, CurrLandingPad(st), lock)
  }

  /**
   * The control-flow promise of the synchronized expansion, for the monitor `lock`: both
   * paths through it pair the monitor operations (see `Paired`).
   */
  ghost predicate PairedOn(st: State, s: State, lock: Value)
    requires Valid(st) && |s.blocks| == |st.blocks| + 2
  {
    Paired(s.blocks, st.cur, |st.blocks[st.cur].instrs|, |st.blocks|, CurrLandingPad(st), lock)
  }

  /** Every guarded expansion keeps the monitor paired, with and without an exception. */
  lemma GuardedPaired(st: State, s: State, lock: Value)
    requires Valid(st) && |s.blocks| == |st.blocks| + 2
    requires GuardedBy(st, s, lock)
    ensures PairedOn(st, s, lock)
  {
    ExpansionPaired(s.blocks, st.cur, |st.blocks[st.cur].instrs|, |st.blocks|, CurrLandingPad(st), lock);
  }

  /**
   * In every guarded expansion, a raising monitor operation unwinds into the expansion's
   * own landing pad, which exits the monitor: after an enter that raised, and, when the
   * normal-path exit raises, a second time after that exit.
   */
  lemma GuardedMonitorRaises(st: State, s: State, lock: Value)
    requires Valid(st) && |s.blocks| == |st.blocks| + 2
    requires GuardedBy(st, s, lock)
    ensures MonitorRaises(s.blocks, st.cur, |st.blocks[st.cur].instrs|, |st.blocks|, CurrLandingPad(st), lock)
  {
    ExpansionMonitorRaises(s.blocks, st.cur, |st.blocks[st.cur].instrs|, |st.blocks|, CurrLandingPad(st), lock);
  }

  /** The shape of the expansion's outcome, apart from the paths through it. */
  ghost predicate SyncOutcome(st: State, s: State) {
    && Valid(st)
    && Valid(s)
    && |s.blocks| == |st.blocks| + 2
    && s.cur == |st.blocks| + 1
    && s.blocks[|st.blocks|].name == "lpad"
    && s.blocks[|st.blocks| + 1] == Block("end", [])
    && s.frames == st.frames
    && s.loops == st.loops
    && Extends(st, s)
    && ClosedBehind(st, s)
  }

  /** The synchronized expansion from `st` to `s` has its shape, takes `lock` and guards its call with it. */
  ghost predicate SyncExpanded(c: Call, st: State, s: State, lock: Value) {
    && SyncOutcome(st, s)
    && MonitorOf(c, st, s, lock)
    && GuardedBy(st, s, lock)
  }

  /**
   * The expansion's state `locked` once the lock is computed, relative to `st` before the
   * expansion and `withBlocks` after the two new blocks: only plain instructions were appended,
   * and `lock` is the call's monitor.
   */
  ghost predicate LockReady(c: Call, st: State, withBlocks: State, locked: State, lock: Value) {
    && Valid(st)
    && withBlocks == NewBlock(NewBlock(st, "lpad").0, "end").0
    && OnlyAppends(withBlocks, locked) && locked.frames == withBlocks.frames && locked.loops == withBlocks.loops && withBlocks.nextReg <= locked.nextReg
    && locked.translations == st.translations
    && (forall i :: i in Added(withBlocks, locked) ==> IsPlain(i))
    && (c.callee.flags.isStatic ==>
          c.callee.container.ClassType? && lock.Reg? && LoadClassObject(lock.n, c.callee.container.cls) in Added(withBlocks, locked))
    && (!c.callee.flags.isStatic ==>
          HasValue(st, c.target.node) && st.translations[c.target.node] == ValueOf(lock))
  }

  /**
   * The synchronized expansion. Blocks `lpad` and `end` are allocated first and the
   * landing pad active before the expansion is remembered as the outer one; the lock is
   * computed before the frame is pushed; the protected region and then the landing pad
   * are emitted; lowering continues at `end`, with the frame stack as it was.
   */
  method LowerSynchronized(c: Call, layout: Layout, st: State) returns (r: Result<State, LoweringError>, ghost lock: Value)
    requires Valid(st)
    ensures r.Ok? <==>
      (NeedsReceiver(c) ==> HasValue(st, c.target.node)) && (c.callee.flags.isStatic ==> c.callee.container.ClassType?)
    ensures r.Ok? ==> SyncExpanded(c, st, r.value, lock)
    ensures r.Ok? ==>
      (c.callee.returnsVoid ==> r.value.translations == st.translations)
      && (!c.callee.returnsVoid ==> c.node in r.value.translations && r.value.translations[c.node].ValueOf?)
  {
    var (withPad, lpad) := NewBlock(st, "lpad");
    var (withBlocks, end) := NewBlock(withPad, "end");
    lock := Reg(st.nextReg);
    var lk :- LockValue(c, withBlocks);
    lock := lk.1;
    r := GuardedRegion(c, layout, st, withBlocks, lk.0, lk.1);
  }

  /** The synchronized expansion once the lock is computed: the protected region, then the landing pad. */
  method GuardedRegion(c: Call, layout: Layout, st: State, withBlocks: State, locked: State, lock: Value)
    returns (r: Result<State, LoweringError>)
    requires LockReady(c, st, withBlocks, locked, lock)
    ensures r.Ok? <==> (NeedsReceiver(c) ==> HasValue(st, c.target.node))
    ensures r.Ok? ==> SyncExpanded(c, st, r.value, lock)
    ensures r.Ok? ==>
      (c.callee.returnsVoid ==> r.value.translations == st.translations)
      && (!c.callee.returnsVoid ==> c.node in r.value.translations && r.value.translations[c.node].ValueOf?)
  {
    var guarded :- SyncRegion(c, layout, locked, lock, |st.blocks|);
    var s := FinishSync(c, st, withBlocks, locked, guarded, lock);
    r := Ok(s);
  }

  /**
   * The tail of the synchronized expansion, once the protected region is emitted: the
   * landing pad is filled in and the builder moves to `end`.
   */
  method FinishSync(c: Call, st: State, withBlocks: State, locked: State, guarded: State, lock: Value) returns (s: State)
    requires LockReady(c, st, withBlocks, locked, lock)
    requires Protected(locked, guarded, lock, |st.blocks|)
    ensures SyncExpanded(c, st, s, lock)
    ensures s.translations == guarded.translations
  {
    var lpad := |st.blocks|;
    var atPad := PositionAtEnd(guarded, lpad);
    var padDone := SyncLandingPad(atPad, lock, CurrLandingPad(withBlocks));
    s := PositionAtEnd(padDone, lpad + 1);
    SyncFrame(st, withBlocks, locked, guarded, atPad, padDone, s);
    SyncLayout(st, withBlocks, locked, guarded, atPad, padDone, s);
    SyncLockFacts(c, st, s, Added(withBlocks, locked), Added(locked, guarded), lock);
    SyncPadFacts(st, withBlocks, locked, guarded, atPad, padDone, lock);
    SyncExpansionPaths(st, s, Added(withBlocks, locked), Added(locked, guarded), Added(atPad, padDone), lock);
  }

  /**
   * The landing pad releases the monitor with the frame stack as it was before the
   * expansion, so both its monitor-exit and its rethrow go to the outer landing pad.
   */
  lemma SyncPadFacts(st: State, withBlocks: State, locked: State, guarded: State, atPad: State, padDone: State, lock: Value)
    requires withBlocks == NewBlock(NewBlock(st, "lpad").0, "end").0
    requires locked.frames == withBlocks.frames && guarded.frames == locked.frames + [ExceptionFrame(|st.blocks|)]
    requires atPad == guarded.(cur := |st.blocks|)
    requires Valid(atPad) && OnlyAppends(atPad, padDone) && padDone.frames == atPad.frames[..|atPad.frames| - 1]
    requires Added(atPad, padDone) == [LandingPad(atPad.nextReg), ExtractException(atPad.nextReg + 1, Reg(atPad.nextReg)),
                                       MonitorExit(lock, CurrLandingPad(padDone)), Rethrow(Reg(atPad.nextReg + 1), CurrLandingPad(withBlocks)), Unreachable]
    ensures PadShape(Added(atPad, padDone), lock, CurrLandingPad(st))
  {
    assert padDone.frames == st.frames;
  }

  /** The block-level footprint of the synchronized expansion. */
  lemma SyncFrame(st: State, withBlocks: State, locked: State, guarded: State, atPad: State, padDone: State, r: State)
    requires Valid(st)
    requires withBlocks == NewBlock(NewBlock(st, "lpad").0, "end").0
    requires OnlyAppends(withBlocks, locked) && OnlyAppends(locked, guarded) && withBlocks.nextReg <= locked.nextReg <= guarded.nextReg
    requires |Added(locked, guarded)| > 0 && Added(locked, guarded)[|Added(locked, guarded)| - 1] == Br(|st.blocks| + 1)
    requires atPad == guarded.(cur := |st.blocks|)
    requires OnlyAppends(atPad, padDone) && atPad.nextReg <= padDone.nextReg
    requires |Added(atPad, padDone)| > 0 && Added(atPad, padDone)[|Added(atPad, padDone)| - 1] == Unreachable
    requires r == padDone.(cur := |st.blocks| + 1)
    ensures Valid(r) && Extends(st, r) && ClosedBehind(st, r)
    ensures |r.blocks| == |st.blocks| + 2
    ensures r.blocks[|st.blocks|].name == "lpad" && r.blocks[|st.blocks| + 1] == Block("end", [])
  {
    assert withBlocks.blocks == st.blocks + [Block("lpad", []), Block("end", [])];
    OnlyAppendsTrans(withBlocks, locked, guarded);
    var body := guarded.blocks[st.cur].instrs;
    assert body[|body| - 1] == Added(withBlocks, guarded)[|Added(withBlocks, guarded)| - 1];
    assert Terminated(r.blocks[st.cur]);
    var pad := r.blocks[|st.blocks|].instrs;
    assert pad == Added(atPad, padDone);
    assert Terminated(r.blocks[|st.blocks|]);
  }

  /** Where the appended instructions of the expansion sit in the final blocks. */
  lemma SyncLayout(st: State, withBlocks: State, locked: State, guarded: State, atPad: State, padDone: State, r: State)
    requires Valid(st)
    requires withBlocks == NewBlock(NewBlock(st, "lpad").0, "end").0
    requires OnlyAppends(withBlocks, locked) && OnlyAppends(locked, guarded)
    requires atPad == guarded.(cur := |st.blocks|)
    requires OnlyAppends(atPad, padDone)
    requires r == padDone.(cur := |st.blocks| + 1)
    ensures |r.blocks| == |st.blocks| + 2
    ensures |st.blocks[st.cur].instrs| <= |r.blocks[st.cur].instrs|
    ensures r.blocks[st.cur].instrs[|st.blocks[st.cur].instrs|..] == Added(withBlocks, locked) + Added(locked, guarded)
    ensures r.blocks[|st.blocks|].instrs == Added(atPad, padDone)
  {
    assert withBlocks.blocks == st.blocks + [Block("lpad", []), Block("end", [])];
    OnlyAppendsTrans(withBlocks, locked, guarded);
    assert r.blocks[st.cur] == guarded.blocks[st.cur];
  }

  /** The lock of the expansion is the monitor of the call. */
  lemma SyncLockFacts(c: Call, st: State, r: State, prep: seq<Instr>, region: seq<Instr>, lock: Value)
    requires Valid(st) && st.cur < |r.blocks| && |st.blocks[st.cur].instrs| <= |r.blocks[st.cur].instrs|
    requires r.blocks[st.cur].instrs[|st.blocks[st.cur].instrs|..] == prep + region
    requires c.callee.flags.isStatic ==>
      c.callee.container.ClassType? && lock.Reg? && LoadClassObject(lock.n, c.callee.container.cls) in prep
    requires !c.callee.flags.isStatic ==>
      HasValue(st, c.target.node) && st.translations[c.target.node] == ValueOf(lock)
    ensures MonitorOf(c, st, r, lock)
  {
    assert Added(st, r) == prep + region;
  }

  /** The expansion's appended instructions are laid out as `Expansion` says. */
  lemma SyncExpansionPaths(st: State, r: State, prep: seq<Instr>, region: seq<Instr>, pad: seq<Instr>, lock: Value)
    requires Valid(st) && |r.blocks| == |st.blocks| + 2
    requires |st.blocks[st.cur].instrs| <= |r.blocks[st.cur].instrs|
    requires r.blocks[st.cur].instrs[|st.blocks[st.cur].instrs|..] == prep + region
    requires r.blocks[|st.blocks|].instrs == pad
    requires forall i :: i in prep ==> IsPlain(i)
    requires RegionShape(region, lock, |st.blocks|, |st.blocks| + 1)
    requires PadShape(pad, lock, CurrLandingPad(st))
    ensures GuardedBy(st, r, lock)
  {
    var run := r.blocks[st.cur].instrs[|st.blocks[st.cur].instrs|..];
    assert run[..|prep|] == prep && run[|prep|..] == region;
    assert RegionAt(run, |prep|, lock, |st.blocks|);
  }

  /**
   * What lowering any call leaves behind: the stacks as they were, the blocks extended
   * and closed behind the builder, an open block at the builder, and a translation for
   * the call node, which is the placeholder exactly when the method returns void.
   */
  ghost predicate CallLowered(c: Call, st: State, s: State) {
    && Valid(s)
    && s.frames == st.frames
    && s.loops == st.loops
    && Extends(st, s)
    && ClosedBehind(st, s)
    && !Terminated(CurrentBlock(s))
    && c.node in s.translations
    && (c.callee.returnsVoid <==> s.translations[c.node] == Placeholder)
  }

  /**
   * Lowering a call expression: a void call first gets the placeholder translation;
   * a call to a synchronized method is expanded, any other call takes the generic step.
   */
  method LowerCall(c: Call, layout: Layout, st: State) returns (r: Result<State, LoweringError>)
    requires Valid(st) && c.node != c.target.node
    ensures r.Ok? <==> CanLower(c, st)
    ensures r.Ok? ==> CallLowered(c, st, r.value)
    ensures r.Ok? && !c.callee.flags.isSynchronized ==>
      && r.value.cur == st.cur && |r.value.blocks| == |st.blocks|
      && |Added(st, r.value)| > 0
      && (forall i :: i in Added(st, r.value)[..|Added(st, r.value)| - 1] ==> IsAddressComputation(i))
      && Added(st, r.value)[|Added(st, r.value)| - 1].Invoke?
      && Added(st, r.value)[|Added(st, r.value)| - 1].unwind == CurrLandingPad(st)
    ensures r.Ok? && c.callee.flags.isSynchronized ==>
      && r.value.cur == |st.blocks| + 1 && |r.value.blocks| == |st.blocks| + 2
      && (exists lock :: MonitorOf(c, st, r.value, lock) && GuardedBy(st, r.value, lock))
  {
    if c.callee.flags.isSynchronized {
      r := LowerSynchronizedCall(c, layout, st);
    } else {
      r := LowerPlainCall(c, layout, st);
    }
  }

  /** The state a call is lowered in: a void call's node already has the placeholder translation. */
  function WithPlaceholder(c: Call, st: State): (r: State)
    ensures r == st.(translations := r.translations)
    ensures c.callee.returnsVoid ==> r.translations == st.translations[c.node := Placeholder]
    ensures !c.callee.returnsVoid ==> r == st
  {
    if c.callee.returnsVoid then st.(translations := st.translations[c.node := Placeholder]) else st
  }

  /** A call to a method that is not synchronized: the generic call step. */
  method LowerPlainCall(c: Call, layout: Layout, st: State) returns (r: Result<State, LoweringError>)
    requires Valid(st) && c.node != c.target.node && !c.callee.flags.isSynchronized
    ensures r.Ok? <==> CanLower(c, st)
    ensures r.Ok? ==> CallLowered(c, st, r.value)
    ensures r.Ok? ==>
      && r.value.cur == st.cur && |r.value.blocks| == |st.blocks|
      && |Added(st, r.value)| > 0
      && (forall i :: i in Added(st, r.value)[..|Added(st, r.value)| - 1] ==> IsAddressComputation(i))
      && Added(st, r.value)[|Added(st, r.value)| - 1].Invoke?
      && Added(st, r.value)[|Added(st, r.value)| - 1].unwind == CurrLandingPad(st)
  {
    var st0 := WithPlaceholder(c, st);
    r := GenericCall(c, layout, st0);
    if r.Ok? {
      OnlyAppendsExtends(st0, r.value);
      var body := r.value.blocks[st.cur].instrs;
      assert body[|body| - 1] == Added(st0, r.value)[|Added(st0, r.value)| - 1];
    }
  }

  /** A call to a synchronized method: the synchronized expansion. */
  method LowerSynchronizedCall(c: Call, layout: Layout, st: State) returns (r: Result<State, LoweringError>)
    requires Valid(st) && c.node != c.target.node && c.callee.flags.isSynchronized
    ensures r.Ok? <==> CanLower(c, st)
    ensures r.Ok? ==> CallLowered(c, st, r.value)
    ensures r.Ok? ==>
      && r.value.cur == |st.blocks| + 1 && |r.value.blocks| == |st.blocks| + 2
      && (exists lock :: MonitorOf(c, st, r.value, lock) && GuardedBy(st, r.value, lock))
  {
    var st0 := WithPlaceholder(c, st);
    ghost var lock;
    r, lock := LowerSynchronized(c, layout, st0);
    if r.Ok? {
      SynchronizedCallLowered(c, st, r.value, lock);
    }
  }

  /** The outcome of the synchronized expansion, seen from the state before the placeholder. */
  lemma SynchronizedCallLowered(c: Call, st: State, s: State, lock: Value)
    requires Valid(st) && c.node != c.target.node
    requires SyncExpanded(c, WithPlaceholder(c, st), s, lock)
    requires c.callee.returnsVoid ==> s.translations == WithPlaceholder(c, st).translations
    requires !c.callee.returnsVoid ==> c.node in s.translations && s.translations[c.node].ValueOf?
    ensures CallLowered(c, st, s)
    ensures s.cur == |st.blocks| + 1 && |s.blocks| == |st.blocks| + 2
    ensures MonitorOf(c, st, s, lock)
    ensures GuardedBy(st, s, lock)
  {
    var st0 := WithPlaceholder(c, st);
    SyncCallShape(c, st, s);
    MonitorOfTranslations(c, st0, st, s, lock);
    GuardedByTranslations(st0, st, s, lock);
  }

  /** The block-level outcome of the synchronized expansion is that of a lowered call. */
  lemma SyncCallShape(c: Call, st: State, s: State)
    requires Valid(st)
    requires SyncOutcome(WithPlaceholder(c, st), s)
    requires c.callee.returnsVoid ==> s.translations == WithPlaceholder(c, st).translations
    requires !c.callee.returnsVoid ==> c.node in s.translations && s.translations[c.node].ValueOf?
    ensures CallLowered(c, st, s)
    ensures s.cur == |st.blocks| + 1 && |s.blocks| == |st.blocks| + 2
  {
    assert CurrentBlock(s) == Block("end", []);
  }

  /** The monitor of a call does not depend on translations other than the receiver's. */
  lemma MonitorOfTranslations(c: Call, st0: State, st: State, s: State, lock: Value)
    requires Valid(st0) && st0.cur < |s.blocks| && |st0.blocks[st0.cur].instrs| <= |s.blocks[st0.cur].instrs|
    requires st0 == st.(translations := st0.translations)
    requires c.target.node in st.translations ==> c.target.node in st0.translations
                                                  && st0.translations[c.target.node] == st.translations[c.target.node]
    requires c.target.node in st0.translations ==> c.target.node in st.translations
    requires MonitorOf(c, st0, s, lock)
    ensures MonitorOf(c, st, s, lock)
  {
  }

  /** The layout of the expansion does not depend on the translations. */
  lemma GuardedByTranslations(st0: State, st: State, s: State, lock: Value)
    requires Valid(st0)
    requires st0 == st.(translations := st0.translations)
    requires GuardedBy(st0, s, lock)
    ensures GuardedBy(st, s, lock)
  {
  }
}
