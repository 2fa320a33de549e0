/**
 * Execution paths through emitted blocks. A walk follows the instructions of a block,
 * takes unconditional branches, and, when the walk models a raised exception, leaves
 * the first call through its unwind edge. The observable events of a path are its
 * monitor operations, calls and rethrows.
 */
module Paths {
  import opened Base
  import opened Ir

  /** Whether a walk leaves the straight line at `i`; `raise` says the next call throws. */
  predicate Diverts(i: Instr, raise: bool) {
    IsTerminator(i) || i.Rethrow? || (raise && i.Invoke?)
  }

  /**
   * The instructions executed from instruction `k` of block `b` until block `stop` is
   * reached, the path leaves the function (return, rethrow, unreachable, a call raising
   * with no landing pad), a conditional branch is met, or `fuel` runs out. With `raise`,
   * the first call raises and control continues at its landing pad.
   */
  function Walk(blocks: seq<Block>, b: BlockId, k: nat, stop: BlockId, raise: bool, fuel: nat): seq<Instr>
    decreases fuel
  {
    if fuel == 0 || b >= |blocks| || b == stop || k >= |blocks[b].instrs| then []
    else
      var i := blocks[b].instrs[k];
      if i.Br? then [i] + Walk(blocks, i.target, 0, stop, raise, fuel - 1)
      else if raise && i.Invoke? then
        if i.unwind.Some? then [i] + Walk(blocks, i.unwind.value, 0, stop, false, fuel - 1) else [i]
      else if Diverts(i, raise) then [i]
      else [i] + Walk(blocks, b, k + 1, stop, raise, fuel - 1)
  }

  /** What a path does that matters for monitor pairing. */
  datatype Event =
    | Enter(lock: Value, activePad: Option<BlockId>)
    | Exit(lock: Value, activePad: Option<BlockId>)
    | Invoked(unwind: Option<BlockId>)
    | Throw(unwind: Option<BlockId>)

  predicate Silent(i: Instr) {
    !i.MonitorEnter? && !i.MonitorExit? && !i.Invoke? && !i.Rethrow?
  }

  function EventOf(i: Instr): seq<Event> {
    match i
    case MonitorEnter(lock, pad) => [Enter(lock, pad)]
    case MonitorExit(lock, pad) => [Exit(lock, pad)]
    case Invoke(_, _, _, unwind) => [Invoked(unwind)]
    case Rethrow(_, unwind) => [Throw(unwind)]
    case _ => []
  }

  function Events(path: seq<Instr>): seq<Event> {
    if |path| == 0 then [] else EventOf(path[0]) + Events(path[1..])
  }

  lemma {:induction false} EventsAppend(a: seq<Instr>, b: seq<Instr>)
    ensures Events(a + b) == Events(a) + Events(b)
  {
    if |a| == 0 {
      assert a + b == b;
    } else {
      assert (a + b)[1..] == a[1..] + b;
      EventsAppend(a[1..], b);
    }
  }

  lemma {:induction false} EventsSilent(run: seq<Instr>)
    requires forall i :: i in run ==> Silent(i)
    ensures Events(run) == []
  {
    if |run| > 0 {
      assert run[0] in run;
      assert forall i :: i in run[1..] ==> i in run;
      EventsSilent(run[1..]);
    }
  }

  /** A straight run of `n` instructions that do not divert is walked instruction by instruction. */
  lemma {:induction false} WalkStraight(blocks: seq<Block>, b: BlockId, k: nat, n: nat, stop: BlockId, raise: bool, fuel: nat)
    requires b < |blocks| && b != stop && k + n <= |blocks[b].instrs| && n <= fuel
    requires forall j :: k <= j < k + n ==> !Diverts(blocks[b].instrs[j], raise)
    ensures Walk(blocks, b, k, stop, raise, fuel)
            == blocks[b].instrs[k..k + n] + Walk(blocks, b, k + n, stop, raise, fuel - n)
    decreases n
  {
    if n > 0 {
      var i := blocks[b].instrs[k];
      assert !Diverts(i, raise);
      WalkStraight(blocks, b, k + 1, n - 1, stop, raise, fuel - 1);
      assert blocks[b].instrs[k..k + n] == [i] + blocks[b].instrs[k + 1..k + n];
    }
  }

  /** A raised call leaves the block through its unwind edge. */
  lemma WalkRaiseStep(blocks: seq<Block>, b: BlockId, k: nat, stop: BlockId, fuel: nat)
    requires b < |blocks| && b != stop && k < |blocks[b].instrs| && 0 < fuel
    requires blocks[b].instrs[k].Invoke? && blocks[b].instrs[k].unwind.Some?
    ensures Walk(blocks, b, k, stop, true, fuel)
            == [blocks[b].instrs[k]] + Walk(blocks, blocks[b].instrs[k].unwind.value, 0, stop, false, fuel - 1)
  {
  }

  /** An unconditional branch is followed. */
  lemma WalkBrStep(blocks: seq<Block>, b: BlockId, k: nat, stop: BlockId, raise: bool, fuel: nat)
    requires b < |blocks| && b != stop && k < |blocks[b].instrs| && 0 < fuel
    requires blocks[b].instrs[k].Br?
    ensures Walk(blocks, b, k, stop, raise, fuel)
            == [blocks[b].instrs[k]] + Walk(blocks, blocks[b].instrs[k].target, 0, stop, raise, fuel - 1)
  {
  }

  /** Any other diverting instruction ends the path. */
  lemma WalkEndsAt(blocks: seq<Block>, b: BlockId, k: nat, stop: BlockId, raise: bool, fuel: nat)
    requires b < |blocks| && b != stop && k < |blocks[b].instrs| && 0 < fuel
    requires Diverts(blocks[b].instrs[k], raise) && !blocks[b].instrs[k].Br? && !(raise && blocks[b].instrs[k].Invoke?)
    ensures Walk(blocks, b, k, stop, raise, fuel) == [blocks[b].instrs[k]]
  {
  }

  /** None of the instructions of `run` leaves the straight line. */
  predicate Straight(run: seq<Instr>, raise: bool) {
    forall i :: i in run ==> !Diverts(i, raise)
  }

  /** A straight run sitting at instruction `k` of block `b` is walked as it stands. */
  lemma WalkRun(blocks: seq<Block>, b: BlockId, k: nat, run: seq<Instr>, stop: BlockId, raise: bool, fuel: nat)
    requires b < |blocks| && b != stop && k + |run| <= |blocks[b].instrs| && |run| <= fuel
    requires blocks[b].instrs[k..k + |run|] == run
    requires Straight(run, raise)
    ensures Walk(blocks, b, k, stop, raise, fuel) == run + Walk(blocks, b, k + |run|, stop, raise, fuel - |run|)
  {
    StraightAt(blocks, b, k, run, raise);
    WalkStraight(blocks, b, k, |run|, stop, raise, fuel);
  }

  /** A straight run sitting at instruction `k` of block `b` does not divert at any of its positions. */
  lemma StraightAt(blocks: seq<Block>, b: BlockId, k: nat, run: seq<Instr>, raise: bool)
    requires b < |blocks| && k + |run| <= |blocks[b].instrs|
    requires blocks[b].instrs[k..k + |run|] == run
    requires Straight(run, raise)
    ensures forall j :: k <= j < k + |run| ==> !Diverts(blocks[b].instrs[j], raise)
  {
    forall j | k <= j < k + |run|
      ensures !Diverts(blocks[b].instrs[j], raise)
    {
      assert blocks[b].instrs[j] == run[j - k];
      assert run[j - k] in run;
    }
  }

  lemma EventsSingle(i: Instr)
    ensures Events([i]) == EventOf(i)
  {
    assert [i][1..] == [];
  }

  /** The instructions that call into the runtime, and so may raise; each records where it unwinds to. */
  predicate MayRaise(i: Instr) {
    i.Invoke? || i.MonitorEnter? || i.MonitorExit?
  }

  function UnwindTarget(i: Instr): Option<BlockId>
    requires MayRaise(i)
  {
    match i
    case Invoke(_, _, _, unwind) => unwind
    case MonitorEnter(_, pad) => pad
    case MonitorExit(_, pad) => pad
  }

  /**
   * The path from instruction `k` of block `b` on which instruction `j` of the same block
   * raises, if it can, and nothing before it does; control then continues at its landing
   * pad, where nothing raises. The path ends at any diverting instruction before `j`.
   */
  function WalkRaisingAt(blocks: seq<Block>, b: BlockId, k: nat, j: nat, stop: BlockId, fuel: nat): seq<Instr>
    decreases fuel
  {
    if fuel == 0 || b >= |blocks| || b == stop || k >= |blocks[b].instrs| then []
    else
      var i := blocks[b].instrs[k];
      if k == j && MayRaise(i) then
        match UnwindTarget(i)
        case Some(pad) => [i] + Walk(blocks, pad, 0, stop, false, fuel - 1)
        case None => [i]
      else if Diverts(i, false) then [i]
      else [i] + WalkRaisingAt(blocks, b, k + 1, j, stop, fuel - 1)
  }

  /** Before the raising instruction, a straight stretch of `n` instructions is walked one by one. */
  lemma {:induction false} WalkRaisingAtStraight(blocks: seq<Block>, b: BlockId, k: nat, j: nat, n: nat, stop: BlockId, fuel: nat)
    requires b < |blocks| && b != stop && k + n <= |blocks[b].instrs| && n <= fuel && k + n <= j
    requires forall x :: k <= x < k + n ==> !Diverts(blocks[b].instrs[x], false)
    ensures WalkRaisingAt(blocks, b, k, j, stop, fuel)
            == blocks[b].instrs[k..k + n] + WalkRaisingAt(blocks, b, k + n, j, stop, fuel - n)
    decreases n
  {
    if n > 0 {
      var i := blocks[b].instrs[k];
      assert !Diverts(i, false);
      WalkRaisingAtStraight(blocks, b, k + 1, j, n - 1, stop, fuel - 1);
      assert blocks[b].instrs[k..k + n] == [i] + blocks[b].instrs[k + 1..k + n];
    }
  }

  /** Before the raising instruction, a straight run is walked as it stands. */
  lemma WalkRaisingAtRun(blocks: seq<Block>, b: BlockId, k: nat, j: nat, run: seq<Instr>, stop: BlockId, fuel: nat)
    requires b < |blocks| && b != stop && k + |run| <= |blocks[b].instrs| && |run| <= fuel && k + |run| <= j
    requires blocks[b].instrs[k..k + |run|] == run
    requires Straight(run, false)
    ensures WalkRaisingAt(blocks, b, k, j, stop, fuel) == run + WalkRaisingAt(blocks, b, k + |run|, j, stop, fuel - |run|)
  {
    StraightAt(blocks, b, k, run, false);
    WalkRaisingAtStraight(blocks, b, k, j, |run|, stop, fuel);
  }

  /** The raising instruction leaves the block through its unwind edge. */
  lemma WalkRaisingAtStep(blocks: seq<Block>, b: BlockId, k: nat, stop: BlockId, fuel: nat)
    requires b < |blocks| && b != stop && k < |blocks[b].instrs| && 0 < fuel
    requires MayRaise(blocks[b].instrs[k]) && UnwindTarget(blocks[b].instrs[k]).Some?
    ensures WalkRaisingAt(blocks, b, k, k, stop, fuel)
            == [blocks[b].instrs[k]] + Walk(blocks, UnwindTarget(blocks[b].instrs[k]).value, 0, stop, false, fuel - 1)
  {
  }
}
