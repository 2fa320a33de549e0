/**
 * The two execution paths through a synchronized-call expansion, stated on the shape of
 * the emitted instructions: the protected region appended to the insertion block and
 * the landing-pad block.
 */
module SyncPaths {
  import opened Base
  import opened Ir
  import opened Paths

  /**
   * The protected region: monitor-enter, the function-pointer computation, the call
   * (unwinding to `lpad`), monitor-exit and the branch to `end`.
   */
  predicate RegionShape(run: seq<Instr>, lock: Value, lpad: BlockId, end: BlockId) {
    && |run| >= 4
    && run[0] == MonitorEnter(lock, Some(lpad))
    && (forall i :: i in run[1..|run| - 3] ==> IsAddressComputation(i))
    && run[|run| - 3].Invoke? && run[|run| - 3].unwind == Some(lpad)
    && run[|run| - 2] == MonitorExit(lock, Some(lpad))
    && run[|run| - 1] == Br(end)
  }

  /** The landing pad: catch, extract, monitor-exit, rethrow to `outer`, unreachable. */
  predicate PadShape(run: seq<Instr>, lock: Value, outer: Option<BlockId>) {
    && |run| == 5
    && run[0].LandingPad?
    && run[1].ExtractException?
    && run[2] == MonitorExit(lock, outer)
    && run[3].Rethrow? && run[3].unwind == outer
    && run[4] == Unreachable
  }

  /** A prefix of plain instructions followed by a run, as appended to block `cur` from index `k0`. */
  predicate Appended(blocks: seq<Block>, cur: BlockId, k0: nat, prep: seq<Instr>, region: seq<Instr>) {
    && cur < |blocks|
    && k0 <= |blocks[cur].instrs| && blocks[cur].instrs[k0..] == prep + region
    && (forall i :: i in prep ==> IsPlain(i))
  }

  /** The parts of a region: enter, the pointer computation `mid`, the call, exit, branch. */
  predicate RegionParts(region: seq<Instr>, mid: seq<Instr>, call: Instr, lock: Value, lpad: BlockId, end: BlockId) {
    && region == [MonitorEnter(lock, Some(lpad))] + mid + [call] + [MonitorExit(lock, Some(lpad))] + [Br(end)]
    && (forall i :: i in mid ==> IsAddressComputation(i))
    && call.Invoke? && call.unwind == Some(lpad)
  }

  lemma RegionSplit(region: seq<Instr>, lock: Value, lpad: BlockId, end: BlockId)
    requires RegionShape(region, lock, lpad, end)
    ensures RegionParts(region, region[1..|region| - 3], region[|region| - 3], lock, lpad, end)
  {
    var n := |region|;
    assert region == [region[0]] + region[1..n - 3] + [region[n - 3]] + [region[n - 2]] + [region[n - 1]];
  }

  /** The events of the region up to its call: the enter and the call. */
  lemma {:induction false} FrontEvents(mid: seq<Instr>, call: Instr, lock: Value, lpad: BlockId)
    requires forall i :: i in mid ==> IsAddressComputation(i)
    requires call.Invoke? && call.unwind == Some(lpad)
    ensures Events([MonitorEnter(lock, Some(lpad))] + mid + [call]) == [Enter(lock, Some(lpad)), Invoked(Some(lpad))]
  {
    var enter := [MonitorEnter(lock, Some(lpad))];
    assert forall i :: i in mid ==> Silent(i);
    EventsSilent(mid);
    EventsSingle(enter[0]);
    EventsAppend(enter, mid);
    assert Events(enter + mid) == [Enter(lock, Some(lpad))];
    EventsSingle(call);
    EventsAppend(enter + mid, [call]);
  }

  /** The events of the protected region: one enter, the call, one exit, all naming `lpad`. */
  lemma {:induction false} RegionEvents(region: seq<Instr>, mid: seq<Instr>, call: Instr, lock: Value, lpad: BlockId, end: BlockId)
    requires RegionParts(region, mid, call, lock, lpad, end)
    ensures Events([MonitorEnter(lock, Some(lpad))] + mid + [call]) == [Enter(lock, Some(lpad)), Invoked(Some(lpad))]
    ensures Events(region) == [Enter(lock, Some(lpad)), Invoked(Some(lpad)), Exit(lock, Some(lpad))]
  {
    var front := [MonitorEnter(lock, Some(lpad))] + mid + [call];
    var exit := MonitorExit(lock, Some(lpad));
    FrontEvents(mid, call, lock, lpad);
    EventsSingle(exit);
    EventsAppend(front, [exit]);
    assert Events(front + [exit]) == [Enter(lock, Some(lpad)), Invoked(Some(lpad)), Exit(lock, Some(lpad))];
    EventsSingle(Br(end));
    EventsAppend(front + [exit], [Br(end)]);
  }

  lemma {:induction false} PrepSilent(prep: seq<Instr>)
    requires forall i :: i in prep ==> IsPlain(i)
    ensures Events(prep) == []
  {
    EventsSilent(prep);
  }

  /** Plain instructions never leave the straight line. */
  lemma PlainStraight(prep: seq<Instr>, rest: seq<Instr>, raise: bool)
    requires forall i :: i in prep ==> IsPlain(i)
    requires Straight(rest, raise)
    ensures Straight(prep + rest, raise)
  {
    forall i | i in prep + rest ensures !Diverts(i, raise) {
      if i in prep {
        assert IsPlain(i);
      }
    }
  }

  /** The instructions of `blocks[cur]` from `k0` on, cut where the lemmas below need them. */
  lemma AppendedSlice(blocks: seq<Block>, cur: BlockId, k0: nat, prep: seq<Instr>, region: seq<Instr>, front: seq<Instr>)
    requires Appended(blocks, cur, k0, prep, region)
    requires front <= region
    ensures k0 + |prep| + |front| <= |blocks[cur].instrs|
    ensures blocks[cur].instrs[k0..k0 + |prep + front|] == prep + front
    ensures k0 + |prep| + |front| < |blocks[cur].instrs| ==>
              blocks[cur].instrs[k0 + |prep| + |front|] == region[|front|]
  {
    var body := blocks[cur].instrs;
    assert body[k0..][..|prep + front|] == prep + front by {
      assert (prep + region)[..|prep + front|] == prep + front;
    }
    assert body[k0..][|prep| + |front|..] == region[|front|..];
  }

  /** Without an exception, the path from the start of the expansion is the whole appended run. */
  lemma {:induction false} NormalRun(blocks: seq<Block>, cur: BlockId, lpad: BlockId, end: BlockId, k0: nat,
                                     prep: seq<Instr>, region: seq<Instr>, mid: seq<Instr>, call: Instr,
                                     lock: Value, fuel: nat)
    requires Appended(blocks, cur, k0, prep, region) && cur != end
    requires RegionParts(region, mid, call, lock, lpad, end)
    requires |blocks[cur].instrs| <= fuel
    ensures Walk(blocks, cur, k0, end, false, fuel) == prep + region
  {
    var head := [MonitorEnter(lock, Some(lpad))] + mid + [call] + [MonitorExit(lock, Some(lpad))];
    assert region == head + [Br(end)];
    AppendedSlice(blocks, cur, k0, prep, region, head);
    PlainStraight(prep, head, false);
    WalkRun(blocks, cur, k0, prep + head, end, false, fuel);
    WalkBrStep(blocks, cur, k0 + |prep + head|, end, false, fuel - |prep + head|);
  }

  /** The appended run ends in the branch to `end`, with one enter, the call and one exit on the lock. */
  lemma {:induction false} NormalEvents(prep: seq<Instr>, region: seq<Instr>, mid: seq<Instr>, call: Instr,
                                        lock: Value, lpad: BlockId, end: BlockId)
    requires forall i :: i in prep ==> IsPlain(i)
    requires RegionParts(region, mid, call, lock, lpad, end)
    ensures var normal := prep + region;
      && |normal| > 0 && normal[|normal| - 1] == Br(end)
      && Events(normal) == [Enter(lock, Some(lpad)), Invoked(Some(lpad)), Exit(lock, Some(lpad))]
  {
    PrepSilent(prep);
    RegionEvents(region, mid, call, lock, lpad, end);
    EventsAppend(prep, region);
  }

  /**
   * Without an exception, the path from the start of the expansion is the whole appended
   * run, ending in the branch to `end`, with one enter, the call and one exit on the lock.
   */
  lemma NormalWalk(blocks: seq<Block>, cur: BlockId, lpad: BlockId, end: BlockId, k0: nat,
                   prep: seq<Instr>, region: seq<Instr>, mid: seq<Instr>, call: Instr,
                   lock: Value, fuel: nat)
    requires Appended(blocks, cur, k0, prep, region) && cur != end
    requires RegionParts(region, mid, call, lock, lpad, end)
    requires |blocks[cur].instrs| <= fuel
    ensures var normal := Walk(blocks, cur, k0, end, false, fuel);
      && |normal| > 0 && normal[|normal| - 1] == Br(end)
      && Events(normal) == [Enter(lock, Some(lpad)), Invoked(Some(lpad)), Exit(lock, Some(lpad))]
  {
    NormalRun(blocks, cur, lpad, end, k0, prep, region, mid, call, lock, fuel);
    NormalEvents(prep, region, mid, call, lock, lpad, end);
  }

  /** From the top of the landing pad the path runs to the rethrow. */
  lemma PadWalk(blocks: seq<Block>, lpad: BlockId, end: BlockId, pad: seq<Instr>,
                lock: Value, outer: Option<BlockId>, fuel: nat)
    requires lpad < |blocks| && lpad != end && blocks[lpad].instrs == pad
    requires PadShape(pad, lock, outer)
    requires 4 <= fuel
    ensures Walk(blocks, lpad, 0, end, false, fuel) == pad[..4]
  {
    forall j | 0 <= j < 3
      ensures !Diverts(blocks[lpad].instrs[j], false)
    {
    }
    WalkStraight(blocks, lpad, 0, 3, end, false, fuel);
    WalkEndsAt(blocks, lpad, 3, end, false, fuel - 3);
    assert pad[..4] == pad[0..3] + [pad[3]];
  }

  /** The events of the landing pad's path: one exit on the lock, then the rethrow. */
  lemma {:induction false} PadEvents(pad: seq<Instr>, lock: Value, outer: Option<BlockId>)
    requires PadShape(pad, lock, outer)
    ensures Events(pad[..4]) == [Exit(lock, outer), Throw(outer)]
  {
    assert pad[..4] == [pad[0]] + [pad[1]] + [pad[2]] + [pad[3]];
    EventsSingle(pad[0]);
    EventsSingle(pad[1]);
    EventsSingle(pad[2]);
    EventsSingle(pad[3]);
    EventsAppend([pad[0]], [pad[1]]);
    EventsAppend([pad[0]] + [pad[1]], [pad[2]]);
    EventsAppend([pad[0]] + [pad[1]] + [pad[2]], [pad[3]]);
  }

  /** When the call raises, the path runs straight to the call and continues at the landing pad. */
  lemma {:induction false} WalkToCall(blocks: seq<Block>, cur: BlockId, lpad: BlockId, end: BlockId, k0: nat,
                                      prep: seq<Instr>, region: seq<Instr>, mid: seq<Instr>, call: Instr,
                                      lock: Value, fuel: nat)
    requires Appended(blocks, cur, k0, prep, region) && cur != end
    requires RegionParts(region, mid, call, lock, lpad, end)
    requires |blocks[cur].instrs| < fuel
    ensures var front := [MonitorEnter(lock, Some(lpad))] + mid;
      Walk(blocks, cur, k0, end, true, fuel)
      == prep + front + [call] + Walk(blocks, lpad, 0, end, false, fuel - |prep + front| - 1)
  {
    var front := [MonitorEnter(lock, Some(lpad))] + mid;
    assert region == front + ([call] + [MonitorExit(lock, Some(lpad))] + [Br(end)]);
    assert front <= region;
    AppendedSlice(blocks, cur, k0, prep, region, front);
    PlainStraight(prep, front, true);
    WalkRun(blocks, cur, k0, prep + front, end, true, fuel);
    assert blocks[cur].instrs[k0 + |prep + front|] == call;
    WalkRaiseStep(blocks, cur, k0 + |prep + front|, end, fuel - |prep + front|);
  }

  /** When the call raises, the path is the run up to the call followed by the landing pad's. */
  lemma RaisedRun(blocks: seq<Block>, cur: BlockId, lpad: BlockId, end: BlockId, k0: nat,
                  prep: seq<Instr>, region: seq<Instr>, mid: seq<Instr>, call: Instr,
                  pad: seq<Instr>, lock: Value, outer: Option<BlockId>, fuel: nat)
    requires Appended(blocks, cur, k0, prep, region) && lpad < |blocks|
    requires cur != lpad && cur != end && lpad != end
    requires blocks[lpad].instrs == pad
    requires RegionParts(region, mid, call, lock, lpad, end)
    requires PadShape(pad, lock, outer)
    requires |blocks[cur].instrs| + |pad| <= fuel
    ensures Walk(blocks, cur, k0, end, true, fuel) == prep + ([MonitorEnter(lock, Some(lpad))] + mid) + [call] + pad[..4]
  {
    var front := [MonitorEnter(lock, Some(lpad))] + mid;
    WalkToCall(blocks, cur, lpad, end, k0, prep, region, mid, call, lock, fuel);
    PadWalk(blocks, lpad, end, pad, lock, outer, fuel - |prep + front| - 1);
  }

  /**
   * The run up to the call and then the landing pad: one enter and the call inside the
   * region, then the pad's single exit on the same lock and the rethrow to `outer`.
   */
  lemma {:induction false} RaisedEvents(prep: seq<Instr>, mid: seq<Instr>, call: Instr, pad: seq<Instr>,
                                        lock: Value, lpad: BlockId, outer: Option<BlockId>)
    requires forall i :: i in prep ==> IsPlain(i)
    requires forall i :: i in mid ==> IsAddressComputation(i)
    requires call.Invoke? && call.unwind == Some(lpad)
    requires PadShape(pad, lock, outer)
    ensures var raised := prep + ([MonitorEnter(lock, Some(lpad))] + mid) + [call] + pad[..4];
      && |raised| > 0
      && raised[|raised| - 1].Rethrow? && raised[|raised| - 1].unwind == outer
      && Events(raised) == [Enter(lock, Some(lpad)), Invoked(Some(lpad)), Exit(lock, outer), Throw(outer)]
  {
    var front := [MonitorEnter(lock, Some(lpad))] + mid + [call];
    assert prep + ([MonitorEnter(lock, Some(lpad))] + mid) + [call] == prep + front;
    PrepSilent(prep);
    FrontEvents(mid, call, lock, lpad);
    PadEvents(pad, lock, outer);
    EventsAppend(prep, front);
    EventsAppend(prep + front, pad[..4]);
  }

  /**
   * When the call raises, the path from the start of the expansion runs up to the call,
   * then the landing pad: one enter and the call inside the region, then the pad's single
   * exit on the same lock and the rethrow to `outer`.
   */
  lemma RaisedWalk(blocks: seq<Block>, cur: BlockId, lpad: BlockId, end: BlockId, k0: nat,
                   prep: seq<Instr>, region: seq<Instr>, mid: seq<Instr>, call: Instr,
                   pad: seq<Instr>, lock: Value, outer: Option<BlockId>, fuel: nat)
    requires Appended(blocks, cur, k0, prep, region) && lpad < |blocks|
    requires cur != lpad && cur != end && lpad != end
    requires blocks[lpad].instrs == pad
    requires RegionParts(region, mid, call, lock, lpad, end)
    requires PadShape(pad, lock, outer)
    requires |blocks[cur].instrs| + |pad| <= fuel
    ensures var raised := Walk(blocks, cur, k0, end, true, fuel);
      && |raised| > 0
      && raised[|raised| - 1].Rethrow? && raised[|raised| - 1].unwind == outer
      && Events(raised) == [Enter(lock, Some(lpad)), Invoked(Some(lpad)), Exit(lock, outer), Throw(outer)]
  {
    RaisedRun(blocks, cur, lpad, end, k0, prep, region, mid, call, pad, lock, outer, fuel);
    RaisedEvents(prep, mid, call, pad, lock, lpad, outer);
  }

  /**
   * Without an exception, the expansion that starts at instruction `k0` of block `cur`,
   * with landing pad `lpad` and continuation block `lpad + 1`, enters the monitor, makes
   * the call and exits the monitor once, every one of them unwinding to `lpad`, and ends
   * in the branch to the continuation.
   */
  ghost predicate NormalPath(blocks: seq<Block>, cur: BlockId, k0: nat, lpad: BlockId, lock: Value)
    requires cur < |blocks| && lpad < |blocks|
  {
    var fuel := |blocks[cur].instrs| + |blocks[lpad].instrs|;
    var normal := Walk(blocks, cur, k0, lpad + 1, false, fuel);
    && |normal| > 0 && normal[|normal| - 1] == Br(lpad + 1)
    && Events(normal) == [Enter(lock, Some(lpad)), Invoked(Some(lpad)), Exit(lock, Some(lpad))]
  }

  /**
   * When the call raises, the same expansion enters, makes the call, then exits the same
   * monitor once in the landing pad, under the `outer` landing pad, and rethrows to `outer`.
   */
  ghost predicate RaisedPath(blocks: seq<Block>, cur: BlockId, k0: nat, lpad: BlockId, outer: Option<BlockId>, lock: Value)
    requires cur < |blocks| && lpad < |blocks|
  {
    var fuel := |blocks[cur].instrs| + |blocks[lpad].instrs|;
    var raised := Walk(blocks, cur, k0, lpad + 1, true, fuel);
    && |raised| > 0 && raised[|raised| - 1].Rethrow? && raised[|raised| - 1].unwind == outer
    && Events(raised) == [Enter(lock, Some(lpad)), Invoked(Some(lpad)), Exit(lock, outer), Throw(outer)]
  }

  /** The control-flow promise of a synchronized expansion: both of its paths pair the monitor. */
  ghost predicate Paired(blocks: seq<Block>, cur: BlockId, k0: nat, lpad: BlockId, outer: Option<BlockId>, lock: Value)
    requires cur < |blocks| && lpad < |blocks|
  {
    NormalPath(blocks, cur, k0, lpad, lock) && RaisedPath(blocks, cur, k0, lpad, outer, lock)
  }

  lemma ExpansionNormal(blocks: seq<Block>, cur: BlockId, lpad: BlockId, k0: nat,
                        prep: seq<Instr>, region: seq<Instr>, lock: Value)
    requires Appended(blocks, cur, k0, prep, region) && lpad < |blocks|
    requires cur != lpad + 1
    requires RegionShape(region, lock, lpad, lpad + 1)
    ensures NormalPath(blocks, cur, k0, lpad, lock)
  {
    var fuel := |blocks[cur].instrs| + |blocks[lpad].instrs|;
    RegionSplit(region, lock, lpad, lpad + 1);
    NormalWalk(blocks, cur, lpad, lpad + 1, k0, prep, region, region[1..|region| - 3], region[|region| - 3], lock, fuel);
  }

  lemma ExpansionRaised(blocks: seq<Block>, cur: BlockId, lpad: BlockId, k0: nat,
                        prep: seq<Instr>, region: seq<Instr>, pad: seq<Instr>, lock: Value, outer: Option<BlockId>)
    requires Appended(blocks, cur, k0, prep, region) && lpad < |blocks|
    requires cur != lpad && cur != lpad + 1
    requires blocks[lpad].instrs == pad
    requires RegionShape(region, lock, lpad, lpad + 1)
    requires PadShape(pad, lock, outer)
    ensures RaisedPath(blocks, cur, k0, lpad, outer, lock)
  {
    var fuel := |blocks[cur].instrs| + |blocks[lpad].instrs|;
    RegionSplit(region, lock, lpad, lpad + 1);
    RaisedWalk(blocks, cur, lpad, lpad + 1, k0, prep, region, region[1..|region| - 3], region[|region| - 3],
               pad, lock, outer, fuel);
  }

  /** `run` holds `p` plain instructions, then a protected region for landing pad `lpad`. */
  predicate RegionAt(run: seq<Instr>, p: nat, lock: Value, lpad: BlockId) {
    && p <= |run|
    && (forall i :: i in run[..p] ==> IsPlain(i))
    && RegionShape(run[p..], lock, lpad, lpad + 1)
  }

  /**
   * The layout of a synchronized expansion that starts at instruction `k0` of block `cur`:
   * from there on, plain instructions and then the protected region; block `lpad` holds
   * the landing pad, which rethrows to `outer`; block `lpad + 1` is the continuation.
   */
  ghost predicate Expansion(blocks: seq<Block>, cur: BlockId, k0: nat, lpad: BlockId, outer: Option<BlockId>, lock: Value) {
    && cur < |blocks| && lpad + 1 < |blocks|
    && cur != lpad && cur != lpad + 1
    && k0 <= |blocks[cur].instrs|
    && PadShape(blocks[lpad].instrs, lock, outer)
    && exists p: nat :: RegionAt(blocks[cur].instrs[k0..], p, lock, lpad)
  }

  /** An expansion laid out as `Expansion` says pairs its monitor operations on both paths. */
  lemma ExpansionPaired(blocks: seq<Block>, cur: BlockId, k0: nat, lpad: BlockId, outer: Option<BlockId>, lock: Value)
    requires Expansion(blocks, cur, k0, lpad, outer, lock)
    ensures Paired(blocks, cur, k0, lpad, outer, lock)
  {
    var run := blocks[cur].instrs[k0..];
    var p: nat :| RegionAt(run, p, lock, lpad);
    assert run == run[..p] + run[p..];
    ExpansionNormal(blocks, cur, lpad, k0, run[..p], run[p..], lock);
    ExpansionRaised(blocks, cur, lpad, k0, run[..p], run[p..], blocks[lpad].instrs, lock, outer);
  }

  // ---------------------------------------------------------------------------
  // Paths on which a monitor operation itself raises
  // ---------------------------------------------------------------------------

  /** The plain prefix sits right before the first instruction of the region. */
  lemma PrepSlice(blocks: seq<Block>, cur: BlockId, k0: nat, prep: seq<Instr>, region: seq<Instr>)
    requires Appended(blocks, cur, k0, prep, region) && |region| > 0
    ensures k0 + |prep| < |blocks[cur].instrs|
    ensures blocks[cur].instrs[k0..k0 + |prep|] == prep
    ensures blocks[cur].instrs[k0 + |prep|] == region[0]
  {
    var body := blocks[cur].instrs;
    assert body[k0..][..|prep|] == prep;
    assert body[k0..][|prep|] == region[0];
  }

  /** When the monitor-enter raises, the path is the lock computation, the enter, then the landing pad. */
  lemma EnterRaisedRun(blocks: seq<Block>, cur: BlockId, lpad: BlockId, end: BlockId, k0: nat,
                       prep: seq<Instr>, region: seq<Instr>, mid: seq<Instr>, call: Instr,
                       pad: seq<Instr>, lock: Value, outer: Option<BlockId>, fuel: nat)
    requires Appended(blocks, cur, k0, prep, region) && lpad < |blocks|
    requires cur != lpad && cur != end && lpad != end
    requires blocks[lpad].instrs == pad
    requires RegionParts(region, mid, call, lock, lpad, end)
    requires PadShape(pad, lock, outer)
    requires |blocks[cur].instrs| + |pad| <= fuel
    ensures blocks[cur].instrs[k0 + |prep|] == MonitorEnter(lock, Some(lpad))
    ensures WalkRaisingAt(blocks, cur, k0, k0 + |prep|, end, fuel) == prep + [MonitorEnter(lock, Some(lpad))] + pad[..4]
  {
    var e := k0 + |prep|;
    PrepSlice(blocks, cur, k0, prep, region);
    assert region[0] == MonitorEnter(lock, Some(lpad));
    PlainStraight(prep, [], false);
    assert prep + [] == prep;
    WalkRaisingAtRun(blocks, cur, k0, e, prep, end, fuel);
    WalkRaisingAtStep(blocks, cur, e, end, fuel - |prep|);
    PadWalk(blocks, lpad, end, pad, lock, outer, fuel - |prep| - 1);
  }

  /** The region up to its call never leaves the straight line when nothing raises. */
  lemma FrontStraight(mid: seq<Instr>, call: Instr, lock: Value, lpad: BlockId)
    requires forall i :: i in mid ==> IsAddressComputation(i)
    requires call.Invoke?
    ensures Straight([MonitorEnter(lock, Some(lpad))] + mid + [call], false)
  {
    forall i | i in [MonitorEnter(lock, Some(lpad))] + mid + [call]
      ensures !Diverts(i, false)
    {
      if i in mid {
        assert IsAddressComputation(i);
      }
    }
  }

  /** When the normal-path monitor-exit raises, the path runs straight to it and continues at the landing pad. */
  lemma WalkToExit(blocks: seq<Block>, cur: BlockId, lpad: BlockId, end: BlockId, k0: nat,
                   prep: seq<Instr>, region: seq<Instr>, mid: seq<Instr>, call: Instr,
                   lock: Value, fuel: nat)
    requires Appended(blocks, cur, k0, prep, region) && cur != end
    requires RegionParts(region, mid, call, lock, lpad, end)
    requires |blocks[cur].instrs| < fuel
    ensures var front := [MonitorEnter(lock, Some(lpad))] + mid + [call];
      && k0 + |prep| + |front| == |blocks[cur].instrs| - 2
      && blocks[cur].instrs[k0 + |prep| + |front|] == MonitorExit(lock, Some(lpad))
      && WalkRaisingAt(blocks, cur, k0, k0 + |prep| + |front|, end, fuel)
         == prep + front + [MonitorExit(lock, Some(lpad))] + Walk(blocks, lpad, 0, end, false, fuel - |prep + front| - 1)
  {
    var front := [MonitorEnter(lock, Some(lpad))] + mid + [call];
    var x := k0 + |prep| + |front|;
    assert region == front + ([MonitorExit(lock, Some(lpad))] + [Br(end)]);
    assert front <= region;
    AppendedSlice(blocks, cur, k0, prep, region, front);
    FrontStraight(mid, call, lock, lpad);
    PlainStraight(prep, front, false);
    WalkRaisingAtRun(blocks, cur, k0, x, prep + front, end, fuel);
    WalkRaisingAtStep(blocks, cur, x, end, fuel - |prep + front|);
  }

  /** When the normal-path monitor-exit raises, the path is the whole region up to the exit, then the landing pad. */
  lemma ExitRaisedRun(blocks: seq<Block>, cur: BlockId, lpad: BlockId, end: BlockId, k0: nat,
                      prep: seq<Instr>, region: seq<Instr>, mid: seq<Instr>, call: Instr,
                      pad: seq<Instr>, lock: Value, outer: Option<BlockId>, fuel: nat)
    requires Appended(blocks, cur, k0, prep, region) && lpad < |blocks|
    requires cur != lpad && cur != end && lpad != end
    requires blocks[lpad].instrs == pad
    requires RegionParts(region, mid, call, lock, lpad, end)
    requires PadShape(pad, lock, outer)
    requires |blocks[cur].instrs| + |pad| <= fuel
    ensures var x := k0 + |prep| + |mid| + 2;
      && x == |blocks[cur].instrs| - 2
      && blocks[cur].instrs[x] == MonitorExit(lock, Some(lpad))
      && WalkRaisingAt(blocks, cur, k0, x, end, fuel)
         == prep + ([MonitorEnter(lock, Some(lpad))] + mid + [call]) + [MonitorExit(lock, Some(lpad))] + pad[..4]
  {
    var front := [MonitorEnter(lock, Some(lpad))] + mid + [call];
    WalkToExit(blocks, cur, lpad, end, k0, prep, region, mid, call, lock, fuel);
    PadWalk(blocks, lpad, end, pad, lock, outer, fuel - |prep + front| - 1);
  }

  /** The events when the enter raises: the enter, then the landing pad's exit and rethrow. */
  lemma {:induction false} EnterRaisedEvents(prep: seq<Instr>, pad: seq<Instr>, lock: Value, lpad: BlockId, outer: Option<BlockId>)
    requires forall i :: i in prep ==> IsPlain(i)
    requires PadShape(pad, lock, outer)
    ensures Events(prep + [MonitorEnter(lock, Some(lpad))] + pad[..4])
            == [Enter(lock, Some(lpad)), Exit(lock, outer), Throw(outer)]
  {
    var enter := MonitorEnter(lock, Some(lpad));
    PrepSilent(prep);
    EventsSingle(enter);
    EventsAppend(prep, [enter]);
    PadEvents(pad, lock, outer);
    EventsAppend(prep + [enter], pad[..4]);
  }

  /** The events when the normal-path exit raises: enter, call, exit, then the landing pad's second exit and rethrow. */
  lemma {:induction false} ExitRaisedEvents(prep: seq<Instr>, mid: seq<Instr>, call: Instr, pad: seq<Instr>,
                                            lock: Value, lpad: BlockId, outer: Option<BlockId>)
    requires forall i :: i in prep ==> IsPlain(i)
    requires forall i :: i in mid ==> IsAddressComputation(i)
    requires call.Invoke? && call.unwind == Some(lpad)
    requires PadShape(pad, lock, outer)
    ensures Events(prep + ([MonitorEnter(lock, Some(lpad))] + mid + [call]) + [MonitorExit(lock, Some(lpad))] + pad[..4])
            == [Enter(lock, Some(lpad)), Invoked(Some(lpad)), Exit(lock, Some(lpad)), Exit(lock, outer), Throw(outer)]
  {
    var front := [MonitorEnter(lock, Some(lpad))] + mid + [call];
    var exit := MonitorExit(lock, Some(lpad));
    PrepSilent(prep);
    FrontEvents(mid, call, lock, lpad);
    EventsAppend(prep, front);
    EventsSingle(exit);
    EventsAppend(prep + front, [exit]);
    PadEvents(pad, lock, outer);
    EventsAppend(prep + front + [exit], pad[..4]);
  }

  /**
   * If the monitor-enter at instruction `e` raises, the landing pad still exits the
   * monitor and rethrows to `outer`: the only exit on this path is one for an enter that
   * raised.
   */
  ghost predicate EnterRaisedPath(blocks: seq<Block>, cur: BlockId, k0: nat, e: nat, lpad: BlockId,
                                  outer: Option<BlockId>, lock: Value)
    requires cur < |blocks| && lpad < |blocks|
  {
    var fuel := |blocks[cur].instrs| + |blocks[lpad].instrs|;
    Events(WalkRaisingAt(blocks, cur, k0, e, lpad + 1, fuel)) == [Enter(lock, Some(lpad)), Exit(lock, outer), Throw(outer)]
  }

  /**
   * If the normal-path monitor-exit at instruction `x` raises, it unwinds to the region's
   * own landing pad, which exits the same monitor a second time and rethrows to `outer`.
   */
  ghost predicate ExitRaisedPath(blocks: seq<Block>, cur: BlockId, k0: nat, x: nat, lpad: BlockId,
                                 outer: Option<BlockId>, lock: Value)
    requires cur < |blocks| && lpad < |blocks|
  {
    var fuel := |blocks[cur].instrs| + |blocks[lpad].instrs|;
    Events(WalkRaisingAt(blocks, cur, k0, x, lpad + 1, fuel))
      == [Enter(lock, Some(lpad)), Invoked(Some(lpad)), Exit(lock, Some(lpad)), Exit(lock, outer), Throw(outer)]
  }

  /**
   * The paths of an expansion starting at instruction `k0` of block `cur` on which a
   * monitor operation raises: the normal-path exit is the second-to-last instruction of
   * the block, the enter comes before it, and each unwinds into the landing pad `lpad`,
   * which exits the monitor again.
   */
  ghost predicate MonitorRaises(blocks: seq<Block>, cur: BlockId, k0: nat, lpad: BlockId, outer: Option<BlockId>, lock: Value)
    requires cur < |blocks| && lpad < |blocks|
  {
    var body := blocks[cur].instrs;
    && |body| >= 2
    && body[|body| - 2] == MonitorExit(lock, Some(lpad))
    && ExitRaisedPath(blocks, cur, k0, |body| - 2, lpad, outer, lock)
    && exists e: nat :: k0 <= e < |body| - 2 && body[e] == MonitorEnter(lock, Some(lpad))
                        && EnterRaisedPath(blocks, cur, k0, e, lpad, outer, lock)
  }

  /** An expansion laid out as `Expansion` says unwinds every raising monitor operation into its landing pad. */
  lemma ExpansionMonitorRaises(blocks: seq<Block>, cur: BlockId, k0: nat, lpad: BlockId, outer: Option<BlockId>, lock: Value)
    requires Expansion(blocks, cur, k0, lpad, outer, lock)
    ensures MonitorRaises(blocks, cur, k0, lpad, outer, lock)
  {
    var run := blocks[cur].instrs[k0..];
    var p: nat :| RegionAt(run, p, lock, lpad);
    assert run == run[..p] + run[p..];
    ExpansionEnterRaised(blocks, cur, lpad, k0, run[..p], run[p..], blocks[lpad].instrs, lock, outer);
    ExpansionExitRaised(blocks, cur, lpad, k0, run[..p], run[p..], blocks[lpad].instrs, lock, outer);
  }

  /** The enter opens the region, and when it raises the path runs through the landing pad. */
  lemma ExpansionEnterRaised(blocks: seq<Block>, cur: BlockId, lpad: BlockId, k0: nat,
                             prep: seq<Instr>, region: seq<Instr>, pad: seq<Instr>, lock: Value, outer: Option<BlockId>)
    requires Appended(blocks, cur, k0, prep, region) && lpad < |blocks|
    requires cur != lpad && cur != lpad + 1
    requires blocks[lpad].instrs == pad
    requires RegionShape(region, lock, lpad, lpad + 1)
    requires PadShape(pad, lock, outer)
    ensures blocks[cur].instrs[k0 + |prep|] == MonitorEnter(lock, Some(lpad))
    ensures EnterRaisedPath(blocks, cur, k0, k0 + |prep|, lpad, outer, lock)
  {
    var fuel := |blocks[cur].instrs| + |pad|;
    RegionSplit(region, lock, lpad, lpad + 1);
    var mid := region[1..|region| - 3];
    EnterRaisedRun(blocks, cur, lpad, lpad + 1, k0, prep, region, mid, region[|region| - 3], pad, lock, outer, fuel);
    EnterRaisedEvents(prep, pad, lock, lpad, outer);
  }

  /** The normal-path exit is the block's second-to-last instruction, and when it raises the path runs through the landing pad. */
  lemma ExpansionExitRaised(blocks: seq<Block>, cur: BlockId, lpad: BlockId, k0: nat,
                            prep: seq<Instr>, region: seq<Instr>, pad: seq<Instr>, lock: Value, outer: Option<BlockId>)
    requires Appended(blocks, cur, k0, prep, region) && lpad < |blocks|
    requires cur != lpad && cur != lpad + 1
    requires blocks[lpad].instrs == pad
    requires RegionShape(region, lock, lpad, lpad + 1)
    requires PadShape(pad, lock, outer)
    ensures k0 + |prep| < |blocks[cur].instrs| - 2
    ensures blocks[cur].instrs[|blocks[cur].instrs| - 2] == MonitorExit(lock, Some(lpad))
    ensures ExitRaisedPath(blocks, cur, k0, |blocks[cur].instrs| - 2, lpad, outer, lock)
  {
    var fuel := |blocks[cur].instrs| + |pad|;
    RegionSplit(region, lock, lpad, lpad + 1);
    var mid := region[1..|region| - 3];
    var call := region[|region| - 3];
    ExitRaisedRun(blocks, cur, lpad, lpad + 1, k0, prep, region, mid, call, pad, lock, outer, fuel);
    ExitRaisedEvents(prep, mid, call, pad, lock, lpad, outer);
  }
}
