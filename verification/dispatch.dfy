/**
 * Function-pointer construction for a call (`JLangCallExt.buildFuncPtr`,
 * `buildInstanceMethodPtr`, `buildInterfaceMethodPtr`), and a symbolic evaluator of
 * the emitted address computation against an abstract runtime, used to state what
 * the emitted code computes.
 */
module Dispatch {
  import opened Base
  import opened Ir
  import opened CallSites

  /** What the dispatch metadata says about an interface call: the interface's erasure and the method's index. */
  datatype DispatchInfo = DispatchInfo(intfErasure: ClassId, methodIndex: nat)

  /**
   * Collaborator data the lowering reads but does not compute: the dispatch-vector slot
   * of a method in a receiver type, the interface dispatch metadata, and the interface
   * identity hash.
   */
  datatype Layout = Layout(
    dvSlot: (RefType, MethodInstance) -> nat,
    dispatchInfo: (RefType, MethodInstance) -> DispatchInfo,
    intfHash: ClassId -> int)

  /** The three shapes of a function pointer. */
  datatype Strategy = StaticSymbol | ClassDispatch | InterfaceLookup

  predicate IsInterfaceType(t: RefType) {
    t.ClassType? && t.flags.isInterface
  }

  /** The shape a call's function pointer takes, fixed by its classification and its receiver's static type. */
  function StrategyOf(c: Call): Strategy {
    if c.direct then StaticSymbol
    else if IsInterfaceType(c.target.ty) then InterfaceLookup
    else ClassDispatch
  }

  predicate HasValue(st: State, n: NodeId) {
    n in st.translations && st.translations[n].ValueOf?
  }

  function CountLoads(run: seq<Instr>): nat {
    if |run| == 0 then 0 else (if run[0].Load? then 1 else 0) + CountLoads(run[1..])
  }

  function CountLookups(run: seq<Instr>): nat {
    if |run| == 0 then 0 else (if run[0].LookupInterfaceMethod? then 1 else 0) + CountLookups(run[1..])
  }

  /**
   * The instructions of a class dispatch with fresh registers from `n` on: the address
   * of the receiver's dispatch-vector pointer, its load, the address of the method's
   * slot in that vector, and the load of the function pointer.
   */
  function InstanceRun(recv: Value, slot: nat, n: nat): seq<Instr> {
    [DvPtrAddr(n, recv), Load(n + 1, Reg(n)), SlotAddr(n + 2, Reg(n + 1), slot), Load(n + 3, Reg(n + 2))]
  }

  /**
   * The instructions of an interface dispatch with fresh registers from `n` on: the
   * receiver cast to an opaque pointer, the runtime lookup by hash, identity and method
   * index, and the cast of its answer to the function-pointer type.
   */
  function InterfaceRun(recv: Value, info: DispatchInfo, hash: int, n: nat): seq<Instr> {
    [CastToOpaque(n, recv),
     LookupInterfaceMethod(n + 1, Reg(n), hash, TypeIdentity(info.intfErasure), info.methodIndex),
     CastToFuncPtr(n + 2, Reg(n + 1))]
  }

  lemma CountsCons(i: Instr, rest: seq<Instr>)
    ensures CountLoads([i] + rest) == (if i.Load? then 1 else 0) + CountLoads(rest)
    ensures CountLookups([i] + rest) == (if i.LookupInterfaceMethod? then 1 else 0) + CountLookups(rest)
  {
    assert ([i] + rest)[1..] == rest;
  }

  lemma InstanceRunShape(recv: Value, slot: nat, n: nat)
    ensures forall i :: i in InstanceRun(recv, slot, n) ==> IsAddressComputation(i)
    ensures CountLoads(InstanceRun(recv, slot, n)) == 2
    ensures CountLookups(InstanceRun(recv, slot, n)) == 0
  {
    var run := InstanceRun(recv, slot, n);
    CountsCons(run[3], []);
    CountsCons(run[2], [run[3]]);
    CountsCons(run[1], [run[2]] + [run[3]]);
    CountsCons(run[0], [run[1]] + ([run[2]] + [run[3]]));
    assert run == [run[0]] + ([run[1]] + ([run[2]] + [run[3]]));
  }

  lemma InterfaceRunShape(recv: Value, info: DispatchInfo, hash: int, n: nat)
    ensures forall i :: i in InterfaceRun(recv, info, hash, n) ==> IsAddressComputation(i)
    ensures CountLoads(InterfaceRun(recv, info, hash, n)) == 0
    ensures CountLookups(InterfaceRun(recv, info, hash, n)) == 1
  {
    var run := InterfaceRun(recv, info, hash, n);
    CountsCons(run[2], []);
    CountsCons(run[1], [run[2]]);
    CountsCons(run[0], [run[1]] + [run[2]]);
    assert run == [run[0]] + ([run[1]] + [run[2]]);
  }

  /** Class instance method (`buildInstanceMethodPtr`): two dependent loads through the receiver's dispatch vector. */
  function BuildInstanceMethodPtr(c: Call, layout: Layout, st: State): (r: Result<(State, Value), LoweringError>)
    requires Valid(st)
    ensures r.Err? <==> !HasValue(st, c.target.node)
    ensures r.Ok? ==>
      var s := r.value.0;
      && OnlyAppends(st, s) && s.frames == st.frames && s.loops == st.loops
      && s.translations == st.translations && st.nextReg < s.nextReg
      && (forall i :: i in Added(st, s) ==> IsAddressComputation(i))
      && CountLoads(Added(st, s)) == 2
      && CountLookups(Added(st, s)) == 0
  {
    var recv :- GetTranslation(st, c.target.node);
    var n := st.nextReg;
    var run := InstanceRun(recv, layout.dvSlot(c.target.ty, c.callee), n);
    InstanceRunShape(recv, layout.dvSlot(c.target.ty, c.callee), n);
    var s := EmitAll(st, run).(nextReg := n + 4);
    assert Added(st, s) == run;
    Ok((s, Reg(n + 3)))
  }

  /** Interface method (`buildInterfaceMethodPtr`): one runtime lookup carrying the method index, then a cast. */
  function BuildInterfaceMethodPtr(c: Call, layout: Layout, st: State): (r: Result<(State, Value), LoweringError>)
    requires Valid(st)
    ensures r.Err? <==> !HasValue(st, c.target.node)
    ensures r.Ok? ==>
      var s := r.value.0;
      && OnlyAppends(st, s) && s.frames == st.frames && s.loops == st.loops
      && s.translations == st.translations && st.nextReg < s.nextReg
      && (forall i :: i in Added(st, s) ==> IsAddressComputation(i))
      && CountLoads(Added(st, s)) == 0
      && CountLookups(Added(st, s)) == 1
    ensures r.Ok? ==>
      var run := Added(st, r.value.0);
      var info := layout.dispatchInfo(c.target.ty, c.callee);
      && |run| > 0 && run[|run| - 1].CastToFuncPtr? && r.value.1 == Reg(run[|run| - 1].dst)
      && (forall i :: i in run && i.LookupInterfaceMethod? ==>
            && i.index == info.methodIndex
            && i.id == TypeIdentity(info.intfErasure)
            && i.hash == layout.intfHash(info.intfErasure))
  {
    var recv :- GetTranslation(st, c.target.node);
    var info := layout.dispatchInfo(c.target.ty, c.callee);
    var n := st.nextReg;
    var run := InterfaceRun(recv, info, layout.intfHash(info.intfErasure), n);
    InterfaceRunShape(recv, info, layout.intfHash(info.intfErasure), n);
    var s := EmitAll(st, run).(nextReg := n + 3);
    assert Added(st, s) == run;
    Ok((s, Reg(n + 2)))
  }

  /**
   * The function pointer of a call (`buildFuncPtr`): the static symbol for a direct call
   * (nothing emitted), the runtime lookup for an interface receiver, and two dependent
   * dispatch-vector loads otherwise. Only a dispatched call needs its receiver's translation.
   */
  function BuildFuncPtr(c: Call, layout: Layout, st: State): (r: Result<(State, Value), LoweringError>)
    requires Valid(st)
    ensures r.Err? <==> !c.direct && !HasValue(st, c.target.node)
    ensures r.Ok? ==>
      var s := r.value.0;
      && OnlyAppends(st, s)
      && s.frames == st.frames && s.loops == st.loops
      && s.translations == st.translations
      && st.nextReg <= s.nextReg
      && (forall i :: i in Added(st, s) ==> IsAddressComputation(i))
      && CountLoads(Added(st, s)) == (if StrategyOf(c) == ClassDispatch then 2 else 0)
      && CountLookups(Added(st, s)) == (if StrategyOf(c) == InterfaceLookup then 1 else 0)
    ensures r.Ok? && StrategyOf(c) == StaticSymbol ==>
      r.value.0 == st && r.value.1 == FunctionSymbol(c.callee.id)
  {
    if c.direct then
      assert Added(st, st) == [];
      Ok((st, FunctionSymbol(c.callee.id)))
    else if IsInterfaceType(c.target.ty) then BuildInterfaceMethodPtr(c, layout, st)
    else BuildInstanceMethodPtr(c, layout, st)
  }

  // ---------------------------------------------------------------------------
  // What the emitted address computation evaluates to
  // ---------------------------------------------------------------------------

  /** Runtime values the address computation manipulates. */
  datatype RtVal =
    | Obj(o: nat)
    | DvFieldAddr(o: nat)
    | DvVal(d: nat)
    | SlotFieldAddr(d: nat, slot: nat)
    | Fn(f: nat)
    | Identity(c: ClassId)
    | Undefined

  /**
   * The runtime the compiled code runs against: each object's dispatch vector, the
   * function in each slot of a vector, the interface lookup helper, and the address of
   * each statically bound function.
   */
  datatype Runtime = Runtime(
    dvOf: nat -> nat,
    slotFn: (nat, nat) -> nat,
    lookup: (nat, int, ClassId, nat) -> nat,
    symbolFn: MethodId -> nat)

  function EvalValue(rt: Runtime, env: map<nat, RtVal>, v: Value): RtVal {
    match v
    case Reg(n) => if n in env then env[n] else Undefined
    case FunctionSymbol(m) => Fn(rt.symbolFn(m))
    case TypeIdentity(c) => Identity(c)
  }

  /** The effect of one address-computation instruction on the register file; other instructions are skipped. */
  function Step(rt: Runtime, env: map<nat, RtVal>, i: Instr): map<nat, RtVal> {
    match i
    case DvPtrAddr(dst, obj) =>
      env[dst := match EvalValue(rt, env, obj) case Obj(o) => DvFieldAddr(o) case _ => Undefined]
    case Load(dst, addr) =>
      env[dst := match EvalValue(rt, env, addr)
                 case DvFieldAddr(o) => DvVal(rt.dvOf(o))
                 case SlotFieldAddr(d, k) => Fn(rt.slotFn(d, k))
                 case _ => Undefined]
    case SlotAddr(dst, dv, slot) =>
      env[dst := match EvalValue(rt, env, dv) case DvVal(d) => SlotFieldAddr(d, slot) case _ => Undefined]
    case CastToOpaque(dst, v) => env[dst := EvalValue(rt, env, v)]
    case LookupInterfaceMethod(dst, obj, hash, id, index) =>
      env[dst := match (EvalValue(rt, env, obj), EvalValue(rt, env, id))
                 case (Obj(o), Identity(c)) => Fn(rt.lookup(o, hash, c, index))
                 case _ => Undefined]
    case CastToFuncPtr(dst, v) => env[dst := EvalValue(rt, env, v)]
    case _ => env
  }

  function Run(rt: Runtime, env: map<nat, RtVal>, run: seq<Instr>): map<nat, RtVal>
    decreases |run|
  {
    if |run| == 0 then env else Run(rt, Step(rt, env, run[0]), run[1..])
  }

  /**
   * The function a call must reach at run time when its receiver is object `o`: the
   * static symbol, the slot of the receiver's own dispatch vector, or the runtime
   * lookup's answer for the interface, its hash and the method index.
   */
  function DispatchTarget(rt: Runtime, layout: Layout, c: Call, o: nat): nat {
    match StrategyOf(c)
    case StaticSymbol => rt.symbolFn(c.callee.id)
    case ClassDispatch => rt.slotFn(rt.dvOf(o), layout.dvSlot(c.target.ty, c.callee))
    case InterfaceLookup =>
      var info := layout.dispatchInfo(c.target.ty, c.callee);
      rt.lookup(o, layout.intfHash(info.intfErasure), info.intfErasure, info.methodIndex)
  }

  /**
   * Running the emitted address computation from any register file in which the
   * receiver's translation denotes object `o` yields exactly the dispatch target: the
   * second load reads the slot of the vector the first load produced.
   */
  lemma FuncPtrSelectsDispatchTarget(c: Call, layout: Layout, st: State, rt: Runtime, env: map<nat, RtVal>, o: nat)
    requires Valid(st) && BuildFuncPtr(c, layout, st).Ok?
    requires !c.direct ==> HasValue(st, c.target.node) && EvalValue(rt, env, st.translations[c.target.node].v) == Obj(o)
    ensures var r := BuildFuncPtr(c, layout, st).value;
            EvalValue(rt, Run(rt, env, Added(st, r.0)), r.1) == Fn(DispatchTarget(rt, layout, c, o))
  {
    var r := BuildFuncPtr(c, layout, st).value;
    var n := st.nextReg;
    match StrategyOf(c)
    case StaticSymbol =>
      assert Added(st, r.0) == [];
    case InterfaceLookup =>
      var recv := st.translations[c.target.node].v;
      var info := layout.dispatchInfo(c.target.ty, c.callee);
      var run := InterfaceRun(recv, info, layout.intfHash(info.intfErasure), n);
      assert Added(st, r.0) == run;
      InterfaceRunEvaluates(rt, env, recv, info, layout.intfHash(info.intfErasure), n, o);
    case ClassDispatch =>
      var recv := st.translations[c.target.node].v;
      var slot := layout.dvSlot(c.target.ty, c.callee);
      assert Added(st, r.0) == InstanceRun(recv, slot, n);
      InstanceRunEvaluates(rt, env, recv, slot, n, o);
  }

  /** The class dispatch run loads the receiver's vector and then that vector's slot. */
  lemma InstanceRunEvaluates(rt: Runtime, env: map<nat, RtVal>, recv: Value, slot: nat, n: nat, o: nat)
    requires EvalValue(rt, env, recv) == Obj(o)
    ensures EvalValue(rt, Run(rt, env, InstanceRun(recv, slot, n)), Reg(n + 3)) == Fn(rt.slotFn(rt.dvOf(o), slot))
  {
    var run := InstanceRun(recv, slot, n);
    var e1 := Step(rt, env, run[0]);
    var e2 := Step(rt, e1, run[1]);
    var e3 := Step(rt, e2, run[2]);
    var e4 := Step(rt, e3, run[3]);
    assert e2[n + 1] == DvVal(rt.dvOf(o));
    assert e4[n + 3] == Fn(rt.slotFn(rt.dvOf(o), slot));
    assert run[1..] == [run[1], run[2], run[3]];
    assert run[1..][1..] == [run[2], run[3]];
    assert run[1..][1..][1..] == [run[3]];
    assert run[1..][1..][1..][1..] == [];
    assert Run(rt, e3, run[1..][1..][1..]) == e4;
    assert Run(rt, e2, run[1..][1..]) == e4;
    assert Run(rt, e1, run[1..]) == e4;
  }

  /** The interface dispatch run hands the receiver object and the interface identity to the runtime lookup. */
  lemma InterfaceRunEvaluates(rt: Runtime, env: map<nat, RtVal>, recv: Value, info: DispatchInfo, hash: int, n: nat, o: nat)
    requires EvalValue(rt, env, recv) == Obj(o)
    ensures EvalValue(rt, Run(rt, env, InterfaceRun(recv, info, hash, n)), Reg(n + 2))
            == Fn(rt.lookup(o, hash, info.intfErasure, info.methodIndex))
  {
    var run := InterfaceRun(recv, info, hash, n);
    var e1 := Step(rt, env, run[0]);
    var e2 := Step(rt, e1, run[1]);
    var e3 := Step(rt, e2, run[2]);
    assert e1[n] == Obj(o);
    assert e3[n + 2] == Fn(rt.lookup(o, hash, info.intfErasure, info.methodIndex));
    assert run[1..] == [run[1], run[2]];
    assert run[1..][1..] == [run[2]];
    assert run[1..][1..][1..] == [];
    assert Run(rt, e2, run[1..][1..]) == e3;
    assert Run(rt, e1, run[1..]) == e3;
  }
}
