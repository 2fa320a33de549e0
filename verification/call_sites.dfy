/**
 * Call-site records and the direct-call analysis run at the end of type checking a
 * call (`JLangCallExt.determineIfDirect`, `JLangCallExt.typeCheck`).
 */
module CallSites {
  import opened Ir

  datatype MethodFlags = MethodFlags(isStatic: bool, isPrivate: bool, isFinal: bool, isSynchronized: bool)

  datatype ClassFlags = ClassFlags(isFinal: bool, isInterface: bool)

  /** A reference type: a class or interface type, or a reference type that is not a class (an array type). */
  datatype RefType = ClassType(cls: ClassId, flags: ClassFlags) | NonClassType

  /** The shape of a call's target expression: `super`, `this`, another expression, or a type name (static calls). */
  datatype TargetKind = SuperRef | ThisRef | Expression | TypeName

  datatype Target = Target(node: NodeId, kind: TargetKind, ty: RefType)

  /** The resolved method a call binds to, as the front end attaches it. */
  datatype MethodInstance = MethodInstance(id: MethodId, flags: MethodFlags, container: RefType, returnsVoid: bool)

  /** A call node together with the memoised `direct` flag of its extension. */
  datatype Call = Call(node: NodeId, callee: MethodInstance, target: Target, direct: bool)

  /**
   * The three reasons runtime dispatch is unnecessary: the method is static, private or
   * final; the call goes through `super`; the method's container is a final class.
   */
  predicate BindableStatically(c: Call) {
    || c.callee.flags.isStatic
    || c.callee.flags.isPrivate
    || c.callee.flags.isFinal
    || c.target.kind == SuperRef
    || (c.callee.container.ClassType? && c.callee.container.flags.isFinal)
  }

  /**
   * The outcome of the analysis: the (possibly copied) call node, and whether it was
   * copied because it was the extension's own node when the flag had to be set.
   */
  datatype Classified = Classified(call: Call, copied: bool)

  /**
   * Decides whether a call binds directly. `isOwnNode` says whether `c` is the node the
   * running extension is attached to (`c == node`), in which case the node is copied
   * before the flag is set on the copy.
   */
  function DetermineIfDirect(c: Call, isOwnNode: bool): (r: Classified)
    ensures r.call == c.(direct := c.direct || BindableStatically(c))
    ensures r.copied <==> !c.direct && BindableStatically(c) && isOwnNode
    ensures c.direct ==> r == Classified(c, false)
  {
    if c.direct then Classified(c, false)
    else
      var flags := c.callee.flags;
      var d0 := false;
      var d1 := if flags.isStatic || flags.isPrivate || flags.isFinal then true else d0;
      var d2 := if c.target.kind == SuperRef then true else d1;
      var container := c.callee.container;
      var d3 := if container.ClassType? && container.flags.isFinal then true else d2;
      if !d3 then Classified(c, false)
      else Classified(c.(direct := true), isOwnNode)
  }

  /** Type checking a call ends with the direct-call analysis, whose result replaces the node. */
  function TypeCheck(c: Call, isOwnNode: bool): (r: Call)
    ensures r.direct <==> c.direct || BindableStatically(c)
    ensures r.(direct := c.direct) == c
  {
    DetermineIfDirect(c, isOwnNode).call
  }

  /** Running the analysis on its own output changes nothing and copies nothing. */
  lemma DetermineIfDirectIdempotent(c: Call, own1: bool, own2: bool)
    ensures var r := DetermineIfDirect(c, own1).call;
            DetermineIfDirect(r, own2) == Classified(r, false)
  {
  }

  /** The flag only ever moves from false to true. */
  lemma DetermineIfDirectMonotone(c: Call, own: bool)
    ensures c.direct ==> DetermineIfDirect(c, own).call.direct
    ensures !DetermineIfDirect(c, own).call.direct ==> DetermineIfDirect(c, own) == Classified(c, false)
  {
  }

  /** Each rule alone makes a call direct; a call none of them covers stays dispatched and unchanged. */
  lemma ClassificationRules(c: Call, own: bool)
    ensures c.callee.flags.isStatic ==> DetermineIfDirect(c, own).call.direct
    ensures c.callee.flags.isPrivate ==> DetermineIfDirect(c, own).call.direct
    ensures c.callee.flags.isFinal ==> DetermineIfDirect(c, own).call.direct
    ensures c.target.kind == SuperRef ==> DetermineIfDirect(c, own).call.direct
    ensures c.callee.container.ClassType? && c.callee.container.flags.isFinal ==> DetermineIfDirect(c, own).call.direct
    ensures !c.direct && !c.callee.flags.isStatic && !c.callee.flags.isPrivate && !c.callee.flags.isFinal
            && c.target.kind != SuperRef && !(c.callee.container.ClassType? && c.callee.container.flags.isFinal)
            ==> DetermineIfDirect(c, own) == Classified(c, false) && !DetermineIfDirect(c, own).call.direct
  {
  }

  /** Adding a modifier to the method, or finality to its container, never turns a direct call into a dispatched one. */
  lemma DetermineIfDirectMonotoneInFlags(c: Call, c': Call, own: bool, own': bool)
    requires c'.node == c.node && c'.target == c.target && c'.callee.id == c.callee.id
    requires c.direct ==> c'.direct
    requires c.callee.flags.isStatic ==> c'.callee.flags.isStatic
    requires c.callee.flags.isPrivate ==> c'.callee.flags.isPrivate
    requires c.callee.flags.isFinal ==> c'.callee.flags.isFinal
    requires c.callee.container.ClassType? && c.callee.container.flags.isFinal
             ==> c'.callee.container.ClassType? && c'.callee.container.flags.isFinal
    ensures DetermineIfDirect(c, own).call.direct ==> DetermineIfDirect(c', own').call.direct
  {
  }
}
