/**
  Loading the current array element into the loop variable: the typed array-load opcode
  is chosen from the loop variable's static type.
*/
module ArrayLoad {

  import opened Wrappers
  import opened JavaTypes
  import opened Bytecode
  import opened CodeGen

  /**
    The array-load opcode for an element of type `t`. Byte and boolean arrays share one
    load; every non-primitive type uses the reference load; `void`, the one primitive
    the selection does not cover, gets no load at all.
  */
  function ArrayLoadOpcode(t: JType): (r: Option<ArrayLoadOp>)
    ensures r.None? <==> t == Prim(Void)
    ensures r == Some(AALOAD) <==> !t.Prim?
    ensures r == Some(BALOAD) <==> t == Prim(Byte) || t == Prim(Boolean)
  {
    match t
    case Prim(k) =>
      (match k
       case Int => Some(IALOAD)
       case Long => Some(LALOAD)
       case Byte => Some(BALOAD)
       case Boolean => Some(BALOAD)
       case Char => Some(CALOAD)
       case Short => Some(SALOAD)
       case Float => Some(FALOAD)
       case Double => Some(DALOAD)
       case Void => None)
    case _ => Some(AALOAD)
  }

  /** The typed load as an instruction sequence: one instruction, or none. */
  function TypedLoad(t: JType): seq<Instr> {
    match ArrayLoadOpcode(t)
    case Some(op) => [ArrayLoad(op)]
    case None => []
  }

  /**
    Load `array[index]` and store it into the loop variable. The element's type is pushed
    on the tracked stack and consumed by the store, so the tracked stack is unchanged.
  */
  function LoadFromArray(g: Gen, variable: Slot, varType: JType, arr: Slot, index: Slot): (r: Gen)
    ensures r.code == g.code + [ALOAD(arr), ILOAD(index)] + TypedLoad(varType) + [Store(variable)]
    ensures r.stack == g.stack
    ensures r.temps == g.temps && r.tempLog == g.tempLog && r.loops == g.loops && r.nextLoop == g.nextLoop
  {
    var g1 := Emit(g, [ALOAD(arr), ILOAD(index)]);
    var g2 := Emit(g1, TypedLoad(varType));
    StoreVar(Push(g2, varType), variable)
  }

  /** Two element kinds share a load exactly when they are the same primitive, are
      byte and boolean, or are both non-primitive. */
  predicate SameLoadClass(a: JType, b: JType) {
    || (a.Prim? && b.Prim? && a.kind == b.kind)
    || (a in {Prim(Byte), Prim(Boolean)} && b in {Prim(Byte), Prim(Boolean)})
    || (!a.Prim? && !b.Prim?)
  }

  /** The opcode table separates exactly the load classes: byte and boolean share an
      opcode, and no other two distinct primitive kinds do. */
  lemma ArrayLoadOpcodeClasses(a: JType, b: JType)
    requires a != Prim(Void) && b != Prim(Void)
    ensures ArrayLoadOpcode(a) == ArrayLoadOpcode(b) <==> SameLoadClass(a, b)
  {
  }

  /**
    The component types each array-load instruction is defined for in section 6.5 of the
    Java Virtual Machine Specification: `baload` serves both byte and boolean arrays,
    `aaload` arrays of references, and each other load exactly one primitive kind.
  */
  predicate JvmLoadsComponent(op: ArrayLoadOp, t: JType) {
    match op
    case IALOAD => t == Prim(Int)
    case LALOAD => t == Prim(Long)
    case BALOAD => t == Prim(Byte) || t == Prim(Boolean)
    case CALOAD => t == Prim(Char)
    case SALOAD => t == Prim(Short)
    case FALOAD => t == Prim(Float)
    case DALOAD => t == Prim(Double)
    case AALOAD => !t.Prim?
  }

  /** The opcode chosen for a loop variable of type `t` is the load the virtual machine
      defines for arrays of `t`, and no other. */
  lemma ArrayLoadOpcodeMatchesJvm(t: JType, op: ArrayLoadOp)
    requires t != Prim(Void)
    ensures ArrayLoadOpcode(t) == Some(op) <==> JvmLoadsComponent(op, t)
  {
  }

}
