/**
  The abstract instruction set the lowering emits. Opcodes the lowering writes itself keep
  their JVM mnemonics; the lowering of sub-expressions, of the loop body and of the inherited
  iterator loop control are single opaque instructions.
*/
module Bytecode {

  import opened JavaTypes

  /** A local-variable slot: a declared variable, or a compiler temporary such as `$idx`. */
  datatype Slot = Local(name: string) | Temp(name: string)

  /** The continue and break labels of the loop scope with the given number. */
  datatype Label = Continue(loop: nat) | Break(loop: nat)

  /** The typed array-element loads. */
  datatype ArrayLoadOp = IALOAD | LALOAD | BALOAD | CALOAD | SALOAD | FALOAD | DALOAD | AALOAD

  datatype Instr =
      /** lowering of the loop's collection expression; leaves one value */
    | EvalCollection
      /** lowering of the loop body statement; leaves nothing */
    | LoopBody
      /** the inherited iterator loop control, which also lowers the body; it takes over
          an iterator of the given static type from the top of the stack */
    | IteratorLoopControl(iteratorType: JType)
      /** lowering of the call `collection.iterator()` bound to the given method; leaves one value */
    | CallIterator(callee: Method)
      /** declaration and default initialisation of a variable by the compile stack */
    | DefineVar(slot: Slot)
      /** store of the top value into a slot, as the operand stack's store does */
    | Store(slot: Slot)
      /** POP, or POP2 for a two-word value */
    | Pop(wide: bool)
    | DUP
    | ALOAD(slot: Slot)
    | ILOAD(slot: Slot)
    | ARRAYLENGTH
    | ICONST_0
    | ArrayLoad(op: ArrayLoadOp)
    | IINC(slot: Slot, delta: int)
    | IFNULL(target: Label)
    | IFEQ(target: Label)
    | IF_ICMPGE(target: Label)
    | GOTO(target: Label)
      /** placement of a label at this point of the code */
    | Place(lbl: Label)
    | INVOKEINTERFACE(owner: string, name: string)
    | INVOKESTATIC(owner: string, name: string, descriptor: string)

}
