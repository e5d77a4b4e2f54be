/**
  The statically compiled for-each loop `for (T x in collection) body`: the choice between
  the indexed-array, enumeration and iterator lowerings, and each lowering as the instruction
  sequence it appends together with its effect on the tracked operand stack, the temporaries
  and the loop scopes.
*/
module ForEach {

  import opened Wrappers
  import opened JavaTypes
  import opened Bytecode
  import opened CodeGen
  import opened ArrayLoad

  /**
    One for-each loop. `collType` is the resolved static type of the collection expression.
    `controlResidue` is what the inherited iterator loop control leaves on the tracked stack
    in place of the iterator it takes over; that control is not part of this model, so any
    value is allowed.
  */
  datatype ForLoop = ForLoop(
    varName: string,
    varType: JType,
    collType: JType,
    controlResidue: seq<JType>)

  datatype Strategy = IndexedArray | EnumerationBased | IteratorBased

  /** The collection is an array whose component type is exactly the loop variable's type. */
  predicate ArrayApplies(loop: ForLoop) {
    loop.collType.Array? && loop.varType == loop.collType.component
  }

  /** The ordered choice: array first, then enumeration, then iterator. */
  function SelectStrategy(h: Hierarchy, loop: ForLoop): (r: Strategy)
    ensures r == IndexedArray <==> ArrayApplies(loop)
    ensures r == EnumerationBased <==> !ArrayApplies(loop) && IsOrImplements(h, loop.collType, EnumerationName)
    ensures r == IteratorBased <==> !ArrayApplies(loop) && !IsOrImplements(h, loop.collType, EnumerationName)
  {
    if ArrayApplies(loop) then IndexedArray
    else if IsOrImplements(h, loop.collType, EnumerationName) then EnumerationBased
    else IteratorBased
  }

  const ArrName: string := "$arr"
  const LenName: string := "$len"
  const IdxName: string := "$idx"
  const EnumName: string := "$enum"

  const DgmOwner: string := "org/codehaus/groovy/runtime/DefaultGroovyMethods"
  const DgmIteratorDescriptor: string := "(Ljava/lang/Object;)Ljava/util/Iterator;"

  /** The runtime coercion of any object to an iterator. */
  const DgmIterator: Instr := INVOKESTATIC(DgmOwner, "iterator", DgmIteratorDescriptor)
  const HasMoreElements: Instr := INVOKEINTERFACE(EnumerationName, "hasMoreElements")
  const NextElement: Instr := INVOKEINTERFACE(EnumerationName, "nextElement")

  // ---------------------------------------------------------------------------
  // The listings: each lowering's output, written out instruction by instruction.

  /** The indexed-array loop over loop scope `n`. */
  function ArrayLoopListing(varName: string, varType: JType, n: nat): seq<Instr> {
    var arr, len, idx := Temp(ArrName), Temp(LenName), Temp(IdxName);
    [ DefineVar(Local(varName)),
      EvalCollection, DUP, Store(arr), IFNULL(Break(n)),
      ALOAD(arr), ARRAYLENGTH, Store(len),
      ICONST_0, Store(idx),
      Place(Continue(n)),
      ILOAD(idx), ILOAD(len), IF_ICMPGE(Break(n)),
      ALOAD(arr), ILOAD(idx) ]
    + TypedLoad(varType)
    + [ Store(Local(varName)),
        IINC(idx, 1),
        LoopBody,
        GOTO(Continue(n)),
        Place(Break(n)) ]
  }

  /** The enumeration loop over loop scope `n`. */
  function EnumerationLoopListing(varName: string, n: nat): seq<Instr> {
    var e := Temp(EnumName);
    [ DefineVar(Local(varName)),
      EvalCollection, Store(e),
      Place(Continue(n)),
      ALOAD(e), HasMoreElements, IFEQ(Break(n)),
      ALOAD(e), NextElement, Store(Local(varName)),
      LoopBody,
      GOTO(Continue(n)),
      Place(Break(n)) ]
  }

  /** The iterator loop when `iterator()` is bound statically to `m`. */
  function DirectIteratorListing(m: Method): seq<Instr> {
    [CallIterator(m), IteratorLoopControl(m.returnType)]
  }

  /** The iterator loop through the runtime coercion. */
  const CoercedIteratorListing: seq<Instr> :=
    [EvalCollection, DgmIterator, IteratorLoopControl(IteratorType)]

  // ---------------------------------------------------------------------------
  // Finding `iterator()`.

  /** Position of the first interface whose lookup finds an `iterator()`; `|ifaces|` if none. */
  function FirstIteratorIndex(h: Hierarchy, ifaces: seq<string>): (k: nat)
    ensures k <= |ifaces|
    ensures forall j | 0 <= j < k :: ifaces[j] !in h.iteratorMethod
    ensures k < |ifaces| ==> ifaces[k] in h.iteratorMethod
    decreases |ifaces|
  {
    if ifaces == [] then 0
    else if ifaces[0] in h.iteratorMethod then 0
    else 1 + FirstIteratorIndex(h, ifaces[1..])
  }

  /** Interface `i` of the list is the first one that has an `iterator()`. */
  predicate IsFirstHit(h: Hierarchy, ifaces: seq<string>, i: int) {
    && 0 <= i < |ifaces|
    && ifaces[i] in h.iteratorMethod
    && forall j | 0 <= j < i :: ifaces[j] !in h.iteratorMethod
  }

  /**
    The `iterator()` the iterator lowering considers: the one found on the type itself, or
    else the one of the first interface or superinterface that has one.
  */
  function FindIterator(h: Hierarchy, t: JType): (r: Option<Method>)
    ensures DeclaredIterator(h, t).Some? ==> r == DeclaredIterator(h, t)
    ensures r.None? <==>
      DeclaredIterator(h, t).None? &&
      forall i | 0 <= i < |InterfacesOf(h, t)| :: InterfacesOf(h, t)[i] !in h.iteratorMethod
    ensures DeclaredIterator(h, t).None? && r.Some? ==>
      exists i :: IsFirstHit(h, InterfacesOf(h, t), i) && r.value == h.iteratorMethod[InterfacesOf(h, t)[i]]
  {
    match DeclaredIterator(h, t)
    case Some(m) => Some(m)
    case None =>
      var ifaces := InterfacesOf(h, t);
      var k := FirstIteratorIndex(h, ifaces);
      if k < |ifaces| then
        assert IsFirstHit(h, ifaces, k);
        Some(h.iteratorMethod[ifaces[k]])
      else
        None
  }

  /** The found method is bound directly only if it returns an `Iterator`. */
  predicate UsesDirectIterator(h: Hierarchy, t: JType) {
    var m := FindIterator(h, t);
    m.Some? && IsOrImplements(h, m.value.returnType, IteratorName)
  }

  // ---------------------------------------------------------------------------
  // The three lowerings.

  function WriteOptimizedForEachLoop(g: Gen, loop: ForLoop): (r: Gen)
    requires |g.loops| > 0
    ensures r.code == g.code + ArrayLoopListing(loop.varName, loop.varType, g.loops[|g.loops| - 1].id)
    ensures r.stack == g.stack
    ensures r.temps == g.temps
    ensures r.tempLog == g.tempLog +
      [Defined(ArrName), Defined(LenName), Defined(IdxName),
       Removed(IdxName), Removed(LenName), Removed(ArrName)]
    ensures r.loops == g.loops && r.nextLoop == g.nextLoop
  {
    var continueLabel, breakLabel := ContinueLabel(g), BreakLabel(g);
    var g1 := DefineVariable(g, loop.varName);
    // the array reference, kept in $arr; a null array leaves at once
    var g2 := Emit(Push(g1, loop.collType), [EvalCollection, DUP]);
    var g3 := DefineTemporary(g2, ArrName, loop.collType);
    var g4 := Emit(g3, [IFNULL(breakLabel)]);
    // the length, read once into $len
    var g5 := Push(Emit(g4, [ALOAD(Temp(ArrName)), ARRAYLENGTH]), IntType);
    var g6 := DefineTemporary(g5, LenName, IntType);
    // $idx = 0
    var g7 := Push(Emit(g6, [ICONST_0]), IntType);
    var g8 := DefineTemporary(g7, IdxName, IntType);
    assert g8.stack == g.stack;
    assert g8.code == g.code + [DefineVar(Local(loop.varName)), EvalCollection, DUP, Store(Temp(ArrName)),
                                IFNULL(breakLabel), ALOAD(Temp(ArrName)), ARRAYLENGTH, Store(Temp(LenName)),
                                ICONST_0, Store(Temp(IdxName))];
    // loop head: leave once $idx >= $len
    var g9 := Emit(g8, [Place(continueLabel), ILOAD(Temp(IdxName)), ILOAD(Temp(LenName)), IF_ICMPGE(breakLabel)]);
    var g10 := LoadFromArray(g9, Local(loop.varName), loop.varType, Temp(ArrName), Temp(IdxName));
    var g11 := Emit(g10, [IINC(Temp(IdxName), 1), LoopBody, GOTO(continueLabel), Place(breakLabel)]);
    assert g11.temps == g.temps + [TempVar(ArrName, loop.collType), TempVar(LenName, IntType), TempVar(IdxName, IntType)];
    RemoveVar(RemoveVar(RemoveVar(g11, IdxName), LenName), ArrName)
  }

  function WriteEnumerationBasedForEachLoop(g: Gen, loop: ForLoop): (r: Gen)
    requires |g.loops| > 0
    ensures r.code == g.code + EnumerationLoopListing(loop.varName, g.loops[|g.loops| - 1].id)
    ensures r.stack == g.stack
    ensures r.temps == g.temps + [TempVar(EnumName, EnumerationType)]
    ensures r.tempLog == g.tempLog + [Defined(EnumName)]
    ensures r.loops == g.loops && r.nextLoop == g.nextLoop
  {
    var continueLabel, breakLabel := ContinueLabel(g), BreakLabel(g);
    var g1 := DefineVariable(g, loop.varName);
    var g2 := DefineTemporary(Push(Emit(g1, [EvalCollection]), loop.collType), EnumName, EnumerationType);
    var g3 := Emit(g2, [Place(continueLabel), ALOAD(Temp(EnumName)), HasMoreElements, IFEQ(breakLabel)]);
    var g4 := Push(Emit(g3, [ALOAD(Temp(EnumName)), NextElement]), ObjectType);
    var g5 := StoreVar(g4, Local(loop.varName));
    Emit(g5, [LoopBody, GOTO(continueLabel), Place(breakLabel)])
  }

  /** The inherited loop control takes over the iterator on top of the stack. */
  function IteratorLoopControlOf(g: Gen, loop: ForLoop): Gen
    requires |g.stack| > 0
  {
    var n := |g.stack| - 1;
    g.(code := g.code + [IteratorLoopControl(g.stack[n])], stack := g.stack[..n] + loop.controlResidue)
  }

  function WriteIteratorBasedForEachLoop(g: Gen, h: Hierarchy, loop: ForLoop): (r: Gen)
    ensures UsesDirectIterator(h, loop.collType) ==>
      r.code == g.code + DirectIteratorListing(FindIterator(h, loop.collType).value)
    ensures !UsesDirectIterator(h, loop.collType) ==> r.code == g.code + CoercedIteratorListing
    ensures r.stack == g.stack + loop.controlResidue
    ensures r.temps == g.temps && r.tempLog == g.tempLog
    ensures r.loops == g.loops && r.nextLoop == g.nextLoop
  {
    var m := FindIterator(h, loop.collType);
    var g1 :=
      if m.Some? && IsOrImplements(h, m.value.returnType, IteratorName) then
        Push(Emit(g, [CallIterator(m.value)]), m.value.returnType)
      else
        Replace(Push(Emit(g, [EvalCollection, DgmIterator]), loop.collType), IteratorType);
    IteratorLoopControlOf(g1, loop)
  }

  // ---------------------------------------------------------------------------
  // The entry point.

  /** The listing the selected lowering appends when its loop scope is number `n`. */
  function StrategyListing(h: Hierarchy, loop: ForLoop, n: nat): seq<Instr> {
    match SelectStrategy(h, loop)
    case IndexedArray => ArrayLoopListing(loop.varName, loop.varType, n)
    case EnumerationBased => EnumerationLoopListing(loop.varName, n)
    case IteratorBased =>
      if UsesDirectIterator(h, loop.collType)
      then DirectIteratorListing(FindIterator(h, loop.collType).value)
      else CoercedIteratorListing
  }

  /** What the selected lowering leaves on the tracked operand stack. */
  function StrategyResidue(h: Hierarchy, loop: ForLoop): seq<JType> {
    if SelectStrategy(h, loop) == IteratorBased then loop.controlResidue else []
  }

  /** The listing the whole for-each lowering appends: the selected lowering's, then the
      pops that bring the operand stack back to its height before the loop. */
  function ForInListing(h: Hierarchy, loop: ForLoop, n: nat): seq<Instr> {
    StrategyListing(h, loop, n) + PopsFor(StrategyResidue(h, loop))
  }

  /** The explicit definitions and removals of temporaries each lowering makes. */
  function ForInTempLog(h: Hierarchy, loop: ForLoop): seq<TempEvent> {
    match SelectStrategy(h, loop)
    case IndexedArray =>
      [Defined(ArrName), Defined(LenName), Defined(IdxName), Removed(IdxName), Removed(LenName), Removed(ArrName)]
    case EnumerationBased => [Defined(EnumName)]
    case IteratorBased => []
  }

  /** The temporaries a lowering leaves live: the enumeration lowering never removes `$enum`. */
  function ForInTempResidue(h: Hierarchy, loop: ForLoop): seq<TempVar> {
    if SelectStrategy(h, loop) == EnumerationBased then [TempVar(EnumName, EnumerationType)] else []
  }

  /** The selected lowering, inside the loop scope already opened. */
  method WriteSelected(g: Gen, h: Hierarchy, loop: ForLoop) returns (r: Gen)
    requires |g.loops| > 0
    ensures r.code == g.code + StrategyListing(h, loop, g.loops[|g.loops| - 1].id)
    ensures r.stack == g.stack + StrategyResidue(h, loop)
    ensures r.temps == g.temps + ForInTempResidue(h, loop)
    ensures r.tempLog == g.tempLog + ForInTempLog(h, loop)
    ensures r.loops == g.loops && r.nextLoop == g.nextLoop
  {
    match SelectStrategy(h, loop)
    case IndexedArray => r := WriteOptimizedForEachLoop(g, loop);
    case EnumerationBased => r := WriteEnumerationBasedForEachLoop(g, loop);
    case IteratorBased => r := WriteIteratorBasedForEachLoop(g, h, loop);
  }

  /**
    Lower one for-each loop: open a loop scope, note the stack height, run the selected
    lowering, pop the tracked stack back to the noted height and close the scope. A
    temporary the lowering did not remove (`$enum`) is still live afterwards.
  */
  method WriteForInLoop(g: Gen, h: Hierarchy, loop: ForLoop) returns (r: Gen)
    ensures r.code == g.code + ForInListing(h, loop, g.nextLoop)
    ensures r.stack == g.stack
    ensures r.temps == g.temps + ForInTempResidue(h, loop)
    ensures r.tempLog == g.tempLog + ForInTempLog(h, loop)
    ensures r.loops == g.loops && r.nextLoop == g.nextLoop + 1
  {
    var g1 := PushLoop(g);
    var mark := |g1.stack|;
    var g2 := WriteSelected(g1, h, loop);
    assert g2.stack[mark..] == StrategyResidue(h, loop);
    var g3 := PopDownTo(g2, mark);
    assert g3.code == g.code + ForInListing(h, loop, g.nextLoop);
    assert g3.loops == g.loops + [Scope(g.nextLoop)];
    r := PopLoop(g3);
  }

  // ---------------------------------------------------------------------------
  // The enumeration lowering releasing `$enum`, as the array lowering releases its
  // temporaries.

  /** The enumeration lowering followed by the removal of `$enum` after the break label. */
  function WriteEnumerationLoopReleasing(g: Gen, loop: ForLoop): (r: Gen)
    requires |g.loops| > 0
    ensures r.code == g.code + EnumerationLoopListing(loop.varName, g.loops[|g.loops| - 1].id)
    ensures r.stack == g.stack && r.temps == g.temps
    ensures r.tempLog == g.tempLog + [Defined(EnumName), Removed(EnumName)]
    ensures r.loops == g.loops && r.nextLoop == g.nextLoop
  {
    RemoveVar(WriteEnumerationBasedForEachLoop(g, loop), EnumName)
  }

  /** The definitions and removals of temporaries when `$enum` is released. */
  function ForInTempLogReleasing(h: Hierarchy, loop: ForLoop): seq<TempEvent> {
    if SelectStrategy(h, loop) == EnumerationBased then [Defined(EnumName), Removed(EnumName)]
    else ForInTempLog(h, loop)
  }

  /**
    The for-each lowering with `$enum` released: the same code, and every strategy leaves
    the live temporaries as it found them.
  */
  method WriteForInLoopReleasing(g: Gen, h: Hierarchy, loop: ForLoop) returns (r: Gen)
    ensures r.code == g.code + ForInListing(h, loop, g.nextLoop)
    ensures r.stack == g.stack
    ensures r.temps == g.temps
    ensures r.tempLog == g.tempLog + ForInTempLogReleasing(h, loop)
    ensures r.loops == g.loops && r.nextLoop == g.nextLoop + 1
  {
    var g1 := PushLoop(g);
    var mark := |g1.stack|;
    var g2: Gen;
    if SelectStrategy(h, loop) == EnumerationBased {
      g2 := WriteEnumerationLoopReleasing(g1, loop);
    } else {
      g2 := WriteSelected(g1, h, loop);
    }
    assert g2.stack[mark..] == StrategyResidue(h, loop);
    var g3 := PopDownTo(g2, mark);
    assert g3.code == g.code + ForInListing(h, loop, g.nextLoop);
    assert g3.loops == g.loops + [Scope(g.nextLoop)];
    r := PopLoop(g3);
  }

}
