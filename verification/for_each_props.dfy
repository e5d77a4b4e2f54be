/**
  Properties of the whole for-each lowering: the selected strategy can be read off the
  emitted code, every loop branches only to its own labels, the iterator lookup binds the
  first interface's `iterator()` and falls back to the runtime coercion exactly when it
  must, and lowering loops one after another keeps the operand stack, the temporaries and
  the loop scopes balanced.
*/
module ForEachProps {

  import opened Wrappers
  import opened JavaTypes
  import opened Bytecode
  import opened CodeGen
  import opened ArrayLoad
  import opened ForEach
  import opened Listings

  lemma PopsForNoPops()
    ensures PopsFor([]) == []
  {
  }

  /** The iterator strategy's listing: no array or enumeration instruction, no branch. */
  lemma IteratorListingContents(h: Hierarchy, loop: ForLoop, n: nat)
    requires SelectStrategy(h, loop) == IteratorBased
    ensures var L := ForInListing(h, loop, n);
      && (forall i | 0 <= i < |L| :: L[i] != ARRAYLENGTH && JumpTarget(L[i]).None?)
      && NoEnumerationCalls(L)
      && L[|L| - |loop.controlResidue| - 1] == IteratorLoopControl(
           if UsesDirectIterator(h, loop.collType) then FindIterator(h, loop.collType).value.returnType else IteratorType)
  {
    var L := ForInListing(h, loop, n);
    var S := StrategyListing(h, loop, n);
    var P := PopsFor(loop.controlResidue);
    assert L == S + P;
    forall i | 0 <= i < |L|
      ensures L[i] != ARRAYLENGTH && JumpTarget(L[i]).None? && L[i] != HasMoreElements && L[i] != NextElement
    {
      if i >= |S| {
        assert L[i] == P[i - |S|];
      }
    }
  }

  /** The array strategy's listing reads the length and calls no enumeration or iterator. */
  lemma ArrayStrategyVisible(h: Hierarchy, loop: ForLoop, n: nat)
    requires ArrayApplies(loop)
    ensures var L := ForInListing(h, loop, n);
      && ARRAYLENGTH in L && HasMoreElements !in L
      && (forall i | 0 <= i < |L| :: !L[i].IteratorLoopControl?)
      && JumpsWithin(L, n)
  {
    var L := ForInListing(h, loop, n);
    PopsForNoPops();
    assert L == ArrayLoopListing(loop.varName, loop.varType, n);
    ArrayListingProtocol(loop.varName, loop.varType, n);
    assert L[6] == ARRAYLENGTH;
  }

  /** The enumeration strategy's listing calls `hasMoreElements`, never reads a length and
      has no iterator loop control. */
  lemma EnumStrategyVisible(h: Hierarchy, loop: ForLoop, n: nat)
    requires SelectStrategy(h, loop) == EnumerationBased
    ensures var L := ForInListing(h, loop, n);
      && ARRAYLENGTH !in L && HasMoreElements in L
      && (forall i | 0 <= i < |L| :: !L[i].IteratorLoopControl?)
      && JumpsWithin(L, n)
  {
    EnumForInListing(h, loop, n);
    EnumListingOnce(loop.varName, n);
  }

  lemma EnumForInListing(h: Hierarchy, loop: ForLoop, n: nat)
    requires SelectStrategy(h, loop) == EnumerationBased
    ensures ForInListing(h, loop, n) == EnumerationLoopListing(loop.varName, n)
  {
    PopsForNoPops();
  }

  /** The iterator strategy's listing holds its loop control and neither a length read nor
      an enumeration call. */
  lemma IteratorStrategyVisible(h: Hierarchy, loop: ForLoop, n: nat)
    requires SelectStrategy(h, loop) == IteratorBased
    ensures var L := ForInListing(h, loop, n);
      && ARRAYLENGTH !in L && HasMoreElements !in L
      && (exists i | 0 <= i < |L| :: L[i].IteratorLoopControl?)
      && JumpsWithin(L, n)
  {
    var L := ForInListing(h, loop, n);
    IteratorListingContents(h, loop, n);
    var k := |L| - |loop.controlResidue| - 1;
    assert L[k].IteratorLoopControl?;
  }

  /**
    The strategy shows in the output: the length read appears exactly for the array
    strategy, the `hasMoreElements` call exactly for the enumeration strategy, and the
    iterator loop control exactly for the iterator strategy. With the selection order this
    makes the first applicable strategy the one whose code is emitted.
  */
  lemma StrategyVisibleInListing(h: Hierarchy, loop: ForLoop, n: nat)
    ensures var L := ForInListing(h, loop, n);
      && (ARRAYLENGTH in L <==> ArrayApplies(loop))
      && (HasMoreElements in L <==> !ArrayApplies(loop) && IsOrImplements(h, loop.collType, EnumerationName))
      && ((exists i | 0 <= i < |L| :: L[i].IteratorLoopControl?) <==>
          !ArrayApplies(loop) && !IsOrImplements(h, loop.collType, EnumerationName))
  {
    match SelectStrategy(h, loop)
    case IndexedArray => ArrayStrategyVisible(h, loop, n);
    case EnumerationBased => EnumStrategyVisible(h, loop, n);
    case IteratorBased => IteratorStrategyVisible(h, loop, n);
  }

  /** Whatever the strategy, the emitted loop branches only to the labels of its own scope,
      so loops lowered one after another never jump into each other. */
  lemma ForInJumpsWithin(h: Hierarchy, loop: ForLoop, n: nat)
    ensures JumpsWithin(ForInListing(h, loop, n), n)
  {
    match SelectStrategy(h, loop)
    case IndexedArray => ArrayStrategyVisible(h, loop, n);
    case EnumerationBased => EnumStrategyVisible(h, loop, n);
    case IteratorBased => IteratorStrategyVisible(h, loop, n);
  }

  // ---------------------------------------------------------------------------
  // The iterator lookup.

  /** At most one interface of a list is the first to have an `iterator()`. */
  lemma FirstHitUnique(h: Hierarchy, ifaces: seq<string>, i: int, j: int)
    requires IsFirstHit(h, ifaces, i) && IsFirstHit(h, ifaces, j)
    ensures i == j
  {
  }

  /**
    When the type itself finds no `iterator()`, the lookup binds the one of the first
    interface or superinterface, in the compiler's order, that has one.
  */
  lemma InheritedIteratorIsFirst(h: Hierarchy, t: JType, i: int)
    requires DeclaredIterator(h, t).None? && IsFirstHit(h, InterfacesOf(h, t), i)
    ensures FindIterator(h, t) == Some(h.iteratorMethod[InterfacesOf(h, t)[i]])
  {
    var ifaces := InterfacesOf(h, t);
    var r := FindIterator(h, t);
    assert r.Some?;
    var j :| IsFirstHit(h, ifaces, j) && r.value == h.iteratorMethod[ifaces[j]];
    FirstHitUnique(h, ifaces, i, j);
  }

  /**
    The iterator strategy goes through the runtime coercion exactly when no `iterator()`
    is found, on the type or any of its interfaces, or when the one found does not return
    an `Iterator`; otherwise it calls the found method directly.
  */
  lemma IteratorFallback(h: Hierarchy, loop: ForLoop, n: nat)
    requires SelectStrategy(h, loop) == IteratorBased
    ensures var ifaces := InterfacesOf(h, loop.collType);
      StrategyListing(h, loop, n) == CoercedIteratorListing <==>
        || (DeclaredIterator(h, loop.collType).None? && forall i | 0 <= i < |ifaces| :: ifaces[i] !in h.iteratorMethod)
        || (FindIterator(h, loop.collType).Some? &&
            !IsOrImplements(h, FindIterator(h, loop.collType).value.returnType, IteratorName))
    ensures StrategyListing(h, loop, n) != CoercedIteratorListing ==>
      StrategyListing(h, loop, n) == [CallIterator(FindIterator(h, loop.collType).value),
                                      IteratorLoopControl(FindIterator(h, loop.collType).value.returnType)]
  {
    if UsesDirectIterator(h, loop.collType) {
      assert |StrategyListing(h, loop, n)| == 2;
    }
  }

  // ---------------------------------------------------------------------------
  // Typical loops.

  /** A variable of an array's own component type walks the array by index, with the
      component's load: `for (int x : ints)` loads with `iaload`. */
  lemma MatchingArrayIsIndexed(h: Hierarchy, loop: ForLoop, n: nat)
    requires loop.collType == Array(loop.varType) && loop.varType != Prim(Void)
    ensures SelectStrategy(h, loop) == IndexedArray
    ensures ForInListing(h, loop, n)[16] == ArrayLoad(ArrayLoadOpcode(loop.varType).value)
    ensures loop.varType == IntType ==> ForInListing(h, loop, n)[16] == ArrayLoad(IALOAD)
  {
    PopsForNoPops();
  }

  /**
    A variable whose type differs from the array's component, as `for (long x : ints)`,
    does not take the indexed loop; an array implements no enumeration and has no
    `iterator()`, so it goes through the runtime coercion.
  */
  lemma MismatchedArrayIsCoerced(h: Hierarchy, loop: ForLoop, n: nat)
    requires loop.collType.Array? && loop.varType != loop.collType.component
    ensures SelectStrategy(h, loop) == IteratorBased
    ensures StrategyListing(h, loop, n) == CoercedIteratorListing
  {
  }

  /** A type that is an enumeration takes the enumeration loop, whatever `iterator()` it
      also has: the enumeration test comes before the iterator lookup. */
  lemma EnumerationBeforeIterator(h: Hierarchy, loop: ForLoop, n: nat)
    requires !loop.collType.Array? && IsOrImplements(h, loop.collType, EnumerationName)
    ensures StrategyListing(h, loop, n) == EnumerationLoopListing(loop.varName, n)
  {
  }

  /**
    A type that declares an `iterator()` returning an iterator calls it directly, whether
    or not it implements `Iterable`, which the lookup never consults (a stream declares
    `iterator()` without being `Iterable`).
  */
  lemma DeclaredIteratorIsCalled(h: Hierarchy, loop: ForLoop, n: nat, m: Method)
    requires !loop.collType.Array? && !IsOrImplements(h, loop.collType, EnumerationName)
    requires DeclaredIterator(h, loop.collType) == Some(m) && IsOrImplements(h, m.returnType, IteratorName)
    ensures StrategyListing(h, loop, n) == [CallIterator(m), IteratorLoopControl(m.returnType)]
  {
  }

  // ---------------------------------------------------------------------------
  // Loops one after another.

  /** The temporaries a sequence of loops leaves live, in order. */
  function ForInTempResidues(h: Hierarchy, loops: seq<ForLoop>): seq<TempVar> {
    if loops == [] then [] else ForInTempResidue(h, loops[0]) + ForInTempResidues(h, loops[1..])
  }

  /**
    Lower `loops` one after another: each gets a fresh loop scope, the operand stack and
    the open scopes are as they were before the first, and the code already emitted is
    kept. The live temporaries grow by one `$enum` per enumeration loop, in order.
  */
  method WriteForInLoops(g: Gen, h: Hierarchy, loops: seq<ForLoop>) returns (r: Gen)
    ensures |r.code| >= |g.code| && r.code[..|g.code|] == g.code
    ensures r.stack == g.stack && r.temps == g.temps + ForInTempResidues(h, loops)
    ensures r.loops == g.loops && r.nextLoop == g.nextLoop + |loops|
    decreases |loops|
  {
    if loops == [] {
      r := g;
    } else {
      var g1 := WriteForInLoop(g, h, loops[0]);
      r := WriteForInLoops(g1, h, loops[1..]);
      assert r.code[..|g1.code|][..|g.code|] == g.code;
    }
  }

  // ---------------------------------------------------------------------------
  // An enumeration loop inside an array loop.

  /**
    An enumeration loop lowered as the body of an array loop, where `$idx` is the newest
    temporary. `$enum` is still live afterwards, above `$idx`, so the array loop's removal
    of `$idx` after its break label is refused: `$idx` is no longer the newest temporary.
  */
  method EnumerationInsideArrayLoop(g: Gen, h: Hierarchy, inner: ForLoop) returns (r: Gen)
    requires IsNewestTemp(g, IdxName) && SelectStrategy(h, inner) == EnumerationBased
    ensures r.temps == g.temps + [TempVar(EnumName, EnumerationType)]
    ensures IsNewestTemp(r, EnumName) && !IsNewestTemp(r, IdxName)
  {
    r := WriteForInLoop(g, h, inner);
    assert EnumName[1] != IdxName[1];
  }

  /** With `$enum` released, the same nesting leaves `$idx` the newest temporary, so the
      array loop can remove it. */
  method EnumerationInsideArrayLoopReleasing(g: Gen, h: Hierarchy, inner: ForLoop) returns (r: Gen)
    requires IsNewestTemp(g, IdxName) && SelectStrategy(h, inner) == EnumerationBased
    ensures r.temps == g.temps && IsNewestTemp(r, IdxName)
  {
    r := WriteForInLoopReleasing(g, h, inner);
  }

}
