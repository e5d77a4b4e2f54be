/**
  The emitted listings instruction by instruction, and which instructions each holds
  exactly once: the facts the run proofs and the shape properties build on.
*/
module Listings {

  import opened Wrappers
  import opened JavaTypes
  import opened Bytecode
  import opened ArrayLoad
  import opened ForEach

  /** `x` occurs in `code` at position `k` and nowhere else. */
  predicate OnlyAt(code: seq<Instr>, x: Instr, k: int) {
    0 <= k < |code| && code[k] == x && forall i | 0 <= i < |code| && i != k :: code[i] != x
  }

  /** The jump target of a branch instruction. */
  function JumpTarget(x: Instr): Option<Label> {
    match x
    case IFNULL(l) => Some(l)
    case IFEQ(l) => Some(l)
    case IF_ICMPGE(l) => Some(l)
    case GOTO(l) => Some(l)
    case _ => None
  }

  /** `code` holds no instruction of the other two strategies' protocols. */
  predicate NoEnumerationCalls(code: seq<Instr>) {
    forall i | 0 <= i < |code| :: code[i] != HasMoreElements && code[i] != NextElement
  }

  predicate NoIteratorControl(code: seq<Instr>) {
    forall i | 0 <= i < |code| :: !code[i].IteratorLoopControl?
  }

  /** Every branch in `code` goes to a label of loop scope `n`. */
  predicate JumpsWithin(code: seq<Instr>, n: nat) {
    forall i | 0 <= i < |code| && JumpTarget(code[i]).Some? :: JumpTarget(code[i]).value.loop == n
  }

  // ---------------------------------------------------------------------------
  // The indexed-array listing.

  /** The array listing up to the null test. */
  predicate ArrayPrologueShape(code: seq<Instr>, varName: string, n: nat) {
    && |code| == 22
    && code[0] == DefineVar(Local(varName)) && code[1] == EvalCollection && code[2] == DUP
    && code[3] == Store(Temp(ArrName)) && code[4] == IFNULL(Break(n))
  }

  /** The array listing from the length read to the loop head. */
  predicate ArrayCountersShape(code: seq<Instr>, n: nat) {
    && |code| == 22
    && code[5] == ALOAD(Temp(ArrName)) && code[6] == ARRAYLENGTH && code[7] == Store(Temp(LenName))
    && code[8] == ICONST_0 && code[9] == Store(Temp(IdxName)) && code[10] == Place(Continue(n))
  }

  /** The array listing's loop, from the head's test to the break label. */
  predicate ArrayLoopShape(code: seq<Instr>, varName: string, op: ArrayLoadOp, n: nat) {
    && |code| == 22
    && code[11] == ILOAD(Temp(IdxName)) && code[12] == ILOAD(Temp(LenName))
    && code[13] == IF_ICMPGE(Break(n)) && code[14] == ALOAD(Temp(ArrName))
    && code[15] == ILOAD(Temp(IdxName)) && code[16] == ArrayLoad(op) && code[17] == Store(Local(varName))
    && code[18] == IINC(Temp(IdxName), 1) && code[19] == LoopBody && code[20] == GOTO(Continue(n))
    && code[21] == Place(Break(n))
  }

  lemma ArrayListingPrologue(varName: string, varType: JType, n: nat)
    requires ArrayLoadOpcode(varType).Some?
    ensures ArrayPrologueShape(ArrayLoopListing(varName, varType, n), varName, n)
  {
  }

  lemma ArrayListingCounters(varName: string, varType: JType, n: nat)
    requires ArrayLoadOpcode(varType).Some?
    ensures ArrayCountersShape(ArrayLoopListing(varName, varType, n), n)
  {
  }

  lemma ArrayListingLoop(varName: string, varType: JType, n: nat)
    requires ArrayLoadOpcode(varType).Some?
    ensures ArrayLoopShape(ArrayLoopListing(varName, varType, n), varName, ArrayLoadOpcode(varType).value, n)
  {
  }


  lemma ArrayShapeOnceSetup(code: seq<Instr>, varName: string, op: ArrayLoadOp, n: nat)
    requires ArrayPrologueShape(code, varName, n) && ArrayCountersShape(code, n) && ArrayLoopShape(code, varName, op, n)
    ensures OnlyAt(code, EvalCollection, 1) && OnlyAt(code, ARRAYLENGTH, 6) && OnlyAt(code, Place(Continue(n)), 10)
  {
  }

  lemma ArrayShapeOnceLoop(code: seq<Instr>, varName: string, op: ArrayLoadOp, n: nat)
    requires ArrayPrologueShape(code, varName, n) && ArrayCountersShape(code, n) && ArrayLoopShape(code, varName, op, n)
    ensures OnlyAt(code, LoopBody, 19) && OnlyAt(code, Place(Break(n)), 21)
  {
  }

  /**
    Whatever the loop variable's type, the array listing reads the length at position 6,
    branches only to its own labels and holds no enumeration or iterator instruction: the
    typed load between the fixed parts is an array load or nothing.
  */
  lemma ArrayListingProtocol(varName: string, varType: JType, n: nat)
    ensures var L := ArrayLoopListing(varName, varType, n);
      && |L| > 6 && L[6] == ARRAYLENGTH
      && JumpsWithin(L, n) && NoEnumerationCalls(L) && NoIteratorControl(L)
  {
    var L := ArrayLoopListing(varName, varType, n);
    var arr, len, idx := Temp(ArrName), Temp(LenName), Temp(IdxName);
    var P := [ DefineVar(Local(varName)),
      EvalCollection, DUP, Store(arr), IFNULL(Break(n)),
      ALOAD(arr), ARRAYLENGTH, Store(len),
      ICONST_0, Store(idx),
      Place(Continue(n)),
      ILOAD(idx), ILOAD(len), IF_ICMPGE(Break(n)),
      ALOAD(arr), ILOAD(idx) ];
    var T := TypedLoad(varType);
    var S := [Store(Local(varName)), IINC(idx, 1), LoopBody, GOTO(Continue(n)), Place(Break(n))];
    assert L == P + T + S;
    forall i | 0 <= i < |L|
      ensures (JumpTarget(L[i]).Some? ==> JumpTarget(L[i]).value.loop == n)
      ensures L[i] != HasMoreElements && L[i] != NextElement && !L[i].IteratorLoopControl?
    {
      if i < |P| {
        assert L[i] == P[i];
      } else if i < |P| + |T| {
        assert L[i] == T[i - |P|] && L[i].ArrayLoad?;
      } else {
        assert L[i] == S[i - |P| - |T|];
      }
    }
  }

  /**
    The array listing evaluates the collection once and reads the length once, both before
    the loop head, so neither is repeated per element; it holds the body once, places each
    of its labels once and branches only to them; a null array branches to the exit
    straight after the evaluation.
  */
  lemma ArrayListingOnce(varName: string, varType: JType, n: nat)
    requires varType != Prim(Void)
    ensures var L := ArrayLoopListing(varName, varType, n);
      && OnlyAt(L, EvalCollection, 1)
      && L[4] == IFNULL(Break(n))
      && OnlyAt(L, ARRAYLENGTH, 6)
      && OnlyAt(L, Place(Continue(n)), 10)
      && OnlyAt(L, LoopBody, 19)
      && OnlyAt(L, Place(Break(n)), 21) && |L| == 22
      && JumpsWithin(L, n)
      && NoEnumerationCalls(L) && NoIteratorControl(L)
  {
    var L := ArrayLoopListing(varName, varType, n);
    var op := ArrayLoadOpcode(varType).value;
    ArrayListingPrologue(varName, varType, n);
    ArrayListingCounters(varName, varType, n);
    ArrayListingLoop(varName, varType, n);
    ArrayShapeOnceSetup(L, varName, op, n);
    ArrayShapeOnceLoop(L, varName, op, n);
    ArrayListingProtocol(varName, varType, n);
  }

  // ---------------------------------------------------------------------------
  // The enumeration listing.

  /** The enumeration listing up to the loop head. */
  predicate EnumSetupShape(code: seq<Instr>, varName: string) {
    && |code| == 13
    && code[0] == DefineVar(Local(varName)) && code[1] == EvalCollection && code[2] == Store(Temp(EnumName))
  }

  /** The enumeration listing's loop, from the head to the break label. */
  predicate EnumLoopShape(code: seq<Instr>, varName: string, n: nat) {
    && |code| == 13
    && code[3] == Place(Continue(n)) && code[4] == ALOAD(Temp(EnumName)) && code[5] == HasMoreElements
    && code[6] == IFEQ(Break(n)) && code[7] == ALOAD(Temp(EnumName)) && code[8] == NextElement
    && code[9] == Store(Local(varName)) && code[10] == LoopBody && code[11] == GOTO(Continue(n))
    && code[12] == Place(Break(n))
  }

  lemma EnumListingSetup(varName: string, n: nat)
    ensures EnumSetupShape(EnumerationLoopListing(varName, n), varName)
  {
  }

  lemma EnumListingLoop(varName: string, n: nat)
    ensures EnumLoopShape(EnumerationLoopListing(varName, n), varName, n)
  {
  }


  lemma EnumShapeOnceSetup(code: seq<Instr>, varName: string, n: nat)
    requires EnumSetupShape(code, varName) && EnumLoopShape(code, varName, n)
    ensures && OnlyAt(code, EvalCollection, 1) && OnlyAt(code, Place(Continue(n)), 3)
            && OnlyAt(code, HasMoreElements, 5)
  {
  }

  lemma EnumShapeOnceLoop(code: seq<Instr>, varName: string, n: nat)
    requires EnumSetupShape(code, varName) && EnumLoopShape(code, varName, n)
    ensures && OnlyAt(code, NextElement, 8) && OnlyAt(code, LoopBody, 10) && OnlyAt(code, Place(Break(n)), 12)
  {
  }

  lemma EnumShapeJumps(code: seq<Instr>, varName: string, n: nat)
    requires EnumSetupShape(code, varName) && EnumLoopShape(code, varName, n)
    ensures JumpsWithin(code, n)
  {
  }

  lemma EnumShapeExcludes(code: seq<Instr>, varName: string, n: nat)
    requires EnumSetupShape(code, varName) && EnumLoopShape(code, varName, n)
    ensures (forall i | 0 <= i < |code| :: code[i] != ARRAYLENGTH) && NoIteratorControl(code)
  {
  }

  /**
    The enumeration listing evaluates the collection once, before the loop head, and keeps
    it in `$enum`; each pass asks `hasMoreElements` once, fetches with `nextElement` once
    and runs the body once; each label is placed once and the branches go only to them.
  */
  lemma EnumListingOnce(varName: string, n: nat)
    ensures var L := EnumerationLoopListing(varName, n);
      && OnlyAt(L, EvalCollection, 1) && L[2] == Store(Temp(EnumName))
      && OnlyAt(L, Place(Continue(n)), 3)
      && OnlyAt(L, HasMoreElements, 5) && L[6] == IFEQ(Break(n))
      && OnlyAt(L, NextElement, 8)
      && OnlyAt(L, LoopBody, 10)
      && OnlyAt(L, Place(Break(n)), 12) && |L| == 13
      && JumpsWithin(L, n)
      && (forall i | 0 <= i < |L| :: L[i] != ARRAYLENGTH) && NoIteratorControl(L)
  {
    EnumListingSetup(varName, n);
    EnumListingLoop(varName, n);
    EnumShapeOnceSetup(EnumerationLoopListing(varName, n), varName, n);
    EnumShapeOnceLoop(EnumerationLoopListing(varName, n), varName, n);
    EnumShapeJumps(EnumerationLoopListing(varName, n), varName, n);
    EnumShapeExcludes(EnumerationLoopListing(varName, n), varName, n);
  }

}
