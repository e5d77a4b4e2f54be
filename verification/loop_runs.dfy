/**
  What the indexed-array listing does when run: the body runs once per element, in order,
  with the loop variable bound to that element; the collection is evaluated once and the
  length read once; over a null array the body never runs.
*/
module LoopRuns {

  import opened Wrappers
  import opened JavaTypes
  import opened Bytecode
  import opened ArrayLoad
  import opened ForEach
  import opened Listings
  import opened Machine

  /** Instructions run from the loop head for one more element, and for the exit test. */
  const ArrayIterationSteps: nat := 11
  const ArrayExitSteps: nat := 5

  /** Enough steps for an array of `len` elements: the ten set-up instructions, then the loop. */
  function ArrayFuel(len: nat): nat {
    10 + ArrayIterationSteps * len + ArrayExitSteps
  }

  /** The loop head of the array listing, with `i` elements done. */
  predicate AtArrayHead(env: Env, s: State, elems: seq<Val>, i: nat) {
    && s.pc == 10
    && s.stack == Bottom
    && Temp(ArrName) in s.locals && s.locals[Temp(ArrName)] == ArrRef(elems)
    && Temp(LenName) in s.locals && s.locals[Temp(LenName)] == IntV(|elems|)
    && Temp(IdxName) in s.locals && s.locals[Temp(IdxName)] == IntV(i)
    && env.loopVar in s.locals
  }

  /** The state at the loop head the first time: the variable declared, the three
      temporaries set, the collection evaluated and the length read once. */
  function ArrayHeadState(varName: string, elems: seq<Val>): State {
    Start([]).(pc := 10,
               locals := map[Local(varName) := Default, Temp(ArrName) := ArrRef(elems),
                             Temp(LenName) := IntV(|elems|), Temp(IdxName) := IntV(0)],
               evals := 1, lengthReads := 1)
  }

  lemma ArrayHeadStateAtHead(varName: string, elems: seq<Val>)
    ensures AtArrayHead(Env(ArrRef(elems), Local(varName)), ArrayHeadState(varName, elems), elems, 0)
  {
    ArrayTempsDistinct();
  }

  /** The three temporaries are different slots. */
  lemma ArrayTempsDistinct()
    ensures ArrName != LenName && ArrName != IdxName && LenName != IdxName
  {
    assert ArrName[1] != LenName[1] && ArrName[1] != IdxName[1] && LenName[1] != IdxName[1];
  }

  /** Each of the listing's two labels is placed exactly where the jumps expect it. */
  lemma ArrayListingLabels(code: seq<Instr>, varName: string, op: ArrayLoadOp, n: nat)
    requires ArrayPrologueShape(code, varName, n) && ArrayCountersShape(code, n) && ArrayLoopShape(code, varName, op, n)
    ensures FindLabelFrom(code, Continue(n), 0) == Some(10)
    ensures FindLabelFrom(code, Break(n), 0) == Some(21)
  {
    FindLabelFromAt(code, Continue(n), 0, 10);
    FindLabelFromAt(code, Break(n), 0, 21);
  }

  /** Everything the runs below need to know about the array listing. */
  lemma ArrayListingShapes(varName: string, varType: JType, n: nat)
    requires ArrayLoadOpcode(varType).Some?
    ensures var code := ArrayLoopListing(varName, varType, n);
      && ArrayPrologueShape(code, varName, n) && ArrayCountersShape(code, n)
      && ArrayLoopShape(code, varName, ArrayLoadOpcode(varType).value, n)
      && FindLabelFrom(code, Continue(n), 0) == Some(10)
      && FindLabelFrom(code, Break(n), 0) == Some(21)
  {
    ArrayListingPrologue(varName, varType, n);
    ArrayListingCounters(varName, varType, n);
    ArrayListingLoop(varName, varType, n);
    ArrayListingLabels(ArrayLoopListing(varName, varType, n), varName, ArrayLoadOpcode(varType).value, n);
  }

  // ---------------------------------------------------------------------------
  // The loop, a few instructions at a time.

  /** The loop head's test, up to the conditional jump. */
  lemma ArrayHeadLoads(code: seq<Instr>, env: Env, s: State, elems: seq<Val>, i: nat, f: nat)
    requires |code| == 22 && code[10].Place? && code[11] == ILOAD(Temp(IdxName)) && code[12] == ILOAD(Temp(LenName))
    requires AtArrayHead(env, s, elems, i) && f >= 3
    ensures Run(code, env, s, f) == Run(code, env, s.(pc := 13, stack := Push(Push(Bottom, IntV(i)), IntV(|elems|))), f - 3)
  {
    var s1 := s.(pc := 11);
    var s2 := s1.(pc := 12, stack := Push(Bottom, IntV(i)));
    StepPlace(code, env, s);
    StepThen(code, env, s, s1, f);
    StepLoadInt(code, env, s1, Temp(IdxName), i);
    StepThen(code, env, s1, s2, f - 1);
    StepLoadInt(code, env, s2, Temp(LenName), |elems|);
    StepThen(code, env, s2, s.(pc := 13, stack := Push(Push(Bottom, IntV(i)), IntV(|elems|))), f - 2);
  }

  /** Once the index reaches the length, the loop jumps to its break label and ends. */
  lemma ArrayExit(code: seq<Instr>, n: nat, env: Env, s: State, len: int, f: nat)
    requires |code| == 22 && code[13] == IF_ICMPGE(Break(n)) && code[21].Place?
    requires FindLabelFrom(code, Break(n), 0) == Some(21)
    requires s.pc == 13 && s.stack == Push(Push(Bottom, IntV(len)), IntV(len)) && f >= 2
    ensures Run(code, env, s, f) == Halted(s.(pc := 22, stack := Bottom))
  {
    var s1 := s.(pc := 21, stack := Bottom);
    StepCompareJumps(code, env, s, Bottom, len, len, Break(n), 21);
    StepThen(code, env, s, s1, f);
    StepPlace(code, env, s1);
    StepThen(code, env, s1, s1.(pc := 22), f - 1);
  }

  /** Below the length, the array and index are loaded again. */
  lemma ArrayLoadOperands(code: seq<Instr>, env: Env, s: State, elems: seq<Val>, i: nat, f: nat)
    requires |code| == 22 && code[13].IF_ICMPGE? && code[14] == ALOAD(Temp(ArrName)) && code[15] == ILOAD(Temp(IdxName))
    requires s.pc == 13 && s.stack == Push(Push(Bottom, IntV(i)), IntV(|elems|)) && i < |elems| && f >= 3
    requires Temp(ArrName) in s.locals && s.locals[Temp(ArrName)] == ArrRef(elems)
    requires Temp(IdxName) in s.locals && s.locals[Temp(IdxName)] == IntV(i)
    ensures Run(code, env, s, f) == Run(code, env, s.(pc := 16, stack := Push(Push(Bottom, ArrRef(elems)), IntV(i))), f - 3)
  {
    var s1 := s.(pc := 14, stack := Bottom);
    var s2 := s1.(pc := 15, stack := Push(Bottom, ArrRef(elems)));
    StepCompareFalls(code, env, s, Bottom, i, |elems|);
    StepThen(code, env, s, s1, f);
    StepLoadRef(code, env, s1, Temp(ArrName));
    StepThen(code, env, s1, s2, f - 1);
    StepLoadInt(code, env, s2, Temp(IdxName), i);
    StepThen(code, env, s2, s.(pc := 16, stack := Push(Push(Bottom, ArrRef(elems)), IntV(i))), f - 2);
  }

  /** The typed load and the store into the loop variable. */
  lemma ArrayLoadElement(code: seq<Instr>, varName: string, env: Env, s: State, elems: seq<Val>, i: nat, f: nat)
    requires |code| == 22 && code[16].ArrayLoad? && code[17] == Store(Local(varName))
    requires s.pc == 16 && s.stack == Push(Push(Bottom, ArrRef(elems)), IntV(i)) && i < |elems| && f >= 2
    ensures Run(code, env, s, f) ==
            Run(code, env, s.(pc := 18, stack := Bottom, locals := s.locals[Local(varName) := elems[i]],
                              elemReads := s.elemReads + 1), f - 2)
  {
    var s1 := s.(pc := 17, stack := Push(Bottom, elems[i]), elemReads := s.elemReads + 1);
    StepArrayLoad(code, env, s, Bottom, elems, i);
    StepThen(code, env, s, s1, f);
    StepStore(code, env, s1, Local(varName), Bottom, elems[i]);
    StepThen(code, env, s1, s1.(pc := 18, stack := Bottom, locals := s.locals[Local(varName) := elems[i]]), f - 1);
  }

  /** Increment, body, and back to the head. */
  lemma ArrayAdvance(code: seq<Instr>, n: nat, env: Env, s: State, i: nat, f: nat)
    requires |code| == 22 && code[18] == IINC(Temp(IdxName), 1) && code[19] == LoopBody
    requires code[20] == GOTO(Continue(n)) && FindLabelFrom(code, Continue(n), 0) == Some(10)
    requires s.pc == 18 && f >= 3 && i + 1 <= MaxInt
    requires env.loopVar.Local? && env.loopVar in s.locals
    requires Temp(IdxName) in s.locals && s.locals[Temp(IdxName)] == IntV(i)
    ensures Run(code, env, s, f) ==
            Run(code, env, s.(pc := 10, locals := s.locals[Temp(IdxName) := IntV(i + 1)],
                              seen := s.seen + [s.locals[env.loopVar]]), f - 3)
  {
    var s1 := s.(pc := 19, locals := s.locals[Temp(IdxName) := IntV(i + 1)]);
    var s2 := s1.(pc := 20, seen := s.seen + [s1.locals[env.loopVar]]);
    StepIncrement(code, env, s, Temp(IdxName), i);
    StepThen(code, env, s, s1, f);
    StepLoopBody(code, env, s1);
    StepThen(code, env, s1, s2, f - 1);
    StepGoto(code, env, s2, Continue(n), 10);
    StepThen(code, env, s2, s2.(pc := 10), f - 2);
  }

  /** The head's test and the reloading of array and index, for an element still to come. */
  lemma ArrayHeadToLoad(code: seq<Instr>, env: Env, s: State, elems: seq<Val>, i: nat, f: nat)
    requires |code| == 22 && code[10].Place? && code[11] == ILOAD(Temp(IdxName)) && code[12] == ILOAD(Temp(LenName))
    requires code[13].IF_ICMPGE? && code[14] == ALOAD(Temp(ArrName)) && code[15] == ILOAD(Temp(IdxName))
    requires AtArrayHead(env, s, elems, i) && i < |elems| && f >= 6
    ensures Run(code, env, s, f) == Run(code, env, s.(pc := 16, stack := Push(Push(Bottom, ArrRef(elems)), IntV(i))), f - 6)
  {
    ArrayHeadLoads(code, env, s, elems, i, f);
    ArrayLoadOperands(code, env, s.(pc := 13, stack := Push(Push(Bottom, IntV(i)), IntV(|elems|))), elems, i, f - 3);
  }

  /** The load of element `i` into the loop variable, the body, and the jump back. */
  lemma ArrayElementToHead(code: seq<Instr>, varName: string, n: nat, env: Env, s: State, elems: seq<Val>, i: nat, f: nat)
    requires |code| == 22 && code[16].ArrayLoad? && code[17] == Store(Local(varName))
    requires code[18] == IINC(Temp(IdxName), 1) && code[19] == LoopBody
    requires code[20] == GOTO(Continue(n)) && FindLabelFrom(code, Continue(n), 0) == Some(10)
    requires s.pc == 16 && s.stack == Push(Push(Bottom, ArrRef(elems)), IntV(i)) && i < |elems| && |elems| <= MaxInt && f >= 5
    requires env.loopVar == Local(varName)
    requires Temp(IdxName) in s.locals && s.locals[Temp(IdxName)] == IntV(i)
    ensures Run(code, env, s, f) ==
            Run(code, env, s.(pc := 10, stack := Bottom, locals := s.locals[Local(varName) := elems[i]][Temp(IdxName) := IntV(i + 1)],
                              seen := s.seen + [elems[i]], elemReads := s.elemReads + 1), f - 5)
  {
    ArrayTempsDistinct();
    ArrayLoadElement(code, varName, env, s, elems, i, f);
    var s8 := s.(pc := 18, stack := Bottom, locals := s.locals[Local(varName) := elems[i]], elemReads := s.elemReads + 1);
    ArrayAdvance(code, n, env, s8, i, f - 2);
  }

  /** One whole iteration: from the head with `i < |elems|` back to the head with `i + 1`. */
  lemma ArrayIteration(code: seq<Instr>, varName: string, op: ArrayLoadOp, n: nat, env: Env, s: State, elems: seq<Val>, i: nat, f: nat)
    requires |code| == 22 && code[10].Place? && code[11] == ILOAD(Temp(IdxName)) && code[12] == ILOAD(Temp(LenName))
    requires code[13].IF_ICMPGE? && code[14] == ALOAD(Temp(ArrName)) && code[15] == ILOAD(Temp(IdxName))
    requires code[16].ArrayLoad? && code[17] == Store(Local(varName))
    requires code[18] == IINC(Temp(IdxName), 1) && code[19] == LoopBody && code[20] == GOTO(Continue(n))
    requires FindLabelFrom(code, Continue(n), 0) == Some(10)
    requires |elems| <= MaxInt && i < |elems| && f >= ArrayIterationSteps
    requires env.loopVar == Local(varName) && AtArrayHead(env, s, elems, i)
    ensures Run(code, env, s, f) ==
            Run(code, env, s.(locals := s.locals[Local(varName) := elems[i]][Temp(IdxName) := IntV(i + 1)],
                              seen := s.seen + [elems[i]], elemReads := s.elemReads + 1),
                f - ArrayIterationSteps)
  {
    ArrayTempsDistinct();
    var s16 := s.(pc := 16, stack := Push(Push(Bottom, ArrRef(elems)), IntV(i)));
    ArrayHeadToLoad(code, env, s, elems, i, f);
    ArrayElementToHead(code, varName, n, env, s16, elems, i, f - 6);
    assert s16.(pc := 10, stack := Bottom, locals := s16.locals[Local(varName) := elems[i]][Temp(IdxName) := IntV(i + 1)],
                seen := s16.seen + [elems[i]], elemReads := s16.elemReads + 1)
        == s.(locals := s.locals[Local(varName) := elems[i]][Temp(IdxName) := IntV(i + 1)],
              seen := s.seen + [elems[i]], elemReads := s.elemReads + 1);
  }

  /** With every element done, the head's test leaves the loop. */
  lemma ArrayLoopEnds(code: seq<Instr>, n: nat, env: Env, s: State, elems: seq<Val>, f: nat)
    requires |code| == 22 && code[10].Place? && code[11] == ILOAD(Temp(IdxName)) && code[12] == ILOAD(Temp(LenName))
    requires code[13] == IF_ICMPGE(Break(n)) && code[21].Place? && FindLabelFrom(code, Break(n), 0) == Some(21)
    requires AtArrayHead(env, s, elems, |elems|) && f >= ArrayExitSteps
    ensures Run(code, env, s, f) == Halted(s.(pc := 22))
  {
    ArrayHeadLoads(code, env, s, elems, |elems|, f);
    ArrayExit(code, n, env, s.(pc := 13, stack := Push(Push(Bottom, IntV(|elems|)), IntV(|elems|))), |elems|, f - 3);
  }

  /** What one more element at the front adds to the run's totals. */
  lemma ArrayLoopStep(o: Outcome, s: State, s': State, elems: seq<Val>, i: nat)
    requires i < |elems|
    requires s'.seen == s.seen + [elems[i]] && s'.stack == s.stack && s'.evals == s.evals
    requires s'.lengthReads == s.lengthReads && s'.elemReads == s.elemReads + 1
    requires o.Halted? && o.final.seen == s'.seen + elems[i + 1..] && o.final.stack == Bottom && o.final.evals == s'.evals
    requires o.final.lengthReads == s'.lengthReads && o.final.elemReads == s'.elemReads + (|elems| - (i + 1))
    ensures o.final.seen == s.seen + elems[i..] && o.final.evals == s.evals
    ensures o.final.lengthReads == s.lengthReads && o.final.elemReads == s.elemReads + (|elems| - i)
  {
    assert elems[i..] == [elems[i]] + elems[i + 1..];
  }

  lemma {:induction false} ArrayLoopFrom(code: seq<Instr>, varName: string, op: ArrayLoadOp, n: nat, elems: seq<Val>, s: State, i: nat, f: nat)
    requires |code| == 22 && code[10].Place? && code[11] == ILOAD(Temp(IdxName)) && code[12] == ILOAD(Temp(LenName))
    requires code[13] == IF_ICMPGE(Break(n)) && code[14] == ALOAD(Temp(ArrName)) && code[15] == ILOAD(Temp(IdxName))
    requires code[16] == ArrayLoad(op) && code[17] == Store(Local(varName))
    requires code[18] == IINC(Temp(IdxName), 1) && code[19] == LoopBody && code[20] == GOTO(Continue(n))
    requires code[21].Place? && FindLabelFrom(code, Continue(n), 0) == Some(10) && FindLabelFrom(code, Break(n), 0) == Some(21)
    requires |elems| <= MaxInt && i <= |elems|
    requires AtArrayHead(Env(ArrRef(elems), Local(varName)), s, elems, i)
    requires f == ArrayIterationSteps * (|elems| - i) + ArrayExitSteps
    ensures
      var o := Run(code, Env(ArrRef(elems), Local(varName)), s, f);
      && o.Halted?
      && o.final.seen == s.seen + elems[i..]
      && o.final.stack == Bottom
      && o.final.evals == s.evals
      && o.final.lengthReads == s.lengthReads
      && o.final.elemReads == s.elemReads + (|elems| - i)
    decreases |elems| - i
  {
    ArrayTempsDistinct();
    var env := Env(ArrRef(elems), Local(varName));
    if i == |elems| {
      ArrayLoopEnds(code, n, env, s, elems, f);
    } else {
      ArrayIteration(code, varName, op, n, env, s, elems, i, f);
      var s' := s.(locals := s.locals[Local(varName) := elems[i]][Temp(IdxName) := IntV(i + 1)],
                   seen := s.seen + [elems[i]], elemReads := s.elemReads + 1);
      assert AtArrayHead(env, s', elems, i + 1);
      ArrayLoopFrom(code, varName, op, n, elems, s', i + 1, f - ArrayIterationSteps);
      ArrayLoopStep(Run(code, env, s', f - ArrayIterationSteps), s, s', elems, i);
    }
  }

  // ---------------------------------------------------------------------------
  // The set-up before the loop head.

  /** The loop variable is declared and the collection evaluated, once. */
  lemma ArrayDeclareEval(code: seq<Instr>, varName: string, env: Env, f: nat)
    requires |code| == 22 && code[0] == DefineVar(Local(varName)) && code[1] == EvalCollection && f >= 2
    ensures Run(code, env, Start([]), f) ==
            Run(code, env, Start([]).(pc := 2, stack := Push(Bottom, env.collection), locals := map[Local(varName) := Default], evals := 1), f - 2)
  {
    var s0 := Start([]);
    var s1 := s0.(pc := 1, locals := map[Local(varName) := Default]);
    StepDefineVar(code, env, s0, Local(varName));
    StepThen(code, env, s0, s1, f);
    StepEvalCollection(code, env, s1);
    StepThen(code, env, s1, s1.(pc := 2, stack := Push(Bottom, env.collection), evals := 1), f - 1);
  }

  /** The reference is duplicated and one copy stored as `$arr`; the other is left for the
      null test. */
  lemma ArrayDupStore(code: seq<Instr>, env: Env, s: State, v: Val, f: nat)
    requires |code| == 22 && code[2] == DUP && code[3] == Store(Temp(ArrName))
    requires s.pc == 2 && s.stack == Push(Bottom, v) && f >= 2
    ensures Run(code, env, s, f) ==
            Run(code, env, s.(pc := 4, locals := s.locals[Temp(ArrName) := v]), f - 2)
  {
    var s1 := s.(pc := 3, stack := Push(Push(Bottom, v), v));
    StepDup(code, env, s, Bottom, v);
    StepThen(code, env, s, s1, f);
    StepStore(code, env, s1, Temp(ArrName), Push(Bottom, v), v);
    StepThen(code, env, s1, s.(pc := 4, locals := s.locals[Temp(ArrName) := v]), f - 1);
  }

  /** The prologue up to the null test. */
  lemma ArrayStoreRef(code: seq<Instr>, varName: string, n: nat, env: Env, f: nat)
    requires ArrayPrologueShape(code, varName, n) && f >= 4
    ensures Run(code, env, Start([]), f) ==
            Run(code, env,
                Start([]).(pc := 4, stack := Push(Bottom, env.collection),
                           locals := map[Local(varName) := Default, Temp(ArrName) := env.collection], evals := 1),
                f - 4)
  {
    ArrayDeclareEval(code, varName, env, f);
    var s2 := Start([]).(pc := 2, stack := Push(Bottom, env.collection), locals := map[Local(varName) := Default], evals := 1);
    ArrayDupStore(code, env, s2, env.collection, f - 2);
  }

  /** A non-null reference passes the null test. */
  lemma ArrayNullTestPasses(code: seq<Instr>, env: Env, s: State, v: Val, f: nat)
    requires |code| == 22 && code[4].IFNULL?
    requires s.pc == 4 && s.stack == Push(Bottom, v) && v != Null && f >= 1
    ensures Run(code, env, s, f) == Run(code, env, s.(pc := 5, stack := Bottom), f - 1)
  {
    StepIfNullFalls(code, env, s, Bottom, v);
    StepThen(code, env, s, s.(pc := 5, stack := Bottom), f);
  }

  /** A null reference jumps to the break label, which ends the code. */
  lemma ArrayNullTestJumps(code: seq<Instr>, n: nat, env: Env, s: State, f: nat)
    requires |code| == 22 && code[4] == IFNULL(Break(n)) && code[21].Place?
    requires FindLabelFrom(code, Break(n), 0) == Some(21)
    requires s.pc == 4 && s.stack == Push(Bottom, Null) && f >= 2
    ensures Run(code, env, s, f) == Halted(s.(pc := 22, stack := Bottom))
  {
    var s1 := s.(pc := 21, stack := Bottom);
    StepIfNullJumps(code, env, s, Bottom, Break(n), 21);
    StepThen(code, env, s, s1, f);
    StepPlace(code, env, s1);
    StepThen(code, env, s1, s1.(pc := 22), f - 1);
  }

  /** `$len` is read once from the array. */
  lemma ArrayLength(code: seq<Instr>, env: Env, s: State, elems: seq<Val>, f: nat)
    requires |code| == 22 && code[5] == ALOAD(Temp(ArrName)) && code[6] == ARRAYLENGTH && code[7] == Store(Temp(LenName))
    requires s.pc == 5 && s.stack == Bottom && f >= 3
    requires Temp(ArrName) in s.locals && s.locals[Temp(ArrName)] == ArrRef(elems)
    ensures Run(code, env, s, f) ==
            Run(code, env, s.(pc := 8, locals := s.locals[Temp(LenName) := IntV(|elems|)],
                              lengthReads := s.lengthReads + 1), f - 3)
  {
    var s1 := s.(pc := 6, stack := Push(Bottom, ArrRef(elems)));
    var s2 := s1.(pc := 7, stack := Push(Bottom, IntV(|elems|)), lengthReads := s.lengthReads + 1);
    StepLoadRef(code, env, s, Temp(ArrName));
    StepThen(code, env, s, s1, f);
    StepArrayLength(code, env, s1, Bottom, elems);
    StepThen(code, env, s1, s2, f - 1);
    StepStore(code, env, s2, Temp(LenName), Bottom, IntV(|elems|));
    StepThen(code, env, s2, s2.(pc := 8, stack := Bottom, locals := s.locals[Temp(LenName) := IntV(|elems|)]), f - 2);
  }

  /** `$idx` starts at 0. */
  lemma ArrayIndexStart(code: seq<Instr>, env: Env, s: State, f: nat)
    requires |code| == 22 && code[8] == ICONST_0 && code[9] == Store(Temp(IdxName))
    requires s.pc == 8 && s.stack == Bottom && f >= 2
    ensures Run(code, env, s, f) == Run(code, env, s.(pc := 10, locals := s.locals[Temp(IdxName) := IntV(0)]), f - 2)
  {
    var s1 := s.(pc := 9, stack := Push(Bottom, IntV(0)));
    StepConstZero(code, env, s);
    StepThen(code, env, s, s1, f);
    StepStore(code, env, s1, Temp(IdxName), Bottom, IntV(0));
    StepThen(code, env, s1, s1.(pc := 10, stack := Bottom, locals := s.locals[Temp(IdxName) := IntV(0)]), f - 1);
  }

  /** Past the null test: `$len` and `$idx` are set and the loop head is reached. */
  lemma ArrayCounters(code: seq<Instr>, n: nat, env: Env, s: State, elems: seq<Val>, f: nat)
    requires ArrayCountersShape(code, n)
    requires s.pc == 5 && s.stack == Bottom && f >= 5
    requires Temp(ArrName) in s.locals && s.locals[Temp(ArrName)] == ArrRef(elems)
    ensures Run(code, env, s, f) ==
            Run(code, env, s.(pc := 10, locals := s.locals[Temp(LenName) := IntV(|elems|)][Temp(IdxName) := IntV(0)],
                              lengthReads := s.lengthReads + 1), f - 5)
  {
    ArrayTempsDistinct();
    ArrayLength(code, env, s, elems, f);
    ArrayIndexStart(code, env, s.(pc := 8, locals := s.locals[Temp(LenName) := IntV(|elems|)],
                                  lengthReads := s.lengthReads + 1), f - 3);
  }

  /** From the start to just past the null test, over a non-null array. */
  lemma ArrayPrologue(code: seq<Instr>, varName: string, n: nat, env: Env, f: nat)
    requires ArrayPrologueShape(code, varName, n) && env.collection != Null && f >= 5
    ensures Run(code, env, Start([]), f) ==
            Run(code, env,
                Start([]).(pc := 5, locals := map[Local(varName) := Default, Temp(ArrName) := env.collection], evals := 1),
                f - 5)
  {
    ArrayStoreRef(code, varName, n, env, f);
    var s4 := Start([]).(pc := 4, stack := Push(Bottom, env.collection),
                         locals := map[Local(varName) := Default, Temp(ArrName) := env.collection], evals := 1);
    ArrayNullTestPasses(code, env, s4, env.collection, f - 4);
  }

  /** From the start to the loop head, over a non-null array. */
  lemma ArraySetup(code: seq<Instr>, varName: string, n: nat, elems: seq<Val>, f: nat)
    requires ArrayPrologueShape(code, varName, n) && ArrayCountersShape(code, n) && f >= 10
    ensures
      var env := Env(ArrRef(elems), Local(varName));
      Run(code, env, Start([]), f) ==
      Run(code, env, ArrayHeadState(varName, elems), f - 10)
  {
    ArrayTempsDistinct();
    var env := Env(ArrRef(elems), Local(varName));
    ArrayPrologue(code, varName, n, env, f);
    var s5 := Start([]).(pc := 5, locals := map[Local(varName) := Default, Temp(ArrName) := ArrRef(elems)], evals := 1);
    ArrayCounters(code, n, env, s5, elems, f - 5);
    assert s5.(pc := 10, locals := s5.locals[Temp(LenName) := IntV(|elems|)][Temp(IdxName) := IntV(0)],
               lengthReads := s5.lengthReads + 1)
        == ArrayHeadState(varName, elems);
  }

  // ---------------------------------------------------------------------------
  // The two theorems.

  /**
    Running the array listing over a non-null array evaluates the collection once, reads
    the length once, reads each element once, runs the body once per element with the loop
    variable bound to that element, in order, and leaves the operand stack empty.
  */
  lemma ArrayLoopRunsBodyPerElement(varName: string, varType: JType, n: nat, elems: seq<Val>)
    requires ArrayLoadOpcode(varType).Some?
    requires |elems| <= MaxInt
    ensures
      var o := Run(ArrayLoopListing(varName, varType, n), Env(ArrRef(elems), Local(varName)), Start([]),
                   ArrayFuel(|elems|));
      && o.Halted?
      && o.final.seen == elems
      && o.final.stack == Bottom
      && o.final.evals == 1
      && o.final.lengthReads == 1
      && o.final.elemReads == |elems|
  {
    ArrayListingShapes(varName, varType, n);
    ArrayCodeRuns(ArrayLoopListing(varName, varType, n), varName, ArrayLoadOpcode(varType).value, n, elems, ArrayFuel(|elems|));
  }

  /** The same, for any code of the listing's shape. */
  lemma ArrayCodeRuns(code: seq<Instr>, varName: string, op: ArrayLoadOp, n: nat, elems: seq<Val>, f: nat)
    requires ArrayPrologueShape(code, varName, n) && ArrayCountersShape(code, n) && ArrayLoopShape(code, varName, op, n)
    requires FindLabelFrom(code, Continue(n), 0) == Some(10) && FindLabelFrom(code, Break(n), 0) == Some(21)
    requires |elems| <= MaxInt && f == ArrayFuel(|elems|)
    ensures
      var o := Run(code, Env(ArrRef(elems), Local(varName)), Start([]), f);
      && o.Halted?
      && o.final.seen == elems
      && o.final.stack == Bottom
      && o.final.evals == 1
      && o.final.lengthReads == 1
      && o.final.elemReads == |elems|
  {
    ArraySetup(code, varName, n, elems, f);
    ArrayHeadStateAtHead(varName, elems);
    ArrayLoopFrom(code, varName, op, n, elems, ArrayHeadState(varName, elems), 0, f - 10);
    assert elems[0..] == elems;
  }

  /** Over a null array the loop leaves at the null test: the body never runs and the
      length is never read. */
  lemma NullArrayRunsBodyNever(varName: string, varType: JType, n: nat)
    requires ArrayLoadOpcode(varType).Some?
    ensures
      var o := Run(ArrayLoopListing(varName, varType, n), Env(Null, Local(varName)), Start([]), ArrayFuel(0));
      && o.Halted?
      && o.final.seen == []
      && o.final.stack == Bottom
      && o.final.evals == 1
      && o.final.lengthReads == 0
      && o.final.elemReads == 0
  {
    var code := ArrayLoopListing(varName, varType, n);
    ArrayListingShapes(varName, varType, n);
    var env := Env(Null, Local(varName));
    var f := ArrayFuel(0);
    ArrayStoreRef(code, varName, n, env, f);
    var s4 := Start([]).(pc := 4, stack := Push(Bottom, Null), locals := map[Local(varName) := Default, Temp(ArrName) := Null], evals := 1);
    ArrayNullTestJumps(code, n, env, s4, f - 4);
  }

}
