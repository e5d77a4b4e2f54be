/**
  What the enumeration listing does when run: `hasMoreElements` is asked once per element
  and once more at the end, each element is fetched once and bound to the loop variable,
  and the body runs once per element, in order.
*/
module EnumRuns {

  import opened Wrappers
  import opened Bytecode
  import opened ForEach
  import opened Listings
  import opened Machine

  /** Instructions run from the loop head for one more element, and for the exit test. */
  const EnumIterationSteps: nat := 9
  const EnumExitSteps: nat := 5

  /** Enough steps for an enumeration of `len` elements: the three set-up instructions, then the loop. */
  function EnumFuel(len: nat): nat {
    3 + EnumIterationSteps * len + EnumExitSteps
  }

  /** The loop head of the enumeration listing: `s.taken` elements handed out so far. */
  predicate AtEnumHead(s: State) {
    && s.pc == 3
    && s.stack == Bottom
    && Temp(EnumName) in s.locals && s.locals[Temp(EnumName)] == EnumRef
    && s.taken <= |s.elements|
  }

  /** Each of the listing's two labels is placed exactly where the jumps expect it. */
  lemma EnumListingLabels(code: seq<Instr>, varName: string, n: nat)
    requires EnumSetupShape(code, varName) && EnumLoopShape(code, varName, n)
    ensures FindLabelFrom(code, Continue(n), 0) == Some(3)
    ensures FindLabelFrom(code, Break(n), 0) == Some(12)
  {
    FindLabelFromAt(code, Continue(n), 0, 3);
    FindLabelFromAt(code, Break(n), 0, 12);
  }

  // ---------------------------------------------------------------------------
  // A few instructions at a time.

  /** The loop variable is declared, the collection evaluated once and kept as `$enum`. */
  lemma EnumSetup(code: seq<Instr>, varName: string, elems: seq<Val>, f: nat)
    requires EnumSetupShape(code, varName) && f >= 3
    ensures
      var env := Env(EnumRef, Local(varName));
      Run(code, env, Start(elems), f) ==
      Run(code, env, Start(elems).(pc := 3, locals := map[Local(varName) := Default, Temp(EnumName) := EnumRef], evals := 1), f - 3)
  {
    var env := Env(EnumRef, Local(varName));
    var s0 := Start(elems);
    var s1 := s0.(pc := 1, locals := map[Local(varName) := Default]);
    var s2 := s1.(pc := 2, stack := Push(Bottom, EnumRef), evals := 1);
    StepDefineVar(code, env, s0, Local(varName));
    StepThen(code, env, s0, s1, f);
    StepEvalCollection(code, env, s1);
    StepThen(code, env, s1, s2, f - 1);
    StepStore(code, env, s2, Temp(EnumName), Bottom, EnumRef);
    StepThen(code, env, s2, s2.(pc := 3, stack := Bottom, locals := s1.locals[Temp(EnumName) := EnumRef]), f - 2);
  }

  /** Passing the head and asking `hasMoreElements`: 1 while elements remain, 0 after. */
  lemma EnumHeadTest(code: seq<Instr>, env: Env, s: State, f: nat)
    requires |code| == 13 && code[3].Place? && code[4] == ALOAD(Temp(EnumName)) && code[5] == HasMoreElements
    requires AtEnumHead(s) && f >= 3
    ensures Run(code, env, s, f) ==
            Run(code, env, s.(pc := 6, stack := Push(Bottom, IntV(if s.taken < |s.elements| then 1 else 0)),
                              hasMoreCalls := s.hasMoreCalls + 1), f - 3)
  {
    var s1 := s.(pc := 4);
    var s2 := s1.(pc := 5, stack := Push(Bottom, EnumRef));
    StepPlace(code, env, s);
    StepThen(code, env, s, s1, f);
    StepLoadRef(code, env, s1, Temp(EnumName));
    StepThen(code, env, s1, s2, f - 1);
    StepHasMore(code, env, s2, Bottom);
    StepThen(code, env, s2, s.(pc := 6, stack := Push(Bottom, IntV(if s.taken < |s.elements| then 1 else 0)),
                               hasMoreCalls := s.hasMoreCalls + 1), f - 2);
  }

  /** A false answer jumps to the break label, which ends the code. */
  lemma EnumExit(code: seq<Instr>, n: nat, env: Env, s: State, f: nat)
    requires |code| == 13 && code[6] == IFEQ(Break(n)) && code[12].Place?
    requires FindLabelFrom(code, Break(n), 0) == Some(12)
    requires s.pc == 6 && s.stack == Push(Bottom, IntV(0)) && f >= 2
    ensures Run(code, env, s, f) == Halted(s.(pc := 13, stack := Bottom))
  {
    var s1 := s.(pc := 12, stack := Bottom);
    StepIfZeroJumps(code, env, s, Bottom, Break(n), 12);
    StepThen(code, env, s, s1, f);
    StepPlace(code, env, s1);
    StepThen(code, env, s1, s1.(pc := 13), f - 1);
  }

  /** A true answer falls through to reloading `$enum`. */
  lemma EnumTestPasses(code: seq<Instr>, env: Env, s: State, f: nat)
    requires |code| == 13 && code[6].IFEQ? && code[7] == ALOAD(Temp(EnumName))
    requires s.pc == 6 && s.stack == Push(Bottom, IntV(1)) && f >= 2
    requires Temp(EnumName) in s.locals && s.locals[Temp(EnumName)] == EnumRef
    ensures Run(code, env, s, f) == Run(code, env, s.(pc := 8, stack := Push(Bottom, EnumRef)), f - 2)
  {
    var s1 := s.(pc := 7, stack := Bottom);
    StepIfZeroFalls(code, env, s, Bottom, 1);
    StepThen(code, env, s, s1, f);
    StepLoadRef(code, env, s1, Temp(EnumName));
    StepThen(code, env, s1, s.(pc := 8, stack := Push(Bottom, EnumRef)), f - 1);
  }

  /** `nextElement` hands out the next element, which is stored into the loop variable;
      the body runs, and control goes back to the head. */
  lemma EnumNextBind(code: seq<Instr>, varName: string, n: nat, s: State, f: nat)
    requires |code| == 13 && code[8] == NextElement && code[9] == Store(Local(varName)) && code[10] == LoopBody
    requires code[11] == GOTO(Continue(n)) && FindLabelFrom(code, Continue(n), 0) == Some(3)
    requires s.pc == 8 && s.stack == Push(Bottom, EnumRef) && s.taken < |s.elements| && f >= 4
    ensures Run(code, Env(EnumRef, Local(varName)), s, f) ==
            Run(code, Env(EnumRef, Local(varName)),
                s.(pc := 3, stack := Bottom, locals := s.locals[Local(varName) := s.elements[s.taken]],
                   taken := s.taken + 1, seen := s.seen + [s.elements[s.taken]]),
                f - 4)
  {
    var env := Env(EnumRef, Local(varName));
    var v := s.elements[s.taken];
    var s1 := s.(pc := 9, stack := Push(Bottom, v), taken := s.taken + 1);
    var s2 := s1.(pc := 10, stack := Bottom, locals := s.locals[Local(varName) := v]);
    var s3 := s2.(pc := 11, seen := s.seen + [v]);
    StepNextElement(code, env, s, Bottom);
    StepThen(code, env, s, s1, f);
    StepStore(code, env, s1, Local(varName), Bottom, v);
    StepThen(code, env, s1, s2, f - 1);
    StepLoopBody(code, env, s2);
    StepThen(code, env, s2, s3, f - 2);
    StepGoto(code, env, s3, Continue(n), 3);
    StepThen(code, env, s3, s3.(pc := 3), f - 3);
  }

  /** From the head to the reload of `$enum`, while elements remain. */
  lemma EnumHeadToFetch(code: seq<Instr>, env: Env, s: State, f: nat)
    requires |code| == 13 && code[3].Place? && code[4] == ALOAD(Temp(EnumName)) && code[5] == HasMoreElements
    requires code[6].IFEQ? && code[7] == ALOAD(Temp(EnumName))
    requires AtEnumHead(s) && s.taken < |s.elements| && f >= 5
    ensures Run(code, env, s, f) ==
            Run(code, env, s.(pc := 8, stack := Push(Bottom, EnumRef), hasMoreCalls := s.hasMoreCalls + 1), f - 5)
  {
    EnumHeadTest(code, env, s, f);
    EnumTestPasses(code, env, s.(pc := 6, stack := Push(Bottom, IntV(1)), hasMoreCalls := s.hasMoreCalls + 1), f - 3);
  }

  /** One whole iteration: from the head with elements remaining back to the head. */
  lemma EnumIteration(code: seq<Instr>, varName: string, n: nat, s: State, f: nat)
    requires |code| == 13 && code[3].Place? && code[4] == ALOAD(Temp(EnumName)) && code[5] == HasMoreElements
    requires code[6].IFEQ? && code[7] == ALOAD(Temp(EnumName))
    requires code[8] == NextElement && code[9] == Store(Local(varName)) && code[10] == LoopBody
    requires code[11] == GOTO(Continue(n)) && FindLabelFrom(code, Continue(n), 0) == Some(3)
    requires AtEnumHead(s) && s.taken < |s.elements| && f >= EnumIterationSteps
    ensures Run(code, Env(EnumRef, Local(varName)), s, f) ==
            Run(code, Env(EnumRef, Local(varName)),
                s.(locals := s.locals[Local(varName) := s.elements[s.taken]], taken := s.taken + 1,
                   seen := s.seen + [s.elements[s.taken]], hasMoreCalls := s.hasMoreCalls + 1),
                f - EnumIterationSteps)
  {
    var env := Env(EnumRef, Local(varName));
    EnumHeadToFetch(code, env, s, f);
    var s8 := s.(pc := 8, stack := Push(Bottom, EnumRef), hasMoreCalls := s.hasMoreCalls + 1);
    EnumNextBind(code, varName, n, s8, f - 5);
    assert s8.(pc := 3, stack := Bottom, locals := s8.locals[Local(varName) := s8.elements[s8.taken]],
               taken := s8.taken + 1, seen := s8.seen + [s8.elements[s8.taken]])
        == s.(locals := s.locals[Local(varName) := s.elements[s.taken]], taken := s.taken + 1,
              seen := s.seen + [s.elements[s.taken]], hasMoreCalls := s.hasMoreCalls + 1);
  }

  /** With every element handed out, the head's test leaves the loop. */
  lemma EnumLoopEnds(code: seq<Instr>, n: nat, env: Env, s: State, f: nat)
    requires |code| == 13 && code[3].Place? && code[4] == ALOAD(Temp(EnumName)) && code[5] == HasMoreElements
    requires code[6] == IFEQ(Break(n)) && code[12].Place? && FindLabelFrom(code, Break(n), 0) == Some(12)
    requires AtEnumHead(s) && s.taken == |s.elements| && f >= EnumExitSteps
    ensures Run(code, env, s, f) == Halted(s.(pc := 13, hasMoreCalls := s.hasMoreCalls + 1))
  {
    EnumHeadTest(code, env, s, f);
    EnumExit(code, n, env, s.(pc := 6, stack := Push(Bottom, IntV(0)), hasMoreCalls := s.hasMoreCalls + 1), f - 3);
  }

  /** What one more element handed out at the front adds to the run's totals. */
  lemma EnumLoopStep(o: Outcome, s: State, s': State)
    requires s.taken < |s.elements| && s'.elements == s.elements && s'.taken == s.taken + 1
    requires s'.seen == s.seen + [s.elements[s.taken]] && s'.evals == s.evals && s'.hasMoreCalls == s.hasMoreCalls + 1
    requires o.Halted? && o.final.seen == s'.seen + s'.elements[s'.taken..] && o.final.evals == s'.evals
    requires o.final.hasMoreCalls == s'.hasMoreCalls + (|s'.elements| - s'.taken) + 1
    ensures o.final.seen == s.seen + s.elements[s.taken..] && o.final.evals == s.evals
    ensures o.final.hasMoreCalls == s.hasMoreCalls + (|s.elements| - s.taken) + 1
  {
    assert s.elements[s.taken..] == [s.elements[s.taken]] + s.elements[s.taken + 1..];
  }

  lemma {:induction false} EnumLoopFrom(code: seq<Instr>, varName: string, n: nat, s: State, f: nat)
    requires |code| == 13 && code[3].Place? && code[4] == ALOAD(Temp(EnumName)) && code[5] == HasMoreElements
    requires code[6] == IFEQ(Break(n)) && code[7] == ALOAD(Temp(EnumName))
    requires code[8] == NextElement && code[9] == Store(Local(varName)) && code[10] == LoopBody
    requires code[11] == GOTO(Continue(n)) && code[12].Place?
    requires FindLabelFrom(code, Continue(n), 0) == Some(3) && FindLabelFrom(code, Break(n), 0) == Some(12)
    requires AtEnumHead(s) && f == EnumIterationSteps * (|s.elements| - s.taken) + EnumExitSteps
    ensures
      var o := Run(code, Env(EnumRef, Local(varName)), s, f);
      && o.Halted?
      && o.final.seen == s.seen + s.elements[s.taken..]
      && o.final.taken == |s.elements|
      && o.final.stack == Bottom
      && o.final.evals == s.evals
      && o.final.hasMoreCalls == s.hasMoreCalls + (|s.elements| - s.taken) + 1
    decreases |s.elements| - s.taken
  {
    var env := Env(EnumRef, Local(varName));
    if s.taken == |s.elements| {
      EnumLoopEnds(code, n, env, s, f);
    } else {
      EnumIteration(code, varName, n, s, f);
      var s' := s.(locals := s.locals[Local(varName) := s.elements[s.taken]], taken := s.taken + 1,
                   seen := s.seen + [s.elements[s.taken]], hasMoreCalls := s.hasMoreCalls + 1);
      EnumLoopFrom(code, varName, n, s', f - EnumIterationSteps);
      EnumLoopStep(Run(code, env, s', f - EnumIterationSteps), s, s');
    }
  }

  // ---------------------------------------------------------------------------
  // The theorem.

  /**
    Running the enumeration listing over an enumeration of `elems` evaluates the collection
    once, asks `hasMoreElements` `|elems| + 1` times, hands out every element, runs the body
    once per element with the loop variable bound to that element, in order, and leaves the
    operand stack empty.
  */
  lemma EnumerationLoopRunsBodyPerElement(varName: string, n: nat, elems: seq<Val>)
    ensures
      var o := Run(EnumerationLoopListing(varName, n), Env(EnumRef, Local(varName)), Start(elems),
                   EnumFuel(|elems|));
      && o.Halted?
      && o.final.seen == elems
      && o.final.taken == |elems|
      && o.final.stack == Bottom
      && o.final.evals == 1
      && o.final.hasMoreCalls == |elems| + 1
  {
    var code := EnumerationLoopListing(varName, n);
    EnumListingSetup(varName, n);
    EnumListingLoop(varName, n);
    EnumListingLabels(code, varName, n);
    EnumCodeRuns(code, varName, n, elems, EnumFuel(|elems|));
  }

  /** The same, for any code of the listing's shape. */
  lemma EnumCodeRuns(code: seq<Instr>, varName: string, n: nat, elems: seq<Val>, f: nat)
    requires EnumSetupShape(code, varName) && EnumLoopShape(code, varName, n)
    requires FindLabelFrom(code, Continue(n), 0) == Some(3) && FindLabelFrom(code, Break(n), 0) == Some(12)
    requires f == EnumFuel(|elems|)
    ensures
      var o := Run(code, Env(EnumRef, Local(varName)), Start(elems), f);
      && o.Halted?
      && o.final.seen == elems
      && o.final.taken == |elems|
      && o.final.stack == Bottom
      && o.final.evals == 1
      && o.final.hasMoreCalls == |elems| + 1
  {
    EnumSetup(code, varName, elems, f);
    var s3 := Start(elems).(pc := 3, locals := map[Local(varName) := Default, Temp(EnumName) := EnumRef], evals := 1);
    EnumLoopFrom(code, varName, n, s3, f - 3);
    assert elems[0..] == elems;
  }

}
