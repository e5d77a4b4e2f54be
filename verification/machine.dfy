/**
  A small interpreter for the instructions the for-each lowering emits, enough to run the
  indexed-array and enumeration listings. It counts the observable work a loop does:
  evaluations of the collection expression, array-length reads, element reads and
  `hasMoreElements` calls, and records the loop variable's value each time the body runs.
*/
module Machine {

  import opened Wrappers
  import opened JavaTypes
  import opened Bytecode
  import opened ArrayLoad
  import opened ForEach

  const MinInt: int := -0x8000_0000
  const MaxInt: int := 0x7fff_ffff

  /** Two's-complement 32-bit wrap-around, as `IINC` computes. */
  function Wrap32(x: int): (r: int)
    ensures MinInt <= r <= MaxInt
    ensures MinInt <= x <= MaxInt ==> r == x
  {
    (x - MinInt) % 0x1_0000_0000 + MinInt
  }

  /** Runtime values: an uninitialised default, null, 32-bit ints (booleans are 0 and 1),
      arrays, the one enumeration a loop walks, and any other object. */
  datatype Val = Default | Null | IntV(i: int) | ArrRef(elems: seq<Val>) | EnumRef | Obj(id: int)

  /** The operand stack, built from the bottom up. */
  datatype OpStack = Bottom | Push(below: OpStack, top: Val)

  /** What the collection expression evaluates to, and the loop variable's slot. */
  datatype Env = Env(collection: Val, loopVar: Slot)

  /**
    - `elements`: what the enumeration hands out, in order, and `taken`: how many it has;
    - `seen`: the loop variable's value each time the loop body ran;
    - the counters: collection evaluations, length reads, element reads, `hasMoreElements` calls.
  */
  datatype State = State(
    pc: nat,
    stack: OpStack,
    locals: map<Slot, Val>,
    elements: seq<Val>,
    taken: nat,
    seen: seq<Val>,
    evals: nat,
    lengthReads: nat,
    elemReads: nat,
    hasMoreCalls: nat)

  function Start(elements: seq<Val>): State {
    State(0, Bottom, map[], elements, 0, [], 0, 0, 0, 0)
  }

  /** The position of the first placement of `l` at or after `from`. */
  function FindLabelFrom(code: seq<Instr>, l: Label, from: nat): Option<nat>
    decreases |code| - from
  {
    if from >= |code| then None
    else if code[from] == Place(l) then Some(from)
    else FindLabelFrom(code, l, from + 1)
  }

  lemma {:induction false} FindLabelFromAt(code: seq<Instr>, l: Label, from: nat, k: nat)
    requires from <= k < |code| && code[k] == Place(l)
    requires forall j | from <= j < k :: code[j] != Place(l)
    ensures FindLabelFrom(code, l, from) == Some(k)
    decreases k - from
  {
    if from < k {
      FindLabelFromAt(code, l, from + 1, k);
    }
  }

  /** Continue execution at the placement of `l`; stuck if the label is never placed. */
  function JumpTo(code: seq<Instr>, l: Label, s: State): Option<State> {
    match FindLabelFrom(code, l, 0)
    case Some(k) => Some(s.(pc := k))
    case None => None
  }

  /** One instruction; `None` when the machine is stuck (a null dereference, a type
      mismatch, or an instruction this interpreter does not run). */
  function Step(code: seq<Instr>, env: Env, s: State): Option<State>
    requires s.pc < |code|
  {
    var next := s.(pc := s.pc + 1);
    var st := s.stack;
    match code[s.pc]
    case EvalCollection =>
      Some(next.(stack := Push(st, env.collection), evals := s.evals + 1))
    case LoopBody =>
      if env.loopVar in s.locals then Some(next.(seen := s.seen + [s.locals[env.loopVar]])) else None
    case DefineVar(x) =>
      Some(next.(locals := s.locals[x := Default]))
    case Store(x) =>
      if st.Push? then Some(next.(stack := st.below, locals := s.locals[x := st.top])) else None
    case Pop(_) =>
      if st.Push? then Some(next.(stack := st.below)) else None
    case DUP =>
      if st.Push? then Some(next.(stack := Push(st, st.top))) else None
    case ALOAD(x) =>
      if x in s.locals then Some(next.(stack := Push(st, s.locals[x]))) else None
    case ILOAD(x) =>
      if x in s.locals && s.locals[x].IntV? then Some(next.(stack := Push(st, s.locals[x]))) else None
    case ARRAYLENGTH =>
      if st.Push? && st.top.ArrRef? then
        Some(next.(stack := Push(st.below, IntV(|st.top.elems|)), lengthReads := s.lengthReads + 1))
      else None
    case ICONST_0 =>
      Some(next.(stack := Push(st, IntV(0))))
    case ArrayLoad(_) =>
      if st.Push? && st.below.Push? && st.below.top.ArrRef? && st.top.IntV? && 0 <= st.top.i < |st.below.top.elems| then
        Some(next.(stack := Push(st.below.below, st.below.top.elems[st.top.i]), elemReads := s.elemReads + 1))
      else None
    case IINC(x, d) =>
      if x in s.locals && s.locals[x].IntV? then Some(next.(locals := s.locals[x := IntV(Wrap32(s.locals[x].i + d))])) else None
    case IFNULL(l) =>
      if !st.Push? then None
      else if st.top == Null then JumpTo(code, l, s.(stack := st.below))
      else Some(next.(stack := st.below))
    case IFEQ(l) =>
      if !st.Push? || !st.top.IntV? then None
      else if st.top.i == 0 then JumpTo(code, l, s.(stack := st.below))
      else Some(next.(stack := st.below))
    case IF_ICMPGE(l) =>
      if !st.Push? || !st.below.Push? || !st.below.top.IntV? || !st.top.IntV? then None
      else if st.below.top.i >= st.top.i then JumpTo(code, l, s.(stack := st.below.below))
      else Some(next.(stack := st.below.below))
    case GOTO(l) =>
      JumpTo(code, l, s)
    case Place(_) =>
      Some(next)
    case INVOKEINTERFACE(owner, name) =>
      if !st.Push? || st.top != EnumRef || owner != EnumerationName then None
      else if name == "hasMoreElements" then
        Some(next.(stack := Push(st.below, IntV(if s.taken < |s.elements| then 1 else 0)),
                   hasMoreCalls := s.hasMoreCalls + 1))
      else if name == "nextElement" && s.taken < |s.elements| then
        Some(next.(stack := Push(st.below, s.elements[s.taken]), taken := s.taken + 1))
      else None
    case _ =>
      None
  }

  datatype Outcome = Halted(final: State) | Stuck | OutOfFuel

  /** Run until control leaves the end of the code, for at most `fuel` instructions. */
  function Run(code: seq<Instr>, env: Env, s: State, fuel: nat): Outcome
    decreases fuel
  {
    if s.pc >= |code| then Halted(s)
    else if fuel == 0 then OutOfFuel
    else
      match Step(code, env, s)
      case None => Stuck
      case Some(s') => Run(code, env, s', fuel - 1)
  }

  lemma StepThen(code: seq<Instr>, env: Env, s: State, s': State, fuel: nat)
    requires s.pc < |code| && fuel > 0 && Step(code, env, s) == Some(s')
    ensures Run(code, env, s, fuel) == Run(code, env, s', fuel - 1)
  {
  }

  // ---------------------------------------------------------------------------
  // One instruction at a time.

  lemma StepDefineVar(code: seq<Instr>, env: Env, s: State, x: Slot)
    requires s.pc < |code| && code[s.pc] == DefineVar(x)
    ensures Step(code, env, s) == Some(s.(pc := s.pc + 1, locals := s.locals[x := Default]))
  {
  }

  lemma StepEvalCollection(code: seq<Instr>, env: Env, s: State)
    requires s.pc < |code| && code[s.pc] == EvalCollection
    ensures Step(code, env, s) == Some(s.(pc := s.pc + 1, stack := Push(s.stack, env.collection), evals := s.evals + 1))
  {
  }

  lemma StepDup(code: seq<Instr>, env: Env, s: State, below: OpStack, v: Val)
    requires s.pc < |code| && code[s.pc] == DUP && s.stack == Push(below, v)
    ensures Step(code, env, s) == Some(s.(pc := s.pc + 1, stack := Push(Push(below, v), v)))
  {
  }

  lemma StepStore(code: seq<Instr>, env: Env, s: State, x: Slot, below: OpStack, v: Val)
    requires s.pc < |code| && code[s.pc] == Store(x) && s.stack == Push(below, v)
    ensures Step(code, env, s) == Some(s.(pc := s.pc + 1, stack := below, locals := s.locals[x := v]))
  {
  }

  lemma StepIfNullFalls(code: seq<Instr>, env: Env, s: State, below: OpStack, v: Val)
    requires s.pc < |code| && code[s.pc].IFNULL? && s.stack == Push(below, v) && v != Null
    ensures Step(code, env, s) == Some(s.(pc := s.pc + 1, stack := below))
  {
  }

  lemma StepIfNullJumps(code: seq<Instr>, env: Env, s: State, below: OpStack, l: Label, k: nat)
    requires s.pc < |code| && code[s.pc] == IFNULL(l) && s.stack == Push(below, Null)
    requires FindLabelFrom(code, l, 0) == Some(k)
    ensures Step(code, env, s) == Some(s.(pc := k, stack := below))
  {
  }

  lemma StepLoadRef(code: seq<Instr>, env: Env, s: State, x: Slot)
    requires s.pc < |code| && code[s.pc] == ALOAD(x) && x in s.locals
    ensures Step(code, env, s) == Some(s.(pc := s.pc + 1, stack := Push(s.stack, s.locals[x])))
  {
  }

  lemma StepLoadInt(code: seq<Instr>, env: Env, s: State, x: Slot, i: int)
    requires s.pc < |code| && code[s.pc] == ILOAD(x) && x in s.locals && s.locals[x] == IntV(i)
    ensures Step(code, env, s) == Some(s.(pc := s.pc + 1, stack := Push(s.stack, IntV(i))))
  {
  }

  lemma StepArrayLength(code: seq<Instr>, env: Env, s: State, below: OpStack, elems: seq<Val>)
    requires s.pc < |code| && code[s.pc] == ARRAYLENGTH && s.stack == Push(below, ArrRef(elems))
    ensures Step(code, env, s) ==
            Some(s.(pc := s.pc + 1, stack := Push(below, IntV(|elems|)), lengthReads := s.lengthReads + 1))
  {
  }

  lemma StepConstZero(code: seq<Instr>, env: Env, s: State)
    requires s.pc < |code| && code[s.pc] == ICONST_0
    ensures Step(code, env, s) == Some(s.(pc := s.pc + 1, stack := Push(s.stack, IntV(0))))
  {
  }

  lemma StepCompareFalls(code: seq<Instr>, env: Env, s: State, below: OpStack, a: int, b: int)
    requires s.pc < |code| && code[s.pc].IF_ICMPGE? && s.stack == Push(Push(below, IntV(a)), IntV(b)) && a < b
    ensures Step(code, env, s) == Some(s.(pc := s.pc + 1, stack := below))
  {
  }

  lemma StepCompareJumps(code: seq<Instr>, env: Env, s: State, below: OpStack, a: int, b: int, l: Label, k: nat)
    requires s.pc < |code| && code[s.pc] == IF_ICMPGE(l) && s.stack == Push(Push(below, IntV(a)), IntV(b)) && a >= b
    requires FindLabelFrom(code, l, 0) == Some(k)
    ensures Step(code, env, s) == Some(s.(pc := k, stack := below))
  {
  }

  lemma StepArrayLoad(code: seq<Instr>, env: Env, s: State, below: OpStack, elems: seq<Val>, i: int)
    requires s.pc < |code| && code[s.pc].ArrayLoad? && s.stack == Push(Push(below, ArrRef(elems)), IntV(i))
    requires 0 <= i < |elems|
    ensures Step(code, env, s) ==
            Some(s.(pc := s.pc + 1, stack := Push(below, elems[i]), elemReads := s.elemReads + 1))
  {
  }

  /** `IINC` by one, below the top of the `int` range. */
  lemma StepIncrement(code: seq<Instr>, env: Env, s: State, x: Slot, i: int)
    requires s.pc < |code| && code[s.pc] == IINC(x, 1) && x in s.locals && s.locals[x] == IntV(i)
    requires MinInt <= i < MaxInt
    ensures Step(code, env, s) == Some(s.(pc := s.pc + 1, locals := s.locals[x := IntV(i + 1)]))
  {
  }

  lemma StepLoopBody(code: seq<Instr>, env: Env, s: State)
    requires s.pc < |code| && code[s.pc] == LoopBody && env.loopVar in s.locals
    ensures Step(code, env, s) == Some(s.(pc := s.pc + 1, seen := s.seen + [s.locals[env.loopVar]]))
  {
  }

  lemma StepGoto(code: seq<Instr>, env: Env, s: State, l: Label, k: nat)
    requires s.pc < |code| && code[s.pc] == GOTO(l) && FindLabelFrom(code, l, 0) == Some(k)
    ensures Step(code, env, s) == Some(s.(pc := k))
  {
  }

  lemma StepPlace(code: seq<Instr>, env: Env, s: State)
    requires s.pc < |code| && code[s.pc].Place?
    ensures Step(code, env, s) == Some(s.(pc := s.pc + 1))
  {
  }

  lemma StepHasMore(code: seq<Instr>, env: Env, s: State, below: OpStack)
    requires s.pc < |code| && code[s.pc] == INVOKEINTERFACE(EnumerationName, "hasMoreElements")
    requires s.stack == Push(below, EnumRef)
    ensures Step(code, env, s) ==
            Some(s.(pc := s.pc + 1, stack := Push(below, IntV(if s.taken < |s.elements| then 1 else 0)),
                    hasMoreCalls := s.hasMoreCalls + 1))
  {
  }

  lemma StepNextElement(code: seq<Instr>, env: Env, s: State, below: OpStack)
    requires s.pc < |code| && code[s.pc] == INVOKEINTERFACE(EnumerationName, "nextElement")
    requires s.stack == Push(below, EnumRef) && s.taken < |s.elements|
    ensures Step(code, env, s) ==
            Some(s.(pc := s.pc + 1, stack := Push(below, s.elements[s.taken]), taken := s.taken + 1))
  {
  }

  lemma StepIfZeroFalls(code: seq<Instr>, env: Env, s: State, below: OpStack, v: int)
    requires s.pc < |code| && code[s.pc].IFEQ? && s.stack == Push(below, IntV(v)) && v != 0
    ensures Step(code, env, s) == Some(s.(pc := s.pc + 1, stack := below))
  {
  }

  lemma StepIfZeroJumps(code: seq<Instr>, env: Env, s: State, below: OpStack, l: Label, k: nat)
    requires s.pc < |code| && code[s.pc] == IFEQ(l) && s.stack == Push(below, IntV(0))
    requires FindLabelFrom(code, l, 0) == Some(k)
    ensures Step(code, env, s) == Some(s.(pc := k, stack := below))
  {
  }

}
