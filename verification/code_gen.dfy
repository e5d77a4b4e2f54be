/**
  The generator state threaded through the lowering, and the collaborator operations the
  for-each lowering calls on it: appending instructions, the tracked operand stack, the
  compile stack's temporaries, and the loop scopes that own the continue/break labels.
*/
module CodeGen {

  import opened JavaTypes
  import opened Bytecode

  /** A compiler temporary: its name and declared type. */
  datatype TempVar = TempVar(name: string, ty: JType)

  /** Explicit definitions and removals of temporaries, in order. */
  datatype TempEvent = Defined(name: string) | Removed(name: string)

  /** An open loop scope: the number that names its continue and break labels. */
  datatype Scope = Scope(id: nat)

  /**
    - `code`: the instructions emitted so far;
    - `stack`: the statically tracked operand stack, top last;
    - `temps`: the live temporaries, most recent last;
    - `tempLog`: every explicit definition and removal of a temporary;
    - `loops`: the open loop scopes, innermost last;
    - `nextLoop`: the number the next loop scope gets (its labels are fresh).
  */
  datatype Gen = Gen(
    code: seq<Instr>,
    stack: seq<JType>,
    temps: seq<TempVar>,
    tempLog: seq<TempEvent>,
    loops: seq<Scope>,
    nextLoop: nat)

  function Emit(g: Gen, instrs: seq<Instr>): Gen {
    g.(code := g.code + instrs)
  }

  /** Record a value of type `t` on the tracked operand stack. */
  function Push(g: Gen, t: JType): Gen {
    g.(stack := g.stack + [t])
  }

  /** Retype the top of the tracked operand stack. */
  function Replace(g: Gen, t: JType): Gen
    requires |g.stack| > 0
  {
    g.(stack := g.stack[..|g.stack| - 1] + [t])
  }

  /** Store the top value into a slot, consuming it. */
  function StoreVar(g: Gen, s: Slot): Gen
    requires |g.stack| > 0
  {
    g.(code := g.code + [Store(s)], stack := g.stack[..|g.stack| - 1])
  }

  /** Declare the loop variable without a value from the stack; the compile stack
      initialises it and leaves the tracked stack as it was. */
  function DefineVariable(g: Gen, name: string): Gen {
    Emit(g, [DefineVar(Local(name))])
  }

  /** Define a temporary and initialise it from the top of the stack. */
  function DefineTemporary(g: Gen, name: string, t: JType): Gen
    requires |g.stack| > 0
  {
    StoreVar(g.(temps := g.temps + [TempVar(name, t)], tempLog := g.tempLog + [Defined(name)]), Temp(name))
  }

  /** Temporaries are released in stack order: only the most recent one may go. */
  predicate IsNewestTemp(g: Gen, name: string) {
    |g.temps| > 0 && g.temps[|g.temps| - 1].name == name
  }

  function RemoveVar(g: Gen, name: string): Gen
    requires IsNewestTemp(g, name)
  {
    g.(temps := g.temps[..|g.temps| - 1], tempLog := g.tempLog + [Removed(name)])
  }

  /** Open a loop scope with fresh continue and break labels. */
  function PushLoop(g: Gen): Gen {
    g.(loops := g.loops + [Scope(g.nextLoop)], nextLoop := g.nextLoop + 1)
  }

  /**
    Close the innermost scope, giving back the enclosing scope's labels. The live
    temporaries are not part of what a scope records, so a temporary the loop never
    removed stays live after the scope closes.
  */
  function PopLoop(g: Gen): Gen
    requires |g.loops| > 0
  {
    g.(loops := g.loops[..|g.loops| - 1])
  }

  function ContinueLabel(g: Gen): Label
    requires |g.loops| > 0
  {
    Continue(g.loops[|g.loops| - 1].id)
  }

  function BreakLabel(g: Gen): Label
    requires |g.loops| > 0
  {
    Break(g.loops[|g.loops| - 1].id)
  }

  /** The pops that discard the given tracked values, the topmost first. */
  function PopsFor(ts: seq<JType>): seq<Instr> {
    seq(|ts|, i requires 0 <= i < |ts| => Pop(IsTwoSlot(ts[|ts| - 1 - i])))
  }

  /**
    Bring the tracked operand stack back down to `mark` entries, emitting one pop per
    discarded value. Only the stack and the code change.
  */
  function PopDownTo(g: Gen, mark: nat): (r: Gen)
    requires mark <= |g.stack|
    ensures r.stack == g.stack[..mark]
    ensures r.code == g.code + PopsFor(g.stack[mark..])
    ensures r.temps == g.temps && r.tempLog == g.tempLog
    ensures r.loops == g.loops && r.nextLoop == g.nextLoop
    decreases |g.stack| - mark
  {
    if |g.stack| == mark then
      g
    else
      var top := g.stack[|g.stack| - 1];
      var g' := g.(code := g.code + [Pop(IsTwoSlot(top))], stack := g.stack[..|g.stack| - 1]);
      PopsForTop(g.stack, mark);
      PopDownTo(g', mark)
  }

  /** Discarding down to `mark` starts with the top value. */
  lemma PopsForTop(s: seq<JType>, mark: nat)
    requires mark < |s|
    ensures PopsFor(s[mark..]) == [Pop(IsTwoSlot(s[|s| - 1]))] + PopsFor(s[..|s| - 1][mark..])
  {
    var a := PopsFor(s[mark..]);
    var b := [Pop(IsTwoSlot(s[|s| - 1]))] + PopsFor(s[..|s| - 1][mark..]);
    assert |a| == |b|;
    forall i | 0 <= i < |a|
      ensures a[i] == b[i]
    {
      if i > 0 {
        assert b[i] == PopsFor(s[..|s| - 1][mark..])[i - 1];
      }
    }
  }

}
