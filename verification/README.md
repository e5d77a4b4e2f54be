# Statically compiled for-each loops in Groovy

This project models how Groovy's static compiler lowers the for-each loop
`for (T x in collection) body` to JVM bytecode. The model follows
`StaticTypesStatementWriter`. It also covers the fast-path/slow-path toggle the same
writer puts around every block statement.

`writeForInLoop` opens a loop scope and resolves the collection's static type. It then
picks the first of three lowerings that applies:

1. **Indexed array.** The collection is an array and its component type is exactly the
   loop variable's type. The array, its length and an index are kept in the temporaries
   `$arr`, `$len` and `$idx`. A null array branches straight to the exit. Each pass
   compares the index with the length, loads the element with the typed array-load opcode
   (`loadFromArray`), increments the index and runs the body. The three temporaries are
   removed after the exit label, newest first.
2. **Enumeration.** The collection's type is or implements `java.util.Enumeration`. The
   enumeration is kept in `$enum`. Each pass calls `hasMoreElements`, leaves on zero,
   calls `nextElement` and stores the result into the loop variable.
3. **Iterator.** The compiler looks for an `iterator()` on the type itself, then on its
   interfaces and superinterfaces in order. If the one it finds returns an `Iterator`, it
   is called directly. Otherwise `DefaultGroovyMethods.iterator(Object)` coerces the
   collection. The shared iterator loop control takes over from there.

Afterwards the operand stack is brought back to its mark and the loop scope is closed.
The enumeration lowering never removes `$enum`, so it is still live after the loop (see
"## Findings").

The model has the following modules:

- `Wrappers`: `Option`.
- `JavaTypes`: primitive, array and reference types. A class hierarchy gives, per class
  name, the interfaces it implements, its ordered interface list and its declared
  `iterator()`.
- `Bytecode`: the instructions, with symbolic slots and labels.
- `CodeGen`: the generator state. This is the emitted code, the tracked operand stack,
  the live temporaries with a log of their definitions and removals, and the open loop
  scopes. `CodeGen` also has the collaborator operations the lowering calls on it.
- `ArrayLoad`: `loadFromArray` and its opcode table.
- `ForEach`: strategy selection, the three lowerings as the listings they append, the
  iterator lookup and `writeForInLoop`.
- `Listings`: the shape of each listing. This covers where each instruction occurs, that
  it occurs only once, and that branches stay within the loop's own labels.
- `ForEachProps`: properties of the whole lowering.
- `Machine`: a small interpreter for the emitted instructions. It counts collection
  evaluations, length reads, element reads and `hasMoreElements` calls, and records the
  value the body sees on each pass.
- `LoopRuns` and `EnumRuns`: what running the array and enumeration listings does.
- `BlockMode`: the fast-path/slow-path toggle around block statements.

## Model

| member | source | states |
|---|---|---|
| ArrayLoad.ArrayLoadOpcode | src/main/java/org/codehaus/groovy/classgen/asm/sc/StaticTypesStatementWriter.java:165-183 | Only `void` gets no load. Exactly the non-primitive types get `aaload`. Exactly byte and boolean get `baload`. |
| ArrayLoad.ArrayLoadOpcodeClasses | src/main/java/org/codehaus/groovy/classgen/asm/sc/StaticTypesStatementWriter.java:165-183 | Two non-void types get the same opcode exactly when they are the same primitive, are byte and boolean, or are both references. |
| ArrayLoad.ArrayLoadOpcodeMatchesJvm | src/main/java/org/codehaus/groovy/classgen/asm/sc/StaticTypesStatementWriter.java:165-183 | The opcode chosen for a non-void type is the array load that section 6.5 of the Java Virtual Machine Specification defines for arrays of that component type, and no other. |
| ArrayLoad.LoadFromArray | src/main/java/org/codehaus/groovy/classgen/asm/sc/StaticTypesStatementWriter.java:161-186 | Appends exactly: load the array, load the index, the typed load, store to the variable. The element pushed is consumed by the store, so the tracked stack and everything else are unchanged. |
| CodeGen.PopDownTo | src/main/java/org/codehaus/groovy/classgen/asm/sc/StaticTypesStatementWriter.java:97-106 | Leaves the tracked stack at its first `mark` entries. Emits one pop per discarded value, top first, two-slot values with the wide pop. Temporaries and scopes are untouched. |
| ForEach.FirstIteratorIndex | src/main/java/org/codehaus/groovy/classgen/asm/sc/StaticTypesStatementWriter.java:222-224 | The index found is that of the first interface with an `iterator()`. No earlier interface has one, and it is the list's length when none has one. |
| ForEach.FindIterator | src/main/java/org/codehaus/groovy/classgen/asm/sc/StaticTypesStatementWriter.java:220-225 | The type's own `iterator()` wins. Otherwise the lookup gives the first interface's `iterator()`, and nothing exactly when neither the type nor any interface has one. |
| ForEachProps.InheritedIteratorIsFirst | src/main/java/org/codehaus/groovy/classgen/asm/sc/StaticTypesStatementWriter.java:220-225 | When the type declares no `iterator()`, the lookup binds that of the first interface, in the compiler's order, that has one. |
| ForEachProps.IteratorFallback | src/main/java/org/codehaus/groovy/classgen/asm/sc/StaticTypesStatementWriter.java:226-235 | The runtime coercion is emitted exactly when no `iterator()` is found, or when the one found does not return an `Iterator`. Otherwise the found method is called and handed to the loop control. |
| ForEachProps.DeclaredIteratorIsCalled | src/main/java/org/codehaus/groovy/classgen/asm/sc/StaticTypesStatementWriter.java:219-230 | A type whose own `iterator()` returns an iterator has it called directly. This holds without the type being `Iterable`. |
| ForEach.WriteOptimizedForEachLoop | src/main/java/org/codehaus/groovy/classgen/asm/sc/StaticTypesStatementWriter.java:110-159 | Appends the indexed-array listing for the innermost scope. The tracked stack and the live temporaries are unchanged. The temporary log gains `$arr`, `$len`, `$idx` defined and then removed in reverse. |
| ForEach.WriteEnumerationBasedForEachLoop | src/main/java/org/codehaus/groovy/classgen/asm/sc/StaticTypesStatementWriter.java:188-216 | Appends the enumeration listing. It defines `$enum` at line 199 and never removes it, so `$enum` is one more live temporary afterwards. The tracked stack is unchanged. |
| ForEach.WriteIteratorBasedForEachLoop | src/main/java/org/codehaus/groovy/classgen/asm/sc/StaticTypesStatementWriter.java:218-237 | With a usable `iterator()` it appends the direct call and the loop control. Otherwise it appends the evaluation, the coercion and the loop control. The tracked stack grows by what the loop control leaves. |
| ForEach.SelectStrategy | src/main/java/org/codehaus/groovy/classgen/asm/sc/StaticTypesStatementWriter.java:99-105 | The indexed array is chosen exactly when the collection is an array whose component is the variable's type. Enumeration is chosen exactly when that fails and the type is or implements `java.util.Enumeration`. The iterator is chosen exactly when both fail. |
| ForEach.WriteSelected | src/main/java/org/codehaus/groovy/classgen/asm/sc/StaticTypesStatementWriter.java:99-105 | Dispatches in order: indexed array, then enumeration, then iterator. It appends that strategy's listing and temporary log. The tracked stack grows only by what the iterator loop control leaves, and the array and enumeration loops leave it unchanged. The live temporaries grow by `$enum` for the enumeration loop and are unchanged otherwise. |
| ForEach.WriteForInLoop | src/main/java/org/codehaus/groovy/classgen/asm/sc/StaticTypesStatementWriter.java:83-108 | Appends the strategy's listing for a fresh scope, followed by the pops that restore the mark. The stack and the open scopes end as they began, and the scope counter advances by one. The live temporaries end as they began, except that an enumeration loop leaves `$enum` live. |
| ForEachProps.StrategyVisibleInListing | src/main/java/org/codehaus/groovy/classgen/asm/sc/StaticTypesStatementWriter.java:99-105 | The first applicable strategy is the one emitted. The length read appears iff the array test holds. `hasMoreElements` appears iff the array test fails and the enumeration test holds. The iterator loop control appears iff both fail. |
| ForEachProps.ForInJumpsWithin | src/main/java/org/codehaus/groovy/classgen/asm/sc/StaticTypesStatementWriter.java:117-215 | Whatever the strategy, every branch of the emitted loop targets its own scope's continue or break label. |
| ForEachProps.IteratorListingContents | src/main/java/org/codehaus/groovy/classgen/asm/sc/StaticTypesStatementWriter.java:218-237 | The iterator listing has no length read, no enumeration call and no branch of its own. It ends in the loop control on the iterator's type, followed by the balancing pops. |
| ForEachProps.MatchingArrayIsIndexed | src/main/java/org/codehaus/groovy/classgen/asm/sc/StaticTypesStatementWriter.java:99-100 | A variable of the array's own component type takes the indexed loop with that component's load, for example `iaload` for `int`. |
| ForEachProps.MismatchedArrayIsCoerced | src/main/java/org/codehaus/groovy/classgen/asm/sc/StaticTypesStatementWriter.java:99-105 | A variable whose type differs from the component goes through the runtime iterator coercion. |
| ForEachProps.EnumerationBeforeIterator | src/main/java/org/codehaus/groovy/classgen/asm/sc/StaticTypesStatementWriter.java:101-102 | A non-array enumeration takes the enumeration loop even if it also has an `iterator()`. |
| ForEachProps.WriteForInLoops | src/main/java/org/codehaus/groovy/classgen/asm/sc/StaticTypesStatementWriter.java:91-107 | Lowering loops one after another keeps the emitted code as a prefix. It leaves the tracked stack and the open scopes as they were, and uses one fresh scope per loop. The live temporaries grow by one `$enum` per enumeration loop, in order. |
| Listings.ArrayListingProtocol | src/main/java/org/codehaus/groovy/classgen/asm/sc/StaticTypesStatementWriter.java:116-154 | For any loop variable type, the array listing reads the length at position 6. It branches only to its own scope's labels and holds no enumeration call and no iterator loop control. |
| Listings.ArrayListingOnce | src/main/java/org/codehaus/groovy/classgen/asm/sc/StaticTypesStatementWriter.java:116-154 | The collection is evaluated and the length read once, before the loop head. A null array branches to the exit. The body and each label occur once. Branches go only to the scope's labels, and no enumeration or iterator call appears. |
| Listings.EnumListingOnce | src/main/java/org/codehaus/groovy/classgen/asm/sc/StaticTypesStatementWriter.java:193-215 | The collection is evaluated once and stored in `$enum`. Each pass has one `hasMoreElements`, leaving on zero, one `nextElement` and one body. Branches go only to the scope's labels. |
| LoopRuns.ArrayLoopRunsBodyPerElement | src/main/java/org/codehaus/groovy/classgen/asm/sc/StaticTypesStatementWriter.java:120-154 | Over a non-null array of `len` elements, the listing halts after evaluating the collection once and reading the length once. The body runs `len` times, seeing the elements in order, and the operand stack ends empty. |
| LoopRuns.ArrayCodeRuns | src/main/java/org/codehaus/groovy/classgen/asm/sc/StaticTypesStatementWriter.java:120-154 | The same run, for any code with the array listing's shape and labels. |
| LoopRuns.ArrayLoopFrom | src/main/java/org/codehaus/groovy/classgen/asm/sc/StaticTypesStatementWriter.java:137-154 | From the loop head at index `i`, the loop hands the body the remaining elements in order. It reads each of them once and stops at the exit with an empty stack. |
| LoopRuns.NullArrayRunsBodyNever | src/main/java/org/codehaus/groovy/classgen/asm/sc/StaticTypesStatementWriter.java:121-124 | Over a null array the listing halts at the null test. The body never runs, the length is never read and the operand stack ends empty. |
| EnumRuns.EnumerationLoopRunsBodyPerElement | src/main/java/org/codehaus/groovy/classgen/asm/sc/StaticTypesStatementWriter.java:197-215 | Over an enumeration of `len` elements, the listing evaluates the collection once and calls `hasMoreElements` `len + 1` times. It hands out every element, runs the body once per element in order and ends with an empty stack. |
| EnumRuns.EnumCodeRuns | src/main/java/org/codehaus/groovy/classgen/asm/sc/StaticTypesStatementWriter.java:197-215 | The same run, for any code with the enumeration listing's shape and labels. |
| EnumRuns.EnumLoopFrom | src/main/java/org/codehaus/groovy/classgen/asm/sc/StaticTypesStatementWriter.java:201-215 | From the loop head with some elements already taken, the loop hands the body the rest in order, then stops with the enumeration exhausted and the stack empty. |
| BlockMode.WriteBlockStatement | src/main/java/org/codehaus/groovy/classgen/asm/sc/StaticTypesStatementWriter.java:74-79 | Lowering a block records one entry mode per statement and always exits in the slow path. |
| BlockMode.LowerStatements | src/main/java/org/codehaus/groovy/classgen/asm/sc/StaticTypesStatementWriter.java:77 | Lowering a block's statements in order records one entry mode per statement. The modes themselves are stated by BlockMode.LowerStatementsModes. |
| BlockMode.LowerStatementsModes | src/main/java/org/codehaus/groovy/classgen/asm/sc/StaticTypesStatementWriter.java:74-79 | Statements are entered in the starting mode until the first block statement has been lowered, and in the slow path after it. The sequence ends in the slow path exactly when it holds a block. |
| BlockMode.BlockToggle | src/main/java/org/codehaus/groovy/classgen/asm/sc/StaticTypesStatementWriter.java:74-79 | A block always ends in the slow path, whatever the mode before it, so the prior mode is not restored. Its statements are entered in the fast path up to and including its first nested block. |
| ForEachProps.EnumerationInsideArrayLoop | src/main/java/org/codehaus/groovy/classgen/asm/sc/StaticTypesStatementWriter.java:135-156 | An enumeration loop lowered as an array loop's body, where `$idx` is the newest temporary, leaves `$enum` above `$idx`. Then `$idx` is not the newest temporary, and the array loop's removal of `$idx` at line 156 is refused. |
| ForEach.WriteEnumerationLoopReleasing | src/main/java/org/codehaus/groovy/classgen/asm/sc/StaticTypesStatementWriter.java:188-216 | The enumeration lowering with `$enum` removed after the break label. It emits the same code and leaves the live temporaries and the tracked stack unchanged. |
| ForEach.WriteForInLoopReleasing | src/main/java/org/codehaus/groovy/classgen/asm/sc/StaticTypesStatementWriter.java:83-108 | With `$enum` released, every strategy's loop emits the same code as before and leaves the stack, the live temporaries and the open scopes as they began. |
| ForEachProps.EnumerationInsideArrayLoopReleasing | src/main/java/org/codehaus/groovy/classgen/asm/sc/StaticTypesStatementWriter.java:135-156 | With `$enum` released, an enumeration loop inside an array loop leaves `$idx` the newest temporary, so the array loop can remove it. |

## Left out

- Bytecode encoding is not modelled: slot numbers, the ASM method visitor and frame computation. Slots and labels are symbolic, and a loop scope's labels are named by the scope's number.
- The collection's static type, which `resolveType` computes with the type chooser, is an input of the model.
- Lowering the collection expression and the loop body is not modelled. Each is one opaque instruction. `EvalCollection` leaves one value, the collection, on the operand stack. `LoopBody` leaves the operand stack as it found it.
- `writeForInLoopControlAndBlock`, the iterator loop control inherited from the dynamic statement writer, is not modelled. It is one opaque instruction. What it leaves on the tracked operand stack is an input (`controlResidue`). Iterator-based loops are therefore not run by the interpreter.
- Line-number events (`onLineNumber`) and statement labels (`writeStatementLabel`) only attach debugging and label information, and are not modelled.
- `MethodCaller`, `CompileStack` and `OperandStack` are not part of this model beyond the effects the lowering relies on.
  - The compile stack keeps a stack of temporaries and removes only the newest one.
  - Closing a loop scope (`compileStack.pop()`, line 107) gives back the enclosing labels and leaves the temporaries alone.
  - The operand stack tracks types and emits one pop per discarded value.
- Exceptions raised by collaborators (a failed type resolution, or a temporary removed out of order) are not modelled. The model's preconditions exclude them instead.
- `$enum` is defined at line 199, and no `removeVar` follows before the method ends at line 216. The model follows the code; "## Findings" shows the consequence.
- The interpreter runs with an explicit fuel bound that is exactly the number of steps the listing needs. The array theorems require at most 2^31 - 1 elements, the largest JVM array. Index arithmetic is not modelled beyond that bound.
- Listings.ArrayListingOnce: requires a loop variable type other than `void`, which no loop variable can have. For `void` the typed load is empty and the positions after it shift; Listings.ArrayListingProtocol states the rest for every type.
- LoopRuns.ArrayLoopRunsBodyPerElement: requires a non-`void` loop variable, for the same reason, and at most 2^31 - 1 elements.
- LoopRuns.NullArrayRunsBodyNever: requires a non-`void` loop variable, for the same reason.
- ForEachProps.WriteForInLoops: states that the earlier code is kept, that the tracked stack and the open scopes are balanced, and which temporaries stay live. It does not restate the concatenated code; each loop's code is given by ForEach.WriteForInLoop.
- Groovy's dynamic `StatementWriter` is not part of this model, apart from the block-statement traversal that `BlockMode` represents.

## Findings

The corrected lowering emits the same instructions as the code as written; only the removal of `$enum` differs. Every listing and run theorem above therefore holds for both.

| source | as written | input that shows it | evidently intended | confidence | as-written member | corrected member |
|---|---|---|---|---|---|---|
| src/main/java/org/codehaus/groovy/classgen/asm/sc/StaticTypesStatementWriter.java:188-216 | The enumeration lowering defines `$enum` (line 199) and never removes it, so it outlives the loop. | An enumeration loop as the body of an array loop, `for (int i : ints) { for (e in enumeration) {} }`. After the inner loop, `$enum` sits above `$idx`, and the outer loop's `removeVar` of `$idx` at line 156 does not find `$idx` newest. | Remove `$enum` after the break label, as the array lowering removes its temporaries at lines 156-158. | not executed; medium, because `CompileStack` is not part of this model and its removal order is taken as newest first | ForEachProps.EnumerationInsideArrayLoop | ForEach.WriteForInLoopReleasing |
