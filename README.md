# A verified model of a toy compiler's code generator and stack VM

The repository compiles a small C-like language to bytecode for a 16-bit
stack machine. This project models its two cooperating parts in Dafny and
proves properties of them.

- **The virtual machine** (`Interpreter::Run` and its fourteen opcode
  handlers).
  - The registers are the class `Interpreter.Registers`: the operand stack of
    `int16` values, the return-address stack, the current instruction and the
    base index. Each handler is a method that updates them in place.
  - Each method is proved to leave exactly the registers that the value-level
    specification prescribes (`Execute`, `Transition`, `Exec` and `RunSpec`).
  - The instruction pointer is an index into the program, and `None` is the
    null pointer.
  - The C++ leaves some operations undefined: popping an empty stack,
    indexing outside it, running off the program. The model turns each of
    these into a fault.
  - The run loop is bounded by a fuel parameter.
  - Printing appends to an output sequence.
- **The code generator** (`generateCodeForStatement` and
  `generateCodeForFunction`).
  - The class `Generator.CodeGenerator` holds the growing instruction array
    and the function symbol table. Its methods append to them, patch them and
    write into them the way the C++ does.
  - Each method is proved to produce exactly what the functions
    `StatementCode`, `StatementsCode` and `FunctionCode` describe.
  - A thrown `runtime_error` becomes a `Failed` result. It keeps the code
    emitted so far and the kind of error.

The properties proved include:

- The generator only appends. It patches nothing but its own placeholder
  jumps.
- Every recorded `return` jump is patched to land on the epilogue.
- The shapes of the call, `while`, `return` and function lowerings.
- Every compile error.
- The prologue and parameter layouts.
- Every expression has a static stack count of +1, assuming a balanced
  callee for each call it contains.
- The VM halts only on a null instruction pointer, and `CALL`/`RETURN` form a
  round trip.
- Running compiled arithmetic expressions, assignments and `printNum` on the
  VM does what the source program says.
- The frame `Run` builds is the one the generator's addressing assumes.
- A `while` loop with a body statement, as it is lowered, either exits at
  once or never stops. A `while` loop without one exits at once on a
  nonzero condition. On a 0 condition it dispatches its own jump-if-zero
  again, which pops the enclosing frame's slots (see "## Findings").

Integer conversions are written out:

- `int16_t(...)` is `Bytecode.Wrap16` (two's-complement truncation).
- Conversions to `size_t` are `Bytecode.ToSize` (reduction modulo 2^64).
- Base-relative addressing takes `p2 + baseIdx` in `size_t`
  (`Interpreter.SlotIndex`).

The model follows the code as written, including two behaviours a reader
might not expect:

- **`while` bodies.** The `while` lowering compiles the condition and the
  jumps, but never the body statements. It leaves the emission loop after its
  first iteration (main.cpp:171-177). So with a body and a true condition,
  the loop spins forever (`Correctness.WhileSpinsForever`).
- **Function registration.** Functions are registered one at a time, just
  before each body is compiled (main.cpp:189-193). They are not registered
  in a separate first pass. A call therefore resolves only to functions
  already compiled and to the function itself.

## Model

| member | source | states |
|---|---|---|
| Bytecode.Wrap16 | main.cpp:108-109 | the `int16_t` conversion: a value that fits is kept, and the result is always congruent to the input modulo 2^16 |
| Bytecode.ToSize | Interpreter/src/Interpreter.cpp:136 | conversion to `size_t`: a result below 2^64, equal to the input when that is non-negative, and input + 2^64 for a negative input |
| Bytecode.OpcodeNumber | Interpreter/src/Interpreter.cpp:8-23 | every opcode's number is below 14, and the handler table maps that number back to the same opcode |
| Bytecode.OpcodeOfNumber | Interpreter/src/Interpreter.cpp:8-23 | a number selects a handler exactly when it is below the table size 14 |
| Bytecode.OpcodeTableRoundTrip | Interpreter/src/Interpreter.cpp:8-23 | every table slot holds the opcode whose number is that slot |
| Interpreter.Execute | Interpreter/src/Interpreter.cpp:51-139 | definition of the fourteen handlers on register values: the registers each one leaves, for an instruction whose stack depth and slot index are defined (`CanExecute`) |
| Interpreter.Transition | Interpreter/src/Interpreter.cpp:37-39 | definition of one dispatch: a fault when the instruction pointer is outside the program or the handler's access would be undefined, otherwise `Execute` of the current instruction |
| Interpreter.Exec | Interpreter/src/Interpreter.cpp:37-39 | definition of the dispatch loop: it halts with the registers once the instruction pointer is null, faults with the first faulting dispatch, and is bounded by fuel |
| Interpreter.InitialRegs | Interpreter/src/Interpreter.cpp:26-35 | the frame `Run` sets up: a 0 result slot when a result is wanted, the arguments in order, one 0 slot, a null return address and the base index equal to the stack size, with the instruction pointer at the entry |
| Interpreter.RunSpec | Interpreter/src/Interpreter.cpp:25-49 | definition of `Run`: frame setup, the dispatch loop, one pop per argument, then slot 0 as the result |
| Interpreter.Registers.constructor | Interpreter/src/Interpreter.cpp:26 | fresh registers: empty stacks, base 0, no output, and the instruction pointer at the entry |
| Interpreter.Registers.ExitInstruction | Interpreter/src/Interpreter.cpp:51-53 | the instruction pointer becomes null; nothing else changes |
| Interpreter.Registers.AddIntInstruction | Interpreter/src/Interpreter.cpp:55-62 | the top two slots are replaced by their 16-bit wrapped sum, with the left operand the lower slot; ip advances by 1; the other registers are unchanged |
| Interpreter.Registers.PushIntInstruction | Interpreter/src/Interpreter.cpp:64-67 | `p2` is appended to the stack; ip advances by 1; the other registers are unchanged |
| Interpreter.Registers.PopIntInstruction | Interpreter/src/Interpreter.cpp:69-72 | only the top slot is removed; ip advances by 1 |
| Interpreter.Registers.PrintIntInstruction | Interpreter/src/Interpreter.cpp:74-79 | the top slot is removed and appended to the output; ip advances by 1 |
| Interpreter.Registers.CompareIntLessInstruction | Interpreter/src/Interpreter.cpp:81-89 | the top two slots are replaced by 1 if lower < upper, else 0; ip advances by 1 |
| Interpreter.Registers.LoadIntInstruction | Interpreter/src/Interpreter.cpp:91-94 | a copy of `stack[p2]` is pushed; the slots below are unchanged |
| Interpreter.Registers.StoreIntInstruction | Interpreter/src/Interpreter.cpp:96-100 | the stack shrinks by 1; only slot `p2` changes and it receives the old top; a store aimed at the top slot is lost |
| Interpreter.Registers.JumpByIfZeroInstruction | Interpreter/src/Interpreter.cpp:102-109 | the condition is always popped; ip moves by `p2` when the condition was 0 and by 1 otherwise |
| Interpreter.Registers.JumpByInstruction | Interpreter/src/Interpreter.cpp:111-113 | ip moves by `p2`; the stacks, base and output are untouched |
| Interpreter.Registers.LoadIntBasePointerRelativeInstruction | Interpreter/src/Interpreter.cpp:115-118 | a copy of the slot at `p2 + baseIdx` (in `size_t`) is pushed; the slots below are unchanged |
| Interpreter.Registers.StoreIntBasePointerRelativeInstruction | Interpreter/src/Interpreter.cpp:120-124 | the stack shrinks by 1; only slot `p2 + baseIdx` changes and it receives the old top |
| Interpreter.Registers.CallInstruction | Interpreter/src/Interpreter.cpp:126-131 | pushes the old base as a 16-bit value and the return address ip+1; the base becomes the new stack length; ip moves by `p2` |
| Interpreter.Registers.ReturnInstruction | Interpreter/src/Interpreter.cpp:133-139 | pops the return address into ip, and pops the saved base (converted to `size_t`) into the base index |
| Interpreter.Registers.ExecuteStackInstruction | Interpreter/src/Interpreter.cpp:38 | the handlers for exit, arithmetic, push, pop, print and absolute load leave exactly the registers `Execute` prescribes |
| Interpreter.Registers.ExecuteOtherInstruction | Interpreter/src/Interpreter.cpp:38 | the handlers for stores, jumps, frame-relative access, call and return leave exactly the registers `Execute` prescribes |
| Interpreter.Registers.Dispatch | Interpreter/src/Interpreter.cpp:38 | a dispatch succeeds exactly when `Transition` does, and then leaves its registers; a dispatch that would be undefined changes nothing |
| Interpreter.Registers.DispatchLoop | Interpreter/src/Interpreter.cpp:37-39 | the loop's outcome is `Exec` of the starting registers with the same fuel; on a halt the registers are the halted ones |
| Interpreter.PopArgumentSlots | Interpreter/src/Interpreter.cpp:41-45 | popping one slot per argument fails exactly when the stack is too short; otherwise it leaves the prefix one slot shorter per argument |
| Interpreter.ExecDispatched | Interpreter/src/Interpreter.cpp:37-39 | after a successful dispatch, the loop goes on from the new registers with one unit of fuel less |
| Interpreter.Run | Interpreter/src/Interpreter.cpp:25-49 | the outcome of frame setup, the dispatch loop, the argument teardown and the read of the result is exactly `RunSpec` |
| InterpreterProperties.HaltedIpIsNull | Interpreter/src/Interpreter.cpp:37-39 | the loop stops normally only with a null instruction pointer |
| InterpreterProperties.ExecFuelMonotone | Interpreter/src/Interpreter.cpp:37-39 | once the loop has stopped or faulted within some fuel, any larger fuel gives the same outcome |
| InterpreterProperties.TransitionStops | Interpreter/src/Interpreter.cpp:133-139 | a dispatch nulls ip if and only if it runs `EXIT`, or a `RETURN` that pops the null sentinel |
| InterpreterProperties.StepsOne | Interpreter/src/Interpreter.cpp:38 | running exactly one step is one dispatch, and it faults on a null instruction pointer |
| InterpreterProperties.StepsAppend | Interpreter/src/Interpreter.cpp:37-39 | m steps followed by n steps equal m + n steps |
| InterpreterProperties.ExecAfterSteps | Interpreter/src/Interpreter.cpp:37-39 | after n uninterrupted dispatches, the loop continues exactly as it would from the state reached |
| InterpreterProperties.CycleNeverStops | Interpreter/src/Interpreter.cpp:37-39 | a state the machine returns to after n > 0 dispatches never halts, for any fuel |
| InterpreterProperties.StepsNoHaltBefore | Interpreter/src/Interpreter.cpp:37-39 | less fuel than an uninterrupted run of n dispatches leaves the loop running |
| InterpreterProperties.CallEntersCallee | Interpreter/src/Interpreter.cpp:126-131 | `CALL` at k lands on k + p2 with the new base at the stack length; the N values pushed before it are at base offsets -1-N+i, and the slot below them is at -2-N |
| InterpreterProperties.CallReturnRoundTrip | Interpreter/src/Interpreter.cpp:126-139 | if the callee leaves both stacks as `CALL` left them, `RETURN` resumes at the instruction after the call with the caller's stack, base and return stack |
| InterpreterProperties.RunResultIsBottomSlot | Interpreter/src/Interpreter.cpp:41-48 | after a normal stop, the result is the bottom slot `stack[0]`, or a fault when the argument pops would empty the stack |
| CodeGen.StatementCode | main.cpp:23-180 | definition of `generateCodeForStatement` on values: the code appended and the return jumps recorded for one statement node, or the error thrown with the code emitted before it |
| CodeGen.StatementsCode | main.cpp:238-242 | definition: statements compiled in order, each against the previous one's output, stopping at the first error |
| CodeGen.ParameterMap | main.cpp:195-198 | definition: each parameter name to its ordinal, a repeated name keeping its last ordinal |
| CodeGen.Hoist | main.cpp:200-236 | definition of the hoisting pass: each top-level `INT32` declaration gets the next local offset and one `PUSH_INT` of its literal initializer, or 0 |
| CodeGen.PatchReturnJumps | main.cpp:244-248 | definition of the patching loop: each recorded jump's operand becomes the distance to the cleanup code; the array keeps its length |
| CodeGen.FunctionCode | main.cpp:182-254 | definition of `generateCodeForFunction`: registration, parameters, prologue, body, patched return jumps, one `POP_INT` per local and `RETURN`, or the first error with the code emitted before it |
| CodeGen.PatchedWhileCode | main.cpp:163-178 | the corrected `while` lowering: as written, except that the jump-if-zero is always patched to land just past the loop |
| CodeGenProperties.StatementCodeExtends | main.cpp:23-180 | compiling a statement keeps every earlier instruction and every recorded jump (append-only) |
| CodeGenProperties.CallCodeExtends | main.cpp:53-97 | the same for `return`, `printNum` and user calls |
| CodeGenProperties.WhileCodeExtends | main.cpp:163-178 | the same for `while`: the jump-if-zero patch lands after the old code |
| CodeGenProperties.StatementsCodeExtends | main.cpp:238-242 | the same for a statement list |
| CodeGenProperties.StatementCodeRecordsJumps | main.cpp:62 | while the array fits in 2^15, every recorded `return` position is a `JUMP_BY` at or after the function start, and it stays one |
| CodeGenProperties.CallRecordsJumps | main.cpp:53-97 | the same for the call node: the jump recorded by `return` is its own `JUMP_BY` |
| CodeGenProperties.OperatorRecordsJumps | main.cpp:120-144 | the same for operator nodes |
| CodeGenProperties.WhileRecordsJumps | main.cpp:163-178 | the same for `while`: its patch touches only its own jump-if-zero |
| CodeGenProperties.StatementsCodeRecordsJumps | main.cpp:238-242 | the same for a statement list |
| CodeGenProperties.PatchReturnJumpsLands | main.cpp:246-248 | each patched jump keeps its opcode and satisfies position + p2 = cleanup; every other instruction is unchanged |
| CodeGenProperties.PatchKeepsPrefix | main.cpp:246-248 | patching jumps recorded at or after n leaves the first n instructions alone |
| CodeGenProperties.CallSiteLayout | main.cpp:76-94 | a user call emits, in order: `PUSH_INT 0` (only when the callee returns a value), the arguments, a `CALL` at k with k + p2 = the callee's entry, and one `POP_INT` per argument |
| CodeGenProperties.PatchedWhileLayout | main.cpp:163-178 | the corrected lowering equals `StatementCode` on loops with a body statement; without one it differs only in the jump-if-zero, which lands just past the loop |
| CodeGenProperties.WhileLayout | main.cpp:163-178 | the condition, then `JUMP_BY_IF_ZERO`; with body statements, a `JUMP_BY` back to the condition and a jump-if-zero landing just past it; with no body, the jump-if-zero keeps 0 |
| CodeGenProperties.CompileErrors | main.cpp:29-161 | each error (an initialized declaration of an unknown local, arity of `return`/`printNum`/operators, unknown function, argument-count mismatch, unknown assignment target, unresolved name) with exactly the code emitted before the throw; a mismatch after a value-returning callee keeps the `PUSH_INT 0` already emitted |
| CodeGenProperties.VariableResolution | main.cpp:146-159 | a local shadows a parameter; parameter i of N loads from base offset -1-N+i |
| CodeGenProperties.ReturnLayout | main.cpp:54-63 | `return` emits its value, a store at base offset -2-N, and a `JUMP_BY` placeholder whose position is recorded |
| CodeGenProperties.HoistLayout | main.cpp:200-236 | one `PUSH_INT` per top-level `int` declaration, in order, carrying the literal initializer or 0; a local's offset is the number of declarations before it |
| CodeGenProperties.ParameterMapIndices | main.cpp:195-198 | with distinct names, parameter i gets ordinal i, and the map holds exactly N entries, all of them parameters |
| CodeGenProperties.FunctionLayout | main.cpp:182-254 | the entry (old length, arity, returns flag) is registered before the body is compiled; old code and prologue are kept; one `POP_INT` per local then `RETURN` ends the code; every return jump lands on the epilogue |
| CodeGenProperties.NetEffectPopInts | main.cpp:92-94 | n `POP_INT`s lower the stack by n |
| CodeGenProperties.ExpressionNetEffect | main.cpp:98-161 | static stack count: a compiled expression leaves one more value on the stack and records no jump, assuming a balanced callee for each call (a `CALL` counts 0) |
| CodeGenProperties.OperatorNetEffect | main.cpp:124-133 | the same for `+` and `<` |
| CodeGenProperties.CallNetEffect | main.cpp:76-94 | static stack count for a call of a value-returning function, assuming a balanced callee: the reserved slot stays and the arguments are popped |
| CodeGenProperties.CallSequenceNetEffect | main.cpp:76-94 | static stack count, assuming a balanced callee (a `CALL` counts 0): reserve slot + arguments + `CALL` + pops leave one value |
| CodeGenProperties.ArgumentsNetEffect | main.cpp:85-88 | an argument list leaves one value per argument |
| Correctness.BinaryStep | Interpreter/src/Interpreter.cpp:55-89 | one `ADD_INT`/`COMP_INT_LT` step replaces the two operands with their result |
| Correctness.StoreStep | Interpreter/src/Interpreter.cpp:120-124 | one frame-relative store step writes the value into its slot below it |
| Correctness.PrintStep | Interpreter/src/Interpreter.cpp:74-79 | one print step moves the top value to the output |
| Correctness.JumpIfZeroStep | Interpreter/src/Interpreter.cpp:102-109 | one jump-if-zero step pops the condition and branches on it |
| Correctness.JumpStep | Interpreter/src/Interpreter.cpp:111-113 | one `JUMP_BY` step moves ip by p2 |
| Correctness.OperandsLayout | main.cpp:124-133 | `+`/`<` is its left operand's code, then its right operand's code, then the operator |
| Correctness.ExpressionCorrect | main.cpp:98-161 | running a compiled call-free expression executes each of its instructions once, ends just past them, and pushes the expression's value with nothing else changed |
| Correctness.OperatorCorrect | main.cpp:120-133 | the same for `+` (16-bit wrapping) and `<` (1 or 0) |
| Correctness.OperandsRun | main.cpp:129-132 | running both operands' code pushes the left operand's value, then the right one's |
| Correctness.AssignmentLayout | main.cpp:134-143 | `x = e` is e's code followed by a store into x's local offset |
| Correctness.AssignmentCorrect | main.cpp:134-143 | running `x = e` writes e's value into x's slot and leaves the rest of the stack as it was |
| Correctness.PrintCorrect | main.cpp:64-70 | running `printNum(e)` appends e's value to the output and leaves the stack as it was |
| Correctness.WhileCondition | main.cpp:163-169 | running a `while` condition pushes its value and stops at the jump-if-zero |
| Correctness.WhileExits | main.cpp:163-178 | with a body statement and a 0 condition, or with no body statement and a nonzero condition, the condition is popped and the run continues just past the loop; the other two cases are `WhileWithoutBodyRepeats` and `WhileSpinsForever` |
| Correctness.WhileWithoutBodyRepeats | main.cpp:163-178 | with no body statement and a 0 condition, the jump-if-zero keeps distance 0: after popping the condition the machine is back on it, and the next dispatch pops the enclosing frame's top slot and stays there again when that slot is 0 |
| Correctness.PatchedWhileExits | main.cpp:163-178 | with the corrected lowering, a 0 condition always continues just past the loop, as does any condition of a loop without a body statement |
| Correctness.WhileSpinsForever | main.cpp:171-177 | with a body statement and a nonzero condition, the loop comes back to its start with the same registers and never halts |
| Correctness.EntryFrameMatchesAddressing | Interpreter/src/Interpreter.cpp:28-35 | in the frame `Run` builds, parameter i of N, read at the generator's offset -1-N+i, is argument i; the result slot at -2-N is slot 0, which `Run` reports |
| Correctness.ParameterAddressing | main.cpp:156-157 | below a 16-bit base, a parameter's offset addresses its slot directly |
| Correctness.ReturnAddressing | main.cpp:60-61 | the return slot of the entry frame is slot 0 |
| Generator.CodeGenerator.GenerateStatement | main.cpp:23-180 | the array, recorded jumps and error after compiling one statement are exactly `StatementCode`'s; the symbol table is untouched |
| Generator.CodeGenerator.GenerateDeclaration | main.cpp:29-51 | the same for a declaration |
| Generator.CodeGenerator.GenerateCall | main.cpp:53-97 | the same for `return`, `printNum` and user calls |
| Generator.CodeGenerator.GenerateOperator | main.cpp:120-144 | the same for operators |
| Generator.CodeGenerator.GenerateWhile | main.cpp:163-178 | the same for `while`, including the in-place patch of the jump-if-zero |
| Generator.CodeGenerator.GenerateStatements | main.cpp:238-242 | compiling a list in order, stopping at the first error, gives exactly `StatementsCode` |
| Generator.CodeGenerator.GenerateFunction | main.cpp:182-254 | the array, symbol table and error after compiling a function are exactly `FunctionCode`'s |
| Generator.CodeGenerator.CollectParameters | main.cpp:195-198 | the parameter loop builds `ParameterMap` |
| Generator.CodeGenerator.HoistLocals | main.cpp:200-236 | the hoisting loop appends `Hoist`'s prologue and returns its offsets and count |
| Generator.CodeGenerator.PatchReturns | main.cpp:244-248 | the patching loop leaves exactly `PatchReturnJumps` of the old array |
| Generator.CodeGenerator.EmitCleanup | main.cpp:250-253 | appends one `POP_INT` per local and then `RETURN` |
| Generator.CodeGenerator.EmitPops | main.cpp:92-94 | appends exactly n `POP_INT`s |

## Left out

- `main()` in main.cpp (main.cpp:256-307) is not modelled: file reading, the tokenizer and parser (not part of this model), and the debug printing.
- Interpreter/src/main.cpp is not modelled. It is a demo driver with a hard-coded program and holds no logic.
- `std::stoi` is not modelled. A literal node carries the integer its text denotes.
- Type tags other than `INT32` are collapsed into one tag, which emits nothing. There is no floating point.
- The console text of `PRINT_INT` is not modelled; printing appends the value to an output sequence.
- Error messages are error kinds, not text.
- The unresolved-name error reads `_parameters[0]._name` of the name node (main.cpp:160). That read is out of bounds for a node with no children. The model reports the unresolved name instead.
- The `p1` field of an instruction is always 0 and is not modelled.
- Interpreter.Run is bounded by a fuel parameter. The source loop has no bound, so a run that never stops shows up as `FuelExhausted` for every fuel (`InterpreterProperties.CycleNeverStops`).
- Undefined behaviour in the VM becomes a fault. This covers popping an empty stack, an index outside the stack, and an instruction pointer outside the program. The C++ behaviour in these cases is unspecified.
- Return-jump positions are `int16_t`. A position that wrapped to a negative value would index outside the array, so `CodeGen.PatchReturnJumps` skips it. The lemmas about recorded jumps and `FunctionLayout` assume arrays of at most 2^15 instructions, where no position wraps.
- The debug `assert` at main.cpp:215 is not modelled. It compares a literal initializer's type with the declaration's type.
- The order in which `main()` compiles functions (by name, through a `std::map`) is not modelled. Only single-function compilation against a given symbol table is.
- CodeGen.WellFormed: every `while` node must have a condition child. The C++ reads `_parameters[0]` of a `while` node unconditionally (main.cpp:165), which is undefined for a node without children; the model does not compile such a node.
- The stack balance of a whole compiled function is not proved, and so neither is the run-time stack effect of a call. A call statement of a value-returning function leaves its reserved slot on the callee's stack, so its `RETURN` can take that slot as the caller's base.
- CodeGenProperties.ExpressionNetEffect: a static count in which a `CALL` counts 0. This holds at run time only for a balanced callee, which the generator does not guarantee.
- CodeGenProperties.CallNetEffect: a static count that assumes the callee's `RETURN` pops exactly the saved base; not proved for the code the generator emits.
- CodeGenProperties.CallSequenceNetEffect: the same static count with a `CALL` taken as 0, assuming a balanced callee.
- Correctness.ExpressionCorrect: covers only call-free expressions (literals, variables, `+`, `<`). Calls are covered only by their layout and stack effect.
- Correctness.AssignmentCorrect: states the store only when the target slot lies inside the stack.
- InterpreterProperties.CallReturnRoundTrip: requires the caller's base below 2^15. `CALL` saves the base as a 16-bit value, so a larger base does not come back.
- The mapping from a raw opcode number to a handler is the opcode datatype. `Bytecode.OpcodeNumber` and `Bytecode.OpcodeOfNumber` keep the table's numbering, and the dispatch loop matches on the datatype.

## Findings

| source | as written | input that shows it | evidently intended | confidence | as-written member | corrected member |
|---|---|---|---|---|---|---|
| main.cpp:169-177 | the `JUMP_BY_IF_ZERO` of a `while` gets its distance only inside the body loop, so a loop without a body statement keeps distance 0 (`CodeGen.StatementCode`); on a 0 condition the jump lands on itself and pops the enclosing frame's slots until one is nonzero, or runs the stack empty | `while (0) {}`: a `while` node whose only child is the literal 0, run in a frame whose top slot is 0 | a 0 condition leaves the loop: the jump-if-zero lands just past the loop in every case (`CodeGen.PatchedWhileCode`) | high; not executed | Correctness.WhileWithoutBodyRepeats | Correctness.PatchedWhileExits |

The generator methods and the other lemmas keep the lowering as written,
because they model the code. The corrected lowering agrees with it on every
loop with a body statement and differs only in the jump-if-zero of a loop
without one (`CodeGenProperties.PatchedWhileLayout`).
