/**
 * The code generator of main.cpp (`generateCodeForStatement` and
 * `generateCodeForFunction`) as functions over values.
 *
 * The parser's statement node keeps its shape: a kind, a name, a type tag
 * and an ordered list of child nodes. A literal node carries the integer its
 * text denotes. A failed compilation keeps the code emitted up to the point
 * where the C++ code throws, together with the kind of error.
 */
module CodeGen {
  import opened Wrappers
  import opened Bytecode

  /** Only 32-bit integers produce code; every other type tag is a no-op. */
  datatype TypeTag = Int32 | OtherType

  datatype StatementKind =
    | VariableDeclaration
    | FunctionCall
    | Literal
    | OperatorCall
    | VariableName
    | WhileLoop

  datatype Statement = Statement(
    kind: StatementKind,
    name: string,
    typ: TypeTag,
    params: seq<Statement>,
    literal: int)

  datatype FunctionDefinition = FunctionDefinition(
    name: string,
    parameters: seq<string>,
    returnsValue: bool,
    statements: seq<Statement>)

  datatype Parameter = Parameter(name: string, index: nat)

  /** A symbol-table entry: where the function starts, its arity and whether it returns a value. */
  datatype CompiledFunction = CompiledFunction(instructionOffset: nat, numArguments: nat, returnsValue: bool)

  datatype CompileError =
    | UnknownVariable(name: string)
    | UnknownFunction(name: string)
    | ArgumentCountMismatch(name: string, expected: nat, received: nat)
    | ReturnArity
    | PrintNumArity
    | OperatorArity(name: string)

  /** What one statement is compiled against: local offsets, parameters and the symbol table. */
  datatype Scope = Scope(
    variableOffset: map<string, Int16>,
    parameters: map<string, Parameter>,
    functions: map<string, CompiledFunction>)

  /** The instruction array and the positions of the `return` jumps still to be patched. */
  datatype Emitted = Emitted(code: seq<Instruction>, returnJumps: seq<Int16>)

  datatype Progress = Done(out: Emitted) | Failed(out: Emitted, error: CompileError)
  {
    /** The error raised, if any. */
    function Error(): Option<CompileError>
    {
      if Failed? then Some(error) else None
    }
  }

  /** The result of compiling one function definition. */
  datatype Compilation = Compilation(
    code: seq<Instruction>,
    functions: map<string, CompiledFunction>,
    error: Option<CompileError>)

  /** Every `while` node has a condition (the C++ code reads its first child unconditionally). */
  predicate WellFormed(s: Statement)
  {
    (s.kind == WhileLoop ==> |s.params| >= 1) &&
    forall t <- s.params :: WellFormed(t)
  }

  predicate AllWellFormed(ss: seq<Statement>)
  {
    forall t <- ss :: WellFormed(t)
  }

  function Emit(e: Emitted, instr: Instruction): Emitted
  {
    e.(code := e.code + [instr])
  }

  function PopInts(n: nat): seq<Instruction>
  {
    seq(n, _ => Instruction(PopInt, 0))
  }

  /** The base offset `return` stores into, for a function with `numParams` parameters. */
  function ReturnSlotOffset(numParams: nat): Int16
  {
    Wrap16(-2 - numParams)
  }

  /** The base offset of the parameter with ordinal `index`. */
  function ParameterOffset(numParams: nat, index: nat): Int16
  {
    Wrap16(-1 - numParams + index)
  }

  /** `generateCodeForStatement`. */
  function StatementCode(s: Statement, sc: Scope, st: Emitted): Progress
    requires WellFormed(s)
    decreases s
  {
    match s.kind
    case VariableDeclaration =>
      if s.typ == Int32 && |s.params| > 0 && s.params[0].kind != Literal then
        if s.name !in sc.variableOffset then Failed(st, UnknownVariable(s.name))
        else
          var init := StatementCode(s.params[0], sc, st);
          if init.Failed? then init
          else Done(Emit(init.out, Instruction(StoreIntBasePointerRelative, sc.variableOffset[s.name])))
      else Done(st)

    case FunctionCall =>
      if s.name == "return" then
        if |s.params| != 1 then Failed(st, ReturnArity)
        else
          var value := StatementCode(s.params[0], sc, st);
          if value.Failed? then value
          else
            var stored := Emit(value.out, Instruction(StoreIntBasePointerRelative, ReturnSlotOffset(|sc.parameters|)));
            Done(Emitted(stored.code + [Instruction(JumpBy, 0)], stored.returnJumps + [Wrap16(|stored.code|)]))
      else if s.name == "printNum" then
        if |s.params| != 1 then Failed(st, PrintNumArity)
        else
          var value := StatementCode(s.params[0], sc, st);
          if value.Failed? then value
          else Done(Emit(value.out, Instruction(PrintInt, 0)))
      else if s.name !in sc.functions then Failed(st, UnknownFunction(s.name))
      else
        var callee := sc.functions[s.name];
        var reserved := if callee.returnsValue then Emit(st, Instruction(PushInt, 0)) else st;
        if callee.numArguments != |s.params| then
          Failed(reserved, ArgumentCountMismatch(s.name, callee.numArguments, |s.params|))
        else
          var args := StatementsCode(s.params, sc, reserved);
          if args.Failed? then args
          else
            var k := |args.out.code|;
            Done(args.out.(code := args.out.code + [Instruction(Call, Wrap16(callee.instructionOffset - k))]
                                   + PopInts(|s.params|)))

    case Literal =>
      if s.typ == Int32 then Done(Emit(st, Instruction(PushInt, Wrap16(s.literal))))
      else Done(st)

    case OperatorCall =>
      if |s.params| != 2 then Failed(st, OperatorArity(s.name))
      else if s.name == "+" || s.name == "<" then
        var operands := StatementsCode(s.params, sc, st);
        if operands.Failed? then operands
        else Done(Emit(operands.out, Instruction(if s.name == "<" then CompareIntLess else AddInt, 0)))
      else if s.name == "=" then
        if s.params[0].name !in sc.variableOffset then Failed(st, UnknownVariable(s.params[0].name))
        else
          var value := StatementCode(s.params[1], sc, st);
          if value.Failed? then value
          else Done(Emit(value.out, Instruction(StoreIntBasePointerRelative, sc.variableOffset[s.params[0].name])))
      else Done(st)

    case VariableName =>
      if s.name in sc.variableOffset then
        Done(Emit(st, Instruction(LoadIntBasePointerRelative, sc.variableOffset[s.name])))
      else if s.name in sc.parameters then
        Done(Emit(st, Instruction(LoadIntBasePointerRelative,
                                  ParameterOffset(|sc.parameters|, sc.parameters[s.name].index))))
      else Failed(st, UnknownVariable(s.name))

    case WhileLoop =>
      var conditionOffset := |st.code|;
      var condition := StatementCode(s.params[0], sc, st);
      if condition.Failed? then condition
      else
        var jumpIfZero := |condition.out.code|;
        var guarded := Emit(condition.out, Instruction(JumpByIfZero, 0));
        if |s.params| == 1 then Done(guarded)
        else
          var looped := Emit(guarded, Instruction(JumpBy, Wrap16(conditionOffset - |guarded.code|)));
          Done(looped.(code := looped.code[jumpIfZero := Instruction(JumpByIfZero, Wrap16(|looped.code| - jumpIfZero))]))
  }

  /**
   * The `while` lowering with its jump-if-zero always patched to land just
   * past the loop. `StatementCode` patches it only when the loop has a body
   * statement; without one the jump keeps the distance 0.
   */
  function PatchedWhileCode(s: Statement, sc: Scope, st: Emitted): Progress
    requires WellFormed(s) && s.kind == WhileLoop
  {
    var condition := StatementCode(s.params[0], sc, st);
    if condition.Failed? then condition
    else
      var jumpIfZero := |condition.out.code|;
      var guarded := Emit(condition.out, Instruction(JumpByIfZero, 0));
      var looped := if |s.params| == 1 then guarded
                    else Emit(guarded, Instruction(JumpBy, Wrap16(|st.code| - |guarded.code|)));
      Done(looped.(code := looped.code[jumpIfZero := Instruction(JumpByIfZero, Wrap16(|looped.code| - jumpIfZero))]))
  }

  /** The statements compiled in order, stopping at the first error. */
  function StatementsCode(ss: seq<Statement>, sc: Scope, st: Emitted): Progress
    requires AllWellFormed(ss)
    decreases ss
  {
    if ss == [] then Done(st)
    else
      var first := StatementCode(ss[0], sc, st);
      if first.Failed? then first
      else StatementsCode(ss[1..], sc, first.out)
  }

  /** The parameter map: each name to its ordinal; a repeated name keeps its last ordinal. */
  function ParameterMap(names: seq<string>): map<string, Parameter>
  {
    if names == [] then map[]
    else
      var last := |names| - 1;
      ParameterMap(names[..last])[names[last] := Parameter(names[last], last)]
  }

  /** Whether `s` is a top-level declaration the hoisting pass reserves a slot for. */
  predicate IsIntDeclaration(s: Statement)
  {
    s.kind == VariableDeclaration && s.typ == Int32
  }

  /** The value a hoisted local starts with: its literal initializer, else 0. */
  function InitialValue(s: Statement): int
  {
    if |s.params| > 0 && s.params[0].kind == Literal then s.params[0].literal else 0
  }

  /** The locals, their count and the prologue the hoisting pass produces. */
  datatype Frame = Frame(variableOffsets: map<string, Int16>, numIntVariable: nat, prologue: seq<Instruction>)

  function Hoist(stmts: seq<Statement>): Frame
  {
    if stmts == [] then Frame(map[], 0, [])
    else
      var f := Hoist(stmts[..|stmts| - 1]);
      var s := stmts[|stmts| - 1];
      if IsIntDeclaration(s) then
        Frame(f.variableOffsets[s.name := Wrap16(f.numIntVariable)],
              f.numIntVariable + 1,
              f.prologue + [Instruction(PushInt, Wrap16(InitialValue(s)))])
      else f
  }

  /**
   * Sets the operand of each recorded `return` jump to the distance to
   * `cleanup`. A recorded position is an `int16_t`; one that wrapped to a
   * negative value indexes outside the array, which the C++ code leaves
   * undefined, and is skipped here.
   */
  function PatchReturnJumps(code: seq<Instruction>, jumps: seq<Int16>, cleanup: nat): (r: seq<Instruction>)
    ensures |r| == |code|
  {
    if jumps == [] then code
    else
      var c := PatchReturnJumps(code, jumps[..|jumps| - 1], cleanup);
      var j := jumps[|jumps| - 1];
      if 0 <= j < |c| then c[j := c[j].(p2 := Wrap16(cleanup - j))] else c
  }

  /** `generateCodeForFunction`. */
  function FunctionCode(f: FunctionDefinition, code: seq<Instruction>, functions: map<string, CompiledFunction>): Compilation
    requires AllWellFormed(f.statements)
  {
    var table := functions[f.name := CompiledFunction(|code|, |f.parameters|, f.returnsValue)];
    var frame := Hoist(f.statements);
    var sc := Scope(frame.variableOffsets, ParameterMap(f.parameters), table);
    var body := StatementsCode(f.statements, sc, Emitted(code + frame.prologue, []));
    if body.Failed? then Compilation(body.out.code, table, Some(body.error))
    else
      var cleanupCodeOffset := |body.out.code|;
      var patched := PatchReturnJumps(body.out.code, body.out.returnJumps, cleanupCodeOffset);
      Compilation(patched + PopInts(frame.numIntVariable) + [Instruction(Return, 0)], table, None)
  }
}
