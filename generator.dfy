/**
 * The code generator as the C++ code runs it: the instruction array and the
 * function symbol table are state that the two generator routines append to,
 * patch by index and write into. Each method is proved to leave exactly the
 * state that the corresponding function of module CodeGen describes.
 */
module Generator {
  import opened Wrappers
  import opened Bytecode
  import opened CodeGen

  class CodeGenerator {
    var compiledCode: seq<Instruction>
    var functionToInstruction: map<string, CompiledFunction>

    constructor ()
      ensures compiledCode == [] && functionToInstruction == map[]
    {
      compiledCode, functionToInstruction := [], map[];
    }

    /** `generateCodeForStatement`: `returnJumps` is the caller's vector, returned updated. */
    method GenerateStatement(s: Statement, variableOffset: map<string, Int16>,
                             parameters: map<string, Parameter>, returnJumps: seq<Int16>)
      returns (jumps: seq<Int16>, error: Option<CompileError>)
      requires WellFormed(s)
      modifies this
      ensures functionToInstruction == old(functionToInstruction)
      ensures var p := StatementCode(s, Scope(variableOffset, parameters, old(functionToInstruction)),
                                     Emitted(old(compiledCode), returnJumps));
              compiledCode == p.out.code && jumps == p.out.returnJumps && error == p.Error()
      decreases s, 1
    {
      jumps, error := returnJumps, None;
      match s.kind {
        case VariableDeclaration =>
          jumps, error := GenerateDeclaration(s, variableOffset, parameters, returnJumps);
        case FunctionCall =>
          jumps, error := GenerateCall(s, variableOffset, parameters, returnJumps);
        case Literal =>
          if s.typ == Int32 {
            compiledCode := compiledCode + [Instruction(PushInt, Wrap16(s.literal))];
          }
        case OperatorCall =>
          jumps, error := GenerateOperator(s, variableOffset, parameters, returnJumps);
        case VariableName =>
          if s.name in variableOffset {
            compiledCode := compiledCode + [Instruction(LoadIntBasePointerRelative, variableOffset[s.name])];
          } else if s.name in parameters {
            compiledCode := compiledCode + [Instruction(LoadIntBasePointerRelative,
                                                        ParameterOffset(|parameters|, parameters[s.name].index))];
          } else {
            error := Some(UnknownVariable(s.name));
          }
        case WhileLoop =>
          jumps, error := GenerateWhile(s, variableOffset, parameters, returnJumps);
      }
    }

    /** The variable-declaration case: a non-literal initializer is stored into the hoisted slot. */
    method GenerateDeclaration(s: Statement, variableOffset: map<string, Int16>,
                               parameters: map<string, Parameter>, returnJumps: seq<Int16>)
      returns (jumps: seq<Int16>, error: Option<CompileError>)
      requires WellFormed(s) && s.kind == VariableDeclaration
      modifies this
      ensures functionToInstruction == old(functionToInstruction)
      ensures var p := StatementCode(s, Scope(variableOffset, parameters, old(functionToInstruction)),
                                     Emitted(old(compiledCode), returnJumps));
              compiledCode == p.out.code && jumps == p.out.returnJumps && error == p.Error()
      decreases s, 0
    {
      jumps, error := returnJumps, None;
      if s.typ == Int32 && |s.params| > 0 && s.params[0].kind != Literal {
        if s.name !in variableOffset {
          error := Some(UnknownVariable(s.name));
          return;
        }
        jumps, error := GenerateStatement(s.params[0], variableOffset, parameters, returnJumps);
        if error.Some? {
          return;
        }
        compiledCode := compiledCode + [Instruction(StoreIntBasePointerRelative, variableOffset[s.name])];
      }
    }

    /** The function-call case: `return`, `printNum`, or a call of a compiled function. */
    method GenerateCall(s: Statement, variableOffset: map<string, Int16>,
                        parameters: map<string, Parameter>, returnJumps: seq<Int16>)
      returns (jumps: seq<Int16>, error: Option<CompileError>)
      requires WellFormed(s) && s.kind == FunctionCall
      modifies this
      ensures functionToInstruction == old(functionToInstruction)
      ensures var p := StatementCode(s, Scope(variableOffset, parameters, old(functionToInstruction)),
                                     Emitted(old(compiledCode), returnJumps));
              compiledCode == p.out.code && jumps == p.out.returnJumps && error == p.Error()
      decreases s, 0
    {
      jumps, error := returnJumps, None;
      if s.name == "return" {
        if |s.params| != 1 {
          error := Some(ReturnArity);
          return;
        }
        jumps, error := GenerateStatement(s.params[0], variableOffset, parameters, returnJumps);
        if error.Some? {
          return;
        }
        compiledCode := compiledCode + [Instruction(StoreIntBasePointerRelative, ReturnSlotOffset(|parameters|))];
        jumps := jumps + [Wrap16(|compiledCode|)];
        compiledCode := compiledCode + [Instruction(JumpBy, 0)];
      } else if s.name == "printNum" {
        if |s.params| != 1 {
          error := Some(PrintNumArity);
          return;
        }
        jumps, error := GenerateStatement(s.params[0], variableOffset, parameters, returnJumps);
        if error.Some? {
          return;
        }
        compiledCode := compiledCode + [Instruction(PrintInt, 0)];
      } else {
        if s.name !in functionToInstruction {
          error := Some(UnknownFunction(s.name));
          return;
        }
        var foundFunction := functionToInstruction[s.name];
        if foundFunction.returnsValue {
          compiledCode := compiledCode + [Instruction(PushInt, 0)];
        }
        if foundFunction.numArguments != |s.params| {
          error := Some(ArgumentCountMismatch(s.name, foundFunction.numArguments, |s.params|));
          return;
        }
        jumps, error := GenerateStatements(s.params, variableOffset, parameters, returnJumps);
        if error.Some? {
          return;
        }
        var relativeJumpAddress := foundFunction.instructionOffset - |compiledCode|;
        compiledCode := compiledCode + [Instruction(Call, Wrap16(relativeJumpAddress))];
        EmitPops(|s.params|);
      }
    }

    /** The operator case: `+` and `<` compute, `=` assigns a local, any other name emits nothing. */
    method GenerateOperator(s: Statement, variableOffset: map<string, Int16>,
                            parameters: map<string, Parameter>, returnJumps: seq<Int16>)
      returns (jumps: seq<Int16>, error: Option<CompileError>)
      requires WellFormed(s) && s.kind == OperatorCall
      modifies this
      ensures functionToInstruction == old(functionToInstruction)
      ensures var p := StatementCode(s, Scope(variableOffset, parameters, old(functionToInstruction)),
                                     Emitted(old(compiledCode), returnJumps));
              compiledCode == p.out.code && jumps == p.out.returnJumps && error == p.Error()
      decreases s, 0
    {
      jumps, error := returnJumps, None;
      if |s.params| != 2 {
        error := Some(OperatorArity(s.name));
        return;
      }
      if s.name == "+" || s.name == "<" {
        var op := AddInt;
        if s.name == "<" {
          op := CompareIntLess;
        }
        jumps, error := GenerateStatements(s.params, variableOffset, parameters, returnJumps);
        if error.Some? {
          return;
        }
        compiledCode := compiledCode + [Instruction(op, 0)];
      } else if s.name == "=" {
        if s.params[0].name !in variableOffset {
          error := Some(UnknownVariable(s.params[0].name));
          return;
        }
        jumps, error := GenerateStatement(s.params[1], variableOffset, parameters, returnJumps);
        if error.Some? {
          return;
        }
        compiledCode := compiledCode + [Instruction(StoreIntBasePointerRelative, variableOffset[s.params[0].name])];
      }
    }

    /** The while case: condition, a forward jump-if-zero, and (with a body) the backward jump. */
    method GenerateWhile(s: Statement, variableOffset: map<string, Int16>,
                         parameters: map<string, Parameter>, returnJumps: seq<Int16>)
      returns (jumps: seq<Int16>, error: Option<CompileError>)
      requires WellFormed(s) && s.kind == WhileLoop
      modifies this
      ensures functionToInstruction == old(functionToInstruction)
      ensures var p := StatementCode(s, Scope(variableOffset, parameters, old(functionToInstruction)),
                                     Emitted(old(compiledCode), returnJumps));
              compiledCode == p.out.code && jumps == p.out.returnJumps && error == p.Error()
      decreases s, 0
    {
      var conditionOffset := |compiledCode|;
      jumps, error := GenerateStatement(s.params[0], variableOffset, parameters, returnJumps);
      if error.Some? {
        return;
      }
      var conditionFalseJumpInstructionOffset := |compiledCode|;
      compiledCode := compiledCode + [Instruction(JumpByIfZero, 0)];
      if |s.params| > 1 {
        compiledCode := compiledCode + [Instruction(JumpBy, Wrap16(conditionOffset - |compiledCode|))];
        compiledCode := compiledCode[conditionFalseJumpInstructionOffset :=
          Instruction(JumpByIfZero, Wrap16(|compiledCode| - conditionFalseJumpInstructionOffset))];
      }
    }

    /** The statements of `ss` compiled in order, stopping at the first one that fails. */
    method GenerateStatements(ss: seq<Statement>, variableOffset: map<string, Int16>,
                              parameters: map<string, Parameter>, returnJumps: seq<Int16>)
      returns (jumps: seq<Int16>, error: Option<CompileError>)
      requires AllWellFormed(ss)
      modifies this
      ensures functionToInstruction == old(functionToInstruction)
      ensures var p := StatementsCode(ss, Scope(variableOffset, parameters, old(functionToInstruction)),
                                      Emitted(old(compiledCode), returnJumps));
              compiledCode == p.out.code && jumps == p.out.returnJumps && error == p.Error()
      decreases ss, 2
    {
      ghost var sc := Scope(variableOffset, parameters, functionToInstruction);
      ghost var goal := StatementsCode(ss, sc, Emitted(compiledCode, returnJumps));
      jumps, error := returnJumps, None;
      var i := 0;
      while i < |ss|
        invariant 0 <= i <= |ss|
        invariant functionToInstruction == old(functionToInstruction)
        invariant StatementsCode(ss[i..], sc, Emitted(compiledCode, jumps)) == goal
        invariant error == None
      {
        assert ss[i..][0] == ss[i] && ss[i..][1..] == ss[i + 1..];
        jumps, error := GenerateStatement(ss[i], variableOffset, parameters, jumps);
        if error.Some? {
          return;
        }
        i := i + 1;
      }
    }

    /** `generateCodeForFunction`. */
    method GenerateFunction(f: FunctionDefinition) returns (error: Option<CompileError>)
      requires AllWellFormed(f.statements)
      modifies this
      ensures FunctionCode(f, old(compiledCode), old(functionToInstruction))
              == Compilation(compiledCode, functionToInstruction, error)
    {
      functionToInstruction := functionToInstruction[f.name :=
        CompiledFunction(|compiledCode|, |f.parameters|, f.returnsValue)];
      var parameters := CollectParameters(f.parameters);
      var variableOffsets, numIntVariable := HoistLocals(f.statements);

      var returnCndJumpInstructions;
      returnCndJumpInstructions, error := GenerateStatements(f.statements, variableOffsets, parameters, []);
      if error.Some? {
        return;
      }
      PatchReturns(returnCndJumpInstructions, |compiledCode|);
      EmitCleanup(numIntVariable);
    }

    /** The parameter loop: each name mapped to its ordinal. */
    static method CollectParameters(names: seq<string>) returns (parameters: map<string, Parameter>)
      ensures parameters == ParameterMap(names)
    {
      parameters := map[];
      var paramIdx := 0;
      while paramIdx < |names|
        invariant 0 <= paramIdx <= |names|
        invariant parameters == ParameterMap(names[..paramIdx])
      {
        assert names[..paramIdx + 1][..paramIdx] == names[..paramIdx];
        parameters := parameters[names[paramIdx] := Parameter(names[paramIdx], paramIdx)];
        paramIdx := paramIdx + 1;
      }
      assert names[..paramIdx] == names;
    }

    /**
     * The hoisting loop: a slot for each top-level `int` declaration, pushed
     * with its literal initializer or 0.
     */
    method HoistLocals(statements: seq<Statement>) returns (variableOffsets: map<string, Int16>, numIntVariable: nat)
      modifies this
      ensures Hoist(statements) == Frame(variableOffsets, numIntVariable, Hoist(statements).prologue)
      ensures compiledCode == old(compiledCode) + Hoist(statements).prologue
      ensures functionToInstruction == old(functionToInstruction)
    {
      numIntVariable, variableOffsets := 0, map[];
      var i := 0;
      while i < |statements|
        invariant 0 <= i <= |statements|
        invariant |old(compiledCode)| <= |compiledCode| && compiledCode[..|old(compiledCode)|] == old(compiledCode)
        invariant Hoist(statements[..i]) == Frame(variableOffsets, numIntVariable, compiledCode[|old(compiledCode)|..])
        invariant functionToInstruction == old(functionToInstruction)
      {
        assert statements[..i + 1][..i] == statements[..i];
        var currStatement := statements[i];
        if currStatement.kind == VariableDeclaration && currStatement.typ == Int32 {
          var initialValue := 0;
          if |currStatement.params| > 0 && currStatement.params[0].kind == Literal {
            initialValue := currStatement.params[0].literal;
          }
          variableOffsets := variableOffsets[currStatement.name := Wrap16(numIntVariable)];
          numIntVariable := numIntVariable + 1;
          compiledCode := compiledCode + [Instruction(PushInt, Wrap16(initialValue))];
        }
        i := i + 1;
      }
      assert statements[..i] == statements;
      assert compiledCode == old(compiledCode) + compiledCode[|old(compiledCode)|..];
    }

    /** The patching loop: each recorded `return` jump gets the distance to `cleanupCodeOffset`. */
    method PatchReturns(jumps: seq<Int16>, cleanupCodeOffset: nat)
      modifies this
      ensures compiledCode == PatchReturnJumps(old(compiledCode), jumps, cleanupCodeOffset)
      ensures functionToInstruction == old(functionToInstruction)
    {
      var j := 0;
      while j < |jumps|
        invariant 0 <= j <= |jumps|
        invariant compiledCode == PatchReturnJumps(old(compiledCode), jumps[..j], cleanupCodeOffset)
        invariant functionToInstruction == old(functionToInstruction)
      {
        assert jumps[..j + 1][..j] == jumps[..j];
        var returnCmdJumpInstructionIdx := jumps[j];
        if 0 <= returnCmdJumpInstructionIdx < |compiledCode| {
          compiledCode := compiledCode[returnCmdJumpInstructionIdx :=
            compiledCode[returnCmdJumpInstructionIdx].(p2 := Wrap16(cleanupCodeOffset - returnCmdJumpInstructionIdx))];
        }
        j := j + 1;
      }
      assert jumps[..j] == jumps;
    }

    /** The epilogue: one `POP_INT` per local, then `RETURN`. */
    method EmitCleanup(numIntVariable: nat)
      modifies this
      ensures compiledCode == old(compiledCode) + PopInts(numIntVariable) + [Instruction(Return, 0)]
      ensures functionToInstruction == old(functionToInstruction)
    {
      EmitPops(numIntVariable);
      compiledCode := compiledCode + [Instruction(Return, 0)];
    }

    /** `count` times `POP_INT`: after a call, one per argument; in the epilogue, one per local. */
    method EmitPops(count: nat)
      modifies this
      ensures compiledCode == old(compiledCode) + PopInts(count)
      ensures functionToInstruction == old(functionToInstruction)
    {
      var x := 0;
      while x < count
        invariant 0 <= x <= count
        invariant compiledCode == old(compiledCode) + PopInts(x)
        invariant functionToInstruction == old(functionToInstruction)
      {
        assert PopInts(x + 1) == PopInts(x) + [Instruction(PopInt, 0)];
        compiledCode := compiledCode + [Instruction(PopInt, 0)];
        x := x + 1;
      }
    }
  }
}
