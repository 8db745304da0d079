/**
 * The code generator and the virtual machine together: compiled
 * arithmetic expressions, when run, push the value they denote; an
 * assignment and `printNum` do what they say; the frame `Run` builds is the
 * one the generator's addressing assumes; and a `while` loop with a body
 * statement, as the generator lowers it, either leaves at once or repeats
 * its condition forever, while one without a body statement and with a 0
 * condition keeps re-running its own jump-if-zero.
 */
module Correctness {
  import opened Wrappers
  import opened Bytecode
  import opened CodeGen
  import opened Interpreter
  import opened InterpreterProperties
  import opened CodeGenProperties

  /** Expressions without calls: integer literals, variables, `+` and `<`. */
  predicate IsArithmetic(s: Statement)
  {
    match s.kind
    case Literal => s.typ == Int32
    case VariableName => true
    case OperatorCall =>
      |s.params| == 2 && (s.name == "+" || s.name == "<")
      && IsArithmetic(s.params[0]) && IsArithmetic(s.params[1])
    case VariableDeclaration => false
    case FunctionCall => false
    case WhileLoop => false
  }

  /** The base offset a variable name resolves to: a local first, then a parameter. */
  function Resolve(name: string, sc: Scope): Option<Int16>
  {
    if name in sc.variableOffset then Some(sc.variableOffset[name])
    else if name in sc.parameters then Some(ParameterOffset(|sc.parameters|, sc.parameters[name].index))
    else None
  }

  /**
   * The value of an expression in a frame: 16-bit wrapping addition, `<` as
   * 1 or 0, and variables read from their base-relative slot. `None` when a
   * name does not resolve or its slot is outside the stack.
   */
  function Eval(s: Statement, sc: Scope, r: Regs): Option<Int16>
    requires IsArithmetic(s)
  {
    match s.kind
    case Literal => Some(Wrap16(s.literal))
    case VariableName =>
      (match Resolve(s.name, sc)
       case None => None
       case Some(offset) =>
         if SlotIndex(r.baseIdx, offset) < |r.stack| then Some(r.stack[SlotIndex(r.baseIdx, offset)]) else None)
    case OperatorCall =>
      var a := Eval(s.params[0], sc, r);
      var b := Eval(s.params[1], sc, r);
      if a.None? || b.None? then None
      else if s.name == "<" then Some(if a.value < b.value then 1 else 0)
      else Some(Wrap16(a.value as int + b.value))
  }

  /** Pushing values above the slots an expression reads does not change its value. */
  lemma {:induction false} EvalStable(s: Statement, sc: Scope, r: Regs, r': Regs)
    requires IsArithmetic(s) && Eval(s, sc, r).Some?
    requires r'.baseIdx == r.baseIdx && r.stack <= r'.stack
    ensures Eval(s, sc, r') == Eval(s, sc, r)
  {
    if s.kind == OperatorCall {
      EvalStable(s.params[0], sc, r, r');
      EvalStable(s.params[1], sc, r, r');
    }
  }

  /** `code` holds `out` from position `from` to the end of `out`. */
  ghost predicate CodeAt(code: seq<Instruction>, out: seq<Instruction>, from: nat)
  {
    |out| <= |code| && forall i :: from <= i < |out| ==> code[i] == out[i]
  }

  /** What `ADD_INT` or `COMPARE_INT_LESS` leaves in place of its operands. */
  function BinaryValue(op: Opcode, a: Int16, b: Int16): Int16
  {
    if op == AddInt then Wrap16(a as int + b) else if a < b then 1 else 0
  }

  // One dispatch of each instruction the expression and statement code uses,
  // from position `pc`; `stop` is the position just after it.

  lemma BinaryStep(code: seq<Instruction>, r: Regs, pc: nat, stop: nat, below: seq<Int16>, a: Int16, b: Int16)
    requires r.ip == Some(pc) && pc < |code| && stop == pc + 1 && r.stack == below + [a] + [b]
    requires code[pc].op == AddInt || code[pc].op == CompareIntLess
    ensures Steps(code, r, 1) == Next(r.(stack := below + [BinaryValue(code[pc].op, a, b)], ip := Some(stop)))
  {
    StepsOne(code, r);
    assert r.stack[..|r.stack| - 2] == below;
    assert r.stack[|r.stack| - 2] == a;
  }

  lemma StoreStep(code: seq<Instruction>, r: Regs, pc: nat, stop: nat, below: seq<Int16>, v: Int16)
    requires r.ip == Some(pc) && pc < |code| && stop == pc + 1 && r.stack == below + [v]
    requires code[pc].op == StoreIntBasePointerRelative && SlotIndex(r.baseIdx, code[pc].p2) < |below|
    ensures Steps(code, r, 1) == Next(r.(stack := below[SlotIndex(r.baseIdx, code[pc].p2) := v], ip := Some(stop)))
  {
    StepsOne(code, r);
    assert r.stack[SlotIndex(r.baseIdx, code[pc].p2) := v][..|below|] == below[SlotIndex(r.baseIdx, code[pc].p2) := v];
  }

  lemma PrintStep(code: seq<Instruction>, r: Regs, pc: nat, stop: nat, below: seq<Int16>, v: Int16)
    requires r.ip == Some(pc) && pc < |code| && stop == pc + 1 && r.stack == below + [v]
    requires code[pc].op == PrintInt
    ensures Steps(code, r, 1) == Next(r.(stack := below, output := r.output + [v], ip := Some(stop)))
  {
    StepsOne(code, r);
    assert r.stack[..|below|] == below;
  }

  lemma JumpIfZeroStep(code: seq<Instruction>, r: Regs, pc: nat, stop: nat, below: seq<Int16>, v: Int16)
    requires r.ip == Some(pc) && pc < |code| && stop == pc + 1 && r.stack == below + [v]
    requires code[pc].op == JumpByIfZero
    ensures Steps(code, r, 1) == Next(r.(stack := below, ip := Some(if v == 0 then pc + code[pc].p2 else stop)))
  {
    StepsOne(code, r);
    assert r.stack[..|below|] == below;
  }

  lemma JumpStep(code: seq<Instruction>, r: Regs, pc: nat)
    requires r.ip == Some(pc) && pc < |code| && code[pc].op == JumpBy
    ensures Steps(code, r, 1) == Next(r.(ip := Some(pc + code[pc].p2)))
  {
    StepsOne(code, r);
  }

  // Runs measured by positions: the run from `start` to `at` is `at - start` dispatches.

  /** A run up to `at`, then one more dispatch. */
  lemma StepsThen(code: seq<Instruction>, r: Regs, mid: Regs, after: Regs, start: nat, at: nat, stop: nat)
    requires start <= at && stop == at + 1
    requires Steps(code, r, at - start) == Next(mid) && Steps(code, mid, 1) == Next(after)
    ensures Steps(code, r, stop - start) == Next(after)
  {
    StepsAppend(code, r, at - start, 1);
  }

  /** A run from `start` to `mid`, then one from `mid` to `end`. */
  lemma StepsChain(code: seq<Instruction>, r: Regs, r1: Regs, r2: Regs, start: nat, mid: nat, end: nat)
    requires start <= mid <= end
    requires Steps(code, r, mid - start) == Next(r1) && Steps(code, r1, end - mid) == Next(r2)
    ensures Steps(code, r, end - start) == Next(r2)
  {
    StepsAppend(code, r, mid - start, end - mid);
  }

  /** The two operands of `+` or `<` are compiled one after the other, then the operator. */
  lemma OperandsLayout(s: Statement, sc: Scope, st: Emitted) returns (first: Progress, second: Progress)
    requires WellFormed(s) && s.kind == OperatorCall && |s.params| == 2 && (s.name == "+" || s.name == "<")
    requires StatementCode(s, sc, st).Done?
    ensures first == StatementCode(s.params[0], sc, st) && first.Done?
    ensures second == StatementCode(s.params[1], sc, first.out) && second.Done?
    ensures st.code <= first.out.code <= second.out.code
    ensures StatementCode(s, sc, st).out.code
            == second.out.code + [Instruction(if s.name == "<" then CompareIntLess else AddInt, 0)]
  {
    var left, right := s.params[0], s.params[1];
    first := StatementCode(left, sc, st);
    assert s.params[1..] == [right] && s.params[1..][1..] == [];
    assert StatementsCode(s.params, sc, st)
        == if first.Failed? then first else StatementsCode(s.params[1..], sc, first.out);
    second := StatementCode(right, sc, first.out);
    if first.Done? {
      assert StatementsCode([right], sc, first.out)
          == if second.Failed? then second else StatementsCode([], sc, second.out);
      StatementCodeExtends(left, sc, st);
      StatementCodeExtends(right, sc, first.out);
    }
  }

  /**
   * A compiled arithmetic expression, run from its first instruction,
   * executes each of its instructions once and ends just past them (at
   * `end`) with the expression's value pushed and nothing else changed.
   */
  lemma {:induction false} ExpressionCorrect(s: Statement, sc: Scope, st: Emitted, code: seq<Instruction>, r: Regs)
    returns (end: nat)
    requires WellFormed(s) && IsArithmetic(s) && StatementCode(s, sc, st).Done?
    requires CodeAt(code, StatementCode(s, sc, st).out.code, |st.code|)
    requires r.ip == Some(|st.code|) && Eval(s, sc, r).Some?
    ensures end == |StatementCode(s, sc, st).out.code| && |st.code| <= end
    ensures Steps(code, r, end - |st.code|) == Next(r.(stack := r.stack + [Eval(s, sc, r).value], ip := Some(end)))
    decreases s, 2
  {
    StatementCodeExtends(s, sc, st);
    end := |StatementCode(s, sc, st).out.code|;
    var pc := |st.code|;
    match s.kind
    case Literal =>
      assert code[pc] == Instruction(PushInt, Wrap16(s.literal));
      StepsOne(code, r);
    case VariableName =>
      assert code[pc] == Instruction(LoadIntBasePointerRelative, Resolve(s.name, sc).value);
      StepsOne(code, r);
    case OperatorCall =>
      end := OperatorCorrect(s, sc, st, code, r);
  }

  lemma {:induction false} OperatorCorrect(s: Statement, sc: Scope, st: Emitted, code: seq<Instruction>, r: Regs)
    returns (end: nat)
    requires WellFormed(s) && IsArithmetic(s) && s.kind == OperatorCall && StatementCode(s, sc, st).Done?
    requires CodeAt(code, StatementCode(s, sc, st).out.code, |st.code|)
    requires r.ip == Some(|st.code|) && Eval(s, sc, r).Some?
    ensures end == |StatementCode(s, sc, st).out.code| && |st.code| <= end
    ensures Steps(code, r, end - |st.code|) == Next(r.(stack := r.stack + [Eval(s, sc, r).value], ip := Some(end)))
    decreases s, 1
  {
    var out := StatementCode(s, sc, st).out;
    var first, second := OperandsLayout(s, sc, st);
    var start, e1, e2 := |st.code|, |first.out.code|, |second.out.code|;
    var a, b := Eval(s.params[0], sc, r).value, Eval(s.params[1], sc, r).value;
    var r1 := r.(stack := r.stack + [a], ip := Some(e1));
    var r2 := r1.(stack := r1.stack + [b], ip := Some(e2));
    OperatorAt(code, out.code, second.out.code, start, if s.name == "<" then CompareIntLess else AddInt);
    CodeAtPrefix(code, out.code, second.out.code, start, start);
    OperandsRun(s, sc, st, code, r, first, second);
    OperatorValue(s, sc, r, a, b);
    end := e2 + 1;
    BinaryRun(code, r, r1, r2, a, b, start, e1, e2, end);
  }

  /** The two operands' code, run one after the other, pushes their two values. */
  lemma {:induction false} OperandsRun(s: Statement, sc: Scope, st: Emitted, code: seq<Instruction>, r: Regs,
                                       first: Progress, second: Progress)
    requires WellFormed(s) && IsArithmetic(s) && s.kind == OperatorCall && Eval(s, sc, r).Some?
    requires first == StatementCode(s.params[0], sc, st) && first.Done?
    requires second == StatementCode(s.params[1], sc, first.out) && second.Done?
    requires st.code <= first.out.code <= second.out.code
    requires CodeAt(code, second.out.code, |st.code|) && r.ip == Some(|st.code|)
    ensures var r1 := r.(stack := r.stack + [Eval(s.params[0], sc, r).value], ip := Some(|first.out.code|));
            && Steps(code, r, |first.out.code| - |st.code|) == Next(r1)
            && Steps(code, r1, |second.out.code| - |first.out.code|)
               == Next(r1.(stack := r1.stack + [Eval(s.params[1], sc, r).value], ip := Some(|second.out.code|)))
    decreases s, 0
  {
    var r1 := r.(stack := r.stack + [Eval(s.params[0], sc, r).value], ip := Some(|first.out.code|));
    CodeAtPrefix(code, second.out.code, first.out.code, |st.code|, |st.code|);
    var x := ExpressionCorrect(s.params[0], sc, st, code, r);
    CodeAtPrefix(code, second.out.code, second.out.code, |st.code|, |first.out.code|);
    EvalStable(s.params[1], sc, r, r1);
    var y := ExpressionCorrect(s.params[1], sc, first.out, code, r1);
  }

  /** The value of `+` or `<` from the values of its operands. */
  lemma OperatorValue(s: Statement, sc: Scope, r: Regs, a: Int16, b: Int16)
    requires IsArithmetic(s) && s.kind == OperatorCall
    requires Eval(s.params[0], sc, r) == Some(a) && Eval(s.params[1], sc, r) == Some(b)
    ensures Eval(s, sc, r) == Some(BinaryValue(if s.name == "<" then CompareIntLess else AddInt, a, b))
  {
  }

  /** The instruction after both operands' code is the operator's. */
  lemma OperatorAt(code: seq<Instruction>, out: seq<Instruction>, operands: seq<Instruction>, start: nat, op: Opcode)
    requires CodeAt(code, out, start) && out == operands + [Instruction(op, 0)] && start <= |operands|
    ensures |operands| < |code| && code[|operands|].op == op
  {
    assert out[|operands|] == Instruction(op, 0);
  }

  /** `code` holding `out` from `start` on holds every prefix of `out` from any later position. */
  lemma CodeAtPrefix(code: seq<Instruction>, out: seq<Instruction>, prefix: seq<Instruction>, start: nat, from: nat)
    requires prefix <= out && CodeAt(code, out, start) && start <= from
    ensures CodeAt(code, prefix, from)
  {
    forall i | from <= i < |prefix|
      ensures code[i] == prefix[i]
    {
      assert prefix[i] == out[i];
    }
  }

  /**
   * Running two operand codes that push `a` then `b`, then the operator
   * after them, leaves the operator's result in place of both.
   */
  lemma BinaryRun(code: seq<Instruction>, r: Regs, r1: Regs, r2: Regs, a: Int16, b: Int16,
                  start: nat, e1: nat, e2: nat, stop: nat)
    requires r.ip == Some(start) && start <= e1 <= e2 < |code| && stop == e2 + 1
    requires code[e2].op == AddInt || code[e2].op == CompareIntLess
    requires r1 == r.(stack := r.stack + [a], ip := Some(e1))
    requires r2 == r1.(stack := r1.stack + [b], ip := Some(e2))
    requires Steps(code, r, e1 - start) == Next(r1) && Steps(code, r1, e2 - e1) == Next(r2)
    ensures Steps(code, r, stop - start)
            == Next(r.(stack := r.stack + [BinaryValue(code[e2].op, a, b)], ip := Some(stop)))
  {
    var after := r.(stack := r.stack + [BinaryValue(code[e2].op, a, b)], ip := Some(stop));
    OperandsPushed(r, r1, a, b, e1, e2, stop, BinaryValue(code[e2].op, a, b));
    StepsChain(code, r, r1, r2, start, e1, e2);
    BinaryStep(code, r2, e2, stop, r.stack, a, b);
    StepsThen(code, r, r2, after, start, e2, stop);
  }

  /** The registers after pushing `a` and then `b`, and after replacing both by `x`. */
  lemma OperandsPushed(r: Regs, r1: Regs, a: Int16, b: Int16, e1: nat, e2: nat, stop: nat, x: Int16)
    requires r1 == r.(stack := r.stack + [a], ip := Some(e1))
    ensures r1.(stack := r1.stack + [b], ip := Some(e2)).(stack := r.stack + [x], ip := Some(stop))
            == r.(stack := r.stack + [x], ip := Some(stop))
  {
  }

  /** Running value code that pushes `v`, then the `STORE_INT_BASE_POINTER_RELATIVE` after it. */
  lemma StoreRun(code: seq<Instruction>, r: Regs, v: Int16, start: nat, end: nat, stop: nat)
    requires r.ip == Some(start) && start <= end < |code| && stop == end + 1
    requires code[end].op == StoreIntBasePointerRelative
    requires Steps(code, r, end - start) == Next(r.(stack := r.stack + [v], ip := Some(end)))
    requires SlotIndex(r.baseIdx, code[end].p2) < |r.stack|
    ensures Steps(code, r, stop - start)
            == Next(r.(stack := r.stack[SlotIndex(r.baseIdx, code[end].p2) := v], ip := Some(stop)))
  {
    var mid := r.(stack := r.stack + [v], ip := Some(end));
    var after := r.(stack := r.stack[SlotIndex(r.baseIdx, code[end].p2) := v], ip := Some(stop));
    StoreStep(code, mid, end, stop, r.stack, v);
    assert mid.(stack := r.stack[SlotIndex(mid.baseIdx, code[end].p2) := v], ip := Some(stop)) == after;
    StepsThen(code, r, mid, after, start, end, stop);
  }

  /** Running value code that pushes `v`, then the `PRINT_INT` after it. */
  lemma PrintRun(code: seq<Instruction>, r: Regs, v: Int16, start: nat, end: nat, stop: nat)
    requires r.ip == Some(start) && start <= end < |code| && stop == end + 1 && code[end].op == PrintInt
    requires Steps(code, r, end - start) == Next(r.(stack := r.stack + [v], ip := Some(end)))
    ensures Steps(code, r, stop - start) == Next(r.(output := r.output + [v], ip := Some(stop)))
  {
    var mid := r.(stack := r.stack + [v], ip := Some(end));
    var after := r.(output := r.output + [v], ip := Some(stop));
    PrintStep(code, mid, end, stop, r.stack, v);
    assert mid.(stack := r.stack, output := mid.output + [v], ip := Some(stop)) == after;
    StepsThen(code, r, mid, after, start, end, stop);
  }

  /**
   * Running a condition that pushes `v`, then the jump-if-zero after it:
   * the value is popped and the machine goes on at `exit`.
   */
  lemma ConditionRun(code: seq<Instruction>, r: Regs, v: Int16, start: nat, jz: nat, stop: nat, exit: int)
    requires r.ip == Some(start) && start <= jz < |code| && stop == jz + 1 && code[jz].op == JumpByIfZero
    requires Steps(code, r, jz - start) == Next(r.(stack := r.stack + [v], ip := Some(jz)))
    requires exit == if v == 0 then jz + code[jz].p2 else stop
    ensures Steps(code, r, stop - start) == Next(r.(ip := Some(exit)))
  {
    var mid := r.(stack := r.stack + [v], ip := Some(jz));
    var after := r.(ip := Some(exit));
    JumpIfZeroStep(code, mid, jz, stop, r.stack, v);
    assert mid.(stack := r.stack, ip := Some(if v == 0 then jz + code[jz].p2 else stop)) == after;
    StepsThen(code, r, mid, after, start, jz, stop);
  }

  /**
   * Running a condition that pushes a nonzero `v`, its jump-if-zero, and a
   * jump back to `start` returns to the state the run began in.
   */
  lemma ConditionLoops(code: seq<Instruction>, r: Regs, v: Int16, start: nat, jz: nat, stop: nat)
    requires r.ip == Some(start) && start <= jz && jz + 1 < |code| && stop == jz + 2 && v != 0
    requires code[jz].op == JumpByIfZero && code[jz + 1].op == JumpBy && jz + 1 + code[jz + 1].p2 == start
    requires Steps(code, r, jz - start) == Next(r.(stack := r.stack + [v], ip := Some(jz)))
    ensures Steps(code, r, stop - start) == Next(r)
  {
    var atJump := r.(ip := Some(jz + 1));
    ConditionRun(code, r, v, start, jz, jz + 1, jz + 1);
    JumpStep(code, atJump, jz + 1);
    assert atJump.(ip := Some(jz + 1 + code[jz + 1].p2)) == r;
    StepsThen(code, r, atJump, r, start, jz + 1, stop);
  }

  /**
   * The value code of an assignment, `printNum`, `while` condition or
   * initialized declaration, followed by the one instruction that consumes
   * the value: running the value code pushes the value and stops there.
   */
  lemma ValueThenConsume(value: Statement, sc: Scope, st: Emitted, consume: Instruction, code: seq<Instruction>, r: Regs)
    returns (end: nat)
    requires WellFormed(value) && IsArithmetic(value) && StatementCode(value, sc, st).Done?
    requires CodeAt(code, StatementCode(value, sc, st).out.code + [consume], |st.code|)
    requires r.ip == Some(|st.code|) && Eval(value, sc, r).Some?
    ensures end == |StatementCode(value, sc, st).out.code| && |st.code| <= end && end < |code| && code[end] == consume
    ensures Steps(code, r, end - |st.code|) == Next(r.(stack := r.stack + [Eval(value, sc, r).value], ip := Some(end)))
  {
    var out := StatementCode(value, sc, st).out;
    CodeAtPrefix(code, out.code + [consume], out.code, |st.code|, |st.code|);
    end := ExpressionCorrect(value, sc, st, code, r);
    assert code[end] == (out.code + [consume])[end];
  }

  /** An assignment compiles to its value code followed by the store into the target's slot. */
  lemma AssignmentLayout(s: Statement, sc: Scope, st: Emitted)
    requires WellFormed(s) && s.kind == OperatorCall && s.name == "=" && |s.params| == 2
    requires StatementCode(s, sc, st).Done?
    ensures s.params[0].name in sc.variableOffset && StatementCode(s.params[1], sc, st).Done?
    ensures StatementCode(s, sc, st).out.code
            == StatementCode(s.params[1], sc, st).out.code
               + [Instruction(StoreIntBasePointerRelative, sc.variableOffset[s.params[0].name])]
  {
  }

  /**
   * `target = value` writes the value into the target's local slot and
   * leaves the rest of the stack as it was.
   */
  lemma AssignmentCorrect(s: Statement, sc: Scope, st: Emitted, code: seq<Instruction>, r: Regs)
    requires WellFormed(s) && s.kind == OperatorCall && s.name == "=" && |s.params| == 2
    requires IsArithmetic(s.params[1]) && StatementCode(s, sc, st).Done?
    requires CodeAt(code, StatementCode(s, sc, st).out.code, |st.code|)
    requires r.ip == Some(|st.code|) && Eval(s.params[1], sc, r).Some?
    ensures s.params[0].name in sc.variableOffset
    ensures |st.code| < |StatementCode(s, sc, st).out.code|
    ensures var slot := SlotIndex(r.baseIdx, sc.variableOffset[s.params[0].name]);
            var out := StatementCode(s, sc, st).out;
            slot < |r.stack| ==>
              Steps(code, r, |out.code| - |st.code|)
              == Next(r.(stack := r.stack[slot := Eval(s.params[1], sc, r).value], ip := Some(|out.code|)))
  {
    AssignmentLayout(s, sc, st);
    var consume := Instruction(StoreIntBasePointerRelative, sc.variableOffset[s.params[0].name]);
    var end := ValueThenConsume(s.params[1], sc, st, consume, code, r);
    var v := Eval(s.params[1], sc, r).value;
    if SlotIndex(r.baseIdx, consume.p2) < |r.stack| {
      StoreRun(code, r, v, |st.code|, end, |StatementCode(s, sc, st).out.code|);
    }
  }

  /** `printNum(value)` appends the value to the output and leaves the stack as it was. */
  lemma PrintCorrect(s: Statement, sc: Scope, st: Emitted, code: seq<Instruction>, r: Regs)
    requires WellFormed(s) && s.kind == FunctionCall && s.name == "printNum" && |s.params| == 1
    requires IsArithmetic(s.params[0]) && StatementCode(s, sc, st).Done?
    requires CodeAt(code, StatementCode(s, sc, st).out.code, |st.code|)
    requires r.ip == Some(|st.code|) && Eval(s.params[0], sc, r).Some?
    ensures |st.code| < |StatementCode(s, sc, st).out.code|
    ensures var out := StatementCode(s, sc, st).out;
            Steps(code, r, |out.code| - |st.code|)
            == Next(r.(output := r.output + [Eval(s.params[0], sc, r).value], ip := Some(|out.code|)))
  {
    assert StatementCode(s, sc, st).out.code == StatementCode(s.params[0], sc, st).out.code + [Instruction(PrintInt, 0)];
    var end := ValueThenConsume(s.params[0], sc, st, Instruction(PrintInt, 0), code, r);
    PrintRun(code, r, Eval(s.params[0], sc, r).value, |st.code|, end, |StatementCode(s, sc, st).out.code|);
  }

  /**
   * The condition of a `while`, followed by its jump-if-zero: running the
   * condition pushes its value and stops at the jump.
   */
  lemma WhileCondition(s: Statement, sc: Scope, st: Emitted, code: seq<Instruction>, r: Regs) returns (jz: nat)
    requires WellFormed(s) && s.kind == WhileLoop && IsArithmetic(s.params[0])
    requires StatementCode(s, sc, st).Done? && |StatementCode(s, sc, st).out.code| <= 0x8000
    requires CodeAt(code, StatementCode(s, sc, st).out.code, |st.code|)
    requires r.ip == Some(|st.code|) && Eval(s.params[0], sc, r).Some?
    ensures jz == |StatementCode(s.params[0], sc, st).out.code| && |st.code| <= jz < |code|
    ensures code[jz] == StatementCode(s, sc, st).out.code[jz] && code[jz].op == JumpByIfZero
    ensures |s.params| == 1 ==> |StatementCode(s, sc, st).out.code| == jz + 1
    ensures |s.params| > 1 ==>
              |StatementCode(s, sc, st).out.code| == jz + 2 && jz + code[jz].p2 == jz + 2
              && code[jz + 1].op == JumpBy && jz + 1 + code[jz + 1].p2 == |st.code|
    ensures Steps(code, r, jz - |st.code|)
            == Next(r.(stack := r.stack + [Eval(s.params[0], sc, r).value], ip := Some(jz)))
  {
    var out := StatementCode(s, sc, st).out;
    WhileLayout(s, sc, st);
    jz := |StatementCode(s.params[0], sc, st).out.code|;
    assert out.code[..jz + 1] == StatementCode(s.params[0], sc, st).out.code + [out.code[jz]];
    CodeAtPrefix(code, out.code, out.code[..jz + 1], |st.code|, |st.code|);
    jz := ValueThenConsume(s.params[0], sc, st, out.code[jz], code, r);
  }

  /**
   * A `while` with a body statement whose condition evaluates to 0 pops it
   * and continues just past the loop; with no body statement and a nonzero
   * condition it falls through as well. Either way the condition and the
   * jump-if-zero run once. The two remaining cases are
   * `WhileWithoutBodyRepeats` and `WhileSpinsForever`.
   */
  lemma WhileExits(s: Statement, sc: Scope, st: Emitted, code: seq<Instruction>, r: Regs)
    requires WellFormed(s) && s.kind == WhileLoop && IsArithmetic(s.params[0])
    requires StatementCode(s, sc, st).Done? && |StatementCode(s, sc, st).out.code| <= 0x8000
    requires CodeAt(code, StatementCode(s, sc, st).out.code, |st.code|)
    requires r.ip == Some(|st.code|) && Eval(s.params[0], sc, r).Some?
    requires (Eval(s.params[0], sc, r).value == 0) == (|s.params| > 1)
    ensures |st.code| <= |StatementCode(s.params[0], sc, st).out.code|
    ensures Steps(code, r, |StatementCode(s.params[0], sc, st).out.code| + 1 - |st.code|)
            == Next(r.(ip := Some(|StatementCode(s, sc, st).out.code|)))
  {
    var jz := WhileCondition(s, sc, st, code, r);
    var v := Eval(s.params[0], sc, r).value;
    ConditionRun(code, r, v, |st.code|, jz, |StatementCode(s.params[0], sc, st).out.code| + 1,
                 |StatementCode(s, sc, st).out.code|);
  }

  /**
   * A `while` with a body statement whose condition evaluates to nonzero
   * comes back to its first instruction with the same stack: since the body
   * is never compiled, nothing the loop runs changes the condition, and the
   * machine never stops.
   */
  lemma WhileSpinsForever(s: Statement, sc: Scope, st: Emitted, code: seq<Instruction>, r: Regs, fuel: nat)
    requires WellFormed(s) && s.kind == WhileLoop && |s.params| > 1 && IsArithmetic(s.params[0])
    requires StatementCode(s, sc, st).Done? && |StatementCode(s, sc, st).out.code| <= 0x8000
    requires CodeAt(code, StatementCode(s, sc, st).out.code, |st.code|)
    requires r.ip == Some(|st.code|) && Eval(s.params[0], sc, r).Some? && Eval(s.params[0], sc, r).value != 0
    ensures Exec(code, r, fuel) == OutOfFuel
  {
    var jz := WhileCondition(s, sc, st, code, r);
    var v := Eval(s.params[0], sc, r).value;
    ConditionLoops(code, r, v, |st.code|, jz, jz + 2);
    CycleNeverStops(code, r, jz + 2 - |st.code|, fuel);
  }

  /**
   * A `while` without a body statement whose condition evaluates to 0 does
   * not leave the loop: its jump-if-zero keeps the distance 0, so after
   * popping the condition the machine is back at the same jump-if-zero with
   * the stack it started from. The next dispatch pops the enclosing frame's
   * top slot, and stays on the jump-if-zero again when that slot is 0.
   */
  lemma WhileWithoutBodyRepeats(s: Statement, sc: Scope, st: Emitted, code: seq<Instruction>, r: Regs)
    returns (jz: nat)
    requires WellFormed(s) && s.kind == WhileLoop && |s.params| == 1 && IsArithmetic(s.params[0])
    requires StatementCode(s, sc, st).Done? && |StatementCode(s, sc, st).out.code| <= 0x8000
    requires CodeAt(code, StatementCode(s, sc, st).out.code, |st.code|)
    requires r.ip == Some(|st.code|) && Eval(s.params[0], sc, r) == Some(0)
    ensures jz == |StatementCode(s.params[0], sc, st).out.code| && |st.code| <= jz < |code|
    ensures code[jz] == Instruction(JumpByIfZero, 0)
    ensures Steps(code, r, jz + 1 - |st.code|) == Next(r.(ip := Some(jz)))
    ensures |r.stack| > 0 ==>
              Steps(code, r, jz + 2 - |st.code|)
              == Next(r.(stack := r.stack[..|r.stack| - 1],
                         ip := Some(if r.stack[|r.stack| - 1] == 0 then jz else jz + 1)))
  {
    jz := WhileCondition(s, sc, st, code, r);
    WhileLayout(s, sc, st);
    ConditionRun(code, r, 0, |st.code|, jz, jz + 1, jz);
    if |r.stack| > 0 {
      JumpIfZeroAgain(code, r, |st.code|, jz);
    }
  }

  /** A run that comes back to a jump-if-zero of distance 0, then dispatches it once more. */
  lemma JumpIfZeroAgain(code: seq<Instruction>, r: Regs, start: nat, jz: nat)
    requires start <= jz < |code| && code[jz] == Instruction(JumpByIfZero, 0) && |r.stack| > 0
    requires Steps(code, r, jz + 1 - start) == Next(r.(ip := Some(jz)))
    ensures Steps(code, r, jz + 2 - start)
            == Next(r.(stack := r.stack[..|r.stack| - 1],
                       ip := Some(if r.stack[|r.stack| - 1] == 0 then jz else jz + 1)))
  {
    var top := r.stack[|r.stack| - 1];
    var below := r.stack[..|r.stack| - 1];
    var again := r.(ip := Some(jz));
    assert again.stack == below + [top];
    JumpIfZeroStep(code, again, jz, jz + 1, below, top);
    StepsThen(code, r, again, again.(stack := below, ip := Some(if top == 0 then jz else jz + 1)),
              start, jz + 1, jz + 2);
  }

  /**
   * With the corrected lowering, a `while` whose condition evaluates to 0
   * always continues just past the loop, with or without a body statement,
   * and so does one without a body statement whatever its condition.
   */
  lemma PatchedWhileExits(s: Statement, sc: Scope, st: Emitted, code: seq<Instruction>, r: Regs)
    requires WellFormed(s) && s.kind == WhileLoop && IsArithmetic(s.params[0])
    requires PatchedWhileCode(s, sc, st).Done?
    requires CodeAt(code, PatchedWhileCode(s, sc, st).out.code, |st.code|)
    requires r.ip == Some(|st.code|) && Eval(s.params[0], sc, r).Some?
    requires Eval(s.params[0], sc, r).value == 0 || |s.params| == 1
    ensures |st.code| <= |StatementCode(s.params[0], sc, st).out.code|
    ensures Steps(code, r, |StatementCode(s.params[0], sc, st).out.code| + 1 - |st.code|)
            == Next(r.(ip := Some(|PatchedWhileCode(s, sc, st).out.code|)))
  {
    var condition := StatementCode(s.params[0], sc, st);
    var out := PatchedWhileCode(s, sc, st).out;
    PatchedWhileLayout(s, sc, st);
    StatementCodeExtends(s.params[0], sc, st);
    var jz := |condition.out.code|;
    assert out.code[..jz + 1] == condition.out.code + [out.code[jz]];
    CodeAtPrefix(code, out.code, out.code[..jz + 1], |st.code|, |st.code|);
    jz := ValueThenConsume(s.params[0], sc, st, out.code[jz], code, r);
    ConditionRun(code, r, Eval(s.params[0], sc, r).value, |st.code|, jz, jz + 1, |out.code|);
  }

  /**
   * The frame `Run` builds agrees with the generator's addressing: parameter
   * `i` of `N`, read at base offset `ParameterOffset(N, i)`, is argument `i`,
   * and the result slot `ReturnSlotOffset(N)` is the bottom slot `Run` reads
   * the result from.
   */
  lemma EntryFrameMatchesAddressing(entry: int, args: seq<Int16>, wantResult: bool)
    requires |args| < 0x7ffe
    ensures var r := InitialRegs(entry, args, wantResult);
            forall i :: 0 <= i < |args| ==>
              ParameterSlot(r.baseIdx, |args|, i) < |r.stack|
              && SlotIndex(r.baseIdx, ParameterOffset(|args|, i)) == ParameterSlot(r.baseIdx, |args|, i)
              && r.stack[ParameterSlot(r.baseIdx, |args|, i)] == args[i]
    ensures var r := InitialRegs(entry, args, wantResult);
            wantResult ==> SlotIndex(r.baseIdx, ReturnSlotOffset(|args|)) == 0
  {
    var r := InitialRegs(entry, args, wantResult);
    forall i | 0 <= i < |args|
      ensures ParameterSlot(r.baseIdx, |args|, i) == r.baseIdx - 1 - |args| + i
      ensures SlotIndex(r.baseIdx, ParameterOffset(|args|, i)) == ParameterSlot(r.baseIdx, |args|, i)
    {
      ParameterAddressing(r.baseIdx, |args|, i);
    }
    if wantResult {
      ReturnAddressing(r.baseIdx, |args|);
    }
  }

  /** Below a base index that fits in 16 bits, a parameter's offset addresses its slot directly. */
  lemma ParameterAddressing(baseIdx: nat, n: nat, i: nat)
    requires i < n && n + 1 <= baseIdx < 0x8000
    ensures ParameterSlot(baseIdx, n, i) == baseIdx - 1 - n + i
    ensures SlotIndex(baseIdx, ParameterOffset(n, i)) == ParameterSlot(baseIdx, n, i)
  {
    assert ParameterOffset(n, i) == -1 - n + i;
  }

  /** The return slot of a frame whose base is two slots above its parameters is slot 0. */
  lemma ReturnAddressing(baseIdx: nat, n: nat)
    requires baseIdx == n + 2 && n < 0x7ffe
    ensures SlotIndex(baseIdx, ReturnSlotOffset(n)) == 0
  {
    assert ReturnSlotOffset(n) == -2 - n;
  }
}
