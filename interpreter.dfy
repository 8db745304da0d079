/**
 * The stack virtual machine of Interpreter/src/Interpreter.cpp.
 *
 * The register file (operand stack, return-address stack, current
 * instruction, base index) is the class `Registers`, whose handler methods
 * update it in place as the C++ handlers do. The value `Regs` and the
 * functions `Transition`, `Exec` and `RunSpec` are the specification the
 * handlers and `Run` are proved against. The instruction pointer is an index
 * into the program's instruction sequence; `None` stands for the null
 * pointer. Whatever the C++ code leaves undefined (popping an empty stack,
 * an index outside the stack, an instruction pointer outside the program)
 * is a fault here.
 */
module Interpreter {
  import opened Wrappers
  import opened Bytecode

  /** A snapshot of the registers, together with everything printed so far. */
  datatype Regs = Regs(
    stack: seq<Int16>,
    returnAddresses: seq<Option<int>>,
    ip: Option<int>,
    baseIdx: nat,
    output: seq<Int16>)

  datatype StepResult = Next(regs: Regs) | StepFault

  datatype ExecResult = Halted(regs: Regs) | ExecFault | OutOfFuel

  datatype RunOutcome = Finished(result: Option<Int16>, output: seq<Int16>) | Faulted | FuelExhausted

  /** The stack slot `p2 + baseIdx` addresses: the sum is taken in `size_t`. */
  function SlotIndex(baseIdx: nat, p2: int): nat
  {
    ToSize(baseIdx + p2)
  }

  /** Whether `instr` can run on `r` without undefined behaviour. */
  predicate CanExecute(instr: Instruction, r: Regs)
  {
    var n := |r.stack|;
    match instr.op
    case Exit => true
    case AddInt => n >= 2
    case PushInt => true
    case PopInt => n >= 1
    case PrintInt => n >= 1
    case CompareIntLess => n >= 2
    case LoadInt => 0 <= instr.p2 < n
    case StoreInt => n >= 1 && 0 <= instr.p2 < n
    case JumpByIfZero => n >= 1
    case JumpBy => true
    case LoadIntBasePointerRelative => SlotIndex(r.baseIdx, instr.p2) < n
    case StoreIntBasePointerRelative => n >= 1 && SlotIndex(r.baseIdx, instr.p2) < n
    case Call => true
    case Return => n >= 1 && |r.returnAddresses| >= 1
  }

  /** The effect of one handler on the registers. */
  function Execute(instr: Instruction, r: Regs): Regs
    requires r.ip.Some? && CanExecute(instr, r)
  {
    var s, n, pc := r.stack, |r.stack|, r.ip.value;
    match instr.op
    case Exit => r.(ip := None)
    case AddInt =>
      r.(stack := s[..n - 2] + [Wrap16(s[n - 2] as int + s[n - 1])], ip := Some(pc + 1))
    case PushInt => r.(stack := s + [instr.p2], ip := Some(pc + 1))
    case PopInt => r.(stack := s[..n - 1], ip := Some(pc + 1))
    case PrintInt => r.(stack := s[..n - 1], output := r.output + [s[n - 1]], ip := Some(pc + 1))
    case CompareIntLess =>
      r.(stack := s[..n - 2] + [if s[n - 2] < s[n - 1] then 1 else 0], ip := Some(pc + 1))
    case LoadInt => r.(stack := s + [s[instr.p2]], ip := Some(pc + 1))
    case StoreInt => r.(stack := s[instr.p2 := s[n - 1]][..n - 1], ip := Some(pc + 1))
    case JumpByIfZero =>
      r.(stack := s[..n - 1], ip := Some(if s[n - 1] == 0 then pc + instr.p2 else pc + 1))
    case JumpBy => r.(ip := Some(pc + instr.p2))
    case LoadIntBasePointerRelative =>
      r.(stack := s + [s[SlotIndex(r.baseIdx, instr.p2)]], ip := Some(pc + 1))
    case StoreIntBasePointerRelative =>
      r.(stack := s[SlotIndex(r.baseIdx, instr.p2) := s[n - 1]][..n - 1], ip := Some(pc + 1))
    case Call =>
      r.(stack := s + [Wrap16(r.baseIdx)],
         returnAddresses := r.returnAddresses + [Some(pc + 1)],
         baseIdx := n + 1,
         ip := Some(pc + instr.p2))
    case Return =>
      var m := |r.returnAddresses|;
      r.(returnAddresses := r.returnAddresses[..m - 1],
         baseIdx := ToSize(s[n - 1]),
         stack := s[..n - 1],
         ip := r.returnAddresses[m - 1])
  }

  /** One iteration of the dispatch loop: fetch the current instruction and run its handler. */
  function Transition(code: seq<Instruction>, r: Regs): StepResult
    requires r.ip.Some?
  {
    var pc := r.ip.value;
    if !(0 <= pc < |code|) || !CanExecute(code[pc], r) then StepFault
    else Next(Execute(code[pc], r))
  }

  /** The dispatch loop, bounded by `fuel` dispatched instructions. */
  function Exec(code: seq<Instruction>, r: Regs, fuel: nat): ExecResult
    decreases fuel
  {
    if r.ip.None? then Halted(r)
    else if fuel == 0 then OutOfFuel
    else
      match Transition(code, r)
      case StepFault => ExecFault
      case Next(r') => Exec(code, r', fuel - 1)
  }

  /**
   * The frame `Run` builds before the loop: the result slot (only when a
   * result is wanted), the arguments in order, one zero placeholder for the
   * saved base index, the null return address, and the base index at the
   * top of the stack. Parameter `i` of `N` is then at base offset `-1-N+i`
   * and the result slot at `-2-N`, which is where the generator addresses them.
   */
  function InitialRegs(entry: int, args: seq<Int16>, wantResult: bool): (r: Regs)
    ensures |r.stack| == (if wantResult then 1 else 0) + |args| + 1
    ensures r.baseIdx == |r.stack|
    ensures forall i :: 0 <= i < |args| ==> r.stack[r.baseIdx - 1 - |args| + i] == args[i]
    ensures wantResult ==> r.baseIdx - 2 - |args| == 0 && r.stack[0] == 0
    ensures r.stack[r.baseIdx - 1] == 0
    ensures r.returnAddresses == [None] && r.ip == Some(entry) && r.output == []
  {
    var stack := (if wantResult then [0] else []) + args + [0];
    Regs(stack, [None], Some(entry), |stack|, [])
  }

  /** The stack after the teardown loop pops one slot per argument, if it can. */
  function PopArguments(stack: seq<Int16>, numArgs: nat): Option<seq<Int16>>
  {
    if numArgs <= |stack| then Some(stack[..|stack| - numArgs]) else None
  }

  /** `Run` as a whole: frame setup, dispatch loop, teardown and result. */
  function RunSpec(code: seq<Instruction>, entry: int, args: seq<Int16>, wantResult: bool, fuel: nat): RunOutcome
  {
    match Exec(code, InitialRegs(entry, args, wantResult), fuel)
    case ExecFault => Faulted
    case OutOfFuel => FuelExhausted
    case Halted(r) =>
      match PopArguments(r.stack, |args|)
      case None => Faulted
      case Some(rest) =>
        if !wantResult then Finished(None, r.output)
        else if |rest| == 0 then Faulted
        else Finished(Some(rest[0]), r.output)
  }

  /** `InterpreterRegisters`, updated in place by one method per handler. */
  class Registers {
    var stack: seq<Int16>
    var returnAddresses: seq<Option<int>>
    var ip: Option<int>
    var baseIdx: nat
    var output: seq<Int16>

    function Snapshot(): Regs
      reads this
    {
      Regs(stack, returnAddresses, ip, baseIdx, output)
    }

    /** Registers whose only initialised member is the current instruction. */
    constructor (entry: int)
      ensures Snapshot() == Regs([], [], Some(entry), 0, [])
    {
      stack, returnAddresses, ip, baseIdx, output := [], [], Some(entry), 0, [];
    }

    method ExitInstruction()
      modifies this
      ensures ip == None
      ensures stack == old(stack) && returnAddresses == old(returnAddresses)
      ensures baseIdx == old(baseIdx) && output == old(output)
    {
      ip := None;
    }

    method AddIntInstruction()
      requires ip.Some? && |stack| >= 2
      modifies this
      ensures stack == old(stack[..|stack| - 2] + [Wrap16(stack[|stack| - 2] as int + stack[|stack| - 1])])
      ensures ip == Some(old(ip.value) + 1)
      ensures returnAddresses == old(returnAddresses) && baseIdx == old(baseIdx) && output == old(output)
    {
      var rightHandSide := stack[|stack| - 1];
      stack := stack[..|stack| - 1];
      var leftHandSide := stack[|stack| - 1];
      stack := stack[..|stack| - 1];
      stack := stack + [Wrap16(leftHandSide as int + rightHandSide)];
      ip := Some(ip.value + 1);
    }

    method PushIntInstruction(p2: Int16)
      requires ip.Some?
      modifies this
      ensures stack == old(stack) + [p2]
      ensures ip == Some(old(ip.value) + 1)
      ensures returnAddresses == old(returnAddresses) && baseIdx == old(baseIdx) && output == old(output)
    {
      stack := stack + [p2];
      ip := Some(ip.value + 1);
    }

    method PopIntInstruction()
      requires ip.Some? && |stack| >= 1
      modifies this
      ensures stack == old(stack[..|stack| - 1])
      ensures ip == Some(old(ip.value) + 1)
      ensures returnAddresses == old(returnAddresses) && baseIdx == old(baseIdx) && output == old(output)
    {
      stack := stack[..|stack| - 1];
      ip := Some(ip.value + 1);
    }

    method PrintIntInstruction()
      requires ip.Some? && |stack| >= 1
      modifies this
      ensures stack == old(stack[..|stack| - 1])
      ensures output == old(output + [stack[|stack| - 1]])
      ensures ip == Some(old(ip.value) + 1)
      ensures returnAddresses == old(returnAddresses) && baseIdx == old(baseIdx)
    {
      var number := stack[|stack| - 1];
      stack := stack[..|stack| - 1];
      output := output + [number];
      ip := Some(ip.value + 1);
    }

    method CompareIntLessInstruction()
      requires ip.Some? && |stack| >= 2
      modifies this
      ensures stack == old(stack[..|stack| - 2] + [if stack[|stack| - 2] < stack[|stack| - 1] then 1 else 0])
      ensures ip == Some(old(ip.value) + 1)
      ensures returnAddresses == old(returnAddresses) && baseIdx == old(baseIdx) && output == old(output)
    {
      var rightHandSide := stack[|stack| - 1];
      stack := stack[..|stack| - 1];
      var leftHandSide := stack[|stack| - 1];
      stack := stack[..|stack| - 1];
      stack := stack + [if leftHandSide < rightHandSide then 1 else 0];
      ip := Some(ip.value + 1);
    }

    method LoadIntInstruction(p2: Int16)
      requires ip.Some? && 0 <= p2 < |stack|
      modifies this
      ensures stack == old(stack + [stack[p2]])
      ensures ip == Some(old(ip.value) + 1)
      ensures returnAddresses == old(returnAddresses) && baseIdx == old(baseIdx) && output == old(output)
    {
      stack := stack + [stack[p2]];
      ip := Some(ip.value + 1);
    }

    /** The write happens before the pop, so a store into the top slot itself is lost. */
    method StoreIntInstruction(p2: Int16)
      requires ip.Some? && |stack| >= 1 && 0 <= p2 < |stack|
      modifies this
      ensures |stack| == old(|stack|) - 1
      ensures forall k :: 0 <= k < |stack| && k != p2 ==> stack[k] == old(stack[k])
      ensures p2 < |stack| ==> stack[p2] == old(stack[|stack| - 1])
      ensures ip == Some(old(ip.value) + 1)
      ensures returnAddresses == old(returnAddresses) && baseIdx == old(baseIdx) && output == old(output)
    {
      stack := stack[p2 := stack[|stack| - 1]];
      stack := stack[..|stack| - 1];
      ip := Some(ip.value + 1);
    }

    method JumpByIfZeroInstruction(p2: Int16)
      requires ip.Some? && |stack| >= 1
      modifies this
      ensures stack == old(stack[..|stack| - 1])
      ensures ip == Some(if old(stack[|stack| - 1]) == 0 then old(ip.value) + p2 else old(ip.value) + 1)
      ensures returnAddresses == old(returnAddresses) && baseIdx == old(baseIdx) && output == old(output)
    {
      var condition := stack[|stack| - 1];
      stack := stack[..|stack| - 1];
      if condition == 0 {
        ip := Some(ip.value + p2);
      } else {
        ip := Some(ip.value + 1);
      }
    }

    method JumpByInstruction(p2: Int16)
      requires ip.Some?
      modifies this
      ensures ip == Some(old(ip.value) + p2)
      ensures stack == old(stack) && returnAddresses == old(returnAddresses)
      ensures baseIdx == old(baseIdx) && output == old(output)
    {
      ip := Some(ip.value + p2);
    }

    method LoadIntBasePointerRelativeInstruction(p2: Int16)
      requires ip.Some? && SlotIndex(baseIdx, p2) < |stack|
      modifies this
      ensures stack == old(stack + [stack[SlotIndex(baseIdx, p2)]])
      ensures ip == Some(old(ip.value) + 1)
      ensures returnAddresses == old(returnAddresses) && baseIdx == old(baseIdx) && output == old(output)
    {
      stack := stack + [stack[SlotIndex(baseIdx, p2)]];
      ip := Some(ip.value + 1);
    }

    /** As with `StoreIntInstruction`, the slot is written before the pop. */
    method StoreIntBasePointerRelativeInstruction(p2: Int16)
      requires ip.Some? && |stack| >= 1 && SlotIndex(baseIdx, p2) < |stack|
      modifies this
      ensures |stack| == old(|stack|) - 1
      ensures forall k :: 0 <= k < |stack| && k != SlotIndex(baseIdx, p2) ==> stack[k] == old(stack[k])
      ensures SlotIndex(baseIdx, p2) < |stack| ==> stack[SlotIndex(baseIdx, p2)] == old(stack[|stack| - 1])
      ensures ip == Some(old(ip.value) + 1)
      ensures returnAddresses == old(returnAddresses) && baseIdx == old(baseIdx) && output == old(output)
    {
      stack := stack[SlotIndex(baseIdx, p2) := stack[|stack| - 1]];
      stack := stack[..|stack| - 1];
      ip := Some(ip.value + 1);
    }

    method CallInstruction(p2: Int16)
      requires ip.Some?
      modifies this
      ensures stack == old(stack) + [Wrap16(old(baseIdx))]
      ensures returnAddresses == old(returnAddresses) + [Some(old(ip.value) + 1)]
      ensures baseIdx == |stack|
      ensures ip == Some(old(ip.value) + p2)
      ensures output == old(output)
    {
      stack := stack + [Wrap16(baseIdx)];
      returnAddresses := returnAddresses + [Some(ip.value + 1)];
      baseIdx := |stack|;
      ip := Some(ip.value + p2);
    }

    method ReturnInstruction()
      requires |stack| >= 1 && |returnAddresses| >= 1
      modifies this
      ensures ip == old(returnAddresses[|returnAddresses| - 1])
      ensures returnAddresses == old(returnAddresses[..|returnAddresses| - 1])
      ensures baseIdx == ToSize(old(stack[|stack| - 1]))
      ensures stack == old(stack[..|stack| - 1])
      ensures output == old(output)
    {
      var returnAddress := returnAddresses[|returnAddresses| - 1];
      returnAddresses := returnAddresses[..|returnAddresses| - 1];
      baseIdx := ToSize(stack[|stack| - 1]);
      stack := stack[..|stack| - 1];
      ip := returnAddress;
    }

    /**
     * One pass of the dispatch loop. When the instruction cannot run
     * without undefined behaviour, nothing is changed and `ok` is false.
     */
    method Dispatch(code: seq<Instruction>) returns (ok: bool)
      requires ip.Some?
      modifies this
      ensures ok == Transition(code, old(Snapshot())).Next?
      ensures Snapshot() == if ok then Transition(code, old(Snapshot())).regs else old(Snapshot())
    {
      var pc := ip.value;
      if !(0 <= pc < |code|) || !CanExecute(code[pc], Snapshot()) {
        return false;
      }
      var instr := code[pc];
      if instr.op in {Exit, AddInt, PushInt, PopInt, PrintInt, CompareIntLess, LoadInt} {
        ExecuteStackInstruction(instr);
      } else {
        ExecuteOtherInstruction(instr);
      }
      ok := true;
    }

    /**
     * The dispatch loop of `Run`, given at most `fuel` instructions: it
     * stops on a null instruction pointer or on an instruction that
     * cannot run.
     */
    method DispatchLoop(code: seq<Instruction>, fuel: nat) returns (result: ExecResult)
      modifies this
      ensures result == Exec(code, old(Snapshot()), fuel)
      ensures result.Halted? ==> result.regs == Snapshot()
    {
      var remaining := fuel;
      while ip.Some? && remaining > 0
        invariant Exec(code, Snapshot(), remaining) == Exec(code, old(Snapshot()), fuel)
      {
        ghost var before := Snapshot();
        var ok := Dispatch(code);
        if !ok {
          return ExecFault;
        }
        ExecDispatched(code, before, remaining);
        remaining := remaining - 1;
      }
      if ip.Some? {
        return OutOfFuel;
      }
      return Halted(Snapshot());
    }

    /** The handlers that work on the top of the stack (and `EXIT`). */
    method ExecuteStackInstruction(instr: Instruction)
      requires ip.Some? && CanExecute(instr, Snapshot())
      requires instr.op in {Exit, AddInt, PushInt, PopInt, PrintInt, CompareIntLess, LoadInt}
      modifies this
      ensures Snapshot() == Execute(instr, old(Snapshot()))
    {
      match instr.op {
        case Exit => ExitInstruction();
        case AddInt => AddIntInstruction();
        case PushInt => PushIntInstruction(instr.p2);
        case PopInt => PopIntInstruction();
        case PrintInt => PrintIntInstruction();
        case CompareIntLess => CompareIntLessInstruction();
        case LoadInt => LoadIntInstruction(instr.p2);
      }
    }

    /** The handlers for stores, jumps, frame-relative access, calls and returns. */
    method ExecuteOtherInstruction(instr: Instruction)
      requires ip.Some? && CanExecute(instr, Snapshot())
      requires instr.op !in {Exit, AddInt, PushInt, PopInt, PrintInt, CompareIntLess, LoadInt}
      modifies this
      ensures Snapshot() == Execute(instr, old(Snapshot()))
    {
      match instr.op {
        case StoreInt => StoreIntInstruction(instr.p2);
        case JumpByIfZero => JumpByIfZeroInstruction(instr.p2);
        case JumpBy => JumpByInstruction(instr.p2);
        case LoadIntBasePointerRelative => LoadIntBasePointerRelativeInstruction(instr.p2);
        case StoreIntBasePointerRelative => StoreIntBasePointerRelativeInstruction(instr.p2);
        case Call => CallInstruction(instr.p2);
        case Return => ReturnInstruction();
      }
    }
  }

  /** The teardown loop `while(numArgs--) pop_back()`: `None` when it would pop an empty stack. */
  method PopArgumentSlots(stack: seq<Int16>, numArgs: nat) returns (rest: Option<seq<Int16>>)
    ensures rest == PopArguments(stack, numArgs)
    ensures rest.Some? ==> |rest.value| + numArgs == |stack| && rest.value <= stack
  {
    var remaining := stack;
    var count := numArgs;
    while count > 0
      invariant 0 <= count <= numArgs
      invariant |remaining| + numArgs - count == |stack| && remaining == stack[..|remaining|]
    {
      if |remaining| == 0 {
        return None;
      }
      remaining := remaining[..|remaining| - 1];
      count := count - 1;
    }
    return Some(remaining);
  }

  /** One more round of the dispatch loop after a successful dispatch. */
  lemma ExecDispatched(code: seq<Instruction>, r: Regs, fuel: nat)
    requires r.ip.Some? && fuel > 0 && Transition(code, r).Next?
    ensures Exec(code, r, fuel) == Exec(code, Transition(code, r).regs, fuel - 1)
  {
  }

  /**
   * `Interpreter::Run`: build the initial frame, dispatch until the
   * instruction pointer is null (at most `fuel` instructions), pop one slot
   * per argument and report the bottom slot of the stack as the result.
   */
  method Run(code: seq<Instruction>, entry: int, args: seq<Int16>, wantResult: bool, fuel: nat)
    returns (outcome: RunOutcome)
    ensures outcome == RunSpec(code, entry, args, wantResult, fuel)
  {
    var registers := new Registers(entry);
    if wantResult {
      registers.stack := registers.stack + [0];
    }
    registers.stack := registers.stack + args;
    registers.stack := registers.stack + [0];
    registers.returnAddresses := registers.returnAddresses + [None];
    registers.baseIdx := |registers.stack|;

    assert registers.Snapshot() == InitialRegs(entry, args, wantResult);
    var result := registers.DispatchLoop(code, fuel);
    if result.ExecFault? {
      return Faulted;
    }
    if result.OutOfFuel? {
      return FuelExhausted;
    }

    var rest := PopArgumentSlots(result.regs.stack, |args|);
    if rest.None? {
      return Faulted;
    }
    if !wantResult {
      return Finished(None, result.regs.output);
    }
    if |rest.value| == 0 {
      return Faulted;
    }
    return Finished(Some(rest.value[0]), result.regs.output);
  }
}
