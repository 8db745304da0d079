/**
 * Properties of the virtual machine: the dispatch loop stops only on a null
 * instruction pointer, extra fuel changes nothing once it has stopped, which
 * instructions stop it, and the frame discipline of `CALL` and `RETURN`.
 */
module InterpreterProperties {
  import opened Wrappers
  import opened Bytecode
  import opened Interpreter

  /** The loop stops normally only with a null instruction pointer. */
  lemma {:induction false} HaltedIpIsNull(code: seq<Instruction>, r: Regs, fuel: nat)
    requires Exec(code, r, fuel).Halted?
    ensures Exec(code, r, fuel).regs.ip.None?
    decreases fuel
  {
    if r.ip.Some? {
      HaltedIpIsNull(code, Transition(code, r).regs, fuel - 1);
    }
  }

  /** Once the loop has stopped or faulted within some fuel, more fuel gives the same outcome. */
  lemma {:induction false} ExecFuelMonotone(code: seq<Instruction>, r: Regs, fuel: nat, more: nat)
    requires !Exec(code, r, fuel).OutOfFuel? && fuel <= more
    ensures Exec(code, r, more) == Exec(code, r, fuel)
    decreases fuel
  {
    if r.ip.Some? && Transition(code, r).Next? {
      ExecFuelMonotone(code, Transition(code, r).regs, fuel - 1, more - 1);
    }
  }

  /**
   * One dispatch nulls the instruction pointer exactly when it runs `EXIT`,
   * or a `RETURN` that pops the null return address `Run` pushed.
   */
  lemma TransitionStops(code: seq<Instruction>, r: Regs)
    requires r.ip.Some? && Transition(code, r).Next?
    ensures var instr := code[r.ip.value];
            Transition(code, r).regs.ip.None? <==>
              instr.op == Exit || (instr.op == Return && r.returnAddresses[|r.returnAddresses| - 1].None?)
  {
  }

  /** Running `n` dispatches exactly, without stopping in between. */
  function Steps(code: seq<Instruction>, r: Regs, n: nat): StepResult
    decreases n, 1
  {
    if n == 0 then Next(r) else StepsFrom(code, r, n)
  }

  /** `Steps` for a positive count: one dispatch, then the remaining `n - 1`. */
  function StepsFrom(code: seq<Instruction>, r: Regs, n: nat): StepResult
    requires n > 0
    decreases n, 0
  {
    if r.ip.None? then StepFault
    else
      match Transition(code, r)
      case StepFault => StepFault
      case Next(r') => Steps(code, r', n - 1)
  }

  /** A single dispatch. */
  lemma StepsOne(code: seq<Instruction>, r: Regs)
    ensures Steps(code, r, 1) == if r.ip.None? then StepFault else Transition(code, r)
  {
    if r.ip.Some? && Transition(code, r).Next? {
      assert Steps(code, Transition(code, r).regs, 0) == Transition(code, r);
    }
  }

  /** Dispatching `m` then `n` times is dispatching `m + n` times. */
  lemma {:induction false} StepsAppend(code: seq<Instruction>, r: Regs, m: nat, n: nat)
    ensures Steps(code, r, m + n) ==
              match Steps(code, r, m)
              case StepFault => StepFault
              case Next(r') => Steps(code, r', n)
    decreases m
  {
    if m > 0 && r.ip.Some? && Transition(code, r).Next? {
      StepsAppend(code, Transition(code, r).regs, m - 1, n);
    }
  }

  /** After `n` uninterrupted dispatches the loop goes on exactly as it would from there. */
  lemma {:induction false} ExecAfterSteps(code: seq<Instruction>, r: Regs, n: nat, fuel: nat)
    requires Steps(code, r, n).Next?
    ensures Exec(code, r, n + fuel) == Exec(code, Steps(code, r, n).regs, fuel)
    decreases n
  {
    if n > 0 {
      ExecAfterSteps(code, Transition(code, r).regs, n - 1, fuel);
    }
  }

  /**
   * A state the loop comes back to after `n > 0` dispatches repeats forever:
   * the loop runs out of any fuel.
   */
  lemma {:induction false} CycleNeverStops(code: seq<Instruction>, r: Regs, n: nat, fuel: nat)
    requires n > 0 && Steps(code, r, n) == Next(r)
    ensures Exec(code, r, fuel) == OutOfFuel
    decreases fuel
  {
    if fuel < n {
      StepsNoHaltBefore(code, r, n, fuel);
    } else {
      ExecAfterSteps(code, r, n, fuel - n);
      CycleNeverStops(code, r, n, fuel - n);
    }
  }

  /** Fewer dispatches than an uninterrupted run of `n` leave the loop running. */
  lemma {:induction false} StepsNoHaltBefore(code: seq<Instruction>, r: Regs, n: nat, fuel: nat)
    requires Steps(code, r, n).Next? && fuel < n
    ensures Exec(code, r, fuel) == OutOfFuel
    decreases fuel
  {
    if fuel > 0 {
      StepsNoHaltBefore(code, Transition(code, r).regs, n - 1, fuel - 1);
    }
  }

  /** The stack slot parameter `i` of `numArgs` occupies in the frame with base `baseIdx`. */
  function ParameterSlot(baseIdx: nat, numArgs: nat, i: nat): nat
  {
    SlotIndex(baseIdx, -1 - numArgs + i)
  }

  /**
   * `CALL` at `pc` jumps to `pc + p2`, pushes the caller's base index and
   * return address `pc + 1`, and sets the base index just above the pushed
   * base. The `N` values pushed before it are then at base offsets
   * `-1-N+i` and the slot below them at `-2-N`.
   */
  lemma CallEntersCallee(code: seq<Instruction>, r: Regs, numArgs: nat)
    requires r.ip.Some? && 0 <= r.ip.value < |code| && code[r.ip.value].op == Call
    requires numArgs < |r.stack| && |r.stack| + 1 < SizeModulus
    ensures Transition(code, r).Next?
    ensures Transition(code, r).regs.ip == Some(r.ip.value + code[r.ip.value].p2)
    ensures Transition(code, r).regs.baseIdx == |r.stack| + 1 == |Transition(code, r).regs.stack|
    ensures Transition(code, r).regs.stack == r.stack + [Wrap16(r.baseIdx)]
    ensures Transition(code, r).regs.returnAddresses == r.returnAddresses + [Some(r.ip.value + 1)]
    ensures forall i :: 0 <= i < numArgs ==>
              ParameterSlot(Transition(code, r).regs.baseIdx, numArgs, i) == |r.stack| - numArgs + i
    ensures SlotIndex(Transition(code, r).regs.baseIdx, -2 - numArgs) == |r.stack| - numArgs - 1
  {
  }

  /**
   * `RETURN` undoes `CALL`: if the callee leaves the stack and the
   * return-address stack as `CALL` left them, `RETURN` resumes at the
   * instruction after the call with the caller's stack and, when it fits in
   * 16 bits, the caller's base index.
   */
  lemma CallReturnRoundTrip(code: seq<Instruction>, r: Regs, callee: Regs)
    requires r.ip.Some? && 0 <= r.ip.value < |code| && code[r.ip.value].op == Call
    requires r.baseIdx < 0x8000
    requires callee.ip.Some? && 0 <= callee.ip.value < |code| && code[callee.ip.value].op == Return
    requires callee.stack == Transition(code, r).regs.stack
    requires callee.returnAddresses == Transition(code, r).regs.returnAddresses
    ensures Transition(code, callee).Next?
    ensures var back := Transition(code, callee).regs;
            back.ip == Some(r.ip.value + 1) && back.stack == r.stack
            && back.baseIdx == r.baseIdx && back.returnAddresses == r.returnAddresses
  {
    assert Transition(code, r).regs.stack[..|r.stack|] == r.stack;
  }

  /**
   * The teardown and result of `Run`: on a normal stop with `|args|` slots to
   * pop, the result is the bottom slot, where the frame reserved it.
   */
  lemma RunResultIsBottomSlot(code: seq<Instruction>, entry: int, args: seq<Int16>, fuel: nat)
    requires Exec(code, InitialRegs(entry, args, true), fuel).Halted?
    ensures var r := Exec(code, InitialRegs(entry, args, true), fuel).regs;
            RunSpec(code, entry, args, true, fuel) ==
              if |r.stack| <= |args| then Faulted else Finished(Some(r.stack[0]), r.output)
  {
  }
}
