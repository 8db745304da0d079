/**
 * Properties of the code generator: earlier code is never changed, the
 * shapes of the call, `while` and function lowerings, the error cases, the
 * hoisting and parameter layouts, and the stack effect of expressions.
 */
module CodeGenProperties {
  import opened Wrappers
  import opened Bytecode
  import opened CodeGen

  // ---------------------------------------------------------------------
  // Appending only

  /** Compiling a statement keeps every earlier instruction and recorded jump. */
  lemma {:induction false} StatementCodeExtends(s: Statement, sc: Scope, st: Emitted)
    requires WellFormed(s)
    ensures var p := StatementCode(s, sc, st);
            st.code <= p.out.code && st.returnJumps <= p.out.returnJumps
    decreases s, 1
  {
    match s.kind
    case VariableDeclaration =>
      if s.typ == Int32 && |s.params| > 0 && s.params[0].kind != Literal && s.name in sc.variableOffset {
        StatementCodeExtends(s.params[0], sc, st);
      }
    case FunctionCall =>
      CallCodeExtends(s, sc, st);
    case Literal =>
    case OperatorCall =>
      if |s.params| == 2 {
        if s.name == "+" || s.name == "<" {
          StatementsCodeExtends(s.params, sc, st);
        } else if s.name == "=" && s.params[0].name in sc.variableOffset {
          StatementCodeExtends(s.params[1], sc, st);
        }
      }
    case VariableName =>
    case WhileLoop =>
      WhileCodeExtends(s, sc, st);
  }

  /** `StatementCodeExtends` for a call, `return` or `printNum`. */
  lemma {:induction false} CallCodeExtends(s: Statement, sc: Scope, st: Emitted)
    requires WellFormed(s) && s.kind == FunctionCall
    ensures var p := StatementCode(s, sc, st);
            st.code <= p.out.code && st.returnJumps <= p.out.returnJumps
    decreases s, 0
  {
    if s.name == "return" || s.name == "printNum" {
      if |s.params| == 1 {
        StatementCodeExtends(s.params[0], sc, st);
      }
    } else if s.name in sc.functions {
      var callee := sc.functions[s.name];
      var reserved := if callee.returnsValue then Emit(st, Instruction(PushInt, 0)) else st;
      if callee.numArguments == |s.params| {
        StatementsCodeExtends(s.params, sc, reserved);
      }
    }
  }

  /** `StatementCodeExtends` for a `while` loop: the patch lands after the old code. */
  lemma {:induction false} WhileCodeExtends(s: Statement, sc: Scope, st: Emitted)
    requires WellFormed(s) && s.kind == WhileLoop
    ensures var p := StatementCode(s, sc, st);
            st.code <= p.out.code && st.returnJumps <= p.out.returnJumps
    decreases s, 0
  {
    StatementCodeExtends(s.params[0], sc, st);
    var condition := StatementCode(s.params[0], sc, st);
    if condition.Done? && |s.params| > 1 {
      var jumpIfZero := |condition.out.code|;
      var guarded := Emit(condition.out, Instruction(JumpByIfZero, 0));
      var looped := Emit(guarded, Instruction(JumpBy, Wrap16(|st.code| - |guarded.code|)));
      var patched := looped.code[jumpIfZero := Instruction(JumpByIfZero, Wrap16(|looped.code| - jumpIfZero))];
      assert patched[..|st.code|] == looped.code[..|st.code|];
    }
  }

  /** Compiling a statement list keeps every earlier instruction and recorded jump. */
  lemma {:induction false} StatementsCodeExtends(ss: seq<Statement>, sc: Scope, st: Emitted)
    requires AllWellFormed(ss)
    ensures var p := StatementsCode(ss, sc, st);
            st.code <= p.out.code && st.returnJumps <= p.out.returnJumps
    decreases ss
  {
    if ss != [] {
      StatementCodeExtends(ss[0], sc, st);
      var first := StatementCode(ss[0], sc, st);
      if first.Done? {
        StatementsCodeExtends(ss[1..], sc, first.out);
      }
    }
  }

  // ---------------------------------------------------------------------
  // Recorded return jumps

  /** Every recorded position lies at or after `from` and holds a `JUMP_BY` of the array. */
  ghost predicate JumpsRecorded(e: Emitted, from: nat)
  {
    forall k :: 0 <= k < |e.returnJumps| ==>
      from <= e.returnJumps[k] < |e.code| && e.code[e.returnJumps[k]].op == JumpBy
  }

  /** Appending instructions leaves recorded positions valid. */
  lemma RecordedAfterAppend(e: Emitted, extra: seq<Instruction>, from: nat)
    requires JumpsRecorded(e, from)
    ensures JumpsRecorded(e.(code := e.code + extra), from)
  {
    var e' := e.(code := e.code + extra);
    forall k | 0 <= k < |e.returnJumps|
      ensures e'.code[e.returnJumps[k]] == e.code[e.returnJumps[k]]
    {
    }
  }

  /**
   * While the array stays within 2^15 instructions, every position recorded
   * for a `return` is that of a `JUMP_BY` placeholder emitted by this
   * compilation, and stays one after any later compilation (the `while`
   * patch only touches its own jump-if-zero).
   */
  lemma {:induction false} StatementCodeRecordsJumps(s: Statement, sc: Scope, st: Emitted, from: nat)
    requires WellFormed(s) && JumpsRecorded(st, from) && from <= |st.code|
    requires |StatementCode(s, sc, st).out.code| <= 0x8000
    ensures JumpsRecorded(StatementCode(s, sc, st).out, from)
    decreases s, 1
  {
    match s.kind
    case VariableDeclaration =>
      if s.typ == Int32 && |s.params| > 0 && s.params[0].kind != Literal && s.name in sc.variableOffset {
        StatementCodeRecordsJumps(s.params[0], sc, st, from);
        var init := StatementCode(s.params[0], sc, st);
        if init.Done? {
          RecordedAfterAppend(init.out, [Instruction(StoreIntBasePointerRelative, sc.variableOffset[s.name])], from);
        }
      }
    case FunctionCall =>
      CallRecordsJumps(s, sc, st, from);
    case Literal =>
      RecordedAfterAppend(st, [Instruction(PushInt, Wrap16(s.literal))], from);
    case OperatorCall =>
      OperatorRecordsJumps(s, sc, st, from);
    case VariableName =>
      RecordedAfterAppend(st, StatementCode(s, sc, st).out.code[|st.code|..], from);
      assert st.code + StatementCode(s, sc, st).out.code[|st.code|..] == StatementCode(s, sc, st).out.code;
    case WhileLoop =>
      WhileRecordsJumps(s, sc, st, from);
  }

  lemma {:induction false} CallRecordsJumps(s: Statement, sc: Scope, st: Emitted, from: nat)
    requires WellFormed(s) && s.kind == FunctionCall && JumpsRecorded(st, from) && from <= |st.code|
    requires |StatementCode(s, sc, st).out.code| <= 0x8000
    ensures JumpsRecorded(StatementCode(s, sc, st).out, from)
    decreases s, 0
  {
    if s.name == "return" || s.name == "printNum" {
      if |s.params| == 1 {
        StatementCodeExtends(s.params[0], sc, st);
        StatementCodeRecordsJumps(s.params[0], sc, st, from);
        var value := StatementCode(s.params[0], sc, st);
        if value.Done? {
          if s.name == "return" {
            var stored := Emit(value.out, Instruction(StoreIntBasePointerRelative, ReturnSlotOffset(|sc.parameters|)));
            RecordedAfterAppend(value.out, [Instruction(StoreIntBasePointerRelative, ReturnSlotOffset(|sc.parameters|)),
                                             Instruction(JumpBy, 0)], from);
            assert stored.code + [Instruction(JumpBy, 0)] == value.out.code
              + [Instruction(StoreIntBasePointerRelative, ReturnSlotOffset(|sc.parameters|)), Instruction(JumpBy, 0)];
            assert Wrap16(|stored.code|) == |stored.code|;
          } else {
            RecordedAfterAppend(value.out, [Instruction(PrintInt, 0)], from);
          }
        }
      }
    } else if s.name in sc.functions {
      var callee := sc.functions[s.name];
      var reserved := if callee.returnsValue then Emit(st, Instruction(PushInt, 0)) else st;
      if callee.returnsValue {
        RecordedAfterAppend(st, [Instruction(PushInt, 0)], from);
      }
      if callee.numArguments == |s.params| {
        StatementsCodeRecordsJumps(s.params, sc, reserved, from);
        var args := StatementsCode(s.params, sc, reserved);
        if args.Done? {
          var k := |args.out.code|;
          RecordedAfterAppend(args.out, [Instruction(Call, Wrap16(callee.instructionOffset - k))] + PopInts(|s.params|), from);
          assert args.out.code + [Instruction(Call, Wrap16(callee.instructionOffset - k))] + PopInts(|s.params|)
              == args.out.code + ([Instruction(Call, Wrap16(callee.instructionOffset - k))] + PopInts(|s.params|));
        }
      }
    }
  }

  lemma {:induction false} OperatorRecordsJumps(s: Statement, sc: Scope, st: Emitted, from: nat)
    requires WellFormed(s) && s.kind == OperatorCall && JumpsRecorded(st, from) && from <= |st.code|
    requires |StatementCode(s, sc, st).out.code| <= 0x8000
    ensures JumpsRecorded(StatementCode(s, sc, st).out, from)
    decreases s, 0
  {
    if |s.params| == 2 {
      if s.name == "+" || s.name == "<" {
        StatementsCodeRecordsJumps(s.params, sc, st, from);
        var operands := StatementsCode(s.params, sc, st);
        if operands.Done? {
          RecordedAfterAppend(operands.out, [Instruction(if s.name == "<" then CompareIntLess else AddInt, 0)], from);
        }
      } else if s.name == "=" && s.params[0].name in sc.variableOffset {
        StatementCodeRecordsJumps(s.params[1], sc, st, from);
        var value := StatementCode(s.params[1], sc, st);
        if value.Done? {
          RecordedAfterAppend(value.out, [Instruction(StoreIntBasePointerRelative, sc.variableOffset[s.params[0].name])], from);
        }
      }
    }
  }

  lemma {:induction false} WhileRecordsJumps(s: Statement, sc: Scope, st: Emitted, from: nat)
    requires WellFormed(s) && s.kind == WhileLoop && JumpsRecorded(st, from) && from <= |st.code|
    requires |StatementCode(s, sc, st).out.code| <= 0x8000
    ensures JumpsRecorded(StatementCode(s, sc, st).out, from)
    decreases s, 0
  {
    StatementCodeRecordsJumps(s.params[0], sc, st, from);
    var condition := StatementCode(s.params[0], sc, st);
    if condition.Done? {
      var jumpIfZero := |condition.out.code|;
      var guarded := Emit(condition.out, Instruction(JumpByIfZero, 0));
      RecordedAfterAppend(condition.out, [Instruction(JumpByIfZero, 0)], from);
      if |s.params| > 1 {
        var looped := Emit(guarded, Instruction(JumpBy, Wrap16(|st.code| - |guarded.code|)));
        RecordedAfterAppend(guarded, [Instruction(JumpBy, Wrap16(|st.code| - |guarded.code|))], from);
        var out := StatementCode(s, sc, st).out;
        assert out.code == looped.code[jumpIfZero := Instruction(JumpByIfZero, Wrap16(|looped.code| - jumpIfZero))];
        assert out.returnJumps == looped.returnJumps;
        forall k | 0 <= k < |out.returnJumps|
          ensures from <= out.returnJumps[k] < |out.code| && out.code[out.returnJumps[k]].op == JumpBy
        {
          assert looped.code[out.returnJumps[k]].op == JumpBy;
          assert out.returnJumps[k] != jumpIfZero;
        }
      }
    }
  }

  lemma {:induction false} StatementsCodeRecordsJumps(ss: seq<Statement>, sc: Scope, st: Emitted, from: nat)
    requires AllWellFormed(ss) && JumpsRecorded(st, from) && from <= |st.code|
    requires |StatementsCode(ss, sc, st).out.code| <= 0x8000
    ensures JumpsRecorded(StatementsCode(ss, sc, st).out, from)
    decreases ss
  {
    if ss != [] {
      var first := StatementCode(ss[0], sc, st);
      if first.Done? {
        StatementsCodeExtends(ss[1..], sc, first.out);
        StatementCodeExtends(ss[0], sc, st);
        StatementCodeRecordsJumps(ss[0], sc, st, from);
        StatementsCodeRecordsJumps(ss[1..], sc, first.out, from);
      } else {
        StatementCodeRecordsJumps(ss[0], sc, st, from);
      }
    }
  }

  /**
   * Patching sets the operand of each recorded jump so that position plus
   * operand is `cleanup`, and changes nothing else.
   */
  lemma {:induction false} PatchReturnJumpsLands(code: seq<Instruction>, jumps: seq<Int16>, cleanup: nat)
    requires forall k :: 0 <= k < |jumps| ==> 0 <= jumps[k] < |code|
    requires cleanup < 0x8000
    ensures var r := PatchReturnJumps(code, jumps, cleanup);
            (forall k :: 0 <= k < |jumps| ==> r[jumps[k]].op == code[jumps[k]].op && jumps[k] + r[jumps[k]].p2 == cleanup)
            && (forall i :: 0 <= i < |code| && i !in jumps ==> r[i] == code[i])
  {
    if jumps != [] {
      var prefix := jumps[..|jumps| - 1];
      PatchReturnJumpsLands(code, prefix, cleanup);
      var c := PatchReturnJumps(code, prefix, cleanup);
      var j := jumps[|jumps| - 1];
      var r := PatchReturnJumps(code, jumps, cleanup);
      assert r == c[j := c[j].(p2 := cleanup - j)];
      forall k | 0 <= k < |jumps|
        ensures r[jumps[k]].op == code[jumps[k]].op && jumps[k] + r[jumps[k]].p2 == cleanup
      {
        if jumps[k] != j {
          assert k < |jumps| - 1 && jumps[k] == prefix[k];
        }
      }
      forall i | 0 <= i < |code| && i !in jumps
        ensures r[i] == code[i]
      {
        assert i !in prefix by {
          assert forall k :: 0 <= k < |prefix| ==> prefix[k] == jumps[k];
        }
      }
    }
  }

  // ---------------------------------------------------------------------
  // Lowering shapes

  /**
   * A call of a compiled function emits, in order: `PUSH_INT 0` only when
   * the callee returns a value, the arguments left to right, one `CALL` at
   * position k whose operand is entry-k, and one `POP_INT` per argument.
   */
  lemma CallSiteLayout(s: Statement, sc: Scope, st: Emitted)
    requires WellFormed(s) && s.kind == FunctionCall && s.name != "return" && s.name != "printNum"
    requires StatementCode(s, sc, st).Done?
    ensures s.name in sc.functions && sc.functions[s.name].numArguments == |s.params|
    ensures var callee := sc.functions[s.name];
            var reserved := if callee.returnsValue then st.code + [Instruction(PushInt, 0)] else st.code;
            var args := StatementsCode(s.params, sc, Emitted(reserved, st.returnJumps));
            var k := |args.out.code|;
            && args.Done?
            && reserved <= args.out.code
            && StatementCode(s, sc, st).out.code
               == args.out.code + [Instruction(Call, Wrap16(callee.instructionOffset - k))] + PopInts(|s.params|)
            && (-0x8000 <= callee.instructionOffset - k < 0x8000 ==>
                  k + StatementCode(s, sc, st).out.code[k].p2 == callee.instructionOffset)
  {
    var callee := sc.functions[s.name];
    var reserved := if callee.returnsValue then Emit(st, Instruction(PushInt, 0)) else st;
    StatementsCodeExtends(s.params, sc, reserved);
  }

  /**
   * The `while` lowering: the condition, one `JUMP_BY_IF_ZERO`, and, when a
   * body statement exists, one `JUMP_BY` back to the first condition
   * instruction, with the jump-if-zero landing just past it. The body
   * statements themselves are never compiled; with no body the jump-if-zero
   * keeps operand 0.
   */
  lemma WhileLayout(s: Statement, sc: Scope, st: Emitted)
    requires WellFormed(s) && s.kind == WhileLoop
    requires StatementCode(s, sc, st).Done?
    requires |StatementCode(s, sc, st).out.code| <= 0x8000
    ensures var condition := StatementCode(s.params[0], sc, st);
            var out := StatementCode(s, sc, st).out;
            var jz := |condition.out.code|;
            && condition.Done?
            && out.returnJumps == condition.out.returnJumps
            && out.code[..jz] == condition.out.code
            && st.code <= condition.out.code
            && out.code[jz].op == JumpByIfZero
            && (|s.params| == 1 ==> |out.code| == jz + 1 && out.code[jz].p2 == 0)
            && (|s.params| > 1 ==>
                  |out.code| == jz + 2
                  && out.code[jz + 1].op == JumpBy
                  && jz + 1 + out.code[jz + 1].p2 == |st.code|
                  && jz + out.code[jz].p2 == |out.code|)
  {
    StatementCodeExtends(s.params[0], sc, st);
  }

  /**
   * The corrected `while` lowering agrees with `StatementCode` on every loop
   * with a body statement. On a loop without one it differs only in the
   * jump-if-zero, which lands just past the loop. Either way the jump-if-zero
   * follows the condition code and lands on the end of the loop.
   */
  lemma PatchedWhileLayout(s: Statement, sc: Scope, st: Emitted)
    requires WellFormed(s) && s.kind == WhileLoop
    ensures PatchedWhileCode(s, sc, st).Done? == StatementCode(s, sc, st).Done?
    ensures |s.params| > 1 ==> PatchedWhileCode(s, sc, st) == StatementCode(s, sc, st)
    ensures |s.params| == 1 && StatementCode(s, sc, st).Done? ==>
              var out := StatementCode(s, sc, st).out;
              var jz := |StatementCode(s.params[0], sc, st).out.code|;
              jz < |out.code|
              && PatchedWhileCode(s, sc, st) == Done(out.(code := out.code[jz := Instruction(JumpByIfZero, 1)]))
    ensures PatchedWhileCode(s, sc, st).Done? ==>
              var out := PatchedWhileCode(s, sc, st).out;
              var jz := |StatementCode(s.params[0], sc, st).out.code|;
              && jz < |out.code|
              && out.code[..jz] == StatementCode(s.params[0], sc, st).out.code
              && out.code[jz].op == JumpByIfZero
              && jz + out.code[jz].p2 == |out.code|
  {
  }

  /** Each compile error is raised where the generator raises it, with the code emitted so far. */
  lemma CompileErrors(s: Statement, sc: Scope, st: Emitted)
    requires WellFormed(s)
    ensures s.kind == VariableDeclaration && s.typ == Int32 && |s.params| > 0 && s.params[0].kind != Literal
            && s.name !in sc.variableOffset ==>
              StatementCode(s, sc, st) == Failed(st, UnknownVariable(s.name))
    ensures s.kind == FunctionCall && s.name == "return" && |s.params| != 1 ==>
              StatementCode(s, sc, st) == Failed(st, ReturnArity)
    ensures s.kind == FunctionCall && s.name == "printNum" && |s.params| != 1 ==>
              StatementCode(s, sc, st) == Failed(st, PrintNumArity)
    ensures s.kind == FunctionCall && s.name != "return" && s.name != "printNum" && s.name !in sc.functions ==>
              StatementCode(s, sc, st) == Failed(st, UnknownFunction(s.name))
    ensures s.kind == FunctionCall && s.name != "return" && s.name != "printNum" && s.name in sc.functions
            && sc.functions[s.name].numArguments != |s.params| ==>
              var callee := sc.functions[s.name];
              StatementCode(s, sc, st) == Failed(
                if callee.returnsValue then Emit(st, Instruction(PushInt, 0)) else st,
                ArgumentCountMismatch(s.name, callee.numArguments, |s.params|))
    ensures s.kind == OperatorCall && |s.params| != 2 ==>
              StatementCode(s, sc, st) == Failed(st, OperatorArity(s.name))
    ensures s.kind == OperatorCall && |s.params| == 2 && s.name == "=" && s.params[0].name !in sc.variableOffset ==>
              StatementCode(s, sc, st) == Failed(st, UnknownVariable(s.params[0].name))
    ensures s.kind == VariableName && s.name !in sc.variableOffset && s.name !in sc.parameters ==>
              StatementCode(s, sc, st) == Failed(st, UnknownVariable(s.name))
  {
  }

  /**
   * Name resolution: a local shadows a parameter; parameter i of N is read
   * at base offset -1-N+i.
   */
  lemma VariableResolution(s: Statement, sc: Scope, st: Emitted)
    requires WellFormed(s) && s.kind == VariableName && (s.name in sc.variableOffset || s.name in sc.parameters)
    ensures StatementCode(s, sc, st) == Done(Emit(st, Instruction(LoadIntBasePointerRelative,
              if s.name in sc.variableOffset then sc.variableOffset[s.name]
              else ParameterOffset(|sc.parameters|, sc.parameters[s.name].index))))
    ensures s.name !in sc.variableOffset && sc.parameters[s.name].index < |sc.parameters| < 0x7fff ==>
              StatementCode(s, sc, st).out.code[|st.code|].p2 == -1 - |sc.parameters| + sc.parameters[s.name].index
  {
  }

  /**
   * A `return` evaluates its argument, stores it at base offset -2-N, and
   * records the position of the `JUMP_BY` placeholder it emits last.
   */
  lemma ReturnLayout(s: Statement, sc: Scope, st: Emitted)
    requires WellFormed(s) && s.kind == FunctionCall && s.name == "return"
    requires StatementCode(s, sc, st).Done?
    ensures |s.params| == 1
    ensures var value := StatementCode(s.params[0], sc, st);
            var out := StatementCode(s, sc, st).out;
            var n := |value.out.code|;
            && value.Done?
            && st.code <= value.out.code
            && out.code == value.out.code + [Instruction(StoreIntBasePointerRelative, ReturnSlotOffset(|sc.parameters|)),
                                             Instruction(JumpBy, 0)]
            && out.returnJumps == value.out.returnJumps + [Wrap16(n + 1)]
            && (|sc.parameters| < 0x7ffe ==> ReturnSlotOffset(|sc.parameters|) == -2 - |sc.parameters|)
  {
    StatementCodeExtends(s.params[0], sc, st);
  }

  // ---------------------------------------------------------------------
  // Function layout

  /** The number of top-level declarations the hoisting pass reserves a slot for. */
  function DeclCount(stmts: seq<Statement>): nat
  {
    if stmts == [] then 0
    else DeclCount(stmts[..|stmts| - 1]) + (if IsIntDeclaration(stmts[|stmts| - 1]) then 1 else 0)
  }

  /** No later declaration of the same name follows position `k`. */
  ghost predicate LastDeclaration(stmts: seq<Statement>, k: nat)
    requires k < |stmts|
  {
    forall k' :: k < k' < |stmts| && IsIntDeclaration(stmts[k']) ==> stmts[k'].name != stmts[k].name
  }

  /**
   * The prologue has exactly one `PUSH_INT` per top-level integer
   * declaration, in order, carrying its literal initializer or 0; the
   * declaration's local gets the number of declarations before it as offset.
   */
  lemma {:induction false} HoistLayout(stmts: seq<Statement>)
    ensures var fr := Hoist(stmts);
            && fr.numIntVariable == DeclCount(stmts) == |fr.prologue|
            && (forall k :: 0 <= k < |stmts| && IsIntDeclaration(stmts[k]) ==>
                  DeclCount(stmts[..k]) < |fr.prologue|
                  && fr.prologue[DeclCount(stmts[..k])] == Instruction(PushInt, Wrap16(InitialValue(stmts[k]))))
            && (forall k :: 0 <= k < |stmts| && IsIntDeclaration(stmts[k]) && LastDeclaration(stmts, k) ==>
                  stmts[k].name in fr.variableOffsets
                  && fr.variableOffsets[stmts[k].name] == Wrap16(DeclCount(stmts[..k])))
  {
    if stmts != [] {
      var last := |stmts| - 1;
      var init := stmts[..last];
      HoistLayout(init);
      forall k | 0 <= k < last
        ensures stmts[..k] == init[..k] && stmts[k] == init[k]
      {
      }
      assert stmts[..last] == init;
      forall k | 0 <= k < |stmts| && IsIntDeclaration(stmts[k]) && LastDeclaration(stmts, k)
        ensures k == last || LastDeclaration(init, k)
      {
      }
    }
  }

  /**
   * With distinct parameter names, parameter i of the definition gets
   * ordinal i and the map holds exactly N entries.
   */
  lemma {:induction false} ParameterMapIndices(names: seq<string>)
    requires forall i, j :: 0 <= i < j < |names| ==> names[i] != names[j]
    ensures |ParameterMap(names)| == |names|
    ensures forall i :: 0 <= i < |names| ==>
              names[i] in ParameterMap(names) && ParameterMap(names)[names[i]] == Parameter(names[i], i)
    ensures forall n :: n in ParameterMap(names) ==> n in names
  {
    if names != [] {
      var last := |names| - 1;
      ParameterMapIndices(names[..last]);
      assert names[last] !in names[..last];
      assert names[last] !in ParameterMap(names[..last]);
    }
  }

  /**
   * `generateCodeForFunction`, when it succeeds: the symbol-table entry
   * (entry = old code length, arity, returns flag) is written before the body
   * is compiled, so the body sees it; the old code is kept; the prologue
   * follows it; the epilogue is one `POP_INT` per hoisted local and a final
   * `RETURN`; and every recorded `return` jump lands on the first epilogue
   * instruction.
   */
  lemma FunctionLayout(f: FunctionDefinition, code: seq<Instruction>, functions: map<string, CompiledFunction>)
    requires AllWellFormed(f.statements)
    requires FunctionCode(f, code, functions).error.None?
    requires |FunctionCode(f, code, functions).code| <= 0x8000
    ensures var out := FunctionCode(f, code, functions);
            var frame := Hoist(f.statements);
            var entry := CompiledFunction(|code|, |f.parameters|, f.returnsValue);
            var sc := Scope(frame.variableOffsets, ParameterMap(f.parameters), functions[f.name := entry]);
            var body := StatementsCode(f.statements, sc, Emitted(code + frame.prologue, []));
            var cleanup := |body.out.code|;
            && out.functions == functions[f.name := entry]
            && body.Done?
            && code + frame.prologue <= out.code
            && |frame.prologue| == DeclCount(f.statements)
            && |out.code| == cleanup + frame.numIntVariable + 1
            && out.code[cleanup..] == PopInts(frame.numIntVariable) + [Instruction(Return, 0)]
            && (forall k :: 0 <= k < |body.out.returnJumps| ==>
                  var j := body.out.returnJumps[k];
                  0 <= j < cleanup && out.code[j].op == JumpBy && j + out.code[j].p2 == cleanup)
  {
    var frame := Hoist(f.statements);
    HoistLayout(f.statements);
    var entry := CompiledFunction(|code|, |f.parameters|, f.returnsValue);
    var sc := Scope(frame.variableOffsets, ParameterMap(f.parameters), functions[f.name := entry]);
    var start := Emitted(code + frame.prologue, []);
    var body := StatementsCode(f.statements, sc, start);
    StatementsCodeExtends(f.statements, sc, start);
    StatementsCodeRecordsJumps(f.statements, sc, start, |start.code|);
    var cleanup := |body.out.code|;
    PatchReturnJumpsLands(body.out.code, body.out.returnJumps, cleanup);
    var patched := PatchReturnJumps(body.out.code, body.out.returnJumps, cleanup);
    var out := FunctionCode(f, code, functions);
    assert out.code == patched + PopInts(frame.numIntVariable) + [Instruction(Return, 0)];
    assert out.code[..|patched|] == patched;
    PatchKeepsPrefix(body.out.code, body.out.returnJumps, cleanup, |start.code|);
  }

  /** Patching jumps recorded at or after `n` leaves the first `n` instructions alone. */
  lemma PatchKeepsPrefix(code: seq<Instruction>, jumps: seq<Int16>, cleanup: nat, n: nat)
    requires n <= |code| && cleanup < 0x8000
    requires forall k :: 0 <= k < |jumps| ==> n <= jumps[k] < |code|
    ensures PatchReturnJumps(code, jumps, cleanup)[..n] == code[..n]
  {
    PatchReturnJumpsLands(code, jumps, cleanup);
    var patched := PatchReturnJumps(code, jumps, cleanup);
    forall i | 0 <= i < n
      ensures patched[i] == code[i]
    {
      assert i !in jumps;
    }
  }

  // ---------------------------------------------------------------------
  // Stack effect of expressions

  /**
   * The change in stack height an instruction makes when it runs. A `CALL`
   * counts zero: this assumes a balanced callee, whose matching `RETURN`
   * pops exactly the saved base index the `CALL` pushed. The generator does
   * not guarantee that (a call statement of a value-returning function
   * leaves its reserved slot behind), so `NetEffect` is a static count, not
   * the run-time effect of code that calls.
   */
  function StackEffect(i: Instruction): int
  {
    match i.op
    case PushInt => 1
    case LoadInt => 1
    case LoadIntBasePointerRelative => 1
    case AddInt => -1
    case CompareIntLess => -1
    case PopInt => -1
    case PrintInt => -1
    case StoreInt => -1
    case StoreIntBasePointerRelative => -1
    case JumpByIfZero => -1
    case Return => -1
    case Exit => 0
    case JumpBy => 0
    case Call => 0
  }

  function NetEffect(code: seq<Instruction>): int
  {
    if code == [] then 0 else NetEffect(code[..|code| - 1]) + StackEffect(code[|code| - 1])
  }

  lemma {:induction false} NetEffectAppend(a: seq<Instruction>, b: seq<Instruction>)
    ensures NetEffect(a + b) == NetEffect(a) + NetEffect(b)
    decreases |b|
  {
    if b == [] {
      assert a + b == a;
    } else {
      var last := |b| - 1;
      assert (a + b)[..|a + b| - 1] == a + b[..last];
      assert (a + b)[|a + b| - 1] == b[last];
      NetEffectAppend(a, b[..last]);
    }
  }

  lemma {:induction false} NetEffectPopInts(n: nat)
    ensures NetEffect(PopInts(n)) == -(n as int)
  {
    if n > 0 {
      assert PopInts(n)[..n - 1] == PopInts(n - 1);
      NetEffectPopInts(n - 1);
    }
  }

  /**
   * The expression nodes: an integer literal, a variable, `+` or `<` over two
   * expressions, or a call of a compiled function that returns a value.
   */
  predicate IsExpression(s: Statement, functions: map<string, CompiledFunction>)
  {
    match s.kind
    case Literal => s.typ == Int32
    case VariableName => true
    case OperatorCall =>
      |s.params| == 2 && (s.name == "+" || s.name == "<")
      && IsExpression(s.params[0], functions) && IsExpression(s.params[1], functions)
    case FunctionCall =>
      s.name != "return" && s.name != "printNum" && s.name in functions && functions[s.name].returnsValue
      && forall t <- s.params :: IsExpression(t, functions)
    case VariableDeclaration => false
    case WhileLoop => false
  }

  /** Compiled expressions leave exactly one more value on the stack and record no jump. */
  lemma {:induction false} ExpressionNetEffect(s: Statement, sc: Scope, st: Emitted)
    requires WellFormed(s) && IsExpression(s, sc.functions)
    requires StatementCode(s, sc, st).Done?
    ensures var out := StatementCode(s, sc, st).out;
            st.code <= out.code && NetEffect(out.code[|st.code|..]) == 1 && out.returnJumps == st.returnJumps
    decreases s, 1
  {
    var out := StatementCode(s, sc, st).out;
    match s.kind
    case Literal =>
      assert out.code[|st.code|..] == [Instruction(PushInt, Wrap16(s.literal))];
    case VariableName =>
      assert |out.code[|st.code|..]| == 1;
    case OperatorCall =>
      OperatorNetEffect(s, sc, st);
    case FunctionCall =>
      CallNetEffect(s, sc, st);
  }

  lemma {:induction false} OperatorNetEffect(s: Statement, sc: Scope, st: Emitted)
    requires WellFormed(s) && IsExpression(s, sc.functions) && s.kind == OperatorCall
    requires StatementCode(s, sc, st).Done?
    ensures var out := StatementCode(s, sc, st).out;
            st.code <= out.code && NetEffect(out.code[|st.code|..]) == 1 && out.returnJumps == st.returnJumps
    decreases s, 0
  {
    var out := StatementCode(s, sc, st).out;
    var operands := StatementsCode(s.params, sc, st);
    ArgumentsNetEffect(s.params, sc, st);
    var op := Instruction(if s.name == "<" then CompareIntLess else AddInt, 0);
    assert out.code == operands.out.code + [op];
    assert out.code[|st.code|..] == operands.out.code[|st.code|..] + [op];
    NetEffectAppend(operands.out.code[|st.code|..], [op]);
    assert NetEffect([op]) == -1;
  }

  lemma {:induction false} CallNetEffect(s: Statement, sc: Scope, st: Emitted)
    requires WellFormed(s) && IsExpression(s, sc.functions) && s.kind == FunctionCall
    requires StatementCode(s, sc, st).Done?
    ensures var out := StatementCode(s, sc, st).out;
            st.code <= out.code && NetEffect(out.code[|st.code|..]) == 1 && out.returnJumps == st.returnJumps
    decreases s, 0
  {
    var out := StatementCode(s, sc, st).out;
    var callee := sc.functions[s.name];
    var reserved := Emit(st, Instruction(PushInt, 0));
    var args := StatementsCode(s.params, sc, reserved);
    ArgumentsNetEffect(s.params, sc, reserved);
    var k := |args.out.code|;
    var push := [Instruction(PushInt, 0)];
    var call := [Instruction(Call, Wrap16(callee.instructionOffset - k))];
    var argCode := args.out.code[|reserved.code|..];
    assert args.out.code == st.code + push + argCode;
    assert out.code == st.code + push + argCode + call + PopInts(|s.params|);
    assert out.code[|st.code|..] == push + argCode + call + PopInts(|s.params|);
    CallSequenceNetEffect(argCode, call[0].p2, |s.params|);
  }

  /** Reserving the result slot, the arguments, the call and their pops leave one value. */
  lemma CallSequenceNetEffect(argCode: seq<Instruction>, target: Int16, n: nat)
    requires NetEffect(argCode) == n
    ensures NetEffect([Instruction(PushInt, 0)] + argCode + [Instruction(Call, target)] + PopInts(n)) == 1
  {
    var push, call := [Instruction(PushInt, 0)], [Instruction(Call, target)];
    NetEffectAppend(push, argCode);
    NetEffectAppend(push + argCode, call);
    NetEffectAppend(push + argCode + call, PopInts(n));
    NetEffectPopInts(n);
    assert NetEffect(push) == 1;
    assert NetEffect(call) == 0;
  }

  /** Compiled argument lists leave one value per argument and record no jump. */
  lemma {:induction false} ArgumentsNetEffect(ss: seq<Statement>, sc: Scope, st: Emitted)
    requires AllWellFormed(ss) && forall t <- ss :: IsExpression(t, sc.functions)
    requires StatementsCode(ss, sc, st).Done?
    ensures var out := StatementsCode(ss, sc, st).out;
            st.code <= out.code && NetEffect(out.code[|st.code|..]) == |ss| && out.returnJumps == st.returnJumps
    decreases ss
  {
    StatementsCodeExtends(ss, sc, st);
    if ss != [] {
      var first := StatementCode(ss[0], sc, st);
      ExpressionNetEffect(ss[0], sc, st);
      ArgumentsNetEffect(ss[1..], sc, first.out);
      StatementsCodeExtends(ss[1..], sc, first.out);
      var out := StatementsCode(ss, sc, st).out;
      assert out.code[|st.code|..] == first.out.code[|st.code|..] + out.code[|first.out.code|..];
      NetEffectAppend(first.out.code[|st.code|..], out.code[|first.out.code|..]);
    }
  }
}
