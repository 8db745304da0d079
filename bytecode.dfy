/** The optional value used for pointers that may be null. */
module Wrappers {
  datatype Option<+T> = None | Some(value: T)
}

/**
 * The instruction word shared by the code generator and the virtual machine:
 * fourteen opcodes, a signed 16-bit immediate, and the integer conversions
 * of the C++ source written out explicitly.
 */
module Bytecode {
  import opened Wrappers

  /** The values an `int16_t` can hold. */
  type Int16 = x: int | -0x8000 <= x < 0x8000

  /** The number of distinct values of `size_t` (a 64-bit target). */
  const SizeModulus: int := 0x1_0000_0000_0000_0000

  /** Conversion to `int16_t`: two's-complement truncation to the low 16 bits. */
  function Wrap16(x: int): (r: Int16)
    ensures -0x8000 <= x < 0x8000 ==> r == x
    ensures (x - r) % 0x1_0000 == 0
  {
    (x + 0x8000) % 0x1_0000 - 0x8000
  }

  /** Conversion of a signed value to `size_t`: reduction modulo 2^64. */
  function ToSize(x: int): (r: nat)
    ensures r < SizeModulus
    ensures 0 <= x < SizeModulus ==> r == x
    ensures -SizeModulus <= x < 0 ==> r == x + SizeModulus
  {
    x % SizeModulus
  }

  /** The fourteen operations of the machine. */
  datatype Opcode =
    | Exit
    | AddInt
    | PushInt
    | PopInt
    | PrintInt
    | CompareIntLess
    | LoadInt
    | StoreInt
    | JumpByIfZero
    | JumpBy
    | LoadIntBasePointerRelative
    | StoreIntBasePointerRelative
    | Call
    | Return

  const NumInstructions: nat := 14

  /** The opcode's index in the handler table, which is its numeric value. */
  function OpcodeNumber(op: Opcode): (n: nat)
    ensures n < NumInstructions
    ensures OpcodeOfNumber(n) == Some(op)
  {
    match op
    case Exit => 0
    case AddInt => 1
    case PushInt => 2
    case PopInt => 3
    case PrintInt => 4
    case CompareIntLess => 5
    case LoadInt => 6
    case StoreInt => 7
    case JumpByIfZero => 8
    case JumpBy => 9
    case LoadIntBasePointerRelative => 10
    case StoreIntBasePointerRelative => 11
    case Call => 12
    case Return => 13
  }

  /** The handler-table lookup: numbers past the table select no opcode. */
  function OpcodeOfNumber(n: nat): (r: Option<Opcode>)
    ensures r.Some? <==> n < NumInstructions
  {
    if n == 0 then Some(Exit)
    else if n == 1 then Some(AddInt)
    else if n == 2 then Some(PushInt)
    else if n == 3 then Some(PopInt)
    else if n == 4 then Some(PrintInt)
    else if n == 5 then Some(CompareIntLess)
    else if n == 6 then Some(LoadInt)
    else if n == 7 then Some(StoreInt)
    else if n == 8 then Some(JumpByIfZero)
    else if n == 9 then Some(JumpBy)
    else if n == 10 then Some(LoadIntBasePointerRelative)
    else if n == 11 then Some(StoreIntBasePointerRelative)
    else if n == 12 then Some(Call)
    else if n == 13 then Some(Return)
    else None
  }

  /** Every table slot holds the opcode whose number is that slot. */
  lemma OpcodeTableRoundTrip(n: nat)
    requires n < NumInstructions
    ensures OpcodeOfNumber(n).Some? && OpcodeNumber(OpcodeOfNumber(n).value) == n
  {
  }

  /** One bytecode word: an opcode and its signed 16-bit operand `p2`. */
  datatype Instruction = Instruction(op: Opcode, p2: Int16)
}
