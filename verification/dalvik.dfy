/**
  The slice of the Dalvik instruction set a stub body is made of: six opcodes
  in the formats 10x, 11n, 11x and 21s, the registers each instruction
  touches, and a straight-line semantics that says what a body returns.
  Instructions are kept abstract; nothing here encodes them to code units.
 */
module Dalvik {

  /** The opcodes a stub uses, named after their Dalvik mnemonics
      (return-void, const/4, return, const-wide/16, return-wide, return-object). */
  datatype Opcode = ReturnVoid | Const4 | Return | ConstWide16 | ReturnWide | ReturnObject

  /** The instruction formats these opcodes are defined in. */
  datatype Format = F10x | F11n | F11x | F21s

  function FormatOf(op: Opcode): Format {
    match op
    case ReturnVoid => F10x
    case Const4 => F11n
    case ConstWide16 => F21s
    case Return => F11x
    case ReturnWide => F11x
    case ReturnObject => F11x
  }

  /** True of the opcodes whose register operand names a register pair vA, vA+1. */
  predicate IsWide(op: Opcode) {
    op == ConstWide16 || op == ReturnWide
  }

  /** One instruction, tagged with its format: opcode, register operand vA and
      literal. `Unmodelled` stands for any instruction of an original method
      body; such bodies are only ever discarded, so their operands are not kept. */
  datatype Instruction =
    | Insn10x(op: Opcode)
    | Insn11n(op: Opcode, a: nat, literal: int)
    | Insn11x(op: Opcode, a: nat)
    | Insn21s(op: Opcode, a: nat, literal: int)
    | Unmodelled(mnemonic: string)

  /** The format constraints: the opcode belongs to the instruction's format,
      a 4-bit register and signed 4-bit literal for 11n, an 8-bit register for
      11x and 21s, and a signed 16-bit literal for 21s. */
  predicate WellFormed(insn: Instruction) {
    match insn
    case Insn10x(op) => FormatOf(op) == F10x
    case Insn11n(op, a, lit) => FormatOf(op) == F11n && a < 16 && -8 <= lit < 8
    case Insn11x(op, a) => FormatOf(op) == F11x && a < 256
    case Insn21s(op, a, lit) => FormatOf(op) == F21s && a < 256 && -32768 <= lit < 32768
    case Unmodelled(_) => false
  }

  /** The registers an instruction reads or writes; a wide opcode uses the pair vA, vA+1. */
  function Touched(insn: Instruction): set<nat> {
    match insn
    case Insn10x(_) => {}
    case Insn11n(op, a, _) => if IsWide(op) then {a, a + 1} else {a}
    case Insn11x(op, a) => if IsWide(op) then {a, a + 1} else {a}
    case Insn21s(op, a, _) => if IsWide(op) then {a, a + 1} else {a}
    case Unmodelled(_) => {}
  }

  /** try blocks and debug items of a method body; a stub has none of either. */
  datatype TryBlock = TryBlock(startCodeAddress: nat, codeUnitCount: nat, handlerTypes: seq<string>)
  datatype DebugItem = DebugItem(codeAddress: nat)

  /** A method body: the size of its register file, its instructions, its try
      blocks and its debug items. */
  datatype MethodImplementation = MethodImplementation(
    registerCount: nat,
    instructions: seq<Instruction>,
    tryBlocks: seq<TryBlock>,
    debugItems: seq<DebugItem>)

  /** Every register any instruction of the body touches lies inside its register file. */
  predicate RegistersInRange(body: MethodImplementation) {
    forall i, r :: 0 <= i < |body.instructions| && r in Touched(body.instructions[i]) ==> r < body.registerCount
  }

  predicate AllWellFormed(code: seq<Instruction>) {
    forall i :: 0 <= i < |code| ==> WellFormed(code[i])
  }

  /** The register type a return instruction hands back. */
  datatype ReturnKind = VoidKind | NarrowKind | WideKind | ReferenceKind

  /** What running a body ends in: a return of some kind and value (the
      reference 0 being null), or a fault (an out-of-range or unset register,
      an unknown instruction, or falling off the end of the code). */
  datatype Outcome = Returned(kind: ReturnKind, value: int) | Fault

  /** Registers hold 32-bit words. */
  const Word: int := 0x1_0000_0000

  /** Runs straight-line code from the register contents `regs` (a register
      absent from the map holds nothing yet) in a file of `registerCount`
      registers. const/4 and const-wide/16 sign-extend their literal to 32 and
      64 bits; a wide value is kept low word first. */
  function Exec(code: seq<Instruction>, regs: map<nat, int>, registerCount: nat): Outcome
    decreases |code|
  {
    if |code| == 0 then Fault
    else
      match code[0]
      case Insn10x(op) =>
        if op == ReturnVoid then Returned(VoidKind, 0) else Fault
      case Insn11n(op, a, lit) =>
        if op == Const4 && a < registerCount then Exec(code[1..], regs[a := lit % Word], registerCount)
        else Fault
      case Insn11x(op, a) =>
        if op == ReturnWide then
          if a + 1 < registerCount && a in regs && a + 1 in regs
          then Returned(WideKind, regs[a] + regs[a + 1] * Word)
          else Fault
        else if (op == Return || op == ReturnObject) && a < registerCount && a in regs then
          Returned(if op == Return then NarrowKind else ReferenceKind, regs[a])
        else Fault
      case Insn21s(op, a, lit) =>
        if op == ConstWide16 && a + 1 < registerCount then
          var v := lit % (Word * Word);
          Exec(code[1..], regs[a := v % Word][a + 1 := v / Word], registerCount)
        else Fault
      case Unmodelled(_) => Fault
  }
}
