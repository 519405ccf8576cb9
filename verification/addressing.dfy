/** Addressing-mode resolution: the operand an instruction works on, the
    base cycle time it pays, and whether indexing crossed a page, which
    costs one more cycle. */
module Addressing {
  import opened Alu6502
  import opened Instruction
  import opened CpuState

  datatype Operand = Operand(value: bv16, cycleTime: bv8, pageCrossed: bool)

  /** Zero-page indexing stays in page zero: the sum wraps at 256. */
  function ZeroPageIndexed(operand: bv16, index: bv8): (r: bv16)
    ensures r < 0x100
    ensures LowByte(r) == LowByte(operand) + index
  {
    (operand + (index as bv16)) & 0xFF
  }

  /** The page test on two addresses is a comparison of high bytes. */
  function LeavesPage(base: bv16, result: bv16): (r: bool)
    ensures r <==> HighByte(result) != HighByte(base)
  {
    !IsOnSamePage(base, result)
  }

  /** Absolute indexing: the wrapped sum, and whether its high byte left
      the base address's page. */
  function Indexed(base: bv16, index: bv8): (r: (bv16, bool))
    ensures r.0 == base + (index as bv16)
    ensures r.1 <==> HighByte(r.0) != HighByte(base)
  {
    var result := base + (index as bv16);
    (result, LeavesPage(base, result))
  }

  /** The JMP (indirect) pointer. A pointer at the last byte of a page
      takes its high byte from the first byte of the same page, as the 6502
      does, instead of from the next page. */
  function IndirectTarget(mem: Memory, pointer: bv16): (r: bv16)
    ensures LowByte(r) == Read(mem, pointer)
    ensures LowByte(pointer) != 0xFF ==> r == ReadWord(mem, pointer)
    ensures LowByte(pointer) == 0xFF ==> HighByte(r) == Read(mem, pointer & 0xFF00)
  {
    var low := Read(mem, pointer);
    var high := Read(mem, if pointer & 0xFF == 0xFF then pointer & 0xFF00 else pointer + 1);
    Word(low, high)
  }

  /** A pointer stored in page zero; its second byte wraps to 0x00 rather
      than leaving the page. */
  function ZeroPagePointer(mem: Memory, location: bv16): (r: bv16)
    requires location < 0x100
    ensures LowByte(r) == Read(mem, location)
    ensures HighByte(r) == Read(mem, (location + 1) & 0xFF)
    ensures location < 0xFF ==> r == ReadWord(mem, location)
  {
    Word(Read(mem, location), Read(mem, (location + 1) & 0xFF))
  }

  /** The branch offset as a 16-bit two's-complement number: a byte below
      0x80 counts forward, a byte from 0x80 counts back 0x100 minus it. */
  function SignExtend(operand: bv16): (r: bv16)
    ensures operand < 0x80 ==> r == operand
    ensures 0x80 <= operand <= 0xFF ==> 0 - r == 0x100 - operand
  {
    operand | (if operand & 0x80 != 0 then 0xFF00 else 0x0000)
  }

  /** A relative branch's target: the program counter plus the
      sign-extended offset, wrapping around the address space. */
  function RelativeTarget(pc: bv16, operand: bv16): (r: bv16)
    ensures r == pc + SignExtend(operand)
  {
    pc + SignExtend(operand)
  }

  /** An indexed operand: the wrapped sum of base and index, with one extra
      cycle over `time` when the sum leaves the base's page. */
  function IndexedOperand(base: bv16, index: bv8, time: bv8): (r: Operand)
    requires time <= 5
    ensures r.value == base + (index as bv16)
    ensures r.pageCrossed <==> HighByte(r.value) != HighByte(base)
    ensures r.cycleTime == time + (if r.pageCrossed then 1 else 0)
  {
    var (address, crossed) := Indexed(base, index);
    Operand(address, time + (if crossed then 1 else 0), crossed)
  }

  /** The operand of the modes that do not index with page penalty:
      the address, or for immediate and one-byte forms the operand
      itself. */
  function UnindexedOperand(inst: Instruction, regs: Registers, mem: Memory): bv16
  {
    match inst.mode
    case ZeroPage => inst.operand & 0xFF
    case ZeroPageIndexX => ZeroPageIndexed(inst.operand, regs.x)
    case ZeroPageIndexY => ZeroPageIndexed(inst.operand, regs.y)
    case Indirect => IndirectTarget(mem, inst.operand)
    case XIndirect => ZeroPagePointer(mem, ZeroPageIndexed(inst.operand, regs.x))
    case Relative => RelativeTarget(regs.pc, inst.operand)
    case _ => inst.operand
  }

  /** The operand and whether indexing crossed a page; only the indexed
      modes can cross. */
  function Resolve(inst: Instruction, regs: Registers, mem: Memory): (r: (bv16, bool))
    ensures r.1 ==> CanCrossPage(inst.mode)
  {
    match inst.mode
    case IndirectY => Indexed(ZeroPagePointer(mem, inst.operand & 0xFF), regs.y)
    case AbsoluteX => Indexed(inst.operand, regs.x)
    case AbsoluteY => Indexed(inst.operand, regs.y)
    case _ => (UnindexedOperand(inst, regs, mem), false)
  }

  /** The operand, cycle time and page-cross flag for an instruction. Only
      the indexed modes can cross a page, and a crossing costs exactly one
      cycle over the mode's base time. */
  function DecodeOperand(inst: Instruction, regs: Registers, mem: Memory): (r: Operand)
    ensures r.pageCrossed ==> CanCrossPage(inst.mode)
    ensures r.cycleTime == BaseCycleTime(inst.mode) + (if r.pageCrossed then 1 else 0)
    ensures r.cycleTime <= 6
  {
    var (value, crossed) := Resolve(inst, regs, mem);
    Operand(value, BaseCycleTime(inst.mode) + (if crossed then 1 else 0), crossed)
  }

  /** Absolute indexed modes add X or Y to the 16-bit operand under the
      page rule of `IndexedOperand`, from a base time of four cycles. */
  lemma PageCrossRule(inst: Instruction, regs: Registers, mem: Memory)
    requires inst.mode == AbsoluteX || inst.mode == AbsoluteY
    ensures var index := if inst.mode == AbsoluteX then regs.x else regs.y;
            DecodeOperand(inst, regs, mem) == IndexedOperand(inst.operand, index, 4)
  {
  }

  /** Indirect-indexed: the pointer comes from page zero and Y is added to
      it under the same page rule, from a base time of five cycles. */
  lemma IndirectYRule(inst: Instruction, regs: Registers, mem: Memory)
    requires inst.mode == IndirectY
    ensures DecodeOperand(inst, regs, mem) == IndexedOperand(ZeroPagePointer(mem, inst.operand & 0xFF), regs.y, 5)
  {
  }

  /** Indexed-indirect: X is added to the operand inside page zero and the
      pointer is read from there, with no page penalty. */
  lemma XIndirectRule(inst: Instruction, regs: Registers, mem: Memory)
    requires inst.mode == XIndirect
    ensures DecodeOperand(inst, regs, mem) == Operand(ZeroPagePointer(mem, ZeroPageIndexed(inst.operand, regs.x)), 6, false)
  {
  }

  /** Relative branches resolve to their target in two cycles, never
      counting a crossing here; the branch itself charges for pages. */
  lemma RelativeRule(inst: Instruction, regs: Registers, mem: Memory)
    requires inst.mode == Relative
    ensures DecodeOperand(inst, regs, mem) == Operand(RelativeTarget(regs.pc, inst.operand), 2, false)
  {
  }

  /** Modes that do not index never report a crossing, and their cycle
      time is the mode's base time. */
  lemma NoPenaltyWithoutIndexing(inst: Instruction, regs: Registers, mem: Memory)
    requires !CanCrossPage(inst.mode)
    ensures !DecodeOperand(inst, regs, mem).pageCrossed
    ensures DecodeOperand(inst, regs, mem).cycleTime == BaseCycleTime(inst.mode)
  {
  }
}
