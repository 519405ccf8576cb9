/** Execution of one decoded instruction: what it does to the registers and
    memory, the cycle time it takes, and whether it detected a jump to
    itself. BRK also touches the interrupt pins and is handled with the
    processor state in `CpuRun`. */
module Execution {
  import opened Common
  import opened Alu6502
  import opened Instruction
  import opened CpuState
  import opened Addressing

  datatype Outcome = Outcome(core: Core, cycleTime: bv8, state: RunState)

  /** The byte an instruction works on: memory at the decoded address, or
      the low byte of the operand itself for immediate and implied forms. */
  function OperandByte(mode: AddressingMode, d: Operand, mem: Memory): (r: bv8)
    ensures IsOperandAddress(mode) ==> r == Read(mem, d.value)
    ensures !IsOperandAddress(mode) ==> r == LowByte(d.value)
  {
    if IsOperandAddress(mode) then Read(mem, d.value) else LowByte(d.value)
  }

  /** The cycle time charged when the instruction is fetched: the decoded
      time, except for JMP, which is cheaper than its mode's base time. */
  function Estimate(inst: Instruction, c: Core): (r: bv8)
    ensures 2 <= r <= 6
  {
    if inst.opcode == Jmp then (if inst.mode == Absolute then 3 else 5)
    else DecodeOperand(inst, c.regs, c.mem).cycleTime
  }

  // ---------------------------------------------------------------------
  // Instructions that read one byte and change only registers

  predicate IsReadOperation(op: Opcode)
  {
    match op
    case Adc | Sbc | And | Eor | Ora | Cmp | Cpx | Cpy | Bit | Lda | Ldx | Ldy => true
    case _ => false
  }

  /** A load sets the register and Z and N from the byte. */
  function Load(status: bv8, m: bv8): (r: AluResult)
    ensures r.value == m
    ensures Flag(r.status, ZERO) <==> m == 0
    ensures Flag(r.status, NEGATIVE) <==> IsNegative(m)
    ensures r.status & 0x7D == status & 0x7D
  {
    AluResult(m, UpdateZeroNegative(status, m))
  }

  /** The register effect of an instruction that reads the byte `m`. The
      stack pointer and the program counter never change, comparisons and
      BIT change only the status, and each operation writes one register at
      most. */
  function ReadOperation(op: Opcode, regs: Registers, m: bv8): (r: Registers)
    requires IsReadOperation(op)
    ensures r.pc == regs.pc && r.sp == regs.sp
    ensures op in {Cmp, Cpx, Cpy, Bit} ==> r == regs.(status := r.status)
    ensures op in {Adc, Sbc, And, Eor, Ora, Lda} ==> r == regs.(a := r.a, status := r.status)
    ensures op == Ldx ==> r == regs.(x := m, status := r.status)
    ensures op == Ldy ==> r == regs.(y := m, status := r.status)
  {
    match op
    case Adc => WithAccumulator(regs, Alu6502.Adc(regs.a, m, regs.status))
    case Sbc => WithAccumulator(regs, Alu6502.Sbc(regs.a, m, regs.status))
    case And => WithAccumulator(regs, Alu6502.And(regs.a, m, regs.status))
    case Eor => WithAccumulator(regs, Alu6502.Eor(regs.a, m, regs.status))
    case Ora => WithAccumulator(regs, Alu6502.Ora(regs.a, m, regs.status))
    case Cmp => WithStatus(regs, Compare(regs.a, m, regs.status))
    case Cpx => WithStatus(regs, Compare(regs.x, m, regs.status))
    case Cpy => WithStatus(regs, Compare(regs.y, m, regs.status))
    case Bit => WithStatus(regs, Alu6502.Bit(regs.a, m, regs.status))
    case Lda => WithAccumulator(regs, Load(regs.status, m))
    case Ldx => var s := Load(regs.status, m); Registers(regs.pc, regs.sp, regs.a, s.value, regs.y, s.status)
    case Ldy => var s := Load(regs.status, m); Registers(regs.pc, regs.sp, regs.a, regs.x, s.value, s.status)
  }

  /** An ALU result written back to A and the status. */
  function WithAccumulator(regs: Registers, s: AluResult): (r: Registers)
    ensures r == regs.(a := s.value, status := s.status)
  {
    Registers(regs.pc, regs.sp, s.value, regs.x, regs.y, s.status)
  }

  /** A new status, every other register kept. */
  function WithStatus(regs: Registers, status: bv8): (r: Registers)
    ensures r == regs.(status := status)
  {
    Registers(regs.pc, regs.sp, regs.a, regs.x, regs.y, status)
  }

  /** A read works on the byte at the decoded address, or on the operand
      itself when there is no address, and writes nothing. */
  function ReadInstruction(inst: Instruction, c: Core, d: Operand): (r: Outcome)
    requires IsReadOperation(inst.opcode)
    ensures IsOperandAddress(inst.mode) ==> r.core.regs == ReadOperation(inst.opcode, c.regs, Read(c.mem, d.value))
    ensures !IsOperandAddress(inst.mode) ==> r.core.regs == ReadOperation(inst.opcode, c.regs, LowByte(d.value))
    ensures r.core.mem == c.mem && r.state == NormalInstructionExecution
    ensures r.cycleTime == d.cycleTime
  {
    var m := OperandByte(inst.mode, d, c.mem);
    Outcome(Core(ReadOperation(inst.opcode, c.regs, m), c.mem), d.cycleTime, NormalInstructionExecution)
  }

  // ---------------------------------------------------------------------
  // Read-modify-write instructions

  predicate IsReadModifyWrite(op: Opcode)
  {
    match op
    case Asl | Lsr | Rol | Ror | Inc | Dec => true
    case _ => false
  }

  /** INC and DEC add or subtract one, wrapping, and set Z and N. */
  function Step1(v: bv8, up: bool, status: bv8): (r: AluResult)
    ensures up ==> r.value - v == 1
    ensures !up ==> v - r.value == 1
    ensures Flag(r.status, ZERO) <==> r.value == 0
    ensures Flag(r.status, NEGATIVE) <==> IsNegative(r.value)
    ensures r.status & 0x7D == status & 0x7D
  {
    var value := if up then v + 1 else v - 1;
    AluResult(value, UpdateZeroNegative(status, value))
  }

  /** Z tells whether the value is zero and N whether it is negative. */
  predicate ZeroNegativeOf(r: AluResult)
  {
    (Flag(r.status, ZERO) <==> r.value == 0) && (Flag(r.status, NEGATIVE) <==> IsNegative(r.value))
  }

  /** The value a read-modify-write leaves, with Z and N set from it; the
      shifts and rotates move the bit they push out into C, INC and DEC keep
      C, and the flags in bits 2-6 never change. */
  function Modify(op: Opcode, v: bv8, status: bv8): (r: AluResult)
    requires IsReadModifyWrite(op)
    ensures ZeroNegativeOf(r)
    ensures r.status & 0x7C == status & 0x7C
    ensures op == Asl || op == Rol ==> (Flag(r.status, CARRY) <==> v >= 0x80)
    ensures op == Lsr || op == Ror ==> (Flag(r.status, CARRY) <==> v % 2 == 1)
    ensures op == Inc || op == Dec ==> (Flag(r.status, CARRY) <==> Flag(status, CARRY))
  {
    match op
    case Asl => Alu6502.Asl(v, status)
    case Lsr => Alu6502.Lsr(v, status)
    case Rol => Alu6502.Rol(v, status)
    case Ror => Alu6502.Ror(v, status)
    case Inc => var r := Step1(v, true, status); BitOfMask(r.status, status); r
    case Dec => var r := Step1(v, false, status); BitOfMask(r.status, status); r
  }

  /** The time of a read-modify-write on memory: seven cycles with
      AbsoluteX, otherwise two more than the decoded time. */
  function ModifyTime(mode: AddressingMode, d: Operand): (r: bv8)
    requires d.cycleTime <= 6
    ensures r >= d.cycleTime + 1 && r <= 8
  {
    if mode == AbsoluteX then 7 else d.cycleTime + 2
  }

  /** On an address, the byte there is replaced by its modified value and
      nothing else in memory changes; without one, the shifts work on A. */
  function ReadModifyWriteInstruction(inst: Instruction, c: Core, d: Operand): (r: Outcome)
    requires IsReadModifyWrite(inst.opcode) && d.cycleTime <= 6
    ensures r.core.regs.pc == c.regs.pc && r.core.regs.sp == c.regs.sp
    ensures r.core.regs.x == c.regs.x && r.core.regs.y == c.regs.y
    ensures r.state == NormalInstructionExecution
    ensures IsOperandAddress(inst.mode) ==>
              var m := Modify(inst.opcode, Read(c.mem, d.value), c.regs.status);
              r.core.mem == Write(c.mem, d.value, m.value) &&
              r.core.regs == c.regs.(status := m.status) &&
              r.cycleTime == ModifyTime(inst.mode, d)
    ensures !IsOperandAddress(inst.mode) ==>
              var m := Modify(inst.opcode, c.regs.a, c.regs.status);
              r.core.mem == c.mem && r.core.regs == c.regs.(a := m.value, status := m.status) &&
              r.cycleTime == d.cycleTime
  {
    if IsOperandAddress(inst.mode) then
      var m := Modify(inst.opcode, Read(c.mem, d.value), c.regs.status);
      Outcome(Core(c.regs.(status := m.status), Write(c.mem, d.value, m.value)),
              ModifyTime(inst.mode, d), NormalInstructionExecution)
    else
      var m := Modify(inst.opcode, c.regs.a, c.regs.status);
      Outcome(Core(c.regs.(a := m.value, status := m.status), c.mem), d.cycleTime, NormalInstructionExecution)
  }

  // ---------------------------------------------------------------------
  // Branches

  /** The flag each conditional branch tests, and its sense. */
  function BranchCondition(op: Opcode, status: bv8): (r: bool)
    requires IsBranch(op)
    ensures op == Bcc ==> (r <==> !Flag(status, CARRY))
    ensures op == Bcs ==> (r <==> Flag(status, CARRY))
    ensures op == Beq ==> (r <==> Flag(status, ZERO))
    ensures op == Bne ==> (r <==> !Flag(status, ZERO))
    ensures op == Bmi ==> (r <==> Flag(status, NEGATIVE))
    ensures op == Bpl ==> (r <==> !Flag(status, NEGATIVE))
    ensures op == Bvs ==> (r <==> Flag(status, OVERFLOW))
    ensures op == Bvc ==> (r <==> !Flag(status, OVERFLOW))
  {
    match op
    case Bcc => status & CARRY == 0
    case Bcs => status & CARRY != 0
    case Beq => status & ZERO != 0
    case Bmi => status & NEGATIVE != 0
    case Bne => status & ZERO == 0
    case Bpl => status & NEGATIVE == 0
    case Bvc => status & OVERFLOW == 0
    case Bvs => status & OVERFLOW != 0
  }

  /** The extra cycles of a branch: none when not taken, one when taken
      within the page of the next instruction, two across pages. */
  function BranchPenalty(taken: bool, pc: bv16, target: bv16): (r: bv8)
    ensures !taken ==> r == 0
    ensures taken ==> (r == 1 <==> HighByte(pc) == HighByte(target)) && 1 <= r <= 2
  {
    if !taken then 0 else if !LeavesPage(pc, target) then 1 else 2
  }

  /** A taken branch moves PC to the target and pays `BranchPenalty`. A
      taken branch to itself (PC minus the two bytes of the branch) is
      reported as an infinite loop. */
  function BranchInstruction(inst: Instruction, c: Core, d: Operand): (r: Outcome)
    requires IsBranch(inst.opcode) && d.cycleTime <= 6
    ensures r.core.mem == c.mem
    ensures r.core.regs == c.regs.(pc := if BranchCondition(inst.opcode, c.regs.status) then d.value else c.regs.pc)
    ensures r.cycleTime == d.cycleTime + BranchPenalty(BranchCondition(inst.opcode, c.regs.status), c.regs.pc, d.value)
    ensures r.state.InfiniteLoop? <==> BranchCondition(inst.opcode, c.regs.status) && d.value == c.regs.pc - 2
    ensures r.state.InfiniteLoop? ==> r.state.pc == d.value
    ensures !r.state.InfiniteLoop? ==> r.state == NormalInstructionExecution
  {
    var taken := BranchCondition(inst.opcode, c.regs.status);
    var before := c.regs.pc - 2;
    var state := if taken && d.value == before then InfiniteLoop(before) else NormalInstructionExecution;
    Outcome(Core(c.regs.(pc := if taken then d.value else c.regs.pc), c.mem),
            d.cycleTime + BranchPenalty(taken, c.regs.pc, d.value), state)
  }

  // ---------------------------------------------------------------------
  // Flag and register instructions

  predicate IsFlagOperation(op: Opcode)
  {
    match op
    case Clc | Cld | Cli | Clv | Sec | Sed | Sei => true
    case _ => false
  }

  /** Each flag instruction sets or clears one flag and keeps the rest. */
  function FlagOperation(op: Opcode, status: bv8): (r: bv8)
    requires IsFlagOperation(op)
    ensures var flag := match op
                        case Clc => CARRY case Sec => CARRY
                        case Cld => DECIMAL_MODE case Sed => DECIMAL_MODE
                        case Cli => INTERRUPT_DISABLE case Sei => INTERRUPT_DISABLE
                        case _ => OVERFLOW;
            r & !flag == status & !flag &&
            (op in {Sec, Sed, Sei} ==> r & flag == flag) &&
            (op in {Clc, Cld, Cli, Clv} ==> r & flag == 0)
  {
    match op
    case Clc => SetFlagStatus(status, CARRY, false)
    case Cld => SetFlagStatus(status, DECIMAL_MODE, false)
    case Cli => SetFlagStatus(status, INTERRUPT_DISABLE, false)
    case Clv => SetFlagStatus(status, OVERFLOW, false)
    case Sec => SetFlagStatus(status, CARRY, true)
    case Sed => SetFlagStatus(status, DECIMAL_MODE, true)
    case Sei => SetFlagStatus(status, INTERRUPT_DISABLE, true)
  }

  predicate IsRegisterOperation(op: Opcode)
  {
    match op
    case Dex | Dey | Inx | Iny | Tax | Tay | Txa | Tya | Tsx | Txs | Nop | Kil => true
    case _ => false
  }

  /** Increments, decrements and transfers between registers. Every one
      but TXS sets Z and N from the value it writes; NOP and KIL change
      nothing. PC never changes. */
  function RegisterOperation(op: Opcode, regs: Registers): (r: Registers)
    requires IsRegisterOperation(op)
    ensures r.pc == regs.pc
    ensures op == Tax ==> r.a == regs.a && r.x == regs.a && r.y == regs.y && r.sp == regs.sp
    ensures op == Tay ==> r.a == regs.a && r.x == regs.x && r.y == regs.a && r.sp == regs.sp
    ensures op == Txa ==> r.a == regs.x && r.x == regs.x && r.y == regs.y && r.sp == regs.sp
    ensures op == Tya ==> r.a == regs.y && r.x == regs.x && r.y == regs.y && r.sp == regs.sp
    ensures op == Tsx ==> r.x == regs.sp && r.sp == regs.sp && r.a == regs.a && r.y == regs.y
    ensures op == Txs ==> r == regs.(sp := regs.x)
    ensures op == Inx ==> r.x - regs.x == 1 && r.sp == regs.sp
    ensures op == Dex ==> regs.x - r.x == 1 && r.sp == regs.sp
    ensures op == Iny ==> r.y - regs.y == 1 && r.sp == regs.sp
    ensures op == Dey ==> regs.y - r.y == 1 && r.sp == regs.sp
    ensures op == Nop || op == Kil ==> r == regs
  {
    match op
    case Dex => var s := Step1(regs.x, false, regs.status); regs.(x := s.value, status := s.status)
    case Dey => var s := Step1(regs.y, false, regs.status); regs.(y := s.value, status := s.status)
    case Inx => var s := Step1(regs.x, true, regs.status); regs.(x := s.value, status := s.status)
    case Iny => var s := Step1(regs.y, true, regs.status); regs.(y := s.value, status := s.status)
    case Tax => var s := Load(regs.status, regs.a); regs.(x := s.value, status := s.status)
    case Tay => var s := Load(regs.status, regs.a); regs.(y := s.value, status := s.status)
    case Txa => var s := Load(regs.status, regs.x); regs.(a := s.value, status := s.status)
    case Tya => var s := Load(regs.status, regs.y); regs.(a := s.value, status := s.status)
    case Tsx => var s := Load(regs.status, regs.sp); regs.(x := s.value, status := s.status)
    case Txs => regs.(sp := regs.x)
    case Nop => regs
    case Kil => regs
  }

  // ---------------------------------------------------------------------
  // Jumps, subroutines and the stack

  /** JMP loads PC from the decoded address in three cycles (absolute) or
      five (indirect); a jump to its own first byte is an infinite loop. */
  function JmpInstruction(inst: Instruction, c: Core, d: Operand): (r: Outcome)
    ensures r.core == Core(c.regs.(pc := d.value), c.mem)
    ensures r.cycleTime == if inst.mode == Absolute then 3 else 5
    ensures r.state.InfiniteLoop? <==> d.value == c.regs.pc - 3
    ensures !r.state.InfiniteLoop? ==> r.state == NormalInstructionExecution
  {
    var before := c.regs.pc - 3;
    var state := if before == d.value then InfiniteLoop(before) else NormalInstructionExecution;
    Outcome(Core(c.regs.(pc := d.value), c.mem), if inst.mode == Absolute then 3 else 5, state)
  }

  /** JSR pushes the address of its own last byte, high byte first, and
      jumps; six cycles. */
  function JsrInstruction(c: Core, d: Operand): (r: Outcome)
    ensures r.core.regs == c.regs.(pc := d.value, sp := c.regs.sp - 2)
    ensures Read(r.core.mem, StackAddress(c.regs.sp)) == HighByte(c.regs.pc - 1)
    ensures Read(r.core.mem, StackAddress(c.regs.sp - 1)) == LowByte(c.regs.pc - 1)
    ensures r.cycleTime == 6 && r.state == NormalInstructionExecution
  {
    var back := c.regs.pc - 1;
    var pushed := Push(Push(c, HighByte(back)), LowByte(back));
    Outcome(Core(pushed.regs.(pc := d.value), pushed.mem), 6, NormalInstructionExecution)
  }

  /** RTS pulls the low and then the high byte and resumes one past that
      address; six cycles. */
  function RtsInstruction(c: Core): (r: Outcome)
    ensures r.core.mem == c.mem
    ensures r.core.regs == c.regs.(sp := c.regs.sp + 2, pc := r.core.regs.pc)
    ensures r.core.regs.pc == ResumeAddress(c)
    ensures r.cycleTime == 6 && r.state == NormalInstructionExecution
  {
    var (pulled, address) := PullWord(c);
    Outcome(Core(pulled.regs.(pc := address + 1), pulled.mem), 6, NormalInstructionExecution)
  }

  /** Where RTS resumes: one past the little-endian address on top of the
      stack. */
  function ResumeAddress(c: Core): bv16
  {
    TopWord(c) + 1
  }

  /** The little-endian word on top of the stack. */
  function TopWord(c: Core): bv16
  {
    Word(Read(c.mem, StackAddress(c.regs.sp + 1)), Read(c.mem, StackAddress(c.regs.sp + 2)))
  }

  /** The status a pull restores: bits 4 and 5 keep whatever was set in the
      register before, in addition to the pulled bits. */
  function PulledStatus(pulled: bv8, previous: bv8): (r: bv8)
    ensures r & 0xCF == pulled & 0xCF
    ensures r & 0x30 == (pulled | previous) & 0x30
  {
    pulled | (previous & 0x30)
  }

  /** RTI pulls the status, then the return address itself (no +1 as in
      RTS); six cycles. */
  function RtiInstruction(c: Core): (r: Outcome)
    ensures r.core.mem == c.mem
    ensures r.core.regs == c.regs.(sp := c.regs.sp + 3, pc := r.core.regs.pc, status := r.core.regs.status)
    ensures r.core.regs.status == PulledStatus(Read(c.mem, StackAddress(c.regs.sp + 1)), c.regs.status)
    ensures r.core.regs.pc == Word(Read(c.mem, StackAddress(c.regs.sp + 2)), Read(c.mem, StackAddress(c.regs.sp + 3)))
    ensures r.cycleTime == 6 && r.state == NormalInstructionExecution
  {
    var (c1, status) := Pull(c);
    var (c2, low) := Pull(c1);
    var (c3, high) := Pull(c2);
    var regs := c3.regs.(status := PulledStatus(status, c.regs.status), pc := Word(low, high));
    Outcome(Core(regs, c3.mem), 6, NormalInstructionExecution)
  }

  predicate IsStackOperation(op: Opcode)
  {
    match op
    case Pha | Php | Pla | Plp => true
    case _ => false
  }

  /** PHA and PHP push A or the status with bits 4 and 5 set, in three
      cycles; PLA and PLP pull into A (setting Z and N) or the status, in
      four. */
  function StackInstruction(op: Opcode, c: Core): (r: Outcome)
    requires IsStackOperation(op)
    ensures r.core.regs.pc == c.regs.pc && r.state == NormalInstructionExecution
    ensures op == Pha ==> r.core == Push(c, c.regs.a) && r.cycleTime == 3
    ensures op == Php ==> r.core == Push(c, c.regs.status | 0x30) && r.cycleTime == 3
    ensures op == Pla ==> r.core.mem == c.mem && r.core.regs.sp == c.regs.sp + 1 &&
                          r.core.regs.a == Read(c.mem, StackAddress(c.regs.sp + 1)) && r.cycleTime == 4
    ensures op == Plp ==> r.core.mem == c.mem && r.core.regs == c.regs.(sp := c.regs.sp + 1, status := r.core.regs.status) &&
                          r.core.regs.status == PulledStatus(Read(c.mem, StackAddress(c.regs.sp + 1)), c.regs.status) &&
                          r.cycleTime == 4
  {
    match op
    case Pha => Outcome(Push(c, c.regs.a), 3, NormalInstructionExecution)
    case Php => Outcome(Push(c, c.regs.status | 0x30), 3, NormalInstructionExecution)
    case Pla =>
      var (c1, v) := Pull(c);
      var s := Load(c1.regs.status, v);
      Outcome(Core(c1.regs.(a := s.value, status := s.status), c1.mem), 4, NormalInstructionExecution)
    case Plp =>
      var (c1, v) := Pull(c);
      Outcome(Core(c1.regs.(status := PulledStatus(v, c.regs.status)), c1.mem), 4, NormalInstructionExecution)
  }

  // ---------------------------------------------------------------------
  // Stores

  predicate IsStore(op: Opcode)
  {
    match op
    case Sta | Stx | Sty | Sax | Ahx | Shy | Shx | Tas => true
    case _ => false
  }

  /** The one extra cycle that STA and the unstable stores pay on an
      indexed mode when indexing did not cross a page; when it did, the
      decoded time already includes it. */
  function IndexPenalty(mode: AddressingMode, d: Operand): (r: bv8)
    ensures r <= 1
    ensures r == 1 <==> CanCrossPage(mode) && !d.pageCrossed
  {
    if CanCrossPage(mode) && !d.pageCrossed then 1 else 0
  }

  /** The unstable stores SHY and SHX: the value is the register ANDed with
      the address's high byte plus one, and it replaces that high byte in
      the address written. */
  function UnstableStore(register: bv8, address: bv16): (r: (bv16, bv8))
    ensures r.1 == register & (HighByte(address) + 1)
    ensures LowByte(r.0) == LowByte(address) && HighByte(r.0) == r.1
  {
    var value := register & (HighByte(address) + 1);
    (Word(LowByte(address), value), value)
  }

  /** The byte SAX stores: X AND A. */
  function XAndA(regs: Registers): bv8
  {
    regs.x & regs.a
  }

  /** What a store does: the registers after it (only TAS changes one, the
      stack pointer), the byte written and where, and the cycles it pays
      over the decoded time. */
  datatype Store = Store(regs: Registers, address: bv16, value: bv8, extra: bv8)

  function StoreOf(inst: Instruction, regs: Registers, d: Operand): (s: Store)
    requires IsStore(inst.opcode)
    ensures s.extra <= 1
    ensures s.regs == regs.(sp := s.regs.sp)
    ensures inst.opcode != Tas ==> s.regs == regs
    ensures inst.opcode == Sta ==> s == Store(regs, d.value, regs.a, IndexPenalty(inst.mode, d))
    ensures inst.opcode == Stx ==> s == Store(regs, d.value, regs.x, 0)
    ensures inst.opcode == Sty ==> s == Store(regs, d.value, regs.y, 0)
    ensures inst.opcode == Sax ==> s == Store(regs, d.value, XAndA(regs), 0)
    ensures inst.opcode == Shy ==> (s.address, s.value) == UnstableStore(regs.y, d.value)
    ensures inst.opcode == Shx ==> (s.address, s.value) == UnstableStore(regs.x, d.value)
  {
    var penalty: bv8 := if d.pageCrossed then 0 else 1;
    match inst.opcode
    case Sta => Store(regs, d.value, regs.a, IndexPenalty(inst.mode, d))
    case Stx => Store(regs, d.value, regs.x, 0)
    case Sty => Store(regs, d.value, regs.y, 0)
    case Sax => Store(regs, d.value, XAndA(regs), 0)
    case Ahx => Store(regs, d.value, regs.a & regs.x & HighByte(d.value), penalty)
    case Shy =>
      var (address, value) := UnstableStore(regs.y, d.value);
      Store(regs, address, value, penalty)
    case Shx =>
      var (address, value) := UnstableStore(regs.x, d.value);
      Store(regs, address, value, penalty)
    case Tas =>
      var sp := regs.x & regs.a;
      Store(regs.(sp := sp), d.value, sp & HighByte(d.value), penalty)
  }

  /** The stores write one byte and change no register but TAS's SP. SHY
      and SHX write to the address that `UnstableStore` rebuilds, not to the
      decoded one. */
  function StoreInstruction(inst: Instruction, c: Core, d: Operand): (r: Outcome)
    requires IsStore(inst.opcode) && d.cycleTime <= 6
    ensures r.core.regs == c.regs.(sp := r.core.regs.sp) && r.state == NormalInstructionExecution
    ensures inst.opcode != Tas ==> r.core.regs == c.regs
    ensures inst.opcode == Sta ==> r.core.mem == Write(c.mem, d.value, c.regs.a) &&
                                   r.cycleTime == d.cycleTime + IndexPenalty(inst.mode, d)
    ensures inst.opcode == Stx ==> r.core.mem == Write(c.mem, d.value, c.regs.x) && r.cycleTime == d.cycleTime
    ensures inst.opcode == Sty ==> r.core.mem == Write(c.mem, d.value, c.regs.y) && r.cycleTime == d.cycleTime
    ensures inst.opcode == Sax ==> r.core.mem == Write(c.mem, d.value, XAndA(c.regs)) && r.cycleTime == d.cycleTime
    ensures inst.opcode == Shy ==> r.core.mem == Write(c.mem, UnstableStore(c.regs.y, d.value).0, UnstableStore(c.regs.y, d.value).1)
    ensures inst.opcode == Shx ==> r.core.mem == Write(c.mem, UnstableStore(c.regs.x, d.value).0, UnstableStore(c.regs.x, d.value).1)
    ensures r.cycleTime >= d.cycleTime && r.cycleTime <= d.cycleTime + 1
  {
    var s := StoreOf(inst, c.regs, d);
    Outcome(Core(s.regs, Write(c.mem, s.address, s.value)), d.cycleTime + s.extra, NormalInstructionExecution)
  }

  // ---------------------------------------------------------------------
  // Unofficial opcodes built from two official ones

  predicate IsCombined(op: Opcode)
  {
    match op
    case Slo | Sre | Rla | Rra | Isc | Dcp => true
    case _ => false
  }

  /** The read-modify-write half and the read half of each combination. */
  function CombinedParts(op: Opcode): (r: (Opcode, Opcode))
    requires IsCombined(op)
    ensures IsReadModifyWrite(r.0) && IsReadOperation(r.1)
  {
    match op
    case Slo => (Asl, Ora)
    case Sre => (Lsr, Eor)
    case Rla => (Rol, And)
    case Rra => (Ror, Adc)
    case Isc => (Inc, Sbc)
    case Dcp => (Dec, Cmp)
  }

  /** The same operand and mode under another opcode, as the executor
      builds for the halves of a combination. */
  function WithOpcode(inst: Instruction, op: Opcode): (r: Instruction)
    ensures r.operand == inst.operand && r.mode == inst.mode && r.opcode == op
  {
    Instruction(0, inst.operand, op, inst.mode)
  }

  /** The time of a combination: two cycles over the decoded time, and the
      page-cross cycle whether or not the page was crossed. */
  function CombinedTime(mode: AddressingMode, d: Operand): (r: bv8)
    requires d.cycleTime == BaseCycleTime(mode) + (if d.pageCrossed then 1 else 0)
    requires d.pageCrossed ==> CanCrossPage(mode)
    ensures r == BaseCycleTime(mode) + 2 + (if CanCrossPage(mode) then 1 else 0)
    ensures d.cycleTime + 2 <= r <= 8
  {
    d.cycleTime + 2 + IndexPenalty(mode, d)
  }

  /** The modify half runs first; the read half then decodes its operand
      again on the changed memory and registers. */
  function CombinedInstruction(inst: Instruction, c: Core, d: Operand): (r: Outcome)
    requires IsCombined(inst.opcode) && d == DecodeOperand(inst, c.regs, c.mem)
    ensures r.cycleTime == CombinedTime(inst.mode, d) && r.state == NormalInstructionExecution
    ensures r.core.regs.pc == c.regs.pc && r.core.regs.sp == c.regs.sp
  {
    var (change, use) := CombinedParts(inst.opcode);
    var first := ReadModifyWriteInstruction(WithOpcode(inst, change), c, d);
    var second := WithOpcode(inst, use);
    var o := ReadInstruction(second, first.core, DecodeOperand(second, first.core.regs, first.core.mem));
    Outcome(o.core, CombinedTime(inst.mode, d), NormalInstructionExecution)
  }

  predicate IsImmediateCombination(op: Opcode)
  {
    match op
    case Lax | Anc | Alr | Arr | Axs | Xaa | Las => true
    case _ => false
  }

  /** ARR's carry is bit 6 of the result and its overflow bit 6 XOR bit 5. */
  function ArrStatus(value: bv8, status: bv8): (r: bv8)
    ensures Flag(r, CARRY) <==> value & 0x40 != 0
    ensures Flag(r, OVERFLOW) <==> (value & 0x40 != 0) != (value & 0x20 != 0)
    ensures r & 0xBE == status & 0xBE
  {
    var s := SetFlagStatus(status, CARRY, (value >> 6) & 1 != 0);
    SetFlagStatus(s, OVERFLOW, ((value >> 6) & 1) ^ ((value >> 5) & 1) != 0)
  }

  /** LAX loads the byte into both A and X. */
  function LaxOperation(regs: Registers, m: bv8): (r: Registers)
    ensures r == regs.(a := m, x := m, status := r.status)
    ensures r.status == Load(regs.status, m).status
  {
    var s := Load(regs.status, m);
    regs.(a := s.value, x := s.value, status := s.status)
  }

  /** ANC is AND with the carry then copied from the negative flag. */
  function AncOperation(regs: Registers, m: bv8): (r: Registers)
    ensures r == regs.(a := regs.a & m, status := r.status)
    ensures Flag(r.status, CARRY) <==> IsNegative(regs.a & m)
  {
    var s := Alu6502.And(regs.a, m, regs.status);
    regs.(a := s.value, status := SetFlagStatus(s.status, CARRY, s.status & NEGATIVE != 0))
  }

  /** Two bytes that agree under the mask 0x7D agree in the carry bit. */
  lemma BitOfMask(x: bv8, y: bv8)
    requires x & 0x7D == y & 0x7D
    ensures x & 0x01 == y & 0x01
    ensures x & 0x7C == y & 0x7C
    ensures Flag(x, CARRY) <==> Flag(y, CARRY)
  {
    assert x & 0x01 == (x & 0x7D) & 0x01;
    assert y & 0x01 == (y & 0x7D) & 0x01;
    assert x & 0x7C == (x & 0x7D) & 0x7C;
    assert y & 0x7C == (y & 0x7D) & 0x7C;
  }

  /** ALR is AND followed by LSR on A. */
  function AlrOperation(regs: Registers, m: bv8): (r: Registers)
    ensures r == regs.(a := (regs.a & m) / 2, status := r.status)
    ensures Flag(r.status, CARRY) <==> (regs.a & m) % 2 == 1
  {
    var s := Alu6502.And(regs.a, m, regs.status);
    var t := Alu6502.Lsr(s.value, s.status);
    regs.(a := t.value, status := t.status)
  }

  /** ARR is AND followed by ROR on A, with C and V then taken from bits 6
      and 5 of the result. */
  function ArrOperation(regs: Registers, m: bv8): (r: Registers)
    ensures r == regs.(a := (regs.a & m) / 2 + CarryBit(regs.status) * 0x80, status := r.status)
    ensures Flag(r.status, CARRY) <==> r.a & 0x40 != 0
  {
    var s := Alu6502.And(regs.a, m, regs.status);
    AndValue(regs.a, m, regs.status);
    AndKeepsCarry(regs.a, m, regs.status);
    var t := Alu6502.Ror(s.value, s.status);
    WithAccumulator(regs, AluResult(t.value, ArrStatus(t.value, t.status)))
  }

  /** AND leaves the carry flag alone. */
  lemma AndKeepsCarry(a: bv8, m: bv8, status: bv8)
    ensures CarryBit(Alu6502.And(a, m, status).status) == CarryBit(status)
  {
    var s := Alu6502.And(a, m, status);
    assert s.status & 0x01 == status & 0x01 by {
      BitOfMask(s.status, status);
    }
  }

  /** The byte AND leaves in A is the bitwise conjunction. */
  lemma AndValue(a: bv8, m: bv8, status: bv8)
    ensures Alu6502.And(a, m, status).value == a & m
  {
  }

  /** AXS sets X to (X AND A) minus the byte, with the flags of a compare:
      C means no borrow. */
  function AxsOperation(regs: Registers, m: bv8): (r: Registers)
    ensures r == regs.(x := (regs.x & regs.a) - m, status := r.status)
    ensures r.status == Compare(regs.x & regs.a, m, regs.status)
  {
    regs.(x := (regs.x & regs.a) - m, status := Compare(regs.x & regs.a, m, regs.status))
  }

  /** XAA is TXA followed by AND. */
  function XaaOperation(regs: Registers, m: bv8): (r: Registers)
    ensures r == regs.(a := regs.x & m, status := r.status)
  {
    var s := Alu6502.And(regs.x, m, regs.status);
    regs.(a := s.value, status := s.status)
  }

  /** LAS loads the byte AND SP into A, X and SP. */
  function LasOperation(regs: Registers, m: bv8): (r: Registers)
    ensures r == regs.(a := m & regs.sp, x := m & regs.sp, sp := m & regs.sp, status := r.status)
  {
    var s := Load(regs.status, m & regs.sp);
    regs.(a := s.value, x := s.value, sp := s.value, status := s.status)
  }

  /** The combined immediate instructions change only A, X, SP and the
      flags: none touches PC or Y, only LAS touches SP, ANC, ALR, ARR and
      XAA keep X, and AXS keeps A. */
  function ImmediateCombination(op: Opcode, regs: Registers, m: bv8): (r: Registers)
    requires IsImmediateCombination(op)
    ensures r.pc == regs.pc && r.y == regs.y
    ensures op != Las ==> r.sp == regs.sp
    ensures op == Anc || op == Alr || op == Arr || op == Xaa ==> r.x == regs.x
    ensures op == Axs ==> r.a == regs.a
  {
    match op
    case Lax => LaxOperation(regs, m)
    case Anc => AncOperation(regs, m)
    case Alr => AlrOperation(regs, m)
    case Arr => ArrOperation(regs, m)
    case Axs => AxsOperation(regs, m)
    case Xaa => XaaOperation(regs, m)
    case Las => LasOperation(regs, m)
  }

  // ---------------------------------------------------------------------
  // Dispatch

  /** The instructions that touch at most the registers and one byte of
      memory, without the stack. */
  function DataStep(inst: Instruction, c: Core, d: Operand): (r: Outcome)
    requires d == DecodeOperand(inst, c.regs, c.mem)
    requires IsReadOperation(inst.opcode) || IsReadModifyWrite(inst.opcode) || IsStore(inst.opcode) ||
             IsCombined(inst.opcode) || IsImmediateCombination(inst.opcode)
    ensures d.cycleTime <= r.cycleTime <= 8
  {
    var op := inst.opcode;
    if IsReadOperation(op) then ReadInstruction(inst, c, d)
    else if IsReadModifyWrite(op) then ReadModifyWriteInstruction(inst, c, d)
    else if IsStore(op) then StoreInstruction(inst, c, d)
    else if IsCombined(op) then CombinedInstruction(inst, c, d)
    else
      var m := OperandByte(inst.mode, d, c.mem);
      Outcome(Core(ImmediateCombination(op, c.regs, m), c.mem), d.cycleTime, NormalInstructionExecution)
  }

  /** Branches and the instructions that change only registers. */
  function RegisterStep(inst: Instruction, c: Core, d: Operand): (r: Outcome)
    requires d == DecodeOperand(inst, c.regs, c.mem)
    requires IsBranch(inst.opcode) || IsFlagOperation(inst.opcode) || IsRegisterOperation(inst.opcode)
    ensures d.cycleTime <= r.cycleTime <= 8
  {
    var op := inst.opcode;
    if IsBranch(op) then BranchInstruction(inst, c, d)
    else if IsFlagOperation(op) then
      Outcome(Core(c.regs.(status := FlagOperation(op, c.regs.status)), c.mem), d.cycleTime, NormalInstructionExecution)
    else
      Outcome(Core(RegisterOperation(op, c.regs), c.mem), d.cycleTime, NormalInstructionExecution)
  }

  /** Subroutine calls and returns and the stack instructions: all implied
      or absolute, and all slower than their mode's base time. */
  function StackStep(inst: Instruction, c: Core, d: Operand): (r: Outcome)
    requires d == DecodeOperand(inst, c.regs, c.mem)
    requires IsStackOperation(inst.opcode) || inst.opcode in {Jsr, Rts, Rti}
    requires inst.mode == if inst.opcode == Jsr then Absolute else Implied
    ensures d.cycleTime <= r.cycleTime <= 8
  {
    var op := inst.opcode;
    if op == Jsr then JsrInstruction(c, d)
    else if op == Rts then RtsInstruction(c)
    else if op == Rti then RtiInstruction(c)
    else StackInstruction(op, c)
  }

  /** One instruction other than BRK, run on the registers and memory it
      was decoded against. The time it reports is never below what was
      charged at fetch, so the wait that remains after it never goes
      negative, and no instruction takes more than eight cycles. */
  function Step(inst: Instruction, c: Core): (r: Outcome)
    requires inst.opcode != Brk && Runnable(inst.opcode, inst.mode)
    ensures Estimate(inst, c) <= r.cycleTime <= 8
  {
    var d := DecodeOperand(inst, c.regs, c.mem);
    var op := inst.opcode;
    if op == Jmp then JmpInstruction(inst, c, d)
    else if IsBranch(op) || IsFlagOperation(op) || IsRegisterOperation(op) then RegisterStep(inst, c, d)
    else if IsStackOperation(op) || op in {Jsr, Rts, Rti} then
      StackStep(inst, c, d)
    else DataStep(inst, c, d)
  }

  // ---------------------------------------------------------------------
  // Properties

  /** What JSR leaves just above the new stack pointer: the low and then
      the high byte of its own last address. */
  lemma {:induction false} JsrStackFrame(c: Core, d: Operand)
    ensures var called := JsrInstruction(c, d).core;
            called.regs.sp + 2 == c.regs.sp &&
            Read(called.mem, StackAddress(called.regs.sp + 1)) == LowByte(c.regs.pc - 1) &&
            Read(called.mem, StackAddress(called.regs.sp + 2)) == HighByte(c.regs.pc - 1)
  {
    var called := JsrInstruction(c, d).core;
    assert called.regs.sp + 1 == c.regs.sp - 1 && called.regs.sp + 2 == c.regs.sp;
  }

  /** One past the address JSR pushes is the address after the JSR: the
      pushed address is the JSR's last byte. */
  lemma {:induction false} JsrPushesItsLastByte(c: Core, d: Operand)
    ensures var called := JsrInstruction(c, d).core;
            ResumeAddress(called) == c.regs.pc
  {
    JsrStackFrame(c, d);
    ResumeAfter(JsrInstruction(c, d).core, c.regs.pc - 1);
  }

  /** With the bytes of `back` on top of the stack, RTS resumes one past
      `back`. */
  lemma ResumeAfter(k: Core, back: bv16)
    requires Read(k.mem, StackAddress(k.regs.sp + 1)) == LowByte(back)
    requires Read(k.mem, StackAddress(k.regs.sp + 2)) == HighByte(back)
    ensures ResumeAddress(k) == back + 1
  {
    var low := Read(k.mem, StackAddress(k.regs.sp + 1));
    var high := Read(k.mem, StackAddress(k.regs.sp + 2));
    assert TopWord(k) == Word(low, high);
    WordAfter(low, high, back);
  }

  /** The word of `back`'s two bytes, plus one, is `back` plus one. */
  lemma WordAfter(low: bv8, high: bv8, back: bv16)
    requires low == LowByte(back) && high == HighByte(back)
    ensures Word(low, high) + 1 == back + 1
  {
    WordOfBytes(back);
  }

  /** RTS after JSR resumes at the instruction after the three-byte JSR. */
  lemma {:induction false} JsrThenRts(c: Core, d: Operand)
    ensures RtsInstruction(JsrInstruction(c, d).core).core.regs.pc == c.regs.pc
  {
    JsrPushesItsLastByte(c, d);
  }

  /** RTS after JSR leaves the stack pointer where it was. */
  lemma JsrThenRtsBalancesStack(c: Core, d: Operand)
    ensures RtsInstruction(JsrInstruction(c, d).core).core.regs.sp == c.regs.sp
  {
  }

  /** PLA after PHA restores A and the stack pointer. */
  lemma PhaThenPla(c: Core)
    ensures var pulled := StackInstruction(Pla, StackInstruction(Pha, c).core).core;
            pulled.regs.a == c.regs.a && pulled.regs.sp == c.regs.sp
  {
  }

  /** Pulling a status pushed with bits 4 and 5 set gives it back whole. */
  lemma PulledPushedStatus(status: bv8)
    ensures PulledStatus(status | 0x30, status) == status | 0x30
  {
  }

  /** PLP after PHP restores the status, with bits 4 and 5 set as PHP
      pushes them. */
  lemma {:induction false} PhpThenPlp(c: Core)
    ensures var pulled := StackInstruction(Plp, StackInstruction(Php, c).core).core;
            pulled.regs == c.regs.(status := c.regs.status | 0x30)
  {
    var pushed := StackInstruction(Php, c).core;
    assert pushed == Push(c, c.regs.status | 0x30);
    assert pushed.regs.sp + 1 == c.regs.sp;
    assert Read(pushed.mem, StackAddress(pushed.regs.sp + 1)) == c.regs.status | 0x30;
    PulledPushedStatus(c.regs.status);
  }

  /** Setting or clearing B changes no bit outside bits 4 and 5. */
  lemma BreakFlagOutsideMask(status: bv8, isSoft: bool)
    ensures SetFlagStatus(status, BREAK_COMMAND, isSoft) & 0xCF == status & 0xCF
  {
    var r := SetFlagStatus(status, BREAK_COMMAND, isSoft);
    assert r & 0xEF == status & 0xEF;
    assert r & 0xCF == (r & 0xEF) & 0xCF;
    assert status & 0xCF == (status & 0xEF) & 0xCF;
  }

  /** What interrupt entry leaves just above the new stack pointer: the
      status with B, then PCL, then PCH. */
  lemma {:induction false} InterruptStackFrame(c: Cpu6502, mem: Memory, isSoft: bool, isNmi: bool)
    ensures var entered := ExecuteInterrupt(c, mem, isSoft, isNmi);
            var sp := entered.cpu.regs.sp;
            sp + 3 == c.regs.sp &&
            Read(entered.mem, StackAddress(sp + 1)) == SetFlagStatus(c.regs.status, BREAK_COMMAND, isSoft) &&
            Read(entered.mem, StackAddress(sp + 2)) == LowByte(c.regs.pc) &&
            Read(entered.mem, StackAddress(sp + 3)) == HighByte(c.regs.pc)
  {
    var entered := ExecuteInterrupt(c, mem, isSoft, isNmi);
    var sp := entered.cpu.regs.sp;
    assert sp + 1 == c.regs.sp - 2 && sp + 2 == c.regs.sp - 1 && sp + 3 == c.regs.sp;
  }

  /** RTI after interrupt entry comes back to the interrupted PC with the
      stack pointer restored. */
  lemma {:induction false} InterruptReturnAddress(c: Cpu6502, mem: Memory, isSoft: bool, isNmi: bool)
    ensures var entered := ExecuteInterrupt(c, mem, isSoft, isNmi);
            var back := RtiInstruction(Core(entered.cpu.regs, entered.mem)).core;
            back.regs.pc == c.regs.pc && back.regs.sp == c.regs.sp
  {
    InterruptStackFrame(c, mem, isSoft, isNmi);
    WordOfBytes(c.regs.pc);
  }

  /** RTI after interrupt entry restores every flag but bits 4 and 5. */
  lemma {:induction false} InterruptReturnStatus(c: Cpu6502, mem: Memory, isSoft: bool, isNmi: bool)
    ensures var entered := ExecuteInterrupt(c, mem, isSoft, isNmi);
            var back := RtiInstruction(Core(entered.cpu.regs, entered.mem)).core;
            back.regs.status & 0xCF == c.regs.status & 0xCF
  {
    InterruptStackFrame(c, mem, isSoft, isNmi);
    BreakFlagOutsideMask(c.regs.status, isSoft);
    var entered := ExecuteInterrupt(c, mem, isSoft, isNmi);
    var pushed := SetFlagStatus(c.regs.status, BREAK_COMMAND, isSoft);
    var restored := PulledStatus(pushed, entered.cpu.regs.status);
    assert RtiInstruction(Core(entered.cpu.regs, entered.mem)).core.regs.status == restored;
    assert restored & 0xCF == pushed & 0xCF;
  }

  /** STA and the other stores that pay `IndexPenalty`: on an indexed mode
      the decoded time plus the penalty is one over the base time, whether
      or not the page was crossed. */
  lemma IndexPenaltyEvensOut(inst: Instruction, regs: Registers, mem: Memory)
    requires CanCrossPage(inst.mode)
    ensures var d := DecodeOperand(inst, regs, mem);
            d.cycleTime + IndexPenalty(inst.mode, d) == BaseCycleTime(inst.mode) + 1
  {
  }

  /** STA on an indexed mode always pays the page-cross cycle, whether or
      not the page was crossed. */
  lemma {:induction false} StaAlwaysPaysIndexPenalty(inst: Instruction, c: Core)
    requires inst.opcode == Sta && CanCrossPage(inst.mode)
    ensures StoreInstruction(inst, c, DecodeOperand(inst, c.regs, c.mem)).cycleTime == BaseCycleTime(inst.mode) + 1
  {
    IndexPenaltyEvensOut(inst, c.regs, c.mem);
  }

  /** A branch takes two cycles when not taken, three when taken to the page
      of the next instruction and four otherwise; a taken branch lands on
      the relative target. */
  lemma {:induction false} BranchTiming(inst: Instruction, c: Core)
    requires IsBranch(inst.opcode) && inst.mode == Relative
    ensures var r := BranchInstruction(inst, c, DecodeOperand(inst, c.regs, c.mem));
            var target := RelativeTarget(c.regs.pc, inst.operand);
            var taken := BranchCondition(inst.opcode, c.regs.status);
            (!taken ==> r.cycleTime == 2 && r.core.regs.pc == c.regs.pc) &&
            (taken ==> r.core.regs.pc == target &&
                       r.cycleTime == if HighByte(target) == HighByte(c.regs.pc) then 3 else 4)
  {
    RelativeRule(inst, c.regs, c.mem);
    var d := DecodeOperand(inst, c.regs, c.mem);
    var r := BranchInstruction(inst, c, d);
    var taken := BranchCondition(inst.opcode, c.regs.status);
    if taken {
      assert r.cycleTime == 2 + BranchPenalty(true, c.regs.pc, d.value);
    } else {
      assert r.cycleTime == 2 + BranchPenalty(false, c.regs.pc, d.value);
    }
  }

  /** The addressing modes whose address does not depend on memory. */
  predicate IsDirectMode(mode: AddressingMode)
  {
    mode in {ZeroPage, ZeroPageIndexX, ZeroPageIndexY, Absolute, AbsoluteX, AbsoluteY}
  }

  /** A direct address depends on the operand and the index registers
      only, not on memory or the opcode. */
  lemma DirectDecodeIgnoresMemory(inst: Instruction, other: Instruction, regs: Registers, c: Core)
    requires IsDirectMode(inst.mode) && other.mode == inst.mode && other.operand == inst.operand
    requires c.regs.x == regs.x && c.regs.y == regs.y
    ensures DecodeOperand(other, c.regs, c.mem).value == DecodeOperand(inst, regs, c.mem).value
  {
    assert Resolve(other, c.regs, c.mem).0 == Resolve(inst, regs, c.mem).0 by {
      match inst.mode
      case AbsoluteX =>
      case AbsoluteY =>
      case ZeroPage =>
      case ZeroPageIndexX =>
      case ZeroPageIndexY =>
      case Absolute =>
      case _ =>
    }
  }

  /** A read-modify-write followed by a read on the same direct address:
      the read sees the byte just written. */
  lemma {:induction false} ModifyThenRead(inst: Instruction, c: Core, change: Opcode, use: Opcode)
    requires IsReadModifyWrite(change) && IsReadOperation(use) && IsDirectMode(inst.mode)
    ensures var d := DecodeOperand(inst, c.regs, c.mem);
            var m := Modify(change, Read(c.mem, d.value), c.regs.status);
            var first := ReadModifyWriteInstruction(WithOpcode(inst, change), c, d).core;
            var second := WithOpcode(inst, use);
            var o := ReadInstruction(second, first, DecodeOperand(second, first.regs, first.mem)).core;
            o.mem == Write(c.mem, d.value, m.value) &&
            o.regs == ReadOperation(use, c.regs.(status := m.status), m.value)
  {
    var d := DecodeOperand(inst, c.regs, c.mem);
    var m := Modify(change, Read(c.mem, d.value), c.regs.status);
    var mem := Write(c.mem, d.value, m.value);
    var first := ReadModifyWriteInstruction(WithOpcode(inst, change), c, d).core;
    ModifiedCore(inst, c, change);
    DirectDecodeIgnoresMemory(inst, WithOpcode(inst, use), c.regs, first);
    ReadAfterModify(inst, first, c, d, m, use);
  }

  /** The read half of `ModifyThenRead`, for any modified byte and status. */
  lemma ReadAfterModify(inst: Instruction, first: Core, c: Core, d: Operand, m: AluResult, use: Opcode)
    requires IsReadOperation(use) && IsDirectMode(inst.mode)
    requires first == Core(c.regs.(status := m.status), Write(c.mem, d.value, m.value))
    requires DecodeOperand(WithOpcode(inst, use), first.regs, first.mem).value == d.value
    ensures var second := WithOpcode(inst, use);
            var o := ReadInstruction(second, first, DecodeOperand(second, first.regs, first.mem)).core;
            o.mem == Write(c.mem, d.value, m.value) &&
            o.regs == ReadOperation(use, c.regs.(status := m.status), m.value)
  {
    var second := WithOpcode(inst, use);
    ReadsByteAt(second, first, DecodeOperand(second, first.regs, first.mem));
  }

  /** The read-modify-write half on a direct address: the status from the
      operation, the modified byte written back. */
  lemma ModifiedCore(inst: Instruction, c: Core, change: Opcode)
    requires IsReadModifyWrite(change) && IsDirectMode(inst.mode)
    ensures var d := DecodeOperand(inst, c.regs, c.mem);
            var m := Modify(change, Read(c.mem, d.value), c.regs.status);
            ReadModifyWriteInstruction(WithOpcode(inst, change), c, d).core ==
              Core(c.regs.(status := m.status), Write(c.mem, d.value, m.value))
  {
    assert IsOperandAddress(inst.mode);
  }

  /** A read on an address works on the byte stored there. */
  lemma ReadsByteAt(inst: Instruction, c: Core, d: Operand)
    requires IsReadOperation(inst.opcode) && IsDirectMode(inst.mode)
    ensures ReadInstruction(inst, c, d).core == Core(ReadOperation(inst.opcode, c.regs, Read(c.mem, d.value)), c.mem)
  {
    assert IsOperandAddress(inst.mode);
  }

  /** With a direct address, a combination writes the modified byte back
      and its read half works on exactly that byte: DCP compares A with
      the decremented byte, ISC subtracts the incremented one, and so on. */
  lemma {:induction false} CombinedReadsModifiedByte(inst: Instruction, c: Core)
    requires IsCombined(inst.opcode) && IsDirectMode(inst.mode)
    ensures var d := DecodeOperand(inst, c.regs, c.mem);
            var m := Modify(CombinedParts(inst.opcode).0, Read(c.mem, d.value), c.regs.status);
            var r := CombinedInstruction(inst, c, d);
            r.core.mem == Write(c.mem, d.value, m.value) &&
            r.core.regs == ReadOperation(CombinedParts(inst.opcode).1, c.regs.(status := m.status), m.value)
  {
    var parts := CombinedParts(inst.opcode);
    ModifyThenRead(inst, c, parts.0, parts.1);
  }
}
