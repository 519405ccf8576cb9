/** Opcode decoding for the 6502: every byte names an opcode and an
    addressing mode, which fixes the instruction's length and base cycle
    time. Unofficial opcodes decode too, so decoding never fails. */
module Instruction {

  datatype Opcode =
    | Adc | And | Asl | Eor | Lsr | Ora | Rol | Ror | Sbc
    | Bit | Cmp | Cpx | Cpy
    | Brk
    | Bcc | Bcs | Beq | Bmi | Bne | Bpl | Bvc | Bvs
    | Dec | Inc
    | Clc | Cld | Cli | Clv | Sec | Sed | Sei
    | Jmp | Jsr | Rti | Rts
    | Lda | Ldx | Ldy | Nop
    | Dex | Dey | Inx | Iny | Tax | Tay | Txa | Tya
    | Pha | Php | Pla | Plp | Sta | Stx | Sty | Tsx | Txs
      // unofficial opcodes
    | Slo | Sre | Rla | Rra | Isc | Dcp | Sax | Lax
    | Anc | Alr | Arr | Axs | Xaa
    | Ahx | Shy | Shx
    | Tas | Las
    | Kil

  /** Declared in the order of the emulator's enum, whose discriminants index
      the length table. */
  datatype AddressingMode =
    | Immediate
    | ZeroPage
    | ZeroPageIndexX
    | ZeroPageIndexY
    | Indirect
    | XIndirect
    | IndirectY
    | Absolute
    | AbsoluteX
    | AbsoluteY
    | Accumulator
    | Relative
    | Implied

  datatype Instruction = Instruction(opcodeByte: bv8, operand: bv16, opcode: Opcode, mode: AddressingMode)

  function Discriminant(mode: AddressingMode): (r: nat)
    ensures r < 13
  {
    match mode
    case Immediate => 0
    case ZeroPage => 1
    case ZeroPageIndexX => 2
    case ZeroPageIndexY => 3
    case Indirect => 4
    case XIndirect => 5
    case IndirectY => 6
    case Absolute => 7
    case AbsoluteX => 8
    case AbsoluteY => 9
    case Accumulator => 10
    case Relative => 11
    case Implied => 12
  }

  /** Bytes an instruction occupies, looked up by discriminant: one for
      modes without an operand, three for modes with a 16-bit operand, two
      for the rest. */
  function Length(mode: AddressingMode): (r: nat)
    ensures r == 1 <==> mode == Accumulator || mode == Implied
    ensures r == 3 <==> mode in {Indirect, Absolute, AbsoluteX, AbsoluteY}
    ensures 1 <= r <= 3
  {
    [2, 2, 2, 2, 3, 2, 2, 3, 3, 3, 1, 2, 1][Discriminant(mode)]
  }

  /** Whether the decoded operand is an address to read or write, rather
      than the value itself. Only one-byte instructions and immediates carry
      no address. */
  function IsOperandAddress(mode: AddressingMode): (r: bool)
    ensures r <==> Length(mode) > 1 && mode != Immediate
  {
    !(mode == Accumulator || mode == Implied || mode == Immediate)
  }

  /** The indexed modes whose effective address may land on another page
      than the base address. */
  function CanCrossPage(mode: AddressingMode): (r: bool)
    ensures r ==> IsOperandAddress(mode) && mode != Indirect && mode != Absolute
  {
    mode == IndirectY || mode == AbsoluteX || mode == AbsoluteY
  }

  /** Cycle time before any instruction-specific adjustment. It depends on
      the addressing mode alone; the two-cycle modes are exactly those
      without a memory operand and the relative branches. */
  function BaseCycleTime(mode: AddressingMode): (r: bv8)
    ensures 2 <= r <= 6
    ensures r == 2 <==> !IsOperandAddress(mode) || mode == Relative
    ensures r == 6 <==> mode == XIndirect
  {
    match mode
    case Immediate => 2
    case ZeroPage => 3
    case ZeroPageIndexX => 4
    case ZeroPageIndexY => 4
    case Indirect => 5
    case XIndirect => 6
    case IndirectY => 5
    case Absolute => 4
    case AbsoluteX => 4
    case AbsoluteY => 4
    case Accumulator => 2
    case Relative => 2
    case Implied => 2
  }

  /** The twelve bytes that halt the processor. */
  predicate IsKilByte(b: bv8)
  {
    b == 0x02 || b == 0x12 || b == 0x22 || b == 0x32 || b == 0x42 || b == 0x52 ||
    b == 0x62 || b == 0x72 || b == 0x92 || b == 0xB2 || b == 0xD2 || b == 0xF2
  }

  /** The bytes of the eight conditional branches. */
  predicate IsBranchByte(b: bv8)
  {
    b == 0x10 || b == 0x30 || b == 0x50 || b == 0x70 || b == 0x90 || b == 0xB0 || b == 0xD0 || b == 0xF0
  }

  predicate IsBranch(op: Opcode)
  {
    match op
    case Bcc | Bcs | Beq | Bmi | Bne | Bpl | Bvc | Bvs => true
    case _ => false
  }

  /** Opcodes whose execution asserts that the operand is an address; ISC
      and DCP run INC and DEC on their operand and inherit the assertion. */
  predicate NeedsAddress(op: Opcode)
  {
    match op
    case Bit | Dec | Inc | Jmp | Jsr | Sta | Stx | Sty | Sax | Ahx | Shy | Shx | Tas | Las | Isc | Dcp => true
    case _ => false
  }

  /** Unofficial opcodes whose execution asserts an immediate operand. */
  predicate NeedsImmediate(op: Opcode)
  {
    match op
    case Anc | Alr | Arr | Axs | Xaa => true
    case _ => false
  }

  predicate IsShift(op: Opcode)
  {
    match op
    case Asl | Lsr | Rol | Ror => true
    case _ => false
  }

  /** The opcode/mode pairs the executor accepts: its `assert!`s demand an
      address operand for the instructions that touch memory and an
      immediate for the unofficial ALU combinations. */
  predicate ExecutorAccepts(op: Opcode, mode: AddressingMode)
  {
    (NeedsAddress(op) ==> IsOperandAddress(mode)) &&
    (NeedsImmediate(op) ==> mode == Immediate)
  }

  /** The 6502 lays out the bytes ending in binary 01 as aaabbb01, where
      aaa chooses the ALU operation and bbb the addressing mode. */
  function GroupOneOpcode(aaa: bv8): Opcode
  {
    if aaa == 0 then Ora else if aaa == 1 then And else if aaa == 2 then Eor else if aaa == 3 then Adc
    else if aaa == 4 then Sta else if aaa == 5 then Lda else if aaa == 6 then Cmp else Sbc
  }

  function GroupOneMode(bbb: bv8): AddressingMode
  {
    if bbb == 0 then XIndirect else if bbb == 1 then ZeroPage else if bbb == 2 then Immediate
    else if bbb == 3 then Absolute else if bbb == 4 then IndirectY else if bbb == 5 then ZeroPageIndexX
    else if bbb == 6 then AbsoluteY else AbsoluteX
  }

  /** The opcode/mode pairs the executor runs with its timing rules: the
      executor accepts the pair, relative addressing goes with the
      branches alone, and the instructions whose time the executor sets
      outright have the one mode they are listed with: JMP absolute or
      indirect, JSR absolute, RTS, RTI and the stack pushes and pulls
      implied. */
  predicate Runnable(op: Opcode, mode: AddressingMode)
  {
    (mode == Relative <==> IsBranch(op)) &&
    ExecutorAccepts(op, mode) &&
    (op == Jmp ==> mode == Absolute || mode == Indirect) &&
    (IsShift(op) ==> mode != Immediate && mode != Implied) &&
    (op == Jsr ==> mode == Absolute) &&
    (op == Rts || op == Rti || op == Pha || op == Php || op == Pla || op == Plp ==> mode == Implied)
  }

  /** What every entry of the decoding table satisfies: KIL and the branches
      sit at their listed bytes, the aaabbb01 bytes follow the 6502 layout
      (with STA immediate, 0x89, left as an immediate NOP), and the pair is
      one the executor runs. */
  predicate TableFacts(byte: bv8, op: Opcode, mode: AddressingMode)
  {
    (op == Kil <==> IsKilByte(byte)) &&
    (mode == Relative <==> IsBranchByte(byte)) &&
    (byte & 0x03 == 0x01 && byte != 0x89 ==> op == GroupOneOpcode(byte >> 5) && mode == GroupOneMode((byte >> 2) & 0x07)) &&
    Runnable(op, mode)
  }

  /** A byte as the fetch stage leaves it: opcode and mode from the table. */
  predicate IsDecoded(inst: Instruction)
  {
    Table(inst.opcodeByte) == (inst.opcode, inst.mode)
  }

  /** The decoding table, one function per eight consecutive bytes,
      named by the first of them. */
  function Row00(byte: bv8): (r: (Opcode, AddressingMode))
    requires 0x00 <= byte <= 0x07
    ensures TableFacts(byte, r.0, r.1)
  {
    match byte
    case 0x00 => (Brk, Implied)
    case 0x01 => (Ora, XIndirect)
    case 0x02 => (Kil, Implied)
    case 0x03 => (Slo, XIndirect)
    case 0x04 => (Nop, ZeroPage)
    case 0x05 => (Ora, ZeroPage)
    case 0x06 => (Asl, ZeroPage)
    case 0x07 => (Slo, ZeroPage)
  }

  function Row08(byte: bv8): (r: (Opcode, AddressingMode))
    requires 0x08 <= byte <= 0x0F
    ensures TableFacts(byte, r.0, r.1)
  {
    match byte
    case 0x08 => (Php, Implied)
    case 0x09 => (Ora, Immediate)
    case 0x0A => (Asl, Accumulator)
    case 0x0B => (Anc, Immediate)
    case 0x0C => (Nop, Absolute)
    case 0x0D => (Ora, Absolute)
    case 0x0E => (Asl, Absolute)
    case 0x0F => (Slo, Absolute)
  }

  function Row10(byte: bv8): (r: (Opcode, AddressingMode))
    requires 0x10 <= byte <= 0x17
    ensures TableFacts(byte, r.0, r.1)
  {
    match byte
    case 0x10 => (Bpl, Relative)
    case 0x11 => (Ora, IndirectY)
    case 0x12 => (Kil, Implied)
    case 0x13 => (Slo, IndirectY)
    case 0x14 => (Nop, ZeroPageIndexX)
    case 0x15 => (Ora, ZeroPageIndexX)
    case 0x16 => (Asl, ZeroPageIndexX)
    case 0x17 => (Slo, ZeroPageIndexX)
  }

  function Row18(byte: bv8): (r: (Opcode, AddressingMode))
    requires 0x18 <= byte <= 0x1F
    ensures TableFacts(byte, r.0, r.1)
  {
    match byte
    case 0x18 => (Clc, Implied)
    case 0x19 => (Ora, AbsoluteY)
    case 0x1A => (Nop, Implied)
    case 0x1B => (Slo, AbsoluteY)
    case 0x1C => (Nop, AbsoluteX)
    case 0x1D => (Ora, AbsoluteX)
    case 0x1E => (Asl, AbsoluteX)
    case 0x1F => (Slo, AbsoluteX)
  }

  function Row20(byte: bv8): (r: (Opcode, AddressingMode))
    requires 0x20 <= byte <= 0x27
    ensures TableFacts(byte, r.0, r.1)
  {
    match byte
    case 0x20 => (Jsr, Absolute)
    case 0x21 => (And, XIndirect)
    case 0x22 => (Kil, Implied)
    case 0x23 => (Rla, XIndirect)
    case 0x24 => (Bit, ZeroPage)
    case 0x25 => (And, ZeroPage)
    case 0x26 => (Rol, ZeroPage)
    case 0x27 => (Rla, ZeroPage)
  }

  function Row28(byte: bv8): (r: (Opcode, AddressingMode))
    requires 0x28 <= byte <= 0x2F
    ensures TableFacts(byte, r.0, r.1)
  {
    match byte
    case 0x28 => (Plp, Implied)
    case 0x29 => (And, Immediate)
    case 0x2A => (Rol, Accumulator)
    case 0x2B => (Anc, Immediate)
    case 0x2C => (Bit, Absolute)
    case 0x2D => (And, Absolute)
    case 0x2E => (Rol, Absolute)
    case 0x2F => (Rla, Absolute)
  }

  function Row30(byte: bv8): (r: (Opcode, AddressingMode))
    requires 0x30 <= byte <= 0x37
    ensures TableFacts(byte, r.0, r.1)
  {
    match byte
    case 0x30 => (Bmi, Relative)
    case 0x31 => (And, IndirectY)
    case 0x32 => (Kil, Implied)
    case 0x33 => (Rla, IndirectY)
    case 0x34 => (Nop, ZeroPageIndexX)
    case 0x35 => (And, ZeroPageIndexX)
    case 0x36 => (Rol, ZeroPageIndexX)
    case 0x37 => (Rla, ZeroPageIndexX)
  }

  function Row38(byte: bv8): (r: (Opcode, AddressingMode))
    requires 0x38 <= byte <= 0x3F
    ensures TableFacts(byte, r.0, r.1)
  {
    match byte
    case 0x38 => (Sec, Implied)
    case 0x39 => (And, AbsoluteY)
    case 0x3A => (Nop, Implied)
    case 0x3B => (Rla, AbsoluteY)
    case 0x3C => (Nop, AbsoluteX)
    case 0x3D => (And, AbsoluteX)
    case 0x3E => (Rol, AbsoluteX)
    case 0x3F => (Rla, AbsoluteX)
  }

  function Row40(byte: bv8): (r: (Opcode, AddressingMode))
    requires 0x40 <= byte <= 0x47
    ensures TableFacts(byte, r.0, r.1)
  {
    match byte
    case 0x40 => (Rti, Implied)
    case 0x41 => (Eor, XIndirect)
    case 0x42 => (Kil, Implied)
    case 0x43 => (Sre, XIndirect)
    case 0x44 => (Nop, ZeroPage)
    case 0x45 => (Eor, ZeroPage)
    case 0x46 => (Lsr, ZeroPage)
    case 0x47 => (Sre, ZeroPage)
  }

  function Row48(byte: bv8): (r: (Opcode, AddressingMode))
    requires 0x48 <= byte <= 0x4F
    ensures TableFacts(byte, r.0, r.1)
  {
    match byte
    case 0x48 => (Pha, Implied)
    case 0x49 => (Eor, Immediate)
    case 0x4A => (Lsr, Accumulator)
    case 0x4B => (Alr, Immediate)
    case 0x4C => (Jmp, Absolute)
    case 0x4D => (Eor, Absolute)
    case 0x4E => (Lsr, Absolute)
    case 0x4F => (Sre, Absolute)
  }

  function Row50(byte: bv8): (r: (Opcode, AddressingMode))
    requires 0x50 <= byte <= 0x57
    ensures TableFacts(byte, r.0, r.1)
  {
    match byte
    case 0x50 => (Bvc, Relative)
    case 0x51 => (Eor, IndirectY)
    case 0x52 => (Kil, Implied)
    case 0x53 => (Sre, IndirectY)
    case 0x54 => (Nop, ZeroPageIndexX)
    case 0x55 => (Eor, ZeroPageIndexX)
    case 0x56 => (Lsr, ZeroPageIndexX)
    case 0x57 => (Sre, ZeroPageIndexX)
  }

  function Row58(byte: bv8): (r: (Opcode, AddressingMode))
    requires 0x58 <= byte <= 0x5F
    ensures TableFacts(byte, r.0, r.1)
  {
    match byte
    case 0x58 => (Cli, Implied)
    case 0x59 => (Eor, AbsoluteY)
    case 0x5A => (Nop, Implied)
    case 0x5B => (Sre, AbsoluteY)
    case 0x5C => (Nop, AbsoluteX)
    case 0x5D => (Eor, AbsoluteX)
    case 0x5E => (Lsr, AbsoluteX)
    case 0x5F => (Sre, AbsoluteX)
  }

  function Row60(byte: bv8): (r: (Opcode, AddressingMode))
    requires 0x60 <= byte <= 0x67
    ensures TableFacts(byte, r.0, r.1)
  {
    match byte
    case 0x60 => (Rts, Implied)
    case 0x61 => (Adc, XIndirect)
    case 0x62 => (Kil, Implied)
    case 0x63 => (Rra, XIndirect)
    case 0x64 => (Nop, ZeroPage)
    case 0x65 => (Adc, ZeroPage)
    case 0x66 => (Ror, ZeroPage)
    case 0x67 => (Rra, ZeroPage)
  }

  function Row68(byte: bv8): (r: (Opcode, AddressingMode))
    requires 0x68 <= byte <= 0x6F
    ensures TableFacts(byte, r.0, r.1)
  {
    match byte
    case 0x68 => (Pla, Implied)
    case 0x69 => (Adc, Immediate)
    case 0x6A => (Ror, Accumulator)
    case 0x6B => (Arr, Immediate)
    case 0x6C => (Jmp, Indirect)
    case 0x6D => (Adc, Absolute)
    case 0x6E => (Ror, Absolute)
    case 0x6F => (Rra, Absolute)
  }

  function Row70(byte: bv8): (r: (Opcode, AddressingMode))
    requires 0x70 <= byte <= 0x77
    ensures TableFacts(byte, r.0, r.1)
  {
    match byte
    case 0x70 => (Bvs, Relative)
    case 0x71 => (Adc, IndirectY)
    case 0x72 => (Kil, Implied)
    case 0x73 => (Rra, IndirectY)
    case 0x74 => (Nop, ZeroPageIndexX)
    case 0x75 => (Adc, ZeroPageIndexX)
    case 0x76 => (Ror, ZeroPageIndexX)
    case 0x77 => (Rra, ZeroPageIndexX)
  }

  function Row78(byte: bv8): (r: (Opcode, AddressingMode))
    requires 0x78 <= byte <= 0x7F
    ensures TableFacts(byte, r.0, r.1)
  {
    match byte
    case 0x78 => (Sei, Implied)
    case 0x79 => (Adc, AbsoluteY)
    case 0x7A => (Nop, Implied)
    case 0x7B => (Rra, AbsoluteY)
    case 0x7C => (Nop, AbsoluteX)
    case 0x7D => (Adc, AbsoluteX)
    case 0x7E => (Ror, AbsoluteX)
    case 0x7F => (Rra, AbsoluteX)
  }

  function Row80(byte: bv8): (r: (Opcode, AddressingMode))
    requires 0x80 <= byte <= 0x87
    ensures TableFacts(byte, r.0, r.1)
  {
    match byte
    case 0x80 | 0x82 => (Nop, Immediate)
    case 0x81 => (Sta, XIndirect)
    case 0x83 => (Sax, XIndirect)
    case 0x84 => (Sty, ZeroPage)
    case 0x85 => (Sta, ZeroPage)
    case 0x86 => (Stx, ZeroPage)
    case 0x87 => (Sax, ZeroPage)
  }

  function Row88(byte: bv8): (r: (Opcode, AddressingMode))
    requires 0x88 <= byte <= 0x8F
    ensures TableFacts(byte, r.0, r.1)
  {
    match byte
    case 0x89 => (Nop, Immediate)
    case 0x88 => (Dey, Implied)
    case 0x8A => (Txa, Implied)
    case 0x8B => (Xaa, Immediate)
    case 0x8C => (Sty, Absolute)
    case 0x8D => (Sta, Absolute)
    case 0x8E => (Stx, Absolute)
    case 0x8F => (Sax, Absolute)
  }

  function Row90(byte: bv8): (r: (Opcode, AddressingMode))
    requires 0x90 <= byte <= 0x97
    ensures TableFacts(byte, r.0, r.1)
  {
    match byte
    case 0x90 => (Bcc, Relative)
    case 0x91 => (Sta, IndirectY)
    case 0x92 => (Kil, Implied)
    case 0x93 => (Ahx, IndirectY)
    case 0x94 => (Sty, ZeroPageIndexX)
    case 0x95 => (Sta, ZeroPageIndexX)
    case 0x96 => (Stx, ZeroPageIndexY)
    case 0x97 => (Sax, ZeroPageIndexY)
  }

  function Row98(byte: bv8): (r: (Opcode, AddressingMode))
    requires 0x98 <= byte <= 0x9F
    ensures TableFacts(byte, r.0, r.1)
  {
    match byte
    case 0x98 => (Tya, Implied)
    case 0x99 => (Sta, AbsoluteY)
    case 0x9A => (Txs, Implied)
    case 0x9B => (Tas, AbsoluteY)
    case 0x9C => (Shy, AbsoluteX)
    case 0x9D => (Sta, AbsoluteX)
    case 0x9E => (Shx, AbsoluteY)
    case 0x9F => (Ahx, AbsoluteY)
  }

  function RowA0(byte: bv8): (r: (Opcode, AddressingMode))
    requires 0xA0 <= byte <= 0xA7
    ensures TableFacts(byte, r.0, r.1)
  {
    match byte
    case 0xA0 => (Ldy, Immediate)
    case 0xA1 => (Lda, XIndirect)
    case 0xA2 => (Ldx, Immediate)
    case 0xA3 => (Lax, XIndirect)
    case 0xA4 => (Ldy, ZeroPage)
    case 0xA5 => (Lda, ZeroPage)
    case 0xA6 => (Ldx, ZeroPage)
    case 0xA7 => (Lax, ZeroPage)
  }

  function RowA8(byte: bv8): (r: (Opcode, AddressingMode))
    requires 0xA8 <= byte <= 0xAF
    ensures TableFacts(byte, r.0, r.1)
  {
    match byte
    case 0xA8 => (Tay, Implied)
    case 0xA9 => (Lda, Immediate)
    case 0xAA => (Tax, Implied)
    case 0xAB => (Lax, Immediate)
    case 0xAC => (Ldy, Absolute)
    case 0xAD => (Lda, Absolute)
    case 0xAE => (Ldx, Absolute)
    case 0xAF => (Lax, Absolute)
  }

  function RowB0(byte: bv8): (r: (Opcode, AddressingMode))
    requires 0xB0 <= byte <= 0xB7
    ensures TableFacts(byte, r.0, r.1)
  {
    match byte
    case 0xB0 => (Bcs, Relative)
    case 0xB1 => (Lda, IndirectY)
    case 0xB2 => (Kil, Implied)
    case 0xB3 => (Lax, IndirectY)
    case 0xB4 => (Ldy, ZeroPageIndexX)
    case 0xB5 => (Lda, ZeroPageIndexX)
    case 0xB6 => (Ldx, ZeroPageIndexY)
    case 0xB7 => (Lax, ZeroPageIndexY)
  }

  function RowB8(byte: bv8): (r: (Opcode, AddressingMode))
    requires 0xB8 <= byte <= 0xBF
    ensures TableFacts(byte, r.0, r.1)
  {
    match byte
    case 0xB8 => (Clv, Implied)
    case 0xB9 => (Lda, AbsoluteY)
    case 0xBA => (Tsx, Implied)
    case 0xBB => (Las, AbsoluteY)
    case 0xBC => (Ldy, AbsoluteX)
    case 0xBD => (Lda, AbsoluteX)
    case 0xBE => (Ldx, AbsoluteY)
    case 0xBF => (Lax, AbsoluteY)
  }

  function RowC0(byte: bv8): (r: (Opcode, AddressingMode))
    requires 0xC0 <= byte <= 0xC7
    ensures TableFacts(byte, r.0, r.1)
  {
    match byte
    case 0xC0 => (Cpy, Immediate)
    case 0xC1 => (Cmp, XIndirect)
    case 0xC2 => (Nop, Immediate)
    case 0xC3 => (Dcp, XIndirect)
    case 0xC4 => (Cpy, ZeroPage)
    case 0xC5 => (Cmp, ZeroPage)
    case 0xC6 => (Dec, ZeroPage)
    case 0xC7 => (Dcp, ZeroPage)
  }

  function RowC8(byte: bv8): (r: (Opcode, AddressingMode))
    requires 0xC8 <= byte <= 0xCF
    ensures TableFacts(byte, r.0, r.1)
  {
    match byte
    case 0xC8 => (Iny, Implied)
    case 0xC9 => (Cmp, Immediate)
    case 0xCA => (Dex, Implied)
    case 0xCB => (Axs, Immediate)
    case 0xCC => (Cpy, Absolute)
    case 0xCD => (Cmp, Absolute)
    case 0xCE => (Dec, Absolute)
    case 0xCF => (Dcp, Absolute)
  }

  function RowD0(byte: bv8): (r: (Opcode, AddressingMode))
    requires 0xD0 <= byte <= 0xD7
    ensures TableFacts(byte, r.0, r.1)
  {
    match byte
    case 0xD0 => (Bne, Relative)
    case 0xD1 => (Cmp, IndirectY)
    case 0xD2 => (Kil, Implied)
    case 0xD3 => (Dcp, IndirectY)
    case 0xD4 => (Nop, ZeroPageIndexX)
    case 0xD5 => (Cmp, ZeroPageIndexX)
    case 0xD6 => (Dec, ZeroPageIndexX)
    case 0xD7 => (Dcp, ZeroPageIndexX)
  }

  function RowD8(byte: bv8): (r: (Opcode, AddressingMode))
    requires 0xD8 <= byte <= 0xDF
    ensures TableFacts(byte, r.0, r.1)
  {
    match byte
    case 0xD8 => (Cld, Implied)
    case 0xD9 => (Cmp, AbsoluteY)
    case 0xDA => (Nop, Implied)
    case 0xDB => (Dcp, AbsoluteY)
    case 0xDC => (Nop, AbsoluteX)
    case 0xDD => (Cmp, AbsoluteX)
    case 0xDE => (Dec, AbsoluteX)
    case 0xDF => (Dcp, AbsoluteX)
  }

  function RowE0(byte: bv8): (r: (Opcode, AddressingMode))
    requires 0xE0 <= byte <= 0xE7
    ensures TableFacts(byte, r.0, r.1)
  {
    match byte
    case 0xE0 => (Cpx, Immediate)
    case 0xE1 => (Sbc, XIndirect)
    case 0xE2 => (Nop, Immediate)
    case 0xE3 => (Isc, XIndirect)
    case 0xE4 => (Cpx, ZeroPage)
    case 0xE5 => (Sbc, ZeroPage)
    case 0xE6 => (Inc, ZeroPage)
    case 0xE7 => (Isc, ZeroPage)
  }

  function RowE8(byte: bv8): (r: (Opcode, AddressingMode))
    requires 0xE8 <= byte <= 0xEF
    ensures TableFacts(byte, r.0, r.1)
  {
    match byte
    case 0xE8 => (Inx, Implied)
    case 0xE9 | 0xEB => (Sbc, Immediate)
    case 0xEA => (Nop, Implied)
    case 0xEC => (Cpx, Absolute)
    case 0xED => (Sbc, Absolute)
    case 0xEE => (Inc, Absolute)
    case 0xEF => (Isc, Absolute)
  }

  function RowF0(byte: bv8): (r: (Opcode, AddressingMode))
    requires 0xF0 <= byte <= 0xF7
    ensures TableFacts(byte, r.0, r.1)
  {
    match byte
    case 0xF0 => (Beq, Relative)
    case 0xF1 => (Sbc, IndirectY)
    case 0xF2 => (Kil, Implied)
    case 0xF3 => (Isc, IndirectY)
    case 0xF4 => (Nop, ZeroPageIndexX)
    case 0xF5 => (Sbc, ZeroPageIndexX)
    case 0xF6 => (Inc, ZeroPageIndexX)
    case 0xF7 => (Isc, ZeroPageIndexX)
  }

  function RowF8(byte: bv8): (r: (Opcode, AddressingMode))
    requires 0xF8 <= byte <= 0xFF
    ensures TableFacts(byte, r.0, r.1)
  {
    match byte
    case 0xF8 => (Sed, Implied)
    case 0xF9 => (Sbc, AbsoluteY)
    case 0xFA => (Nop, Implied)
    case 0xFB => (Isc, AbsoluteY)
    case 0xFC => (Nop, AbsoluteX)
    case 0xFD => (Sbc, AbsoluteX)
    case 0xFE => (Inc, AbsoluteX)
    case 0xFF => (Isc, AbsoluteX)
  }

  /** The opcode and addressing mode of every byte. */
  function Table(byte: bv8): (r: (Opcode, AddressingMode))
    ensures TableFacts(byte, r.0, r.1)
  {
    if byte <= 0x07 then Row00(byte)
    else if byte <= 0x0F then Row08(byte)
    else if byte <= 0x17 then Row10(byte)
    else if byte <= 0x1F then Row18(byte)
    else if byte <= 0x27 then Row20(byte)
    else if byte <= 0x2F then Row28(byte)
    else if byte <= 0x37 then Row30(byte)
    else if byte <= 0x3F then Row38(byte)
    else if byte <= 0x47 then Row40(byte)
    else if byte <= 0x4F then Row48(byte)
    else if byte <= 0x57 then Row50(byte)
    else if byte <= 0x5F then Row58(byte)
    else if byte <= 0x67 then Row60(byte)
    else if byte <= 0x6F then Row68(byte)
    else if byte <= 0x77 then Row70(byte)
    else if byte <= 0x7F then Row78(byte)
    else if byte <= 0x87 then Row80(byte)
    else if byte <= 0x8F then Row88(byte)
    else if byte <= 0x97 then Row90(byte)
    else if byte <= 0x9F then Row98(byte)
    else if byte <= 0xA7 then RowA0(byte)
    else if byte <= 0xAF then RowA8(byte)
    else if byte <= 0xB7 then RowB0(byte)
    else if byte <= 0xBF then RowB8(byte)
    else if byte <= 0xC7 then RowC0(byte)
    else if byte <= 0xCF then RowC8(byte)
    else if byte <= 0xD7 then RowD0(byte)
    else if byte <= 0xDF then RowD8(byte)
    else if byte <= 0xE7 then RowE0(byte)
    else if byte <= 0xEF then RowE8(byte)
    else if byte <= 0xF7 then RowF0(byte)
    else RowF8(byte)
  }

  /** Decoding keeps the byte, leaves the operand to be fetched, and is
      defined for all 256 bytes. */
  function Decode(byte: bv8): (r: Instruction)
    ensures r.opcodeByte == byte && r.operand == 0
    ensures TableFacts(byte, r.opcode, r.mode) && IsDecoded(r)
  {
    var (opcode, mode) := Table(byte);
    Instruction(byte, 0, opcode, mode)
  }

  /** Exactly twelve bytes decode to KIL: those with low nibble 2 in the
      first half of the table and in the odd rows of the second. */
  lemma KilDecoding(b: bv8)
    ensures Decode(b).opcode == Kil <==> b & 0x0F == 0x02 && (b < 0x80 || b & 0x10 != 0)
  {
  }

  /** Relative addressing belongs to the eight conditional branches, whose
      bytes are 0x10, 0x30, ..., 0xF0, and to nothing else. */
  lemma RelativeOnlyForBranches(b: bv8)
    ensures Decode(b).mode == Relative <==> b & 0x1F == 0x10
    ensures Decode(b).mode == Relative <==> IsBranch(Decode(b).opcode)
  {
  }

  /** The unofficial 0xEB is the same immediate SBC as 0xE9. */
  lemma SbcDuplicate()
    ensures Decode(0xEB) == Decode(0xE9).(opcodeByte := 0xEB)
    ensures Decode(0xEB).opcode == Sbc && Decode(0xEB).mode == Immediate
  {
  }

  /** The aaabbb01 bytes decode by the 6502's bit layout, except 0x89,
      where STA immediate would be, which is an immediate NOP. */
  lemma GroupOneFollowsBitLayout(b: bv8)
    requires b & 0x03 == 0x01
    ensures b != 0x89 ==> Decode(b).opcode == GroupOneOpcode(b >> 5) && Decode(b).mode == GroupOneMode((b >> 2) & 0x07)
    ensures b == 0x89 ==> Decode(b).opcode == Nop && Decode(b).mode == Immediate
  {
  }
}
