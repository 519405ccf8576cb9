/** The 6502 status register and the arithmetic, comparison, shift and
    logic operations of the CPU, without decimal mode. Every operation takes
    the old status byte and returns the new one next to its result. */
module Alu6502 {

  // Status flag bits: N V _ B D I Z C
  const CARRY: bv8 := 0x01
  const ZERO: bv8 := 0x02
  const INTERRUPT_DISABLE: bv8 := 0x04
  const DECIMAL_MODE: bv8 := 0x08
  const BREAK_COMMAND: bv8 := 0x10
  const OVERFLOW: bv8 := 0x40
  const NEGATIVE: bv8 := 0x80

  predicate Flag(status: bv8, flag: bv8)
  {
    status & flag != 0
  }

  /** Sets or clears the bits of `flag`, leaving the others alone. */
  function SetFlagStatus(status: bv8, flag: bv8, on: bool): (r: bv8)
    ensures on ==> r & flag == flag
    ensures !on ==> r & flag == 0
    ensures r & !flag == status & !flag
  {
    if on then status | flag else status & !flag
  }

  /** The bits other than N, V, Z and C, which no ALU operation touches. */
  function Untouched(status: bv8): bv8
  {
    status & 0x3C
  }

  /** Z reports a zero result and N copies bit 7; the other bits stay. */
  function UpdateZeroNegative(status: bv8, value: bv8): (r: bv8)
    ensures Flag(r, ZERO) <==> value == 0
    ensures Flag(r, NEGATIVE) <==> value >= 0x80
    ensures r & 0x7D == status & 0x7D
  {
    SetFlagStatus(SetFlagStatus(status, ZERO, value == 0), NEGATIVE, value & 0x80 != 0)
  }

  /** The carry flag as the bit ADC adds. */
  function CarryBit(status: bv8): (r: bv8)
    ensures r == 1 <==> Flag(status, CARRY)
    ensures r <= 1
  {
    if Flag(status, CARRY) then 1 else 0
  }

  function LowByte(w: bv16): bv8
  {
    (w & 0xFF) as bv8
  }

  function HighByte(w: bv16): bv8
  {
    (w >> 8) as bv8
  }

  /** The sign of a byte read as two's complement. */
  predicate IsNegative(v: bv8)
  {
    v >= 0x80
  }

  datatype AluResult = AluResult(value: bv8, status: bv8)

  /** The low byte of the nine-bit sum ADC forms. */
  function AddWithCarry(a: bv8, m: bv8, carry: bv8): (r: bv8)
    requires carry <= 1
    ensures r == a + m + carry
  {
    LowByte((a as bv16) + (m as bv16) + (carry as bv16))
  }

  /** Bit 8 of the nine-bit sum ADC forms. */
  function CarryOut(a: bv8, m: bv8, carry: bv8): (r: bool)
    requires carry <= 1
    ensures r <==> (a as bv16) + (m as bv16) + (carry as bv16) > 0xFF
  {
    ((a as bv16) + (m as bv16) + (carry as bv16)) & 0xFF00 != 0
  }

  /** The low byte of the difference SBC forms. */
  function SubtractWithBorrow(a: bv8, m: bv8, borrow: bv8): (r: bv8)
    requires borrow <= 1
    ensures r == a - m - borrow
  {
    LowByte((a as bv16) - (m as bv16) - (borrow as bv16))
  }

  /** SBC's carry: the sixteen-bit difference did not wrap. */
  function NoBorrow(a: bv8, m: bv8, borrow: bv8): (r: bool)
    requires borrow <= 1
    ensures r <==> a as bv16 >= (m as bv16) + (borrow as bv16)
  {
    ((a as bv16) - (m as bv16) - (borrow as bv16)) & 0xFF00 == 0
  }

  /** The sign test of ADC: operands of equal sign, result of the other. */
  function AddOverflows(a: bv8, m: bv8, value: bv8): (r: bool)
    ensures r <==> IsNegative(a) == IsNegative(m) && IsNegative(value) != IsNegative(a)
  {
    (value ^ a) & 0x80 != 0 && (m ^ a) & 0x80 == 0
  }

  /** The sign test of SBC: operands of different sign, result's sign
      differing from A's. */
  function SubtractOverflows(a: bv8, m: bv8, value: bv8): (r: bool)
    ensures r <==> IsNegative(a) != IsNegative(m) && IsNegative(value) != IsNegative(a)
  {
    (value ^ a) & 0x80 != 0 && (m ^ a) & 0x80 != 0
  }

  /** The status ADC leaves: V from the sign test, Z and N from the
      result, C from the carry out. */
  function AdcStatus(status: bv8, overflow: bool, value: bv8, carry: bool): (r: bv8)
    ensures Flag(r, CARRY) <==> carry
    ensures Flag(r, OVERFLOW) <==> overflow
    ensures Flag(r, ZERO) <==> value == 0
    ensures Flag(r, NEGATIVE) <==> IsNegative(value)
    ensures Untouched(r) == Untouched(status)
  {
    SetFlagStatus(UpdateZeroNegative(SetFlagStatus(status, OVERFLOW, overflow), value), CARRY, carry)
  }

  /** The status SBC leaves: the emulator sets V and C first and then Z and
      N, which touch different bits. */
  function SbcStatus(status: bv8, overflow: bool, value: bv8, carry: bool): (r: bv8)
    ensures r == AdcStatus(status, overflow, value, carry)
  {
    UpdateZeroNegative(SetFlagStatus(SetFlagStatus(status, OVERFLOW, overflow), CARRY, carry), value)
  }

  /** ADC: the sum of A, the operand and the carry, modulo 256 (`bv8`
      arithmetic wraps). The flags are stated by `AdcFlags`. */
  function Adc(a: bv8, m: bv8, status: bv8): (r: AluResult)
    ensures r.value == a + m + CarryBit(status)
  {
    var carry := CarryBit(status);
    var value := AddWithCarry(a, m, carry);
    AluResult(value, AdcStatus(status, AddOverflows(a, m, value), value, CarryOut(a, m, carry)))
  }

  /** After ADC, C reports that the exact sum exceeds 0xFF, V reports
      operands of equal sign whose result has the other sign, Z and N
      describe the result, and the bits no ALU operation owns stay. */
  lemma AdcFlags(a: bv8, m: bv8, status: bv8)
    ensures var r := Adc(a, m, status);
            (Flag(r.status, CARRY) <==> (a as bv16) + (m as bv16) + (CarryBit(status) as bv16) > 0xFF) &&
            (Flag(r.status, OVERFLOW) <==> IsNegative(a) == IsNegative(m) && IsNegative(r.value) != IsNegative(a)) &&
            (Flag(r.status, ZERO) <==> r.value == 0) &&
            (Flag(r.status, NEGATIVE) <==> IsNegative(r.value)) &&
            Untouched(r.status) == Untouched(status)
  {
  }

  /** SBC: A minus the operand minus the borrow (the inverted carry),
      modulo 256. The flags are stated by `SbcFlags`. */
  function Sbc(a: bv8, m: bv8, status: bv8): (r: AluResult)
    ensures r.value == a - m - (1 - CarryBit(status))
  {
    var borrow: bv8 := 1 - CarryBit(status);
    var value := SubtractWithBorrow(a, m, borrow);
    AluResult(value, SbcStatus(status, SubtractOverflows(a, m, value), value, NoBorrow(a, m, borrow)))
  }

  /** After SBC, C reports that no borrow was needed, V reports operands of
      different sign whose result's sign differs from A's, Z and N describe
      the result, and the bits no ALU operation owns stay. */
  lemma SbcFlags(a: bv8, m: bv8, status: bv8)
    ensures var r := Sbc(a, m, status);
            (Flag(r.status, CARRY) <==> a as bv16 >= (m as bv16) + ((1 - CarryBit(status)) as bv16)) &&
            (Flag(r.status, OVERFLOW) <==> IsNegative(a) != IsNegative(m) && IsNegative(r.value) != IsNegative(a)) &&
            (Flag(r.status, ZERO) <==> r.value == 0) &&
            (Flag(r.status, NEGATIVE) <==> IsNegative(r.value)) &&
            Untouched(r.status) == Untouched(status)
  {
  }

  /** Subtraction is addition of the complemented operand: SBC and ADC of
      the bitwise inverse agree on the result and on every flag. */
  lemma SbcIsAdcOfComplement(a: bv8, m: bv8, status: bv8)
    ensures Sbc(a, m, status) == Adc(a, !m, status)
  {
    var carry := CarryBit(status);
    var value := AddWithCarry(a, !m, carry);
    DifferenceIsSum(a, m, carry);
    NoBorrowIsCarry(a, m, carry);
    SubtractOverflowIsAddOverflow(a, m, value);
  }

  /** `a - m - (1 - carry)` and `a + !m + carry` are the same byte. */
  lemma DifferenceIsSum(a: bv8, m: bv8, carry: bv8)
    requires carry <= 1
    ensures SubtractWithBorrow(a, m, 1 - carry) == AddWithCarry(a, !m, carry)
  {
  }

  /** No borrow out of `a - m - (1 - carry)` is a carry out of
      `a + !m + carry`. */
  lemma NoBorrowIsCarry(a: bv8, m: bv8, carry: bv8)
    requires carry <= 1
    ensures NoBorrow(a, m, 1 - carry) == CarryOut(a, !m, carry)
  {
  }

  /** The sign test of SBC is the sign test of ADC on the inverted operand. */
  lemma SubtractOverflowIsAddOverflow(a: bv8, m: bv8, value: bv8)
    ensures SubtractOverflows(a, m, value) == AddOverflows(a, !m, value)
  {
  }

  /** CMP, CPX, CPY: C reports register >= operand, Z equality, and N bit 7
      of the wrapped difference. Only the flags change. */
  function Compare(register: bv8, m: bv8, status: bv8): (r: bv8)
    ensures Flag(r, CARRY) <==> register >= m
    ensures Flag(r, ZERO) <==> register == m
    ensures Flag(r, NEGATIVE) <==> IsNegative(register - m)
    ensures r & 0x7C == status & 0x7C
  {
    var result := (register as bv16) - (m as bv16);
    SetFlagStatus(UpdateZeroNegative(status, LowByte(result)), CARRY, result & 0xFF00 == 0)
  }

  /** ASL: bit 7 moves into C and a zero enters bit 0. */
  function Asl(v: bv8, status: bv8): (r: AluResult)
    ensures r.value == v * 2
    ensures Flag(r.status, CARRY) <==> v >= 0x80
    ensures Flag(r.status, ZERO) <==> r.value == 0
    ensures Flag(r.status, NEGATIVE) <==> IsNegative(r.value)
    ensures r.status & 0x7C == status & 0x7C
  {
    var s := SetFlagStatus(status, CARRY, v & 0x80 != 0);
    AluResult(v << 1, UpdateZeroNegative(s, v << 1))
  }

  /** LSR: bit 0 moves into C and a zero enters bit 7. */
  function Lsr(v: bv8, status: bv8): (r: AluResult)
    ensures r.value == v / 2
    ensures Flag(r.status, CARRY) <==> v % 2 == 1
    ensures !IsNegative(r.value)
    ensures Flag(r.status, ZERO) <==> r.value == 0
    ensures r.status & 0x7C == status & 0x7C
  {
    var s := SetFlagStatus(status, CARRY, v & 0x01 != 0);
    AluResult(v >> 1, UpdateZeroNegative(s, v >> 1))
  }

  /** ROL: bit 7 moves into C and the old C enters bit 0. */
  function Rol(v: bv8, status: bv8): (r: AluResult)
    ensures r.value == v * 2 + CarryBit(status)
    ensures Flag(r.status, CARRY) <==> v >= 0x80
    ensures Flag(r.status, ZERO) <==> r.value == 0
    ensures Flag(r.status, NEGATIVE) <==> IsNegative(r.value)
    ensures r.status & 0x7C == status & 0x7C
  {
    var oldCarry := CarryBit(status);
    var s := SetFlagStatus(status, CARRY, v & 0x80 != 0);
    var value := (v << 1) | oldCarry;
    AluResult(value, UpdateZeroNegative(s, value))
  }

  /** ROR: bit 0 moves into C and the old C enters bit 7. */
  function Ror(v: bv8, status: bv8): (r: AluResult)
    ensures r.value == v / 2 + CarryBit(status) * 0x80
    ensures Flag(r.status, CARRY) <==> v % 2 == 1
    ensures Flag(r.status, ZERO) <==> r.value == 0
    ensures Flag(r.status, NEGATIVE) <==> Flag(status, CARRY)
    ensures Flag(r.status, NEGATIVE) <==> IsNegative(r.value)
    ensures r.status & 0x7C == status & 0x7C
  {
    var oldCarry := CarryBit(status);
    var s := SetFlagStatus(status, CARRY, v & 0x01 != 0);
    var value := (v >> 1) | (oldCarry << 7);
    AluResult(value, UpdateZeroNegative(s, value))
  }

  /** ROR undoes ROL: the nine-bit rotation through the carry comes back to
      the same byte and the same carry. */
  lemma RorUndoesRol(v: bv8, status: bv8)
    ensures var left := Rol(v, status);
            var back := Ror(left.value, left.status);
            back.value == v && (Flag(back.status, CARRY) <==> Flag(status, CARRY))
  {
  }

  /** AND into A: exactly the bits set in both A and the operand. */
  function And(a: bv8, m: bv8, status: bv8): (r: AluResult)
    ensures r.value & !a == 0 && r.value & !m == 0 && r.value | !a | !m == 0xFF
    ensures Flag(r.status, ZERO) <==> r.value == 0
    ensures Flag(r.status, NEGATIVE) <==> IsNegative(r.value)
    ensures r.status & 0x7D == status & 0x7D
  {
    var value := m & a;
    AluResult(value, UpdateZeroNegative(status, value))
  }

  /** EOR into A: exactly the bits set in one of A and the operand, so
      applying the operand twice gives A back. */
  function Eor(a: bv8, m: bv8, status: bv8): (r: AluResult)
    ensures r.value ^ a == m && r.value ^ m == a
    ensures Flag(r.status, ZERO) <==> r.value == 0
    ensures Flag(r.status, NEGATIVE) <==> IsNegative(r.value)
    ensures r.status & 0x7D == status & 0x7D
  {
    var value := m ^ a;
    AluResult(value, UpdateZeroNegative(status, value))
  }

  /** ORA into A: exactly the bits set in A or the operand. */
  function Ora(a: bv8, m: bv8, status: bv8): (r: AluResult)
    ensures r.value & !(a | m) == 0 && r.value & a == a && r.value & m == m
    ensures Flag(r.status, ZERO) <==> r.value == 0
    ensures Flag(r.status, NEGATIVE) <==> IsNegative(r.value)
    ensures r.status & 0x7D == status & 0x7D
  {
    var value := m | a;
    AluResult(value, UpdateZeroNegative(status, value))
  }

  /** BIT: N and V copy bits 7 and 6 of the operand and Z reports that it
      shares no set bit with A. */
  function Bit(a: bv8, m: bv8, status: bv8): (r: bv8)
    ensures Flag(r, NEGATIVE) <==> IsNegative(m)
    ensures Flag(r, OVERFLOW) <==> m & 0x40 != 0
    ensures Flag(r, ZERO) <==> m & a == 0
    ensures r & 0x3D == status & 0x3D
  {
    var s1 := SetFlagStatus(status, NEGATIVE, m & NEGATIVE != 0);
    var s2 := SetFlagStatus(s1, OVERFLOW, m & OVERFLOW != 0);
    SetFlagStatus(s2, ZERO, m & a == 0)
  }
}
