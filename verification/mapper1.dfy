/** Mapper 1 (MMC1). The CPU loads its four internal registers one bit at a
    time through a 5-bit serial shift register; the registers then select
    16 or 32 KiB PRG banks, 4 or 8 KiB CHR banks and the nametable
    mirroring. Bank numbers index the cartridge's PRG array in 16 KiB units
    and its CHR array in 4 KiB units. */
module Mapper1 {
  import opened Common
  import opened Banking
  import Arith

  /** The marker bit: when it reaches bit 0 the next write is the fifth. */
  const ShiftReset: bv8 := 0x10

  datatype Mapper1 = Mapper1(
    shiftRegister: bv8,
    control: bv8,
    chr0Bank: bv8,
    chr1Bank: bv8,
    prgBank: bv8,
    chrCount: bv8,
    prgCount: bv8)

  function New(): (r: Mapper1)
    ensures r.shiftRegister == ShiftReset
    ensures r.control == 0 && r.chr0Bank == 0 && r.chr1Bank == 0 && r.prgBank == 0
    ensures r.chrCount == 0 && r.prgCount == 0
  {
    Mapper1(ShiftReset, 0, 0, 0, 0, 0, 0)
  }

  /** The header gives CHR in 8 KiB units, stored doubled as 4 KiB units; a
      count of 128 or more overflows the byte. */
  function Init(m: Mapper1, prgCount: bv8, chrCount: bv8): (r: Mapper1)
    requires chrCount < 0x80
    ensures r.prgCount == prgCount && r.chrCount as int == 2 * chrCount as int
    ensures r.shiftRegister == ShiftReset
    ensures r.control == m.control && r.prgBank == m.prgBank
    ensures r.chr0Bank == m.chr0Bank && r.chr1Bank == m.chr1Bank
  {
    m.(prgCount := prgCount, chrCount := chrCount * 2, shiftRegister := ShiftReset)
  }

  /** Control bits 0-1: the mirroring code. */
  function MirroringCode(m: Mapper1): bv8 { m.control & 0x03 }

  /** PRG register bits 0-3: the 16 KiB bank; bit 4 is the RAM enable. */
  function PrgBankNumber(m: Mapper1): bv8 { m.prgBank & 0x0F }

  /** Control bit 3 clear: one 32 KiB bank at 0x8000. */
  predicate IsPrg32KbMode(m: Mapper1) { m.control & 0x08 == 0 }

  /** Control bit 2 clear (in 16 KiB mode): bank 0 fixed at 0x8000 and the
      selected bank at 0xC000; set: the selected bank at 0x8000 and the last
      bank fixed at 0xC000. */
  predicate IsFirstPrgChunkFixed(m: Mapper1) { m.control & 0x04 == 0 }

  /** Control bit 4 clear: one 8 KiB CHR bank. */
  predicate IsChr8KbMode(m: Mapper1) { m.control & 0x10 == 0 }

  predicate IsPrgRamEnabled(m: Mapper1) { m.prgBank & 0x10 != 0 }

  /** The CPU addresses whose bank the emulator can compute: 16 KiB mode
      rejects addresses below 0x8000, and the last-bank arithmetic needs at
      least one bank. */
  predicate PrgBankDefined(m: Mapper1, address: bv16)
  {
    m.prgCount >= 1 && (IsPrg32KbMode(m) || address >= 0x8000)
  }

  /** The 16 KiB bank that serves a CPU address. */
  function PrgBankFor(m: Mapper1, address: bv16): (r: bv8)
    requires PrgBankDefined(m, address)
    ensures IsPrg32KbMode(m) ==> r == PrgBankNumber(m) & 0x1E
    ensures !IsPrg32KbMode(m) && address < 0xC000 ==>
              r == if IsFirstPrgChunkFixed(m) then 0 else PrgBankNumber(m)
    ensures !IsPrg32KbMode(m) && address >= 0xC000 ==>
              r == if IsFirstPrgChunkFixed(m) then PrgBankNumber(m) else m.prgCount - 1
  {
    if IsPrg32KbMode(m) then PrgBankNumber(m) & 0x1E
    else if address < 0xC000 then (if IsFirstPrgChunkFixed(m) then 0 else PrgBankNumber(m))
    else if IsFirstPrgChunkFixed(m) then PrgBankNumber(m)
    else m.prgCount - 1
  }

  /** The PRG offset for a given bank: a 32 KiB window unless the bank is
      the last one, where only 16 KiB are addressed so as not to run past
      the data. The emulator compares the banks' start offsets, which are
      equal exactly when the bank numbers are. */
  function PrgOffset(m: Mapper1, bank: nat, address: bv16): (r: nat)
    requires m.prgCount >= 1
    ensures IsWideWindow(m, bank) ==> r == bank * 0x4000 + Low15(address)
    ensures !IsWideWindow(m, bank) ==> r == bank * 0x4000 + Low14(address)
  {
    bank * 0x4000 + WindowOffset(IsWideWindow(m, bank), address)
  }

  /** Whether the 32 KiB window is used for a bank: in 32 KiB mode, below
      the last bank. */
  predicate IsWideWindow(m: Mapper1, bank: nat)
    requires m.prgCount >= 1
  {
    IsPrg32KbMode(m) && bank != m.prgCount as nat - 1
  }

  /** The address's offset inside a 32 KiB or a 16 KiB window. */
  function WindowOffset(wide: bool, address: bv16): (r: nat)
    ensures r < if wide then 0x8000 else 0x4000
  {
    if wide then Low15(address) else Low14(address)
  }

  /** The assertion the emulator makes before it computes a PRG offset:
      it admits every bank inside the data and also the bank equal to the
      count, one past the end. */
  function PrgReadAllowedAsWritten(m: Mapper1, address: bv16): (r: bool)
    ensures r ==> PrgBankDefined(m, address)
    ensures PrgReadAllowed(m, address) ==> r
    ensures r && !PrgReadAllowed(m, address) ==> PrgBankFor(m, address) as nat == m.prgCount as nat
  {
    PrgBankDefined(m, address) && PrgBankFor(m, address) as nat <= m.prgCount as nat
  }

  /** CPU read translation with the bound the emulator checks, `bank <=
      prg_count`: a bank equal to the count passes. */
  function MapCpuReadAsWritten(m: Mapper1, address: bv16): (r: nat)
    requires PrgReadAllowedAsWritten(m, address)
    ensures r >= PrgBankFor(m, address) as int * 0x4000
  {
    PrgOffset(m, PrgBankFor(m, address) as nat, address)
  }

  /** A one-bank-too-far PRG register passes the emulator's check and yields
      an offset one past the end of 32 KiB of PRG data. */
  lemma CpuReadAsWrittenOverruns()
    ensures var m := New().(prgCount := 2, control := 0x0C, prgBank := 2);
            PrgReadAllowedAsWritten(m, 0x8000) &&
            MapCpuReadAsWritten(m, 0x8000) >= m.prgCount as int * 0x4000
  {
    var m := New().(prgCount := 2, control := 0x0C, prgBank := 2);
    assert PrgBankFor(m, 0x8000) == 2;
  }

  /** The evidently intended check: the bank lies inside the data, so the
      bank equal to the count is refused. */
  function PrgReadAllowed(m: Mapper1, address: bv16): (r: bool)
    ensures r ==> PrgBankDefined(m, address) && PrgBankFor(m, address) as nat < m.prgCount as nat
    ensures PrgBankDefined(m, address) && PrgBankFor(m, address) as nat == m.prgCount as nat ==> !r
  {
    PrgBankDefined(m, address) && PrgBankFor(m, address) as nat < m.prgCount as nat
  }

  /** CPU read translation: with the bank inside the data, every offset
      stays inside the `prg_count` banks of 16 KiB. */
  function MapCpuRead(m: Mapper1, address: bv16): (r: nat)
    requires PrgReadAllowed(m, address)
    ensures r < m.prgCount as int * 0x4000
    ensures r >= PrgBankFor(m, address) as int * 0x4000
  {
    var bank := PrgBankFor(m, address) as nat;
    PrgOffsetInside(m, bank, address);
    PrgOffset(m, bank, address)
  }

  /** A bank inside the data gives an offset inside the data: a 32 KiB
      window is used only below the last bank, so both of its halves fit. */
  lemma PrgOffsetInside(m: Mapper1, bank: nat, address: bv16)
    requires m.prgCount >= 1 && bank < m.prgCount as nat
    ensures PrgOffset(m, bank, address) < m.prgCount as int * 0x4000
  {
    WindowFits(bank, m.prgCount as nat, IsWideWindow(m, bank));
  }

  /** Bank `bank` of `count`, addressed through a window of two banks when
      `wide` holds and of one otherwise, stays inside the data. */
  lemma WindowFits(bank: int, count: int, wide: bool)
    requires 0 <= bank < count && (wide ==> bank + 1 != count)
    ensures bank * 0x4000 + (if wide then 0x8000 else 0x4000) <= count * 0x4000
  {
    if wide {
      Arith.MulLe(bank + 2, count, 0x4000);
    } else {
      Arith.MulLe(bank + 1, count, 0x4000);
    }
  }

  /** The 4 KiB CHR bank that serves a pattern address: in 8 KiB mode the
      even bank of chr 0; in 4 KiB mode chr 0 for the lower and chr 1 for
      the upper pattern table. */
  function ChrBankFor(m: Mapper1, address: bv16): (r: bv8)
    requires address < 0x2000
    ensures IsChr8KbMode(m) ==> r == m.chr0Bank & 0x1E
    ensures !IsChr8KbMode(m) ==> r == if address < 0x1000 then m.chr0Bank else m.chr1Bank
  {
    if IsChr8KbMode(m) then m.chr0Bank & 0x1E
    else if address < 0x1000 then m.chr0Bank
    else m.chr1Bank
  }

  /** PPU read translation; the emulator asserts `bank <= chr_count`. */
  function MapPpuRead(m: Mapper1, address: bv16): (r: nat)
    requires address < 0x2000 && ChrBankFor(m, address) <= m.chrCount
    ensures IsChr8KbMode(m) ==> r == (m.chr0Bank & 0x1E) as int * 0x1000 + Low13(address)
    ensures !IsChr8KbMode(m) ==> r == ChrBankFor(m, address) as int * 0x1000 + Low12(address)
  {
    var bank := ChrBankFor(m, address);
    0x1000 * bank as nat + (if IsChr8KbMode(m) then Low13(address) else Low12(address))
  }

  /** In 8 KiB mode the two pattern tables are consecutive 4 KiB banks. */
  lemma Chr8KbModeIsContiguous(m: Mapper1, i: bv16)
    requires IsChr8KbMode(m) && i < 0x1000 && m.chr0Bank & 0x1E <= m.chrCount
    ensures MapPpuRead(m, i + 0x1000) == MapPpuRead(m, i) + 0x1000
  {
    assert Low13(i + 0x1000) == Low13(i) + 0x1000;
  }

  /** In 4 KiB mode each pattern table reads from its own register's bank. */
  lemma Chr4KbModeSplits(m: Mapper1, address: bv16)
    requires !IsChr8KbMode(m) && address < 0x2000 && ChrBankFor(m, address) <= m.chrCount
    ensures MapPpuRead(m, address) / 0x1000 ==
              (if address < 0x1000 then m.chr0Bank else m.chr1Bank) as int
  {
    var b := ChrBankFor(m, address) as nat;
    var lo := Low12(address);
    assert MapPpuRead(m, address) == b * 0x1000 + lo;
    Arith.ModUnique(b * 0x1000 + lo, 0x1000, b, lo);
  }

  /** The register the fifth write loads, by the address's 8 KiB window. */
  function LoadRegister(m: Mapper1, address: bv16, value: bv8): (r: Mapper1)
    requires address >= 0x8000
    ensures address < 0xA000 ==> r == m.(control := value)
    ensures 0xA000 <= address < 0xC000 ==> r == m.(chr0Bank := value)
    ensures 0xC000 <= address < 0xE000 ==> r == m.(chr1Bank := value)
    ensures 0xE000 <= address ==> r == m.(prgBank := value)
  {
    if address < 0xA000 then m.(control := value)
    else if address < 0xC000 then m.(chr0Bank := value)
    else if address < 0xE000 then m.(chr1Bank := value)
    else m.(prgBank := value)
  }

  /** One serial write: the register moves right and data bit 0 enters at bit 4. */
  function ShiftIn(shiftRegister: bv8, data: bv8): (r: bv8)
    ensures shiftRegister < 0x20 ==> r < 0x20
    ensures r & 0x0F == (shiftRegister >> 1) & 0x0F
    ensures r & 0x10 != 0 <==> data & 1 == 1 || shiftRegister & 0x20 != 0
  {
    (shiftRegister >> 1) | ((data & 1) << 4)
  }

  /** A CPU write at or above 0x8000 with bit 7 set resets the shift
      register; otherwise data bit 0 enters at bit 4, and when the marker
      leaves bit 0 the five collected bits load a register and the shift
      register resets. PPU writes and lower CPU addresses change nothing. */
  function MapWrite(m: Mapper1, address: bv16, data: bv8, device: Device): (r: Mapper1)
    ensures device == Ppu || address < 0x8000 ==> r == m
    ensures device == Cpu && address >= 0x8000 && data & 0x80 != 0 ==>
              r == m.(shiftRegister := ShiftReset)
  {
    if device == Ppu || address < 0x8000 then m
    else if data & 0x80 != 0 then m.(shiftRegister := ShiftReset)
    else
      var shifted := ShiftIn(m.shiftRegister, data);
      if m.shiftRegister & 1 != 0 then LoadRegister(m, address, shifted & 0x1F).(shiftRegister := ShiftReset)
      else m.(shiftRegister := shifted)
  }

  /** The registers the serial port writes, without the shift register. */
  predicate SameRegisters(a: Mapper1, b: Mapper1)
  {
    a.control == b.control && a.chr0Bank == b.chr0Bank && a.chr1Bank == b.chr1Bank &&
    a.prgBank == b.prgBank && a.chrCount == b.chrCount && a.prgCount == b.prgCount
  }

  /** The five-bit value of five serial writes: bit i is bit 0 of write i. */
  function SerialValue(d0: bv8, d1: bv8, d2: bv8, d3: bv8, d4: bv8): bv8
  {
    (d0 & 1) | ((d1 & 1) << 1) | ((d2 & 1) << 2) | ((d3 & 1) << 3) | ((d4 & 1) << 4)
  }

  /** Starting from the reset value, the marker reaches bit 0 after exactly
      four shifts, and the fifth shift leaves the five data bits in order. */
  lemma SerialShifts(d0: bv8, d1: bv8, d2: bv8, d3: bv8, d4: bv8)
    ensures var s1 := ShiftIn(ShiftReset, d0);
            var s2 := ShiftIn(s1, d1);
            var s3 := ShiftIn(s2, d2);
            var s4 := ShiftIn(s3, d3);
            ShiftReset & 1 == 0 && s1 & 1 == 0 && s2 & 1 == 0 && s3 & 1 == 0 && s4 & 1 != 0 &&
            ShiftIn(s4, d4) & 0x1F == SerialValue(d0, d1, d2, d3, d4)
  {
    var s1 := ShiftIn(ShiftReset, d0);
    assert s1 == 0x08 | ((d0 & 1) << 4);
    var s2 := ShiftIn(s1, d1);
    assert s2 == 0x04 | ((d0 & 1) << 3) | ((d1 & 1) << 4);
    var s3 := ShiftIn(s2, d2);
    assert s3 == 0x02 | ((d0 & 1) << 2) | ((d1 & 1) << 3) | ((d2 & 1) << 4);
    var s4 := ShiftIn(s3, d3);
    assert s4 == 0x01 | ((d0 & 1) << 1) | ((d1 & 1) << 2) | ((d2 & 1) << 3) | ((d3 & 1) << 4);
  }

  /** After a reset, the first four writes collect their bits without
      touching a register, and the fifth loads the register its address
      selects with the collected value, first write in the lowest bit. */
  lemma FiveWritesLoadRegister(m: Mapper1, a0: bv16, a1: bv16, a2: bv16, a3: bv16, a4: bv16,
                               d0: bv8, d1: bv8, d2: bv8, d3: bv8, d4: bv8)
    requires m.shiftRegister == ShiftReset
    requires a0 >= 0x8000 && a1 >= 0x8000 && a2 >= 0x8000 && a3 >= 0x8000 && a4 >= 0x8000
    requires d0 & 0x80 == 0 && d1 & 0x80 == 0 && d2 & 0x80 == 0 && d3 & 0x80 == 0 && d4 & 0x80 == 0
    ensures var m1 := MapWrite(m, a0, d0, Cpu);
            var m2 := MapWrite(m1, a1, d1, Cpu);
            var m3 := MapWrite(m2, a2, d2, Cpu);
            var m4 := MapWrite(m3, a3, d3, Cpu);
            SameRegisters(m1, m) && SameRegisters(m2, m) && SameRegisters(m3, m) && SameRegisters(m4, m) &&
            MapWrite(m4, a4, d4, Cpu) ==
              LoadRegister(m, a4, SerialValue(d0, d1, d2, d3, d4)).(shiftRegister := ShiftReset)
  {
    SerialShifts(d0, d1, d2, d3, d4);
    var s1 := ShiftIn(ShiftReset, d0);
    var s2 := ShiftIn(s1, d1);
    var s3 := ShiftIn(s2, d2);
    var s4 := ShiftIn(s3, d3);
    CollectBit(m, a0, d0);
    var m1 := m.(shiftRegister := s1);
    CollectBit(m1, a1, d1);
    var m2 := m.(shiftRegister := s2);
    CollectBit(m2, a2, d2);
    var m3 := m.(shiftRegister := s3);
    CollectBit(m3, a3, d3);
    var m4 := m.(shiftRegister := s4);
    LoadCollected(m4, a4, d4);
    LoadIgnoresShiftRegister(m, s4, a4, SerialValue(d0, d1, d2, d3, d4));
  }

  /** Loading a register and then resetting the shift register does not
      depend on the shift register's earlier contents. */
  lemma LoadIgnoresShiftRegister(m: Mapper1, s: bv8, address: bv16, value: bv8)
    requires address >= 0x8000
    ensures LoadRegister(m.(shiftRegister := s), address, value).(shiftRegister := ShiftReset) ==
            LoadRegister(m, address, value).(shiftRegister := ShiftReset)
  {
  }

  /** A serial write before the marker reaches bit 0 only shifts. */
  lemma CollectBit(m: Mapper1, address: bv16, data: bv8)
    requires address >= 0x8000 && data & 0x80 == 0 && m.shiftRegister & 1 == 0
    ensures MapWrite(m, address, data, Cpu) == m.(shiftRegister := ShiftIn(m.shiftRegister, data))
  {
  }

  /** The serial write that finds the marker in bit 0 loads a register. */
  lemma LoadCollected(m: Mapper1, address: bv16, data: bv8)
    requires address >= 0x8000 && data & 0x80 == 0 && m.shiftRegister & 1 != 0
    ensures MapWrite(m, address, data, Cpu) ==
              LoadRegister(m, address, ShiftIn(m.shiftRegister, data) & 0x1F).(shiftRegister := ShiftReset)
  {
  }

  function IsHardwiredMirrored(m: Mapper1): (r: bool)
    ensures !r
  {
    false
  }

  /** Mirroring as the emulator's table has it: code 1 gives Horizontal. */
  function NametableMirroringAsWritten(m: Mapper1): (r: MirroringMode)
    ensures r != SingleScreenHighBank && r != FourScreen
  {
    [SingleScreenLowBank, Horizontal, Vertical, Horizontal][MirroringCode(m)]
  }

  /** Codes 1 and 3 read the same way, so the upper one-screen bank that
      the control register's documentation lists for code 1 is never used. */
  lemma MirroringAsWrittenLosesUpperBank(m: Mapper1)
    requires MirroringCode(m) == 1
    ensures NametableMirroringAsWritten(m) == NametableMirroringAsWritten(m.(control := 3))
    ensures NametableMirroringAsWritten(m) != SingleScreenHighBank
  {
  }

  /** Mirroring as the control register is documented: 0 one-screen lower
      bank, 1 one-screen upper bank, 2 vertical, 3 horizontal. */
  function NametableMirroring(m: Mapper1): (r: MirroringMode)
    ensures r == SingleScreenLowBank <==> MirroringCode(m) == 0
    ensures r == SingleScreenHighBank <==> MirroringCode(m) == 1
    ensures r == Vertical <==> MirroringCode(m) == 2
    ensures r == Horizontal <==> MirroringCode(m) == 3
  {
    [SingleScreenLowBank, SingleScreenHighBank, Vertical, Horizontal][MirroringCode(m)]
  }

  function IsIrqRequested(m: Mapper1): (r: bool)
    ensures !r
  {
    false
  }
}
