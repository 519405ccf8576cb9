/** Mapper 9 (MMC2): an 8 KiB switchable PRG bank at 0x8000 with the last
    three banks fixed above it, and two pairs of 4 KiB CHR banks chosen by
    latches that the PPU flips when it fetches particular tiles. */
module Mapper9 {
  import opened Common
  import opened Banking
  import Arith

  datatype Mapper9 = Mapper9(
    prgBank: bv8,
    latch0: bv8,
    latch1: bv8,
    chrFd0000Bank: bv8,
    chrFe0000Bank: bv8,
    chrFd1000Bank: bv8,
    chrFe1000Bank: bv8,
    mirroringVertical: bool,
    isChrRam: bool,
    chrCount: bv8,
    prgCount: bv8)

  /** The two values a latch can hold. */
  predicate LatchValue(v: bv8) { v == 0xFD || v == 0xFE }

  predicate LatchesValid(m: Mapper9) { LatchValue(m.latch0) && LatchValue(m.latch1) }

  function New(): (r: Mapper9)
    ensures LatchesValid(r) && r.latch0 == 0xFE && r.latch1 == 0xFE
    ensures r.prgCount == 0 && r.chrCount == 0 && !r.isChrRam && !r.mirroringVertical
  {
    Mapper9(0, 0xFE, 0xFE, 0, 0, 0, 0, false, false, 0, 0)
  }

  /** The header counts 16 KiB PRG and 8 KiB CHR banks, kept doubled as
      8 KiB and 4 KiB units (a byte overflow from 128 on); more than three
      PRG banks are asserted because three are fixed. */
  function Init(m: Mapper9, prgCount: bv8, isChrRam: bool, chrCount: bv8, sramCount: bv8): (r: Mapper9)
    requires prgCount < 0x80 && chrCount < 0x80
    requires prgCount * 2 > 3
    ensures r.prgCount as int == 2 * prgCount as int && r.prgCount > 3
    ensures r.chrCount as int == 2 * chrCount as int && r.isChrRam == isChrRam
    ensures r.latch0 == m.latch0 && r.latch1 == m.latch1 && r.prgBank == m.prgBank
  {
    m.(prgCount := prgCount * 2, chrCount := chrCount * 2, isChrRam := isChrRam)
  }

  /** Which of the three fixed banks a CPU address of 0xA000-0xFFFF reads:
      0 for the third-last, 1 for the second-last, 2 for the last. */
  function FixedIndex(address: bv16): (r: nat)
    requires address >= 0xA000
    ensures address < 0xC000 ==> r == 0
    ensures 0xC000 <= address < 0xE000 ==> r == 1
    ensures 0xE000 <= address ==> r == 2
  {
    (((address >> 13) & 0x3) - 1) as nat
  }

  /** The 8 KiB bank before reduction modulo the count. */
  function PrgBankFor(m: Mapper9, address: bv16): (r: nat)
    requires address >= 0x8000 && (address >= 0xA000 ==> m.prgCount >= 3)
    ensures address < 0xA000 ==> r == m.prgBank as nat
    ensures address >= 0xA000 ==> r == m.prgCount as nat - 3 + FixedIndex(address)
  {
    if address < 0xA000 then m.prgBank as nat else m.prgCount as nat - 3 + FixedIndex(address)
  }

  /** The emulator reaches `unreachable!` below 0x6000, subtracts three from
      the count for the fixed banks, divides by the counts, and reaches
      `unreachable!` when the latch it selects holds neither 0xFD nor 0xFE. */
  predicate CpuReadDefined(m: Mapper9, address: bv16)
  {
    address >= 0x6000 && (address >= 0x8000 ==> m.prgCount > 0) &&
    (address >= 0xA000 ==> m.prgCount >= 3)
  }

  /** The offset of a CPU address inside the 8 KiB window at 0x6000. */
  function RamOffset(address: bv16): (r: nat)
    requires 0x6000 <= address < 0x8000
    ensures r < 0x2000 && r + 0x6000 == address as int
  {
    (address & 0x1FFF) as nat
  }

  /** 0x6000-0x7FFF reaches the PRG RAM; above, the bank for the window,
      reduced modulo the count, at the address's offset inside its 8 KiB
      window. */
  function MapCpuRead(m: Mapper9, address: bv16): (r: MappingResult)
    requires CpuReadDefined(m, address)
    ensures r.Allowed?
    ensures address < 0x8000 ==> r.offset + 0x6000 == address as int
    ensures address >= 0x8000 ==> r == Allowed(PrgOffset(m, address))
  {
    if address < 0x8000 then Allowed(RamOffset(address))
    else Allowed(PrgOffset(m, address))
  }

  /** The bank for the window, reduced modulo the count, at the address's
      offset inside its 8 KiB window. */
  function PrgOffset(m: Mapper9, address: bv16): (r: nat)
    requires address >= 0x8000 && CpuReadDefined(m, address)
    ensures r < m.prgCount as int * 0x2000
    ensures r / 0x2000 == PrgBankFor(m, address) % m.prgCount as int
    ensures r % 0x2000 == address as int % 0x2000
  {
    WrappedBank(PrgBankFor(m, address), m.prgCount as nat, 0x2000, Low13(address))
  }

  /** 0xA000, 0xC000 and 0xE000 read the third-last, second-last and last
      PRG banks. */
  lemma FixedBanksAreLastThree(m: Mapper9, address: bv16)
    requires address >= 0xA000 && m.prgCount >= 3
    ensures MapCpuRead(m, address).offset / 0x2000 == m.prgCount as int - 3 + FixedIndex(address)
  {
    var b := PrgBankFor(m, address);
    Arith.ModUnique(b, m.prgCount as int, 0, b);
  }

  /** The latch side effect of a PPU read: fetching 0x0FD8 or 0x0FE8 sets
      latch 0 to 0xFD or 0xFE; in 0x1000-0x1FFF an address with bit 3 set
      whose bits 4-11 read 0xFD or 0xFE sets latch 1 to that value. */
  function UpdateLatches(m: Mapper9, address: bv16): (r: Mapper9)
    requires address < 0x2000
    ensures address & 0x1000 == 0 ==> r.latch1 == m.latch1
    ensures address & 0x1000 != 0 ==> r.latch0 == m.latch0
    ensures address == 0x0FD8 ==> r.latch0 == 0xFD
    ensures address == 0x0FE8 ==> r.latch0 == 0xFE
    ensures r == m.(latch0 := r.latch0, latch1 := r.latch1)
  {
    if address & 0x1000 == 0 then
      if address == 0x0FD8 then m.(latch0 := 0xFD)
      else if address == 0x0FE8 then m.(latch0 := 0xFE)
      else m
    else
      var middle := (address >> 4) & 0xFF;
      if address & 0x8 != 0 && (middle == 0xFD || middle == 0xFE) then m.(latch1 := middle as bv8)
      else m
  }

  /** Latch updates only ever store 0xFD or 0xFE. */
  lemma UpdateKeepsLatchesValid(m: Mapper9, address: bv16)
    requires address < 0x2000 && LatchesValid(m)
    ensures LatchesValid(UpdateLatches(m, address))
  {
  }

  /** The latch-1 trigger: an upper-table fetch whose middle byte is 0xFD or
      0xFE, with bit 3 set, loads that byte. */
  lemma Latch1Trigger(m: Mapper9, address: bv16)
    requires 0x1000 <= address < 0x2000 && address & 0x8 != 0
    requires (address >> 4) & 0xFF == 0xFD || (address >> 4) & 0xFF == 0xFE
    ensures UpdateLatches(m, address).latch1 as bv16 == (address >> 4) & 0xFF
  {
    assert address & 0x1000 != 0;
  }

  /** The 4 KiB CHR register the (updated) latch for the address's pattern
      table selects. */
  function ChrBankFor(m: Mapper9, address: bv16): (r: bv8)
    requires address < 0x2000
    requires address & 0x1000 == 0 ==> LatchValue(m.latch0)
    requires address & 0x1000 != 0 ==> LatchValue(m.latch1)
    ensures address & 0x1000 == 0 ==> r == if m.latch0 == 0xFD then m.chrFd0000Bank else m.chrFe0000Bank
    ensures address & 0x1000 != 0 ==> r == if m.latch1 == 0xFD then m.chrFd1000Bank else m.chrFe1000Bank
  {
    if address & 0x1000 == 0 then
      (if m.latch0 == 0xFD then m.chrFd0000Bank else m.chrFe0000Bank)
    else
      (if m.latch1 == 0xFD then m.chrFd1000Bank else m.chrFe1000Bank)
  }

  /** A PPU read needs a CHR count to divide by, and the latch it consults
      (after the update) must hold one of its two values. */
  predicate PpuReadDefined(m: Mapper9, address: bv16)
  {
    address < 0x2000 && m.chrCount > 0 &&
    var m' := UpdateLatches(m, address);
    (address & 0x1000 == 0 ==> LatchValue(m'.latch0)) &&
    (address & 0x1000 != 0 ==> LatchValue(m'.latch1))
  }

  /** A PPU read first updates the latches, then reads the bank the latch
      selects, reduced modulo the count, at the offset inside its 4 KiB
      pattern table. The returned state carries the new latches. */
  function MapPpuRead(m: Mapper9, address: bv16): (r: (MappingResult, Mapper9))
    requires PpuReadDefined(m, address)
    ensures r.1 == UpdateLatches(m, address)
    ensures r.0.Allowed? && r.0.offset < m.chrCount as int * 0x1000
    ensures r.0.offset / 0x1000 == ChrBankFor(r.1, address) as int % m.chrCount as int
    ensures r.0.offset % 0x1000 == address as int % 0x1000
  {
    var m' := UpdateLatches(m, address);
    (Allowed(WrappedBank(ChrBankFor(m', address) as nat, m.chrCount as nat, 0x1000, Low12(address))), m')
  }

  /** A fetch of tile 0xFD's last row in the lower table switches that table
      to the 0xFD bank for this very read. */
  lemma FdTileSwitchesLowerTable(m: Mapper9)
    requires m.chrCount > 0
    ensures MapPpuRead(m, 0x0FD8).0.offset / 0x1000 == m.chrFd0000Bank as int % m.chrCount as int
  {
  }

  /** The register windows above 0x8000: PRG bank (4 bits) at 0xA000, the
      four CHR banks (5 bits) at 0xB000-0xEFFF, mirroring at 0xF000. */
  function WriteRegister(m: Mapper9, address: bv16, data: bv8): (r: Mapper9)
    requires address >= 0x8000
    ensures address < 0xA000 ==> r == m
    ensures 0xA000 <= address < 0xB000 ==> r == m.(prgBank := data & 0x0F)
    ensures 0xB000 <= address < 0xC000 ==> r == m.(chrFd0000Bank := data & 0x1F)
    ensures 0xC000 <= address < 0xD000 ==> r == m.(chrFe0000Bank := data & 0x1F)
    ensures 0xD000 <= address < 0xE000 ==> r == m.(chrFd1000Bank := data & 0x1F)
    ensures 0xE000 <= address < 0xF000 ==> r == m.(chrFe1000Bank := data & 0x1F)
    ensures 0xF000 <= address ==> r == m.(mirroringVertical := data & 1 == 0)
  {
    if address < 0xA000 then m
    else if address < 0xB000 then m.(prgBank := data & 0x0F)
    else if address < 0xC000 then m.(chrFd0000Bank := data & 0x1F)
    else if address < 0xD000 then m.(chrFe0000Bank := data & 0x1F)
    else if address < 0xE000 then m.(chrFd1000Bank := data & 0x1F)
    else if address < 0xF000 then m.(chrFe1000Bank := data & 0x1F)
    else m.(mirroringVertical := data & 1 == 0)
  }

  /** CPU writes to 0x6000-0x7FFF reach the PRG RAM; writes above 0x8000
      update a register and are refused as memory writes. PPU writes reach
      CHR RAM only. Writes never touch the latches. */
  function MapWrite(m: Mapper9, address: bv16, data: bv8, device: Device): (r: (MappingResult, Mapper9))
    requires device == Cpu ==> address >= 0x6000
    ensures r.1.latch0 == m.latch0 && r.1.latch1 == m.latch1
    ensures r.1.prgCount == m.prgCount && r.1.chrCount == m.chrCount && r.1.isChrRam == m.isChrRam
    ensures device == Cpu && address < 0x8000 ==> r.1 == m && r.0.Allowed? && r.0.offset + 0x6000 == address as int
    ensures device == Cpu && address >= 0x8000 ==> r.0 == Denied && r.1 == WriteRegister(m, address, data)
    ensures device == Ppu ==> r.1 == m && (r.0.Allowed? <==> m.isChrRam && address < 0x2000)
    ensures device == Ppu && r.0.Allowed? ==> r.0 == Allowed(address as nat)
  {
    match device
    case Cpu =>
      if address < 0x8000 then (Allowed(RamOffset(address)), m)
      else (Denied, WriteRegister(m, address, data))
    case Ppu => (if m.isChrRam && address < 0x2000 then Allowed(address as nat) else Denied, m)
  }

  /** Every operation keeps both latches at 0xFD or 0xFE, so a mapper built
      by `New` never reaches the emulator's unreachable latch case. */
  lemma OperationsKeepLatchesValid(m: Mapper9, address: bv16, data: bv8, device: Device)
    requires LatchesValid(m)
    ensures device == Cpu ==> address < 0x6000 || LatchesValid(MapWrite(m, address, data, device).1)
    ensures device == Ppu ==> LatchesValid(MapWrite(m, address, data, device).1)
    ensures address < 0x2000 && m.chrCount > 0 ==>
              PpuReadDefined(m, address) && LatchesValid(MapPpuRead(m, address).1)
  {
    if address < 0x2000 {
      UpdateKeepsLatchesValid(m, address);
    }
  }

  function IsHardwiredMirrored(m: Mapper9): (r: bool)
    ensures !r
  {
    false
  }

  function NametableMirroring(m: Mapper9): (r: MirroringMode)
    ensures r == Vertical <==> m.mirroringVertical
    ensures r == Horizontal <==> !m.mirroringVertical
  {
    if m.mirroringVertical then Vertical else Horizontal
  }
}
