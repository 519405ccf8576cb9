/** Mapper 3 (CNROM): fixed 16 or 32 KiB PRG ROM and an 8 KiB CHR bank
    selected by CPU writes. Its mirroring is fixed by the header. */
module Mapper3 {
  import opened Common
  import opened Banking
  import Arith

  datatype Mapper3 = Mapper3(has32KbPrgRom: bool, chrBank: bv8, chrCount: bv8)

  function New(): (r: Mapper3)
    ensures !r.has32KbPrgRom && r.chrBank == 0 && r.chrCount == 0
  {
    Mapper3(false, 0, 0)
  }

  /** Only one or two 16 KiB PRG banks are accepted (an assertion in the
      emulator); `chrCount` is in 8 KiB units. */
  function Init(m: Mapper3, prgCount: bv8, chrCount: bv8): (r: Mapper3)
    requires prgCount == 1 || prgCount == 2
    ensures r.has32KbPrgRom <==> prgCount == 2
    ensures r.chrCount == chrCount && r.chrBank == m.chrBank
  {
    m.(has32KbPrgRom := prgCount == 2, chrCount := chrCount)
  }

  /** Clearing bit 14 folds 0xC000-0xFFFF onto 0x8000-0xBFFF. */
  function Offset16K(address: bv16): (r: nat)
    requires address >= 0x8000
    ensures r < 0x4000 && r + (if address < 0xC000 then 0x8000 else 0xC000) == address as int
  {
    (address & 0xBFFF & 0x7FFF) as nat
  }

  /** The CPU offset inside the PRG data: the whole 32 KiB window, or the
      16 KiB bank seen twice. Addresses below 0x8000 are unreachable in
      the emulator. */
  function MapCpuRead(m: Mapper3, address: bv16): (r: nat)
    requires address >= 0x8000
    ensures r < (if m.has32KbPrgRom then 0x8000 else 0x4000)
    ensures m.has32KbPrgRom ==> r + 0x8000 == address as int
    ensures !m.has32KbPrgRom ==> r == address as int % 0x4000
  {
    if m.has32KbPrgRom then PrgWindow(address) else Offset16K(address)
  }

  /** With one 16 KiB bank, 0x8000 + i and 0xC000 + i read the same byte. */
  lemma HalfSizeMirrors(m: Mapper3, i: bv16)
    requires !m.has32KbPrgRom && i < 0x4000
    ensures MapCpuRead(m, 0x8000 + i) == MapCpuRead(m, 0xC000 + i) == i as nat
  {
  }

  /** Bank `chrBank` of 8 KiB at the pattern address. */
  function ChrOffset(chrBank: bv8, address: bv16): (r: nat)
    requires address < 0x2000
    ensures r / 0x2000 == chrBank as int && r % 0x2000 == address as int
  {
    var bank: nat := chrBank as nat;
    var low := PatternOffset(address);
    Arith.BankDecompose(bank, bank + 1, 0x2000, low);
    bank * 0x2000 + low
  }

  /** The PPU offset: the selected 8 KiB bank, at the pattern address; the
      emulator asserts that the bank does not exceed the count. */
  function MapPpuRead(m: Mapper3, address: bv16): (r: nat)
    requires address < 0x2000 && m.chrBank <= m.chrCount
    ensures r / 0x2000 == m.chrBank as int && r % 0x2000 == address as int
  {
    ChrOffset(m.chrBank, address)
  }

  /** A CPU write at or above 0x8000 selects the CHR bank: only the low two
      bits when there are at most four banks, else the whole byte. Other
      writes change nothing. */
  function MapWrite(m: Mapper3, address: bv16, data: bv8, device: Device): (r: Mapper3)
    ensures device == Ppu || address < 0x8000 ==> r == m
    ensures device == Cpu && address >= 0x8000 ==>
              r == m.(chrBank := if m.chrCount <= 4 then data & 0x03 else data)
  {
    if device == Cpu && address >= 0x8000 then
      m.(chrBank := if m.chrCount <= 4 then data & 0x03 else data)
    else m
  }

  /** With at most four banks, a bank write always leaves a bank below
      four, and a following PPU read stays within the first 32 KiB of CHR. */
  lemma SmallChrWriteStaysInFourBanks(m: Mapper3, address: bv16, data: bv8, p: bv16)
    requires m.chrCount <= 4 && address >= 0x8000 && p < 0x2000
    ensures var m' := MapWrite(m, address, data, Cpu);
            m'.chrBank < 4 &&
            (m'.chrBank <= m'.chrCount ==> MapPpuRead(m', p) < 4 * 0x2000)
  {
    var m' := MapWrite(m, address, data, Cpu);
    if m'.chrBank <= m'.chrCount {
      var r := MapPpuRead(m', p);
      assert r == (r / 0x2000) * 0x2000 + r % 0x2000;
    }
  }

  function IsHardwiredMirrored(m: Mapper3): (r: bool)
    ensures r
  {
    true
  }

  function IsIrqRequested(m: Mapper3): (r: bool)
    ensures !r
  {
    false
  }
}
