/** Mapper 0 (NROM): 16 or 32 KiB of fixed PRG ROM at 0x8000 and 8 KiB of
    CHR ROM or RAM at PPU 0x0000. It has no registers, so CPU writes are
    refused and change nothing. */
module Mapper0 {
  import opened Common
  import opened Banking

  datatype Mapper0 = Mapper0(has32KbPrgRom: bool, isChrRam: bool)

  function New(): (r: Mapper0)
    ensures !r.has32KbPrgRom && !r.isChrRam
  {
    Mapper0(false, false)
  }

  /** Only one or two 16 KiB PRG banks are accepted (an assertion in the
      emulator); two banks select the 32 KiB layout. */
  function Init(m: Mapper0, prgCount: bv8, isChrRam: bool, chrCount: bv8, sramCount: bv8): (r: Mapper0)
    requires prgCount == 1 || prgCount == 2
    ensures r.has32KbPrgRom <==> prgCount == 2
    ensures r.isChrRam == isChrRam
  {
    Mapper0(prgCount == 2, isChrRam)
  }

  /** The addresses the cartridge hands to a mapper; any other one is
      unreachable in the emulator. */
  predicate ReadAddress(address: bv16, device: Device)
  {
    match device
    case Cpu => address >= 0x4020
    case Ppu => address < 0x2000
  }

  /** The PRG size in bytes the mapper addresses. */
  function PrgSize(m: Mapper0): (r: nat)
    ensures r == 0x4000 || r == 0x8000
  {
    if m.has32KbPrgRom then 0x8000 else 0x4000
  }

  /** Clearing bit 14 folds 0xC000-0xFFFF onto 0x8000-0xBFFF. */
  function Offset16K(address: bv16): (r: nat)
    requires address >= 0x8000
    ensures r < 0x4000 && r + (if address < 0xC000 then 0x8000 else 0xC000) == address as int
  {
    (address & 0xBFFF & 0x7FFF) as nat
  }

  /** The offset of a CPU read at 0x8000-0xFFFF inside the PRG array:
      the address less 0x8000, mirrored every 16 KiB when only one bank
      exists. */
  function PrgOffset(m: Mapper0, address: bv16): (r: nat)
    requires address >= 0x8000
    ensures r < PrgSize(m)
    ensures r + (if m.has32KbPrgRom || address < 0xC000 then 0x8000 else 0xC000) == address as int
  {
    if m.has32KbPrgRom then PrgWindow(address) else Offset16K(address)
  }

  /** CPU reads below 0x8000 are refused, reads at and above it land at
      `PrgOffset`. PPU reads map every pattern address to itself. */
  function MapRead(m: Mapper0, address: bv16, device: Device): (r: MappingResult)
    requires ReadAddress(address, device)
    ensures device == Cpu ==> (r.Allowed? <==> address >= 0x8000)
    ensures device == Cpu && r.Allowed? ==> r.offset == PrgOffset(m, address)
    ensures device == Ppu ==> r == Allowed(address as nat)
  {
    match device
    case Cpu =>
      if 0x6000 <= address < 0x8000 then Denied
      else if address >= 0x8000 then Allowed(PrgOffset(m, address))
      else Denied
    case Ppu => Allowed(address as nat)
  }

  /** Only the PPU may write, and only to CHR RAM. */
  function MapWrite(m: Mapper0, address: bv16, data: bv8, device: Device): (r: MappingResult)
    ensures device == Cpu ==> r == Denied
    ensures device == Ppu ==> (r.Allowed? <==> m.isChrRam && address < 0x2000)
    ensures r.Allowed? ==> r == Allowed(address as nat)
  {
    match device
    case Cpu => Denied
    case Ppu => if m.isChrRam && address < 0x2000 then Allowed(address as nat) else Denied
  }

  /** With one 16 KiB bank, 0x8000 + i and 0xC000 + i read the same byte. */
  lemma HalfSizeMirrors(m: Mapper0, i: bv16)
    requires !m.has32KbPrgRom && i < 0x4000
    ensures MapRead(m, 0x8000 + i, Cpu) == MapRead(m, 0xC000 + i, Cpu) == Allowed(i as nat)
  {
  }

  function Bit(b: bool): (r: bv8)
    ensures r == 0 || r == 1
    ensures r == 1 <==> b
  {
    if b then 1 else 0
  }

  /** The state is one byte: bit 0 the 32 KiB flag, bit 1 the CHR RAM flag. */
  function SaveState(m: Mapper0): (r: seq<bv8>)
    ensures |r| == 1 && r[0] < 4
    ensures (r[0] & 1 != 0) == m.has32KbPrgRom && (r[0] & 2 != 0) == m.isChrRam
  {
    [(Bit(m.isChrRam) << 1) | Bit(m.has32KbPrgRom)]
  }

  /** Loading reads the first byte; an empty buffer is an indexing panic in
      the emulator. */
  function LoadState(m: Mapper0, data: seq<bv8>): (r: Mapper0)
    requires |data| >= 1
    ensures r.isChrRam <==> data[0] & 2 != 0
    ensures r.has32KbPrgRom <==> data[0] & 1 != 0
  {
    Mapper0(data[0] & 1 != 0, data[0] & 0x2 != 0)
  }

  lemma SaveLoad(m: Mapper0, other: Mapper0)
    ensures LoadState(other, SaveState(m)) == m
  {
  }
}
