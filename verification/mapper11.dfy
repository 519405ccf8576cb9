/** Mapper 11 (Color Dreams): a 32 KiB PRG bank and an 8 KiB CHR bank, both
    chosen by one CPU register write. */
module Mapper11 {
  import opened Common
  import opened Banking

  datatype Mapper11 = Mapper11(prgBank: bv8, prgCount: bv8, chrBank: bv8, chrCount: bv8, isChrRam: bool)

  /** A fresh mapper assumes CHR RAM until `Init` says otherwise. */
  function New(): (r: Mapper11)
    ensures r.prgBank == 0 && r.prgCount == 0 && r.chrBank == 0 && r.chrCount == 0 && r.isChrRam
  {
    Mapper11(0, 0, 0, 0, true)
  }

  /** The emulator asserts an even, positive count of 16 KiB PRG banks and
      keeps it in 32 KiB units; the CHR count is in 8 KiB units. */
  function Init(m: Mapper11, prgCount: bv8, isChrRam: bool, chrCount: bv8, sramCount: bv8): (r: Mapper11)
    requires prgCount % 2 == 0 && prgCount > 0
    ensures r.prgCount as int * 2 == prgCount as int && r.prgCount > 0
    ensures r.chrCount == chrCount && r.isChrRam == isChrRam
    ensures r.prgBank == m.prgBank && r.chrBank == m.chrBank
  {
    m.(prgCount := prgCount / 2, chrCount := chrCount, isChrRam := isChrRam)
  }

  /** CPU addresses below 0x4020 and PPU addresses from 0x2000 are
      unreachable in the emulator; PRG and CHR reads divide by the counts. */
  predicate ReadDefined(m: Mapper11, address: bv16, device: Device)
  {
    match device
    case Cpu => address >= 0x4020 && (address >= 0x8000 ==> m.prgCount > 0)
    case Ppu => address < 0x2000 && m.chrCount > 0
  }

  /** The CHR translation shared by reads and CHR RAM writes. */
  function MapPpu(m: Mapper11, address: bv16): (r: MappingResult)
    requires m.chrCount > 0 && address < 0x2000
    ensures r.Allowed? && r.offset < m.chrCount as int * 0x2000
    ensures r.offset / 0x2000 == m.chrBank as int % m.chrCount as int
    ensures r.offset % 0x2000 == address as int
  {
    Allowed(ChrBank8K(m.chrBank, m.chrCount, address))
  }

  /** 0x8000-0xFFFF reads the 32 KiB bank modulo the count; 0x4020-0x7FFF
      is refused; PPU reads go through the CHR bank. */
  function MapRead(m: Mapper11, address: bv16, device: Device): (r: MappingResult)
    requires ReadDefined(m, address, device)
    ensures device == Cpu ==> (r.Allowed? <==> address >= 0x8000)
    ensures device == Cpu && r.Allowed? ==>
              r.offset < m.prgCount as int * 0x8000 &&
              r.offset / 0x8000 == m.prgBank as int % m.prgCount as int &&
              r.offset % 0x8000 + 0x8000 == address as int
    ensures device == Ppu ==> r == MapPpu(m, address)
  {
    match device
    case Cpu => if address >= 0x8000 then Allowed(PrgBank32K(m.prgBank, m.prgCount, address)) else Denied
    case Ppu => MapPpu(m, address)
  }

  /** The emulator reaches `unreachable!` for CPU writes below 0x4020 and
      divides by the CHR count for CHR RAM writes. */
  predicate WriteDefined(m: Mapper11, address: bv16, device: Device)
  {
    match device
    case Cpu => address >= 0x4020
    case Ppu => m.isChrRam && address < 0x2000 ==> m.chrCount > 0
  }

  /** A CPU write to 0x8000-0xFFFF takes the PRG bank from bits 0-1 and the
      CHR bank from bits 4-7, and is refused as a memory write. PPU writes
      reach CHR RAM through the CHR bank. */
  function MapWrite(m: Mapper11, address: bv16, data: bv8, device: Device): (r: (MappingResult, Mapper11))
    requires WriteDefined(m, address, device)
    ensures device == Cpu ==> r.0 == Denied
    ensures device == Cpu && address >= 0x8000 ==>
              r.1 == m.(prgBank := data & 0x03, chrBank := (data >> 4) & 0x0F)
    ensures device == Cpu && address < 0x8000 ==> r.1 == m
    ensures device == Ppu ==> r.1 == m && (r.0.Allowed? <==> m.isChrRam && address < 0x2000)
    ensures device == Ppu && r.0.Allowed? ==> r.0 == MapPpu(m, address)
  {
    match device
    case Cpu =>
      (Denied, if address >= 0x8000 then m.(prgBank := data & 0x03, chrBank := (data >> 4) & 0x0F) else m)
    case Ppu => (if m.isChrRam && address < 0x2000 then MapPpu(m, address) else Denied, m)
  }

  /** After a register write, PRG and CHR reads use the banks the written
      byte names. */
  lemma WriteSelectsBanks(m: Mapper11, w: bv16, data: bv8, cpuAddress: bv16, ppuAddress: bv16)
    requires w >= 0x8000 && cpuAddress >= 0x8000 && ppuAddress < 0x2000
    requires m.prgCount > 0 && m.chrCount > 0
    ensures var m' := MapWrite(m, w, data, Cpu).1;
            MapRead(m', cpuAddress, Cpu).offset / 0x8000 == (data & 0x03) as int % m.prgCount as int &&
            MapRead(m', ppuAddress, Ppu).offset / 0x2000 == ((data >> 4) & 0x0F) as int % m.chrCount as int
  {
  }

  function SaveState(m: Mapper11): (r: seq<bv8>)
    ensures |r| == 5 && r[0] == m.prgBank && r[1] == m.prgCount
    ensures r[2] == m.chrBank && r[3] == m.chrCount && (r[4] != 0 <==> m.isChrRam)
  {
    [m.prgBank, m.prgCount, m.chrBank, m.chrCount, if m.isChrRam then 1 else 0]
  }

  /** Loading indexes five bytes; a shorter buffer panics in the emulator. */
  function LoadState(m: Mapper11, data: seq<bv8>): (r: Mapper11)
    requires |data| >= 5
    ensures r.prgBank == data[0] && r.prgCount == data[1]
    ensures r.chrBank == data[2] && r.chrCount == data[3] && (r.isChrRam <==> data[4] != 0)
  {
    Mapper11(data[0], data[1], data[2], data[3], data[4] != 0)
  }

  lemma SaveLoad(m: Mapper11, other: Mapper11)
    ensures LoadState(other, SaveState(m)) == m
  {
  }
}
