/** Mapper 7 (AxROM): one switchable 32 KiB PRG bank and one-screen
    mirroring whose nametable bank is chosen by the same register write. */
module Mapper7 {
  import opened Common
  import opened Banking

  datatype Mapper7 = Mapper7(prgBank: bv8, prgCount: bv8, isMirroringScreenHighBank: bool, isChrRam: bool)

  function New(): (r: Mapper7)
    ensures r.prgBank == 0 && r.prgCount == 0 && !r.isMirroringScreenHighBank && !r.isChrRam
  {
    Mapper7(0, 0, false, false)
  }

  /** The header counts 16 KiB banks; the emulator asserts the count is even
      and positive and keeps it in 32 KiB units. */
  function Init(m: Mapper7, prgCount: bv8, isChrRam: bool, chrCount: bv8, sramCount: bv8): (r: Mapper7)
    requires prgCount % 2 == 0 && prgCount > 0
    ensures r.prgCount as int * 2 == prgCount as int && r.prgCount > 0
    ensures r.isChrRam == isChrRam
    ensures r.prgBank == m.prgBank && r.isMirroringScreenHighBank == m.isMirroringScreenHighBank
  {
    m.(prgCount := prgCount / 2, isChrRam := isChrRam)
  }

  /** CPU addresses below 0x4020 and PPU addresses from 0x2000 are
      unreachable in the emulator, and PRG reads divide by the bank count. */
  predicate ReadDefined(m: Mapper7, address: bv16, device: Device)
  {
    match device
    case Cpu => address >= 0x4020 && (address >= 0x8000 ==> m.prgCount > 0)
    case Ppu => address < 0x2000
  }

  /** 0x8000-0xFFFF reads the selected bank modulo the count; 0x4020-0x7FFF
      is refused. PPU reads map to themselves. */
  function MapRead(m: Mapper7, address: bv16, device: Device): (r: MappingResult)
    requires ReadDefined(m, address, device)
    ensures device == Cpu ==> (r.Allowed? <==> address >= 0x8000)
    ensures device == Cpu && r.Allowed? ==>
              r.offset < m.prgCount as int * 0x8000 &&
              r.offset / 0x8000 == m.prgBank as int % m.prgCount as int &&
              r.offset % 0x8000 + 0x8000 == address as int
    ensures device == Ppu ==> r == Allowed(address as nat)
  {
    match device
    case Cpu => if address >= 0x8000 then Allowed(PrgBank32K(m.prgBank, m.prgCount, address)) else Denied
    case Ppu => Allowed(address as nat)
  }

  /** A CPU write to 0x8000-0xFFFF sets the bank to the low nibble and the
      one-screen bank to bit 4; all CPU writes are refused as memory
      writes. PPU writes reach CHR RAM only. */
  function MapWrite(m: Mapper7, address: bv16, data: bv8, device: Device): (r: (MappingResult, Mapper7))
    requires device == Cpu ==> address >= 0x4020
    ensures device == Cpu ==> r.0 == Denied
    ensures device == Cpu && address >= 0x8000 ==>
              r.1.prgBank == data & 0x0F && (r.1.isMirroringScreenHighBank <==> data & 0x10 != 0) &&
              r.1.prgCount == m.prgCount && r.1.isChrRam == m.isChrRam
    ensures device == Cpu && address < 0x8000 ==> r.1 == m
    ensures device == Ppu ==> r.1 == m && (r.0.Allowed? <==> m.isChrRam && address < 0x2000)
    ensures device == Ppu && r.0.Allowed? ==> r.0 == Allowed(address as nat)
  {
    match device
    case Cpu =>
      (Denied, if address >= 0x8000 then m.(prgBank := data & 0x0F, isMirroringScreenHighBank := data & 0x10 != 0) else m)
    case Ppu => (if m.isChrRam && address < 0x2000 then Allowed(address as nat) else Denied, m)
  }

  function IsHardwiredMirrored(m: Mapper7): (r: bool)
    ensures !r
  {
    false
  }

  function NametableMirroring(m: Mapper7): (r: MirroringMode)
    ensures r == SingleScreenHighBank <==> m.isMirroringScreenHighBank
    ensures r == SingleScreenLowBank <==> !m.isMirroringScreenHighBank
  {
    if m.isMirroringScreenHighBank then SingleScreenHighBank else SingleScreenLowBank
  }

  /** One register write decides both the PRG bank that 0x8000-0xFFFF
      reads and the one-screen nametable bank. */
  lemma WriteSelectsBankAndScreen(m: Mapper7, w: bv16, data: bv8, address: bv16)
    requires w >= 0x8000 && address >= 0x8000 && m.prgCount > 0
    ensures var m' := MapWrite(m, w, data, Cpu).1;
            MapRead(m', address, Cpu).offset / 0x8000 == (data & 0x0F) as int % m.prgCount as int &&
            (NametableMirroring(m') == SingleScreenHighBank <==> data & 0x10 != 0)
  {
  }

  function SaveState(m: Mapper7): (r: seq<bv8>)
    ensures |r| == 4 && r[0] == m.prgBank && r[1] == m.prgCount
    ensures (r[2] != 0 <==> m.isMirroringScreenHighBank) && (r[3] != 0 <==> m.isChrRam)
  {
    [m.prgBank, m.prgCount, if m.isMirroringScreenHighBank then 1 else 0, if m.isChrRam then 1 else 0]
  }

  /** Loading indexes four bytes; a shorter buffer panics in the emulator. */
  function LoadState(m: Mapper7, data: seq<bv8>): (r: Mapper7)
    requires |data| >= 4
    ensures r.prgBank == data[0] && r.prgCount == data[1]
    ensures (r.isMirroringScreenHighBank <==> data[2] != 0) && (r.isChrRam <==> data[3] != 0)
  {
    Mapper7(data[0], data[1], data[2] != 0, data[3] != 0)
  }

  lemma SaveLoad(m: Mapper7, other: Mapper7)
    ensures LoadState(other, SaveState(m)) == m
  {
  }
}
