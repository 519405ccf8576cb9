/** Mapper 2 (UxROM): a switchable 16 KiB PRG bank at 0x8000 and the last
    bank fixed at 0xC000, selected by any CPU write to 0x8000-0xFFFF. */
module Mapper2 {
  import opened Common
  import opened Banking
  import Arith

  datatype Mapper2 = Mapper2(prgTopBank: bv8, prgCount: bv8, isChrRam: bool)

  function New(): (r: Mapper2)
    ensures r.prgTopBank == 0 && r.prgCount == 0 && !r.isChrRam
  {
    Mapper2(0, 0, false)
  }

  /** `prgCount` is in 16 KiB units. */
  function Init(m: Mapper2, prgCount: bv8, isChrRam: bool, chrCount: bv8, sramCount: bv8): (r: Mapper2)
    ensures r.prgCount == prgCount && r.isChrRam == isChrRam && r.prgTopBank == m.prgTopBank
  {
    m.(prgCount := prgCount, isChrRam := isChrRam)
  }

  /** The emulator reaches `unreachable!` for CPU addresses below 0x4020 and
      PPU addresses from 0x2000, and divides by the bank count for PRG. */
  predicate ReadDefined(m: Mapper2, address: bv16, device: Device)
  {
    match device
    case Cpu => address >= 0x4020 && (address >= 0x8000 ==> m.prgCount > 0)
    case Ppu => address < 0x2000
  }

  /** The 16 KiB bank before reduction: the register's low nibble for
      0x8000-0xBFFF, the last bank for 0xC000-0xFFFF. */
  function SelectedBank(m: Mapper2, address: bv16): (r: nat)
    requires address >= 0x8000 && m.prgCount > 0
    ensures address < 0xC000 ==> r == (m.prgTopBank & 0x0F) as nat
    ensures address >= 0xC000 ==> r + 1 == m.prgCount as nat
  {
    if address < 0xC000 then (m.prgTopBank & 0x0F) as nat else (m.prgCount - 1) as nat
  }

  /** CPU reads of 0x8000-0xFFFF land in the PRG data, in the selected
      bank reduced modulo the count, at the address's offset inside its
      16 KiB window; 0xC000-0xFFFF always reads the last bank. Lower
      cartridge addresses are refused. PPU reads map to themselves. */
  function MapRead(m: Mapper2, address: bv16, device: Device): (r: MappingResult)
    requires ReadDefined(m, address, device)
    ensures device == Cpu ==> (r.Allowed? <==> address >= 0x8000)
    ensures device == Cpu && r.Allowed? ==> r == Allowed(PrgOffset(m, address))
    ensures device == Ppu ==> r == Allowed(address as nat)
  {
    match device
    case Cpu =>
      if address < 0x8000 then Denied
      else Allowed(PrgOffset(m, address))
    case Ppu => Allowed(address as nat)
  }

  /** The offset of a CPU address of 0x8000-0xFFFF in the PRG data: the
      selected bank reduced modulo the count, at the address's offset inside
      its 16 KiB window. */
  function PrgOffset(m: Mapper2, address: bv16): (r: nat)
    requires address >= 0x8000 && m.prgCount > 0
    ensures r < m.prgCount as int * 0x4000
    ensures r % 0x4000 == address as int % 0x4000
    ensures r / 0x4000 == SelectedBank(m, address) % m.prgCount as int
  {
    WrappedBank(SelectedBank(m, address), m.prgCount as nat, 0x4000, Low14(address))
  }

  /** 0xC000-0xFFFF always reads the last bank. */
  lemma UpperWindowIsLastBank(m: Mapper2, address: bv16)
    requires address >= 0xC000 && m.prgCount > 0
    ensures MapRead(m, address, Cpu).Allowed?
    ensures MapRead(m, address, Cpu).offset / 0x4000 == m.prgCount as int - 1
  {
    var b := SelectedBank(m, address);
    Arith.ModUnique(b, b + 1, 0, b);
  }

  /** A CPU write to 0x8000-0xFFFF stores the whole byte as the bank
      register; every CPU write is refused as a memory write. PPU writes
      reach CHR RAM only. */
  function MapWrite(m: Mapper2, address: bv16, data: bv8, device: Device): (r: (MappingResult, Mapper2))
    requires device == Cpu ==> address >= 0x4020
    ensures device == Cpu ==> r.0 == Denied
    ensures device == Cpu && address >= 0x8000 ==> r.1 == m.(prgTopBank := data)
    ensures device == Cpu && address < 0x8000 ==> r.1 == m
    ensures device == Ppu ==> r.1 == m && (r.0.Allowed? <==> m.isChrRam && address < 0x2000)
    ensures device == Ppu && r.0.Allowed? ==> r.0 == Allowed(address as nat)
  {
    match device
    case Cpu => (Denied, if address >= 0x8000 then m.(prgTopBank := data) else m)
    case Ppu => (if m.isChrRam && address < 0x2000 then Allowed(address as nat) else Denied, m)
  }

  /** After a bank write, 0x8000-0xBFFF reads from the written bank
      (low nibble, modulo the count) and 0xC000-0xFFFF is unaffected. */
  lemma WriteSelectsBank(m: Mapper2, w: bv16, data: bv8, address: bv16)
    requires w >= 0x8000 && address >= 0x8000 && m.prgCount > 0
    ensures var m' := MapWrite(m, w, data, Cpu).1;
            var r := MapRead(m', address, Cpu);
            r.Allowed? &&
            (address < 0xC000 ==> r.offset / 0x4000 == (data & 0x0F) as int % m.prgCount as int) &&
            (address >= 0xC000 ==> r == MapRead(m, address, Cpu))
  {
  }

  function SaveState(m: Mapper2): (r: seq<bv8>)
    ensures |r| == 3 && r[0] == m.prgTopBank && r[1] == m.prgCount && (r[2] != 0 <==> m.isChrRam)
  {
    [m.prgTopBank, m.prgCount, if m.isChrRam then 1 else 0]
  }

  /** Loading indexes three bytes; a shorter buffer panics in the emulator. */
  function LoadState(m: Mapper2, data: seq<bv8>): (r: Mapper2)
    requires |data| >= 3
    ensures r.prgTopBank == data[0] && r.prgCount == data[1] && (r.isChrRam <==> data[2] != 0)
  {
    Mapper2(data[0], data[1], data[2] != 0)
  }

  lemma SaveLoad(m: Mapper2, other: Mapper2)
    ensures LoadState(other, SaveState(m)) == m
  {
  }
}
