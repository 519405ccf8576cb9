/** What every mapper answers for a bus access, and the bank arithmetic the
    mappers share: an offset is a bank number times the bank size plus the
    address bits below the bank size. */
module Banking {
  import opened Arith

  /** A mapper either translates an access into an offset in the cartridge
      array it serves (PRG for the CPU, CHR for the PPU) or refuses it. */
  datatype MappingResult = Allowed(offset: nat) | Denied

  /** The address bits kept by the masks the mappers use: the offset inside
      the aligned window of that size that holds the address. */
  function Low15(a: bv16): (r: nat)
    ensures r < 0x8000 && r + ((a >> 15) as int) * 0x8000 == a as int
    ensures r == a as int % 0x8000
  {
    var r := (a & 0x7FFF) as nat;
    ModUnique(a as int, 0x8000, (a >> 15) as int, r);
    r
  }

  function Low14(a: bv16): (r: nat)
    ensures r < 0x4000 && r + ((a >> 14) as int) * 0x4000 == a as int
    ensures r == a as int % 0x4000
  {
    var r := (a & 0x3FFF) as nat;
    ModUnique(a as int, 0x4000, (a >> 14) as int, r);
    r
  }

  function Low13(a: bv16): (r: nat)
    ensures r < 0x2000 && r + ((a >> 13) as int) * 0x2000 == a as int
    ensures r == a as int % 0x2000
  {
    var r := (a & 0x1FFF) as nat;
    ModUnique(a as int, 0x2000, (a >> 13) as int, r);
    r
  }

  function Low12(a: bv16): (r: nat)
    ensures r < 0x1000 && r + ((a >> 12) as int) * 0x1000 == a as int
    ensures r == a as int % 0x1000
  {
    var r := (a & 0x0FFF) as nat;
    ModUnique(a as int, 0x1000, (a >> 12) as int, r);
    r
  }

  function Low11(a: bv16): (r: nat)
    ensures r < 0x800 && r + ((a >> 11) as int) * 0x800 == a as int
    ensures r == a as int % 0x800
  {
    var r := (a & 0x07FF) as nat;
    ModUnique(a as int, 0x800, (a >> 11) as int, r);
    r
  }

  function Low10(a: bv16): (r: nat)
    ensures r < 0x400 && r + ((a >> 10) as int) * 0x400 == a as int
    ensures r == a as int % 0x400
  {
    var r := (a & 0x03FF) as nat;
    ModUnique(a as int, 0x400, (a >> 10) as int, r);
    r
  }

  /** The offset of a CPU address inside the 32 KiB PRG window at 0x8000. */
  function PrgWindow(a: bv16): (r: nat)
    requires a >= 0x8000
    ensures r < 0x8000 && r + 0x8000 == a as int
  {
    (a & 0x7FFF) as nat
  }

  /** A pattern-table address below 0x2000 is its own offset. */
  function PatternOffset(a: bv16): (r: nat)
    requires a < 0x2000
    ensures r < 0x2000 && r == a as int
  {
    a as nat
  }

  /** Offset `low` inside bank `bank mod count`: it lies inside the
      `count * size` bytes of the banks, and division and remainder by the
      bank size give back the bank and the offset inside it. */
  function WrappedBank(bank: nat, count: nat, size: nat, low: nat): (r: nat)
    requires count > 0 && low < size
    ensures r < count * size
    ensures r / size == bank % count && r % size == low
  {
    BankDecompose(bank % count, count, size, low);
    (bank % count) * size + low
  }

  /** The 32 KiB PRG bank `bank mod count` at a CPU address of 0x8000-0xFFFF
      (the emulator's byte remainder equals the remainder of the
      unsigned values). */
  function PrgBank32K(bank: bv8, count: bv8, address: bv16): (r: nat)
    requires count > 0 && address >= 0x8000
    ensures r < count as int * 0x8000
    ensures r / 0x8000 == bank as int % count as int
    ensures r % 0x8000 + 0x8000 == address as int
  {
    var low := PrgWindow(address);
    WrappedBank(bank as nat, count as nat, 0x8000, low)
  }

  /** The 8 KiB CHR bank `bank mod count` at a pattern address. */
  function ChrBank8K(bank: bv8, count: bv8, address: bv16): (r: nat)
    requires count > 0 && address < 0x2000
    ensures r < count as int * 0x2000
    ensures r / 0x2000 == bank as int % count as int
    ensures r % 0x2000 == address as int
  {
    var low := PatternOffset(address);
    WrappedBank(bank as nat, count as nat, 0x2000, low)
  }
}
