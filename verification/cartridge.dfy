/** The iNES cartridge: decoding of the 16-byte header (legacy iNES and
    NES 2.0 layouts), the choice of mapper, the translation of bus addresses
    through the mapper's bank tables, and the cartridge's face on the CPU and
    PPU buses. */
module Cartridge {
  import opened Common
  import Arith

  datatype CartridgeError =
    | FileError
    | HeaderError
    | TooLargeFile(size: nat)
    | ExtensionError
    | MapperNotImplemented(id: bv16)

  /** The decoded header. ROM sizes count 16 KiB (PRG) and 8 KiB (CHR)
      units; RAM sizes are in bytes. */
  datatype Header = Header(
    prgRomSize: bv16,
    chrRomSize: bv16,
    isChrRam: bool,
    verticalMirroring: bool,
    hasBattery: bool,
    hasTrainer: bool,
    fourScreen: bool,
    mapperId: bv16,
    submapperId: bv8,
    prgWramSize: bv32,
    prgSramSize: bv32,
    chrWramSize: bv32,
    chrSramSize: bv32)

  /** "NES" followed by MS-DOS end-of-file. */
  const Magic: seq<bv8> := [0x4E, 0x45, 0x53, 0x1A]

  function CheckMagic(bytes: seq<bv8>): (r: Result<(), CartridgeError>)
    ensures r.Ok? <==> bytes == Magic
    ensures r.Err? ==> r.error == HeaderError
  {
    if bytes == Magic then Ok(()) else Err(HeaderError)
  }

  /** Bits 2-3 of byte 7 select the NES 2.0 layout when nonzero. */
  predicate IsExtended(h: seq<bv8>)
    requires |h| == 16
  {
    (h[7] >> 2) & 3 != 0
  }

  /** A legacy header with junk in bytes 12-15 comes from an old dumper whose
      byte 7 cannot be trusted. */
  predicate IsArchaic(h: seq<bv8>)
    requires |h| == 16
  {
    h[12] != 0 || h[13] != 0 || h[14] != 0 || h[15] != 0
  }

  /** NES 2.0 RAM size field: 0 means none, otherwise 64 bytes shifted left
      by the field. */
  function RamSize(shift: bv8): (r: bv32)
    requires shift < 16
    ensures r == 0 <==> shift == 0
    ensures shift != 0 ==> 128 <= r <= 0x20_0000
  {
    if shift == 0 then 0 else (64 as bv32) << (shift as bv32)
  }

  lemma RamSizeDoubles(shift: bv8)
    requires 1 <= shift < 15
    ensures RamSize(shift + 1) == 2 * RamSize(shift)
  {
  }

  /** Bits 0-3 of byte 6, as (vertical, battery, trainer, four-screen). */
  function MirrorFlag(h: seq<bv8>): bool requires |h| == 16 { h[6] & 1 != 0 }
  function BatteryFlag(h: seq<bv8>): bool requires |h| == 16 { (h[6] >> 1) & 1 != 0 }
  function TrainerFlag(h: seq<bv8>): bool requires |h| == 16 { (h[6] >> 2) & 1 != 0 }
  function FourScreenFlag(h: seq<bv8>): bool requires |h| == 16 { (h[6] >> 3) & 1 != 0 }
  function MapperLow(h: seq<bv8>): bv16 requires |h| == 16 { ((h[6] >> 4) & 0xF) as bv16 }
  function MapperMiddle(h: seq<bv8>): bv16 requires |h| == 16 { ((h[7] >> 4) & 0xF) as bv16 }

  /** The legacy iNES branch: refused when byte 9 has bits above bit 0 on
      a header with a clean tail; otherwise the 8-bit ROM sizes, CHR RAM
      when byte 5 is zero, no submapper and equal RAM sizes. */
  function DecodeLegacy(h: seq<bv8>): (r: Result<Header, CartridgeError>)
    requires |h| == 16
    ensures r.Ok? <==> IsArchaic(h) || h[9] < 2
    ensures r.Err? ==> r.error == HeaderError
    ensures r.Ok? ==> r.value.prgRomSize == h[4] as bv16 && r.value.chrRomSize == h[5] as bv16
    ensures r.Ok? ==> (r.value.isChrRam <==> h[5] == 0) && r.value.submapperId == 0
    ensures r.Ok? ==> r.value.prgSramSize == r.value.prgWramSize
  {
    if !IsArchaic(h) && h[9] >> 1 != 0 then Err(HeaderError)
    else
      var middle := if IsArchaic(h) then 0 else MapperMiddle(h);
      var units: bv32 := if IsArchaic(h) || h[8] == 0 then 1 else h[8] as bv32;
      Ok(Header(h[4] as bv16, h[5] as bv16, h[5] == 0,
                MirrorFlag(h), BatteryFlag(h), TrainerFlag(h), FourScreenFlag(h),
                (middle << 4) | MapperLow(h), 0, units * 0x2000, units * 0x2000, 0x2000, 0x2000))
  }

  /** The NES 2.0 branch: the ROM sizes keep bytes 4 and 5 as their low
      bytes, the submapper is byte 8's high nibble, and CHR is RAM when byte
      5 is zero. */
  function DecodeExtended(h: seq<bv8>): (r: Header)
    requires |h| == 16
    ensures r.prgRomSize & 0xFF == h[4] as bv16 && r.chrRomSize & 0xFF == h[5] as bv16
    ensures r.submapperId == h[8] >> 4
    ensures r.isChrRam <==> h[5] == 0
  {
    var mapperHigh := (h[8] & 0xF) as bv16;
    Header((((h[9] & 0xF) as bv16) << 8) | h[4] as bv16,
           ((((h[9] >> 4) & 0xF) as bv16) << 8) | h[5] as bv16,
           h[5] == 0,
           MirrorFlag(h), BatteryFlag(h), TrainerFlag(h), FourScreenFlag(h),
           (mapperHigh << 8) | (MapperMiddle(h) << 4) | MapperLow(h),
           (h[8] >> 4) & 0xF,
           RamSize(h[10] & 0xF), RamSize((h[10] >> 4) & 0xF),
           RamSize(h[11] & 0xF), RamSize((h[11] >> 4) & 0xF))
  }

  function FromBytes(h: seq<bv8>): (r: Result<Header, CartridgeError>)
    requires |h| == 16
    ensures r.Err? ==> r.error == HeaderError
  {
    if CheckMagic(h[..4]).Err? then Err(HeaderError)
    else if !IsExtended(h) then DecodeLegacy(h)
    else Ok(DecodeExtended(h))
  }

  /** Only a header starting with the magic bytes decodes. */
  lemma MagicRequired(h: seq<bv8>)
    requires |h| == 16
    ensures FromBytes(h).Ok? ==> h[..4] == Magic
    ensures h[..4] != Magic ==> FromBytes(h) == Err(HeaderError)
  {
  }

  /** Byte 6 bits 0-3 are the vertical-mirroring, battery, trainer and
      four-screen flags; CHR is RAM exactly when byte 5 is zero. */
  lemma FlagBits(h: seq<bv8>)
    requires |h| == 16 && FromBytes(h).Ok?
    ensures var hd := FromBytes(h).value;
      (hd.verticalMirroring <==> h[6] & 0x1 != 0)
      && (hd.hasBattery <==> h[6] & 0x2 != 0)
      && (hd.hasTrainer <==> h[6] & 0x4 != 0)
      && (hd.fourScreen <==> h[6] & 0x8 != 0)
      && (hd.isChrRam <==> h[5] == 0)
  {
  }

  /** Legacy layout: mapper number = high nibble of byte 7 times 16 plus the
      high nibble of byte 6, sizes are the bytes themselves, and PRG RAM is
      byte 8 (at least one) 8 KiB units. */
  lemma LegacyFields(h: seq<bv8>)
    requires |h| == 16 && FromBytes(h).Ok? && !IsExtended(h) && !IsArchaic(h)
    ensures var hd := FromBytes(h).value;
      hd.mapperId as int == (h[7] >> 4) as int * 16 + (h[6] >> 4) as int
      && hd.prgRomSize as int == h[4] as int && hd.chrRomSize as int == h[5] as int
      && hd.prgWramSize as int == (if h[8] == 0 then 1 else h[8] as int) * 0x2000
      && hd.prgSramSize == hd.prgWramSize
  {
  }

  /** Legacy layout: byte 9 may only use its lowest bit. */
  lemma LegacyRejectsByte9(h: seq<bv8>)
    requires |h| == 16 && h[..4] == Magic && !IsExtended(h) && !IsArchaic(h)
    ensures FromBytes(h).Ok? <==> h[9] < 2
  {
  }

  /** Archaic headers keep only byte 6's nibble of the mapper number and one
      8 KiB unit of PRG RAM, whatever byte 7 and byte 8 say. */
  lemma ArchaicIgnoresBytes7And8(h: seq<bv8>)
    requires |h| == 16 && h[..4] == Magic && !IsExtended(h) && IsArchaic(h)
    ensures FromBytes(h).Ok?
    ensures FromBytes(h).value.mapperId as int == (h[6] >> 4) as int
    ensures FromBytes(h).value.prgWramSize == 0x2000
  {
  }

  /** NES 2.0 layout: byte 9 holds the high nibbles of the PRG and CHR
      sizes. */
  lemma ExtendedSizes(h: seq<bv8>)
    requires |h| == 16 && h[..4] == Magic && IsExtended(h)
    ensures FromBytes(h).Ok?
    ensures FromBytes(h).value.prgRomSize == (h[9] & 0xF) as bv16 * 0x100 + h[4] as bv16
    ensures FromBytes(h).value.chrRomSize == (h[9] >> 4) as bv16 * 0x100 + h[5] as bv16
  {
  }

  /** NES 2.0 layout: the low nibble of byte 8 is the top nibble of the
      mapper number and its high nibble the submapper. */
  lemma ExtendedMapper(h: seq<bv8>)
    requires |h| == 16 && h[..4] == Magic && IsExtended(h)
    ensures FromBytes(h).Ok?
    ensures FromBytes(h).value.mapperId
      == (h[8] & 0xF) as bv16 * 0x100 + (h[7] >> 4) as bv16 * 0x10 + (h[6] >> 4) as bv16
    ensures FromBytes(h).value.submapperId == h[8] >> 4
  {
  }

  /** NES 2.0 layout: bytes 10 and 11 give the four RAM sizes, low nibble
      for the volatile and high nibble for the battery-backed RAM. */
  lemma ExtendedRam(h: seq<bv8>)
    requires |h| == 16 && h[..4] == Magic && IsExtended(h)
    ensures FromBytes(h).Ok?
    ensures var hd := FromBytes(h).value;
      hd.prgWramSize == RamSize(h[10] % 16) && hd.prgSramSize == RamSize(h[10] / 16)
      && hd.chrWramSize == RamSize(h[11] % 16) && hd.chrSramSize == RamSize(h[11] / 16)
  {
  }

  /** Headers the legacy layout can describe. */
  predicate LegacyEncodable(hd: Header)
  {
    hd.prgRomSize < 0x100 && hd.chrRomSize < 0x100 && hd.mapperId < 0x100
    && (hd.isChrRam <==> hd.chrRomSize == 0) && hd.submapperId == 0
    && hd.prgWramSize % 0x2000 == 0 && 0x2000 <= hd.prgWramSize <= 0xFF * 0x2000
    && hd.prgSramSize == hd.prgWramSize
    && hd.chrWramSize == 0x2000 && hd.chrSramSize == 0x2000
  }

  function Bit(b: bool, mask: bv8): bv8
  {
    if b then mask else 0
  }

  /** Byte 6: the four flags in bits 0-3 and the low mapper nibble above. */
  function Flags6(vertical: bool, battery: bool, trainer: bool, fourScreen: bool, low: bv8): (r: bv8)
    requires low < 16
    ensures (r & 1 != 0 <==> vertical) && ((r >> 1) & 1 != 0 <==> battery)
    ensures ((r >> 2) & 1 != 0 <==> trainer) && ((r >> 3) & 1 != 0 <==> fourScreen)
    ensures (r >> 4) & 0xF == low
  {
    Bit(vertical, 1) | Bit(battery, 2) | Bit(trainer, 4) | Bit(fourScreen, 8) | (low << 4)
  }

  /** Byte 7 of a legacy header: the middle mapper nibble, layout bits 0. */
  function Flags7(middle: bv8): (r: bv8)
    requires middle < 16
    ensures (r >> 2) & 3 == 0 && (r >> 4) & 0xF == middle
  {
    middle << 4
  }

  /** Byte 8 of a legacy header: PRG RAM in 8 KiB units. */
  function RamUnits(size: bv32): (r: bv8)
    requires size % 0x2000 == 0 && 0x2000 <= size <= 0xFF * 0x2000
    ensures r != 0 && r as bv32 * 0x2000 == size
  {
    (size / 0x2000) as bv8
  }

  /** Writes a header in the legacy layout. */
  function Encode(hd: Header): (h: seq<bv8>)
    requires LegacyEncodable(hd)
    ensures |h| == 16 && h[..4] == Magic && !IsExtended(h) && !IsArchaic(h)
  {
    Magic + [hd.prgRomSize as bv8, hd.chrRomSize as bv8,
             Flags6(hd.verticalMirroring, hd.hasBattery, hd.hasTrainer, hd.fourScreen, (hd.mapperId & 0xF) as bv8),
             Flags7((hd.mapperId >> 4) as bv8),
             RamUnits(hd.prgWramSize), 0, 0, 0, 0, 0, 0, 0]
  }

  lemma EncodeSizes(hd: Header)
    requires LegacyEncodable(hd)
    ensures var h := Encode(hd);
      h[4] as bv16 == hd.prgRomSize && h[5] as bv16 == hd.chrRomSize && (h[5] == 0 <==> hd.isChrRam)
  {
  }

  lemma EncodeFlags(hd: Header)
    requires LegacyEncodable(hd)
    ensures var h := Encode(hd);
      MirrorFlag(h) == hd.verticalMirroring && BatteryFlag(h) == hd.hasBattery
      && TrainerFlag(h) == hd.hasTrainer && FourScreenFlag(h) == hd.fourScreen
  {
  }

  lemma EncodeMapper(hd: Header)
    requires LegacyEncodable(hd)
    ensures var h := Encode(hd); (MapperMiddle(h) << 4) | MapperLow(h) == hd.mapperId
  {
    var h := Encode(hd);
    assert MapperLow(h) == hd.mapperId & 0xF;
    assert MapperMiddle(h) == hd.mapperId >> 4;
  }

  lemma EncodeRam(hd: Header)
    requires LegacyEncodable(hd)
    ensures var h := Encode(hd); h[8] != 0 && h[8] as bv32 * 0x2000 == hd.prgWramSize && h[9] >> 1 == 0
  {
  }

  /** Decoding inverts legacy encoding. */
  lemma DecodeEncode(hd: Header)
    requires LegacyEncodable(hd)
    ensures FromBytes(Encode(hd)) == Ok(hd)
  {
    var h := Encode(hd);
    EncodeSizes(hd);
    EncodeFlags(hd);
    EncodeMapper(hd);
    EncodeRam(hd);
    assert FromBytes(h) == DecodeLegacy(h);
  }

  /** The header of a cartridge-less console: magic followed by zeros. */
  const EmptyHeaderBytes: seq<bv8> := Magic + [0, 0, 0, 0, 0, 0, 0, 0, 0, 0, 0, 0]

  lemma EmptyHeaderDecodes()
    ensures |EmptyHeaderBytes| == 16
    ensures FromBytes(EmptyHeaderBytes).Ok?
    ensures var hd := FromBytes(EmptyHeaderBytes).value;
      hd.mapperId == 0 && hd.prgRomSize == 0 && hd.isChrRam && hd.prgWramSize == 0x2000
  {
  }

  function EmptyHeader(): Header
  {
    EmptyHeaderDecodes();
    FromBytes(EmptyHeaderBytes).value
  }

  /** Number of banks of the given size; the results wrap at 16 bits. */
  function ActiveChrBanks(hd: Header, bankSize: nat): (r: nat)
    requires bankSize > 0
    ensures r < 0x10000
  {
    (if !hd.isChrRam then Nat16(hd.chrRomSize) * 0x2000 / bankSize
     else hd.chrWramSize as nat / bankSize) % 0x10000
  }

  function ActivePrgRamBanks(hd: Header, bankSize: nat): (r: nat)
    requires bankSize > 0
    ensures r < 0x10000
  {
    (if hd.hasBattery then hd.prgSramSize as nat else hd.prgWramSize as nat) / bankSize % 0x10000
  }

  function ActivePrgRomBanks(hd: Header, bankSize: nat): (r: nat)
    requires bankSize > 0
    ensures r < 0x10000
  {
    Nat16(hd.prgRomSize) * 0x4000 / bankSize % 0x10000
  }

  function Nat16(x: bv16): (r: nat)
    ensures r < 0x10000
  {
    x as nat
  }

  /** The header's 16 KiB PRG units are 16 KiB banks one for one. */
  lemma PrgRomIn16KiBBanks(hd: Header)
    ensures ActivePrgRomBanks(hd, 0x4000) == Nat16(hd.prgRomSize)
  {
    var p := Nat16(hd.prgRomSize);
    Arith.Units(p, 0x4000, 0x4000, 1);
    Arith.ModUnique(p, 0x10000, 0, p);
    assert ActivePrgRomBanks(hd, 0x4000) == p * 0x4000 / 0x4000 % 0x10000;
  }

  /** Each 16 KiB PRG unit is two 8 KiB banks (the count wraps at 2^16). */
  lemma PrgRomIn8KiBBanks(hd: Header)
    ensures ActivePrgRomBanks(hd, 0x2000) == 2 * Nat16(hd.prgRomSize) % 0x10000
  {
    var p := Nat16(hd.prgRomSize);
    Arith.Units(p, 0x4000, 0x2000, 2);
    assert p * 0x4000 / 0x2000 % 0x10000 == p * 2 % 0x10000;
    assert ActivePrgRomBanks(hd, 0x2000) == p * 0x4000 / 0x2000 % 0x10000;
  }

  /** CHR ROM's 8 KiB units are 8 KiB banks one for one. */
  lemma ChrRomIn8KiBBanks(hd: Header)
    requires !hd.isChrRam
    ensures ActiveChrBanks(hd, 0x2000) == Nat16(hd.chrRomSize)
  {
    var c := Nat16(hd.chrRomSize);
    Arith.Units(c, 0x2000, 0x2000, 1);
    Arith.ModUnique(c, 0x10000, 0, c);
    assert ActiveChrBanks(hd, 0x2000) == c * 0x2000 / 0x2000 % 0x10000;
  }

  /** Each 8 KiB CHR ROM unit is two 4 KiB banks. */
  lemma ChrRomIn4KiBBanks(hd: Header)
    requires !hd.isChrRam
    ensures ActiveChrBanks(hd, 0x1000) == 2 * Nat16(hd.chrRomSize) % 0x10000
  {
    var c := Nat16(hd.chrRomSize);
    Arith.Units(c, 0x2000, 0x1000, 2);
    assert c * 0x2000 / 0x1000 % 0x10000 == c * 2 % 0x10000;
    assert ActiveChrBanks(hd, 0x1000) == c * 0x2000 / 0x1000 % 0x10000;
  }

  /** The 8 KiB of CHR RAM a legacy header grants is two 4 KiB banks. */
  lemma ChrRamIn4KiBBanks(hd: Header)
    requires hd.isChrRam && hd.chrWramSize == 0x2000
    ensures ActiveChrBanks(hd, 0x1000) == 2
  {
    assert hd.chrWramSize as nat == 0x2000;
  }

  datatype MapperKind = Nrom | Mmc1

  /** Only mappers 0 and 1 are wired into this cartridge loader. */
  function GetMapper(hd: Header): (r: Result<MapperKind, CartridgeError>)
    ensures r.Ok? <==> hd.mapperId < 2
    ensures r == Ok(Nrom) <==> hd.mapperId == 0
    ensures r.Err? ==> r.error == MapperNotImplemented(hd.mapperId)
  {
    match hd.mapperId
    case 0 => Ok(Nrom)
    case 1 => Ok(Mmc1)
    case _ => Err(MapperNotImplemented(hd.mapperId))
  }

  datatype BankMappingType = CpuRamBank | CpuRomBank | ChrBank

  /** Where one slot of a window points: a bank number and its permissions. */
  datatype BankMapping = BankMapping(ty: BankMappingType, to: bv8, read: bool, write: bool)

  /** Bank sizes the mapper uses for PRG RAM, PRG ROM and CHR. */
  datatype BankSizes = BankSizes(cpuRam: nat, cpuRom: nat, ppu: nat)

  datatype Cartridge = Cartridge(
    header: Header,
    prgData: seq<bv8>,
    chrData: seq<bv8>,
    prgRam: seq<bv8>,
    cpuRamMapping: seq<BankMapping>,
    cpuRomMapping: seq<BankMapping>,
    ppuMapping: seq<BankMapping>,
    sizes: BankSizes,
    registerStart: bv16,
    registerEnd: bv16,
    isEmpty: bool)

  /** Every slot of a window describes memory of that window's kind. */
  predicate Typed(table: seq<BankMapping>, ty: BankMappingType)
  {
    forall i :: 0 <= i < |table| ==> table[i].ty == ty
  }

  /** Every window (8 KiB PRG RAM, 32 KiB PRG ROM, 8 KiB CHR) is cut into
      slots of the mapper's bank size. */
  predicate Wellformed(c: Cartridge)
  {
    Typed(c.cpuRamMapping, CpuRamBank) && Typed(c.cpuRomMapping, CpuRomBank) && Typed(c.ppuMapping, ChrBank)
    && c.sizes.cpuRam > 0 && c.sizes.cpuRom > 0 && c.sizes.ppu > 0
    && |c.cpuRamMapping| * c.sizes.cpuRam == 0x2000
    && |c.cpuRomMapping| * c.sizes.cpuRom == 0x8000
    && |c.ppuMapping| * c.sizes.ppu == 0x2000
  }

  /** The cartridge-less console: an empty header, no data, nothing mapped. */
  function NewWithoutFile(): (c: Cartridge)
    ensures c.isEmpty && c.registerStart > c.registerEnd
    ensures c.header.mapperId == 0
  {
    EmptyHeaderDecodes();
    Cartridge(EmptyHeader(), [], [], [], [], [], [], BankSizes(0x2000, 0x8000, 0x2000), 2, 1, true)
  }

  /** The addresses each device may hand to the translation, as the code
      lists them: the unused CPU window starts at 0x4200. */
  function InWindowAsWritten(address: bv16, device: Device): (r: bool)
    ensures device == Cpu ==> (r <==> address >= 0x4200)
    ensures device == Ppu ==> (r <==> address < 0x2000)
    ensures r ==> InWindow(address, device)
  {
    match device
    case Cpu => address >= 0x6000 || 0x4200 <= address < 0x6000
    case Ppu => address < 0x2000
  }

  /** The addresses the CPU bus forwards to the cartridge (0x4020 upward)
      and the PPU's pattern-table range. */
  predicate InWindow(address: bv16, device: Device)
  {
    match device
    case Cpu => address >= 0x4020
    case Ppu => address < 0x2000
  }

  /** The CPU bus forwards every address from 0x4020 to the cartridge,
      but the code's translation lists no case for 0x4020-0x41FF: such a
      read would stop the emulator. Every address it does list is one the
      bus forwards. */
  lemma WindowGap()
    ensures InWindow(0x4020, Cpu) && !InWindowAsWritten(0x4020, Cpu)
    ensures InWindow(0x41FF, Cpu) && !InWindowAsWritten(0x41FF, Cpu)
    ensures forall a: bv16 :: InWindowAsWritten(a, Cpu) ==> InWindow(a, Cpu)
  {
  }

  datatype Mapped = Mapped(mapping: BankMapping, address: nat)

  function BankSize(c: Cartridge, ty: BankMappingType): nat
  {
    match ty
    case CpuRamBank => c.sizes.cpuRam
    case CpuRomBank => c.sizes.cpuRom
    case ChrBank => c.sizes.ppu
  }

  function BankCount(c: Cartridge, ty: BankMappingType): nat
    requires Wellformed(c)
  {
    match ty
    case CpuRamBank => ActivePrgRamBanks(c.header, c.sizes.cpuRam)
    case CpuRomBank => ActivePrgRomBanks(c.header, c.sizes.cpuRom)
    case ChrBank => ActiveChrBanks(c.header, c.sizes.ppu)
  }

  /** The slot an address falls in, and the address's offset inside it. */
  function Slot(table: seq<BankMapping>, ty: BankMappingType, size: nat, windowOffset: nat): (r: Mapped)
    requires size > 0 && windowOffset < |table| * size && Typed(table, ty)
    ensures r.address < size && r.mapping.ty == ty
    ensures r.mapping == table[windowOffset / size]
  {
    Arith.DivBound(windowOffset, size, |table|);
    Mapped(table[windowOffset / size], windowOffset % size)
  }

  /** The 13- and 15-bit offsets of an address inside its window. */
  function Offset13(address: bv16): (r: nat)
    ensures r < 0x2000
  {
    address as int % 0x2000
  }

  function Offset15(address: bv16): (r: nat)
    ensures r < 0x8000
  {
    address as int % 0x8000
  }

  const Unmapped: BankMapping := BankMapping(CpuRamBank, 0, false, false)

  function Lookup(c: Cartridge, address: bv16, device: Device): (r: Mapped)
    requires Wellformed(c) && InWindow(address, device)
    ensures device == Ppu || address >= 0x6000 ==> r.address < BankSize(c, r.mapping.ty)
    ensures device == Cpu && address < 0x6000 ==> r == Mapped(Unmapped, 0)
  {
    match device
    case Cpu =>
      if 0x6000 <= address < 0x8000 then
        Slot(c.cpuRamMapping, CpuRamBank, c.sizes.cpuRam, Offset13(address))
      else if address >= 0x8000 then
        Slot(c.cpuRomMapping, CpuRomBank, c.sizes.cpuRom, Offset15(address))
      else
        Mapped(Unmapped, 0)
    case Ppu =>
      Slot(c.ppuMapping, ChrBank, c.sizes.ppu, Offset13(address))
  }

  /** From a slot's bank number to a byte offset in the bank's memory: the
      bank is reduced modulo the bank count, and bank 0 is used when there
      are no banks. */
  function Translate(c: Cartridge, m: Mapped): (r: nat)
    requires Wellformed(c)
    requires m.address < BankSize(c, m.mapping.ty)
    ensures BankCount(c, m.mapping.ty) == 0 ==> r == m.address
    ensures BankCount(c, m.mapping.ty) > 0 ==>
      r % BankSize(c, m.mapping.ty) == m.address
      && r / BankSize(c, m.mapping.ty) == m.mapping.to as nat % BankCount(c, m.mapping.ty)
      && r < BankCount(c, m.mapping.ty) * BankSize(c, m.mapping.ty)
  {
    var count := BankCount(c, m.mapping.ty);
    var size := BankSize(c, m.mapping.ty);
    var bank := if count != 0 then m.mapping.to as nat % count else 0;
    if count > 0 then
      Arith.BankDecompose(bank, count, size, m.address);
      bank * size + m.address
    else
      bank * size + m.address
  }

  /** Bank-relative translation of a bus address. The unused CPU window maps
      to an unreadable, unwritable slot. */
  function MapAddress(c: Cartridge, address: bv16, device: Device): (r: Mapped)
    requires Wellformed(c) && InWindow(address, device)
    ensures device == Cpu && address < 0x6000 ==> !r.mapping.read && !r.mapping.write
    ensures device == Ppu || address >= 0x6000 ==>
      BankCount(c, r.mapping.ty) > 0 ==> r.address < BankCount(c, r.mapping.ty) * BankSize(c, r.mapping.ty)
  {
    var m := Lookup(c, address, device);
    if device == Ppu || address >= 0x6000 then Mapped(m.mapping, Translate(c, m)) else m
  }

  function Data(c: Cartridge, ty: BankMappingType): seq<bv8>
  {
    match ty
    case CpuRamBank => c.prgRam
    case CpuRomBank => c.prgData
    case ChrBank => c.chrData
  }

  /** The translated address is inside the memory it selects. */
  predicate Addressable(c: Cartridge, address: bv16, device: Device)
    requires Wellformed(c)
  {
    InWindow(address, device)
    && var m := MapAddress(c, address, device);
    (m.mapping.read || m.mapping.write ==> m.address < |Data(c, m.mapping.ty)|)
  }

  /** A read through the cartridge: an empty slot reads as the open value 0,
      and a console without cartridge reads NOP (0xEA) on the CPU side and 0
      on the PPU side. */
  function Read(c: Cartridge, address: bv16, device: Device): (r: bv8)
    requires Wellformed(c) && (!c.isEmpty ==> Addressable(c, address, device))
    ensures c.isEmpty ==> r == (if device == Cpu then 0xEA else 0)
    ensures !c.isEmpty && !MapAddress(c, address, device).mapping.read ==> r == 0
  {
    if c.isEmpty then (if device == Cpu then 0xEA else 0)
    else
      var m := MapAddress(c, address, device);
      if m.mapping.read then Data(c, m.mapping.ty)[m.address] else 0
  }

  /** One entry of a mapper's answer to a register write: which window,
      which slot, and the new mapping. */
  datatype BankUpdate = BankUpdate(window: BankMappingType, index: nat, mapping: BankMapping)

  function Table(c: Cartridge, w: BankMappingType): seq<BankMapping>
  {
    match w
    case CpuRamBank => c.cpuRamMapping
    case CpuRomBank => c.cpuRomMapping
    case ChrBank => c.ppuMapping
  }

  predicate UpdatesFit(c: Cartridge, updates: seq<BankUpdate>)
  {
    forall i :: 0 <= i < |updates| ==>
      updates[i].index < |Table(c, updates[i].window)| && updates[i].mapping.ty == updates[i].window
  }

  function ApplyOne(c: Cartridge, u: BankUpdate): (r: Cartridge)
    requires u.index < |Table(c, u.window)| && u.mapping.ty == u.window
    ensures Table(r, u.window) == Table(c, u.window)[u.index := u.mapping]
    ensures Wellformed(c) ==> Wellformed(r)
    ensures forall w :: w != u.window ==> Table(r, w) == Table(c, w)
    ensures r == c.(cpuRamMapping := r.cpuRamMapping, cpuRomMapping := r.cpuRomMapping, ppuMapping := r.ppuMapping)
  {
    match u.window
    case CpuRamBank => c.(cpuRamMapping := c.cpuRamMapping[u.index := u.mapping])
    case CpuRomBank => c.(cpuRomMapping := c.cpuRomMapping[u.index := u.mapping])
    case ChrBank => c.(ppuMapping := c.ppuMapping[u.index := u.mapping])
  }

  /** Applies the mapper's updates in order. */
  function ApplyBankMapping(c: Cartridge, updates: seq<BankUpdate>): (r: Cartridge)
    requires UpdatesFit(c, updates)
    ensures Wellformed(c) ==> Wellformed(r)
    ensures |r.cpuRamMapping| == |c.cpuRamMapping| && |r.cpuRomMapping| == |c.cpuRomMapping|
    ensures |r.ppuMapping| == |c.ppuMapping|
    ensures r == c.(cpuRamMapping := r.cpuRamMapping, cpuRomMapping := r.cpuRomMapping, ppuMapping := r.ppuMapping)
    decreases |updates|
  {
    if |updates| == 0 then c
    else
      var c' := ApplyOne(c, updates[0]);
      assert UpdatesFit(c', updates[1..]) by {
        forall i | 0 <= i < |updates[1..]|
          ensures updates[1..][i].index < |Table(c', updates[1..][i].window)|
          ensures updates[1..][i].mapping.ty == updates[1..][i].window
        {
          assert updates[1..][i] == updates[i + 1];
        }
      }
      ApplyBankMapping(c', updates[1..])
  }

  /** The last update to a slot is the one that stays. */
  lemma {:induction false} LastUpdateWins(c: Cartridge, updates: seq<BankUpdate>)
    requires UpdatesFit(c, updates) && |updates| > 0
    ensures var u := updates[|updates| - 1];
      Table(ApplyBankMapping(c, updates), u.window)[u.index] == u.mapping
    decreases |updates|
  {
    var c' := ApplyOne(c, updates[0]);
    if |updates| > 1 {
      assert UpdatesFit(c', updates[1..]) by {
        forall i | 0 <= i < |updates[1..]|
          ensures updates[1..][i].index < |Table(c', updates[1..][i].window)|
          ensures updates[1..][i].mapping.ty == updates[1..][i].window
        {
          assert updates[1..][i] == updates[i + 1];
        }
      }
      LastUpdateWins(c', updates[1..]);
      assert updates[1..][|updates[1..]| - 1] == updates[|updates| - 1];
    }
  }

  predicate InRegisterRange(c: Cartridge, address: bv16)
  {
    c.registerStart <= address <= c.registerEnd
  }

  /** A write through the cartridge. Writes into the mapper's register range
      go to the mapper, whose answer (a list of slot updates, computed by code
      outside this model) is the `updates` parameter; other writes store the
      byte when the slot is writable. A console without cartridge ignores
      every write. */
  function Write(c: Cartridge, address: bv16, data: bv8, device: Device, updates: seq<BankUpdate>): (r: Cartridge)
    requires Wellformed(c)
    requires !c.isEmpty && InRegisterRange(c, address) ==> UpdatesFit(c, updates)
    requires !c.isEmpty && !InRegisterRange(c, address) ==> Addressable(c, address, device)
    ensures c.isEmpty ==> r == c
    ensures !c.isEmpty && InRegisterRange(c, address) ==>
      r.prgData == c.prgData && r.chrData == c.chrData && r.prgRam == c.prgRam
    ensures !c.isEmpty && !InRegisterRange(c, address) ==>
      r.cpuRamMapping == c.cpuRamMapping && r.cpuRomMapping == c.cpuRomMapping && r.ppuMapping == c.ppuMapping
    ensures Wellformed(r) && r.isEmpty == c.isEmpty
  {
    if c.isEmpty then c
    else if InRegisterRange(c, address) then ApplyBankMapping(c, updates)
    else
      var m := MapAddress(c, address, device);
      if !m.mapping.write then c
      else match m.mapping.ty
        case CpuRamBank => c.(prgRam := c.prgRam[m.address := data])
        case CpuRomBank => c.(prgData := c.prgData[m.address := data])
        case ChrBank => c.(chrData := c.chrData[m.address := data])
  }

  /** Reading back a byte written through a readable and writable slot
      returns it. */
  lemma ReadAfterWrite(c: Cartridge, address: bv16, data: bv8, device: Device, updates: seq<BankUpdate>)
    requires Wellformed(c) && !c.isEmpty && !InRegisterRange(c, address)
    requires Addressable(c, address, device)
    requires MapAddress(c, address, device).mapping.read && MapAddress(c, address, device).mapping.write
    ensures Addressable(Write(c, address, data, device, updates), address, device)
    ensures Read(Write(c, address, data, device, updates), address, device) == data
  {
    var m := MapAddress(c, address, device);
    var r := Write(c, address, data, device, updates);
    match m.mapping.ty
    case CpuRamBank =>
      assert r == c.(prgRam := c.prgRam[m.address := data]);
      SameTablesSameMapping(c, r, address, device);
    case CpuRomBank =>
      assert r == c.(prgData := c.prgData[m.address := data]);
      SameTablesSameMapping(c, r, address, device);
    case ChrBank =>
      assert r == c.(chrData := c.chrData[m.address := data]);
      SameTablesSameMapping(c, r, address, device);
  }

  /** The translation reads the header, the bank sizes and the three slot
      tables, and nothing else. */
  lemma SameTablesSameMapping(c: Cartridge, r: Cartridge, address: bv16, device: Device)
    requires Wellformed(c) && Wellformed(r) && InWindow(address, device)
    requires r.header == c.header && r.sizes == c.sizes
    requires r.cpuRamMapping == c.cpuRamMapping && r.cpuRomMapping == c.cpuRomMapping && r.ppuMapping == c.ppuMapping
    ensures MapAddress(r, address, device) == MapAddress(c, address, device)
  {
  }

  /** The nametable arrangement: a four-screen board overrides the mapper,
      a hardwired mapper follows header bit 0, and any other mapper chooses
      (its choice is the `mapperMode` parameter). */
  function MirroringModeOf(c: Cartridge, hardwired: bool, mapperMode: MirroringMode): (r: MirroringMode)
    ensures !c.isEmpty && c.header.fourScreen ==> r == FourScreen
    ensures !c.isEmpty && !c.header.fourScreen && hardwired ==>
      (r == Vertical <==> c.header.verticalMirroring) && (r == Vertical || r == Horizontal)
    ensures !c.isEmpty && !c.header.fourScreen && !hardwired ==> r == mapperMode
    ensures c.isEmpty ==> r == Vertical
  {
    if c.isEmpty then Vertical
    else if c.header.fourScreen then FourScreen
    else if hardwired then (if c.header.verticalMirroring then Vertical else Horizontal)
    else mapperMode
  }
}
