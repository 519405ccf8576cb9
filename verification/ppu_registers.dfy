/** The memory-mapped PPU registers at 0x2000-0x2007 and 0x4014, and the
    shared write toggle that splits 16-bit values written to the scroll and
    address registers across two byte writes. */
module PpuRegisters {

  import opened Common

  datatype Register =
    | Control | Mask | Status | OamAddress | OamData | Scroll | PpuAddress | PpuData | OamDma

  datatype PpuState = PpuState(
    control: bv8, mask: bv8, status: bv8,
    oamAddress: bv8, oamData: bv8, ppuData: bv8, oamDma: bv8,
    scanline: nat, cycle: nat,
    vramCurrent: bv16, vramTemp: bv16,
    nametableSelector: bv8, xScroll: bv8, yScroll: bv8,
    toggle: bool)

  /** The register decoded from a CPU address, if it names one. */
  function RegisterAt(address: bv16): (r: Option<Register>)
    ensures r.Some? <==> (0x2000 <= address <= 0x2007 || address == 0x4014)
    ensures r == Some(Status) <==> address == 0x2002
    ensures r == Some(Scroll) <==> address == 0x2005
    ensures r == Some(PpuAddress) <==> address == 0x2006
  {
    match address
    case 0x2000 => Some(Control)
    case 0x2001 => Some(Mask)
    case 0x2002 => Some(Status)
    case 0x2003 => Some(OamAddress)
    case 0x2004 => Some(OamData)
    case 0x2005 => Some(Scroll)
    case 0x2006 => Some(PpuAddress)
    case 0x2007 => Some(PpuData)
    case 0x4014 => Some(OamDma)
    case _ => None
  }

  /** Power-on: every register zero, the pre-render scanline 261, dot 0,
      the toggle clear. */
  function New(): (p: PpuState)
    ensures p.scanline == 261 && p.cycle == 0 && !p.toggle
    ensures ReadRegister(p, Status) == 0 && ReadRegister(p, OamDma) == 0
  {
    PpuState(0, 0, 0, 0, 0, 0, 0, 261, 0, 0, 0, 0, 0, 0, false)
  }

  /** Only the status and DMA registers are readable; the rest read 0. A
      read returns a byte and nothing else, so it never changes the PPU. */
  function ReadRegister(p: PpuState, r: Register): (v: bv8)
    ensures r == Status ==> v == p.status
    ensures r == OamDma ==> v == p.oamDma
    ensures r != Status && r != OamDma ==> v == 0
  {
    match r
    case Status => p.status
    case OamDma => p.oamDma
    case _ => 0
  }

  /** A register write as the emulator performs it. The first scroll write
      (toggle clear) goes to the vertical scroll and the second to the
      horizontal one; the first address write sets the high byte of the
      temporary address and copies it to the current address at once. */
  function WriteRegisterAsWritten(p: PpuState, r: Register, data: bv8): (q: PpuState)
    ensures r == Scroll && !p.toggle ==> q == p.(yScroll := data, toggle := true)
    ensures r == Scroll && p.toggle ==> q == p.(xScroll := data, toggle := false)
    ensures r == PpuAddress && !p.toggle ==>
      q.vramTemp == (p.vramTemp & 0x00FF) | ((data as bv16) << 8) && q.vramCurrent == q.vramTemp && q.toggle
    ensures r == PpuAddress && p.toggle ==>
      q.vramTemp == (p.vramTemp & 0xFF00) | (data as bv16) && q.vramCurrent == p.vramCurrent && !q.toggle
  {
    match r
    case Control => p.(control := data, nametableSelector := data & 3)
    case Mask => p.(mask := data)
    case OamAddress => p.(oamAddress := data)
    case OamData => p.(oamData := data)
    case Scroll =>
      if p.toggle then p.(xScroll := data, toggle := false)
      else p.(yScroll := data, toggle := true)
    case PpuAddress =>
      if p.toggle then p.(vramTemp := (p.vramTemp & 0xFF00) | (data as bv16), toggle := false)
      else
        var t := (p.vramTemp & 0x00FF) | ((data as bv16) << 8);
        p.(vramTemp := t, vramCurrent := t, toggle := true)
    case PpuData => p.(ppuData := data)
    case OamDma => p.(oamDma := data)
    case Status => p
  }

  /** A register write as the 2C02 behaves: the first scroll write is the
      horizontal scroll, and the current address is loaded only after the
      second address write has completed the temporary address. */
  function WriteRegister(p: PpuState, r: Register, data: bv8): (q: PpuState)
    ensures r == Scroll && !p.toggle ==> q == p.(xScroll := data, toggle := true)
    ensures r == Scroll && p.toggle ==> q == p.(yScroll := data, toggle := false)
    ensures r == PpuAddress && !p.toggle ==>
      q == p.(vramTemp := (p.vramTemp & 0x00FF) | ((data as bv16) << 8), toggle := true)
    ensures r == PpuAddress && p.toggle ==>
      q.vramTemp == (p.vramTemp & 0xFF00) | (data as bv16) && q.vramCurrent == q.vramTemp && !q.toggle
    ensures r != Scroll && r != PpuAddress ==> q == WriteRegisterAsWritten(p, r, data)
    ensures (r == Scroll || r == PpuAddress) <==> q.toggle != p.toggle
  {
    match r
    case Scroll =>
      if p.toggle then p.(yScroll := data, toggle := false)
      else p.(xScroll := data, toggle := true)
    case PpuAddress =>
      if p.toggle then
        var t := (p.vramTemp & 0xFF00) | (data as bv16);
        p.(vramTemp := t, vramCurrent := t, toggle := false)
      else p.(vramTemp := (p.vramTemp & 0x00FF) | ((data as bv16) << 8), toggle := true)
    case _ => WriteRegisterAsWritten(p, r, data)
  }

  /** A control write stores the byte and takes the base nametable from
      its low two bits; a status write changes nothing; only scroll and
      address writes move the toggle. */
  lemma OtherRegisterWrites(p: PpuState, r: Register, data: bv8)
    ensures r == Control ==> WriteRegister(p, r, data) == p.(control := data, nametableSelector := data & 3)
    ensures r == Status ==> WriteRegister(p, r, data) == p
    ensures r != Scroll && r != PpuAddress ==> WriteRegister(p, r, data).toggle == p.toggle
  {
  }

  /** The CPU-facing read: the address must name a register. */
  function Read(p: PpuState, address: bv16): (v: bv8)
    requires RegisterAt(address).Some?
    ensures address == 0x2002 ==> v == p.status
  {
    ReadRegister(p, RegisterAt(address).value)
  }

  /** The CPU-facing write: the address must name a register. */
  function Write(p: PpuState, address: bv16, data: bv8): (q: PpuState)
    requires RegisterAt(address).Some?
    ensures address == 0x2002 ==> q == p
    ensures address == 0x2000 ==> q.nametableSelector == data & 3 && q.control == data
  {
    WriteRegister(p, RegisterAt(address).value, data)
  }

  /** Any two toggled writes, in any combination of scroll and address
      registers, leave the toggle where it was (both write models). */
  lemma TwoWritesRestoreToggle(p: PpuState, r1: Register, r2: Register, d1: bv8, d2: bv8)
    requires r1 == Scroll || r1 == PpuAddress
    requires r2 == Scroll || r2 == PpuAddress
    ensures WriteRegisterAsWritten(WriteRegisterAsWritten(p, r1, d1), r2, d2).toggle == p.toggle
    ensures WriteRegister(WriteRegister(p, r1, d1), r2, d2).toggle == p.toggle
  {
  }

  /** As written, two scroll writes from a clear toggle put the first byte
      into the vertical scroll and the second into the horizontal one. */
  lemma ScrollPairAsWritten(p: PpuState, first: bv8, second: bv8)
    requires !p.toggle
    ensures var q := WriteRegisterAsWritten(WriteRegisterAsWritten(p, Scroll, first), Scroll, second);
      q.yScroll == first && q.xScroll == second && !q.toggle
  {
  }

  /** Two scroll writes from a clear toggle set X from the first byte and Y
      from the second. */
  lemma ScrollPair(p: PpuState, first: bv8, second: bv8)
    requires !p.toggle
    ensures var q := WriteRegister(WriteRegister(p, Scroll, first), Scroll, second);
      q.xScroll == first && q.yScroll == second && !q.toggle
  {
  }

  /** As written, writing 0x21 then 0x08 to the address register leaves the
      current address at 0x2100: the low byte never reaches it. */
  lemma AddressPairAsWritten()
    ensures var q := WriteRegisterAsWritten(WriteRegisterAsWritten(New(), PpuAddress, 0x21), PpuAddress, 0x08);
      q.vramTemp == 0x2108 && q.vramCurrent == 0x2100
  {
  }

  /** Two address writes from a clear toggle load the current address with
      the high byte followed by the low byte. */
  lemma AddressPair(p: PpuState, high: bv8, low: bv8)
    requires !p.toggle
    ensures var q := WriteRegister(WriteRegister(p, PpuAddress, high), PpuAddress, low);
      q.vramCurrent == ((high as bv16) << 8) | (low as bv16) && q.vramTemp == q.vramCurrent && !q.toggle
  {
  }
}
