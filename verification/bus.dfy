/** The console's two buses. The CPU bus decodes an address to 2 KiB of
    work RAM (mirrored up to 0x1FFF), the eight PPU registers (mirrored up
    to 0x3FFF), the APU and I/O registers, the unused test-mode registers
    and the cartridge. The PPU bus decodes to the cartridge's pattern
    tables, nametable RAM and palette RAM, with 0x4000-0xFFFF folded onto
    0x0000-0x3FFF. Devices the model does not hold (APU, PPU registers,
    cartridge) are reached through the request the bus forwards to them. */
module Bus {
  import opened Common
  import Controller
  import Vram
  import Palette
  import Banking

  // ---------------------------------------------------------------------
  // CPU bus

  /** Where a CPU address lands. */
  datatype CpuTarget =
    | Ram(index: nat)
    | PpuRegister(register: bv16)
    | ApuRegister(address: bv16)
    | OamDmaRegister
    | Joypad
    | TestMode
    | CartridgeSpace(address: bv16)

  const RAM_SIZE: nat := 0x800

  function DecodeCpu(address: bv16): (t: CpuTarget)
    ensures t.Ram? <==> address < 0x2000
    ensures t.PpuRegister? <==> 0x2000 <= address < 0x4000
    ensures t.TestMode? <==> 0x4018 <= address < 0x4020
    ensures t.CartridgeSpace? <==> address >= 0x4020
  {
    if address < 0x2000 then Ram(RamOffset(address))
    else if address < 0x4000 then PpuRegister(0x2000 | (address & 0x7))
    else if address < 0x4014 then ApuRegister(address)
    else if address == 0x4014 then OamDmaRegister
    else if address == 0x4015 then ApuRegister(address)
    else if address == 0x4016 then Joypad
    else if address == 0x4017 then ApuRegister(address)
    else if address < 0x4020 then TestMode
    else CartridgeSpace(address)
  }

  /** The RAM byte an address below 0x2000 selects: its low eleven
      bits. */
  function RamOffset(address: bv16): (i: nat)
    ensures i < RAM_SIZE && i == address as int % 0x800
  {
    Banking.Low11(address)
  }

  /** Work RAM is indexed by the address modulo 2 KiB. */
  lemma RamIndex(address: bv16)
    requires address < 0x2000
    ensures DecodeCpu(address) == Ram(address as nat % 0x800)
  {
  }

  /** Addresses 0x800 apart below 0x2000 reach the same RAM byte. */
  lemma RamMirrors(address: bv16)
    requires address < 0x1800
    ensures DecodeCpu(address) == DecodeCpu(address + 0x800)
  {
  }

  /** 0x2000-0x3FFF reaches PPU register 0x2000-0x2007 by the address's
      low three bits. */
  lemma PpuRegisterIndex(address: bv16)
    requires 0x2000 <= address < 0x4000
    ensures 0x2000 <= DecodeCpu(address).register < 0x2008
    ensures DecodeCpu(address).register % 8 == address % 8
  {
  }

  /** The PPU registers repeat every eight bytes. */
  lemma PpuRegistersMirror(address: bv16)
    requires 0x2000 <= address < 0x3FF8
    ensures DecodeCpu(address) == DecodeCpu(address + 8)
  {
  }

  /** The I/O window 0x4000-0x4017: everything is an APU register except
      0x4014 (sprite DMA, a PPU register) and 0x4016 (the first
      controller). */
  lemma IoRegisters(address: bv16)
    requires 0x4000 <= address < 0x4018
    ensures address == 0x4014 <==> DecodeCpu(address) == OamDmaRegister
    ensures address == 0x4016 <==> DecodeCpu(address) == Joypad
    ensures address != 0x4014 && address != 0x4016 ==> DecodeCpu(address) == ApuRegister(address)
  {
  }

  /** The cartridge sees the address unchanged. */
  lemma CartridgeSeesAddress(address: bv16)
    requires address >= 0x4020
    ensures DecodeCpu(address) == CartridgeSpace(address)
  {
  }

  /** The state the CPU bus holds itself: work RAM, the first controller,
      and the cell remembering whether an IRQ change was requested. */
  datatype CpuBus = CpuBus(ram: seq<bv8>, joypad: Controller.Controller, irqChangeRequested: bool)

  predicate Valid(bus: CpuBus)
  {
    |bus.ram| == RAM_SIZE
  }

  function NewCpuBus(): (bus: CpuBus)
    ensures Valid(bus) && !bus.irqChangeRequested
    ensures forall i :: 0 <= i < RAM_SIZE ==> bus.ram[i] == 0
  {
    CpuBus(seq(RAM_SIZE, _ => 0), Controller.New(), false)
  }

  /** A read, and the bus after it: reading the controller shifts it. The
      bytes of the devices the bus forwards to are the parameter
      `devices`. */
  datatype BusRead = BusRead(value: bv8, bus: CpuBus)

  function ReadCpu(bus: CpuBus, address: bv16, devices: CpuTarget -> bv8): (r: BusRead)
    requires Valid(bus)
    ensures Valid(r.bus) && r.bus.ram == bus.ram && r.bus.irqChangeRequested == bus.irqChangeRequested
  {
    match DecodeCpu(address)
    case Ram(i) => BusRead(bus.ram[i], bus)
    case Joypad =>
      var c := Controller.Read(bus.joypad);
      BusRead(c.value, bus.(joypad := c.controller))
    case TestMode => BusRead(0, bus)
    case t => BusRead(devices(t), bus)
  }

  /** A read below 0x2000 returns the RAM byte at the address modulo
      2 KiB and changes nothing. */
  lemma ReadRam(bus: CpuBus, address: bv16, devices: CpuTarget -> bv8)
    requires Valid(bus) && address < 0x2000
    ensures ReadCpu(bus, address, devices) == BusRead(bus.ram[address as nat % 0x800], bus)
  {
    RamIndex(address);
  }

  /** The unused test-mode registers read 0 and change nothing. */
  lemma ReadTestMode(bus: CpuBus, address: bv16, devices: CpuTarget -> bv8)
    requires Valid(bus) && 0x4018 <= address < 0x4020
    ensures ReadCpu(bus, address, devices) == BusRead(0, bus)
  {
  }

  /** A write a device other than RAM or the controller receives. */
  datatype Forward = Forward(target: CpuTarget, data: bv8)

  datatype BusWrite = BusWrite(bus: CpuBus, forwarded: Option<Forward>)

  function WriteCpu(bus: CpuBus, address: bv16, data: bv8): (r: BusWrite)
    requires Valid(bus)
    ensures Valid(r.bus) && r.bus.irqChangeRequested == bus.irqChangeRequested
    ensures r.forwarded.Some? ==> r.forwarded.value == Forward(DecodeCpu(address), data) && r.bus == bus
  {
    match DecodeCpu(address)
    case Ram(i) => BusWrite(bus.(ram := bus.ram[i := data]), None)
    case Joypad => BusWrite(bus.(joypad := Controller.Write(bus.joypad, data)), None)
    case TestMode => BusWrite(bus, None)
    case t => BusWrite(bus, Some(Forward(t, data)))
  }

  /** A write to the unused test-mode registers changes nothing and goes
      nowhere. */
  lemma WriteTestModeIgnored(bus: CpuBus, address: bv16, data: bv8)
    requires Valid(bus) && 0x4018 <= address < 0x4020
    ensures WriteCpu(bus, address, data) == BusWrite(bus, None)
  {
  }

  /** A RAM write stores the byte at the address modulo 2 KiB and touches
      nothing else. */
  lemma WriteRam(bus: CpuBus, address: bv16, data: bv8)
    requires Valid(bus) && address < 0x2000
    ensures WriteCpu(bus, address, data) == BusWrite(bus.(ram := bus.ram[address as nat % 0x800 := data]), None)
  {
    RamIndex(address);
  }

  /** Reading RAM after writing it: the byte comes back through every
      mirror of the written address, and other RAM bytes are unchanged. */
  lemma {:induction false} RamReadAfterWrite(bus: CpuBus, a: bv16, b: bv16, data: bv8, devices: CpuTarget -> bv8)
    requires Valid(bus) && a < 0x2000 && b < 0x2000
    ensures var after := WriteCpu(bus, a, data).bus;
            ReadCpu(after, b, devices).value == if a as nat % 0x800 == b as nat % 0x800 then data else ReadCpu(bus, b, devices).value
  {
    WriteRam(bus, a, data);
    ReadRam(bus, b, devices);
    ReadRam(WriteCpu(bus, a, data).bus, b, devices);
  }

  /** Bus reset clears all of work RAM and nothing else. */
  function ResetCpuBus(bus: CpuBus): (r: CpuBus)
    ensures Valid(r)
    ensures forall i :: 0 <= i < RAM_SIZE ==> r.ram[i] == 0
    ensures r.joypad == bus.joypad && r.irqChangeRequested == bus.irqChangeRequested
  {
    bus.(ram := seq(RAM_SIZE, _ => 0))
  }

  /** After a reset every RAM address reads 0. */
  lemma {:induction false} ResetReadsZero(bus: CpuBus, address: bv16, devices: CpuTarget -> bv8)
    requires address < 0x2000
    ensures ReadCpu(ResetCpuBus(bus), address, devices).value == 0
  {
    ReadRam(ResetCpuBus(bus), address, devices);
  }

  // ---------------------------------------------------------------------
  // IRQ line

  /** The IRQ change query: a change is requested when the APU or the
      cartridge requests one, and the bus remembers the answer. */
  function IsIrqChangeRequested(bus: CpuBus, apuRequested: bool, cartridgeRequested: bool): (r: (bool, CpuBus))
    ensures r.0 <==> apuRequested || cartridgeRequested
    ensures r.1 == bus.(irqChangeRequested := r.0)
  {
    var result := apuRequested || cartridgeRequested;
    (result, bus.(irqChangeRequested := result))
  }

  /** The IRQ line the CPU sees: low unless a change was requested, and
      otherwise the APU's pin, ORed with the cartridge's pin when the
      cartridge itself requests a change. */
  function IrqPinState(bus: CpuBus, apuPin: bool, cartridgeRequested: bool, cartridgePin: bool): (r: bool)
    ensures !bus.irqChangeRequested ==> !r
    ensures r ==> apuPin || cartridgePin
    ensures !cartridgeRequested ==> (r <==> bus.irqChangeRequested && apuPin)
  {
    if bus.irqChangeRequested then
      var result := apuPin;
      if cartridgeRequested then result || cartridgePin else result
    else false
  }

  /** The line is the OR of the sources that asserted it, and only while a
      change is requested. */
  lemma IrqLineIsOr(bus: CpuBus, apuPin: bool, cartridgeRequested: bool, cartridgePin: bool)
    ensures IrqPinState(bus, apuPin, cartridgeRequested, cartridgePin) <==>
              bus.irqChangeRequested && (apuPin || (cartridgeRequested && cartridgePin))
  {
  }

  /** Right after a query that found no request, the line is low whatever
      the pins say. */
  lemma NoRequestNoIrq(bus: CpuBus, apuPin: bool, cartridgePin: bool)
    ensures var (requested, after) := IsIrqChangeRequested(bus, false, false);
            !requested && !IrqPinState(after, apuPin, false, cartridgePin)
  {
  }

  /** Clearing the request drops the line until the next query; the
      cartridge's and the APU's own pins are cleared by them. */
  function ClearIrqRequestPin(bus: CpuBus): (r: CpuBus)
    ensures !r.irqChangeRequested
    ensures r.ram == bus.ram && r.joypad == bus.joypad
  {
    bus.(irqChangeRequested := false)
  }

  lemma ClearedLineIsLow(bus: CpuBus, apuPin: bool, cartridgeRequested: bool, cartridgePin: bool)
    ensures !IrqPinState(ClearIrqRequestPin(bus), apuPin, cartridgeRequested, cartridgePin)
  {
  }

  // ---------------------------------------------------------------------
  // PPU bus

  /** Where a PPU address lands after folding: the cartridge's pattern
      tables, nametable RAM at an address in 0x2000-0x2FFF, or palette
      RAM. */
  datatype PpuTarget =
    | PatternTable(address: bv16)
    | Nametable(address: bv16)
    | PaletteRam(address: bv16)

  function DecodePpu(address: bv16): (t: PpuTarget)
    ensures t.PatternTable? ==> t.address < 0x2000
    ensures t.Nametable? ==> Vram.InRange(t.address)
    ensures t.PaletteRam? ==> Palette.InRange(t.address)
    decreases if address >= 0x4000 then 1 else 0
  {
    if address < 0x2000 then PatternTable(address)
    else if address < 0x3F00 then Nametable(address & 0x2FFF)
    else if address < 0x4000 then PaletteRam(address)
    else DecodePpu(address & 0x3FFF)
  }

  /** 0x4000-0xFFFF behaves as the address with its top two bits cleared. */
  lemma PpuUpperMirror(address: bv16)
    ensures DecodePpu(address) == DecodePpu(address & 0x3FFF)
  {
  }

  /** 0x3000-0x3EFF reaches the same nametable byte as the address 0x1000
      below it. */
  lemma NametableMirror(address: bv16)
    requires 0x3000 <= address < 0x3F00
    ensures DecodePpu(address) == DecodePpu(address - 0x1000)
  {
  }

  /** Below 0x3000 a nametable address reaches nametable RAM unchanged. */
  lemma NametableAddress(address: bv16)
    requires 0x2000 <= address < 0x3000
    ensures DecodePpu(address) == Nametable(address)
  {
  }

  /** The memory the PPU bus holds itself. */
  datatype PpuBus = PpuBus(vram: seq<bv8>, palettes: seq<bv8>)

  predicate PpuValid(bus: PpuBus)
  {
    |bus.vram| == 0x1000 && |bus.palettes| == 32
  }

  function NewPpuBus(): (bus: PpuBus)
    ensures PpuValid(bus)
  {
    PpuBus(Vram.New(), Palette.New())
  }

  /** A PPU-side read. Pattern-table bytes come from the cartridge through
      `pattern`; nametables are mirrored by the cartridge's mode. */
  function ReadPpu(bus: PpuBus, address: bv16, mode: MirroringMode, pattern: bv16 -> bv8): (r: bv8)
    requires PpuValid(bus) && Vram.Supported(mode)
    ensures DecodePpu(address).PatternTable? ==> r == pattern(DecodePpu(address).address)
  {
    match DecodePpu(address)
    case PatternTable(a) => pattern(a)
    case Nametable(a) => Vram.Read(bus.vram, a, mode, Ppu)
    case PaletteRam(a) => Palette.Read(bus.palettes, a, Ppu)
  }

  /** A PPU-side write: nametable and palette writes land in the bus's
      own memory; a pattern-table write is forwarded to the cartridge. */
  datatype PpuWrite = PpuWrite(bus: PpuBus, cartridgeWrite: Option<(bv16, bv8)>)

  function WritePpu(bus: PpuBus, address: bv16, data: bv8, mode: MirroringMode): (r: PpuWrite)
    requires PpuValid(bus) && Vram.Supported(mode)
    ensures PpuValid(r.bus)
    ensures DecodePpu(address).PatternTable? <==> r.cartridgeWrite.Some?
    ensures r.cartridgeWrite.Some? ==> r.bus == bus && r.cartridgeWrite.value == (DecodePpu(address).address, data)
  {
    match DecodePpu(address)
    case PatternTable(a) => PpuWrite(bus, Some((a, data)))
    case Nametable(a) => PpuWrite(bus.(vram := Vram.Write(bus.vram, a, data, mode, Ppu)), None)
    case PaletteRam(a) => PpuWrite(bus.(palettes := Palette.Write(bus.palettes, a, data, Ppu)), None)
  }

  /** A byte written to the nametables reads back at the same address, in
      whatever mirror of the PPU space it was written. */
  lemma {:induction false} NametableReadAfterWrite(bus: PpuBus, address: bv16, data: bv8, mode: MirroringMode, pattern: bv16 -> bv8)
    requires PpuValid(bus) && Vram.Supported(mode) && DecodePpu(address).Nametable?
    ensures ReadPpu(WritePpu(bus, address, data, mode).bus, address, mode, pattern) == data
  {
    var a := DecodePpu(address).address;
    Vram.ReadAfterWrite(bus.vram, a, a, data, mode);
  }

  /** The same for palette RAM. */
  lemma {:induction false} PaletteReadAfterWrite(bus: PpuBus, address: bv16, data: bv8, mode: MirroringMode, pattern: bv16 -> bv8)
    requires PpuValid(bus) && Vram.Supported(mode) && DecodePpu(address).PaletteRam?
    ensures ReadPpu(WritePpu(bus, address, data, mode).bus, address, mode, pattern) == data
  {
    var a := DecodePpu(address).address;
    Palette.ReadAfterWrite(bus.palettes, a, a, data);
  }

  // ---------------------------------------------------------------------
  // One frame

  /** The units a frame clocks. */
  datatype Clocked = ApuClock | CpuRunNext | PpuClock

  /** CPU cycles per frame. */
  const CYCLES_PER_FRAME: nat := 29780

  /** One CPU cycle of a frame: the APU first, then the CPU, then three
      PPU dots. */
  const CYCLE: seq<Clocked> := [ApuClock, CpuRunNext, PpuClock, PpuClock, PpuClock]

  /** `n` cycles in a row. */
  function Cycles(n: nat): (r: seq<Clocked>)
    ensures |r| == 5 * n
  {
    if n == 0 then [] else Cycles(n - 1) + CYCLE
  }

  /** How often `u` is clocked in `s`. */
  function Count(s: seq<Clocked>, u: Clocked): (r: nat)
    ensures r <= |s|
  {
    if s == [] then 0 else Count(s[..|s| - 1], u) + (if s[|s| - 1] == u then 1 else 0)
  }

  /** The clocks a frame performs, in order. A console without a
      cartridge does nothing. */
  method ClockForFrame(isEmpty: bool) returns (trace: seq<Clocked>)
    ensures isEmpty ==> trace == []
    ensures !isEmpty ==> trace == Cycles(CYCLES_PER_FRAME)
    ensures !isEmpty ==> forall i :: 0 <= i < |trace| ==> trace[i] == CYCLE[i % 5]
  {
    trace := [];
    if isEmpty {
      return;
    }
    var n := 0;
    while n < CYCLES_PER_FRAME
      invariant n <= CYCLES_PER_FRAME
      invariant trace == Cycles(n)
      invariant forall i :: 0 <= i < |trace| ==> trace[i] == CYCLE[i % 5]
    {
      trace := trace + CYCLE;
      n := n + 1;
    }
  }

  /** Cycle after cycle, the clocks repeat the pattern of one cycle. */
  lemma {:induction false} CyclesPattern(n: nat, i: nat)
    requires i < 5 * n
    ensures Cycles(n)[i] == CYCLE[i % 5]
  {
    if i < 5 * (n - 1) {
      CyclesPattern(n - 1, i);
    }
  }

  /** One cycle clocks the APU and the CPU once and the PPU three times. */
  lemma CountCycle(u: Clocked)
    ensures Count(CYCLE, u) == if u == PpuClock then 3 else 1
  {
    var s1 := [ApuClock];
    var s2 := s1 + [CpuRunNext];
    var s3 := s2 + [PpuClock];
    var s4 := s3 + [PpuClock];
    assert s1[..0] == [] && s2[..1] == s1 && s3[..2] == s2 && s4[..3] == s3 && CYCLE[..4] == s4;
    assert Count(s1, u) == if u == ApuClock then 1 else 0;
    assert Count(s2, u) == if u == PpuClock then 0 else 1;
    assert Count(s3, u) == 1;
    assert Count(s4, u) == if u == PpuClock then 2 else 1;
  }

  /** Every cycle clocks the CPU once and the PPU three times, so a frame
      runs the PPU exactly three times as often as the CPU. */
  lemma {:induction false} ThreeDotsPerCycle(n: nat)
    ensures Count(Cycles(n), CpuRunNext) == n
    ensures Count(Cycles(n), PpuClock) == 3 * n
    ensures Count(Cycles(n), ApuClock) == n
  {
    if n > 0 {
      ThreeDotsPerCycle(n - 1);
      CountAppend(Cycles(n - 1), CYCLE, CpuRunNext);
      CountAppend(Cycles(n - 1), CYCLE, PpuClock);
      CountAppend(Cycles(n - 1), CYCLE, ApuClock);
      CountCycle(CpuRunNext);
      CountCycle(PpuClock);
      CountCycle(ApuClock);
    }
  }

  /** Counting distributes over concatenation. */
  lemma {:induction false} CountAppend(s: seq<Clocked>, t: seq<Clocked>, u: Clocked)
    ensures Count(s + t, u) == Count(s, u) + Count(t, u)
    decreases |t|
  {
    if t != [] {
      var last := t[|t| - 1];
      assert (s + t)[..|s + t| - 1] == s + t[..|t| - 1];
      CountAppend(s, t[..|t| - 1], u);
    } else {
      assert s + t == s;
    }
  }
}
