/** Mapper 4 (MMC3): eight bank registers written through a select/data
    pair, two PRG layouts, CHR A12 inversion, mirroring control, and a
    scanline IRQ counter clocked by rising edges of PPU address bit 12.
    Bank numbers index PRG in 8 KiB units and CHR in 1 KiB units. */
module Mapper4 {
  import opened Common
  import opened Banking
  import Arith

  /** The PRG side of the bank registers: the layout bit (true: the
      second-last bank is fixed at 0x8000) and R6, R7. */
  datatype PrgBanks = PrgBanks(fix8000: bool, bank8000C000: bv8, bankA000: bv8)

  /** The CHR side: A12 inversion (true: the 2 KiB banks sit at 0x1000) and
      R0-R5. */
  datatype ChrBanks = ChrBanks(inverted: bool, r0: bv8, r1: bv8, r2: bv8, r3: bv8, r4: bv8, r5: bv8)

  /** The scanline counter: reload value, count, pending reload, enable,
      the IRQ pin, and bit 12 of the previous PPU address. */
  datatype IrqCounter = IrqCounter(latch: bv8, counter: bv8, reload: bool, enabled: bool, pin: bool, lastHigh: bool)

  datatype Mapper4 = Mapper4(
    bankSelect: bv8,
    prg: PrgBanks,
    chr: ChrBanks,
    mirroringVertical: bool,
    irq: IrqCounter,
    chrCount: bv8,
    prgCount: bv8)

  function New(): (r: Mapper4)
    ensures r.bankSelect == 0 && !r.prg.fix8000 && !r.chr.inverted && !r.mirroringVertical
    ensures r.irq == IrqCounter(0, 0, false, false, false, false)
    ensures r.prgCount == 0 && r.chrCount == 0
  {
    Mapper4(0, PrgBanks(false, 0, 0), ChrBanks(false, 0, 0, 0, 0, 0, 0), false,
            IrqCounter(0, 0, false, false, false, false), 0, 0)
  }

  /** The header's 16 KiB PRG and 8 KiB CHR counts are kept as 8 KiB and
      1 KiB units; the byte multiplications overflow (a panic) from 128 PRG
      or 32 CHR banks on. */
  function Init(m: Mapper4, prgCount: bv8, chrCount: bv8): (r: Mapper4)
    requires prgCount < 0x80 && chrCount < 0x20
    ensures r.prgCount as int == 2 * prgCount as int && r.chrCount as int == 8 * chrCount as int
    ensures r.prg == m.prg && r.chr == m.chr && r.irq == m.irq && r.bankSelect == m.bankSelect
  {
    m.(prgCount := prgCount * 2, chrCount := chrCount * 8)
  }

  /** One PPU address observed by the counter: on a 0 to 1 transition of
      bit 12, a zero counter raises the pin when the IRQ is enabled; a zero
      counter or a pending reload reloads it from the latch and clears the
      reload request; otherwise the counter counts down. */
  function ClockIrq(q: IrqCounter, address: bv16): (r: IrqCounter)
    ensures r.lastHigh <==> address & 0x1000 != 0
    ensures q.pin ==> r.pin
    ensures r.latch == q.latch && r.enabled == q.enabled
    ensures !(!q.lastHigh && address & 0x1000 != 0) ==> r == q.(lastHigh := r.lastHigh)
    ensures !q.lastHigh && address & 0x1000 != 0 ==>
              (r.pin <==> q.pin || (q.counter == 0 && q.enabled)) && !r.reload &&
              (q.counter == 0 || q.reload ==> r.counter == q.latch) &&
              (q.counter != 0 && !q.reload ==> r.counter == q.counter - 1)
  {
    var current := address & 0x1000 != 0;
    if !q.lastHigh && current then
      var pin := q.pin || (q.counter == 0 && q.enabled);
      if q.counter == 0 || q.reload then
        q.(pin := pin, reload := false, counter := q.latch, lastHigh := current)
      else
        q.(pin := pin, counter := if q.counter == 0 then 0 else q.counter - 1, lastHigh := current)
    else q.(lastHigh := current)
  }

  /** The emulator subtracts one or two from the PRG count (a byte) for the
      fixed banks, and has no case below 0x8000. */
  predicate CpuReadDefined(m: Mapper4, address: bv16)
  {
    address >= 0x8000 &&
    (address < 0xA000 && m.prg.fix8000 ==> m.prgCount >= 2) &&
    (0xC000 <= address < 0xE000 && !m.prg.fix8000 ==> m.prgCount >= 2) &&
    (address >= 0xE000 ==> m.prgCount >= 1)
  }

  /** The 8 KiB PRG bank for a CPU address: 0xE000 is always the last bank,
      0xA000 is R7, and the second-last bank sits at 0xC000 or, in the other
      PRG mode, at 0x8000, with R6 in the remaining window. */
  function PrgBankFor(m: Mapper4, address: bv16): (r: nat)
    requires CpuReadDefined(m, address)
    ensures address >= 0xE000 ==> r + 1 == m.prgCount as int
    ensures 0xA000 <= address < 0xC000 ==> r == m.prg.bankA000 as int
    ensures address < 0xA000 ==>
              r == if m.prg.fix8000 then m.prgCount as int - 2 else m.prg.bank8000C000 as int
    ensures 0xC000 <= address < 0xE000 ==>
              r == if m.prg.fix8000 then m.prg.bank8000C000 as int else m.prgCount as int - 2
  {
    if address < 0xA000 then
      (if m.prg.fix8000 then m.prgCount - 2 else m.prg.bank8000C000) as nat
    else if address < 0xC000 then m.prg.bankA000 as nat
    else if address < 0xE000 then
      (if !m.prg.fix8000 then m.prgCount - 2 else m.prg.bank8000C000) as nat
    else (m.prgCount - 1) as nat
  }

  /** Bank `bank` of `size` bytes at offset `low`. */
  function BankAt(bank: nat, size: nat, low: nat): (r: nat)
    requires low < size
    ensures r / size == bank && r % size == low
  {
    Arith.BankDecompose(bank, bank + 1, size, low);
    bank * size + low
  }

  /** The CPU offset: the window's bank at the address's offset inside its
      8 KiB window. */
  function MapCpuRead(m: Mapper4, address: bv16): (r: nat)
    requires CpuReadDefined(m, address)
    ensures r / 0x2000 == PrgBankFor(m, address)
    ensures r % 0x2000 == address as int % 0x2000
  {
    BankAt(PrgBankFor(m, address), 0x2000, Low13(address))
  }

  /** The two PRG modes swap 0x8000 and 0xC000 and leave 0xA000 and 0xE000
      alone. */
  lemma PrgModesSwap(m: Mapper4, i: bv16)
    requires i < 0x2000 && m.prgCount >= 2
    ensures var f := m.(prg := m.prg.(fix8000 := !m.prg.fix8000));
            MapCpuRead(m, 0x8000 + i) == MapCpuRead(f, 0xC000 + i) &&
            MapCpuRead(m, 0xC000 + i) == MapCpuRead(f, 0x8000 + i) &&
            MapCpuRead(m, 0xA000 + i) == MapCpuRead(f, 0xA000 + i) &&
            MapCpuRead(m, 0xE000 + i) == MapCpuRead(f, 0xE000 + i)
  {
    var f := m.(prg := m.prg.(fix8000 := !m.prg.fix8000));
    WindowsShareLow13(i);
    SwappedBanks(m, f, i);
  }

  /** The same offset inside each of the four 8 KiB windows. */
  lemma WindowsShareLow13(i: bv16)
    requires i < 0x2000
    ensures Low13(0x8000 + i) == Low13(0xC000 + i) == Low13(0xA000 + i) == Low13(0xE000 + i)
  {
  }

  lemma SwappedBanks(m: Mapper4, f: Mapper4, i: bv16)
    requires i < 0x2000 && m.prgCount >= 2 && f == m.(prg := m.prg.(fix8000 := !m.prg.fix8000))
    ensures PrgBankFor(m, 0x8000 + i) == PrgBankFor(f, 0xC000 + i)
    ensures PrgBankFor(m, 0xC000 + i) == PrgBankFor(f, 0x8000 + i)
    ensures PrgBankFor(m, 0xA000 + i) == PrgBankFor(f, 0xA000 + i)
    ensures PrgBankFor(m, 0xE000 + i) == PrgBankFor(f, 0xE000 + i)
  {
  }

  /** Whether a pattern address falls in the half with the 2 KiB banks:
      0x0000-0x0FFF normally, 0x1000-0x1FFF with A12 inversion. */
  predicate Is2k(m: Mapper4, address: bv16)
  {
    (address & 0x1000 == 0) != m.chr.inverted
  }

  /** The 1 KiB CHR bank for a pattern address: R0/R1 for the two 2 KiB
      halves of the 2 KiB side, R2-R5 for the four 1 KiB quarters of the
      other side. */
  function ChrBankFor(m: Mapper4, address: bv16): (r: bv8)
    ensures Is2k(m, address) ==> r == if address & 0x0800 == 0 then m.chr.r0 else m.chr.r1
    ensures !Is2k(m, address) ==>
              r == [m.chr.r2, m.chr.r3, m.chr.r4, m.chr.r5][(address >> 10) & 0x3]
  {
    if Is2k(m, address) then
      (if address & 0x0800 == 0 then m.chr.r0 else m.chr.r1)
    else
      var q := (address >> 10) & 0x3;
      if q == 0 then m.chr.r2
      else if q == 1 then m.chr.r3
      else if q == 2 then m.chr.r4
      else m.chr.r5
  }

  /** A PPU read first clocks the IRQ counter with the address, then maps it
      into the selected bank (the emulator asserts `bank <= chr_count`), with a
      2 KiB or 1 KiB window. */
  function MapPpuRead(m: Mapper4, address: bv16): (r: (nat, Mapper4))
    requires ChrBankFor(m, address) <= m.chrCount
    ensures r.1 == m.(irq := ClockIrq(m.irq, address))
    ensures Is2k(m, address) ==> r.0 == ChrBankFor(m, address) as int * 0x400 + address as int % 0x800
    ensures !Is2k(m, address) ==> r.0 == ChrBankFor(m, address) as int * 0x400 + address as int % 0x400
  {
    var bank := ChrBankFor(m, address) as nat;
    (bank * 0x400 + (if Is2k(m, address) then Low11(address) else Low10(address)), m.(irq := ClockIrq(m.irq, address)))
  }

  /** CHR A12 inversion swaps the pattern tables: with it, 0x1000 + i reads
      what 0x0000 + i reads without it, and the other way round. */
  lemma InversionSwapsTables(m: Mapper4, i: bv16)
    requires i < 0x1000
    ensures var f := m.(chr := m.chr.(inverted := !m.chr.inverted));
            ChrBankFor(m, i) == ChrBankFor(f, i + 0x1000) &&
            ChrBankFor(m, i + 0x1000) == ChrBankFor(f, i)
  {
    assert (i + 0x1000) & 0x0800 == i & 0x0800;
    assert ((i + 0x1000) >> 10) & 0x3 == (i >> 10) & 0x3;
    assert (i + 0x1000) & 0x1000 != 0 && i & 0x1000 == 0;
  }

  /** The data register for the selected bank register; R0 and R1 drop
      bit 0. Bank select writes keep only three bits, so the emulator's
      `unreachable!` for larger selections cannot be reached and the model
      reads the low three bits. */
  function WriteBankData(m: Mapper4, data: bv8): (r: Mapper4)
    ensures m.bankSelect & 0x7 == 0 ==> r == m.(chr := m.chr.(r0 := data & 0xFE))
    ensures m.bankSelect & 0x7 == 1 ==> r == m.(chr := m.chr.(r1 := data & 0xFE))
    ensures m.bankSelect & 0x7 == 2 ==> r == m.(chr := m.chr.(r2 := data))
    ensures m.bankSelect & 0x7 == 3 ==> r == m.(chr := m.chr.(r3 := data))
    ensures m.bankSelect & 0x7 == 4 ==> r == m.(chr := m.chr.(r4 := data))
    ensures m.bankSelect & 0x7 == 5 ==> r == m.(chr := m.chr.(r5 := data))
    ensures m.bankSelect & 0x7 == 6 ==> r == m.(prg := m.prg.(bank8000C000 := data))
    ensures m.bankSelect & 0x7 == 7 ==> r == m.(prg := m.prg.(bankA000 := data))
  {
    match m.bankSelect & 0x7
    case 0 => m.(chr := m.chr.(r0 := data & 0xFE))
    case 1 => m.(chr := m.chr.(r1 := data & 0xFE))
    case 2 => m.(chr := m.chr.(r2 := data))
    case 3 => m.(chr := m.chr.(r3 := data))
    case 4 => m.(chr := m.chr.(r4 := data))
    case 5 => m.(chr := m.chr.(r5 := data))
    case 6 => m.(prg := m.prg.(bank8000C000 := data))
    case _ => m.(prg := m.prg.(bankA000 := data))
  }

  /** CPU register writes, by 8 KiB window and address parity: bank select
      and modes / bank data; mirroring / (PRG RAM, ignored); IRQ latch /
      reload request; IRQ disable (even) / enable (odd). Addresses below
      0x8000 and PPU writes change nothing. */
  function MapWrite(m: Mapper4, address: bv16, data: bv8, device: Device): (r: Mapper4)
    ensures device == Ppu || address < 0x8000 ==> r == m
    ensures r.irq.pin == m.irq.pin && r.irq.counter == m.irq.counter && r.irq.lastHigh == m.irq.lastHigh
    ensures r.prgCount == m.prgCount && r.chrCount == m.chrCount
    ensures device == Cpu && 0x8000 <= address < 0xA000 && address & 1 == 0 ==>
              r == m.(bankSelect := data & 0x07, prg := m.prg.(fix8000 := data & 0x40 != 0),
                      chr := m.chr.(inverted := data & 0x80 != 0))
    ensures device == Cpu && 0x8000 <= address < 0xA000 && address & 1 == 1 ==>
              r == WriteBankData(m, data)
    ensures device == Cpu && 0xA000 <= address < 0xC000 ==>
              r == if address & 1 == 0 then m.(mirroringVertical := data & 1 == 0) else m
    ensures device == Cpu && 0xC000 <= address < 0xE000 ==>
              r == if address & 1 == 0 then m.(irq := m.irq.(latch := data)) else m.(irq := m.irq.(reload := true))
    ensures device == Cpu && 0xE000 <= address ==> r == m.(irq := m.irq.(enabled := address & 1 != 0))
  {
    if device == Ppu || address < 0x8000 then m
    else if address < 0xA000 then
      if address & 1 == 0 then
        m.(bankSelect := data & 0x07, prg := m.prg.(fix8000 := data & 0x40 != 0),
           chr := m.chr.(inverted := data & 0x80 != 0))
      else WriteBankData(m, data)
    else if address < 0xC000 then
      if address & 1 == 0 then m.(mirroringVertical := data & 1 == 0) else m
    else if address < 0xE000 then
      if address & 1 == 0 then m.(irq := m.irq.(latch := data)) else m.(irq := m.irq.(reload := true))
    else m.(irq := m.irq.(enabled := address & 1 != 0))
  }

  /** Selecting register k with an even write and then writing data with an
      odd write stores the data in register k. */
  lemma SelectThenWrite(m: Mapper4, k: bv8, data: bv8)
    requires k < 8
    ensures var m' := MapWrite(MapWrite(m, 0x8000, k, Cpu), 0x8001, data, Cpu);
            (k == 0 ==> m'.chr.r0 == data & 0xFE) &&
            (k == 1 ==> m'.chr.r1 == data & 0xFE) &&
            (k == 2 ==> m'.chr.r2 == data) &&
            (k == 3 ==> m'.chr.r3 == data) &&
            (k == 4 ==> m'.chr.r4 == data) &&
            (k == 5 ==> m'.chr.r5 == data) &&
            (k == 6 ==> m'.prg.bank8000C000 == data) &&
            (k == 7 ==> m'.prg.bankA000 == data)
  {
    var m1 := MapWrite(m, 0x8000, k, Cpu);
    assert m1.bankSelect & 0x7 == k;
  }

  function IsHardwiredMirrored(m: Mapper4): (r: bool)
    ensures !r
  {
    false
  }

  function NametableMirroring(m: Mapper4): (r: MirroringMode)
    ensures r == Vertical <==> m.mirroringVertical
    ensures r == Horizontal <==> !m.mirroringVertical
  {
    if m.mirroringVertical then Vertical else Horizontal
  }

  function IsIrqRequested(m: Mapper4): (r: bool)
    ensures r <==> m.irq.pin
  {
    m.irq.pin
  }

  function ClearIrqRequestPin(m: Mapper4): (r: Mapper4)
    ensures !IsIrqRequested(r) && r == m.(irq := m.irq.(pin := false))
  {
    m.(irq := m.irq.(pin := false))
  }

  /** One scanline's worth of clocking: a fetch from the lower pattern
      table followed by one from the upper, which is one rising edge of
      bit 12. */
  function Rise(q: IrqCounter): (r: IrqCounter)
    ensures r.lastHigh && !r.reload && r.latch == q.latch && r.enabled == q.enabled
    ensures r.pin <==> q.pin || (q.counter == 0 && q.enabled)
    ensures q.counter == 0 || q.reload ==> r.counter == q.latch
    ensures q.counter != 0 && !q.reload ==> r.counter as int == q.counter as int - 1
  {
    ClockIrq(ClockIrq(q, 0x0000), 0x1000)
  }

  /** `n` scanlines: the latch and enable stay, and a raised pin stays
      raised. */
  function Rises(q: IrqCounter, n: nat): (r: IrqCounter)
    ensures r.latch == q.latch && r.enabled == q.enabled
    ensures q.pin ==> r.pin
    ensures n > 0 ==> r.lastHigh && !r.reload
  {
    if n == 0 then q else Rise(Rises(q, n - 1))
  }

  /** A non-zero byte counts down without wrapping. */
  lemma Decrement(c: bv8)
    requires c != 0
    ensures (c - 1) as int == c as int - 1
  {
  }

  /** While the counter is above zero and no reload is pending, each rising
      edge counts down by one and leaves the pin, latch and enable alone. */
  lemma {:induction false} RisesCountDown(q: IrqCounter, n: nat)
    requires !q.reload && n <= q.counter as int
    ensures var q' := Rises(q, n);
            q'.counter as int == q.counter as int - n && !q'.reload &&
            q'.pin == q.pin && q'.latch == q.latch && q'.enabled == q.enabled
  {
    if n > 0 {
      RisesCountDown(q, n - 1);
      var p := Rises(q, n - 1);
      var low := ClockIrq(p, 0x0000);
      assert low.counter == p.counter && !low.lastHigh;
      Decrement(p.counter);
    }
  }

  /** With the IRQ enabled, no reload pending and the counter at c, the pin
      stays as it was for c rising edges and is raised on edge c + 1, which
      also reloads the counter from the latch. */
  lemma IrqFiresOnEdgeAfterCounter(q: IrqCounter)
    requires q.enabled && !q.reload
    ensures Rises(q, q.counter as nat).pin == q.pin
    ensures var q' := Rises(q, q.counter as nat + 1);
            q'.pin && q'.counter == q.latch
  {
    var c := q.counter as nat;
    RisesCountDown(q, c);
    var p := Rises(q, c);
    assert ClockIrq(p, 0x0000).counter == 0;
  }

  lemma {:induction false} RisesKeepPin(q: IrqCounter, n: nat)
    requires q.pin
    ensures Rises(q, n).pin
  {
    if n > 0 {
      RisesKeepPin(q, n - 1);
    }
  }

  /** Once raised, the pin stays up through any number of edges and any
      register writes; only clearing lowers it. */
  lemma PinStaysUntilCleared(m: Mapper4, n: nat, address: bv16, data: bv8, device: Device)
    requires m.irq.pin
    ensures Rises(m.irq, n).pin && MapWrite(m, address, data, device).irq.pin
    ensures !ClearIrqRequestPin(m).irq.pin
  {
    RisesKeepPin(m.irq, n);
  }
}
