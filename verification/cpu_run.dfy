/** The processor's clock: one call to `RunNext` is one CPU cycle. A cycle
    may steal time for a DMC sample read, copy one byte of sprite memory
    during OAM DMA, enter a hardware interrupt, fetch an instruction and
    charge its time in advance, or, on the instruction's last cycle, run it
    and charge whatever its real time adds. */
module CpuRun {
  import opened Common
  import opened Alu6502
  import opened Instruction
  import opened CpuState
  import opened Addressing
  import opened Execution

  /** The requests the bus holds when a cycle starts: an address the DMC
      reader wants read, the NMI line the PPU raised, the page of an OAM
      DMA the PPU asked for, and a new level for the cartridge's IRQ line. */
  datatype BusSignals = BusSignals(
    dmcRead: Option<bv16>,
    nmiSet: bool,
    dmaPage: Option<bv8>,
    irqLevel: Option<bool>)

  /** A cycle in which the bus asks for nothing. */
  const Quiet := BusSignals(None, false, None, None)

  /** What a cycle hands to the bus: the byte read for the DMC, a byte for
      sprite memory with its OAM address, and whether the NMI, DMA and IRQ
      requests were polled, which clears them on the bus. */
  datatype BusEffects = BusEffects(dmcByte: Option<bv8>, oamWrite: Option<(bv8, bv8)>, polled: bool)

  const NoEffects := BusEffects(None, None, false)

  datatype Tick = Tick(cpu: Cpu6502, mem: Memory, state: RunState, effects: BusEffects)

  // ---------------------------------------------------------------------
  // Fetch

  datatype Fetched = Fetched(inst: Instruction, regs: Registers)

  /** The operand bytes after an opcode: none, one byte, or a
      little-endian word, by the instruction's length. */
  function OperandAt(mem: Memory, address: bv16, length: nat): (r: bv16)
    ensures length == 2 ==> r == Read(mem, address) as bv16
    ensures length == 3 ==> LowByte(r) == Read(mem, address) && HighByte(r) == Read(mem, address + 1)
    ensures length != 2 && length != 3 ==> r == 0
  {
    if length == 2 then Read(mem, address) as bv16
    else if length == 3 then ReadWord(mem, address)
    else 0
  }

  /** An instruction's length as an address offset. */
  function Size(mode: AddressingMode): (r: bv16)
    ensures 1 <= r <= 3
  {
    match mode
    case Accumulator => 1
    case Implied => 1
    case Indirect => 3
    case Absolute => 3
    case AbsoluteX => 3
    case AbsoluteY => 3
    case _ => 2
  }

  /** Reads the opcode at PC, decodes it through the table, reads the
      operand bytes that follow and moves PC past the whole instruction. */
  function Fetch(regs: Registers, mem: Memory): (r: Fetched)
    ensures IsDecoded(r.inst) && r.inst.opcodeByte == Read(mem, regs.pc)
    ensures Runnable(r.inst.opcode, r.inst.mode)
    ensures r.regs == regs.(pc := r.regs.pc)
    ensures r.regs.pc == regs.pc + Size(r.inst.mode)
    ensures r.inst.operand == OperandAt(mem, regs.pc + 1, Length(r.inst.mode))
  {
    var decoded := Decode(Read(mem, regs.pc));
    var operand := OperandAt(mem, regs.pc + 1, Length(decoded.mode));
    Fetched(Instruction(decoded.opcodeByte, operand, decoded.opcode, decoded.mode),
            regs.(pc := PastInstruction(regs.pc, decoded.mode)))
  }

  /** PC moves past the opcode, then past the operand bytes. */
  function PastInstruction(pc: bv16, mode: AddressingMode): (r: bv16)
    ensures r == pc + Size(mode)
  {
    var next := pc + 1;
    next + (Size(mode) - 1)
  }

  /** The bytes an instruction occupies in memory: its opcode byte, then
      as many operand bytes as its mode takes, low byte first. */
  function Encode(inst: Instruction): (r: seq<bv8>)
    ensures |r| == Length(inst.mode) && r[0] == inst.opcodeByte
  {
    var length := Length(inst.mode);
    if length == 1 then [inst.opcodeByte]
    else if length == 2 then [inst.opcodeByte, LowByte(inst.operand)]
    else [inst.opcodeByte, LowByte(inst.operand), HighByte(inst.operand)]
  }

  /** Whether an instruction's operand fits in the bytes its mode has. */
  predicate OperandFits(inst: Instruction)
  {
    match Length(inst.mode)
    case 1 => inst.operand == 0
    case 2 => inst.operand < 0x100
    case _ => true
  }

  /** Whether `bytes` sit in memory from `address` on. */
  predicate Holds(mem: Memory, address: bv16, bytes: seq<bv8>)
    requires |bytes| <= 3
  {
    forall k :: 0 <= k < |bytes| ==> Read(mem, address + k as bv16) == bytes[k]
  }

  /** Fetching a table instruction from where its encoding is stored gives
      it back, with PC past it. */
  lemma {:induction false} FetchDecodesEncoding(inst: Instruction, regs: Registers, mem: Memory)
    requires IsDecoded(inst) && OperandFits(inst)
    requires Holds(mem, regs.pc, Encode(inst))
    ensures Fetch(regs, mem) == Fetched(inst, regs.(pc := PastInstruction(regs.pc, inst.mode)))
  {
    var f := Fetch(regs, mem);
    FetchedOpcode(inst, regs.pc, mem);
    SameTableEntry(f.inst, inst);
    FetchedOperand(inst, regs.pc, mem);
    assert f.inst.mode == inst.mode;
    assert f.inst == inst;
  }

  /** The first stored byte is the opcode byte. */
  lemma FetchedOpcode(inst: Instruction, pc: bv16, mem: Memory)
    requires Holds(mem, pc, Encode(inst))
    ensures Read(mem, pc) == inst.opcodeByte
  {
    assert Read(mem, pc + 0 as bv16) == Encode(inst)[0];
  }

  /** Two table instructions with the same opcode byte have the same
      opcode and mode. */
  lemma SameTableEntry(a: Instruction, b: Instruction)
    requires IsDecoded(a) && IsDecoded(b) && a.opcodeByte == b.opcodeByte
    ensures a.opcode == b.opcode && a.mode == b.mode
  {
  }

  /** The operand bytes of a stored encoding read back as the operand. */
  lemma {:induction false} FetchedOperand(inst: Instruction, pc: bv16, mem: Memory)
    requires OperandFits(inst)
    requires Holds(mem, pc, Encode(inst))
    ensures OperandAt(mem, pc + 1, Length(inst.mode)) == inst.operand
  {
    var bytes := Encode(inst);
    var length := Length(inst.mode);
    if length == 2 {
      assert Read(mem, pc + 1 as bv16) == bytes[1];
      OneByteOperand(inst.operand);
    } else if length == 3 {
      assert Read(mem, pc + 1 as bv16) == bytes[1];
      assert Read(mem, pc + 2 as bv16) == bytes[2];
      assert pc + 1 + 1 == pc + 2;
      WordOfBytes(inst.operand);
      WordOfBytes(OperandAt(mem, pc + 1, length));
    }
  }

  /** An operand below 0x100 is its low byte. */
  lemma OneByteOperand(operand: bv16)
    requires operand < 0x100
    ensures LowByte(operand) as bv16 == operand
  {
  }

  // ---------------------------------------------------------------------
  // Running the pending instruction

  datatype Executed = Executed(cpu: Cpu6502, mem: Memory, state: RunState)

  /** BRK moves PC past the padding byte after its opcode and enters the
      interrupt sequence with B set. An NMI pending at that moment takes
      the entry over: the NMI vector is used and the pin is cleared. The
      entry's seven cycles stand in for the mode's two, so the wait grows
      by the decoded time plus four: the instruction's time less the
      current cycle. */
  function BreakInstruction(c: Cpu6502, mem: Memory, decodedTime: bv8): (r: Executed)
    ensures r.cpu.cyclesToWait == c.cyclesToWait + decodedTime + 4
    ensures r.cpu.next == c.next && r.cpu.dmaRemaining == c.dmaRemaining
    ensures r.state == NormalInstructionExecution
  {
    var entered := ExecuteInterrupt(PastPadding(c), mem, true, c.nmiPin);
    Executed(entered.cpu.(cyclesToWait := BreakWait(c.cyclesToWait, decodedTime)), entered.mem,
             NormalInstructionExecution)
  }

  /** The processor with PC past the byte that follows BRK. */
  function PastPadding(c: Cpu6502): (r: Cpu6502)
    ensures r.next == c.next && r.dmaRemaining == c.dmaRemaining && r.nmiPin == c.nmiPin && r.irqPin == c.irqPin
    ensures r.regs.pc == c.regs.pc + 1 && r.regs.sp == c.regs.sp
  {
    c.(regs := c.regs.(pc := c.regs.pc + 1))
  }

  /** The wait after BRK: interrupt entry adds seven cycles, BRK takes two
      back, and the decoded time less the current cycle is added. */
  function BreakWait(before: bv8, decodedTime: bv8): (r: bv8)
    ensures r == before + decodedTime + 4
  {
    before + 7 - 2 + (decodedTime - 1)
  }

  /** The whole time an instruction takes: what `Step` reports, and for
      BRK the interrupt entry's seven cycles in place of the mode's two. */
  function InstructionTime(inst: Instruction, c: Core): (r: bv8)
    requires Runnable(inst.opcode, inst.mode)
    ensures Estimate(inst, c) <= r <= 11
  {
    if inst.opcode == Brk then BreakTime(DecodeOperand(inst, c.regs, c.mem).cycleTime)
    else Step(inst, c).cycleTime
  }

  /** BRK's time: its mode's decoded time, two cycles, stands in for the
      seven of interrupt entry. */
  function BreakTime(decodedTime: bv8): (r: bv8)
    ensures r == decodedTime - 2 + 7
  {
    decodedTime + 5
  }

  /** Runs one instruction and adds its time, less the current cycle, to
      the wait. */
  function RunInstruction(c: Cpu6502, mem: Memory, inst: Instruction): (r: Executed)
    requires Runnable(inst.opcode, inst.mode)
    ensures r.cpu.next == c.next && r.cpu.dmaRemaining == c.dmaRemaining
    ensures inst.opcode == Brk ==> r.state == NormalInstructionExecution
  {
    var decodedTime := DecodeOperand(inst, c.regs, mem).cycleTime;
    if inst.opcode == Brk then BreakInstruction(c, mem, decodedTime)
    else AfterStep(c, Step(inst, Core(c.regs, mem)))
  }

  /** Running an instruction adds its whole time, less the current
      cycle, to the wait. */
  lemma RunInstructionWait(c: Cpu6502, mem: Memory, inst: Instruction)
    requires Runnable(inst.opcode, inst.mode)
    ensures RunInstruction(c, mem, inst).cpu.cyclesToWait == c.cyclesToWait + InstructionTime(inst, Core(c.regs, mem)) - 1
  {
    if inst.opcode == Brk {
      BreakCharged(c, mem, inst);
    } else {
      StepCharged(c, mem, inst);
    }
  }

  /** BRK's part of `RunInstructionWait`. */
  lemma BreakCharged(c: Cpu6502, mem: Memory, inst: Instruction)
    requires Runnable(inst.opcode, inst.mode) && inst.opcode == Brk
    ensures RunInstruction(c, mem, inst).cpu.cyclesToWait == c.cyclesToWait + InstructionTime(inst, Core(c.regs, mem)) - 1
  {
    var decodedTime := DecodeOperand(inst, c.regs, mem).cycleTime;
    BreakRuns(c, mem, inst);
    BreakTimed(c, mem, inst);
    LessTheCurrentCycle(c.cyclesToWait, decodedTime);
  }

  lemma BreakRuns(c: Cpu6502, mem: Memory, inst: Instruction)
    requires Runnable(inst.opcode, inst.mode) && inst.opcode == Brk
    ensures RunInstruction(c, mem, inst) == BreakInstruction(c, mem, DecodeOperand(inst, c.regs, mem).cycleTime)
  {
  }

  lemma BreakTimed(c: Cpu6502, mem: Memory, inst: Instruction)
    requires Runnable(inst.opcode, inst.mode) && inst.opcode == Brk
    ensures InstructionTime(inst, Core(c.regs, mem)) == BreakTime(DecodeOperand(inst, c.regs, mem).cycleTime)
  {
  }

  /** BRK's wait is its time less this cycle. */
  lemma LessTheCurrentCycle(before: bv8, decodedTime: bv8)
    ensures before + decodedTime + 4 == before + BreakTime(decodedTime) - 1
  {
  }

  /** The other instructions' part of `RunInstructionWait`. */
  lemma StepCharged(c: Cpu6502, mem: Memory, inst: Instruction)
    requires Runnable(inst.opcode, inst.mode) && inst.opcode != Brk
    ensures RunInstruction(c, mem, inst).cpu.cyclesToWait == c.cyclesToWait + InstructionTime(inst, Core(c.regs, mem)) - 1
  {
  }

  /** Running an instruction leaves the pending slot and the DMA count
      alone. */
  lemma RunInstructionFrame(c: Cpu6502, mem: Memory, inst: Instruction)
    requires Runnable(inst.opcode, inst.mode)
    ensures var r := RunInstruction(c, mem, inst);
            r.cpu.next == c.next && r.cpu.dmaRemaining == c.dmaRemaining
  {
  }

  /** The processor after an instruction other than BRK: its registers
      and memory, and its time less the current cycle added to the wait. */
  function AfterStep(c: Cpu6502, o: Outcome): (r: Executed)
    ensures r.cpu.cyclesToWait == c.cyclesToWait + o.cycleTime - 1
    ensures r.cpu.next == c.next && r.cpu.dmaRemaining == c.dmaRemaining
    ensures r.cpu.regs == o.core.regs && r.mem == o.core.mem && r.state == o.state
  {
    Executed(c.(regs := o.core.regs, cyclesToWait := c.cyclesToWait + (o.cycleTime - 1)), o.core.mem, o.state)
  }

  // ---------------------------------------------------------------------
  // One cycle

  /** A DMC sample read: the byte at the requested address goes to the
      APU and three cycles are stolen from the processor. */
  function DmcSteal(c: Cpu6502, mem: Memory, request: Option<bv16>): (r: (Cpu6502, Option<bv8>))
    ensures request.None? ==> r == (c, None)
    ensures request.Some? ==> r.1 == Some(Read(mem, request.value))
    ensures request.Some? ==> r.0 == c.(cyclesToWait := c.cyclesToWait + 3)
  {
    match request
    case None => (c, None)
    case Some(address) => (c.(cyclesToWait := c.cyclesToWait + 3), Some(Read(mem, address)))
  }

  /** The OAM address of the next DMA byte when `remaining` bytes are left
      after it: the copy runs through sprite memory from 0x00 up. */
  function DmaOffset(remaining: bv16): (r: bv8)
    ensures remaining < 256 ==> r as int + remaining as int == 255
  {
    LowByte(255 - remaining)
  }

  /** One DMA cycle: a byte of the source page goes to sprite memory and
      the next cycle is spent waiting. */
  function DmaStep(c: Cpu6502, mem: Memory): (r: Tick)
    requires c.dmaRemaining > 0
    ensures r.cpu == c.(dmaRemaining := c.dmaRemaining - 1, cyclesToWait := 1)
    ensures r.mem == mem && r.state == DmaTransfer
  {
    var remaining := c.dmaRemaining - 1;
    var offset := DmaOffset(remaining);
    var data := Read(mem, Word(offset, c.dmaAddress));
    Tick(c.(dmaRemaining := remaining, cyclesToWait := 1), mem, DmaTransfer, BusEffects(None, Some((offset, data)), false))
  }

  /** Whether the processor takes an interrupt at an instruction boundary:
      a pending NMI always, a pending IRQ only while I is clear. */
  function InterruptDue(c: Cpu6502): (r: bool)
    ensures c.nmiPin ==> r
    ensures !c.nmiPin && Flag(c.regs.status, INTERRUPT_DISABLE) ==> !r
    ensures !c.nmiPin && !Flag(c.regs.status, INTERRUPT_DISABLE) ==> (r <==> c.irqPin)
  {
    c.nmiPin || (c.irqPin && !Flag(c.regs.status, INTERRUPT_DISABLE))
  }

  /** Takes the bus's requests before a fetch: a raised NMI line, an OAM
      DMA of 256 bytes from the given page, and a new IRQ level. They are
      served only after the instruction fetched now. */
  function Poll(c: Cpu6502, s: BusSignals): (r: Cpu6502)
    ensures r.regs == c.regs && r.cyclesToWait == c.cyclesToWait && r.next == c.next
    ensures r.nmiPin <==> c.nmiPin || s.nmiSet
    ensures s.dmaPage.Some? ==> r.dmaAddress == s.dmaPage.value && r.dmaRemaining == 256
    ensures s.dmaPage.None? ==> r.dmaAddress == c.dmaAddress && r.dmaRemaining == c.dmaRemaining
    ensures r.irqPin == if s.irqLevel.Some? then s.irqLevel.value else c.irqPin
  {
    var nmi := if s.nmiSet then c.(nmiPin := true) else c;
    var dma := match s.dmaPage
      case Some(page) => nmi.(dmaAddress := page, dmaRemaining := 256)
      case None => nmi;
    match s.irqLevel
    case Some(level) => dma.(irqPin := level)
    case None => dma
  }

  /** A fetch cycle: poll the bus, fetch, and wait the fetched
      instruction's estimated time less this cycle. */
  function FetchStep(c: Cpu6502, mem: Memory, s: BusSignals): (r: Tick)
    requires c.cyclesToWait == 0
    ensures var f := Fetch(c.regs, mem);
            var charged := Estimate(f.inst, Core(f.regs, mem));
            r.cpu.regs == f.regs && r.cpu.next == Some(Pending(f.inst, charged)) &&
            r.cpu.cyclesToWait == charged - 1
    ensures r.cpu.cyclesToWait >= 1 && r.state == Waiting && r.mem == mem && r.effects.polled
    ensures Valid(r.cpu, r.mem)
  {
    var polled := Poll(c, s);
    var f := Fetch(polled.regs, mem);
    var charged := Estimate(f.inst, Core(f.regs, mem));
    Tick(polled.(regs := f.regs, cyclesToWait := polled.cyclesToWait + (charged - 1), next := Some(Pending(f.inst, charged))),
         mem, Waiting, BusEffects(None, None, true))
  }

  /** The last cycle of an instruction: run it, then take back what was
      charged at fetch beyond this cycle. */
  function ExecuteStep(c: Cpu6502, mem: Memory, p: Pending): (r: Tick)
    requires Runnable(p.instruction.opcode, p.instruction.mode)
    ensures r.cpu.next.None? && r.effects == NoEffects
  {
    RunInstructionFrame(c.(cyclesToWait := 0, next := None), mem, p.instruction);
    var e := RunInstruction(c.(cyclesToWait := 0, next := None), mem, p.instruction);
    Tick(e.cpu.(cyclesToWait := e.cpu.cyclesToWait - (p.cycleTime - 1)), e.mem, e.state, NoEffects)
  }

  /** Whether the pending instruction is one the executor runs, as every
      instruction the fetch stage decodes is. */
  predicate PendingRunnable(c: Cpu6502)
  {
    c.next.Some? ==> Runnable(c.next.value.instruction.opcode, c.next.value.instruction.mode)
  }

  /** One processor cycle: a DMC read steals its cycles first, then the
      cycle is served. */
  function RunNext(c: Cpu6502, mem: Memory, s: BusSignals): (r: Tick)
    requires PendingRunnable(c)
    ensures r.effects.dmcByte == if s.dmcRead.Some? then Some(Read(mem, s.dmcRead.value)) else None
    ensures PendingRunnable(r.cpu)
  {
    var (stolen, dmcByte) := DmcSteal(c, mem, s.dmcRead);
    var t := Serve(stolen, mem, s);
    t.(effects := t.effects.(dmcByte := dmcByte))
  }

  /** The rest of a cycle: with nothing to wait for and nothing pending,
      a DMA byte, an interrupt entry or a fetch, in that order of
      precedence; on the last waiting cycle of a pending instruction, its
      execution; otherwise one cycle less to wait. */
  function Serve(c: Cpu6502, mem: Memory, s: BusSignals): (r: Tick)
    requires PendingRunnable(c)
    ensures PendingRunnable(r.cpu) && r.effects.dmcByte.None?
  {
    if c.cyclesToWait == 0 && c.next.None? then
      if c.dmaRemaining > 0 then DmaStep(c, mem)
      else if InterruptDue(c) then
        var entered := ExecuteInterrupt(c, mem, false, c.nmiPin);
        Tick(entered.cpu, entered.mem, StartingInterrupt, NoEffects)
      else FetchStep(c, mem, s)
    else if c.cyclesToWait == 1 && c.next.Some? then ExecuteStep(c, mem, c.next.value)
    else Tick(c.(cyclesToWait := c.cyclesToWait - 1), mem, Waiting, NoEffects)
  }

  // ---------------------------------------------------------------------
  // Properties of the clock

  /** At an instruction boundary with no DMA left and no DMC read, the
      cycle enters an interrupt exactly when one is due; otherwise it
      fetches, and only then are the bus's requests taken. */
  lemma InterruptGating(c: Cpu6502, mem: Memory, s: BusSignals)
    requires PendingRunnable(c)
    requires c.cyclesToWait == 0 && c.next.None? && c.dmaRemaining == 0 && s.dmcRead.None?
    ensures RunNext(c, mem, s).state == StartingInterrupt <==> InterruptDue(c)
    ensures RunNext(c, mem, s).effects.polled <==> !InterruptDue(c)
  {
  }

  /** An IRQ while I is set and no NMI is pending is not taken: the cycle
      fetches the next instruction instead. */
  lemma MaskedIrqWaits(c: Cpu6502, mem: Memory, s: BusSignals)
    requires PendingRunnable(c)
    requires c.cyclesToWait == 0 && c.next.None? && c.dmaRemaining == 0 && s.dmcRead.None?
    requires !c.nmiPin && Flag(c.regs.status, INTERRUPT_DISABLE)
    ensures RunNext(c, mem, s).state == Waiting && RunNext(c, mem, s).cpu.next.Some?
  {
  }

  /** Hardware interrupt entry pushes the interrupted PC with B clear and
      takes the NMI vector whenever an NMI is pending, even with an IRQ
      pending too. */
  lemma {:induction false} HardwareInterruptEntry(c: Cpu6502, mem: Memory, s: BusSignals)
    requires PendingRunnable(c)
    requires c.cyclesToWait == 0 && c.next.None? && c.dmaRemaining == 0 && s.dmcRead.None?
    requires InterruptDue(c)
    ensures var r := RunNext(c, mem, s);
            r.cpu.regs.pc == ReadWord(mem, InterruptVector(c.nmiPin)) &&
            !Flag(r.cpu.regs.status, BREAK_COMMAND) && r.cpu.cyclesToWait == 7 &&
            !r.effects.polled
  {
    var entered := ExecuteInterrupt(c, mem, false, c.nmiPin);
    assert RunNext(c, mem, s).cpu == entered.cpu;
  }

  /** The state the clock keeps between cycles: an instruction is pending
      only with at least one cycle left to wait, it came from the table,
      and what was charged for it is its estimate against the registers
      and memory it will run on. */
  predicate Valid(c: Cpu6502, mem: Memory)
  {
    c.next.Some? ==>
      Runnable(c.next.value.instruction.opcode, c.next.value.instruction.mode) && c.cyclesToWait >= 1 &&
      c.next.value.cycleTime == Estimate(c.next.value.instruction, Core(c.regs, mem))
  }

  /** Every cycle keeps `Valid`, as long as the three cycles a DMC read
      steals do not wrap the wait around. */
  lemma {:induction false} RunNextKeepsValid(c: Cpu6502, mem: Memory, s: BusSignals)
    requires Valid(c, mem) && c.cyclesToWait < 253
    ensures PendingRunnable(c) && Valid(RunNext(c, mem, s).cpu, RunNext(c, mem, s).mem)
  {
    var (stolen, _) := DmcSteal(c, mem, s.dmcRead);
    assert Valid(stolen, mem) by { assert stolen.cyclesToWait >= c.cyclesToWait; }
    ServeKeepsValid(stolen, mem, s);
    assert RunNext(c, mem, s).cpu == Serve(stolen, mem, s).cpu;
  }

  /** Serving a cycle keeps `Valid`. */
  lemma {:induction false} ServeKeepsValid(c: Cpu6502, mem: Memory, s: BusSignals)
    requires Valid(c, mem)
    ensures PendingRunnable(c) && Valid(Serve(c, mem, s).cpu, Serve(c, mem, s).mem)
  {
    var r := Serve(c, mem, s);
    if c.cyclesToWait == 0 && c.next.None? {
      assert r.cpu.next.Some? ==> r == FetchStep(c, mem, s);
    } else if !(c.cyclesToWait == 1 && c.next.Some?) {
      assert r.cpu == c.(cyclesToWait := c.cyclesToWait - 1) && r.mem == mem;
    }
  }

  /** On an instruction's last cycle the wait left over is its whole time
      less what was charged at fetch, never negative: the estimate never
      exceeds the time the instruction takes. */
  lemma {:induction false} NoWaitUnderflow(c: Cpu6502, mem: Memory, s: BusSignals)
    requires Valid(c, mem) && c.cyclesToWait == 1 && c.next.Some? && s.dmcRead.None?
    ensures var p := c.next.value;
            var time := InstructionTime(p.instruction, Core(c.regs, mem));
            var r := RunNext(c, mem, s);
            p.cycleTime <= time && r.cpu.cyclesToWait == time - p.cycleTime && r.cpu.next.None?
  {
    var p := c.next.value;
    RunInstructionWait(c.(cyclesToWait := 0, next := None), mem, p.instruction);
    var e := RunInstruction(c.(cyclesToWait := 0, next := None), mem, p.instruction);
    assert RunNext(c, mem, s).cpu == e.cpu.(cyclesToWait := e.cpu.cyclesToWait - (p.cycleTime - 1));
  }

  /** BRK enters through the NMI vector when an NMI is pending and
      through the IRQ vector otherwise, clearing the pin of the vector it
      took, and sets both I and B. */
  lemma {:induction false} BrkEntry(c: Cpu6502, mem: Memory, decodedTime: bv8)
    ensures var r := BreakInstruction(c, mem, decodedTime);
            r.cpu.regs.pc == ReadWord(mem, InterruptVector(c.nmiPin)) &&
            Flag(r.cpu.regs.status, INTERRUPT_DISABLE) && Flag(r.cpu.regs.status, BREAK_COMMAND) &&
            !r.cpu.nmiPin && (c.nmiPin ==> r.cpu.irqPin == c.irqPin) && (!c.nmiPin ==> !r.cpu.irqPin)
  {
  }

  /** BRK's return address skips the byte after the opcode: it is the
      fetched PC plus one. */
  lemma {:induction false} BrkReturnAddress(c: Cpu6502, mem: Memory, decodedTime: bv8)
    ensures var r := BreakInstruction(c, mem, decodedTime);
            var sp := r.cpu.regs.sp;
            sp + 3 == c.regs.sp &&
            Read(r.mem, StackAddress(sp + 2)) == LowByte(c.regs.pc + 1) &&
            Read(r.mem, StackAddress(sp + 3)) == HighByte(c.regs.pc + 1)
  {
    InterruptStackFrame(PastPadding(c), mem, true, c.nmiPin);
  }

  // ---------------------------------------------------------------------
  // OAM DMA
  //
  // While a DMA runs and nothing is pending, every cycle is either a byte
  // cycle or a wait: `RunNextInDma` shows that `RunNext` is then exactly
  // `DmaCycle`, and the whole transfer is followed through `DmaCycle`.

  /** Whether a cycle belongs to a DMA transfer: nothing pending, and a
      wait or a byte left to copy. */
  predicate InDma(c: Cpu6502)
  {
    c.next.None? && (c.cyclesToWait > 0 || c.dmaRemaining > 0)
  }

  /** A DMA cycle: a byte when there is nothing to wait for, otherwise one
      cycle less to wait. */
  function DmaCycle(c: Cpu6502, mem: Memory): (r: Tick)
    requires InDma(c)
    ensures r.cpu.next.None? && r.mem == mem && r.effects.dmcByte.None?
    ensures c.cyclesToWait == 0 ==> r.cpu.dmaRemaining == c.dmaRemaining - 1 && r.cpu.cyclesToWait == 1
    ensures c.cyclesToWait > 0 ==> r.cpu == c.(cyclesToWait := c.cyclesToWait - 1) && r.effects.oamWrite.None?
  {
    if c.cyclesToWait == 0 then DmaStep(c, mem)
    else Tick(c.(cyclesToWait := c.cyclesToWait - 1), mem, Waiting, NoEffects)
  }

  /** On a quiet cycle during a DMA the processor does exactly what
      `DmaCycle` does: no fetch, no interrupt entry and no execution. */
  lemma {:induction false} RunNextInDma(c: Cpu6502, mem: Memory)
    requires InDma(c)
    ensures RunNext(c, mem, Quiet) == DmaCycle(c, mem)
  {
  }

  /** A byte cycle copies the page's byte at the next offset to the same
      offset of sprite memory: with `remaining` bytes left before it, the
      offset is 0x100 less that count, so a full page starts at 0x00. */
  lemma {:induction false} DmaCopiesNextByte(c: Cpu6502, mem: Memory, remaining: bv16)
    requires c.next.None? && remaining > 0
    ensures var offset := LowByte(0x100 - remaining);
            var write := (offset, Read(mem, Word(offset, c.dmaAddress)));
            DmaCycle(DmaFrom(c, remaining), mem) == Tick(DmaWaiting(c, remaining), mem, DmaTransfer, BusEffects(None, Some(write), false))
  {
    NextDmaOffsetIs(remaining);
  }

  /** The offset `DmaStep` computes after counting the byte down is 0x100
      less the count before. */
  lemma NextDmaOffsetIs(remaining: bv16)
    ensures DmaOffset(remaining - 1) == LowByte(0x100 - remaining)
  {
  }

  /** The sprite-memory writes of a DMA from `c` to its end, in order. */
  function DmaWrites(c: Cpu6502, mem: Memory): seq<(bv8, bv8)>
    requires c.next.None?
    decreases c.dmaRemaining, c.cyclesToWait
  {
    if !InDma(c) then []
    else
      var r := DmaCycle(c, mem);
      (if r.effects.oamWrite.Some? then [r.effects.oamWrite.value] else []) + DmaWrites(r.cpu, r.mem)
  }

  /** The number of cycles a DMA from `c` takes to its end. */
  function DmaLength(c: Cpu6502, mem: Memory): nat
    requires c.next.None?
    decreases c.dmaRemaining, c.cyclesToWait
  {
    if !InDma(c) then 0
    else
      var r := DmaCycle(c, mem);
      1 + DmaLength(r.cpu, r.mem)
  }

  /** Two cycles for every byte left. */
  function DmaTicks(remaining: bv16): nat
    decreases remaining
  {
    if remaining == 0 then 0 else 2 + DmaTicks(remaining - 1)
  }

  /** The bytes a DMA with `remaining` bytes left copies, in order: each
      offset of the page from 0x100 less the count up to 0xFF, each to the
      same offset in sprite memory. */
  function DmaBytes(mem: Memory, page: bv8, remaining: bv16): seq<(bv8, bv8)>
    decreases remaining
  {
    if remaining == 0 then []
    else
      var offset := LowByte(0x100 - remaining);
      [(offset, Read(mem, Word(offset, page)))] + DmaBytes(mem, page, remaining - 1)
  }

  /** `c` at the start of a byte with `remaining` bytes left. */
  function DmaFrom(c: Cpu6502, remaining: bv16): (r: Cpu6502)
    ensures r.dmaRemaining == remaining && r.cyclesToWait == 0
    ensures r.next == c.next && r.dmaAddress == c.dmaAddress
  {
    c.(dmaRemaining := remaining, cyclesToWait := 0)
  }

  /** The two cycles of a DMA byte write it and nothing else. */
  lemma {:induction false} DmaByteCycles(c: Cpu6502, mem: Memory, remaining: bv16)
    requires c.next.None? && remaining > 0
    ensures var offset := LowByte(0x100 - remaining);
            DmaWrites(DmaFrom(c, remaining), mem) ==
              [(offset, Read(mem, Word(offset, c.dmaAddress)))] + DmaWrites(DmaFrom(c, remaining - 1), mem)
  {
    DmaByteCycle(c, mem, remaining);
    DmaWaitCycle(c, mem, remaining);
  }

  /** And they take two cycles. */
  lemma {:induction false} DmaByteLength(c: Cpu6502, mem: Memory, remaining: bv16)
    requires c.next.None? && remaining > 0
    ensures DmaLength(DmaFrom(c, remaining), mem) == 2 + DmaLength(DmaFrom(c, remaining - 1), mem)
  {
    DmaByteCycleLength(c, mem, remaining);
    DmaWaitCycle(c, mem, remaining);
  }

  /** `c` waiting after a byte, with `remaining` bytes left before it. */
  function DmaWaiting(c: Cpu6502, remaining: bv16): (r: Cpu6502)
    ensures r.dmaRemaining == remaining - 1 && r.cyclesToWait == 1
    ensures r.next == c.next && r.dmaAddress == c.dmaAddress
  {
    c.(dmaRemaining := remaining - 1, cyclesToWait := 1)
  }

  /** The byte cycle writes the byte. */
  lemma {:induction false} DmaByteCycle(c: Cpu6502, mem: Memory, remaining: bv16)
    requires c.next.None? && remaining > 0
    ensures var offset := LowByte(0x100 - remaining);
            DmaWrites(DmaFrom(c, remaining), mem) ==
              [(offset, Read(mem, Word(offset, c.dmaAddress)))] + DmaWrites(DmaWaiting(c, remaining), mem)
  {
    DmaCopiesNextByte(c, mem, remaining);
  }

  /** The byte cycle is one cycle. */
  lemma {:induction false} DmaByteCycleLength(c: Cpu6502, mem: Memory, remaining: bv16)
    requires c.next.None? && remaining > 0
    ensures DmaLength(DmaFrom(c, remaining), mem) == 1 + DmaLength(DmaWaiting(c, remaining), mem)
  {
    DmaCopiesNextByte(c, mem, remaining);
  }

  /** The wait cycle after it writes nothing. */
  lemma {:induction false} DmaWaitCycle(c: Cpu6502, mem: Memory, remaining: bv16)
    requires c.next.None?
    ensures DmaWrites(DmaWaiting(c, remaining), mem) == DmaWrites(DmaFrom(c, remaining - 1), mem)
    ensures DmaLength(DmaWaiting(c, remaining), mem) == 1 + DmaLength(DmaFrom(c, remaining - 1), mem)
  {
    assert DmaCycle(DmaWaiting(c, remaining), mem).cpu == DmaFrom(c, remaining - 1);
  }

  /** An OAM DMA copies the bytes it has left in order. */
  lemma {:induction false} DmaCopiesPage(c: Cpu6502, mem: Memory)
    requires c.next.None? && c.cyclesToWait == 0
    ensures DmaWrites(c, mem) == DmaBytes(mem, c.dmaAddress, c.dmaRemaining)
  {
    DmaCopiesFrom(c, mem, c.dmaRemaining);
    assert DmaFrom(c, c.dmaRemaining) == c;
  }

  /** `DmaCopiesPage` for every count of bytes left. */
  lemma {:induction false} DmaCopiesFrom(c: Cpu6502, mem: Memory, remaining: bv16)
    requires c.next.None?
    ensures DmaWrites(DmaFrom(c, remaining), mem) == DmaBytes(mem, c.dmaAddress, remaining)
    decreases remaining
  {
    if remaining > 0 {
      DmaCopiesFrom(c, mem, remaining - 1);
      CopiesOneMore(c, mem, remaining);
    }
  }

  /** The induction step of `DmaCopiesFrom`. */
  lemma {:induction false} CopiesOneMore(c: Cpu6502, mem: Memory, remaining: bv16)
    requires c.next.None? && remaining > 0
    requires DmaWrites(DmaFrom(c, remaining - 1), mem) == DmaBytes(mem, c.dmaAddress, remaining - 1)
    ensures DmaWrites(DmaFrom(c, remaining), mem) == DmaBytes(mem, c.dmaAddress, remaining)
  {
    DmaByteCycles(c, mem, remaining);
    DmaBytesStep(mem, c.dmaAddress, remaining);
  }

  /** A DMA's bytes are its next byte, then the bytes after it. */
  lemma DmaBytesStep(mem: Memory, page: bv8, remaining: bv16)
    requires remaining > 0
    ensures var offset := LowByte(0x100 - remaining);
            DmaBytes(mem, page, remaining) == [(offset, Read(mem, Word(offset, page)))] + DmaBytes(mem, page, remaining - 1)
  {
  }

  /** An OAM DMA takes two cycles per byte. */
  lemma {:induction false} DmaTakesTwoCyclesPerByte(c: Cpu6502, mem: Memory)
    requires c.next.None? && c.cyclesToWait == 0
    ensures DmaLength(c, mem) == DmaTicks(c.dmaRemaining)
  {
    DmaTimeFrom(c, mem, c.dmaRemaining);
    assert DmaFrom(c, c.dmaRemaining) == c;
  }

  /** `DmaTakesTwoCyclesPerByte` for every count of bytes left. */
  lemma {:induction false} DmaTimeFrom(c: Cpu6502, mem: Memory, remaining: bv16)
    requires c.next.None?
    ensures DmaLength(DmaFrom(c, remaining), mem) == DmaTicks(remaining)
    decreases remaining
  {
    if remaining > 0 {
      DmaTimeFrom(c, mem, remaining - 1);
      TakesTwoMore(c, mem, remaining);
    }
  }

  /** The induction step of `DmaTimeFrom`. */
  lemma {:induction false} TakesTwoMore(c: Cpu6502, mem: Memory, remaining: bv16)
    requires c.next.None? && remaining > 0
    requires DmaLength(DmaFrom(c, remaining - 1), mem) == DmaTicks(remaining - 1)
    ensures DmaLength(DmaFrom(c, remaining), mem) == DmaTicks(remaining)
  {
    DmaByteLength(c, mem, remaining);
  }

  /** The offset of the first byte left. */
  lemma FirstDmaOffset(mem: Memory, page: bv8, remaining: bv16)
    requires remaining != 0
    ensures DmaBytes(mem, page, remaining) != []
    ensures DmaBytes(mem, page, remaining)[0].0 == LowByte(0x100 - remaining)
  {
  }

  /** Every byte a DMA copies comes from the page at the offset it is
      written to. */
  lemma {:induction false} DmaCopiesInPlace(mem: Memory, page: bv8, remaining: bv16, k: nat)
    requires k < |DmaBytes(mem, page, remaining)|
    ensures var e := DmaBytes(mem, page, remaining)[k];
            e.1 == Read(mem, Word(e.0, page))
    decreases remaining
  {
    if k > 0 {
      DmaCopiesInPlace(mem, page, remaining - 1, k - 1);
    }
  }

  /** Each offset a DMA copies is one past the offset before it. */
  lemma {:induction false} DmaOffsetsRise(mem: Memory, page: bv8, remaining: bv16, k: nat)
    requires 0 < k < |DmaBytes(mem, page, remaining)|
    ensures var r := DmaBytes(mem, page, remaining);
            r[k].0 == r[k - 1].0 + 1
    decreases remaining
  {
    if k == 1 {
      FirstDmaOffset(mem, page, remaining - 1);
      NextDmaOffset(remaining);
    } else {
      DmaOffsetsRise(mem, page, remaining - 1, k - 1);
    }
  }

  /** The last offset a DMA copies is 0xFF, the end of sprite memory. */
  lemma {:induction false} DmaEndsAtLastOffset(mem: Memory, page: bv8, remaining: bv16)
    requires DmaBytes(mem, page, remaining) != []
    ensures var r := DmaBytes(mem, page, remaining);
            r[|r| - 1].0 == 0xFF
    decreases remaining
  {
    if DmaBytes(mem, page, remaining - 1) == [] {
      LastDmaOffset(remaining);
    } else {
      DmaEndsAtLastOffset(mem, page, remaining - 1);
    }
  }

  /** Offsets of consecutive bytes differ by one. */
  lemma NextDmaOffset(remaining: bv16)
    requires remaining != 0
    ensures LowByte(0x100 - (remaining - 1)) == LowByte(0x100 - remaining) + 1
  {
  }

  /** The last byte left has offset 0xFF. */
  lemma LastDmaOffset(remaining: bv16)
    requires remaining != 0 && remaining - 1 == 0
    ensures LowByte(0x100 - remaining) == 0xFF
  {
  }

  // ---------------------------------------------------------------------
  // Save state

  /** Everything a save state records about the processor: all of it but
      the bus. */
  datatype SavedCpu = SavedCpu(
    pc: bv16, sp: bv8, a: bv8, x: bv8, y: bv8, status: bv8,
    nmiPin: bool, irqPin: bool, cyclesToWait: bv8,
    dmaRemaining: bv16, dmaAddress: bv8, next: Option<Pending>)

  function SaveCpu(c: Cpu6502): (r: SavedCpu)
    ensures r.pc == c.regs.pc && r.next == c.next && r.cyclesToWait == c.cyclesToWait
  {
    SavedCpu(c.regs.pc, c.regs.sp, c.regs.a, c.regs.x, c.regs.y, c.regs.status,
             c.nmiPin, c.irqPin, c.cyclesToWait, c.dmaRemaining, c.dmaAddress, c.next)
  }

  function LoadCpu(saved: SavedCpu): (r: Cpu6502)
    ensures r.regs.pc == saved.pc && r.next == saved.next && r.cyclesToWait == saved.cyclesToWait
  {
    Cpu6502(Registers(saved.pc, saved.sp, saved.a, saved.x, saved.y, saved.status),
            saved.nmiPin, saved.irqPin, saved.cyclesToWait, saved.dmaRemaining, saved.dmaAddress, saved.next)
  }

  /** Loading a saved processor restores it exactly, and saving a loaded
      record gives the record back. */
  lemma SaveLoadRoundTrip(c: Cpu6502, saved: SavedCpu)
    ensures LoadCpu(SaveCpu(c)) == c
    ensures SaveCpu(LoadCpu(saved)) == saved
  {
  }
}
