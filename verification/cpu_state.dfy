/** The 6502's registers and pins, the memory it sees through its bus, and
    the operations every part of the processor shares: reset, the stack in
    page one, and interrupt entry. Arithmetic the emulator writes with plain
    `+` and `-` wraps here, as a release build does. */
module CpuState {
  import opened Common
  import opened Alu6502
  import opened Instruction

  const NMI_VECTOR_ADDRESS: bv16 := 0xFFFA
  const RESET_VECTOR_ADDRESS: bv16 := 0xFFFC
  const IRQ_VECTOR_ADDRESS: bv16 := 0xFFFE

  /** The 64 KiB the processor addresses, one byte per address. Reads have
      no side effects, as on the byte-array bus of the CPU tests. */
  type Memory = bv16 -> bv8

  function Read(mem: Memory, address: bv16): bv8
  {
    mem(address)
  }

  /** Stores one byte; every other address keeps its contents. */
  function Write(mem: Memory, address: bv16, data: bv8): (r: Memory)
    ensures Read(r, address) == data
    ensures forall a: bv16 :: a != address ==> Read(r, a) == Read(mem, a)
  {
    a => if a == address then data else mem(a)
  }

  /** A little-endian 16-bit word from its two bytes. */
  function Word(low: bv8, high: bv8): (r: bv16)
    ensures LowByte(r) == low && HighByte(r) == high
  {
    ((high as bv16) << 8) | (low as bv16)
  }

  /** Splitting a word into its bytes and joining them gives it back. */
  lemma WordOfBytes(w: bv16)
    ensures Word(LowByte(w), HighByte(w)) == w
  {
  }

  /** The word stored at `address` and the byte after it. */
  function ReadWord(mem: Memory, address: bv16): (r: bv16)
    ensures LowByte(r) == Read(mem, address) && HighByte(r) == Read(mem, address + 1)
  {
    Word(Read(mem, address), Read(mem, address + 1))
  }

  /** Two addresses share a page when their high bytes agree. */
  predicate IsOnSamePage(address1: bv16, address2: bv16)
  {
    address1 & 0xFF00 == address2 & 0xFF00
  }

  datatype Registers = Registers(pc: bv16, sp: bv8, a: bv8, x: bv8, y: bv8, status: bv8)

  /** What an instruction can change: the registers and memory. */
  datatype Core = Core(regs: Registers, mem: Memory)

  /** A fetched instruction waiting for its cycles to elapse, with the cycle
      time charged for it at fetch. */
  datatype Pending = Pending(instruction: Instruction, cycleTime: bv8)

  datatype Cpu6502 = Cpu6502(
    regs: Registers,
    nmiPin: bool,
    irqPin: bool,
    cyclesToWait: bv8,
    dmaRemaining: bv16,
    dmaAddress: bv8,
    next: Option<Pending>)

  datatype RunState =
    | DmaTransfer
    | Waiting
    | InfiniteLoop(pc: bv16)
    | StartingInterrupt
    | NormalInstructionExecution

  /** A processor fresh from construction: everything zero, nothing
      pending. */
  function New(): (r: Cpu6502)
    ensures r.regs == Registers(0, 0, 0, 0, 0, 0)
    ensures !r.nmiPin && !r.irqPin && r.cyclesToWait == 0
    ensures r.dmaRemaining == 0 && r.dmaAddress == 0 && r.next.None?
  {
    Cpu6502(Registers(0, 0, 0, 0, 0, 0), false, false, 0, 0, 0, None)
  }

  /** Reset clears the registers, pins and DMA state, sets only the
      interrupt-disable flag, puts the stack pointer at 0xFD, jumps through
      the reset vector and waits seven cycles. The pending instruction is
      left as it was. */
  function Reset(c: Cpu6502, mem: Memory): (r: Cpu6502)
    ensures r.regs.a == 0 && r.regs.x == 0 && r.regs.y == 0
    ensures r.regs.sp == 0xFD && r.regs.status == INTERRUPT_DISABLE
    ensures LowByte(r.regs.pc) == Read(mem, 0xFFFC) && HighByte(r.regs.pc) == Read(mem, 0xFFFD)
    ensures !r.nmiPin && !r.irqPin && r.cyclesToWait == 7
    ensures r.dmaRemaining == 0 && r.dmaAddress == 0 && r.next == c.next
  {
    var status := SetFlagStatus(0, INTERRUPT_DISABLE, true);
    var regs := Registers(ReadWord(mem, RESET_VECTOR_ADDRESS), 0xFD, 0, 0, 0, status);
    Cpu6502(regs, false, false, 0 + 7, 0, 0, c.next)
  }

  /** The stack lives in page one: the pointer is the low byte. */
  function StackAddress(sp: bv8): (r: bv16)
    ensures 0x0100 <= r < 0x0200
    ensures LowByte(r) == sp
  {
    0x0100 | (sp as bv16)
  }

  /** Stores at the stack pointer, then moves it down one byte, wrapping
      within page one. */
  function Push(c: Core, data: bv8): (r: Core)
    ensures r.regs == c.regs.(sp := c.regs.sp - 1)
    ensures Read(r.mem, StackAddress(c.regs.sp)) == data
    ensures forall a: bv16 :: a != StackAddress(c.regs.sp) ==> Read(r.mem, a) == Read(c.mem, a)
  {
    Core(c.regs.(sp := c.regs.sp - 1), Write(c.mem, StackAddress(c.regs.sp), data))
  }

  /** Moves the stack pointer up one byte, then reads there. */
  function Pull(c: Core): (r: (Core, bv8))
    ensures r.0.regs == c.regs.(sp := c.regs.sp + 1) && r.0.mem == c.mem
    ensures r.1 == Read(c.mem, StackAddress(c.regs.sp + 1))
  {
    var regs := c.regs.(sp := c.regs.sp + 1);
    (Core(regs, c.mem), Read(c.mem, StackAddress(regs.sp)))
  }

  /** Two pulls, low byte first, read as a little-endian word. */
  function PullWord(c: Core): (r: (Core, bv16))
    ensures r.0.regs == c.regs.(sp := c.regs.sp + 2) && r.0.mem == c.mem
    ensures r.1 == Word(Read(c.mem, StackAddress(c.regs.sp + 1)), Read(c.mem, StackAddress(c.regs.sp + 2)))
  {
    var (c1, low) := Pull(c);
    var (c2, high) := Pull(c1);
    (c2, Word(low, high))
  }

  /** A pull right after a push returns the pushed byte and restores the
      stack pointer. */
  lemma PushThenPull(c: Core, data: bv8)
    ensures Pull(Push(c, data)).1 == data
    ensures Pull(Push(c, data)).0.regs == c.regs
  {
  }

  /** Two pushes come back in the opposite order, whatever the stack
      pointer, including across the wrap from 0x00 to 0xFF. */
  lemma PushesPullInReverse(c: Core, first: bv8, second: bv8)
    ensures var pulled := Pull(Push(Push(c, first), second));
            var pulledAgain := Pull(pulled.0);
            pulled.1 == second && pulledAgain.1 == first && pulledAgain.0.regs == c.regs
  {
  }

  /** The vector an interrupt jumps through. */
  function InterruptVector(isNmi: bool): (r: bv16)
    ensures r == if isNmi then 0xFFFA else 0xFFFE
  {
    if isNmi then NMI_VECTOR_ADDRESS else IRQ_VECTOR_ADDRESS
  }

  /** The state after interrupt entry. */
  datatype Interrupted = Interrupted(cpu: Cpu6502, mem: Memory)

  /** The stack side of interrupt entry: push PCH, PCL, then the status
      with B recording whether BRK caused it. */
  function PushInterruptFrame(c: Core, isSoft: bool): (r: Core)
    ensures r.regs == c.regs.(sp := c.regs.sp - 3, status := SetFlagStatus(c.regs.status, BREAK_COMMAND, isSoft))
    ensures Read(r.mem, StackAddress(c.regs.sp)) == HighByte(c.regs.pc)
    ensures Read(r.mem, StackAddress(c.regs.sp - 1)) == LowByte(c.regs.pc)
    ensures Read(r.mem, StackAddress(c.regs.sp - 2)) == r.regs.status
    ensures forall a: bv16 :: !(0x0100 <= a < 0x0200) ==> Read(r.mem, a) == Read(c.mem, a)
  {
    var c1 := Push(c, HighByte(c.regs.pc));
    var c2 := Push(c1, LowByte(c.regs.pc));
    var status := SetFlagStatus(c2.regs.status, BREAK_COMMAND, isSoft);
    Push(Core(c2.regs.(status := status), c2.mem), status)
  }

  /** Interrupt entry: the return frame goes on the stack, the pin that was
      served is cleared, I is set, PC comes from the NMI or IRQ vector and
      seven cycles are added. The vector is read after the pushes, which
      cannot reach it. */
  function ExecuteInterrupt(c: Cpu6502, mem: Memory, isSoft: bool, isNmi: bool): (r: Interrupted)
    ensures var frame := PushInterruptFrame(Core(c.regs, mem), isSoft);
            r.mem == frame.mem &&
            r.cpu.regs.sp == c.regs.sp - 3 &&
            r.cpu.regs.a == c.regs.a && r.cpu.regs.x == c.regs.x && r.cpu.regs.y == c.regs.y
    ensures Flag(r.cpu.regs.status, INTERRUPT_DISABLE)
    ensures Flag(r.cpu.regs.status, BREAK_COMMAND) <==> isSoft
    ensures r.cpu.regs.pc == ReadWord(mem, InterruptVector(isNmi))
    ensures isNmi ==> !r.cpu.nmiPin && r.cpu.irqPin == c.irqPin
    ensures !isNmi ==> !r.cpu.irqPin && r.cpu.nmiPin == c.nmiPin
    ensures r.cpu.cyclesToWait == c.cyclesToWait + 7
    ensures r.cpu.dmaRemaining == c.dmaRemaining && r.cpu.dmaAddress == c.dmaAddress && r.cpu.next == c.next
  {
    var frame := PushInterruptFrame(Core(c.regs, mem), isSoft);
    var vector := InterruptVector(isNmi);
    var status := SetFlagStatus(frame.regs.status, INTERRUPT_DISABLE, true);
    var regs := frame.regs.(status := status, pc := ReadWord(frame.mem, vector));
    var pins := if isNmi then c.(nmiPin := false) else c.(irqPin := false);
    Interrupted(pins.(regs := regs, cyclesToWait := c.cyclesToWait + 7), frame.mem)
  }
}
