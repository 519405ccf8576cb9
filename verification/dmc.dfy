/** The APU delta-modulation channel: it fetches sample bytes through the
    CPU (one request at a time), shifts them out bit by bit, and moves a
    7-bit output level up or down by 2 per bit. */
module Dmc {

  import ChannelTimer
  import opened Common

  /** Rates in CPU clocks (NTSC), indexed by the low four bits of the rate register. */
  const Rates: seq<nat> := [
    428, 380, 340, 320, 286, 254, 226, 214, 190, 160, 142, 128, 106, 84, 72, 54
  ]

  datatype Dmc = Dmc(
    timer: ChannelTimer.Timer,
    samplesAddress: bv16,
    samplesLength: nat,
    addressCounter: bv16,
    remaining: nat,
    buffer: bv8,
    bufferEmpty: bool,
    shiftRegister: bv8,
    bitsRemaining: nat,
    silence: bool,
    silenceOnNextEmpty: bool,
    level: nat,
    loopFlag: bool,
    irqEnabled: bool,
    irqPin: bool,
    irqChangeRequested: bool)

  /** The output level is a 7-bit value and the bit counter is in 1..8. */
  predicate Valid(d: Dmc)
  {
    d.level <= 0x7F && 1 <= d.bitsRemaining <= 8
  }

  /** The power-on state as the emulator builds it: the bit counter starts at 0. */
  function NewAsWritten(): (d: Dmc)
    ensures d.bufferEmpty && d.remaining == 0 && d.bitsRemaining == 0 && d.level == 0
  {
    Dmc(ChannelTimer.Timer(0, 0), 0, 0, 0, 0, 0, true, 0, 0, false, false, 0, false, false, false, false)
  }

  /** The power-on state with the bit counter at 8, a full output cycle. */
  function New(): (d: Dmc)
    ensures Valid(d) && d.bufferEmpty && d.remaining == 0 && Output(d) == 0
    ensures RequestRead(d).None?
  {
    NewAsWritten().(bitsRemaining := 8)
  }

  /** The first timer clock after power-on expires the timer, and the
      as-written state then decrements a bit counter that is already 0: an
      unsigned underflow. */
  lemma NewAsWrittenUnderflows()
    ensures NewAsWritten().timer.current == 0
    ensures !Valid(NewAsWritten()) && NewAsWritten().bitsRemaining == 0
    ensures Valid(New()) && New().timer.current == 0
  {
  }

  /** Disabling the IRQ drops the pin and signals the change. */
  function SetIrqEnabled(d: Dmc, flag: bool): (r: Dmc)
    ensures r.irqEnabled == flag
    ensures !flag ==> !r.irqPin && r.irqChangeRequested
    ensures flag ==> r == d.(irqEnabled := true)
  {
    if flag then d.(irqEnabled := true)
    else d.(irqEnabled := false, irqPin := false, irqChangeRequested := true)
  }

  function SetLoopFlag(d: Dmc, flag: bool): (r: Dmc)
    ensures r.loopFlag == flag && r.(loopFlag := d.loopFlag) == d
  {
    d.(loopFlag := flag)
  }

  /** The rate table is in CPU clocks; halving it gives APU clocks. Only the
      low four bits of the index matter. */
  function SetRateIndex(d: Dmc, index: bv8): (r: Dmc)
    ensures r.timer.period * 2 == Rates[(index & 0xF) as int]
    ensures 27 <= r.timer.period <= 214
    ensures r.timer.current == d.timer.current && r.(timer := d.timer) == d
  {
    d.(timer := d.timer.(period := Rates[(index & 0xF) as int] / 2))
  }

  /** A direct load keeps the low seven bits. */
  function SetDirectLoad(d: Dmc, value: bv8): (r: Dmc)
    ensures r.level == (value as nat) % 128
    ensures r.(level := d.level) == d
  {
    d.(level := (value & 0x7F) as nat)
  }

  /** Sample addresses are 64-byte aligned inside 0xC000-0xFFC0. */
  function SetSamplesAddress(d: Dmc, address: bv8): (r: Dmc)
    ensures 0xC000 <= r.samplesAddress <= 0xFFC0 && r.samplesAddress % 64 == 0
    ensures r.samplesAddress == 0xC000 + (address as bv16) * 64
    ensures r.(samplesAddress := d.samplesAddress) == d
  {
    d.(samplesAddress := 0xC000 | ((address as bv16) << 6))
  }

  /** Sample lengths are 16 times the register value plus one. */
  function SetSamplesLength(d: Dmc, length: bv8): (r: Dmc)
    ensures 1 <= r.samplesLength <= 4081 && r.samplesLength % 16 == 1
    ensures r.samplesLength == (length as nat) * 16 + 1
    ensures r.(samplesLength := d.samplesLength) == d
  {
    d.(samplesLength := (length as nat) * 16 + 1)
  }

  /** The channel asks the CPU for the byte at its address counter exactly
      when its buffer is empty and bytes remain. */
  function RequestRead(d: Dmc): (r: Option<bv16>)
    ensures r.Some? <==> d.bufferEmpty && d.remaining != 0
    ensures r.Some? ==> r.value == d.addressCounter
  {
    if d.bufferEmpty && d.remaining != 0 then Some(d.addressCounter) else None
  }

  /** The address after a fetch: one more, wrapping from 0xFFFF to 0x8000. */
  function NextAddress(a: bv16): (r: bv16)
    ensures a >= 0x8000 ==> r >= 0x8000
    ensures a != 0xFFFF ==> r == a + 1 && r > a
  {
    if a == 0xFFFF then 0x8000 else a + 1
  }

  /** Restarting reloads the byte counter and the address counter. */
  function RestartSample(d: Dmc): (r: Dmc)
    ensures r.remaining == d.samplesLength && r.addressCounter == d.samplesAddress
    ensures r.(remaining := d.remaining, addressCounter := d.addressCounter) == d
  {
    d.(remaining := d.samplesLength, addressCounter := d.samplesAddress)
  }

  /** The CPU delivers the requested byte (the buffer must be empty). The
      address advances, one byte fewer remains, and on the last byte the
      sample restarts when looping or raises the IRQ when enabled. */
  function Submit(d: Dmc, byte: bv8): (r: Dmc)
    requires d.bufferEmpty
    ensures !r.bufferEmpty && r.buffer == byte
    ensures d.remaining > 1 ==> r.remaining + 1 == d.remaining && r.addressCounter == NextAddress(d.addressCounter)
    ensures d.remaining <= 1 && d.loopFlag ==> r.remaining == d.samplesLength && r.addressCounter == d.samplesAddress
    ensures d.remaining <= 1 && !d.loopFlag ==> r.remaining == 0
    ensures r.irqPin <==> d.irqPin || (d.remaining <= 1 && !d.loopFlag && d.irqEnabled)
    ensures r.level == d.level && r.bitsRemaining == d.bitsRemaining && r.loopFlag == d.loopFlag
    ensures r.irqEnabled == d.irqEnabled && r.samplesLength == d.samplesLength && r.samplesAddress == d.samplesAddress
  {
    var fetched := d.(buffer := byte, bufferEmpty := false,
                      addressCounter := NextAddress(d.addressCounter),
                      remaining := if d.remaining > 0 then d.remaining - 1 else 0);
    if fetched.remaining == 0 then
      if d.loopFlag then RestartSample(fetched)
      else if d.irqEnabled then fetched.(irqPin := true, irqChangeRequested := true)
      else fetched
    else
      fetched
  }

  function RemainingMoreThanZero(d: Dmc): (b: bool)
    ensures b <==> RequestRead(d.(bufferEmpty := true)).Some?
  {
    d.remaining > 0
  }

  function ClearIrqChangeRequest(d: Dmc): (r: Dmc)
    ensures !r.irqChangeRequested && r.(irqChangeRequested := d.irqChangeRequested) == d
  {
    d.(irqChangeRequested := false)
  }

  /** Acknowledging the interrupt drops the pin and signals the change. */
  function ClearInterruptFlag(d: Dmc): (r: Dmc)
    ensures !r.irqPin && r.irqChangeRequested
    ensures r.(irqPin := d.irqPin, irqChangeRequested := d.irqChangeRequested) == d
  {
    d.(irqPin := false, irqChangeRequested := true)
  }

  /** Stopping playback: no more requests, and silence once the buffer runs out. */
  function ClearRemainingAndSilence(d: Dmc): (r: Dmc)
    ensures RequestRead(r).None? && r.silenceOnNextEmpty
    ensures r.(remaining := d.remaining, silenceOnNextEmpty := d.silenceOnNextEmpty) == d
  {
    d.(remaining := 0, silenceOnNextEmpty := true)
  }

  /** The output level, always 7 bits. */
  function Output(d: Dmc): (level: nat)
    ensures level < 128
    ensures d.level < 128 ==> level == d.level
  {
    d.level % 128
  }

  /** The next output level from the bit shifted out: up 2 on a one unless
      above 125, down 2 on a zero unless below 2; unchanged while silent. */
  function NextLevel(level: nat, bit: bool, silence: bool): (r: nat)
    ensures level <= 0x7F ==> r <= 0x7F
    ensures r == level || r == level + 2 || r + 2 == level
    ensures silence ==> r == level
  {
    if silence then level
    else if bit && level <= 125 then level + 2
    else if !bit && level >= 2 then level - 2
    else level
  }

  /** What happens when the timer expires: move the level by the next bit,
      shift, and after the eighth bit start a new output cycle from the
      buffer (or go silent when the buffer is empty). */
  function ClockOutputUnit(d: Dmc): (r: Dmc)
    requires d.bitsRemaining > 0
    ensures Valid(d) ==> Valid(r)
    ensures r.level == NextLevel(d.level, d.shiftRegister & 1 != 0, d.silence)
    ensures d.bitsRemaining > 1 ==> r.bitsRemaining + 1 == d.bitsRemaining && r.bufferEmpty == d.bufferEmpty
    ensures d.bitsRemaining == 1 ==> r.bitsRemaining == 8 && r.bufferEmpty
    ensures d.bitsRemaining == 1 && !d.bufferEmpty ==> r.shiftRegister == d.buffer && r.silence == d.silenceOnNextEmpty
    ensures d.bitsRemaining == 1 && d.bufferEmpty ==> r.silence
    ensures r.remaining == d.remaining && r.addressCounter == d.addressCounter && r.irqPin == d.irqPin
  {
    var shifted := d.(level := NextLevel(d.level, d.shiftRegister & 1 != 0, d.silence),
                      shiftRegister := d.shiftRegister >> 1,
                      bitsRemaining := d.bitsRemaining - 1);
    if shifted.bitsRemaining == 0 then
      var cycle := shifted.(bitsRemaining := 8);
      if cycle.bufferEmpty then cycle.(silence := true)
      else
        var loaded := cycle.(silence := false, shiftRegister := cycle.buffer, bufferEmpty := true);
        if loaded.silenceOnNextEmpty then loaded.(silence := true, silenceOnNextEmpty := false)
        else loaded
    else
      shifted
  }

  /** An APU clock: the output unit runs when the timer expires. The emulator
      decrements the bit counter as an unsigned byte, so the counter must
      be positive at that moment. */
  function TimerClock(d: Dmc): (r: Dmc)
    requires d.timer.current == 0 ==> d.bitsRemaining > 0
    ensures Valid(d) ==> Valid(r)
    ensures r.timer == ChannelTimer.Clock(d.timer).timer
    ensures d.timer.current != 0 ==> r == d.(timer := r.timer)
    ensures d.timer.current == 0 ==> r == ClockOutputUnit(d).(timer := r.timer)
  {
    var tick := ChannelTimer.Clock(d.timer);
    if tick.fired then WithTimer(ClockOutputUnit(d), tick.timer)
    else WithTimer(d, tick.timer)
  }

  /** The channel with its timer replaced; the timer plays no part in
      validity. */
  function WithTimer(d: Dmc, t: ChannelTimer.Timer): (r: Dmc)
    ensures r == d.(timer := t)
    ensures Valid(r) <==> Valid(d)
  {
    d.(timer := t)
  }

  /** Delivering bytes one after another, each after the output unit has
      taken the previous one out of the buffer. */
  function Feed(d: Dmc, bytes: seq<bv8>): Dmc
    decreases |bytes|
  {
    if |bytes| == 0 then d
    else Feed(Submit(d.(bufferEmpty := true), bytes[0]), bytes[1..])
  }

  /** Feeding fewer bytes than remain counts the counter down by one per
      byte and leaves the IRQ pin alone. */
  lemma {:induction false} FeedCountsDown(d: Dmc, bytes: seq<bv8>)
    requires |bytes| < d.remaining
    decreases |bytes|
    ensures Feed(d, bytes).remaining == d.remaining - |bytes|
    ensures Feed(d, bytes).irqPin == d.irqPin
    ensures Feed(d, bytes).loopFlag == d.loopFlag && Feed(d, bytes).irqEnabled == d.irqEnabled
    ensures Feed(d, bytes).samplesLength == d.samplesLength && Feed(d, bytes).samplesAddress == d.samplesAddress
  {
    if |bytes| > 0 {
      FeedCountsDown(Submit(d.(bufferEmpty := true), bytes[0]), bytes[1..]);
    }
  }

  /** A one-shot sample with the IRQ enabled raises the IRQ exactly when its
      last byte arrives, and not before. */
  lemma IrqAtLastByte(d: Dmc, bytes: seq<bv8>)
    requires !d.loopFlag && d.irqEnabled && !d.irqPin
    requires |bytes| == d.remaining > 0
    ensures !Feed(d, bytes[..|bytes| - 1]).irqPin
    ensures Feed(d, bytes).irqPin && Feed(d, bytes).remaining == 0
  {
    var init := bytes[..|bytes| - 1];
    FeedCountsDown(d, init);
    FeedAppend(d, init, bytes[|bytes| - 1]);
    assert init + [bytes[|bytes| - 1]] == bytes;
  }

  /** A looping sample restarts from its own address and length when its
      last byte arrives. */
  lemma LoopRestarts(d: Dmc, bytes: seq<bv8>)
    requires d.loopFlag && |bytes| == d.remaining > 0
    ensures Feed(d, bytes).remaining == d.samplesLength
    ensures Feed(d, bytes).addressCounter == d.samplesAddress
  {
    var init := bytes[..|bytes| - 1];
    FeedCountsDown(d, init);
    FeedAppend(d, init, bytes[|bytes| - 1]);
    assert init + [bytes[|bytes| - 1]] == bytes;
  }

  lemma {:induction false} FeedAppend(d: Dmc, bytes: seq<bv8>, last: bv8)
    ensures Feed(d, bytes + [last]) == Submit(Feed(d, bytes).(bufferEmpty := true), last)
    decreases |bytes|
  {
    if |bytes| == 0 {
      assert bytes + [last] == [last];
    } else {
      assert (bytes + [last])[1..] == bytes[1..] + [last];
      FeedAppend(Submit(d.(bufferEmpty := true), bytes[0]), bytes[1..], last);
    }
  }
}
