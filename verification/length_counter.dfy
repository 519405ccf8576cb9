/** The APU length counter: a per-channel countdown, loaded from a fixed
    32-entry table, that silences the channel when it reaches zero. */
module LengthCounter {

  /** Load values, indexed by the 5-bit field written to the channel's fourth register. */
  const Table: seq<nat> := [
    10, 254, 20, 2, 40, 4, 80, 6, 160, 8, 60, 10, 14, 12, 26, 14,
    12, 16, 24, 18, 48, 20, 96, 22, 192, 24, 72, 26, 16, 28, 32, 30
  ]

  datatype LengthCounter = LengthCounter(counter: nat, enabled: bool, halt: bool)

  /** The counter fits a byte, and a disabled counter is always zero. */
  predicate Valid(lc: LengthCounter)
  {
    lc.counter < 256 && (!lc.enabled ==> lc.counter == 0)
  }

  function Empty(): (lc: LengthCounter)
    ensures Valid(lc) && lc.counter == 0
  {
    LengthCounter(0, false, false)
  }

  /** Loading from the table happens only while the counter is enabled, and a
      loaded counter is never zero, so loading makes the channel audible. */
  function Reload(lc: LengthCounter, index: nat): (r: LengthCounter)
    requires index <= 0x1F
    ensures r.enabled == lc.enabled && r.halt == lc.halt
    ensures lc.enabled ==> r.counter == Table[index] && 2 <= r.counter <= 254
    ensures !lc.enabled ==> r == lc
  {
    if lc.enabled then lc.(counter := Table[index]) else lc
  }

  /** A length clock: zero when disabled, held when halted, otherwise one
      less, stopping at zero. */
  function Decrement(lc: LengthCounter): (r: LengthCounter)
    ensures r.enabled == lc.enabled && r.halt == lc.halt
    ensures !lc.enabled ==> r.counter == 0
    ensures lc.enabled && lc.halt ==> r.counter == lc.counter
    ensures lc.enabled && !lc.halt && lc.counter > 0 ==> r.counter + 1 == lc.counter
    ensures lc.enabled && lc.counter == 0 ==> r.counter == 0
  {
    if lc.enabled then
      lc.(counter := if !lc.halt && lc.counter > 0 then lc.counter - 1 else lc.counter)
    else
      lc.(counter := 0)
  }

  /** Disabling silences the channel immediately; enabling keeps the count. */
  function SetEnabled(lc: LengthCounter, enabled: bool): (r: LengthCounter)
    ensures r.enabled == enabled && r.halt == lc.halt
    ensures !enabled ==> r.counter == 0
    ensures enabled ==> r.counter == lc.counter
  {
    if enabled then lc.(enabled := true) else lc.(enabled := false, counter := 0)
  }

  function SetHalt(lc: LengthCounter, halt: bool): (r: LengthCounter)
    ensures r.halt == halt && r.counter == lc.counter && r.enabled == lc.enabled
  {
    lc.(halt := halt)
  }

  /** A length-counted channel passes its inner channel's output through only
      while the counter is non-zero. */
  function GatedOutput(lc: LengthCounter, channelOutput: nat): (out: nat)
    ensures out == 0 || out == channelOutput
    ensures out == channelOutput <== lc.counter != 0
    ensures lc.counter == 0 ==> out == 0
  {
    if lc.counter == 0 then 0 else channelOutput
  }

  /** Every operation keeps the counter within a byte and zero while disabled. */
  lemma OperationsPreserveValid(lc: LengthCounter, index: nat, flag: bool)
    requires Valid(lc) && index <= 0x1F
    ensures Valid(Reload(lc, index))
    ensures Valid(Decrement(lc))
    ensures Valid(SetEnabled(lc, flag))
    ensures Valid(SetHalt(lc, flag))
  {
  }

  function DecrementN(lc: LengthCounter, n: nat): LengthCounter
  {
    if n == 0 then lc else Decrement(DecrementN(lc, n - 1))
  }

  /** An enabled, running counter drops by exactly one per length clock until
      it rests at zero. */
  lemma {:induction false} DecrementNCounts(lc: LengthCounter, n: nat)
    requires lc.enabled && !lc.halt
    ensures DecrementN(lc, n).enabled && !DecrementN(lc, n).halt
    ensures DecrementN(lc, n).counter == if n <= lc.counter then lc.counter - n else 0
  {
    if n > 0 {
      DecrementNCounts(lc, n - 1);
    }
  }

  /** After a load from entry `index`, the channel sounds for exactly
      `Table[index]` length clocks and is silent afterwards. */
  lemma SoundsForTableLength(lc: LengthCounter, index: nat, n: nat, channelOutput: nat)
    requires lc.enabled && !lc.halt && index <= 0x1F
    ensures n < Table[index] ==> GatedOutput(DecrementN(Reload(lc, index), n), channelOutput) == channelOutput
    ensures n >= Table[index] ==> GatedOutput(DecrementN(Reload(lc, index), n), channelOutput) == 0
  {
    DecrementNCounts(Reload(lc, index), n);
  }

  /** A halted counter holds its value over any number of length clocks. */
  lemma {:induction false} HaltedHolds(lc: LengthCounter, n: nat)
    requires lc.enabled && lc.halt
    ensures DecrementN(lc, n) == lc
  {
    if n > 0 {
      HaltedHolds(lc, n - 1);
    }
  }
}
