/** The APU envelope generator: either a constant volume or a decay level
    that falls from 15 once per divider period, optionally looping. */
module Envelope {

  datatype Envelope = Envelope(
    start: bool,
    loopFlag: bool,
    reloadValue: nat,   // the divider period, which is also the constant volume
    divider: nat,
    constantVolume: bool,
    decay: nat)

  /** Every 4-bit quantity stays within 4 bits. */
  predicate Valid(e: Envelope)
  {
    e.reloadValue < 16 && e.divider < 16 && e.decay < 16
  }

  function New(): (e: Envelope)
    ensures Valid(e) && Volume(e) == 0
  {
    Envelope(false, false, 0, 0, false, 0)
  }

  /** The volume field is four bits wide; a wider value is a caller error. */
  function SetVolume(e: Envelope, vol: nat, useConstant: bool): (r: Envelope)
    requires vol < 0x10
    ensures Valid(e) ==> Valid(r)
    ensures useConstant ==> Volume(r) == vol
    ensures !useConstant ==> Volume(r) == e.decay
  {
    e.(reloadValue := vol, constantVolume := useConstant)
  }

  function SetStartFlag(e: Envelope, start: bool): (r: Envelope)
    ensures r.start == start && r.(start := e.start) == e
  {
    e.(start := start)
  }

  function SetLoopFlag(e: Envelope, loopFlag: bool): (r: Envelope)
    ensures r.loopFlag == loopFlag && r.(loopFlag := e.loopFlag) == e
  {
    e.(loopFlag := loopFlag)
  }

  /** The output level on the 0..15 scale. */
  function Volume(e: Envelope): (v: nat)
    ensures Valid(e) ==> v < 16
    ensures v == e.reloadValue || v == e.decay
  {
    if e.constantVolume then e.reloadValue else e.decay
  }

  /** A quarter-frame clock as the emulator runs it: when the divider
      expires with the loop flag set, the decay level is reloaded with 15
      whatever its current value; without the loop flag the level falls by
      one and rests at zero. */
  function ClockAsWritten(e: Envelope): (r: Envelope)
    ensures Valid(e) ==> Valid(r)
    ensures r.loopFlag == e.loopFlag && r.reloadValue == e.reloadValue && r.constantVolume == e.constantVolume
    ensures e.start ==> !r.start && r.decay == 15 && r.divider == e.reloadValue
    ensures !e.start && e.divider > 0 ==> r.decay == e.decay && r.divider + 1 == e.divider && !r.start
    ensures !e.start && e.divider == 0 ==> r.divider == e.reloadValue && !r.start
    ensures !e.start && e.divider == 0 && e.loopFlag ==> r.decay == 15
    ensures !e.start && e.divider == 0 && !e.loopFlag && e.decay > 0 ==> r.decay + 1 == e.decay
    ensures !e.start && e.divider == 0 && !e.loopFlag && e.decay == 0 ==> r.decay == 0
  {
    if e.start then
      e.(start := false, decay := 15, divider := e.reloadValue)
    else if e.divider == 0 then
      e.(divider := e.reloadValue, decay := if e.loopFlag then 15 else if e.decay > 0 then e.decay - 1 else 0)
    else
      e.(divider := e.divider - 1)
  }

  /** A quarter-frame clock as the envelope is meant to run: when the divider
      expires the decay level drops by one, and only a level already at zero is
      reloaded with 15, and only when looping. */
  function Clock(e: Envelope): (r: Envelope)
    ensures Valid(e) ==> Valid(r)
    ensures r.loopFlag == e.loopFlag && r.reloadValue == e.reloadValue && r.constantVolume == e.constantVolume
    ensures e.start ==> !r.start && r.decay == 15 && r.divider == e.reloadValue
    ensures !e.start && e.divider > 0 ==> r.decay == e.decay && r.divider + 1 == e.divider
    ensures !e.start && e.divider == 0 && e.decay > 0 ==> r.decay + 1 == e.decay
    ensures !e.start && e.divider == 0 && e.decay == 0 ==> r.decay == (if e.loopFlag then 15 else 0)
  {
    if e.start then
      e.(start := false, decay := 15, divider := e.reloadValue)
    else if e.divider == 0 then
      e.(divider := e.reloadValue, decay := if e.decay > 0 then e.decay - 1 else if e.loopFlag then 15 else 0)
    else
      e.(divider := e.divider - 1)
  }

  /** The as-written clock cannot make a looping envelope decay: a level of
      10 is pushed back to 15 instead of falling to 9. */
  lemma LoopNeverDecaysAsWritten()
    ensures var e := Envelope(false, true, 0, 0, false, 10);
      ClockAsWritten(e).decay == 15 && Clock(e).decay == 9
  {
  }

  /** The two clocks differ only on an expired divider with the loop flag
      set and a level above zero: everywhere else the emulator's clock is
      the intended one. */
  lemma ClocksAgreeOutsideLoopDecay(e: Envelope)
    requires Valid(e)
    ensures ClockAsWritten(e) != Clock(e) <==> !e.start && e.divider == 0 && e.loopFlag && e.decay > 0
  {
  }

  function ClockN(e: Envelope, n: nat): Envelope
  {
    if n == 0 then e else Clock(ClockN(e, n - 1))
  }

  /** With a divider period of zero the decay level falls by one per clock
      and then stays at zero (or, when looping, restarts from 15). */
  lemma {:induction false} DecayCountsDown(e: Envelope, n: nat)
    requires !e.start && e.reloadValue == 0 && e.divider == 0
    requires n <= e.decay
    ensures ClockN(e, n) == e.(decay := e.decay - n)
  {
    if n > 0 {
      DecayCountsDown(e, n - 1);
    }
  }

  /** A looping envelope with period zero that starts at level `d` is back at
      15 after `d + 1` clocks: the sawtooth the loop flag is for. */
  lemma LoopRestarts(e: Envelope)
    requires !e.start && e.reloadValue == 0 && e.divider == 0 && e.loopFlag
    ensures ClockN(e, e.decay + 1).decay == 15
  {
    DecayCountsDown(e, e.decay);
  }

  /** Without the loop flag the level stays at zero once it gets there. */
  lemma {:induction false} SilentStaysSilent(e: Envelope, n: nat)
    requires !e.start && !e.loopFlag && e.decay == 0
    ensures ClockN(e, n).decay == 0 && !ClockN(e, n).start && !ClockN(e, n).loopFlag
  {
    if n > 0 {
      SilentStaysSilent(e, n - 1);
    }
  }
}
