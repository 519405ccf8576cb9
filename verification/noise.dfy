/** The APU noise channel: a 15-bit linear-feedback shift register stepped
    by a timer whose period comes from a fixed table. */
module Noise {

  import Envelope
  import ChannelTimer

  /** Timer periods (NTSC), indexed by the low four bits of the period register. */
  const Periods: seq<nat> := [
    4, 8, 16, 32, 64, 96, 128, 160, 202, 254, 380, 508, 762, 1016, 2034, 4068
  ]

  datatype Noise = Noise(
    timer: ChannelTimer.Timer,
    envelope: Envelope.Envelope,
    shiftRegister: bv16,
    mode: bool)

  /** The register holds 15 bits and is never all zeros. */
  predicate Valid(n: Noise)
  {
    n.shiftRegister != 0 && n.shiftRegister < 0x8000
  }

  function New(): (n: Noise)
    ensures Valid(n) && n.shiftRegister == 1
  {
    Noise(ChannelTimer.Timer(0, 0), Envelope.New(), 1, false)
  }

  /** The period comes from the table through the index's low four bits,
      so it is always one of the sixteen table entries and at least 4. */
  function SetPeriod(n: Noise, index: bv8): (r: Noise)
    ensures r.timer.period in Periods && r.timer.period >= 4
    ensures r.timer.period == Periods[(index & 0xF) as int]
    ensures r.timer.current == n.timer.current && r.(timer := n.timer) == n
  {
    n.(timer := n.timer.(period := Periods[(index & 0xF) as int]))
  }

  function SetMode(n: Noise, mode: bool): (r: Noise)
    ensures r.mode == mode && r.(mode := n.mode) == n
  {
    n.(mode := mode)
  }

  /** The feedback tap: bit 6 in short mode, bit 1 otherwise. */
  function Tap(mode: bool): (r: bv16)
    ensures 0 < r < 15
    ensures mode <==> r == 6
  {
    if mode then 6 else 1
  }

  /** One shift of the register: shift right and feed bit 0 XOR the tap
      back into bit 14. */
  function Step(sr: bv16, mode: bool): (r: bv16)
    ensures sr < 0x8000 ==> r < 0x8000
    ensures sr < 0x8000 ==> Unstep(r, mode) == sr
  {
    var feedback := (sr & 1) ^ ((sr >> Tap(mode)) & 1);
    ((sr >> 1) & 0x3FFF) | (feedback << 14)
  }

  /** The inverse shift: bits 0-13 move back up one place, and bit 0 is
      recovered from the feedback bit and the tap's new position. */
  function Unstep(r: bv16, mode: bool): (sr: bv16)
    ensures sr < 0x8000
  {
    var low := ((r >> 14) & 1) ^ ((r >> (Tap(mode) - 1)) & 1);
    ((r << 1) & 0x7FFE) | low
  }

  /** The register can never lock up at zero: stepping is invertible and
      zero steps to zero, so no other state can step to zero. */
  lemma NeverLocks(sr: bv16, mode: bool)
    ensures sr != 0 && sr < 0x8000 ==> Step(sr, mode) != 0
  {
    assert Unstep(0, mode) == 0;
  }

  /** An APU clock: when the timer expires the register shifts once. */
  function TimerClock(n: Noise): (r: Noise)
    ensures Valid(n) ==> Valid(r)
    ensures r.timer == ChannelTimer.Clock(n.timer).timer
    ensures n.timer.current == 0 ==> r.shiftRegister == Step(n.shiftRegister, n.mode)
    ensures n.timer.current != 0 ==> r.shiftRegister == n.shiftRegister
  {
    var tick := ChannelTimer.Clock(n.timer);
    if tick.fired then
      NeverLocks(n.shiftRegister, n.mode);
      n.(timer := tick.timer, shiftRegister := Step(n.shiftRegister, n.mode))
    else
      n.(timer := tick.timer)
  }

  function ClockEnvelope(n: Noise): (r: Noise)
    ensures Envelope.Valid(n.envelope) ==> Envelope.Valid(r.envelope)
    ensures r.(envelope := n.envelope) == n
  {
    n.(envelope := Envelope.Clock(n.envelope))
  }

  /** The envelope volume while bit 0 of the register is set, otherwise 0. */
  function Output(n: Noise): (level: nat)
    ensures n.shiftRegister & 1 == 0 ==> level == 0
    ensures n.shiftRegister & 1 != 0 ==> level == Envelope.Volume(n.envelope)
    ensures Envelope.Valid(n.envelope) ==> level < 16
  {
    if n.shiftRegister & 1 == 0 then 0 else Envelope.Volume(n.envelope)
  }

  /** A register holding one set bit, at any of the 15 places: bit 0 feeds
      back into bit 14, the tap bit moves down one place and also feeds bit
      14, and any other bit just moves down one place. From the power-on
      value 1 the set bit therefore walks down from 14 in long mode. */
  lemma SingleBitStep(k: bv16, mode: bool)
    requires k < 15
    ensures k == 0 ==> Step(1 << k, mode) == 0x4000
    ensures k == Tap(mode) ==> Step(1 << k, mode) == 0x4000 | (1 << (k - 1))
    ensures 0 < k && k != Tap(mode) ==> Step(1 << k, mode) == 1 << (k - 1)
  {
  }
}
