/** The APU triangle channel: a 32-step ramp sequencer paced by a timer and
    gated by the linear counter. */
module Triangle {

  import Sequencer
  import ChannelTimer

  /** Down from 15 to 0, then up from 0 to 15. */
  const Ramp: seq<nat> := [
    15, 14, 13, 12, 11, 10, 9, 8, 7, 6, 5, 4, 3, 2, 1, 0,
    0, 1, 2, 3, 4, 5, 6, 7, 8, 9, 10, 11, 12, 13, 14, 15
  ]

  datatype Triangle = Triangle(
    timer: ChannelTimer.Timer,
    sequencer: Sequencer.Sequencer,
    muted: bool,
    linearReloadValue: nat,
    linearCounter: nat,
    controlFlag: bool,
    reloadFlag: bool)

  /** The ramp is symmetric and every step is a 4-bit level. */
  lemma RampShape()
    ensures |Ramp| == 32
    ensures forall i :: 0 <= i < 16 ==> Ramp[i] == 15 - i
    ensures forall i :: 0 <= i < 32 ==> Ramp[i] == Ramp[31 - i]
    ensures forall i :: 0 <= i < 32 ==> Ramp[i] < 16
  {
    forall i | 0 <= i < 32
      ensures Ramp[i] == RampValue(i)
    {
    }
  }

  /** Closed form of the ramp's `i`-th step: the first half falls from 15
      to 0 and the second rises from 0 to 15, so step `i` and step `31 - i`
      agree. */
  function RampValue(i: int): (r: nat)
    requires 0 <= i < 32
    ensures r < 16
    ensures i < 16 ==> r + i == 15
    ensures 16 <= i ==> r + 16 == i
  {
    if i < 16 then 15 - i else i - 16
  }

  function New(): (t: Triangle)
    ensures t.sequencer.sequence == Ramp && t.sequencer.position == 0
    ensures Output(t) == 0
  {
    Triangle(ChannelTimer.Timer(0, 0), Sequencer.SetSequence(Sequencer.New(), Ramp),
             false, 0, 0, false, false)
  }

  /** Periods below 2 are ultrasonic and silence the channel. */
  function SetPeriod(t: Triangle, period: nat): (r: Triangle)
    ensures r.timer.period == period && r.timer.current == t.timer.current
    ensures r.muted <==> period < 2
    ensures r.(timer := t.timer, muted := t.muted) == t
  {
    t.(timer := t.timer.(period := period), muted := period < 2)
  }

  function SetLinearReloadValue(t: Triangle, value: nat): (r: Triangle)
    ensures r.linearReloadValue == value && r.(linearReloadValue := t.linearReloadValue) == t
  {
    t.(linearReloadValue := value)
  }

  function SetControlFlag(t: Triangle, flag: bool): (r: Triangle)
    ensures r.controlFlag == flag && r.(controlFlag := t.controlFlag) == t
  {
    t.(controlFlag := flag)
  }

  function SetReloadFlag(t: Triangle, flag: bool): (r: Triangle)
    ensures r.reloadFlag == flag && r.(reloadFlag := t.reloadFlag) == t
  {
    t.(reloadFlag := flag)
  }

  /** A quarter-frame clock of the linear counter: a pending reload loads
      the counter and stays pending only while the control flag is set;
      otherwise a non-zero counter counts down. */
  function ClockLinearCounter(t: Triangle): (r: Triangle)
    ensures t.reloadFlag ==> r.linearCounter == t.linearReloadValue && r.reloadFlag == t.controlFlag
    ensures !t.reloadFlag ==> !r.reloadFlag && r.linearCounter == (if t.linearCounter > 0 then t.linearCounter - 1 else 0)
    ensures r.(linearCounter := t.linearCounter, reloadFlag := t.reloadFlag) == t
  {
    if t.reloadFlag then
      t.(reloadFlag := t.controlFlag, linearCounter := t.linearReloadValue)
    else if t.linearCounter != 0 then
      t.(linearCounter := t.linearCounter - 1)
    else
      t
  }

  function ClockLinearCounterN(t: Triangle, n: nat): Triangle
  {
    if n == 0 then t else ClockLinearCounter(ClockLinearCounterN(t, n - 1))
  }

  /** With the control flag clear, the counter counts down to zero. */
  lemma {:induction false} LinearCountsDown(t: Triangle, n: nat)
    requires !t.reloadFlag
    ensures !ClockLinearCounterN(t, n).reloadFlag
    ensures ClockLinearCounterN(t, n).linearCounter == if n <= t.linearCounter then t.linearCounter - n else 0
    ensures ClockLinearCounterN(t, n).controlFlag == t.controlFlag
    ensures ClockLinearCounterN(t, n).linearReloadValue == t.linearReloadValue
  {
    if n > 0 {
      LinearCountsDown(t, n - 1);
    }
  }

  /** After a reload with the control flag clear, the channel is gated open
      for exactly the reload value's number of further quarter frames. */
  lemma ReloadThenSilence(t: Triangle, n: nat)
    requires t.reloadFlag && !t.controlFlag
    ensures ClockLinearCounterN(ClockLinearCounter(t), n).linearCounter
      == if n <= t.linearReloadValue then t.linearReloadValue - n else 0
  {
    LinearCountsDown(ClockLinearCounter(t), n);
  }

  /** With the control flag set, the reload stays pending and the counter
      is held at the reload value for as long as the flag stays set. */
  lemma {:induction false} ControlHolds(t: Triangle, n: nat)
    requires t.reloadFlag && t.controlFlag
    ensures ClockLinearCounterN(t, n + 1).reloadFlag
    ensures ClockLinearCounterN(t, n + 1).linearCounter == t.linearReloadValue
    ensures ClockLinearCounterN(t, n + 1).controlFlag && ClockLinearCounterN(t, n + 1).linearReloadValue == t.linearReloadValue
  {
    if n > 0 {
      ControlHolds(t, n - 1);
    }
  }

  /** An APU clock of the timer, stepping the ramp when it expires. */
  function TimerClock(t: Triangle): (r: Triangle)
    ensures r.timer.period == t.timer.period
    ensures t.timer.current == 0 ==> r.sequencer == Sequencer.Clock(t.sequencer)
    ensures t.timer.current != 0 ==> r.sequencer == t.sequencer
    ensures r.(timer := t.timer, sequencer := t.sequencer) == t
  {
    var (tm, s) := ChannelTimer.ClockSequencer(t.timer, t.sequencer);
    t.(timer := tm, sequencer := s)
  }

  /** The ramp value, silenced while the linear counter is zero or the
      period is ultrasonic. */
  function Output(t: Triangle): (level: nat)
    ensures t.sequencer.sequence == Ramp ==> level < 16
    ensures t.linearCounter == 0 || t.muted ==> level == 0
    ensures t.linearCounter != 0 && !t.muted ==> level == Sequencer.CurrentValue(t.sequencer)
  {
    if t.linearCounter == 0 || t.muted then 0
    else
      RampShape();
      Sequencer.CurrentValue(t.sequencer)
  }
}
