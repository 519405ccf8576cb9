/** A square (pulse) channel of the APU: a duty-cycle sequencer paced by a
    timer, an envelope for volume, and the sweep unit that slides the
    period up or down. */
module Square {

  import Envelope
  import Sequencer
  import ChannelTimer

  /** The four duty cycles, 12.5%, 25%, 50% and 25% negated. */
  const DutySequences: seq<seq<nat>> := [
    [0, 1, 0, 0, 0, 0, 0, 0],
    [0, 1, 1, 0, 0, 0, 0, 0],
    [0, 1, 1, 1, 1, 0, 0, 0],
    [1, 0, 0, 1, 1, 1, 1, 1]
  ]

  datatype Sweeper = Sweeper(
    enabled: bool,
    reloadValue: nat,
    divider: nat,
    negative: bool,
    shift: nat,
    reloadFlag: bool,
    target: nat,
    isSquare1: bool)

  datatype Square = Square(
    timer: ChannelTimer.Timer,
    envelope: Envelope.Envelope,
    sequencer: Sequencer.Sequencer,
    sweeper: Sweeper)

  /** A right shift of a natural number: `shift` halvings, each dropping
      the low bit. */
  function ShiftRight(x: nat, shift: nat): (r: nat)
    ensures r <= x
    ensures shift == 0 ==> r == x
    ensures shift > 0 && x > 0 ==> r < x
  {
    if shift == 0 then x else ShiftRight(x / 2, shift - 1)
  }

  /** The period the sweep unit would move to: the period plus or minus the
      period shifted right, clamped to 16 bits. The first square channel
      subtracts one more than the second. */
  function TargetPeriod(period: nat, shift: nat, negative: bool, isSquare1: bool): (t: nat)
    requires period <= 0xFFFF
    ensures t <= 0xFFFF
    ensures negative ==> t <= period
    ensures !negative ==> period <= t
  {
    var change := ShiftRight(period, shift);
    if negative then
      var lessChange := if period >= change then period - change else 0;
      var one := if isSquare1 then 1 else 0;
      if lessChange >= one then lessChange - one else 0
    else if period + change > 0xFFFF then 0xFFFF
    else period + change
  }

  /** With a shift of zero, an upward sweep doubles the period and a
      downward sweep reaches 0; between the two channels a downward sweep
      differs by exactly one whenever it does not bottom out. */
  lemma TargetPeriodShapes(period: nat, shift: nat)
    requires period < 0x8000
    ensures TargetPeriod(period, 0, false, false) == 2 * period
    ensures TargetPeriod(period, 0, true, false) == 0
    ensures ShiftRight(period, shift) < period ==>
      TargetPeriod(period, shift, true, true) + 1 == TargetPeriod(period, shift, true, false)
  {
  }

  /** A sweep state consistent with its channel: 3-bit fields stay within 3
      bits, the period stays an 11-bit value, and the target matches the
      current period. */
  predicate Valid(sq: Square)
  {
    sq.timer.period <= 0x7FF
    && sq.sweeper.reloadValue <= 7 && sq.sweeper.divider <= 7 && sq.sweeper.shift <= 7
    && sq.sweeper.target == TargetPeriod(sq.timer.period, sq.sweeper.shift, sq.sweeper.negative, sq.sweeper.isSquare1)
  }

  function New(isSquare1: bool): (sq: Square)
    ensures Valid(sq) && Muted(sq) && Output(sq) == 0
    ensures sq.sweeper.isSquare1 == isSquare1
  {
    Square(ChannelTimer.Timer(0, 0), Envelope.New(), Sequencer.New(),
           Sweeper(false, 0, 0, false, 0, false, 0, isSquare1))
  }

  /** The channel is silent for periods below 8 and whenever an upward sweep
      would leave the 11-bit period range. */
  function Muted(sq: Square): (r: bool)
    ensures sq.timer.period < 8 ==> r
    ensures !sq.sweeper.negative && sq.sweeper.target > 0x7FF ==> r
    ensures sq.timer.period >= 8 && (sq.sweeper.negative || sq.sweeper.target <= 0x7FF) ==> !r
  {
    sq.timer.period < 8 || (!sq.sweeper.negative && sq.sweeper.target > 0x7FF)
  }

  /** Selecting a duty cycle uses the low two bits of the index and keeps the
      sequencer's position. */
  function SetDutyCycle(sq: Square, index: bv8): (r: Square)
    ensures r.sequencer.sequence == DutySequences[(index & 3) as int]
    ensures |r.sequencer.sequence| == 8
    ensures r.sequencer.position == sq.sequencer.position
    ensures r.(sequencer := sq.sequencer) == sq
  {
    sq.(sequencer := Sequencer.SetSequence(sq.sequencer, DutySequences[(index & 3) as int]))
  }

  function CountOnes(s: seq<nat>): nat
  {
    if |s| == 0 then 0 else (if s[0] == 1 then 1 else 0) + CountOnes(s[1..])
  }

  /** The duty cycles are high for 1, 2, 4 and 6 of their 8 steps. */
  lemma DutyFractions()
    ensures CountOnes(DutySequences[0]) == 1
    ensures CountOnes(DutySequences[1]) == 2
    ensures CountOnes(DutySequences[2]) == 4
    ensures CountOnes(DutySequences[3]) == 6
  {
    assert DutySequences[0][1..][1..][1..][1..][1..][1..][1..][1..] == [];
    assert DutySequences[1][1..][1..][1..][1..][1..][1..][1..][1..] == [];
    assert DutySequences[2][1..][1..][1..][1..][1..][1..][1..][1..] == [];
    assert DutySequences[3][1..][1..][1..][1..][1..][1..][1..][1..] == [];
  }

  /** Setting the period recomputes the sweep target. */
  function SetPeriod(sq: Square, period: nat): (r: Square)
    requires period <= 0xFFFF
    ensures r.timer.period == period && r.timer.current == sq.timer.current
    ensures r.sweeper.target == TargetPeriod(period, sq.sweeper.shift, sq.sweeper.negative, sq.sweeper.isSquare1)
    ensures r.(timer := sq.timer, sweeper := sq.sweeper) == sq
    ensures Valid(sq) && period <= 0x7FF ==> Valid(r)
  {
    var s := sq.sweeper;
    sq.(timer := sq.timer.(period := period),
        sweeper := s.(target := TargetPeriod(period, s.shift, s.negative, s.isSquare1)))
  }

  /** Writing the sweep register: bit 7 enables, bits 4-6 are the divider
      period, bit 3 negates, bits 0-2 are the shift; the divider reloads at
      the next sweep clock and the target is recomputed. */
  function SetSweeperData(sq: Square, data: bv8): (r: Square)
    requires sq.timer.period <= 0xFFFF
    ensures r.sweeper.enabled <==> data & 0x80 != 0
    ensures r.sweeper.negative <==> data & 0x08 != 0
    ensures r.sweeper.reloadValue == ((data >> 4) & 7) as nat && r.sweeper.shift == (data & 7) as nat
    ensures r.sweeper.reloadFlag
    ensures r.timer == sq.timer && r.envelope == sq.envelope && r.sequencer == sq.sequencer
    ensures Valid(sq) ==> Valid(r)
  {
    var s := sq.sweeper;
    var neg := data & 0x08 != 0;
    var shift := (data & 7) as nat;
    sq.(sweeper := s.(enabled := data & 0x80 != 0,
                      reloadValue := ((data >> 4) & 7) as nat,
                      negative := neg,
                      shift := shift,
                      reloadFlag := true,
                      target := TargetPeriod(sq.timer.period, shift, neg, s.isSquare1)))
  }

  /** A half-frame sweep clock: when the divider has expired and the channel
      is enabled and not muted the period moves to the target; then the
      divider is reloaded (if expired or flagged) or counts down. A valid
      channel's period never leaves the 11-bit range, because an upward
      target beyond it mutes the channel instead of being applied. */
  function ClockSweeper(sq: Square): (r: Square)
    requires sq.timer.period <= 0xFFFF && sq.sweeper.target <= 0xFFFF
    ensures Valid(sq) ==> Valid(r)
    ensures sq.sweeper.divider == 0 && sq.sweeper.enabled && !Muted(sq) ==> r.timer.period == sq.sweeper.target
    ensures !(sq.sweeper.divider == 0 && sq.sweeper.enabled && !Muted(sq)) ==> r.timer.period == sq.timer.period
    ensures !r.sweeper.reloadFlag
    ensures sq.sweeper.divider == 0 || sq.sweeper.reloadFlag ==> r.sweeper.divider == sq.sweeper.reloadValue
    ensures !(sq.sweeper.divider == 0 || sq.sweeper.reloadFlag) ==> r.sweeper.divider + 1 == sq.sweeper.divider
  {
    var applied := if sq.sweeper.divider == 0 && sq.sweeper.enabled && !Muted(sq)
                   then SetPeriod(sq, sq.sweeper.target) else sq;
    var s := applied.sweeper;
    if s.divider == 0 || s.reloadFlag then
      applied.(sweeper := s.(divider := s.reloadValue, reloadFlag := false))
    else
      applied.(sweeper := s.(divider := s.divider - 1))
  }

  /** An APU clock of the channel's timer, stepping the duty sequencer when
      the timer expires. */
  function TimerClock(sq: Square): (r: Square)
    ensures Valid(sq) ==> Valid(r)
    ensures r.timer.period == sq.timer.period
    ensures sq.timer.current == 0 ==> r.sequencer == Sequencer.Clock(sq.sequencer) && r.timer.current == sq.timer.period
    ensures sq.timer.current != 0 ==> r.sequencer == sq.sequencer && r.timer.current + 1 == sq.timer.current
  {
    var (t, s) := ChannelTimer.ClockSequencer(sq.timer, sq.sequencer);
    sq.(timer := t, sequencer := s)
  }

  function ClockEnvelope(sq: Square): (r: Square)
    ensures Envelope.Valid(sq.envelope) ==> Envelope.Valid(r.envelope)
    ensures r.(envelope := sq.envelope) == sq
  {
    sq.(envelope := Envelope.Clock(sq.envelope))
  }

  /** Restarting the channel puts the duty sequencer back at its first step. */
  function Reset(sq: Square): (r: Square)
    ensures r.sequencer.position == 0 && r.sequencer.sequence == sq.sequencer.sequence
    ensures r.(sequencer := sq.sequencer) == sq
  {
    sq.(sequencer := Sequencer.Reset(sq.sequencer))
  }

  /** The output level: the envelope volume while the duty step is high and
      the channel is not muted, otherwise 0. */
  function Output(sq: Square): (level: nat)
    ensures Envelope.Valid(sq.envelope) ==> level < 16
    ensures Muted(sq) ==> level == 0
    ensures Sequencer.CurrentValue(sq.sequencer) == 0 ==> level == 0
    ensures !Muted(sq) && Sequencer.CurrentValue(sq.sequencer) != 0 ==> level == Envelope.Volume(sq.envelope)
  {
    if Muted(sq) || Sequencer.CurrentValue(sq.sequencer) == 0 then 0
    else Envelope.Volume(sq.envelope)
  }
}
