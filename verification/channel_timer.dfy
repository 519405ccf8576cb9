/** The down-counting timer that every APU channel uses to pace its
    waveform unit: at zero it fires and reloads the period, otherwise it
    counts down by one. */
module ChannelTimer {

  import Sequencer

  datatype Timer = Timer(period: nat, current: nat)

  datatype Tick = Tick(timer: Timer, fired: bool)

  /** One APU clock. */
  function Clock(t: Timer): (r: Tick)
    ensures r.timer.period == t.period
    ensures r.fired <==> t.current == 0
    ensures r.fired ==> r.timer.current == t.period
    ensures !r.fired ==> r.timer.current + 1 == t.current
  {
    if t.current == 0 then Tick(t.(current := t.period), true)
    else Tick(t.(current := t.current - 1), false)
  }

  /** Where the timer is after `n` clocks and how many times it fired. */
  function ClockN(t: Timer, n: nat): (Timer, nat)
  {
    if n == 0 then (t, 0)
    else
      var (u, k) := ClockN(t, n - 1);
      var r := Clock(u);
      (r.timer, k + if r.fired then 1 else 0)
  }

  /** A timer at `c` reaches zero after `c` clocks without firing. */
  lemma {:induction false} CountsDown(t: Timer, n: nat)
    requires n <= t.current
    ensures ClockN(t, n) == (t.(current := t.current - n), 0)
  {
    if n > 0 {
      CountsDown(t, n - 1);
    }
  }

  /** A timer that has just expired fires exactly once every `period + 1`
      clocks, and is back at zero at the end of that span. */
  lemma FiresOncePerPeriod(t: Timer)
    requires t.current == 0
    ensures ClockN(t, t.period + 1) == (t, 1)
  {
    var u := t.(current := t.period);
    CountsDown(u, t.period);
    ClockNSplit(t, u, t.period);
  }

  /** Clocking first once and then `n` times is clocking `n + 1` times. */
  lemma {:induction false} ClockNSplit(t: Timer, u: Timer, n: nat)
    requires Clock(t).timer == u
    ensures ClockN(t, n + 1).0 == ClockN(u, n).0
    ensures ClockN(t, n + 1).1 == ClockN(u, n).1 + (if Clock(t).fired then 1 else 0)
  {
    if n > 0 {
      ClockNSplit(t, u, n - 1);
    }
  }

  /** Clocking `a` times and then `b` times is clocking `a + b` times. */
  lemma {:induction false} ClockNAdd(t: Timer, a: nat, b: nat)
    ensures ClockN(t, a + b).0 == ClockN(ClockN(t, a).0, b).0
    ensures ClockN(t, a + b).1 == ClockN(t, a).1 + ClockN(ClockN(t, a).0, b).1
  {
    if b > 0 {
      ClockNAdd(t, a, b - 1);
    }
  }

  /** An expired timer fires exactly `m` times in `m` whole periods. */
  lemma {:induction false} FiresPerPeriods(t: Timer, m: nat)
    requires t.current == 0
    ensures ClockN(t, m * (t.period + 1)) == (t, m)
  {
    if m > 0 {
      assert m * (t.period + 1) == (m - 1) * (t.period + 1) + (t.period + 1);
      FiresPerPeriods(t, m - 1);
      ClockNAdd(t, (m - 1) * (t.period + 1), t.period + 1);
      FiresOncePerPeriod(t);
    }
  }

  /** A channel's timer driving its sequencer: the sequencer steps each time
      the timer fires. Square and triangle channels are built this way. */
  function ClockSequencer(t: Timer, s: Sequencer.Sequencer): (r: (Timer, Sequencer.Sequencer))
    ensures r.0 == Clock(t).timer
    ensures r.1 == if t.current == 0 then Sequencer.Clock(s) else s
  {
    var tick := Clock(t);
    (tick.timer, if tick.fired then Sequencer.Clock(s) else s)
  }

  function ClockSequencerN(t: Timer, s: Sequencer.Sequencer, n: nat): (Timer, Sequencer.Sequencer)
  {
    if n == 0 then (t, s)
    else
      var (u, q) := ClockSequencerN(t, s, n - 1);
      ClockSequencer(u, q)
  }

  /** After `n` clocks the sequencer has stepped once per firing of the timer. */
  lemma {:induction false} SequencerFollowsTimer(t: Timer, s: Sequencer.Sequencer, n: nat)
    ensures ClockSequencerN(t, s, n).0 == ClockN(t, n).0
    ensures ClockSequencerN(t, s, n).1 == Sequencer.ClockN(s, ClockN(t, n).1)
  {
    if n > 0 {
      SequencerFollowsTimer(t, s, n - 1);
    }
  }

  /** The waveform repeats: starting from an expired timer and a position
      inside the table, `|table| * (period + 1)` clocks bring timer and
      sequencer back to where they were. */
  lemma WaveformPeriodic(t: Timer, s: Sequencer.Sequencer)
    requires t.current == 0 && s.position < |s.sequence|
    ensures ClockSequencerN(t, s, |s.sequence| * (t.period + 1)) == (t, s)
  {
    SequencerFollowsTimer(t, s, |s.sequence| * (t.period + 1));
    FiresPerPeriods(t, |s.sequence|);
    Sequencer.Periodic(s);
  }
}
