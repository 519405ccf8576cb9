/** The APU sequencer: a cyclic table of output values that a channel timer
    steps through one position per clock. */
module Sequencer {

  import Arith

  datatype Sequencer = Sequencer(sequence: seq<nat>, position: nat)

  /** A fresh sequencer holds no values, so it outputs 0 whatever it is clocked. */
  function New(): (s: Sequencer)
    ensures CurrentValue(s) == 0
    ensures Clock(s) == s
  {
    Sequencer([], 0)
  }

  /** Replacing the table keeps the current position. */
  function SetSequence(s: Sequencer, values: seq<nat>): (r: Sequencer)
    ensures r.sequence == values
    ensures r.position == s.position
  {
    s.(sequence := values)
  }

  /** The value under the position, or 0 when the position is past the table. */
  function CurrentValue(s: Sequencer): (v: nat)
    ensures v == 0 || v in s.sequence
    ensures s.position < |s.sequence| ==> v == s.sequence[s.position]
  {
    if s.position < |s.sequence| then s.sequence[s.position] else 0
  }

  /** One step forward, wrapping to the start; an empty table never moves. */
  function Clock(s: Sequencer): (r: Sequencer)
    ensures r.sequence == s.sequence
    ensures |s.sequence| == 0 ==> r == s
    ensures |s.sequence| != 0 ==> r.position < |s.sequence|
  {
    if |s.sequence| != 0 then s.(position := (s.position + 1) % |s.sequence|) else s
  }

  /** Back to the first value of the table. */
  function Reset(s: Sequencer): (r: Sequencer)
    ensures r.sequence == s.sequence && r.position == 0
    ensures |s.sequence| != 0 ==> CurrentValue(r) == s.sequence[0]
  {
    s.(position := 0)
  }

  /** `k` consecutive clocks. */
  function ClockN(s: Sequencer, k: nat): Sequencer
  {
    if k == 0 then s else Clock(ClockN(s, k - 1))
  }

  /** After `k` clocks a sequencer with a non-empty table has advanced `k`
      positions modulo the table length. */
  lemma {:induction false} ClockNAdvances(s: Sequencer, k: nat)
    requires s.position < |s.sequence|
    ensures ClockN(s, k).sequence == s.sequence
    ensures ClockN(s, k).position == (s.position + k) % |s.sequence|
  {
    if k == 0 {
    } else {
      ClockNAdvances(s, k - 1);
      Arith.ModSucc(s.position + k - 1, |s.sequence|);
    }
  }

  /** Clocking a whole table length returns the sequencer to where it was:
      the output is periodic with the table's length. */
  lemma Periodic(s: Sequencer)
    requires s.position < |s.sequence|
    ensures ClockN(s, |s.sequence|) == s
  {
    ClockNAdvances(s, |s.sequence|);
    Arith.ModUnique(s.position + |s.sequence|, |s.sequence|, 1, s.position);
  }
}
