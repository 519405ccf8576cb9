/** The standard NES controller: eight button bits, latched into a shift
    register by the strobe bit written to 0x4016 and read out one bit per
    read. */
module Controller {

  datatype Key = A | B | Select | Start | Up | Down | Left | Right

  /** Each key's bit, from A in bit 0 to Right in bit 7. */
  function KeyIndex(k: Key): (i: nat)
    ensures i < 8
  {
    match k
    case A => 0
    case B => 1
    case Select => 2
    case Start => 3
    case Up => 4
    case Down => 5
    case Left => 6
    case Right => 7
  }

  function KeyMask(k: Key): bv8
  {
    match k
    case A => 0x01
    case B => 0x02
    case Select => 0x04
    case Start => 0x08
    case Up => 0x10
    case Down => 0x20
    case Left => 0x40
    case Right => 0x80
  }

  lemma MaskIsBit(s: bv8, k: Key)
    ensures Pressed(s, k) <==> s & KeyMask(k) != 0
  {
  }

  /** Bit `i` of a byte as 0 or 1; bits past the top are 0. */
  function BitAt(b: bv8, i: nat): (v: bv8)
    ensures v < 2
  {
    if i < 8 then (b >> i) & 1 else 0
  }

  predicate Pressed(state: bv8, k: Key)
  {
    BitAt(state, KeyIndex(k)) == 1
  }

  datatype Controller = Controller(primary: bv8, polled: bv8, polling: bool)

  function New(): (c: Controller)
    ensures forall k: Key :: !Pressed(c.primary, k)
    ensures !c.polling
  {
    Controller(0, 0, false)
  }

  /** Pressing or releasing one key changes that key's bit and no other. */
  function SetState(c: Controller, key: Key, pressed: bool): (r: Controller)
    ensures Pressed(r.primary, key) <==> pressed
    ensures forall k: Key :: k != key ==> (Pressed(r.primary, k) <==> Pressed(c.primary, k))
    ensures r.polled == c.polled && r.polling == c.polling
  {
    var primary := if pressed then c.primary | KeyMask(key) else c.primary & !KeyMask(key);
    MaskBits(c.primary, key, pressed);
    c.(primary := primary)
  }

  lemma MaskBits(s: bv8, key: Key, pressed: bool)
    ensures var t := if pressed then s | KeyMask(key) else s & !KeyMask(key);
      (Pressed(t, key) <==> pressed)
      && forall k: Key :: k != key ==> (Pressed(t, k) <==> Pressed(s, k))
  {
    var t := if pressed then s | KeyMask(key) else s & !KeyMask(key);
    MaskIsBit(t, key);
    forall k: Key | k != key
      ensures Pressed(t, k) <==> Pressed(s, k)
    {
      MaskIsBit(t, k);
      MaskIsBit(s, k);
      assert KeyMask(k) & KeyMask(key) == 0;
    }
  }

  datatype ReadResult = ReadResult(value: bv8, controller: Controller)

  /** A read: while the strobe is high the register is first refreshed from
      the live buttons; the result is bit 0 and the register shifts right. */
  function Read(c: Controller): (r: ReadResult)
    ensures r.value < 2
    ensures c.polling ==> r.value == BitAt(c.primary, 0) && r.controller.polling
    ensures !c.polling ==> r.value == BitAt(c.polled, 0) && r.controller == c.(polled := c.polled >> 1)
    ensures r.controller.primary == c.primary && r.controller.polling == c.polling
  {
    var polled := if c.polling then c.primary else c.polled;
    ReadResult(polled & 1, c.(polled := polled >> 1))
  }

  /** A write: only bit 0 matters; a change of the strobe reloads the shift
      register from the live buttons. */
  function Write(c: Controller, data: bv8): (r: Controller)
    ensures r.polling <==> data & 1 == 1
    ensures r.primary == c.primary
    ensures c.polling != (data & 1 == 1) ==> r.polled == c.primary
    ensures c.polling == (data & 1 == 1) ==> r.polled == c.polled
    ensures Write(c, data & 1) == r
  {
    var newPolling := data & 1 == 1;
    var polled := if c.polling != newPolling then c.primary else c.polled;
    c.(polled := polled, polling := newPolling)
  }

  /** `n` reads in a row. */
  function Reads(c: Controller, n: nat): (vs: seq<bv8>)
    ensures |vs| == n
    decreases n
  {
    if n == 0 then [] else var r := Read(c); [r.value] + Reads(r.controller, n - 1)
  }

  lemma ShiftBit(b: bv8, i: nat)
    requires 1 <= i
    ensures BitAt(b >> 1, i - 1) == BitAt(b, i)
  {
    if i < 8 {
      assert (b >> 1) >> (i - 1) == b >> i;
    } else if i == 8 {
      assert (b >> 1) >> 7 == 0;
    }
  }

  /** With the strobe low, consecutive reads shift the latched byte out from
      bit 0 upward, and read 0 once all eight bits are out. */
  lemma {:induction false} ReadsShiftOut(c: Controller, n: nat)
    requires !c.polling
    ensures forall i :: 0 <= i < n ==> Reads(c, n)[i] == BitAt(c.polled, i)
    decreases n
  {
    if n > 0 {
      var r := Read(c);
      ReadsShiftOut(r.controller, n - 1);
      forall i | 0 <= i < n
        ensures Reads(c, n)[i] == BitAt(c.polled, i)
      {
        if i > 0 {
          ShiftBit(c.polled, i);
        }
      }
    }
  }

  /** A strobe pulse (write 1, then write 0) followed by eight reads reports
      A, B, Select, Start, Up, Down, Left and Right in that order; further
      reads report 0. */
  lemma StrobeThenReadButtons(c: Controller, n: nat)
    ensures var vs := Reads(Write(Write(c, 1), 0), n);
      forall k: Key :: KeyIndex(k) < n ==> (vs[KeyIndex(k)] == 1 <==> Pressed(c.primary, k))
    ensures var vs := Reads(Write(Write(c, 1), 0), n);
      forall i :: 8 <= i < n ==> vs[i] == 0
  {
    var latched := Write(Write(c, 1), 0);
    assert latched.polled == c.primary && !latched.polling;
    ReadsShiftOut(latched, n);
  }

  /** While the strobe is high every read reports the A button. */
  lemma {:induction false} StrobeHighReadsA(c: Controller, n: nat)
    requires c.polling
    ensures forall i :: 0 <= i < n ==> Reads(c, n)[i] == BitAt(c.primary, 0)
    decreases n
  {
    if n > 0 {
      StrobeHighReadsA(Read(c).controller, n - 1);
    }
  }
}
