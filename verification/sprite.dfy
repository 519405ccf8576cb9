/** One object-attribute-memory entry: four bytes (Y, tile, attributes, X)
    as the CPU sees them, plus the two pattern bytes of the row being drawn. */
module Sprite {

  datatype Sprite = Sprite(x: bv8, y: bv8, tile: bv8, attributes: bv8, pattern0: bv8, pattern1: bv8)

  function Empty(): (s: Sprite)
    ensures ReadOffset(s, 0) == 0 && ReadOffset(s, 1) == 0 && ReadOffset(s, 2) == 0 && ReadOffset(s, 3) == 0
  {
    Sprite(0, 0, 0, 0, 0, 0)
  }

  /** Every attribute bit that has a meaning: palette, priority and both flips. */
  const AllAttributes: bv8 := 0xE3

  /** The sprite used for empty OAM slots: 0xFF in every byte except the
      attributes, which hold every defined attribute bit (the unused bits
      2-4 stay clear). Its Y byte reads back as 0xFE. */
  function FilledFF(): (s: Sprite)
    ensures ReadOffset(s, 0) == 0xFE && ReadOffset(s, 1) == 0xFF && ReadOffset(s, 3) == 0xFF
    ensures ReadOffset(s, 2) == 0xE3 && s.attributes & 0x1C == 0
    ensures Palette(s.attributes) == 3 && IsFlipHorizontal(s.attributes) && IsFlipVertical(s.attributes)
    ensures IsBehindBackground(s.attributes)
  {
    Sprite(0xFF, 0xFF, 0xFF, AllAttributes, 0xFF, 0xFF)
  }

  /** The palette number: the low two attribute bits. */
  function Palette(attributes: bv8): (p: bv8)
    ensures p < 4
    ensures p == attributes % 4
  {
    attributes & 3
  }

  predicate IsFlipHorizontal(attributes: bv8) { attributes & 0x40 != 0 }
  predicate IsFlipVertical(attributes: bv8) { attributes & 0x80 != 0 }
  predicate IsBehindBackground(attributes: bv8) { attributes & 0x20 != 0 }

  function SetPattern(s: Sprite, p0: bv8, p1: bv8): (r: Sprite)
    ensures r.pattern0 == p0 && r.pattern1 == p1
    ensures r.(pattern0 := s.pattern0, pattern1 := s.pattern1) == s
  {
    s.(pattern0 := p0, pattern1 := p1)
  }

  /** Bit `k` of a byte. */
  function Bit(b: bv8, k: bv8): bv8
    requires k < 8
  {
    (b >> k) & 1
  }

  /** The 2-bit colour of the sprite at screen column `x`: 0 outside the
      sprite's eight columns, otherwise the pattern bits of that column
      (leftmost column = most significant bit, reversed by a horizontal flip). */
  function ColorBits(s: Sprite, x: bv16): (c: bv8)
    ensures c < 4
    ensures x - (s.x as bv16) >= 8 ==> c == 0
  {
    var dx := x - (s.x as bv16);
    if dx < 8 then
      var k := if !IsFlipHorizontal(s.attributes) then 7 - (dx as bv8) else dx as bv8;
      (Bit(s.pattern1, k) << 1) | Bit(s.pattern0, k)
    else
      0
  }

  /** Columns left of the sprite, and columns eight or more to its right,
      are transparent. */
  lemma OutsideIsTransparent(s: Sprite, x: bv16)
    requires x < (s.x as bv16) || x >= (s.x as bv16) + 8
    ensures ColorBits(s, x) == 0
  {
  }

  /** Column `i` of an unflipped sprite shows bit `7 - i` of both pattern bytes. */
  lemma ColumnBits(s: Sprite, i: bv8)
    requires i < 8 && !IsFlipHorizontal(s.attributes)
    ensures ColorBits(s, (s.x as bv16) + (i as bv16)) == (Bit(s.pattern1, 7 - i) << 1) | Bit(s.pattern0, 7 - i)
  {
  }

  /** Flipping horizontally mirrors the eight columns. */
  lemma FlipMirrors(s: Sprite, i: bv8)
    requires i < 8
    ensures ColorBits(s.(attributes := s.attributes ^ 0x40), (s.x as bv16) + (i as bv16))
         == ColorBits(s, (s.x as bv16) + ((7 - i) as bv16))
  {
    var f := s.(attributes := s.attributes ^ 0x40);
    assert ((s.x as bv16) + (i as bv16)) - (f.x as bv16) == i as bv16;
    assert ((s.x as bv16) + ((7 - i) as bv16)) - (s.x as bv16) == (7 - i) as bv16;
    assert IsFlipHorizontal(f.attributes) <==> !IsFlipHorizontal(s.attributes);
  }

  /** The OAM byte at `offset`. The Y byte is stored one line lower than
      written, so it reads back one less (except a stored 0). */
  function ReadOffset(s: Sprite, offset: bv8): (v: bv8)
    requires offset < 4
    ensures offset == 0 && s.y != 0 ==> v + 1 == s.y
    ensures offset == 0 && s.y == 0 ==> v == 0
    ensures offset == 1 ==> v == s.tile
    ensures offset == 2 ==> v == s.attributes
    ensures offset == 3 ==> v == s.x
  {
    match offset
    case 0 => if s.y != 0 then s.y - 1 else s.y
    case 1 => s.tile
    case 2 => s.attributes
    case _ => s.x
  }

  /** Stores an OAM byte. The Y byte is stored plus one, except that 255
      is stored as it is rather than wrapping. */
  function WriteOffset(s: Sprite, offset: bv8, data: bv8): (r: Sprite)
    requires offset < 4
    ensures offset == 0 && data != 255 ==> r == s.(y := data + 1)
    ensures offset == 0 && data == 255 ==> r == s.(y := 255)
    ensures offset == 1 ==> r == s.(tile := data)
    ensures offset == 2 ==> r == s.(attributes := data)
    ensures offset == 3 ==> r == s.(x := data)
  {
    match offset
    case 0 => s.(y := if data != 255 then data + 1 else data)
    case 1 => s.(tile := data)
    case 2 => s.(attributes := data)
    case _ => s.(x := data)
  }

  /** Every OAM byte reads back as written, except a Y byte of 255, which
      reads back as 254. */
  lemma WriteThenRead(s: Sprite, offset: bv8, data: bv8)
    requires offset < 4
    ensures offset != 0 || data != 255 ==> ReadOffset(WriteOffset(s, offset, data), offset) == data
    ensures offset == 0 && data == 255 ==> ReadOffset(WriteOffset(s, offset, data), offset) == 254
  {
    if offset == 0 && data != 255 {
      assert (data + 1) - 1 == data;
    }
  }

  /** Writing one OAM byte leaves the other three and the pattern alone. */
  lemma WriteKeepsOthers(s: Sprite, offset: bv8, other: bv8, data: bv8)
    requires offset < 4 && other < 4 && other != offset
    ensures ReadOffset(WriteOffset(s, offset, data), other) == ReadOffset(s, other)
    ensures WriteOffset(s, offset, data).pattern0 == s.pattern0 && WriteOffset(s, offset, data).pattern1 == s.pattern1
  {
    var r := WriteOffset(s, offset, data);
    if other == 0 {
      assert r.y == s.y;
    } else if other == 1 {
      assert r.tile == s.tile;
    } else if other == 2 {
      assert r.attributes == s.attributes;
    } else {
      assert r.x == s.x;
    }
  }
}
