/** Palette RAM: 32 colour entries behind PPU addresses 0x3F00-0x3FFF,
    mirrored every 32 bytes, with the four sprite backdrop entries aliasing
    the background ones. */
module Palette {

  import opened Common

  /** Power-on contents. */
  const Initial: seq<bv8> := [
    0x09, 0x01, 0x00, 0x01, 0x00, 0x02, 0x02, 0x0D, 0x08, 0x10, 0x08, 0x24, 0x00, 0x00,
    0x04, 0x2C, 0x09, 0x01, 0x34, 0x03, 0x00, 0x04, 0x00, 0x14, 0x08, 0x3A, 0x00, 0x02,
    0x00, 0x20, 0x2C, 0x08
  ]

  predicate InRange(address: bv16)
  {
    0x3F00 <= address < 0x4000
  }

  /** The entry an address selects: the low five bits, except that 0x3F10,
      0x3F14, 0x3F18 and 0x3F1C (and their mirrors) select entries 0, 4, 8
      and 0xC. */
  function MapAddress(address: bv16): (i: bv8)
    ensures i < 32
    ensures address & 0x10 == 0 ==> i == (address & 0x1F) as bv8
    ensures address & 3 != 0 ==> i == (address & 0x1F) as bv8
    ensures address & 0x13 == 0x10 ==> i == (address & 0x0F) as bv8
  {
    if address & 0x10 != 0 && address & 3 == 0 then (address & 0xF) as bv8
    else (address & 0x1F) as bv8
  }

  /** Addresses 32 apart select the same entry. */
  lemma Mirrored(address: bv16)
    requires InRange(address) && InRange(address + 32)
    ensures MapAddress(address) == MapAddress(address + 32)
  {
  }

  /** Each sprite backdrop address selects the matching background entry. */
  lemma BackdropAliases(address: bv16)
    requires InRange(address) && address & 0x13 == 0x10
    ensures MapAddress(address) == MapAddress(address - 0x10)
  {
  }

  function New(): (p: seq<bv8>)
    ensures |p| == 32 && p == Initial
  {
    Initial
  }

  /** Reads come from the PPU inside the palette window only. */
  function Read(p: seq<bv8>, address: bv16, device: Device): (v: bv8)
    requires |p| == 32 && device == Ppu && InRange(address)
    ensures v == p[MapAddress(address)]
  {
    p[MapAddress(address) as int]
  }

  function Write(p: seq<bv8>, address: bv16, data: bv8, device: Device): (q: seq<bv8>)
    requires |p| == 32 && device == Ppu && InRange(address)
    ensures |q| == 32
    ensures q[MapAddress(address)] == data
    ensures forall i :: 0 <= i < 32 && i != MapAddress(address) as int ==> q[i] == p[i]
  {
    p[MapAddress(address) as int := data]
  }

  /** A read after a write sees the written byte through every address that
      aliases the written one, and the old contents everywhere else. */
  lemma ReadAfterWrite(p: seq<bv8>, a: bv16, b: bv16, data: bv8)
    requires |p| == 32 && InRange(a) && InRange(b)
    ensures MapAddress(a) == MapAddress(b) ==> Read(Write(p, a, data, Ppu), b, Ppu) == data
    ensures MapAddress(a) != MapAddress(b) ==> Read(Write(p, a, data, Ppu), b, Ppu) == Read(p, b, Ppu)
  {
  }

  /** The save state is the 32 entries in order. */
  function Save(p: seq<bv8>): (bytes: seq<bv8>)
    requires |p| == 32
    ensures |bytes| == 32 && Load(bytes) == Ok(p)
  {
    assert p[..32] == p;
    p
  }

  /** Loading takes the first 32 bytes, and fails when fewer are available. */
  function Load(bytes: seq<bv8>): (r: Result<seq<bv8>, SaveError>)
    ensures |bytes| < 32 <==> r.Err?
    ensures r.Ok? ==> r.value == bytes[..32]
  {
    if |bytes| < 32 then Err(IoError) else Ok(bytes[..32])
  }
}
