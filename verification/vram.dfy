/** Nametable RAM: 4 KiB of storage behind PPU addresses 0x2000-0x2FFF,
    folded onto 2 KiB by the cartridge's mirroring mode. */
module Vram {

  import opened Common

  /** Only vertical and horizontal mirroring are supported; the emulator
      stops with a fatal error on any other mode. */
  predicate Supported(mode: MirroringMode)
  {
    mode == Vertical || mode == Horizontal
  }

  predicate InRange(address: bv16)
  {
    0x2000 <= address < 0x3000
  }

  /** The storage index of an address: vertical mirroring drops bit 11 (the
      lower nametables repeat the upper ones), horizontal mirroring drops
      bit 10 (the right nametables repeat the left ones). */
  function MapAddress(address: bv16, mode: MirroringMode): (i: nat)
    requires InRange(address) && Supported(mode)
    ensures i < 0x1000
    ensures mode == Vertical ==> i == (address & 0x7FF) as nat && i < 0x800
    ensures mode == Horizontal ==> i == (address & 0xBFF) as nat
  {
    if mode == Vertical then (address & 0x7FF) as nat else (address & 0xBFF) as nat
  }

  /** Vertical mirroring aliases 0x2000+i with 0x2800+i; horizontal
      mirroring aliases 0x2000+i with 0x2400+i and 0x2800+i with 0x2C00+i. */
  lemma Mirroring(offset: bv16)
    requires offset < 0x400
    ensures MapAddress(0x2000 + offset, Vertical) == MapAddress(0x2800 + offset, Vertical)
    ensures MapAddress(0x2400 + offset, Vertical) == MapAddress(0x2C00 + offset, Vertical)
    ensures MapAddress(0x2000 + offset, Vertical) != MapAddress(0x2400 + offset, Vertical)
    ensures MapAddress(0x2000 + offset, Horizontal) == MapAddress(0x2400 + offset, Horizontal)
    ensures MapAddress(0x2800 + offset, Horizontal) == MapAddress(0x2C00 + offset, Horizontal)
    ensures MapAddress(0x2000 + offset, Horizontal) != MapAddress(0x2800 + offset, Horizontal)
  {
  }

  function New(): (v: seq<bv8>)
    ensures |v| == 0x1000
    ensures forall i :: 0 <= i < 0x1000 ==> v[i] == 0
  {
    seq(0x1000, _ => 0)
  }

  function Read(v: seq<bv8>, address: bv16, mode: MirroringMode, device: Device): (b: bv8)
    requires |v| == 0x1000 && device == Ppu && InRange(address) && Supported(mode)
    ensures b == v[MapAddress(address, mode)]
  {
    v[MapAddress(address, mode)]
  }

  function Write(v: seq<bv8>, address: bv16, data: bv8, mode: MirroringMode, device: Device): (w: seq<bv8>)
    requires |v| == 0x1000 && device == Ppu && InRange(address) && Supported(mode)
    ensures |w| == 0x1000
    ensures w[MapAddress(address, mode)] == data
    ensures forall i :: 0 <= i < 0x1000 && i != MapAddress(address, mode) ==> w[i] == v[i]
  {
    v[MapAddress(address, mode) := data]
  }

  /** A read after a write sees the byte through every aliasing address and
      the old contents elsewhere. */
  lemma ReadAfterWrite(v: seq<bv8>, a: bv16, b: bv16, data: bv8, mode: MirroringMode)
    requires |v| == 0x1000 && InRange(a) && InRange(b) && Supported(mode)
    ensures MapAddress(a, mode) == MapAddress(b, mode) ==> Read(Write(v, a, data, mode, Ppu), b, mode, Ppu) == data
    ensures MapAddress(a, mode) != MapAddress(b, mode) ==> Read(Write(v, a, data, mode, Ppu), b, mode, Ppu) == Read(v, b, mode, Ppu)
  {
    var i := MapAddress(a, mode) as int;
    var j := MapAddress(b, mode) as int;
    var w := Write(v, a, data, mode, Ppu);
    assert Read(w, b, mode, Ppu) == w[j];
    if i != j {
      assert w[j] == v[j];
    }
  }
}
