/** Types shared by every component: the device a bus access comes from, the
    nametable mirroring modes, and the optional and fallible results. */
module Common {

  /** Which processor performs a bus access; cartridge and PPU memory treat
      the two differently. */
  datatype Device = Cpu | Ppu

  datatype MirroringMode =
    | Vertical
    | Horizontal
    | SingleScreenLowBank
    | SingleScreenHighBank
    | FourScreen

  datatype Option<+T> = None | Some(value: T)

  datatype Result<+T, +E> = Ok(value: T) | Err(error: E)

  /** Save-state loading fails when the stored bytes run out (an I/O error
      in the emulator) or do not describe a valid state. */
  datatype SaveError = IoError | Others
}
