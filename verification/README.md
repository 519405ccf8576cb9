# plastic NES emulator core in Dafny

This project models the core of *plastic*, a Nintendo Entertainment System
emulator written in Rust. The model covers:

- the Ricoh 2A03 CPU, a 6502 without decimal mode: instruction decoding,
  addressing modes, the ALU, the stack and interrupts, per-instruction
  timing, OAM DMA and the DMC sample steal;
- the CPU and PPU buses that route addresses to RAM, the PPU, the APU,
  the controllers and the cartridge;
- the cartridge: iNES and NES 2.0 headers and bank-mapped memory;
- mappers 0 (NROM), 1 (MMC1), 2 (UxROM), 3 (CNROM), 4 (MMC3), 7 (AxROM),
  9 (MMC2), 11 (Color Dreams) and 66 (GxROM);
- the APU units: sequencer, channel timer, envelope, length counter, and
  the square, triangle, noise and DMC channels;
- the PPU units: register file, nametable VRAM, palette and sprites;
- the standard controller.

Each source component is one module in one file. Bytes and addresses are
`bv8` and `bv16`, so the wrapping arithmetic of the Rust code is exact.
Byte offsets into ROM and RAM are `nat`. Operations are pure functions
that return the new state. Where a read has side effects (the MMC3 IRQ
counter, the MMC2 latches, the controller shift register), the function
returns both the value and the new state. The CPU sees its 64 KiB as a
function from address to byte. The bus devices behind that memory are
modelled separately in `Bus`, where their signals to the CPU (NMI, DMA,
IRQ, DMC request) become inputs of `CpuRun.RunNext`.

## Model

| member | source | states |
|---|---|---|
| Sequencer.New | plastic_core/src/apu2a03/sequencer.rs:10-15 | a fresh sequencer has an empty table, so it outputs 0 and clocking does not move it |
| Sequencer.SetSequence | plastic_core/src/apu2a03/sequencer.rs:17-21 | the table is replaced by the new values and the position is kept |
| Sequencer.CurrentValue | plastic_core/src/apu2a03/sequencer.rs:23-25 | the value under the position, or 0 when the position is past the end of the table |
| Sequencer.Clock | plastic_core/src/apu2a03/sequencer.rs:31-35 | one step forward modulo the table length; an empty table never moves; the table is unchanged |
| Sequencer.Reset | plastic_core/src/apu2a03/sequencer.rs:37-39 | the position returns to the first entry, whose value is then the output |
| Sequencer.ClockNAdvances | plastic_core/src/apu2a03/sequencer.rs:31-35 | `k` clocks advance the position by `k` modulo the table length |
| Sequencer.Periodic | plastic_core/src/apu2a03/sequencer.rs:31-35 | clocking a whole table length brings the sequencer back to where it was |
| ChannelTimer.Clock | plastic_core/src/apu2a03/channels/square.rs:149-157 | the channel timer fires exactly when it is at zero, then reloads the period; otherwise it counts down by one |
| ChannelTimer.CountsDown | plastic_core/src/apu2a03/channels/square.rs:149-157 | a timer at `c` counts down for `c` clocks without firing |
| ChannelTimer.FiresOncePerPeriod | plastic_core/src/apu2a03/channels/square.rs:149-157 | an expired timer fires exactly once in `period + 1` clocks and is then at zero again |
| ChannelTimer.ClockNSplit | plastic_core/src/apu2a03/channels/square.rs:149-157 | one clock followed by `n` clocks is `n + 1` clocks, counting firings |
| ChannelTimer.ClockNAdd | plastic_core/src/apu2a03/channels/square.rs:149-157 | `a` clocks then `b` clocks is `a + b` clocks, and the firings add up |
| ChannelTimer.FiresPerPeriods | plastic_core/src/apu2a03/channels/square.rs:149-157 | an expired timer fires exactly `m` times in `m` whole periods |
| ChannelTimer.ClockSequencer | apu2a03/src/channels/triangle.rs:95-103 | the timer steps its sequencer only on the clock where it fires |
| ChannelTimer.SequencerFollowsTimer | apu2a03/src/channels/triangle.rs:95-103 | after `n` clocks the sequencer has moved once per firing of the timer |
| ChannelTimer.WaveformPeriodic | apu2a03/src/channels/triangle.rs:95-103 | a channel's waveform repeats after `table length * (period + 1)` clocks |
| Envelope.New | apu2a03/src/envelope.rs:17-26 | a fresh envelope is within its 4-bit ranges and outputs volume 0 |
| Envelope.SetVolume | apu2a03/src/envelope.rs:28-33 | the volume must fit 4 bits; constant-volume mode then outputs it, decay mode keeps outputting the decay level |
| Envelope.SetStartFlag | apu2a03/src/envelope.rs:35-37 | sets the start flag and nothing else |
| Envelope.SetLoopFlag | apu2a03/src/envelope.rs:39-41 | sets the loop flag and nothing else |
| Envelope.Volume | apu2a03/src/envelope.rs:72-78 | the output level is the constant volume or the decay level, below 16 |
| Envelope.ClockAsWritten | apu2a03/src/envelope.rs:43-69 | the clock as written: the start flag reloads level 15 and the divider; a running divider counts down and keeps the level; an expired divider reloads, and then the level goes to 15 with the loop flag set whatever it is, and otherwise falls by one and rests at 0; the flags are kept and every field stays 4 bits |
| Envelope.ClocksAgreeOutsideLoopDecay | apu2a03/src/envelope.rs:57-64 | the clock as written and the corrected clock differ exactly on an expired divider with the loop flag set and a level above 0 |
| Envelope.LoopNeverDecaysAsWritten | apu2a03/src/envelope.rs:57-64 | a looping envelope at level 10 goes back to 15 as written, where the intended clock gives 9 |
| Envelope.Clock | apu2a03/src/envelope.rs:43-69 | start reloads 15 and the divider; an expired divider reloads and drops the level by one, and only level 0 reloads 15 when looping; ranges are kept |
| Envelope.DecayCountsDown | apu2a03/src/envelope.rs:43-69 | with divider period 0 the level falls by one per clock |
| Envelope.LoopRestarts | apu2a03/src/envelope.rs:53-56 | a looping envelope at level `d` is back at 15 after `d + 1` clocks |
| Envelope.SilentStaysSilent | apu2a03/src/envelope.rs:53-56 | without the loop flag, level 0 stays 0 forever |
| LengthCounter.Empty | apu2a03/src/length_counter.rs:15-21 | an empty counter is zero, disabled and valid |
| LengthCounter.Reload | apu2a03/src/length_counter.rs:28-35 | the index must be 5 bits; an enabled counter loads the table entry (between 2 and 254), a disabled one is unchanged |
| LengthCounter.Decrement | apu2a03/src/length_counter.rs:40-47 | disabled gives 0; halted holds; otherwise one less, stopping at 0 |
| LengthCounter.SetEnabled | apu2a03/src/length_counter.rs:49-55 | disabling silences at once; enabling keeps the count |
| LengthCounter.SetHalt | apu2a03/src/length_counter.rs:57-59 | sets the halt flag and keeps the counter and enable |
| LengthCounter.GatedOutput | apu2a03/src/length_counter.rs:106-112 | a counted channel outputs its inner channel's level exactly while the counter is non-zero |
| LengthCounter.OperationsPreserveValid | apu2a03/src/length_counter.rs:28-59 | every operation keeps the counter within a byte and zero while disabled |
| LengthCounter.DecrementNCounts | apu2a03/src/length_counter.rs:40-47 | a running counter drops by one per clock until it rests at 0 |
| LengthCounter.SoundsForTableLength | apu2a03/src/length_counter.rs:28-47 | after loading entry `i` the channel sounds for exactly `Table[i]` length clocks |
| LengthCounter.HaltedHolds | apu2a03/src/length_counter.rs:40-47 | a halted counter keeps its value over any number of clocks |
| Square.ShiftRight | plastic_core/src/apu2a03/channels/square.rs:39 | a right shift never grows the value and strictly shrinks a non-zero one |
| Square.TargetPeriod | plastic_core/src/apu2a03/channels/square.rs:38-48 | the sweep target stays within 16 bits, below the period when negating and above it otherwise |
| Square.TargetPeriodShapes | plastic_core/src/apu2a03/channels/square.rs:38-48 | shift 0 doubles the period going up and reaches 0 going down; square 1's downward target is one lower than square 2's |
| Square.New | plastic_core/src/apu2a03/channels/square.rs:22-36 | a new channel is valid, muted and silent, and remembers which square it is |
| Square.SetDutyCycle | plastic_core/src/apu2a03/channels/square.rs:80-83 | the sequencer takes the duty table chosen by the index's low two bits and keeps its position |
| Square.DutyFractions | plastic_core/src/apu2a03/channels/square.rs:51-56 | the four duty tables are high for 1, 2, 4 and 6 of 8 steps |
| Square.SetPeriod | plastic_core/src/apu2a03/channels/square.rs:89-93 | the period is stored and the sweep target recomputed from it; nothing else changes |
| Square.SetSweeperData | plastic_core/src/apu2a03/channels/square.rs:95-104 | the sweep register's fields come from bits 7, 4-6, 3 and 0-2, the reload flag is set and the target recomputed |
| Square.ClockSweeper | plastic_core/src/apu2a03/channels/square.rs:106-117 | the period moves to the target only when the divider expired, sweep is enabled and the channel is not muted; the divider reloads or counts down; the period stays 11 bits |
| Square.TimerClock | plastic_core/src/apu2a03/channels/square.rs:149-157 | the duty sequencer steps exactly when the timer expires |
| Square.ClockEnvelope | plastic_core/src/apu2a03/channels/square.rs:129-131 | clocks the envelope with the corrected clock, keeping it 4 bits, and changes nothing else |
| Square.Reset | plastic_core/src/apu2a03/channels/square.rs:123-125 | the duty sequencer returns to its first step; nothing else changes |
| Square.Muted | plastic_core/src/apu2a03/channels/square.rs:119-121 | the channel is muted exactly when its period is below 8 or an upward sweep targets a period above 0x7FF |
| Square.Output | plastic_core/src/apu2a03/channels/square.rs:119-145 | silent when muted or on a low duty step, otherwise the envelope volume |
| Triangle.RampShape | apu2a03/src/channels/triangle.rs:23-26 | the 32-step table falls from 15 to 0 and mirrors itself, every step 4 bits |
| Triangle.RampValue | apu2a03/src/channels/triangle.rs:23-26 | step `i` of the ramp is `15 - i` in the first half and `i - 16` in the second, always below 16 |
| Triangle.New | apu2a03/src/channels/triangle.rs:21-41 | a new channel holds the ramp at position 0 and is silent |
| Triangle.SetPeriod | apu2a03/src/channels/triangle.rs:47-51 | periods below 2 mute the channel |
| Triangle.SetLinearReloadValue | apu2a03/src/channels/triangle.rs:53-55 | stores the reload value and nothing else |
| Triangle.SetControlFlag | apu2a03/src/channels/triangle.rs:57-59 | stores the control flag and nothing else |
| Triangle.SetReloadFlag | apu2a03/src/channels/triangle.rs:61-63 | stores the reload flag and nothing else |
| Triangle.ClockLinearCounter | apu2a03/src/channels/triangle.rs:65-81 | a pending reload loads the counter and stays pending only with the control flag; otherwise a non-zero counter counts down |
| Triangle.LinearCountsDown | apu2a03/src/channels/triangle.rs:65-81 | without a pending reload the counter falls by one per clock to 0 |
| Triangle.ReloadThenSilence | apu2a03/src/channels/triangle.rs:65-81 | after a reload with control clear the gate stays open for exactly the reload value's number of clocks |
| Triangle.ControlHolds | apu2a03/src/channels/triangle.rs:65-81 | with control set the counter is held at the reload value |
| Triangle.TimerClock | apu2a03/src/channels/triangle.rs:95-103 | the ramp steps exactly when the timer expires |
| Triangle.Output | apu2a03/src/channels/triangle.rs:85-91 | silent when the linear counter is zero or the period ultrasonic, otherwise the ramp value below 16 |
| Noise.New | plastic_core/src/apu2a03/channels/noise.rs:23-34 | the shift register starts at 1 |
| Noise.SetPeriod | plastic_core/src/apu2a03/channels/noise.rs:36-38 | the period is the table entry at the index's low four bits, always at least 4 |
| Noise.SetMode | plastic_core/src/apu2a03/channels/noise.rs:40-42 | stores the mode flag and nothing else |
| Noise.Tap | plastic_core/src/apu2a03/channels/noise.rs:58 | the feedback tap is a bit inside the 15-bit register, bit 6 exactly in short mode |
| Noise.Step | plastic_core/src/apu2a03/channels/noise.rs:58-64 | a shift keeps the register to 15 bits and is undone by `Unstep` |
| Noise.Unstep | plastic_core/src/apu2a03/channels/noise.rs:58-64 | the inverse shift yields a 15-bit register |
| Noise.NeverLocks | plastic_core/src/apu2a03/channels/noise.rs:58-64 | a non-zero 15-bit register never shifts to zero |
| Noise.TimerClock | plastic_core/src/apu2a03/channels/noise.rs:56-70 | the register shifts exactly when the timer expires and stays non-zero |
| Noise.ClockEnvelope | plastic_core/src/apu2a03/channels/noise.rs:74-76 | clocks the envelope with the corrected clock, keeping it 4 bits, and changes nothing else |
| Noise.Output | plastic_core/src/apu2a03/channels/noise.rs:46-52 | the envelope volume while bit 0 of the register is set, else 0 |
| Noise.SingleBitStep | plastic_core/src/apu2a03/channels/noise.rs:56-64 | a single set bit moves down one place; bit 0 wraps to bit 14, and the tap bit also sets bit 14 |
| Dmc.NewAsWritten | apu2a03/src/channels/dmc.rs:34-60 | the power-on state as written: empty buffer, nothing remaining, level 0 and a bit counter of 0 |
| Dmc.NewAsWrittenUnderflows | apu2a03/src/channels/dmc.rs:34-60 | the as-written power-on state has an expired timer and a bit counter of 0, so the first clock decrements 0; the corrected state does not |
| Dmc.New | apu2a03/src/channels/dmc.rs:34-60 | the corrected power-on state is valid (bit counter 8), silent and makes no read request |
| Dmc.SetIrqEnabled | apu2a03/src/channels/dmc.rs:62-69 | disabling the IRQ drops the pin and signals the change; enabling touches nothing else |
| Dmc.SetLoopFlag | apu2a03/src/channels/dmc.rs:71-73 | stores the loop flag and nothing else |
| Dmc.SetRateIndex | apu2a03/src/channels/dmc.rs:75-78 | the timer period is half the rate-table entry at the index's low four bits, between 27 and 214 |
| Dmc.SetDirectLoad | apu2a03/src/channels/dmc.rs:80-82 | the output level becomes the value's low seven bits |
| Dmc.SetSamplesAddress | apu2a03/src/channels/dmc.rs:84-87 | the sample address is `0xC000 + 64 * value`, 64-byte aligned within 0xC000-0xFFC0 |
| Dmc.SetSamplesLength | apu2a03/src/channels/dmc.rs:89-91 | the sample length is `16 * value + 1`, between 1 and 4081 |
| Dmc.RequestRead | apu2a03/src/channels/dmc.rs:93-99 | a read of the address counter is requested exactly when the buffer is empty and bytes remain |
| Dmc.NextAddress | apu2a03/src/channels/dmc.rs:107-112 | the address counter advances by one and wraps from 0xFFFF to 0x8000, never leaving the upper half |
| Dmc.RestartSample | apu2a03/src/channels/dmc.rs:153-156 | the byte and address counters reload from the sample length and address |
| Dmc.Submit | apu2a03/src/channels/dmc.rs:101-125 | the byte fills the buffer, the address advances, one byte fewer remains; the last byte restarts a looping sample or raises the IRQ when enabled |
| Dmc.RemainingMoreThanZero | apu2a03/src/channels/dmc.rs:127-129 | true exactly when an emptied buffer would request a read |
| Dmc.ClearIrqChangeRequest | apu2a03/src/channels/dmc.rs:139-141 | clears the change request and nothing else |
| Dmc.ClearInterruptFlag | apu2a03/src/channels/dmc.rs:143-146 | drops the IRQ pin and signals the change |
| Dmc.ClearRemainingAndSilence | apu2a03/src/channels/dmc.rs:148-151 | no read is requested afterwards and the channel goes silent when the buffer runs out |
| Dmc.Output | apu2a03/src/channels/dmc.rs:160-162 | the output is the level's low seven bits |
| Dmc.NextLevel | apu2a03/src/channels/dmc.rs:168-174 | the level moves by 2 up on a one and down on a zero, stays in 0..127, and holds while silent |
| Dmc.ClockOutputUnit | apu2a03/src/channels/dmc.rs:167-194 | the level follows the shifted bit; after the eighth bit the buffer is loaded into the shifter (or the channel goes silent) and the counter restarts at 8 |
| Dmc.TimerClock | apu2a03/src/channels/dmc.rs:166-200 | the output unit runs exactly when the timer expires; validity is kept |
| Dmc.WithTimer | apu2a03/src/channels/dmc.rs:196-198 | replacing the timer does not affect validity |
| Dmc.FeedCountsDown | apu2a03/src/channels/dmc.rs:101-125 | delivering fewer bytes than remain counts down by one per byte and leaves the IRQ pin alone |
| Dmc.IrqAtLastByte | apu2a03/src/channels/dmc.rs:114-124 | a one-shot sample with IRQ enabled raises the IRQ exactly at its last byte and not before |
| Dmc.LoopRestarts | apu2a03/src/channels/dmc.rs:117-156 | a looping sample restarts from its own address and length at its last byte |
| Dmc.FeedAppend | apu2a03/src/channels/dmc.rs:101-125 | delivering one more byte is one more `Submit` after the earlier ones |
| Controller.KeyIndex | plastic_core/src/controller/mod.rs:6-15 | each key owns one of the eight bits, A lowest and Right highest |
| Controller.MaskIsBit | plastic_core/src/controller/mod.rs:6-15 | a key's mask selects exactly that key's bit |
| Controller.BitAt | plastic_core/src/controller/mod.rs:76 | a bit of the shift register reads as 0 or 1 |
| Controller.New | plastic_core/src/controller/mod.rs:56-63 | a new controller has no key pressed and the strobe low |
| Controller.SetState | plastic_core/src/controller/mod.rs:31-67 | pressing or releasing a key changes that key's bit and no other, and leaves the shift register and strobe alone |
| Controller.MaskBits | plastic_core/src/controller/mod.rs:31-37 | setting or clearing one key's mask changes that key's bit and no other |
| Controller.Read | plastic_core/src/controller/mod.rs:71-81 | a read returns bit 0 of the register, refreshed from the live buttons while the strobe is high, and shifts the register right |
| Controller.Write | plastic_core/src/controller/mod.rs:83-92 | only bit 0 of the data matters; a change of the strobe reloads the register from the live buttons |
| Controller.Reads | plastic_core/src/controller/mod.rs:71-81 | `n` reads give `n` bits |
| Controller.ShiftBit | plastic_core/src/controller/mod.rs:78 | after a shift, bit `i - 1` is the old bit `i` |
| Controller.ReadsShiftOut | plastic_core/src/controller/mod.rs:71-81 | with the strobe low, read `i` reports bit `i` of the latched byte, and 0 past the eighth |
| Controller.StrobeThenReadButtons | plastic_core/src/controller/mod.rs:71-92 | a strobe pulse and eight reads report A, B, Select, Start, Up, Down, Left, Right, then zeros |
| Controller.StrobeHighReadsA | plastic_core/src/controller/mod.rs:71-81 | while the strobe is high every read reports the A button |
| PpuRegisters.RegisterAt | ppu2c02/src/ppu2c02_registers.rs:8-37 | an address names a register exactly when it is in 0x2000-0x2007 or is 0x4014, with status at 0x2002, scroll at 0x2005 and address at 0x2006 |
| PpuRegisters.New | ppu2c02/src/ppu2c02.rs:33-57 | power-on is the pre-render scanline 261 at dot 0, toggle clear, readable registers 0 |
| PpuRegisters.ReadRegister | ppu2c02/src/ppu2c02.rs:59-69 | only the status and DMA registers are readable; the others read 0 |
| PpuRegisters.WriteRegisterAsWritten | ppu2c02/src/ppu2c02.rs:71-113 | the write as written: the first scroll write sets Y and the second X; the first address write copies the half-built temporary address to the current one |
| PpuRegisters.WriteRegister | ppu2c02/src/ppu2c02.rs:71-113 | the corrected write: X first, then Y; the current address is loaded from the temporary one after the low byte; all other registers as written; exactly scroll and address writes flip the toggle |
| PpuRegisters.OtherRegisterWrites | ppu2c02/src/ppu2c02.rs:73-111 | a control write stores the byte and the base nametable from its low two bits; a status write changes nothing; only scroll and address writes move the toggle |
| PpuRegisters.Read | ppu2c02/src/ppu2c02_registers.rs:43-49 | a CPU read of a register address; 0x2002 reads the status |
| PpuRegisters.Write | ppu2c02/src/ppu2c02_registers.rs:51-57 | a CPU write of a register address, through the corrected register write; 0x2002 is ignored and 0x2000 sets control and the nametable selector |
| PpuRegisters.TwoWritesRestoreToggle | ppu2c02/src/ppu2c02.rs:80-106 | any two scroll or address writes bring the toggle back, in both write models |
| PpuRegisters.ScrollPairAsWritten | ppu2c02/src/ppu2c02.rs:80-88 | as written, two scroll writes put the first byte in Y and the second in X |
| PpuRegisters.ScrollPair | ppu2c02/src/ppu2c02.rs:80-88 | corrected, two scroll writes set X from the first byte and Y from the second |
| PpuRegisters.AddressPairAsWritten | ppu2c02/src/ppu2c02.rs:89-106 | as written, writing 0x21 then 0x08 leaves the current address at 0x2100 |
| PpuRegisters.AddressPair | ppu2c02/src/ppu2c02.rs:89-106 | corrected, two address writes load the current address with high byte then low byte |
| Vram.MapAddress | ppu2c02/src/vram.rs:31-42 | vertical mirroring drops bit 11 and horizontal mirroring drops bit 10 of the address, giving an index into the 4 KiB store |
| Vram.Mirroring | ppu2c02/src/vram.rs:18-30 | vertical mirroring aliases 0x2000 with 0x2800 and 0x2400 with 0x2C00 but not 0x2000 with 0x2400; horizontal aliases 0x2000 with 0x2400 and 0x2800 with 0x2C00 but not 0x2000 with 0x2800 |
| Vram.New | ppu2c02/src/vram.rs:11-16 | 4 KiB of zeros |
| Vram.Read | ppu2c02/src/vram.rs:46-52 | only the PPU reads, inside 0x2000-0x2FFF, the byte at the mirrored index |
| Vram.Write | ppu2c02/src/vram.rs:53-59 | only the PPU writes, storing at the mirrored index and nowhere else |
| Vram.ReadAfterWrite | ppu2c02/src/vram.rs:46-59 | a read sees a written byte through every aliasing address and the old contents elsewhere |
| Palette.MapAddress | ppu2c02/src/palette.rs:21-28 | the entry is the low five address bits, except that the sprite backdrops 0x3F10/14/18/1C select the background entries |
| Palette.Mirrored | ppu2c02/src/palette.rs:21-28 | addresses 32 apart select the same entry |
| Palette.BackdropAliases | ppu2c02/src/palette.rs:21-28 | each sprite backdrop address selects the matching background entry |
| Palette.New | ppu2c02/src/palette.rs:11-19 | the power-on palette is the fixed 32-entry table |
| Palette.Read | ppu2c02/src/palette.rs:38-42 | only the PPU reads, inside 0x3F00-0x3FFF, the entry the address selects |
| Palette.Write | ppu2c02/src/palette.rs:43-47 | only the PPU writes, storing the selected entry and nothing else |
| Palette.ReadAfterWrite | ppu2c02/src/palette.rs:38-47 | a read sees a written byte through every aliasing address and the old contents elsewhere |
| Palette.Save | ppu2c02/src/palette.rs:51-55 | the save state is the 32 entries, and loading it gives them back |
| Palette.Load | ppu2c02/src/palette.rs:57-61 | loading fails exactly when fewer than 32 bytes are available, and otherwise takes the first 32 |
| Sprite.Empty | plastic_core/src/ppu2c02/sprite.rs:41-49 | all four OAM bytes of an empty sprite read 0 |
| Sprite.FilledFF | plastic_core/src/ppu2c02/sprite.rs:51-60 | the filler sprite reads Y as 0xFE, tile and X as 0xFF and attributes as 0xE3, every defined attribute set |
| Sprite.Palette | plastic_core/src/ppu2c02/sprite.rs:15-17 | the palette number is the low two attribute bits |
| Sprite.SetPattern | plastic_core/src/ppu2c02/sprite.rs:82-84 | stores the two pattern bytes and nothing else |
| Sprite.ColorBits | plastic_core/src/ppu2c02/sprite.rs:86-98 | a 2-bit colour, 0 outside the sprite's eight columns |
| Sprite.OutsideIsTransparent | plastic_core/src/ppu2c02/sprite.rs:86-98 | columns left of the sprite or eight or more to its right are transparent |
| Sprite.ColumnBits | plastic_core/src/ppu2c02/sprite.rs:86-98 | column `i` of an unflipped sprite shows bit `7 - i` of both pattern bytes |
| Sprite.FlipMirrors | plastic_core/src/ppu2c02/sprite.rs:89-92 | a horizontal flip mirrors the eight columns |
| Sprite.ReadOffset | plastic_core/src/ppu2c02/sprite.rs:100-114 | OAM byte 0 reads Y minus one (0 stays 0), then tile, attributes and X |
| Sprite.WriteOffset | plastic_core/src/ppu2c02/sprite.rs:116-131 | OAM byte 0 stores Y plus one except 255; the others store the byte as it is |
| Sprite.WriteThenRead | plastic_core/src/ppu2c02/sprite.rs:100-131 | every OAM byte reads back as written, except a Y of 255, which reads back as 254 |
| Sprite.WriteKeepsOthers | plastic_core/src/ppu2c02/sprite.rs:116-131 | writing one OAM byte leaves the other three and the pattern alone |
| Banking.PrgWindow | plastic_core/src/cartridge/mappers/mapper0.rs:33-37 | a CPU address of 0x8000-0xFFFF lies at its distance from 0x8000 inside the 32 KiB window |
| Banking.WrappedBank | plastic_core/src/cartridge/mappers/mapper2.rs:43-48 | the offset of a bank reduced modulo the bank count lies inside the banks, and division and remainder by the bank size give back the reduced bank and the in-bank offset |
| Banking.PrgBank32K | cartridge/src/mappers/mapper66.rs:67-71 | a 32 KiB PRG bank modulo the count, at the CPU address's offset in the window: inside the PRG data, in the reduced bank, at the right in-bank offset |
| Banking.ChrBank8K | cartridge/src/mappers/mapper66.rs:43-49 | an 8 KiB CHR bank modulo the count, at the pattern address: inside the CHR data, in the reduced bank, at the pattern address's offset |
| Mapper0.New | plastic_core/src/cartridge/mappers/mapper0.rs:10-15 | a fresh NROM assumes 16 KiB PRG and CHR ROM |
| Mapper0.Init | plastic_core/src/cartridge/mappers/mapper0.rs:19-25 | accepts one or two 16 KiB banks only; two select the 32 KiB layout; the CHR RAM flag is kept |
| Mapper0.PrgSize | plastic_core/src/cartridge/mappers/mapper0.rs:36-44 | the PRG bytes addressed are 16 or 32 KiB |
| Mapper0.Offset16K | plastic_core/src/cartridge/mappers/mapper0.rs:43 | clearing bits 14 and 15 gives the offset inside a 16 KiB bank of either half of 0x8000-0xFFFF |
| Mapper0.PrgOffset | plastic_core/src/cartridge/mappers/mapper0.rs:32-46 | the PRG offset stays inside the PRG size and is the address less 0x8000, or less 0xC000 in the upper half of a 16 KiB cartridge |
| Mapper0.MapRead | plastic_core/src/cartridge/mappers/mapper0.rs:27-61 | a CPU read is allowed exactly from 0x8000 (refused for 0x4020-0x7FFF) and lands at the PRG offset; a PPU read maps a pattern address to itself |
| Mapper0.MapWrite | plastic_core/src/cartridge/mappers/mapper0.rs:63-76 | CPU writes are always refused; a PPU write is allowed exactly for CHR RAM below 0x2000, at the address itself |
| Mapper0.HalfSizeMirrors | plastic_core/src/cartridge/mappers/mapper0.rs:38-43 | with one 16 KiB bank, 0x8000 + i and 0xC000 + i read the same PRG byte i |
| Mapper0.SaveState | plastic_core/src/cartridge/mappers/mapper0.rs:82-84 | one byte whose bit 0 is the 32 KiB flag and bit 1 the CHR RAM flag |
| Mapper0.LoadState | plastic_core/src/cartridge/mappers/mapper0.rs:86-91 | the flags are read back from bits 0 and 1 of the first byte |
| Mapper0.SaveLoad | plastic_core/src/cartridge/mappers/mapper0.rs:82-91 | loading a saved state restores the mapper exactly, whatever it replaces |
| Mapper2.New | plastic_core/src/cartridge/mappers/mapper2.rs:14-20 | bank register and bank count zero, CHR ROM |
| Mapper2.Init | plastic_core/src/cartridge/mappers/mapper2.rs:24-27 | records the 16 KiB bank count and the CHR RAM flag and keeps the bank register |
| Mapper2.SelectedBank | plastic_core/src/cartridge/mappers/mapper2.rs:35-41 | 0x8000-0xBFFF selects the register's low nibble and 0xC000-0xFFFF the last bank |
| Mapper2.PrgOffset | plastic_core/src/cartridge/mappers/mapper2.rs:35-48 | the PRG offset lies inside the banks, in the selected bank modulo the count, at the address's offset inside its 16 KiB window |
| Mapper2.MapRead | plastic_core/src/cartridge/mappers/mapper2.rs:29-64 | a CPU read is allowed exactly from 0x8000 and lands at the PRG offset; a PPU read maps a pattern address to itself |
| Mapper2.UpperWindowIsLastBank | plastic_core/src/cartridge/mappers/mapper2.rs:37-43 | 0xC000-0xFFFF always reads from the last 16 KiB bank |
| Mapper2.MapWrite | plastic_core/src/cartridge/mappers/mapper2.rs:66-86 | a CPU write from 0x8000 stores the whole byte as the bank register, other CPU writes change nothing, and all CPU writes are refused; PPU writes reach CHR RAM below 0x2000 only |
| Mapper2.WriteSelectsBank | plastic_core/src/cartridge/mappers/mapper2.rs:35-48 | after a bank write, 0x8000-0xBFFF reads the written low nibble modulo the count and 0xC000-0xFFFF reads as before |
| Mapper2.SaveState | plastic_core/src/cartridge/mappers/mapper2.rs:92-94 | three bytes: bank register, bank count, CHR RAM flag |
| Mapper2.LoadState | plastic_core/src/cartridge/mappers/mapper2.rs:96-100 | the three fields are read back from the first three bytes |
| Mapper2.SaveLoad | plastic_core/src/cartridge/mappers/mapper2.rs:92-100 | loading a saved state restores the mapper exactly |
| Mapper3.New | cartridge/src/mappers/mapper3.rs:13-19 | 16 KiB PRG, CHR bank and count zero |
| Mapper3.Init | cartridge/src/mappers/mapper3.rs:23-28 | accepts one or two 16 KiB PRG banks only; two select the 32 KiB layout; the CHR count is recorded and the CHR bank kept |
| Mapper3.Offset16K | cartridge/src/mappers/mapper3.rs:43 | clearing bits 14 and 15 gives the offset inside a 16 KiB bank of either half of 0x8000-0xFFFF |
| Mapper3.MapCpuRead | cartridge/src/mappers/mapper3.rs:32-48 | the PRG offset is inside 16 or 32 KiB: the distance from 0x8000 for 32 KiB, the address modulo 16 KiB otherwise |
| Mapper3.HalfSizeMirrors | cartridge/src/mappers/mapper3.rs:38-43 | with one 16 KiB bank, 0x8000 + i and 0xC000 + i read the same PRG byte i |
| Mapper3.ChrOffset | cartridge/src/mappers/mapper3.rs:53-55 | division and remainder by 8 KiB give back the CHR bank and the pattern address |
| Mapper3.MapPpuRead | cartridge/src/mappers/mapper3.rs:49-59 | with the bank not above the count (asserted), a pattern read lands in the selected 8 KiB bank at the pattern address |
| Mapper3.MapWrite | cartridge/src/mappers/mapper3.rs:63-82 | a CPU write from 0x8000 selects the CHR bank, only its low two bits when there are at most four banks; every other write changes nothing |
| Mapper3.SmallChrWriteStaysInFourBanks | cartridge/src/mappers/mapper3.rs:68-72 | with at most four CHR banks, a bank write leaves a bank below four, so pattern reads stay in the first 32 KiB |
| Mapper3.IsHardwiredMirrored | cartridge/src/mappers/mapper3.rs:84-86 | the mirroring always comes from the header |
| Mapper3.IsIrqRequested | cartridge/src/mappers/mapper3.rs:92-94 | the mapper never requests an interrupt |
| Mapper7.New | plastic_core/src/cartridge/mappers/mapper7.rs:21-28 | bank, count and both flags cleared |
| Mapper7.Init | plastic_core/src/cartridge/mappers/mapper7.rs:32-38 | accepts an even positive count of 16 KiB banks and keeps half of it as the 32 KiB count; the CHR RAM flag is recorded |
| Mapper7.MapRead | plastic_core/src/cartridge/mappers/mapper7.rs:40-67 | a CPU read is allowed exactly from 0x8000, inside the PRG data, in the selected 32 KiB bank modulo the count, at the address's distance from 0x8000; PPU reads map to themselves |
| Mapper7.MapWrite | plastic_core/src/cartridge/mappers/mapper7.rs:69-91 | a CPU write from 0x8000 sets the bank to the low nibble and the one-screen bank to bit 4; all CPU writes are refused; PPU writes reach CHR RAM below 0x2000 only |
| Mapper7.IsHardwiredMirrored | plastic_core/src/cartridge/mappers/mapper7.rs:93-95 | the mirroring is always under mapper control |
| Mapper7.NametableMirroring | plastic_core/src/cartridge/mappers/mapper7.rs:97-103 | single-screen high bank exactly when the flag is set, single-screen low bank otherwise |
| Mapper7.WriteSelectsBankAndScreen | plastic_core/src/cartridge/mappers/mapper7.rs:69-103 | one register write decides both the PRG bank read afterwards and the one-screen nametable bank |
| Mapper7.SaveState | plastic_core/src/cartridge/mappers/mapper7.rs:109-116 | four bytes: bank, count, screen flag, CHR RAM flag |
| Mapper7.LoadState | plastic_core/src/cartridge/mappers/mapper7.rs:118-123 | the four fields are read back from the first four bytes |
| Mapper7.SaveLoad | plastic_core/src/cartridge/mappers/mapper7.rs:109-123 | loading a saved state restores the mapper exactly |
| Mapper11.New | plastic_core/src/cartridge/mappers/mapper11.rs:22-30 | banks and counts zero and CHR RAM assumed |
| Mapper11.Init | plastic_core/src/cartridge/mappers/mapper11.rs:42-49 | accepts an even positive count of 16 KiB banks and keeps half of it; CHR count and RAM flag recorded, banks kept |
| Mapper11.MapPpu | plastic_core/src/cartridge/mappers/mapper11.rs:32-38 | a pattern address lands inside the CHR data, in the CHR bank modulo the count, at the pattern address |
| Mapper11.MapRead | plastic_core/src/cartridge/mappers/mapper11.rs:51-73 | a CPU read is allowed exactly from 0x8000, in the 32 KiB bank modulo the count at the address's distance from 0x8000; PPU reads go through the CHR bank |
| Mapper11.MapWrite | plastic_core/src/cartridge/mappers/mapper11.rs:75-97 | a CPU write from 0x8000 takes the PRG bank from bits 0-1 and the CHR bank from bits 4-7 and is refused; PPU writes reach CHR RAM only |
| Mapper11.WriteSelectsBanks | plastic_core/src/cartridge/mappers/mapper11.rs:75-84 | after a register write, PRG and CHR reads use the banks the written byte names, modulo the counts |
| Mapper11.SaveState | plastic_core/src/cartridge/mappers/mapper11.rs:103-111 | five bytes: PRG bank, PRG count, CHR bank, CHR count, CHR RAM flag |
| Mapper11.LoadState | plastic_core/src/cartridge/mappers/mapper11.rs:113-119 | the five fields are read back from the first five bytes |
| Mapper11.SaveLoad | plastic_core/src/cartridge/mappers/mapper11.rs:103-119 | loading a saved state restores the mapper exactly |
| Mapper66.New | cartridge/src/mappers/mapper66.rs:33-41 | banks, counts and CHR RAM flag cleared |
| Mapper66.Init | cartridge/src/mappers/mapper66.rs:53-60 | accepts an even positive count of 16 KiB banks and keeps half of it; CHR count and RAM flag recorded, banks kept |
| Mapper66.MapPpu | cartridge/src/mappers/mapper66.rs:43-49 | a pattern address lands inside the CHR data, in the CHR bank modulo the count, at the pattern address |
| Mapper66.MapRead | cartridge/src/mappers/mapper66.rs:62-84 | a CPU read is allowed exactly from 0x8000, in the 32 KiB bank modulo the count at the address's distance from 0x8000; PPU reads go through the CHR bank |
| Mapper66.MapWrite | cartridge/src/mappers/mapper66.rs:86-107 | a CPU write from 0x8000 takes the CHR bank from bits 0-1 and the PRG bank from bits 4-5 and is refused; PPU writes reach CHR RAM only |
| Mapper66.WriteSelectsBanks | cartridge/src/mappers/mapper66.rs:86-95 | after a register write, PRG and CHR reads use the banks the written byte names, modulo the counts |
| Mapper66.SaveState | cartridge/src/mappers/mapper66.rs:113-121 | five bytes: CHR count, CHR bank, PRG count, PRG bank, CHR RAM flag |
| Mapper66.LoadState | cartridge/src/mappers/mapper66.rs:123-129 | the five fields are read back from the first five bytes |
| Mapper66.SaveLoad | cartridge/src/mappers/mapper66.rs:113-129 | loading a saved state restores the mapper exactly |
| Mapper1.New | cartridge/src/mappers/mapper1.rs:50-61 | the shift register holds only its marker bit and every register and count is zero |
| Mapper1.Init | cartridge/src/mappers/mapper1.rs:101-106 | the PRG count is kept, the CHR count is doubled into 4 KiB units without overflowing the byte, the shift register is reset and the bank registers are kept |
| Mapper1.PrgBankFor | cartridge/src/mappers/mapper1.rs:111-131 | 32 KiB mode uses the even bank of the PRG register; 16 KiB mode puts bank 0 or the selected bank at 0x8000 and the selected or the last bank at 0xC000, as control bit 2 says |
| Mapper1.PrgOffset | cartridge/src/mappers/mapper1.rs:135-150 | the offset is the bank's start plus a 32 KiB window offset for any bank but the last in 32 KiB mode, and a 16 KiB window offset otherwise |
| Mapper1.WindowOffset | cartridge/src/mappers/mapper1.rs:143-147 | the window offset stays below 32 or 16 KiB |
| Mapper1.PrgReadAllowedAsWritten | cartridge/src/mappers/mapper1.rs:133 | as written, the check admits every bank inside the data and also the bank equal to the count |
| Mapper1.MapCpuReadAsWritten | cartridge/src/mappers/mapper1.rs:108-151 | with the emulator's check that the bank does not exceed the count, the offset starts at or after the bank's start |
| Mapper1.CpuReadAsWrittenOverruns | cartridge/src/mappers/mapper1.rs:133 | a PRG register naming bank 2 of a 2-bank cartridge passes the emulator's check and gives an offset past the end of the data |
| Mapper1.PrgReadAllowed | cartridge/src/mappers/mapper1.rs:133 | the intended check admits only banks below the count and refuses the bank equal to it |
| Mapper1.MapCpuRead | cartridge/src/mappers/mapper1.rs:108-151 | with the bank strictly inside the data, every CPU offset stays inside the PRG data and at or after the bank's start |
| Mapper1.PrgOffsetInside | cartridge/src/mappers/mapper1.rs:135-150 | a bank inside the data yields an offset inside the data, because the 32 KiB window is never used on the last bank |
| Mapper1.WindowFits | cartridge/src/mappers/mapper1.rs:137-147 | a two-bank window below the last bank and a one-bank window on any bank both end inside the data |
| Mapper1.ChrBankFor | cartridge/src/mappers/mapper1.rs:153-163 | 8 KiB mode uses the even bank of chr 0; 4 KiB mode uses chr 0 for the lower and chr 1 for the upper pattern table |
| Mapper1.MapPpuRead | cartridge/src/mappers/mapper1.rs:152-178 | with the bank not above the count (asserted), a pattern read lands at the 4 KiB bank's start plus 13 address bits in 8 KiB mode or 12 in 4 KiB mode |
| Mapper1.Chr8KbModeIsContiguous | cartridge/src/mappers/mapper1.rs:153-177 | in 8 KiB mode the upper pattern table reads the 4 KiB right after the lower one |
| Mapper1.Chr4KbModeSplits | cartridge/src/mappers/mapper1.rs:156-177 | in 4 KiB mode each pattern table reads from the bank of its own register |
| Mapper1.LoadRegister | cartridge/src/mappers/mapper1.rs:198-206 | the fifth write loads control, chr 0, chr 1 or the PRG register by the address's 8 KiB window and changes nothing else |
| Mapper1.ShiftIn | cartridge/src/mappers/mapper1.rs:192-193 | a serial write moves the register right one place and puts data bit 0 in bit 4, keeping a 5-bit register within 5 bits |
| Mapper1.MapWrite | cartridge/src/mappers/mapper1.rs:182-217 | PPU writes and CPU writes below 0x8000 change nothing; a CPU write with bit 7 set resets the shift register only |
| Mapper1.SerialShifts | cartridge/src/mappers/mapper1.rs:190-197 | from the reset value the marker reaches bit 0 after exactly four writes, and the fifth leaves the five data bits in order |
| Mapper1.FiveWritesLoadRegister | cartridge/src/mappers/mapper1.rs:182-217 | after a reset, four serial writes touch no register and the fifth loads the register its address selects with the five bits, first write lowest, then resets the shift register |
| Mapper1.LoadIgnoresShiftRegister | cartridge/src/mappers/mapper1.rs:197-208 | the loaded register and the reset do not depend on the shift register's earlier contents |
| Mapper1.CollectBit | cartridge/src/mappers/mapper1.rs:190-193 | a serial write before the marker reaches bit 0 only shifts the data bit in |
| Mapper1.LoadCollected | cartridge/src/mappers/mapper1.rs:196-208 | the serial write that finds the marker in bit 0 loads the register with the five collected bits and resets the shift register |
| Mapper1.IsHardwiredMirrored | cartridge/src/mappers/mapper1.rs:219-221 | mirroring is always under mapper control |
| Mapper1.NametableMirroringAsWritten | cartridge/src/mappers/mapper1.rs:223-230 | the emulator's table never yields the upper one-screen bank or four-screen mirroring |
| Mapper1.MirroringAsWrittenLosesUpperBank | cartridge/src/mappers/mapper1.rs:12-13 | codes 1 and 3 give the same mirroring, so the documented upper one-screen bank is unreachable |
| Mapper1.NametableMirroring | cartridge/src/mappers/mapper1.rs:12-13 | each of the four control codes gives its documented mode, and only that code gives it |
| Mapper1.IsIrqRequested | cartridge/src/mappers/mapper1.rs:232-234 | the mapper never requests an interrupt |
| Mapper4.New | cartridge/src/mappers/mapper4.rs:106-129 | every register, the scanline counter state and both counts start cleared |
| Mapper4.Init | cartridge/src/mappers/mapper4.rs:155-158 | the 16 KiB PRG and 8 KiB CHR counts become 8 KiB and 1 KiB units without overflowing the byte; the registers are kept |
| Mapper4.ClockIrq | cartridge/src/mappers/mapper4.rs:131-151 | on a rising edge of address bit 12 a zero counter raises the pin when enabled, a zero counter or pending reload reloads from the latch, and otherwise the counter counts down by one; without an edge only the last-seen bit changes; a raised pin never drops |
| Mapper4.Rise | cartridge/src/mappers/mapper4.rs:131-151 | one scanline (a fetch from each pattern table) is one rising edge: the pin rises on a zero count when enabled, a zero count or pending reload loads the latch, and otherwise the count falls by one |
| Mapper4.Rises | cartridge/src/mappers/mapper4.rs:131-151 | over any number of scanlines the latch and enable stay and a raised pin stays raised |
| Mapper4.PrgBankFor | cartridge/src/mappers/mapper4.rs:163-183 | 0xE000 reads the last 8 KiB bank, 0xA000 reads R7, and the second-last bank and R6 share 0x8000 and 0xC000 as the PRG mode bit says |
| Mapper4.BankAt | cartridge/src/mappers/mapper4.rs:185-187 | division and remainder by the bank size give back the bank and the in-bank offset |
| Mapper4.MapCpuRead | cartridge/src/mappers/mapper4.rs:160-188 | a CPU read lands in the window's bank at the address's offset inside its 8 KiB window |
| Mapper4.PrgModesSwap | cartridge/src/mappers/mapper4.rs:163-183 | flipping the PRG mode bit swaps what 0x8000 and 0xC000 read and leaves 0xA000 and 0xE000 alone |
| Mapper4.WindowsShareLow13 | cartridge/src/mappers/mapper4.rs:187 | the same offset in each of the four 8 KiB windows has the same low 13 bits |
| Mapper4.SwappedBanks | cartridge/src/mappers/mapper4.rs:163-183 | flipping the PRG mode bit swaps the banks of 0x8000 and 0xC000 and keeps those of 0xA000 and 0xE000 |
| Mapper4.ChrBankFor | cartridge/src/mappers/mapper4.rs:192-208 | the 2 KiB side reads R0 or R1 by address bit 11; the 1 KiB side reads R2 to R5 by address bits 10-11 |
| Mapper4.MapPpuRead | cartridge/src/mappers/mapper4.rs:189-217 | a PPU read clocks the scanline counter with its address and lands at the 1 KiB bank's start plus 11 address bits on the 2 KiB side or 10 on the 1 KiB side |
| Mapper4.InversionSwapsTables | cartridge/src/mappers/mapper4.rs:192 | flipping the A12 inversion bit swaps the banks the two pattern tables read |
| Mapper4.WriteBankData | cartridge/src/mappers/mapper4.rs:234-244 | the data write stores in the register the bank select names, R0 and R1 with bit 0 cleared, and nothing else |
| Mapper4.MapWrite | cartridge/src/mappers/mapper4.rs:221-276 | by 8 KiB window and address parity a write sets bank select and modes, bank data, mirroring, the IRQ latch, the reload request, or the IRQ enable; PPU writes and lower addresses change nothing, and no write touches the pin, the counter or the counts |
| Mapper4.SelectThenWrite | cartridge/src/mappers/mapper4.rs:226-245 | selecting register k by an even write and then writing data by an odd write stores the data in register k |
| Mapper4.IsHardwiredMirrored | cartridge/src/mappers/mapper4.rs:278-280 | mirroring is always under mapper control |
| Mapper4.NametableMirroring | cartridge/src/mappers/mapper4.rs:282-288 | vertical exactly when the mirroring flag is set, horizontal otherwise |
| Mapper4.IsIrqRequested | cartridge/src/mappers/mapper4.rs:290-292 | an interrupt is requested exactly while the pin is up |
| Mapper4.ClearIrqRequestPin | cartridge/src/mappers/mapper4.rs:294-296 | clearing lowers the pin and changes nothing else |
| Mapper4.RisesCountDown | cartridge/src/mappers/mapper4.rs:131-151 | with no reload pending, n rising edges with n at most the counter lower it by n and leave pin, latch and enable alone |
| Mapper4.IrqFiresOnEdgeAfterCounter | cartridge/src/mappers/mapper4.rs:131-151 | with the IRQ enabled and the counter at c, the pin is unchanged after c rising edges and raised on edge c + 1, which also reloads the counter from the latch |
| Mapper4.RisesKeepPin | cartridge/src/mappers/mapper4.rs:136-139 | a raised pin stays raised through any number of edges |
| Mapper4.PinStaysUntilCleared | cartridge/src/mappers/mapper4.rs:131-151 | once raised, the pin stays up through edges and register writes, and only clearing lowers it |
| Mapper9.New | cartridge/src/mappers/mapper9.rs:81-95 | both latches start at 0xFE, every bank and count zero, CHR ROM, horizontal mirroring |
| Mapper9.Init | cartridge/src/mappers/mapper9.rs:99-108 | the counts are doubled into 8 KiB PRG and 4 KiB CHR units without overflowing the byte, more than three PRG banks are demanded, and the latches and bank are kept |
| Mapper9.FixedIndex | cartridge/src/mappers/mapper9.rs:117-120 | 0xA000, 0xC000 and 0xE000 select the third-last, second-last and last fixed bank |
| Mapper9.PrgBankFor | cartridge/src/mappers/mapper9.rs:115-125 | 0x8000-0x9FFF reads the PRG register's bank and 0xA000-0xFFFF one of the last three banks |
| Mapper9.RamOffset | cartridge/src/mappers/mapper9.rs:113 | 0x6000-0x7FFF lies at its distance from 0x6000 in the 8 KiB PRG RAM |
| Mapper9.MapCpuRead | cartridge/src/mappers/mapper9.rs:110-134 | every CPU read from 0x6000 is allowed: 0x6000-0x7FFF reaches the PRG RAM, higher addresses the PRG offset |
| Mapper9.PrgOffset | cartridge/src/mappers/mapper9.rs:114-131 | the PRG offset lies inside the data, in the window's bank modulo the count, at the address's offset inside its 8 KiB window |
| Mapper9.FixedBanksAreLastThree | cartridge/src/mappers/mapper9.rs:117-123 | 0xA000, 0xC000 and 0xE000 read the third-last, second-last and last PRG banks |
| Mapper9.UpdateLatches | cartridge/src/mappers/mapper9.rs:137-157 | fetching 0x0FD8 or 0x0FE8 sets latch 0 to 0xFD or 0xFE; an upper-table fetch only ever touches latch 1 and a lower-table fetch only latch 0; nothing else changes |
| Mapper9.UpdateKeepsLatchesValid | cartridge/src/mappers/mapper9.rs:137-163 | latch updates only ever store 0xFD or 0xFE |
| Mapper9.Latch1Trigger | cartridge/src/mappers/mapper9.rs:151-157 | an upper-table fetch with bit 3 set whose middle byte is 0xFD or 0xFE loads that byte into latch 1 |
| Mapper9.ChrBankFor | cartridge/src/mappers/mapper9.rs:145-163 | each pattern table reads its 0xFD or 0xFE register as its latch says |
| Mapper9.MapPpuRead | cartridge/src/mappers/mapper9.rs:135-174 | a PPU read first updates the latches, then lands inside the CHR data in the bank the updated latch selects, modulo the count, at the offset inside its 4 KiB table |
| Mapper9.FdTileSwitchesLowerTable | cartridge/src/mappers/mapper9.rs:139-146 | fetching 0x0FD8 switches the lower table to its 0xFD bank for that very read |
| Mapper9.WriteRegister | cartridge/src/mappers/mapper9.rs:183-191 | by 4 KiB window from 0xA000: the 4-bit PRG bank, the four 5-bit CHR banks, then mirroring; 0x8000-0x9FFF changes nothing |
| Mapper9.MapWrite | cartridge/src/mappers/mapper9.rs:178-206 | 0x6000-0x7FFF reaches the PRG RAM; higher CPU writes update a register and are refused; PPU writes reach CHR RAM only; no write touches the latches or the counts |
| Mapper9.OperationsKeepLatchesValid | cartridge/src/mappers/mapper9.rs:145-163 | every read and write keeps both latches at 0xFD or 0xFE, so the unreachable latch case is never reached from a fresh mapper |
| Mapper9.IsHardwiredMirrored | cartridge/src/mappers/mapper9.rs:208-210 | mirroring is always under mapper control |
| Mapper9.NametableMirroring | cartridge/src/mappers/mapper9.rs:212-218 | vertical exactly when the mirroring flag is set, horizontal otherwise |
| Cartridge.CheckMagic | cartridge/src/cartridge.rs:144-152 | succeeds exactly on "NES" followed by 0x1A and otherwise fails with a header error |
| Cartridge.RamSize | cartridge/src/cartridge.rs:108-118 | a NES 2.0 RAM size field of zero means no RAM; any other field gives 64 bytes shifted left by it, between 128 bytes and 2 MiB |
| Cartridge.RamSizeDoubles | cartridge/src/cartridge.rs:109 | each step of the RAM size field doubles the size |
| Cartridge.DecodeLegacy | cartridge/src/cartridge.rs:57-99 | a legacy header is refused exactly when its tail is clean and byte 9 has a bit above bit 0, and then with a header error; otherwise the ROM sizes are bytes 4 and 5, CHR is RAM exactly when byte 5 is 0, there is no submapper and the two PRG RAM sizes agree |
| Cartridge.DecodeExtended | cartridge/src/cartridge.rs:100-124 | a NES 2.0 header keeps bytes 4 and 5 as the low bytes of the ROM sizes, takes the submapper from byte 8's high nibble, and makes CHR RAM exactly when byte 5 is 0 |
| Cartridge.FromBytes | cartridge/src/cartridge.rs:33-138 | every failure of header decoding is a header error |
| Cartridge.MagicRequired | cartridge/src/cartridge.rs:35 | only a header that starts with the magic bytes decodes, and any other start fails with a header error |
| Cartridge.FlagBits | cartridge/src/cartridge.rs:37-48 | byte 6 bits 0-3 give vertical mirroring, battery, trainer and four-screen, and CHR is RAM exactly when byte 5 is zero |
| Cartridge.LegacyFields | cartridge/src/cartridge.rs:57-99 | in the legacy layout the mapper number is 16 times byte 7's high nibble plus byte 6's, the sizes are bytes 4 and 5, and PRG RAM is byte 8 (at least one) 8 KiB units, volatile and battery alike |
| Cartridge.LegacyRejectsByte9 | cartridge/src/cartridge.rs:71-73 | a non-archaic legacy header decodes exactly when byte 9 uses no bit above bit 0 |
| Cartridge.ArchaicIgnoresBytes7And8 | cartridge/src/cartridge.rs:58-83 | junk in bytes 12-15 makes the decoder drop byte 7's mapper nibble and use one 8 KiB unit of PRG RAM |
| Cartridge.ExtendedSizes | cartridge/src/cartridge.rs:105-124 | in the NES 2.0 layout byte 9 holds the high nibbles of the PRG and CHR sizes |
| Cartridge.ExtendedMapper | cartridge/src/cartridge.rs:101-103 | in the NES 2.0 layout byte 8's low nibble is the top mapper nibble and its high nibble the submapper |
| Cartridge.ExtendedRam | cartridge/src/cartridge.rs:108-118 | in the NES 2.0 layout bytes 10 and 11 give the four RAM sizes, low nibble volatile and high nibble battery-backed |
| Cartridge.Flags6 | cartridge/src/cartridge.rs:41-49 | the byte carries the four flags in bits 0-3 and the mapper nibble above them |
| Cartridge.Flags7 | cartridge/src/cartridge.rs:51-55 | the byte marks the legacy layout and carries the middle mapper nibble |
| Cartridge.RamUnits | cartridge/src/cartridge.rs:68 | a PRG RAM size of whole 8 KiB units is written as a nonzero unit count |
| Cartridge.Encode | cartridge/src/cartridge.rs:33-99 | a legacy-encodable header is written as 16 bytes with the magic, in the legacy layout, without archaic junk |
| Cartridge.EncodeSizes | cartridge/src/cartridge.rs:37-39 | the encoded bytes 4 and 5 carry the ROM sizes and byte 5 is zero exactly for CHR RAM |
| Cartridge.EncodeFlags | cartridge/src/cartridge.rs:41-48 | the encoded byte 6 decodes to the header's four flags |
| Cartridge.EncodeMapper | cartridge/src/cartridge.rs:49-55 | the encoded mapper nibbles give back the mapper number |
| Cartridge.EncodeRam | cartridge/src/cartridge.rs:68-73 | the encoded byte 8 is the PRG RAM unit count and byte 9 passes the legacy check |
| Cartridge.DecodeEncode | cartridge/src/cartridge.rs:33-99 | decoding a legacy-encoded header gives back the header |
| Cartridge.EmptyHeaderDecodes | cartridge/src/cartridge.rs:140-142 | the header of a cartridge-less console decodes to mapper 0, no PRG, CHR RAM and 8 KiB of PRG RAM |
| Cartridge.ActiveChrBanks | cartridge/src/cartridge.rs:155-161 | the CHR bank count fits in 16 bits |
| Cartridge.ActivePrgRamBanks | cartridge/src/cartridge.rs:164-170 | the PRG RAM bank count fits in 16 bits |
| Cartridge.ActivePrgRomBanks | cartridge/src/cartridge.rs:173-175 | the PRG ROM bank count fits in 16 bits |
| Cartridge.PrgRomIn16KiBBanks | cartridge/src/cartridge.rs:173-175 | with 16 KiB banks the PRG bank count is the header's PRG size |
| Cartridge.PrgRomIn8KiBBanks | cartridge/src/cartridge.rs:173-175 | with 8 KiB banks the PRG bank count is twice the header's size, wrapped at 16 bits |
| Cartridge.ChrRomIn8KiBBanks | cartridge/src/cartridge.rs:155-158 | with 8 KiB banks the CHR ROM bank count is the header's CHR size |
| Cartridge.ChrRomIn4KiBBanks | cartridge/src/cartridge.rs:155-158 | with 4 KiB banks the CHR ROM bank count is twice the header's size, wrapped at 16 bits |
| Cartridge.ChrRamIn4KiBBanks | cartridge/src/cartridge.rs:158-160 | the 8 KiB of CHR RAM a legacy header grants is two 4 KiB banks |
| Cartridge.GetMapper | cartridge/src/cartridge.rs:350-368 | mappers 0 and 1 are accepted, and every other mapper number fails with "not implemented" carrying that number |
| Cartridge.NewWithoutFile | cartridge/src/cartridge.rs:328-348 | the cartridge-less console is empty, has the empty header and an empty register range |
| Cartridge.WindowGap | cartridge/src/cartridge.rs:415-428 | the bus forwards 0x4020-0x41FF to the cartridge, which has no case for it; every address the cartridge does list is one the bus forwards |
| Cartridge.Slot | cartridge/src/cartridge.rs:398-402 | the slot is the one the window offset divided by the bank size selects, and the offset inside it is below the bank size |
| Cartridge.Offset13 | cartridge/src/cartridge.rs:398 | the offset inside an 8 KiB window is below 8 KiB |
| Cartridge.Offset15 | cartridge/src/cartridge.rs:407 | the offset inside a 32 KiB window is below 32 KiB |
| Cartridge.Lookup | cartridge/src/cartridge.rs:395-442 | 0x6000-0x7FFF, 0x8000-0xFFFF and pattern addresses select a slot of their window with an in-bank offset; the unused window selects the closed slot |
| Cartridge.Translate | cartridge/src/cartridge.rs:444-469 | with banks present the byte offset lies inside the memory, in the slot's bank modulo the bank count, at the in-bank offset; with none it is the in-bank offset |
| Cartridge.MapAddress | cartridge/src/cartridge.rs:394-470 | the unused CPU window can be neither read nor written; every other address translates inside its memory when banks exist |
| Cartridge.Read | cartridge/src/cartridge.rs:509-528 | a console without cartridge reads NOP (0xEA) on the CPU side and 0 on the PPU side; a slot without read permission reads 0 |
| Cartridge.ApplyOne | cartridge/src/cartridge.rs:384-390 | one update replaces one slot of one window, keeps the others and keeps the cartridge well formed |
| Cartridge.ApplyBankMapping | cartridge/src/cartridge.rs:383-392 | applying updates keeps every table's length and the cartridge well formed and changes nothing but the tables |
| Cartridge.LastUpdateWins | cartridge/src/cartridge.rs:384-390 | after a list of updates, the slot of the last update holds its mapping |
| Cartridge.Write | cartridge/src/cartridge.rs:529-550 | an empty console ignores writes; a write into the register range changes only the slot tables; any other write changes only the memory, and the cartridge stays well formed |
| Cartridge.ReadAfterWrite | cartridge/src/cartridge.rs:509-550 | a byte written through a readable and writable slot reads back |
| Cartridge.SameTablesSameMapping | cartridge/src/cartridge.rs:394-470 | the translation depends only on the header, the bank sizes and the slot tables |
| Cartridge.MirroringModeOf | cartridge/src/cartridge.rs:554-573 | a four-screen board overrides the mapper, a hardwired mapper follows the header's vertical bit, any other mapper decides, and an empty console answers vertical |
| Cartridge.InWindowAsWritten | cartridge/src/cartridge.rs:415-428 | as written, the translation admits CPU addresses from 0x4200 and PPU addresses below 0x2000, a subset of the addresses the bus forwards |
| Bus.DecodeCpu | plastic_core/src/nes.rs:106-121 | RAM exactly below 0x2000, the PPU registers exactly in 0x2000-0x3FFF, the test-mode registers exactly in 0x4018-0x401F, the cartridge exactly from 0x4020 |
| Bus.RamOffset | plastic_core/src/nes.rs:108 | the RAM index is the address modulo 2 KiB, below the RAM size |
| Bus.RamIndex | plastic_core/src/nes.rs:108 | an address below 0x2000 reaches the RAM byte at the address modulo 2 KiB |
| Bus.RamMirrors | plastic_core/src/nes.rs:108 | addresses 0x800 apart below 0x2000 reach the same RAM byte |
| Bus.PpuRegisterIndex | plastic_core/src/nes.rs:109 | 0x2000-0x3FFF reaches PPU register 0x2000-0x2007 by the address's low three bits |
| Bus.PpuRegistersMirror | plastic_core/src/nes.rs:109 | the PPU registers repeat every eight bytes |
| Bus.IoRegisters | plastic_core/src/nes.rs:110-114 | in 0x4000-0x4017 only 0x4014 is the sprite DMA register and only 0x4016 the controller; the rest are APU registers |
| Bus.CartridgeSeesAddress | plastic_core/src/nes.rs:119 | the cartridge receives the address unchanged |
| Bus.NewCpuBus | plastic_core/src/nes.rs:84-98 | 2 KiB of zeroed RAM and no IRQ change requested |
| Bus.ReadCpu | plastic_core/src/nes.rs:106-121 | a read never changes RAM or the IRQ request cell; only the controller may change |
| Bus.ReadRam | plastic_core/src/nes.rs:108 | a read below 0x2000 returns the RAM byte at the address modulo 2 KiB and changes nothing |
| Bus.ReadTestMode | plastic_core/src/nes.rs:115-118 | the test-mode registers read 0 and change nothing |
| Bus.WriteCpu | plastic_core/src/nes.rs:123-140 | a write forwarded to a device goes to the decoded target with the data and leaves the bus alone |
| Bus.WriteTestModeIgnored | plastic_core/src/nes.rs:132-134 | a write to the test-mode registers changes nothing and goes nowhere |
| Bus.WriteRam | plastic_core/src/nes.rs:125 | a RAM write stores the byte at the address modulo 2 KiB and touches nothing else |
| Bus.RamReadAfterWrite | plastic_core/src/nes.rs:108-125 | after a RAM write, every mirror of the written address reads the byte and other RAM addresses read as before |
| Bus.ResetCpuBus | plastic_core/src/nes.rs:142-144 | a reset zeroes all 2 KiB of RAM and keeps the controller and the IRQ cell |
| Bus.ResetReadsZero | plastic_core/src/nes.rs:142-144 | after a reset every RAM address reads 0 |
| Bus.IsIrqChangeRequested | plastic_core/src/nes.rs:198-203 | a change is requested exactly when the APU or the cartridge requests one, and the bus remembers the answer |
| Bus.IrqPinState | plastic_core/src/nes.rs:205-215 | the line is low while no change is requested, high only when the APU or the cartridge pin is, and without a requesting cartridge it is exactly the APU pin |
| Bus.IrqLineIsOr | plastic_core/src/nes.rs:205-215 | the line is up exactly while a change is requested and the APU pin, or the cartridge pin of a requesting cartridge, is up |
| Bus.NoRequestNoIrq | plastic_core/src/nes.rs:198-215 | after a query that found no request, the line is low whatever the pins say |
| Bus.ClearIrqRequestPin | plastic_core/src/nes.rs:217-221 | clearing forgets the request and keeps RAM and the controller |
| Bus.ClearedLineIsLow | plastic_core/src/nes.rs:205-221 | after clearing, the line is low until the next query |
| Bus.DecodePpu | plastic_core/src/nes.rs:38-46 | pattern addresses stay below 0x2000, nametable addresses fall in 0x2000-0x2FFF and palette addresses in 0x3F00-0x3FFF |
| Bus.PpuUpperMirror | plastic_core/src/nes.rs:44 | 0x4000-0xFFFF behaves as the address with its top two bits cleared |
| Bus.NametableMirror | plastic_core/src/nes.rs:41 | 0x3000-0x3EFF reaches the nametable byte 0x1000 below |
| Bus.NametableAddress | plastic_core/src/nes.rs:41 | 0x2000-0x2FFF reaches nametable RAM unchanged |
| Bus.NewPpuBus | plastic_core/src/nes.rs:25-34 | the PPU bus starts with 4 KiB of nametable RAM and 32 palette bytes |
| Bus.ReadPpu | plastic_core/src/nes.rs:38-46 | a pattern-table read returns the cartridge's byte at the folded address |
| Bus.WritePpu | plastic_core/src/nes.rs:47-55 | exactly the pattern-table writes go to the cartridge, unchanged and leaving the bus alone; the others land in the bus's own memory |
| Bus.NametableReadAfterWrite | plastic_core/src/nes.rs:38-55 | a nametable byte written at any mirror reads back at that address |
| Bus.PaletteReadAfterWrite | plastic_core/src/nes.rs:38-55 | a palette byte written at any mirror reads back at that address |
| Bus.Cycles | plastic_core/src/nes.rs:281-291 | n cycles are 5n clocks |
| Bus.Count | plastic_core/src/nes.rs:281-291 | a count is never larger than the trace |
| Bus.ClockForFrame | plastic_core/src/nes.rs:274-292 | a console without cartridge clocks nothing; otherwise a frame is 29780 cycles of APU, CPU, then three PPU dots |
| Bus.CyclesPattern | plastic_core/src/nes.rs:281-291 | clock i of any run of cycles is clock i mod 5 of one cycle |
| Bus.CountCycle | plastic_core/src/nes.rs:282-289 | one cycle clocks the APU and the CPU once and the PPU three times |
| Bus.ThreeDotsPerCycle | plastic_core/src/nes.rs:281-291 | n cycles clock the CPU and the APU n times and the PPU 3n times |
| Bus.CountAppend | plastic_core/src/nes.rs:281-291 | counting distributes over concatenation |
| Instruction.Discriminant | cpu6502/src/instruction.rs:105-119 | the thirteen addressing modes have distinct indices below 13, the order in which the length table is indexed |
| Instruction.Length | cpu6502/src/instruction.rs:122-125 | an instruction is one byte exactly for accumulator and implied modes, three bytes exactly for indirect and the absolute modes, two otherwise |
| Instruction.IsOperandAddress | cpu6502/src/instruction.rs:127-132 | the decoded operand is an address exactly when the mode carries operand bytes and is not immediate |
| Instruction.CanCrossPage | cpu6502/src/instruction.rs:134-138 | only indexed modes that produce an address can cross a page; plain absolute and indirect never do |
| Instruction.BaseCycleTime | cpu6502/src/instruction.rs:438-454 | base times lie in 2..6; two cycles exactly for modes without a memory operand and for branches, six exactly for indexed-indirect |
| Instruction.Row00 | cpu6502/src/instruction.rs:143-423 | each byte 0x00..0x07 decodes as listed: KIL and branches only at their bytes, aaabbb01 bytes follow the 6502 layout, and the pair is one the executor runs |
| Instruction.Row08 | cpu6502/src/instruction.rs:143-423 | each byte 0x08..0x0F decodes as listed: KIL and branches only at their bytes, aaabbb01 bytes follow the 6502 layout, and the pair is one the executor runs |
| Instruction.Row10 | cpu6502/src/instruction.rs:143-423 | each byte 0x10..0x17 decodes as listed: KIL and branches only at their bytes, aaabbb01 bytes follow the 6502 layout, and the pair is one the executor runs |
| Instruction.Row18 | cpu6502/src/instruction.rs:143-423 | each byte 0x18..0x1F decodes as listed: KIL and branches only at their bytes, aaabbb01 bytes follow the 6502 layout, and the pair is one the executor runs |
| Instruction.Row20 | cpu6502/src/instruction.rs:143-423 | each byte 0x20..0x27 decodes as listed: KIL and branches only at their bytes, aaabbb01 bytes follow the 6502 layout, and the pair is one the executor runs |
| Instruction.Row28 | cpu6502/src/instruction.rs:143-423 | each byte 0x28..0x2F decodes as listed: KIL and branches only at their bytes, aaabbb01 bytes follow the 6502 layout, and the pair is one the executor runs |
| Instruction.Row30 | cpu6502/src/instruction.rs:143-423 | each byte 0x30..0x37 decodes as listed: KIL and branches only at their bytes, aaabbb01 bytes follow the 6502 layout, and the pair is one the executor runs |
| Instruction.Row38 | cpu6502/src/instruction.rs:143-423 | each byte 0x38..0x3F decodes as listed: KIL and branches only at their bytes, aaabbb01 bytes follow the 6502 layout, and the pair is one the executor runs |
| Instruction.Row40 | cpu6502/src/instruction.rs:143-423 | each byte 0x40..0x47 decodes as listed: KIL and branches only at their bytes, aaabbb01 bytes follow the 6502 layout, and the pair is one the executor runs |
| Instruction.Row48 | cpu6502/src/instruction.rs:143-423 | each byte 0x48..0x4F decodes as listed: KIL and branches only at their bytes, aaabbb01 bytes follow the 6502 layout, and the pair is one the executor runs |
| Instruction.Row50 | cpu6502/src/instruction.rs:143-423 | each byte 0x50..0x57 decodes as listed: KIL and branches only at their bytes, aaabbb01 bytes follow the 6502 layout, and the pair is one the executor runs |
| Instruction.Row58 | cpu6502/src/instruction.rs:143-423 | each byte 0x58..0x5F decodes as listed: KIL and branches only at their bytes, aaabbb01 bytes follow the 6502 layout, and the pair is one the executor runs |
| Instruction.Row60 | cpu6502/src/instruction.rs:143-423 | each byte 0x60..0x67 decodes as listed: KIL and branches only at their bytes, aaabbb01 bytes follow the 6502 layout, and the pair is one the executor runs |
| Instruction.Row68 | cpu6502/src/instruction.rs:143-423 | each byte 0x68..0x6F decodes as listed: KIL and branches only at their bytes, aaabbb01 bytes follow the 6502 layout, and the pair is one the executor runs |
| Instruction.Row70 | cpu6502/src/instruction.rs:143-423 | each byte 0x70..0x77 decodes as listed: KIL and branches only at their bytes, aaabbb01 bytes follow the 6502 layout, and the pair is one the executor runs |
| Instruction.Row78 | cpu6502/src/instruction.rs:143-423 | each byte 0x78..0x7F decodes as listed: KIL and branches only at their bytes, aaabbb01 bytes follow the 6502 layout, and the pair is one the executor runs |
| Instruction.Row80 | cpu6502/src/instruction.rs:143-423 | each byte 0x80..0x87 decodes as listed: KIL and branches only at their bytes, aaabbb01 bytes follow the 6502 layout, and the pair is one the executor runs |
| Instruction.Row88 | cpu6502/src/instruction.rs:143-423 | each byte 0x88..0x8F decodes as listed: KIL and branches only at their bytes, aaabbb01 bytes follow the 6502 layout, and the pair is one the executor runs |
| Instruction.Row90 | cpu6502/src/instruction.rs:143-423 | each byte 0x90..0x97 decodes as listed: KIL and branches only at their bytes, aaabbb01 bytes follow the 6502 layout, and the pair is one the executor runs |
| Instruction.Row98 | cpu6502/src/instruction.rs:143-423 | each byte 0x98..0x9F decodes as listed: KIL and branches only at their bytes, aaabbb01 bytes follow the 6502 layout, and the pair is one the executor runs |
| Instruction.RowA0 | cpu6502/src/instruction.rs:143-423 | each byte 0xA0..0xA7 decodes as listed: KIL and branches only at their bytes, aaabbb01 bytes follow the 6502 layout, and the pair is one the executor runs |
| Instruction.RowA8 | cpu6502/src/instruction.rs:143-423 | each byte 0xA8..0xAF decodes as listed: KIL and branches only at their bytes, aaabbb01 bytes follow the 6502 layout, and the pair is one the executor runs |
| Instruction.RowB0 | cpu6502/src/instruction.rs:143-423 | each byte 0xB0..0xB7 decodes as listed: KIL and branches only at their bytes, aaabbb01 bytes follow the 6502 layout, and the pair is one the executor runs |
| Instruction.RowB8 | cpu6502/src/instruction.rs:143-423 | each byte 0xB8..0xBF decodes as listed: KIL and branches only at their bytes, aaabbb01 bytes follow the 6502 layout, and the pair is one the executor runs |
| Instruction.RowC0 | cpu6502/src/instruction.rs:143-423 | each byte 0xC0..0xC7 decodes as listed: KIL and branches only at their bytes, aaabbb01 bytes follow the 6502 layout, and the pair is one the executor runs |
| Instruction.RowC8 | cpu6502/src/instruction.rs:143-423 | each byte 0xC8..0xCF decodes as listed: KIL and branches only at their bytes, aaabbb01 bytes follow the 6502 layout, and the pair is one the executor runs |
| Instruction.RowD0 | cpu6502/src/instruction.rs:143-423 | each byte 0xD0..0xD7 decodes as listed: KIL and branches only at their bytes, aaabbb01 bytes follow the 6502 layout, and the pair is one the executor runs |
| Instruction.RowD8 | cpu6502/src/instruction.rs:143-423 | each byte 0xD8..0xDF decodes as listed: KIL and branches only at their bytes, aaabbb01 bytes follow the 6502 layout, and the pair is one the executor runs |
| Instruction.RowE0 | cpu6502/src/instruction.rs:143-423 | each byte 0xE0..0xE7 decodes as listed: KIL and branches only at their bytes, aaabbb01 bytes follow the 6502 layout, and the pair is one the executor runs |
| Instruction.RowE8 | cpu6502/src/instruction.rs:143-423 | each byte 0xE8..0xEF decodes as listed: KIL and branches only at their bytes, aaabbb01 bytes follow the 6502 layout, and the pair is one the executor runs |
| Instruction.RowF0 | cpu6502/src/instruction.rs:143-423 | each byte 0xF0..0xF7 decodes as listed: KIL and branches only at their bytes, aaabbb01 bytes follow the 6502 layout, and the pair is one the executor runs |
| Instruction.RowF8 | cpu6502/src/instruction.rs:143-423 | each byte 0xF8..0xFF decodes as listed: KIL and branches only at their bytes, aaabbb01 bytes follow the 6502 layout, and the pair is one the executor runs |
| Instruction.Table | cpu6502/src/instruction.rs:143-423 | every one of the 256 bytes has an opcode and mode meeting the same table facts |
| Instruction.Decode | cpu6502/src/instruction.rs:143-431 | decoding is total, keeps the byte, leaves the operand zero for the fetch stage to fill, and yields a pair the executor runs |
| Instruction.KilDecoding | cpu6502/src/instruction.rs:420-422 | exactly the twelve bytes with low nibble 2 (in the first half, or odd rows of the second) halt the processor |
| Instruction.RelativeOnlyForBranches | cpu6502/src/instruction.rs:284-291 | relative mode is used by exactly the bytes 0x10, 0x30, ..., 0xF0, and those are exactly the conditional branches |
| Instruction.SbcDuplicate | cpu6502/src/instruction.rs:408 | the unofficial 0xEB decodes to the same immediate SBC as 0xE9 |
| Instruction.GroupOneFollowsBitLayout | cpu6502/src/instruction.rs:143-423 | bytes aaabbb01 decode to the ALU operation aaa in addressing mode bbb, except 0x89, which is an immediate NOP |
| Alu6502.SetFlagStatus | plastic_core/src/cpu6502/cpu6502.rs:223-229 | the chosen flag bits end up all set or all clear as asked, and every other status bit is kept |
| Alu6502.UpdateZeroNegative | plastic_core/src/cpu6502/cpu6502.rs:352-355 | Z is set exactly when the result is zero, N exactly when bit 7 is set, and no other bit changes |
| Alu6502.CarryBit | plastic_core/src/cpu6502/cpu6502.rs:547-551 | the bit ADC adds is 1 exactly when C is set |
| Alu6502.AddWithCarry | plastic_core/src/cpu6502/cpu6502.rs:552-554 | the low byte of A plus operand plus carry, wrapping modulo 256 |
| Alu6502.CarryOut | plastic_core/src/cpu6502/cpu6502.rs:564 | the carry out is set exactly when the exact nine-bit sum exceeds 0xFF |
| Alu6502.SubtractWithBorrow | plastic_core/src/cpu6502/cpu6502.rs:713-715 | the low byte of A minus operand minus borrow, wrapping modulo 256 |
| Alu6502.NoBorrow | plastic_core/src/cpu6502/cpu6502.rs:723 | SBC's carry is set exactly when A is at least operand plus borrow |
| Alu6502.AddOverflows | plastic_core/src/cpu6502/cpu6502.rs:558-562 | ADC overflows exactly when both operands have the same sign and the result has the other |
| Alu6502.SubtractOverflows | plastic_core/src/cpu6502/cpu6502.rs:718-722 | SBC overflows exactly when the operands differ in sign and the result's sign differs from A's |
| Alu6502.AdcStatus | plastic_core/src/cpu6502/cpu6502.rs:558-564 | C, V, Z and N are set from carry, overflow and result, and bits 2 to 5 are untouched |
| Alu6502.SbcStatus | plastic_core/src/cpu6502/cpu6502.rs:718-724 | setting V and C before Z and N, as SBC does, gives the same status as ADC's order |
| Alu6502.Adc | plastic_core/src/cpu6502/cpu6502.rs:541-566 | the result is A plus operand plus carry modulo 256 |
| Alu6502.AdcFlags | plastic_core/src/cpu6502/cpu6502.rs:541-566 | after ADC: C means the true sum exceeds 0xFF, V means signed overflow, Z and N describe the result, bits 2 to 5 stay |
| Alu6502.Sbc | plastic_core/src/cpu6502/cpu6502.rs:701-727 | the result is A minus operand minus the inverted carry modulo 256 |
| Alu6502.SbcFlags | plastic_core/src/cpu6502/cpu6502.rs:701-727 | after SBC: C means no borrow was needed, V means signed overflow of the subtraction, Z and N describe the result, bits 2 to 5 stay |
| Alu6502.SbcIsAdcOfComplement | plastic_core/src/cpu6502/cpu6502.rs:701-727 | SBC of an operand equals ADC of its bitwise complement, in the result and in every status bit |
| Alu6502.DifferenceIsSum | plastic_core/src/cpu6502/cpu6502.rs:713-715 | A minus m minus (1 - c) is the same byte as A plus not-m plus c |
| Alu6502.NoBorrowIsCarry | plastic_core/src/cpu6502/cpu6502.rs:723 | no borrow from the subtraction is the same as a carry out of the complement addition |
| Alu6502.SubtractOverflowIsAddOverflow | plastic_core/src/cpu6502/cpu6502.rs:718-722 | SBC's overflow test equals ADC's overflow test on the complemented operand |
| Alu6502.Compare | plastic_core/src/cpu6502/cpu6502.rs:374-385 | C means register >= operand, Z means equality, N is bit 7 of the wrapped difference, and A, V and bits 2 to 5 are untouched |
| Alu6502.Asl | plastic_core/src/cpu6502/cpu6502.rs:567-595 | the byte doubles modulo 256, bit 7 goes into C, Z and N describe the result, V and bits 2 to 5 stay |
| Alu6502.Lsr | plastic_core/src/cpu6502/cpu6502.rs:596-624 | the byte halves, bit 0 goes into C, N is clear, Z describes the result, V and bits 2 to 5 stay |
| Alu6502.Rol | plastic_core/src/cpu6502/cpu6502.rs:625-657 | the byte doubles modulo 256 plus the old carry, bit 7 goes into C |
| Alu6502.Ror | plastic_core/src/cpu6502/cpu6502.rs:658-690 | the byte halves plus the old carry in bit 7, bit 0 goes into C and N equals the old carry |
| Alu6502.RorUndoesRol | plastic_core/src/cpu6502/cpu6502.rs:625-690 | ROR after ROL gives back the original byte and carry |
| Alu6502.And | plastic_core/src/cpu6502/cpu6502.rs:691-693 | A receives exactly the bits set in both A and the operand; Z and N describe it; C and V stay |
| Alu6502.Eor | plastic_core/src/cpu6502/cpu6502.rs:694-696 | A receives the exclusive or, so XOR with either input gives back the other; C and V stay |
| Alu6502.Ora | plastic_core/src/cpu6502/cpu6502.rs:697-699 | A receives exactly the bits set in A or the operand; C and V stay |
| Alu6502.Bit | plastic_core/src/cpu6502/cpu6502.rs:728-743 | N and V copy operand bits 7 and 6, Z means the operand and A share no set bit, and C and bits 2 to 5 stay |
| Addressing.ZeroPageIndexed | plastic_core/src/cpu6502/cpu6502.rs:248-258 | the zero-page indexed address stays below 0x100 and is operand plus index modulo 256 |
| Addressing.LeavesPage | plastic_core/src/cpu6502/cpu6502.rs:21-23 | a page is crossed exactly when the high bytes of the two addresses differ |
| Addressing.Indexed | plastic_core/src/cpu6502/cpu6502.rs:303-330 | absolute indexing gives the wrapped sum and reports a crossing exactly when its high byte differs from the base's |
| Addressing.IndirectTarget | plastic_core/src/cpu6502/cpu6502.rs:260-271 | JMP indirect reads the low byte at the pointer and the high byte after it, except that a pointer at 0xXXFF takes its high byte from 0xXX00 |
| Addressing.ZeroPagePointer | plastic_core/src/cpu6502/cpu6502.rs:272-281 | a zero-page pointer's high byte comes from the next zero-page location, wrapping 0xFF to 0x00 |
| Addressing.SignExtend | plastic_core/src/cpu6502/cpu6502.rs:332-337 | offsets below 0x80 count forward, offsets 0x80..0xFF count back 0x100 minus the offset |
| Addressing.RelativeTarget | plastic_core/src/cpu6502/cpu6502.rs:331-343 | the branch target is PC plus the signed offset, modulo 0x10000 |
| Addressing.IndexedOperand | plastic_core/src/cpu6502/cpu6502.rs:278-330 | an indexed operand costs the base time plus one exactly when the sum leaves the base page |
| Addressing.Resolve | plastic_core/src/cpu6502/cpu6502.rs:241-350 | only the modes that can cross a page report a crossing |
| Addressing.DecodeOperand | plastic_core/src/cpu6502/cpu6502.rs:241-350 | the cycle time is the mode's base time plus one exactly for a crossing, at most six, and only indexed modes cross |
| Addressing.PageCrossRule | plastic_core/src/cpu6502/cpu6502.rs:303-330 | absolute X and Y index the 16-bit operand from a base of four cycles under the page rule |
| Addressing.IndirectYRule | plastic_core/src/cpu6502/cpu6502.rs:278-297 | indirect-Y adds Y to a pointer from page zero from a base of five cycles under the page rule |
| Addressing.XIndirectRule | plastic_core/src/cpu6502/cpu6502.rs:272-277 | indexed-indirect adds X inside page zero, reads the pointer there, costs six cycles and never crosses |
| Addressing.RelativeRule | plastic_core/src/cpu6502/cpu6502.rs:331-343 | a branch operand resolves to its target in two cycles without a crossing |
| Addressing.NoPenaltyWithoutIndexing | plastic_core/src/cpu6502/cpu6502.rs:241-350 | modes that cannot cross never report a crossing and cost exactly their base time |
| CpuState.Write | plastic_core/src/cpu6502/cpu6502.rs:235-237 | a bus write stores the byte at its address and leaves every other address unchanged |
| CpuState.Word | plastic_core/src/cpu6502/cpu6502.rs:261-270 | a word built from two bytes has them as its low and high bytes |
| CpuState.WordOfBytes | plastic_core/src/cpu6502/cpu6502.rs:261-270 | splitting a word into bytes and joining them gives it back |
| CpuState.ReadWord | plastic_core/src/cpu6502/cpu6502.rs:108-112 | a 16-bit read takes the low byte at the address and the high byte at the next one |
| CpuState.New | plastic_core/src/cpu6502/cpu6502.rs:65-86 | a new processor has all registers, pins, wait count and DMA state zero and nothing pending |
| CpuState.Reset | plastic_core/src/cpu6502/cpu6502.rs:88-115 | reset zeroes A, X, Y, pins and DMA, sets SP to 0xFD and status to interrupt-disable only, loads PC from 0xFFFC/0xFFFD and waits seven cycles |
| CpuState.StackAddress | plastic_core/src/cpu6502/cpu6502.rs:426-434 | the stack lives in page one at 0x0100 plus SP |
| CpuState.Push | plastic_core/src/cpu6502/cpu6502.rs:426-429 | a push stores at the stack pointer, decrements it, and changes no other register or address |
| CpuState.Pull | plastic_core/src/cpu6502/cpu6502.rs:431-434 | a pull increments SP and reads the byte there, leaving memory alone |
| CpuState.PullWord | plastic_core/src/cpu6502/cpu6502.rs:431-434 | two pulls read a little-endian word and raise SP by two |
| CpuState.PushThenPull | plastic_core/src/cpu6502/cpu6502.rs:426-434 | a pull right after a push returns the pushed byte and the original registers |
| CpuState.PushesPullInReverse | plastic_core/src/cpu6502/cpu6502.rs:426-434 | two pushed bytes come back in reverse order with SP restored, including across the page-one wrap |
| CpuState.InterruptVector | plastic_core/src/cpu6502/cpu6502.rs:437-473 | NMI uses the vector at 0xFFFA and IRQ/BRK the one at 0xFFFE |
| CpuState.PushInterruptFrame | plastic_core/src/cpu6502/cpu6502.rs:437-473 | interrupt entry pushes PC high, PC low, then the status with B set exactly for BRK, touching only page one |
| CpuState.ExecuteInterrupt | plastic_core/src/cpu6502/cpu6502.rs:437-473 | interrupt entry sets I, B exactly for BRK, loads PC from the chosen vector, clears only the served pin, keeps A/X/Y and adds seven cycles |
| Execution.OperandByte | plastic_core/src/cpu6502/cpu6502.rs:542-546 | an instruction's operand byte is the byte at the decoded address for address modes and the operand's low byte otherwise |
| Execution.Estimate | plastic_core/src/cpu6502/cpu6502.rs:165-179 | the cycle time charged at fetch lies between two and six |
| Execution.Load | plastic_core/src/cpu6502/cpu6502.rs:414-424 | a load puts the byte in the register with Z and N describing it and other flags kept |
| Execution.ReadOperation | plastic_core/src/cpu6502/cpu6502.rs:541-566 | read instructions keep PC and SP; compares and BIT change only the status, ALU ops and LDA only A and status, LDX only X and status, LDY only Y and status |
| Execution.ReadInstruction | plastic_core/src/cpu6502/cpu6502.rs:541-566 | a read instruction works on the byte at the decoded address, or the immediate, leaves memory alone and takes the decoded cycle time |
| Execution.Step1 | plastic_core/src/cpu6502/cpu6502.rs:825-856 | INC and DEC move the byte by one modulo 256 with Z and N describing the result |
| Execution.ModifyTime | plastic_core/src/cpu6502/cpu6502.rs:587-593 | a read-modify-write on memory takes at least one cycle more than the decoded time and at most eight |
| Execution.Modify | plastic_core/src/cpu6502/cpu6502.rs:567-856 | the modified value sets Z and N; ASL and ROL move bit 7 into C, LSR and ROR bit 0; INC and DEC keep C; bits 2-6 of the status never change |
| Execution.ReadModifyWriteInstruction | plastic_core/src/cpu6502/cpu6502.rs:567-690 | a shift, rotate, INC or DEC on memory writes the modified byte back to the same address; in accumulator mode it changes A and leaves memory alone; X, Y, PC and SP stay |
| Execution.BranchCondition | plastic_core/src/cpu6502/cpu6502.rs:761-824 | each conditional branch tests its own flag in its own sense |
| Execution.BranchPenalty | plastic_core/src/cpu6502/cpu6502.rs:394-400 | an untaken branch adds nothing; a taken one adds one cycle on the same page, two across pages |
| Execution.BranchInstruction | plastic_core/src/cpu6502/cpu6502.rs:387-412 | a taken branch jumps to the target, an untaken one keeps PC; an infinite loop is reported exactly when a taken branch targets its own opcode |
| Execution.FlagOperation | plastic_core/src/cpu6502/cpu6502.rs:857-877 | each flag instruction sets or clears its one flag and keeps every other bit |
| Execution.RegisterOperation | plastic_core/src/cpu6502/cpu6502.rs:948-1061 | the transfers copy between exactly the named registers, the increments and decrements move by one modulo 256, TXS copies X into SP and NOP and KIL change nothing |
| Execution.JmpInstruction | plastic_core/src/cpu6502/cpu6502.rs:878-896 | JMP loads PC with the target, takes three cycles absolute and five indirect, and reports an infinite loop exactly when it jumps to itself |
| Execution.JsrInstruction | plastic_core/src/cpu6502/cpu6502.rs:897-910 | JSR pushes the address of its last byte high byte first, jumps to the target and takes six cycles |
| Execution.RtsInstruction | plastic_core/src/cpu6502/cpu6502.rs:925-935 | RTS pulls a word, resumes one past it, raises SP by two and takes six cycles |
| Execution.PulledStatus | plastic_core/src/cpu6502/cpu6502.rs:911-913 | a pulled status takes every bit from the stack except bits 4 and 5, which the old status keeps set or not |
| Execution.RtiInstruction | plastic_core/src/cpu6502/cpu6502.rs:911-924 | RTI pulls the status and then the return address itself, raises SP by three and takes six cycles |
| Execution.StackInstruction | plastic_core/src/cpu6502/cpu6502.rs:1004-1031 | PHA and PHP push (PHP with bits 4 and 5 set) in three cycles; PLA and PLP pull in four, PLP keeping bits 4 and 5 |
| Execution.IndexPenalty | plastic_core/src/cpu6502/cpu6502.rs:1035-1039 | STA pays one cycle in a page-crossing mode exactly when the decode did not already charge one |
| Execution.UnstableStore | plastic_core/src/cpu6502/cpu6502.rs:1306-1329 | the unofficial stores write the register AND (high byte + 1) and replace the address's high byte with that value |
| Execution.StoreOf | plastic_core/src/cpu6502/cpu6502.rs:1032-1050 | STA, STX, STY and SAX store A, X, Y and X AND A to the decoded address and change no register |
| Execution.StoreInstruction | plastic_core/src/cpu6502/cpu6502.rs:1032-1050 | STA, STX, STY and SAX write exactly their byte to the decoded address; SHY and SHX write the byte `UnstableStore` computes to the address it rebuilds from that byte; no register changes but TAS's SP, and the store costs at most one extra cycle |
| Execution.CombinedParts | plastic_core/src/cpu6502/cpu6502.rs:1064-1189 | each unofficial combination runs a read-modify-write half followed by a read half |
| Execution.WithOpcode | plastic_core/src/cpu6502/cpu6502.rs:1064-1189 | a combination's halves run with the same operand and mode |
| Execution.CombinedTime | plastic_core/src/cpu6502/cpu6502.rs:1064-1189 | a combination takes its mode's base time plus two, plus one more for modes that can cross a page, at most eight |
| Execution.CombinedInstruction | plastic_core/src/cpu6502/cpu6502.rs:1064-1189 | a combination takes the combined time and keeps PC and SP |
| Execution.ArrStatus | plastic_core/src/cpu6502/cpu6502.rs:1245-1268 | ARR's C is bit 6 of the result and its V is bit 6 XOR bit 5, other bits kept |
| Execution.LaxOperation | plastic_core/src/cpu6502/cpu6502.rs:1194-1209 | LAX loads the byte into both A and X with LDA's flags |
| Execution.AncOperation | plastic_core/src/cpu6502/cpu6502.rs:1210-1226 | ANC is AND with C then copied from N |
| Execution.AlrOperation | plastic_core/src/cpu6502/cpu6502.rs:1227-1244 | ALR halves A AND operand, moving its bit 0 into C |
| Execution.ArrOperation | plastic_core/src/cpu6502/cpu6502.rs:1245-1268 | ARR rotates A AND operand right through the carry and sets C from bit 6 |
| Execution.AndKeepsCarry | plastic_core/src/cpu6502/cpu6502.rs:691-693 | AND leaves the carry alone |
| Execution.AndValue | plastic_core/src/cpu6502/cpu6502.rs:691-693 | AND leaves the bitwise conjunction in A |
| Execution.AxsOperation | plastic_core/src/cpu6502/cpu6502.rs:1269-1278 | AXS puts (X AND A) minus the operand in X and sets flags as a compare of X AND A with the operand |
| Execution.XaaOperation | plastic_core/src/cpu6502/cpu6502.rs:1279-1296 | XAA is TXA followed by AND |
| Execution.LasOperation | plastic_core/src/cpu6502/cpu6502.rs:1341-1352 | LAS loads the byte AND SP into A, X and SP |
| Execution.ImmediateCombination | plastic_core/src/cpu6502/cpu6502.rs:1194-1352 | LAX, ANC, ALR, ARR, AXS, XAA and LAS never touch PC or Y; only LAS writes SP; ANC, ALR, ARR and XAA keep X and AXS keeps A |
| Execution.DataStep | plastic_core/src/cpu6502/cpu6502.rs:531-1362 | data instructions take between the decoded time and eight cycles |
| Execution.RegisterStep | plastic_core/src/cpu6502/cpu6502.rs:531-1362 | branch, flag and register instructions take between the decoded time and eight cycles |
| Execution.StackStep | plastic_core/src/cpu6502/cpu6502.rs:897-1031 | stack, JSR, RTS and RTI take between the decoded time and eight cycles |
| Execution.Step | plastic_core/src/cpu6502/cpu6502.rs:531-1362 | every runnable instruction but BRK takes at least the cycles charged at fetch and at most eight, so the wait never underflows |
| Execution.JsrStackFrame | plastic_core/src/cpu6502/cpu6502.rs:897-910 | after JSR the two bytes above SP are the low and high byte of the address of JSR's last byte |
| Execution.JsrPushesItsLastByte | plastic_core/src/cpu6502/cpu6502.rs:897-910 | the address RTS would resume at after JSR is the instruction after JSR |
| Execution.JsrThenRts | plastic_core/src/cpu6502/cpu6502.rs:897-935 | RTS after JSR returns to the instruction following the three-byte JSR |
| Execution.JsrThenRtsBalancesStack | plastic_core/src/cpu6502/cpu6502.rs:897-935 | RTS after JSR restores SP |
| Execution.PhaThenPla | plastic_core/src/cpu6502/cpu6502.rs:1004-1024 | PLA after PHA restores A and SP |
| Execution.PulledPushedStatus | plastic_core/src/cpu6502/cpu6502.rs:1009-1031 | a status pushed by PHP comes back whole through PLP |
| Execution.PhpThenPlp | plastic_core/src/cpu6502/cpu6502.rs:1009-1031 | PLP after PHP restores every register, with bits 4 and 5 set |
| Execution.BreakFlagOutsideMask | plastic_core/src/cpu6502/cpu6502.rs:446 | setting or clearing B changes no bit outside bits 4 and 5 |
| Execution.InterruptStackFrame | plastic_core/src/cpu6502/cpu6502.rs:437-449 | after interrupt entry the three bytes above SP are the status (B as given), PC low and PC high |
| Execution.InterruptReturnAddress | plastic_core/src/cpu6502/cpu6502.rs:911-924 | RTI after interrupt entry returns to the interrupted PC and restores SP |
| Execution.InterruptReturnStatus | plastic_core/src/cpu6502/cpu6502.rs:911-924 | RTI after interrupt entry restores every flag but bits 4 and 5 |
| Execution.IndexPenaltyEvensOut | plastic_core/src/cpu6502/cpu6502.rs:1035-1039 | with STA's penalty a page-crossing mode always costs base time plus one, crossed or not |
| Execution.StaAlwaysPaysIndexPenalty | plastic_core/src/cpu6502/cpu6502.rs:1032-1042 | STA in an indexed mode always takes its base time plus one |
| Execution.BranchTiming | plastic_core/src/cpu6502/cpu6502.rs:387-412 | an untaken branch takes two cycles and keeps PC; a taken one jumps and takes three on the same page, four across |
| Execution.DirectDecodeIgnoresMemory | plastic_core/src/cpu6502/cpu6502.rs:241-350 | for modes whose address does not depend on memory, the decoded address depends only on operand and index registers |
| Execution.ModifyThenRead | plastic_core/src/cpu6502/cpu6502.rs:1064-1189 | the modify half followed by the read half writes the modified byte back and then reads that same byte |
| Execution.CombinedReadsModifiedByte | plastic_core/src/cpu6502/cpu6502.rs:1064-1189 | an unofficial combination writes the modified byte and runs its read half on it |
| CpuRun.OperandAt | plastic_core/src/cpu6502/cpu6502.rs:503-529 | a two-byte instruction's operand is the byte after the opcode, a three-byte one's is the little-endian word after it, and a one-byte one's is zero |
| CpuRun.Size | plastic_core/src/cpu6502/cpu6502.rs:503-529 | PC advances by one to three bytes per instruction |
| CpuRun.Fetch | plastic_core/src/cpu6502/cpu6502.rs:503-529 | fetch decodes the byte at PC by the table, reads exactly the operand bytes the mode has, and moves PC past them |
| CpuRun.PastInstruction | plastic_core/src/cpu6502/cpu6502.rs:503-529 | PC after fetch is PC plus the instruction's length |
| CpuRun.Encode | plastic_core/src/cpu6502/cpu6502.rs:503-529 | an encoded instruction has as many bytes as its mode's length and starts with the opcode byte |
| CpuRun.FetchDecodesEncoding | plastic_core/src/cpu6502/cpu6502.rs:503-529 | fetching an instruction's encoding from memory gives back that instruction, with PC past it |
| CpuRun.FetchedOpcode | plastic_core/src/cpu6502/cpu6502.rs:503-529 | the first byte of a stored encoding is the opcode byte |
| CpuRun.SameTableEntry | plastic_core/src/cpu6502/cpu6502.rs:503-529 | two decoded instructions with the same byte have the same opcode and mode |
| CpuRun.FetchedOperand | plastic_core/src/cpu6502/cpu6502.rs:503-529 | the operand bytes of a stored encoding read back as the operand |
| CpuRun.BreakInstruction | plastic_core/src/cpu6502/cpu6502.rs:753-760 | BRK adds the decoded time plus four to the wait, leaving the pending instruction and DMA state |
| CpuRun.PastPadding | plastic_core/src/cpu6502/cpu6502.rs:754-755 | BRK skips the byte after its opcode before pushing PC |
| CpuRun.BreakWait | plastic_core/src/cpu6502/cpu6502.rs:753-760 | BRK's wait is the wait before plus the decoded time plus four |
| CpuRun.InstructionTime | plastic_core/src/cpu6502/cpu6502.rs:531-1362 | every runnable instruction takes at least the time charged at fetch and at most eleven cycles |
| CpuRun.BreakTime | plastic_core/src/cpu6502/cpu6502.rs:753-760 | BRK takes its decoded time less two plus interrupt entry's seven |
| CpuRun.RunInstruction | plastic_core/src/cpu6502/cpu6502.rs:531-1362 | running an instruction keeps the pending slot and the DMA count, and BRK ends in normal execution |
| CpuRun.RunInstructionWait | plastic_core/src/cpu6502/cpu6502.rs:1358-1362 | running an instruction adds its time less the current cycle to the wait |
| CpuRun.BreakCharged | plastic_core/src/cpu6502/cpu6502.rs:753-760 | BRK's part of the wait rule |
| CpuRun.BreakRuns | plastic_core/src/cpu6502/cpu6502.rs:753-760 | BRK runs as interrupt entry past its padding byte |
| CpuRun.BreakTimed | plastic_core/src/cpu6502/cpu6502.rs:753-760 | BRK's time is its decoded time less two plus seven |
| CpuRun.StepCharged | plastic_core/src/cpu6502/cpu6502.rs:1358-1362 | every other instruction's part of the wait rule |
| CpuRun.RunInstructionFrame | plastic_core/src/cpu6502/cpu6502.rs:531-1362 | running an instruction leaves the pending slot and the DMA count alone |
| CpuRun.AfterStep | plastic_core/src/cpu6502/cpu6502.rs:1358-1362 | an instruction's outcome becomes the registers and memory, with its time less one added to the wait |
| CpuRun.DmcSteal | plastic_core/src/cpu6502/cpu6502.rs:489-501 | a DMC request reads the requested byte and adds three cycles to the wait; no request changes nothing |
| CpuRun.DmaOffset | plastic_core/src/cpu6502/cpu6502.rs:134 | with `remaining` bytes left after it, the byte goes to OAM address `255 - remaining`, so the copy runs upward from 0x00 |
| CpuRun.DmaStep | plastic_core/src/cpu6502/cpu6502.rs:131-145 | a DMA cycle counts one byte down and waits one cycle |
| CpuRun.InterruptDue | plastic_core/src/cpu6502/cpu6502.rs:146-148 | a pending NMI is always taken; an IRQ is taken exactly when its pin is up and I is clear |
| CpuRun.Poll | plastic_core/src/cpu6502/cpu6502.rs:475-487 | polling records a raised NMI, starts a 256-byte DMA from the requested page, and takes the cartridge's IRQ level when it changed |
| CpuRun.FetchStep | plastic_core/src/cpu6502/cpu6502.rs:155-183 | a fetch stores the instruction with the time charged for it and waits that time less one, keeping the state valid |
| CpuRun.ExecuteStep | plastic_core/src/cpu6502/cpu6502.rs:185-202 | the last waited cycle runs the pending instruction and empties the slot |
| CpuRun.RunNext | plastic_core/src/cpu6502/cpu6502.rs:126-207 | a step reports exactly the DMC byte read on the DMC's request and keeps the pending instruction runnable |
| CpuRun.Serve | plastic_core/src/cpu6502/cpu6502.rs:126-207 | serving a cycle after the DMC check keeps the pending instruction runnable |
| CpuRun.InterruptGating | plastic_core/src/cpu6502/cpu6502.rs:146-153 | with nothing waiting, interrupt entry starts exactly when NMI is set or IRQ is set with I clear, and the bus is polled exactly when it does not |
| CpuRun.MaskedIrqWaits | plastic_core/src/cpu6502/cpu6502.rs:146-183 | with I set and no NMI, a pending IRQ does not interrupt: the next instruction is fetched |
| CpuRun.HardwareInterruptEntry | plastic_core/src/cpu6502/cpu6502.rs:146-153 | a hardware interrupt loads PC from its vector with B clear and waits seven cycles |
| CpuRun.RunNextKeepsValid | plastic_core/src/cpu6502/cpu6502.rs:126-207 | a step keeps the wait count consistent with the pending instruction |
| CpuRun.ServeKeepsValid | plastic_core/src/cpu6502/cpu6502.rs:126-207 | serving a cycle keeps that consistency |
| CpuRun.NoWaitUnderflow | plastic_core/src/cpu6502/cpu6502.rs:185-202 | subtracting the fetch-time charge after running never underflows: the wait left is the instruction's time less the charge |
| CpuRun.BrkEntry | plastic_core/src/cpu6502/cpu6502.rs:753-760 | BRK enters through the IRQ vector, or the NMI vector when NMI is set, with I and B set and the served pin cleared |
| CpuRun.BrkReturnAddress | plastic_core/src/cpu6502/cpu6502.rs:753-760 | BRK pushes the address two past its opcode |
| CpuRun.DmaCycle | plastic_core/src/cpu6502/cpu6502.rs:126-206 | during DMA a cycle either copies a byte or waits, and never fetches |
| CpuRun.RunNextInDma | plastic_core/src/cpu6502/cpu6502.rs:129-145 | while DMA is running, a step with a quiet bus is a DMA cycle |
| CpuRun.DmaCopiesNextByte | plastic_core/src/cpu6502/cpu6502.rs:131-145 | a DMA byte goes from the page at the running offset to the same offset of sprite memory |
| CpuRun.DmaFrom | plastic_core/src/cpu6502/cpu6502.rs:131-145 | the processor at the start of a DMA byte |
| CpuRun.DmaByteCycles | plastic_core/src/cpu6502/cpu6502.rs:131-145 | the two cycles of a DMA byte write it and nothing else |
| CpuRun.DmaByteLength | plastic_core/src/cpu6502/cpu6502.rs:131-145 | and they take two cycles |
| CpuRun.DmaWaiting | plastic_core/src/cpu6502/cpu6502.rs:144 | the processor waiting after a DMA byte |
| CpuRun.DmaCopiesPage | plastic_core/src/cpu6502/cpu6502.rs:131-145 | a DMA copies the bytes left in the page to sprite memory in order |
| CpuRun.DmaCopiesFrom | plastic_core/src/cpu6502/cpu6502.rs:131-145 | the same for every count of bytes left |
| CpuRun.DmaTakesTwoCyclesPerByte | plastic_core/src/cpu6502/cpu6502.rs:131-145 | a DMA takes two cycles per byte |
| CpuRun.DmaTimeFrom | plastic_core/src/cpu6502/cpu6502.rs:131-145 | the same for every count of bytes left |
| CpuRun.FirstDmaOffset | plastic_core/src/cpu6502/cpu6502.rs:135 | the first byte copied has offset 256 less the bytes left |
| CpuRun.DmaCopiesInPlace | plastic_core/src/cpu6502/cpu6502.rs:135-140 | every DMA byte lands at the sprite-memory offset it was read from |
| CpuRun.DmaOffsetsRise | plastic_core/src/cpu6502/cpu6502.rs:135 | consecutive DMA bytes have consecutive offsets |
| CpuRun.DmaEndsAtLastOffset | plastic_core/src/cpu6502/cpu6502.rs:135 | the last DMA byte has offset 0xFF |
| CpuRun.SaveCpu | plastic_core/src/cpu6502/cpu6502.rs:1381-1418 | a saved state keeps PC, the pending instruction and the wait count |
| CpuRun.LoadCpu | plastic_core/src/cpu6502/cpu6502.rs:1365-1378 | loading a saved state restores them |
| CpuRun.SaveLoadRoundTrip | plastic_core/src/cpu6502/cpu6502.rs:1365-1418 | saving then loading gives back the same processor, and loading then saving the same record |

## Left out

- Decimal mode of ADC and SBC: the 2A03 has none, and the emulator ignores the D flag.
- Debug-build overflow panics in the CPU: every `+` and `-` wraps as a release build does. The exception is the fetch-time charge, which `CpuRun.NoWaitUnderflow` proves never underflows.
- CPU memory side effects: `CpuState.Memory` is side-effect free, as the byte-array bus of the CPU tests is. The side effects of real devices are modelled per device (`Bus`, `Mapper4`, `Mapper9`, `Controller`).
- The `println!` when KIL runs: KIL is modelled as an instruction that changes nothing.
- The `assert!`s inside `run_instruction`: they become the decoding table's `Runnable` pairs, which `Instruction.Table` proves every byte meets.
- CpuRun.RunNext: requires the pending instruction to be runnable (`PendingRunnable`). Fetch establishes this and every step keeps it (`CpuRun.RunNextKeepsValid`).
- CpuRun.RunNextKeepsValid: assumes a wait count below 253, so that the `bv8` wait cannot wrap when a step adds the DMC steal's three cycles.
- Save-state serialization: the byte layout and I/O of `save`/`load` are left out. Only the state round trip is modelled (`CpuRun.SaveLoadRoundTrip` and the mappers' `SaveLoad`).
- Bus.ClockForFrame: modelled as the ordering of device clocks per CPU cycle. The PPU's pixel pipeline behind `run_cycle` and frame output are left out.
- PPU rendering (`run_cycle`, the background and sprite pipelines, pixel output): only the register file, VRAM, palette and sprite units are modelled.
- Vram: the mirroring modes the emulator rejects with `unreachable!` are excluded by a `Supported` requirement.
- APU mixing and the floating-point output volume are left out. Channel outputs are modelled as integer levels.
- Dmc.TimerClock: requires that an expiring timer has a bit left to shift. Every `Dmc.Valid` state meets this; the as-written power-on state does not (see Findings).
- Envelope.SetVolume, LengthCounter.Reload: require their 4- and 5-bit arguments to fit, which the emulator's callers guarantee by masking.
- Mapper1.Init, Mapper4.Init, Mapper9.Init: require bank counts small enough that the emulator's `u8` doubling and subtraction do not overflow, where a debug build would panic.
- Mapper0.Init: requires one or two 16 KiB PRG banks, which the emulator asserts.
- Mapper1.MapPpuRead, Mapper4.MapPpuRead: require the selected CHR bank to pass the emulator's `assert!` on the bank count.
- Mapper4.MapCpuRead, Mapper9.MapCpuRead: require addresses in the windows the emulator maps. The emulator panics through `unreachable!` elsewhere.
- Square.ClockEnvelope, Noise.ClockEnvelope: the channels run the corrected envelope clock (`Envelope.Clock`). The emulator's `clock_envlope` runs the clock as written (`Envelope.ClockAsWritten`), which sends a looping envelope with an expired divider straight back to level 15 instead of lowering it by one (see Findings).
- PpuRegisters.Write: dispatches to the corrected `PpuRegisters.WriteRegister`. The emulator's register write runs the version as written (`PpuRegisters.WriteRegisterAsWritten`), where the first PPUSCROLL write sets the Y scroll and the first PPUADDR write copies the half-built address into the current address (see Findings).
- PpuRegisters.Read, PpuRegisters.Write: require an address that names a PPU register (`RegisterAt`). For any other address the emulator panics through `unreachable!`.
- Mapper0.MapRead: requires a CPU address from 0x4020 or a PPU address below 0x2000 (`Mapper0.ReadAddress`). The emulator reaches `unreachable!` elsewhere.
- Mapper2.MapRead: requires the same windows (`Mapper2.ReadDefined`) and, for PRG reads, a non-zero bank count. The emulator reaches `unreachable!` outside the windows and divides by the count.
- Mapper3.Init: requires one or two 16 KiB PRG banks. The emulator's `assert!` panics otherwise.
- Mapper3.MapCpuRead: requires an address from 0x8000. The emulator reaches `unreachable!` below it.
- Mapper3.MapPpuRead: requires a pattern address below 0x2000 and a CHR bank not above the count. The emulator's `assert!` panics otherwise.
- Mapper7.Init, Mapper11.Init, Mapper66.Init: require an even, non-zero count of 16 KiB PRG banks. The emulator's `assert!` panics otherwise.
- Mapper7.MapRead: requires a CPU address from 0x4020 or a PPU address below 0x2000, and a non-zero PRG bank count for PRG reads (`Mapper7.ReadDefined`). The emulator reaches `unreachable!` outside the windows and divides by the count.
- Mapper11.MapRead, Mapper66.MapRead: require the same windows and non-zero PRG and CHR bank counts (`Mapper11.ReadDefined`, `Mapper66.ReadDefined`). The emulator reaches `unreachable!` outside the windows and divides by the counts.
- Mapper11.MapPpu, Mapper66.MapPpu: require a non-zero CHR bank count, which the emulator divides by.
- Mapper9.MapPpuRead: requires a non-zero CHR bank count and a latch holding 0xFD or 0xFE (`Mapper9.PpuReadDefined`). The emulator divides by the count and panics through `unreachable!` on any other latch value.
- Dmc.Submit: requires an empty sample buffer. The emulator's `assert!` panics when a byte arrives while the buffer is full.
- Cartridge.Write: the mapper's bank-register writes reach the bank tables as an `updates` parameter, because mapper dispatch is a call into code outside this model.
- Frame timing, audio output, the UI front ends and the file system are outside the core.

## Findings

| source | as written | input that shows it | evidently intended | confidence | as-written member | corrected member |
|---|---|---|---|---|---|---|
| apu2a03/src/envelope.rs:57-64 | with the loop flag set, an expired divider reloads decay level 15 at any level | loop flag set, decay level 10, divider expired | the level counts down; only level 0 reloads 15 | not executed | Envelope.ClockAsWritten, Envelope.LoopNeverDecaysAsWritten | Envelope.Clock |
| apu2a03/src/channels/dmc.rs:34-60 | the power-on state has a bit counter of 0 | the first timer expiry after power-on | the power-on bit counter is 8, so the first expiry does not underflow | not executed | Dmc.NewAsWritten, Dmc.NewAsWrittenUnderflows | Dmc.New |
| ppu2c02/src/ppu2c02.rs:80-88 | the first write to PPUSCROLL sets the Y scroll and the second sets X | writes 0x10 then 0x20 give X 0x20 and Y 0x10 | first write X, second write Y | not executed | PpuRegisters.WriteRegisterAsWritten, PpuRegisters.ScrollPairAsWritten | PpuRegisters.ScrollPair |
| ppu2c02/src/ppu2c02.rs:89-106 | the half-built temporary address is copied to the current address on the first PPUADDR write | writes 0x21 then 0x08 leave the current address at 0x2100 | the copy happens on the second write, giving 0x2108 | not executed | PpuRegisters.WriteRegisterAsWritten, PpuRegisters.AddressPairAsWritten | PpuRegisters.AddressPair |
| cartridge/src/mappers/mapper1.rs:223-230 | control codes 1 and 3 both give horizontal mirroring | control register with mirroring bits 01 | code 1 is one-screen upper bank, as the comment at lines 12-13 documents | not executed | Mapper1.NametableMirroringAsWritten, Mapper1.MirroringAsWrittenLosesUpperBank | Mapper1.NametableMirroring |
| cartridge/src/mappers/mapper1.rs:133 | the PRG bank check allows a bank equal to the bank count | a 2-bank cartridge with PRG register selecting bank 2 | the bank must be below the bank count | not executed | Mapper1.MapCpuReadAsWritten, Mapper1.CpuReadAsWrittenOverruns | Mapper1.MapCpuRead |
| cartridge/src/cartridge.rs:415-428 | the translation's unused CPU window starts at 0x4200, while the bus forwards from 0x4020 | a CPU read of 0x4020 reaches no case of the translation | 0x4020-0x5FFF is the unused window, neither readable nor writable | not executed | Cartridge.InWindowAsWritten, Cartridge.WindowGap | Cartridge.MapAddress |
