# X-HEEP I2C host driver, RV_PLIC driver and register-struct generator, modelled in Dafny

This project models three pieces of the X-HEEP microcontroller software.

- **The I2C host driver** (`sw/device/lib/drivers/i2c/i2c.c`).
  - It turns bus timing requirements in nanoseconds into cycle counts for the TIMING0..4 registers (`I2cTiming.dfy`).
  - It programs the I2C peripheral's registers through read-modify-write bit-field updates (`I2cDriver.dfy`): interrupt state/enable/test, FIFO control and watermarks, host enable, pin override, FIFO levels, read data, and FMT FIFO entries (a byte plus start/stop/read/read-continue/NAK-ok flags).
- **The RISC-V platform-level interrupt controller driver** (`sw/device/lib/drivers/rv_plic/rv_plic.c`, in `RvPlic.dfy`).
  - Initialisation, per-source enable/trigger/priority, target threshold, pending bits, claim/complete, the machine software interrupt and the external-interrupt dispatch.
- **The register-struct generator** (`util/structs_gen.py`, in `StructsGen.dfy`).
  - From an hjson register description it builds one bit-field entry per register field, with a C type chosen from the field width.
  - It pads every register to 32 bits with a `_reserved` field and emits the C `enum` text for fields that carry one.

Design choices:

- **Registers.** Each memory-mapped register is a `bv32` field of a class (`I2cDriver.I2c`) or a word of one `array<bv32>` (`RvPlic.Plic`), and bit-field access is `Bitfield.Read`/`Write`/`ReadBit`/`WriteBit` (mask and shift).
  - Each driver call is a method that states the new register contents.
  - Stores to the write-only FMT FIFO and PLIC claim/complete registers are also logged in a ghost sequence, so repeated writes stay visible.
- **Integer widths.** C integer widths are explicit: cycle counts are `U16`, the PLIC irq number is `U32` and an id read from CC0 is the `bv32` word itself, and the 16-bit narrowing in `i2c_compute_timing` is written out with `% 0x1_0000`.
- **Enums.** C enums that the source range-checks (speed, FMT code, FIFO level, toggle, PLIC trigger) are datatypes with one extra constructor standing for any out-of-range value.
- **Python exceptions.** In the generator, an exception is a `StructsGen.Result.Err` carrying the exception kind.

## Model

| member | source | states |
|---|---|---|
| I2cTiming.RoundUpDivide | sw/device/lib/drivers/i2c/i2c.c:595-601 | the result is the ceiling of a / b, narrowed to 16 bits |
| I2cTiming.RoundUpDivideCovers | sw/device/lib/drivers/i2c/i2c.c:595-601 | for durations below 2^16 ns the result is the fewest clock cycles lasting at least that long |
| I2cTiming.DefaultTimingCoversMinimums | sw/device/lib/drivers/i2c/i2c.c:604-645 | for each known speed every default count is the fewest cycles meeting that mode's I2C minimum; data hold is 0 |
| I2cTiming.SpeedKhz | sw/device/lib/drivers/i2c/i2c.c:109-121 | each known mode has a positive bus rate (100/400/1000 kHz) that divides 10^6 exactly |
| I2cTiming.TimingFor | sw/device/lib/drivers/i2c/i2c.c:103-149 | a configuration is produced exactly when the speed is one of the three known modes |
| I2cTiming.LengthenHighMeetsPeriod | sw/device/lib/drivers/i2c/i2c.c:141-146 | lengthening changes only the high count, never lowers it, and makes high+low+rise+fall reach the SCL period |
| I2cTiming.ComputeTimingFields | sw/device/lib/drivers/i2c/i2c.c:123-130 | rise/fall come from the SDA edge times; every other count except high is the mode default |
| I2cTiming.HighNeverBelowDefault | sw/device/lib/drivers/i2c/i2c.c:141-146 | the high count is the default or the 16-bit-narrowed period - low - rise - fall, and never below the default |
| I2cTiming.ComputeTimingMeetsSclPeriod | sw/device/lib/drivers/i2c/i2c.c:131-146 | high+low+rise+fall is at least the required SCL period in cycles |
| I2cTiming.ComputeTimingWrapExample | sw/device/lib/drivers/i2c/i2c.c:141-146 | a 20000 ns rise time in standard mode makes the narrowed difference wrap, so high becomes 65521 cycles |
| I2cTiming.StandardMode1000NanosExample | sw/device/lib/drivers/i2c/i2c.c:607-617 | standard mode with a 1000 ns clock gives low 5 and start hold 4 |
| I2cTiming.ComputeTiming | sw/device/lib/drivers/i2c/i2c.c:103-149 | BadArg for a null config or an unknown speed, with the config left unchanged; otherwise Ok, and the config is TimingFor's |
| I2cDriver.I2c.Configure | sw/device/lib/drivers/i2c/i2c.c:151-203 | the ten 16-bit halves of TIMING0..4 read back exactly the ten configured cycle counts |
| I2cDriver.TimingWordOfHalves | sw/applications/i2c_test/main.c:43-163 | helper for the test-application scenario: a TIMING word is exactly its high half shifted up, or-ed with its low half, which lets TestApplication state whole register values |
| I2cDriver.I2c.IrqIsPending | sw/device/lib/drivers/i2c/i2c.c:207-228 | BadArg for a null out-pointer or an irq outside 0..kI2cNIrqTypes; otherwise the irq's INTR_STATE bit |
| I2cDriver.I2c.IrqAcknowledge | sw/device/lib/drivers/i2c/i2c.c:231-248 | on Ok INTR_STATE is written with only the irq's bit set (write-one-to-clear); BadArg leaves it |
| I2cDriver.I2c.IrqGetEnabled | sw/device/lib/drivers/i2c/i2c.c:251-268 | on Ok the toggle is Enabled exactly when the irq's INTR_ENABLE bit is set |
| I2cDriver.I2c.IrqSetEnabled | sw/device/lib/drivers/i2c/i2c.c:271-295 | BadArg for a bad toggle or irq, with no change; otherwise only the irq's bit of INTR_ENABLE changes, to the toggle |
| I2cDriver.SetThenGetEnabled | sw/device/lib/drivers/i2c/i2c.c:251-295 | setting an irq's enable state and reading it back returns the state that was set |
| I2cDriver.ToggleRoundTrip | sw/device/lib/drivers/i2c/i2c.c:271-295 | writing a toggle's code into a one-bit field and decoding the bit gives back the toggle |
| I2cDriver.WriteToggle | sw/device/lib/drivers/i2c/i2c.c:271-295 | writing a toggle's code through a one-bit field sets the bit exactly when the toggle is Enabled, and keeps all other bits |
| I2cDriver.I2c.IrqForce | sw/device/lib/drivers/i2c/i2c.c:298-317 | on Ok INTR_TEST is written with only the irq's bit set; BadArg leaves it |
| I2cDriver.I2c.IrqDisableAll | sw/device/lib/drivers/i2c/i2c.c:320-330 | INTR_ENABLE becomes 0, and the snapshot, when one is asked for, is its previous value |
| I2cDriver.I2c.IrqRestoreAll | sw/device/lib/drivers/i2c/i2c.c:333-342 | a null snapshot gives BadArg with no change; otherwise INTR_ENABLE becomes the snapshot |
| I2cDriver.DisableThenRestore | sw/device/lib/drivers/i2c/i2c.c:320-342 | disabling all irqs reads as 0 in between, and restoring the snapshot brings back the previous enables |
| I2cDriver.I2c.ResetRxFifo | sw/device/lib/drivers/i2c/i2c.c:343-350 | sets the RXRST bit of FIFO_CTRL and keeps the other bits |
| I2cDriver.I2c.ResetFmtFifo | sw/device/lib/drivers/i2c/i2c.c:352-359 | sets the FMTRST bit of FIFO_CTRL and keeps the other bits |
| I2cDriver.LevelCodesMeanTheirBytes | sw/device/lib/drivers/i2c/i2c.c:362-417 | every level except 30 bytes has an FMT code, every level has an RX code, and each code's threshold is the level's byte count |
| I2cDriver.I2c.SetWatermarks | sw/device/lib/drivers/i2c/i2c.c:362-417 | BadArg (no change) when a level has no code; otherwise RXILVL and FMTILVL hold the codes and no other bits change |
| I2cDriver.WatermarkFields | sw/device/lib/drivers/i2c/i2c.c:406-414 | the two field writes leave RXILVL = rx, FMTILVL = fmt and the other bits unchanged |
| I2cDriver.I2c.HostSetEnabled | sw/device/lib/drivers/i2c/i2c.c:420-433 | BadArg (no change) for a bad toggle; otherwise only CTRL.ENABLEHOST changes, to the toggle |
| I2cDriver.I2c.OverrideSetEnabled | sw/device/lib/drivers/i2c/i2c.c:435-448 | BadArg (no change) for a bad toggle; otherwise only OVRD.TXOVRDEN changes, to the toggle |
| I2cDriver.I2c.OverrideDrivePins | sw/device/lib/drivers/i2c/i2c.c:450-461 | OVRD.SCLVAL and SDAVAL hold the requested levels and no other OVRD bit changes |
| I2cDriver.DrivePinsFields | sw/device/lib/drivers/i2c/i2c.c:450-461 | the two bit writes set SCLVAL/SDAVAL and keep the other bits |
| I2cDriver.I2c.OverrideSamplePins | sw/device/lib/drivers/i2c/i2c.c:463-477 | always Ok, and no register changes |
| I2cDriver.I2c.GetFifoLevels | sw/device/lib/drivers/i2c/i2c.c:480-498 | each requested level is its 7-bit FIFO_STATUS field (FMTLVL, RXLVL); levels not asked for are not read |
| I2cDriver.I2c.ReadByte | sw/device/lib/drivers/i2c/i2c.c:500-508 | the byte is RDATA's 8-bit field when a destination is given |
| I2cDriver.BuildFmtEntryIsEntry | sw/device/lib/drivers/i2c/i2c.c:530-538 | the six field writes leave FBYTE = byte, each flag bit = its flag, and the other bits of the previous word |
| I2cDriver.FmtEntryUnique | sw/device/lib/drivers/i2c/i2c.c:530-538 | at most one word is the FMT entry of a given byte and flags on a given base |
| I2cDriver.FmtEntryDecodes | sw/device/lib/drivers/i2c/i2c.c:530-538 | decoding an FMT entry gives back its byte and flags (round trip) |
| I2cDriver.I2c.WriteByteRaw | sw/device/lib/drivers/i2c/i2c.c:510-542 | BadArg (no store) when write flags mix with read flags or read-continue lacks read; otherwise one FDATA store of the built entry |
| I2cDriver.FlagsForCodeRoundTrip | sw/device/lib/drivers/i2c/i2c.c:544-585 | every accepted FMT code maps to flags that decode to the same code and carry the NAK-suppress request |
| I2cDriver.WriteByteAccepts | sw/device/lib/drivers/i2c/i2c.c:544-585 | exactly the codes the switch accepts, with a NAK-suppress request allowed only on write codes, pass the flag check of write_byte_raw |
| I2cDriver.I2c.WriteByte | sw/device/lib/drivers/i2c/i2c.c:544-585 | BadArg (no store) for an unknown code or a rejected flag set; otherwise exactly the write_byte_raw store for the code's flags |
| I2cDriver.TestApplication | sw/applications/i2c_test/main.c:43-163 | after the test's configure, watermark, reset, override and write sequence the registers hold 0x00010001 (TIMING0..4), 103 (FIFO_CTRL), 7 (OVRD), and FDATA got the single store 0x12a |
| RvPlic.OffsetFromReg0 | sw/device/lib/drivers/rv_plic/rv_plic.c:429-433 | the offset is a multiple of 4 below 1024, equal to 4 * (irq / 32) for ids below 8192 |
| RvPlic.IrqBitIndex | sw/device/lib/drivers/rv_plic/rv_plic.c:435-438 | the index is below 32, and irq = 32 * (irq / 32) + index |
| RvPlic.OffsetAndIndexDetermineIrq | sw/device/lib/drivers/rv_plic/rv_plic.c:429-438 | (offset / 4) * 32 + bit index gives back the irq id |
| RvPlic.WordsOfSources | sw/device/lib/drivers/rv_plic/rv_plic.c:226-349 | sources 0..31 use IE00, IP0 and LE0; because the offset is scaled twice, sources 32..63 land on MSIP0, PRIO0 and PRIO2 |
| RvPlic.SrcTypeRanges | sw/device/lib/drivers/rv_plic/rv_plic.c:404-427 | ids 1..8 are UART, 9..32 GPIO, 33..48 I2C, 49 SPI, every other id is bad (both directions) |
| RvPlic.SrcTypeMonotone | sw/device/lib/drivers/rv_plic/rv_plic.c:404-427 | the handler slot of a valid id never decreases as the id grows |
| RvPlic.Plic.Init | sw/device/lib/drivers/rv_plic/rv_plic.c:178-223 | both clearing loops start at IP0, so words 0..63 become 0; IE00..01, THRESHOLD0 and MSIP0 become 0; PRIO60..63 and CC0 are untouched; Ok |
| RvPlic.Plic.SetEnabled | sw/device/lib/drivers/rv_plic/rv_plic.c:226-249 | BadArg (no change) for irq >= 64 or a bad toggle; otherwise only the irq's bit of its IE word changes, to the toggle |
| RvPlic.Plic.GetEnabled | sw/device/lib/drivers/rv_plic/rv_plic.c:252-272 | BadArg for irq >= 64; otherwise the toggle is Enabled exactly when the irq's IE bit is set |
| RvPlic.SetThenGetEnabled | sw/device/lib/drivers/rv_plic/rv_plic.c:226-272 | setting a source's enable state and reading it back returns the state that was set |
| RvPlic.EnableHighSource | sw/device/lib/drivers/rv_plic/rv_plic.c:226-249 | enabling a source 32..63 sets a bit of MSIP0 and leaves IE01 unchanged |
| RvPlic.Plic.SetTrigger | sw/device/lib/drivers/rv_plic/rv_plic.c:275-295 | BadArg (no change) for irq >= 64; otherwise only the irq's LE bit changes: clear for edge, set for any other code |
| RvPlic.Plic.SetPriority | sw/device/lib/drivers/rv_plic/rv_plic.c:298-314 | BadArg (no change) for irq >= 64 or priority > 7; otherwise PRIO[irq] holds the priority and nothing else changes |
| RvPlic.Plic.SetThreshold | sw/device/lib/drivers/rv_plic/rv_plic.c:317-328 | BadArg (no change) above priority 7; otherwise THRESHOLD0 holds the threshold and nothing else changes |
| RvPlic.Plic.IsPending | sw/device/lib/drivers/rv_plic/rv_plic.c:331-349 | BadArg for irq >= 64 or no out-pointer; otherwise the irq's bit of its IP word |
| RvPlic.Plic.Claim | sw/device/lib/drivers/rv_plic/rv_plic.c:352-362 | BadArg without an out-pointer; otherwise the id read from CC0 |
| RvPlic.Plic.Complete | sw/device/lib/drivers/rv_plic/rv_plic.c:365-377 | BadArg without an id; otherwise the id is stored to CC0 (logged) and nothing else changes |
| RvPlic.Plic.SoftwareIrqForce | sw/device/lib/drivers/rv_plic/rv_plic.c:380-383 | MSIP0 becomes 1 and nothing else changes |
| RvPlic.Plic.SoftwareIrqAcknowledge | sw/device/lib/drivers/rv_plic/rv_plic.c:386-389 | MSIP0 becomes 0 and nothing else changes |
| RvPlic.Plic.SoftwareIrqIsPending | sw/device/lib/drivers/rv_plic/rv_plic.c:392-395 | the result is the whole MSIP0 word |
| RvPlic.ForceThenAcknowledge | sw/device/lib/drivers/rv_plic/rv_plic.c:380-395 | after a force the pending query reads 1, and after an acknowledge it reads 0 |
| RvPlic.Plic.HandleExternal | sw/device/lib/drivers/rv_plic/rv_plic.c:155-169 | the claimed id picks the handler slot by source type; a bad id dispatches nothing; otherwise the flag becomes 1 and the id is completed |
| StructsGen.NatToString | util/structs_gen.py:161-162 | str(n) is a non-empty string of digits without a leading zero |
| StructsGen.ParseIntOfDigits | util/structs_gen.py:66 | int() of a non-empty string of decimal digits is its decimal value |
| StructsGen.ParseIntOfSignedDigits | util/structs_gen.py:66 | int() of a digit string after '-' is its value negated, after '+' its value |
| StructsGen.ParseIntOfNatToString | util/structs_gen.py:66 | int(str(n)) == n, also with a leading '-' or '+' |
| StructsGen.IndexOf | util/structs_gen.py:63 | str.find of a character that occurs gives a position holding that character |
| StructsGen.IndexOfIsFirst | util/structs_gen.py:63 | no position before the one str.find gives holds the character |
| StructsGen.Split | util/structs_gen.py:64-65 | split gives at least one part, at least two when the separator occurs, and the string alone when it does not |
| StructsGen.SplitPartsLackSeparator | util/structs_gen.py:64-65 | no part of a split contains the separator |
| StructsGen.SplitJoin | util/structs_gen.py:64-65 | joining the parts of a split with the separator gives back the string |
| StructsGen.SplitPair | util/structs_gen.py:64-65 | "a:b" splits into exactly a and b when neither side contains ':' |
| StructsGen.CountBitsOfParts | util/structs_gen.py:53-68 | for sides without ':' that int() parses, "end:start" counts int(end) - int(start) + 1 bits and "end" alone counts 1 |
| StructsGen.CountBitsOfRange | util/structs_gen.py:53-68 | "e:s" written in decimal counts e - s + 1 bits, and an index without ':' counts 1 |
| StructsGen.CountBitsSevenToZero | util/structs_gen.py:53-68 | "7:0" counts 8 bits |
| StructsGen.SelectTypeIsNarrowestFit | util/structs_gen.py:71-86 | a type is chosen exactly for widths 1..64, and it is the narrowest of uint8/16/32/64_t that holds the width |
| StructsGen.PadRight | util/structs_gen.py:42-45 | format(s, "<15") keeps s and adds spaces up to width 15, never truncating |
| StructsGen.JoinLinesSeparatesLines | util/structs_gen.py:38-45 | lines joined as the `first_entry` loop joins them are the first line followed by ",\n" and each further line: no separator after the last |
| StructsGen.EnumTextLayout | util/structs_gen.py:36-48 | the enum text is the typedef header, the first key's entry, ",\n" before each further key's entry, a newline and the closing "} name_t;" line |
| StructsGen.GenerateEnum | util/structs_gen.py:28-50 | the loop builds exactly the enum text of the keys, for any number of keys including none |
| StructsGen.FieldOutputShape | util/structs_gen.py:144-162 | a field that does not raise has width count_bits(bits), is named after the field or else the register, has type "<name>_t" and generate_enum's text when it has an enum, and select_type's type and no enum text otherwise |
| StructsGen.CountBitsRaisesValueError | util/structs_gen.py:63-68 | the only exception count_bits raises is int()'s ValueError |
| StructsGen.FieldOutputRaises | util/structs_gen.py:144-161 | a field raises ValueError exactly when its range does not parse, KeyError exactly for an enum field without a name, TypeError exactly for a plain field whose width no C type holds (each both directions) |
| StructsGen.GenerateField | util/structs_gen.py:144-162 | one iteration of the field loop computes FieldOutput, whose exceptions FieldOutputRaises and whose entry, type and enum text FieldOutputShape state |
| StructsGen.FieldsOutputCounts | util/structs_gen.py:143-168 | the field loop emits one entry per field and its bits counter is the sum of the entries' widths |
| StructsGen.FieldsOutputNames | util/structs_gen.py:143-168 | entry i is named after field i, or after the register when field i has no name |
| StructsGen.FieldsOutputStopsAtRaise | util/structs_gen.py:143-168 | when the fields before it do not raise, the first field that raises ends the field loop with that field's exception |
| StructsGen.ReservedPadding | util/structs_gen.py:171-176 | below 32 bits one `_reserved` entry is appended and the widths then total exactly 32; otherwise nothing is appended |
| StructsGen.GenerateAllNamesRegisters | util/structs_gen.py:134-139 | the structs are those of the named registers (multireg unwrapped), in order |
| StructsGen.GenerateAllErrPersists | util/structs_gen.py:134-184 | a register that raises ends the run with that exception |
| StructsGen.GenerateFields | util/structs_gen.py:143-168 | the field loop gives the entries, enum text and bits counter of FieldsOutput, or the exception a field raises |
| StructsGen.GenerateRegister | util/structs_gen.py:138-176 | the field loop followed by the reserved padding, as RegisterOutput |
| StructsGen.GenerateStructs | util/structs_gen.py:134-184 | the loop over the registers gives the structs and enum text of GenerateAll, or the first exception |

## Left out

- **Memory-mapped I/O.** Registers are plain memory: the hardware's reactions are not modelled.
  - Nothing models FIFO pops, write-one-to-clear interrupt state, claim handing out pending ids, or INTR_TEST setting state.
  - The methods state what the driver writes and reads.
- **Header constants.** The register headers are not part of this model, so bit positions and sizes are assumptions:
  - the OpenTitan I2C layout: CTRL.ENABLEHOST 0; OVRD TXOVRDEN 0, SCLVAL 1, SDAVAL 2; FIFO_CTRL RXRST 0, FMTRST 1, RXILVL 4:2, FMTILVL 6:5; FIFO_STATUS FMTLVL 6:0, RXLVL 22:16; FDATA FBYTE 7:0, START 8, STOP 9, READ 10, RCONT 11, NAKOK 12; TIMING fields at bits 0 and 16;
  - kI2cNIrqTypes = 16;
  - the PLIC register block as 73 consecutive words (IP0..1, LE0..1, PRIO0..63, IE00..01, THRESHOLD0, CC0, MSIP0).
- **Toggle codes.** Enabled is taken as the code that writes a set bit.
  - The round-trip lemmas hold for either encoding.
  - `rv_plic.h` lists the toggle enumerators in the order that would make Enabled code 0.
  - Its `dif_*` prototypes do not match the functions in `rv_plic.c`, so it is not part of this model; neither is `rv_plic_old.h`.
- **Division by zero.** TimingFor and DefaultTimingForSpeed require a non-zero clock period for a known speed, and I2cTiming.ComputeTiming requires it when `config` is non-null and the speed is known. On that path the source divides by the period unchecked, which is undefined behaviour in C; a null `config` or an unknown speed returns kI2cBadArg before any division and is modelled for every period.
- **I2cDriver.I2c.Configure** has no result. `i2c_configure` is declared to return `i2c_result_t` but has no return statement (i2c.c:151-203), so its value is undefined.
- **I2cDriver.I2c.OverrideSamplePins** only returns Ok: the source reads the sample register and then discards the values without writing to the out-pointers (i2c.c:463-477).
- **RvPlic.Plic.Init and RvPlic.Plic.SetPriority** do not model the read-back checks that follow the writes, because in a memory model they always pass.
- **RvPlic.Plic.SoftwareIrqIsPending** returns the raw MSIP0 word. The source returns that word converted to `plic_result_t`, which this model does not interpret.
- **RvPlic.Plic.HandleExternal** returns the handler slot instead of calling through the handler table.
  - The UART/GPIO/I2C/SPI handlers, the weak default handlers and the handler table itself are not part of this model.
  - The interrupt flag is modelled as a plain field, without the volatile and concurrency aspects of an interrupt handler.
- **StructsGen.ParseInt** accepts only an optional sign followed by ASCII digits. Python's `int()` also accepts surrounding whitespace, underscores between digits and non-ASCII digits.
- **StructsGen.Field, Register and EnumKey** always carry `bits`, `fields`, enum `name` and `value`. The KeyError the script raises when the hjson lacks one of them is not modelled; the KeyError for an enum field without a name is.
- **StructsGen.GenerateStructs** leaves out parts of the script:
  - the output text around the entries: the union/struct wrappers, the column padding of each entry, the `desc` comments and the final `data["name"]` line;
  - argument parsing, hjson loading, template substitution and file writing.
- **Other repository files.**
  - `sw/device/lib/runtime/syscalls.c` is not part of this model; its `_sbrk` advances the heap pointer twice (syscalls.c:284-285).
  - `util/headers_periph_gen.py` is not part of this model either.
