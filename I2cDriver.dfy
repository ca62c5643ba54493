/**
 * The register-level part of the I2C host driver: committing a timing
 * configuration, building FMT FIFO entries, FIFO watermarks and resets,
 * the override test mode and the interrupt helpers.
 *
 * The peripheral is a class with one 32-bit word per register. A store to
 * FDATA enqueues one FIFO entry in hardware, so the class also keeps a ghost
 * log of every word stored to FDATA. Hardware reactions to stores (the FIFO
 * itself, write-1-to-clear interrupt state, self-clearing reset bits) are
 * not modelled: a register keeps the last word stored to it.
 *
 * The field masks, offsets and enum values come from generated headers that
 * are not part of this model; the constants below assume the OpenTitan I2C
 * register layout, and every field fits in its register without overlapping
 * another field of the same register.
 */
module I2cDriver {
  import opened Bitfield
  import opened CTypes
  import opened I2cTiming

  const BitMask1: bv32 := 1

  const CtrlEnableHostBit: bv32 := 0

  const OvrdTxOvrdEnBit: bv32 := 0
  const OvrdSclValBit: bv32 := 1
  const OvrdSdaValBit: bv32 := 2

  const FifoCtrlRxRstBit: bv32 := 0
  const FifoCtrlFmtRstBit: bv32 := 1
  const FifoCtrlRxIlvlMask: bv32 := 0x7
  const FifoCtrlRxIlvlOffset: bv32 := 2
  const FifoCtrlFmtIlvlMask: bv32 := 0x3
  const FifoCtrlFmtIlvlOffset: bv32 := 5

  const FifoStatusFmtLvlMask: bv32 := 0x7f
  const FifoStatusFmtLvlOffset: bv32 := 0
  const FifoStatusRxLvlMask: bv32 := 0x7f
  const FifoStatusRxLvlOffset: bv32 := 16

  const FdataFbyteMask: bv32 := 0xff
  const FdataFbyteOffset: bv32 := 0
  const FdataStartBit: bv32 := 8
  const FdataStopBit: bv32 := 9
  const FdataReadBit: bv32 := 10
  const FdataRcontBit: bv32 := 11
  const FdataNakOkBit: bv32 := 12
  /** Every bit of FDATA that an FMT entry sets: FBYTE and the five flags. */
  const FdataEntryBits: bv32 := 0x1fff

  const RdataMask: bv32 := 0xff
  const RdataOffset: bv32 := 0

  /** Each TIMINGn register holds two 16-bit fields, at bit 0 and at bit 16. */
  const TimingFieldMask: bv32 := 0xffff
  const TimingLowHalf: bv32 := 0
  const TimingHighHalf: bv32 := 16

  /** kI2cNIrqTypes */
  const NIrqTypes: int := 16

  /**
   * i2c_toggle_t, with Enabled assumed to be the code 1 and Disabled 0;
   * `ToggleOutOfRange` is any other value of the C enum variable.
   */
  datatype Toggle = Enabled | Disabled | ToggleOutOfRange

  function ToggleBit(t: Toggle): (b: bv32)
    requires !t.ToggleOutOfRange?
    ensures b <= 1
  {
    if t == Enabled then 1 else 0
  }

  /** The toggle whose code a one-bit field holds. */
  function ToggleOfBit(b: bool): (t: Toggle)
    ensures !t.ToggleOutOfRange? && ToggleBit(t) == BitOf(b)
  {
    if b then Enabled else Disabled
  }

  /** i2c_fmt_flags_t */
  datatype FmtFlags = FmtFlags(start: bool, stop: bool, read: bool, readCont: bool, suppressNakIrq: bool)

  /** i2c_fmt_t; `FmtOutOfRange` is any other value of the C enum variable. */
  datatype FmtCode = FmtStart | FmtTx | FmtTxStop | FmtRx | FmtRxContinue | FmtRxStop | FmtOutOfRange

  /** i2c_level_t; `LevelOutOfRange` is any other value of the C enum variable. */
  datatype Level = Level1Byte | Level4Byte | Level8Byte | Level16Byte | Level30Byte | LevelOutOfRange

  /**
   * The range check of every irq-taking helper: it rejects `irq < 0` and
   * `irq > kI2cNIrqTypes`, so kI2cNIrqTypes itself passes.
   */
  predicate IrqArgOk(irq: int)
  {
    0 <= irq <= NIrqTypes
  }

  /**
   * The flag check of i2c_write_byte_raw: start, stop and suppress_nak_irq
   * exclude read and read_cont, and read_cont needs read.
   */
  predicate FlagsValid(f: FmtFlags)
  {
    var hasWriteFlags := f.start || f.stop || f.suppressNakIrq;
    var hasReadFlags := f.read || f.readCont;
    !(hasWriteFlags && hasReadFlags) && !(f.readCont && !f.read)
  }

  /**
   * `w` is the FMT entry for `byte` and `flags` built on top of `base`:
   * FBYTE holds the byte, each flag bit holds its flag, and every other bit
   * is the bit of `base`.
   */
  predicate IsFmtEntry(w: bv32, base: bv32, byte: bv8, flags: FmtFlags)
  {
    Read(w, FdataFbyteMask, FdataFbyteOffset) == byte as bv32 &&
    ReadBit(w, FdataStartBit) == flags.start &&
    ReadBit(w, FdataStopBit) == flags.stop &&
    ReadBit(w, FdataReadBit) == flags.read &&
    ReadBit(w, FdataRcontBit) == flags.readCont &&
    ReadBit(w, FdataNakOkBit) == flags.suppressNakIrq &&
    w & !FdataEntryBits == base & !FdataEntryBits
  }

  /** IsFmtEntry pins the word down completely: at most one word satisfies it. */
  lemma {:induction false} FmtEntryUnique(w1: bv32, w2: bv32, base: bv32, byte: bv8, flags: FmtFlags)
    requires IsFmtEntry(w1, base, byte, flags) && IsFmtEntry(w2, base, byte, flags)
    ensures w1 == w2
  {
    FbyteRaw(w1);
    FbyteRaw(w2);
    FlagBitsRaw(w1);
    FlagBitsRaw(w2);
    SameFieldsSameWord(w1, w2);
  }

  /** The FBYTE field of a word, written out as a shift and a mask. */
  lemma FbyteRaw(w: bv32)
    ensures Read(w, FdataFbyteMask, FdataFbyteOffset) == (w >> 0) & 0xff
  {
  }

  /** The five FDATA flag bits of a word, written out as shifts and masks. */
  lemma FlagBitsRaw(w: bv32)
    ensures ReadBit(w, FdataStartBit) == ((w >> 8) & 1 != 0)
    ensures ReadBit(w, FdataStopBit) == ((w >> 9) & 1 != 0)
    ensures ReadBit(w, FdataReadBit) == ((w >> 10) & 1 != 0)
    ensures ReadBit(w, FdataRcontBit) == ((w >> 11) & 1 != 0)
    ensures ReadBit(w, FdataNakOkBit) == ((w >> 12) & 1 != 0)
  {
  }

  lemma SameFieldsSameWord(w1: bv32, w2: bv32)
    requires (w1 >> 0) & 0xff == (w2 >> 0) & 0xff
    requires ((w1 >> 8) & 1 != 0) == ((w2 >> 8) & 1 != 0)
    requires ((w1 >> 9) & 1 != 0) == ((w2 >> 9) & 1 != 0)
    requires ((w1 >> 10) & 1 != 0) == ((w2 >> 10) & 1 != 0)
    requires ((w1 >> 11) & 1 != 0) == ((w2 >> 11) & 1 != 0)
    requires ((w1 >> 12) & 1 != 0) == ((w2 >> 12) & 1 != 0)
    requires w1 & !0x1fff == w2 & !0x1fff
    ensures w1 == w2
  {
  }

  /** The byte and flags an FMT entry carries. */
  function DecodeFmtEntry(w: bv32): (bf: (bv8, FmtFlags))
  {
    ((Read(w, FdataFbyteMask, FdataFbyteOffset) as bv8),
     FmtFlags(ReadBit(w, FdataStartBit), ReadBit(w, FdataStopBit), ReadBit(w, FdataReadBit),
              ReadBit(w, FdataRcontBit), ReadBit(w, FdataNakOkBit)))
  }

  /** Decoding an entry gives back the byte and flags it was built from. */
  lemma FmtEntryDecodes(w: bv32, base: bv32, byte: bv8, flags: FmtFlags)
    requires IsFmtEntry(w, base, byte, flags)
    ensures DecodeFmtEntry(w) == (byte, flags)
  {
  }

  /**
   * The format-code switch of i2c_write_byte: None where it returns
   * kI2cBadArg (an Rx code with suppress_nak_irq, or an unknown code).
   */
  function FlagsForCode(code: FmtCode, suppressNakIrq: bool): Option<FmtFlags>
  {
    if suppressNakIrq && (code == FmtRx || code == FmtRxContinue || code == FmtRxStop) then None
    else
      var f := FmtFlags(false, false, false, false, suppressNakIrq);
      match code
      case FmtStart => Some(f.(start := true))
      case FmtTx => Some(f)
      case FmtTxStop => Some(f.(stop := true))
      case FmtRx => Some(f.(read := true))
      case FmtRxContinue => Some(f.(read := true, readCont := true))
      case FmtRxStop => Some(f.(read := true, stop := true))
      case FmtOutOfRange => None
  }

  /** The format code a set of flags stands for, read off the flags alone. */
  function CodeOfFlags(f: FmtFlags): FmtCode
  {
    if f.start then FmtStart
    else if f.read && f.readCont then FmtRxContinue
    else if f.read && f.stop then FmtRxStop
    else if f.read then FmtRx
    else if f.stop then FmtTxStop
    else FmtTx
  }

  /**
   * The code table is one-to-one: the flags of every known code decode back
   * to that code, and they carry suppress_nak_irq unchanged.
   */
  lemma {:induction false} FlagsForCodeRoundTrip(code: FmtCode, suppressNakIrq: bool)
    requires FlagsForCode(code, suppressNakIrq).Some?
    ensures CodeOfFlags(FlagsForCode(code, suppressNakIrq).value) == code
    ensures FlagsForCode(code, suppressNakIrq).value.suppressNakIrq == suppressNakIrq
  {
    match code
    case FmtStart =>
    case FmtTx =>
    case FmtTxStop =>
    case FmtRx =>
    case FmtRxContinue =>
    case FmtRxStop =>
  }

  /**
   * Which calls to i2c_write_byte get past both checks: Start, Tx and TxStop
   * always, Rx and RxContinue only without suppress_nak_irq, and RxStop
   * never, because read together with stop fails the raw flag check.
   */
  lemma {:induction false} WriteByteAccepts(code: FmtCode, suppressNakIrq: bool)
    ensures (FlagsForCode(code, suppressNakIrq).Some? && FlagsValid(FlagsForCode(code, suppressNakIrq).value))
      <==> (code in {FmtStart, FmtTx, FmtTxStop} || (code in {FmtRx, FmtRxContinue} && !suppressNakIrq))
  {
    match code
    case FmtStart =>
    case FmtTx =>
    case FmtTxStop =>
    case FmtRx =>
    case FmtRxContinue =>
    case FmtRxStop =>
      if !suppressNakIrq {
        assert FlagsForCode(code, suppressNakIrq).value.stop;
      }
    case FmtOutOfRange =>
  }

  /** I2C_FIFO_CTRL_RXILVL_VALUE_*: None for the levels the RX switch rejects. */
  function RxLevelCode(level: Level): (c: Option<bv32>)
    ensures c.Some? ==> c.value & FifoCtrlRxIlvlMask == c.value
  {
    match level
    case Level1Byte => Some(0)
    case Level4Byte => Some(1)
    case Level8Byte => Some(2)
    case Level16Byte => Some(3)
    case Level30Byte => Some(4)
    case LevelOutOfRange => None
  }

  /** I2C_FIFO_CTRL_FMTILVL_VALUE_*: None for the levels the FMT switch rejects. */
  function FmtLevelCode(level: Level): (c: Option<bv32>)
    ensures c.Some? ==> c.value & FifoCtrlFmtIlvlMask == c.value
  {
    match level
    case Level1Byte => Some(0)
    case Level4Byte => Some(1)
    case Level8Byte => Some(2)
    case Level16Byte => Some(3)
    case Level30Byte => None
    case LevelOutOfRange => None
  }

  /** The RX threshold a RXILVL code stands for, in bytes. */
  function RxThresholdBytes(code: bv32): nat
  {
    if code == 0 then 1 else if code == 1 then 4 else if code == 2 then 8
    else if code == 3 then 16 else if code == 4 then 30 else 0
  }

  /** The FMT threshold a FMTILVL code stands for, in bytes. */
  function FmtThresholdBytes(code: bv32): nat
  {
    if code == 0 then 1 else if code == 1 then 4 else if code == 2 then 8
    else if code == 3 then 16 else 0
  }

  /** The number of bytes a level names. */
  function LevelBytes(level: Level): nat
  {
    match level
    case Level1Byte => 1
    case Level4Byte => 4
    case Level8Byte => 8
    case Level16Byte => 16
    case Level30Byte => 30
    case LevelOutOfRange => 0
  }

  /**
   * The RX field accepts 1, 4, 8, 16 and 30 bytes, the FMT field the same
   * but 30; each accepted level's code stands for that many bytes.
   */
  lemma {:induction false} LevelCodesMeanTheirBytes(level: Level)
    ensures RxLevelCode(level).Some? <==> level != LevelOutOfRange
    ensures FmtLevelCode(level).Some? <==> level !in {Level30Byte, LevelOutOfRange}
    ensures RxLevelCode(level).Some? ==> RxThresholdBytes(RxLevelCode(level).value) == LevelBytes(level)
    ensures FmtLevelCode(level).Some? ==> FmtThresholdBytes(FmtLevelCode(level).value) == LevelBytes(level)
  {
    match level
    case Level1Byte =>
    case Level4Byte =>
    case Level8Byte =>
    case Level16Byte =>
    case Level30Byte =>
    case LevelOutOfRange =>
  }

  /**
   * The words i2c_configure hands to bitfield_write: each uint16_t field of
   * the configuration, zero-extended to 32 bits.
   */
  function ConfigWords(c: Config): (w: seq<bv32>)
    ensures |w| == 10
  {
    [Widen(c.sclTimeHighCycles), Widen(c.sclTimeLowCycles), Widen(c.riseCycles), Widen(c.fallCycles),
     Widen(c.startSignalSetupCycles), Widen(c.startSignalHoldCycles),
     Widen(c.dataSignalSetupCycles), Widen(c.dataSignalHoldCycles),
     Widen(c.stopSignalSetupCycles), Widen(c.stopSignalHoldCycles)]
  }

  /** A uint16_t value passed as a uint32_t argument. */
  function Widen(x: U16): (w: bv32)
    ensures w <= 0xffff
  {
    (x as bv16) as bv32
  }

  /**
   * Writing both 16-bit halves of a TIMING register, low half first, leaves
   * each half holding the value written to it.
   */
  lemma TimingHalves(w: bv32, lo: bv32, hi: bv32)
    requires lo <= 0xffff && hi <= 0xffff
    ensures var w1 := Write(Write(w, TimingFieldMask, TimingLowHalf, lo), TimingFieldMask, TimingHighHalf, hi);
      Read(w1, TimingFieldMask, TimingLowHalf) == lo && Read(w1, TimingFieldMask, TimingHighHalf) == hi
  {
    HalvesRaw(w, lo, hi);
  }

  lemma HalvesRaw(w: bv32, lo: bv32, hi: bv32)
    requires lo <= 0xffff && hi <= 0xffff
    ensures var w1 := (((w & !(0xffff << 0)) | ((lo & 0xffff) << 0)) & !(0xffff << 16)) | ((hi & 0xffff) << 16);
      (w1 >> 0) & 0xffff == lo && (w1 >> 16) & 0xffff == hi
  {
  }

  /** The bit index of an interrupt that passed IrqArgOk. */
  function IrqIndex(irq: int): (i: bv32)
    requires IrqArgOk(irq)
    ensures i < 32
  {
    irq as bv32
  }

  /**
   * A toggle written into a one-bit field reads back as the same toggle, as
   * i2c_irq_set_enabled and i2c_irq_get_enabled use INTR_ENABLE.
   */
  lemma WriteToggle(reg: bv32, index: bv32, t: Toggle)
    requires index < 32 && !t.ToggleOutOfRange?
    ensures Write(reg, BitMask1, index, ToggleBit(t)) == WriteBit(reg, index, t == Enabled)
  {
  }

  lemma ToggleRoundTrip(reg: bv32, index: bv32, t: Toggle)
    requires index < 32 && !t.ToggleOutOfRange?
    ensures ToggleOfBit(ReadBit(Write(reg, BitMask1, index, ToggleBit(t)), index)) == t
  {
    WriteToggle(reg, index, t);
  }

  /**
   * Storing the two watermark codes into FIFO_CTRL, RX first: each field
   * then holds its code and every other bit keeps its value.
   */
  lemma WatermarkFields(w: bv32, rx: bv32, fmt: bv32)
    requires rx <= 7 && fmt <= 3
    ensures var w1 := Write(Write(w, FifoCtrlRxIlvlMask, FifoCtrlRxIlvlOffset, rx), FifoCtrlFmtIlvlMask, FifoCtrlFmtIlvlOffset, fmt);
      Read(w1, FifoCtrlRxIlvlMask, FifoCtrlRxIlvlOffset) == rx &&
      Read(w1, FifoCtrlFmtIlvlMask, FifoCtrlFmtIlvlOffset) == fmt &&
      w1 & !WatermarkBits == w & !WatermarkBits
  {
    WatermarkRaw(w, rx, fmt);
  }

  /** The RXILVL and FMTILVL fields of FIFO_CTRL. */
  const WatermarkBits: bv32 := 0x7c

  lemma WatermarkRaw(w: bv32, rx: bv32, fmt: bv32)
    requires rx <= 7 && fmt <= 3
    ensures var w1 := (((w & !(0x7 << 2)) | ((rx & 0x7) << 2)) & !(0x3 << 5)) | ((fmt & 0x3) << 5);
      (w1 >> 2) & 0x7 == rx && (w1 >> 5) & 0x3 == fmt && w1 & !0x7c == w & !0x7c
  {
  }

  /**
   * Storing both override pin values, SCL first: each bit then holds its
   * value and every other bit of OVRD keeps its value.
   */
  lemma DrivePinsFields(w: bv32, scl: bool, sda: bool)
    ensures var w1 := Write(Write(w, BitMask1, OvrdSclValBit, BitOf(scl)), BitMask1, OvrdSdaValBit, BitOf(sda));
      ReadBit(w1, OvrdSclValBit) == scl && ReadBit(w1, OvrdSdaValBit) == sda &&
      w1 & !PinValueBits == w & !PinValueBits
  {
    DrivePinsRaw(w, BitOf(scl), BitOf(sda));
  }

  /** The SCLVAL and SDAVAL bits of OVRD. */
  const PinValueBits: bv32 := 0x6

  lemma DrivePinsRaw(w: bv32, scl: bv32, sda: bv32)
    requires scl <= 1 && sda <= 1
    ensures var w1 := (((w & !(1 << 1)) | ((scl & 1) << 1)) & !(1 << 2)) | ((sda & 1) << 2);
      (w1 >> 1) & 1 == scl && (w1 >> 2) & 1 == sda && w1 & !0x6 == w & !0x6
  {
  }

  /**
   * The six field stores of i2c_write_byte_raw, applied in the source's
   * order to the word `base`.
   */
  function BuildFmtEntry(base: bv32, byte: bv8, flags: FmtFlags): bv32
  {
    var w0 := Write(base, FdataFbyteMask, FdataFbyteOffset, byte as bv32);
    var w1 := Write(w0, BitMask1, FdataStartBit, BitOf(flags.start));
    var w2 := Write(w1, BitMask1, FdataStopBit, BitOf(flags.stop));
    var w3 := Write(w2, BitMask1, FdataReadBit, BitOf(flags.read));
    var w4 := Write(w3, BitMask1, FdataRcontBit, BitOf(flags.readCont));
    Write(w4, BitMask1, FdataNakOkBit, BitOf(flags.suppressNakIrq))
  }

  /** The six stores build the FMT entry for the byte and flags on top of `base`. */
  lemma {:induction false} BuildFmtEntryIsEntry(base: bv32, byte: bv8, flags: FmtFlags)
    ensures IsFmtEntry(BuildFmtEntry(base, byte, flags), base, byte, flags)
  {
    var w := BuildFmtEntry(base, byte, flags);
    var b, s, t, r, c, n := byte as bv32, BitOf(flags.start), BitOf(flags.stop), BitOf(flags.read),
      BitOf(flags.readCont), BitOf(flags.suppressNakIrq);
    BuildFmtEntryIsRaw(base, byte, flags);
    RawFmtEntryFields(base, b, s, t, r, c, n);
    EntryFromRawFields(w, base, byte, flags);
  }

  lemma BuildFmtEntryIsRaw(base: bv32, byte: bv8, flags: FmtFlags)
    ensures BuildFmtEntry(base, byte, flags) == RawFmtEntry(base, byte as bv32, BitOf(flags.start), BitOf(flags.stop),
      BitOf(flags.read), BitOf(flags.readCont), BitOf(flags.suppressNakIrq))
  {
  }

  /** The FDATA fields of `w`, written out as shifts and masks, hold the given values. */
  predicate RawFieldsHold(w: bv32, base: bv32, b: bv32, s: bv32, t: bv32, r: bv32, c: bv32, n: bv32)
  {
    (w >> 0) & 0xff == b && (w >> 8) & 1 == s && (w >> 9) & 1 == t && (w >> 10) & 1 == r &&
    (w >> 11) & 1 == c && (w >> 12) & 1 == n && w & !0x1fff == base & !0x1fff
  }

  lemma EntryFromRawFields(w: bv32, base: bv32, byte: bv8, flags: FmtFlags)
    requires RawFieldsHold(w, base, byte as bv32, BitOf(flags.start), BitOf(flags.stop), BitOf(flags.read),
      BitOf(flags.readCont), BitOf(flags.suppressNakIrq))
    ensures IsFmtEntry(w, base, byte, flags)
  {
    FbyteRaw(w);
    FlagBitsRaw(w);
  }

  function RawFmtEntry(w: bv32, b: bv32, s: bv32, t: bv32, r: bv32, c: bv32, n: bv32): bv32
  {
    var w0 := (w & !(0xff << 0)) | ((b & 0xff) << 0);
    var w1 := (w0 & !(1 << 8)) | ((s & 1) << 8);
    var w2 := (w1 & !(1 << 9)) | ((t & 1) << 9);
    var w3 := (w2 & !(1 << 10)) | ((r & 1) << 10);
    var w4 := (w3 & !(1 << 11)) | ((c & 1) << 11);
    (w4 & !(1 << 12)) | ((n & 1) << 12)
  }

  lemma RawFmtEntryFields(w: bv32, b: bv32, s: bv32, t: bv32, r: bv32, c: bv32, n: bv32)
    requires b <= 0xff && s <= 1 && t <= 1 && r <= 1 && c <= 1 && n <= 1
    ensures RawFieldsHold(RawFmtEntry(w, b, s, t, r, c, n), w, b, s, t, r, c, n)
  {
  }

  /** The register block of the I2C peripheral (`i2c_peri`). */
  class I2c {
    var timing0: bv32
    var timing1: bv32
    var timing2: bv32
    var timing3: bv32
    var timing4: bv32
    var ctrl: bv32
    var ovrd: bv32
    var val: bv32
    var fifoCtrl: bv32
    var fifoStatus: bv32
    var fdata: bv32
    var rdata: bv32
    var intrState: bv32
    var intrEnable: bv32
    var intrTest: bv32
    /** Every word stored to FDATA, oldest first: one FMT FIFO entry each. */
    ghost var fdataStores: seq<bv32>

    constructor ()
      ensures timing0 == timing1 == timing2 == timing3 == timing4 == 0
      ensures ctrl == ovrd == val == fifoCtrl == fifoStatus == fdata == rdata == 0
      ensures intrState == intrEnable == intrTest == 0
      ensures fdataStores == []
    {
      timing0, timing1, timing2, timing3, timing4 := 0, 0, 0, 0, 0;
      ctrl, ovrd, val, fifoCtrl, fifoStatus, fdata, rdata := 0, 0, 0, 0, 0, 0, 0;
      intrState, intrEnable, intrTest := 0, 0, 0;
      fdataStores := [];
    }

    /** The ten 16-bit timing fields of TIMING0..4, in the order of i2c_config_t. */
    function TimingFields(): (f: seq<bv32>)
      reads this
      ensures |f| == 10
    {
      [Read(timing0, TimingFieldMask, TimingLowHalf), Read(timing0, TimingFieldMask, TimingHighHalf),
       Read(timing1, TimingFieldMask, TimingLowHalf), Read(timing1, TimingFieldMask, TimingHighHalf),
       Read(timing2, TimingFieldMask, TimingLowHalf), Read(timing2, TimingFieldMask, TimingHighHalf),
       Read(timing3, TimingFieldMask, TimingLowHalf), Read(timing3, TimingFieldMask, TimingHighHalf),
       Read(timing4, TimingFieldMask, TimingLowHalf), Read(timing4, TimingFieldMask, TimingHighHalf)]
    }

    /**
     * i2c_configure: every field of `config` goes to its half of TIMING0..4,
     * so the timing fields then hold exactly the fields of `config`; nothing
     * but the timing registers changes.
     */
    method Configure(config: Config)
      modifies this`timing0, this`timing1, this`timing2, this`timing3, this`timing4
      ensures TimingFields() == ConfigWords(config)
    {
      var c := ConfigWords(config);
      TimingHalves(timing0, c[0], c[1]);
      timing0 := Write(timing0, TimingFieldMask, TimingLowHalf, c[0]);
      timing0 := Write(timing0, TimingFieldMask, TimingHighHalf, c[1]);
      TimingHalves(timing1, c[2], c[3]);
      timing1 := Write(timing1, TimingFieldMask, TimingLowHalf, c[2]);
      timing1 := Write(timing1, TimingFieldMask, TimingHighHalf, c[3]);
      TimingHalves(timing2, c[4], c[5]);
      timing2 := Write(timing2, TimingFieldMask, TimingLowHalf, c[4]);
      timing2 := Write(timing2, TimingFieldMask, TimingHighHalf, c[5]);
      TimingHalves(timing3, c[6], c[7]);
      timing3 := Write(timing3, TimingFieldMask, TimingLowHalf, c[6]);
      timing3 := Write(timing3, TimingFieldMask, TimingHighHalf, c[7]);
      TimingHalves(timing4, c[8], c[9]);
      timing4 := Write(timing4, TimingFieldMask, TimingLowHalf, c[8]);
      timing4 := Write(timing4, TimingFieldMask, TimingHighHalf, c[9]);
    }

    /** i2c_irq_is_pending: the null check comes first, then the range check. */
    method IrqIsPending(irq: int, hasOut: bool) returns (r: I2cResult, pending: bool)
      ensures r == (if !hasOut || !IrqArgOk(irq) then I2cBadArg else I2cOk)
      ensures r == I2cOk ==> pending == ReadBit(intrState, IrqIndex(irq))
    {
      if !hasOut {
        return I2cBadArg, false;
      }
      if irq < 0 || irq > NIrqTypes {
        return I2cBadArg, false;
      }
      pending := Read(intrState, BitMask1, IrqIndex(irq)) != 0;
      r := I2cOk;
    }

    /**
     * i2c_irq_acknowledge: INTR_STATE is written with a word holding only the
     * interrupt's bit.
     */
    method IrqAcknowledge(irq: int) returns (r: I2cResult)
      modifies this`intrState
      ensures r == (if IrqArgOk(irq) then I2cOk else I2cBadArg)
      ensures r == I2cOk ==> intrState == 1 << IrqIndex(irq) && ReadBit(intrState, IrqIndex(irq))
      ensures r == I2cBadArg ==> intrState == old(intrState)
    {
      if irq < 0 || irq > NIrqTypes {
        return I2cBadArg;
      }
      WriteBitIntoZero(IrqIndex(irq));
      intrState := Write(0, BitMask1, IrqIndex(irq), 1);
      r := I2cOk;
    }

    /** i2c_irq_get_enabled: the interrupt's INTR_ENABLE bit, as a toggle. */
    method IrqGetEnabled(irq: int) returns (r: I2cResult, state: Toggle)
      ensures r == (if IrqArgOk(irq) then I2cOk else I2cBadArg)
      ensures r == I2cOk ==> !state.ToggleOutOfRange? && (state == Enabled <==> ReadBit(intrEnable, IrqIndex(irq)))
    {
      if irq < 0 || irq > NIrqTypes {
        return I2cBadArg, ToggleOutOfRange;
      }
      state := ToggleOfBit(Read(intrEnable, BitMask1, IrqIndex(irq)) != 0);
      r := I2cOk;
    }

    /**
     * i2c_irq_set_enabled: the toggle is checked before the interrupt; on
     * success only the interrupt's INTR_ENABLE bit changes.
     */
    method IrqSetEnabled(irq: int, state: Toggle) returns (r: I2cResult)
      modifies this`intrEnable
      ensures r == (if state.ToggleOutOfRange? || !IrqArgOk(irq) then I2cBadArg else I2cOk)
      ensures r == I2cOk ==> intrEnable == WriteBit(old(intrEnable), IrqIndex(irq), state == Enabled)
      ensures r == I2cBadArg ==> intrEnable == old(intrEnable)
    {
      if state != Enabled && state != Disabled {
        return I2cBadArg;
      }
      if irq < 0 || irq > NIrqTypes {
        return I2cBadArg;
      }
      WriteToggle(intrEnable, IrqIndex(irq), state);
      intrEnable := Write(intrEnable, BitMask1, IrqIndex(irq), ToggleBit(state));
      r := I2cOk;
    }

    /** i2c_irq_force: INTR_TEST is written with a word holding only the interrupt's bit. */
    method IrqForce(irq: int) returns (r: I2cResult)
      modifies this`intrTest
      ensures r == (if IrqArgOk(irq) then I2cOk else I2cBadArg)
      ensures r == I2cOk ==> intrTest == 1 << IrqIndex(irq) && ReadBit(intrTest, IrqIndex(irq))
      ensures r == I2cBadArg ==> intrTest == old(intrTest)
    {
      if irq < 0 || irq > NIrqTypes {
        return I2cBadArg;
      }
      WriteBitIntoZero(IrqIndex(irq));
      intrTest := Write(0, BitMask1, IrqIndex(irq), 1);
      r := I2cOk;
    }

    /**
     * i2c_irq_disable_all: the snapshot (when the caller passes one) gets the
     * old INTR_ENABLE, which is then cleared.
     */
    method IrqDisableAll(wantSnapshot: bool) returns (r: I2cResult, snapshot: Option<bv32>)
      modifies this`intrEnable
      ensures r == I2cOk && intrEnable == 0
      ensures snapshot == (if wantSnapshot then Some(old(intrEnable)) else None)
    {
      snapshot := None;
      if wantSnapshot {
        snapshot := Some(intrEnable);
      }
      intrEnable := 0;
      r := I2cOk;
    }

    /** i2c_irq_restore_all: a missing snapshot is rejected; otherwise INTR_ENABLE gets it back. */
    method IrqRestoreAll(snapshot: Option<bv32>) returns (r: I2cResult)
      modifies this`intrEnable
      ensures r == (if snapshot.None? then I2cBadArg else I2cOk)
      ensures intrEnable == (if snapshot.None? then old(intrEnable) else snapshot.value)
    {
      if snapshot.None? {
        return I2cBadArg;
      }
      intrEnable := snapshot.value;
      r := I2cOk;
    }

    /** i2c_reset_rx_fifo: sets RXRST, every other bit of FIFO_CTRL is kept. */
    method ResetRxFifo() returns (r: I2cResult)
      modifies this`fifoCtrl
      ensures r == I2cOk && fifoCtrl == WriteBit(old(fifoCtrl), FifoCtrlRxRstBit, true)
    {
      assert Write(fifoCtrl, BitMask1, FifoCtrlRxRstBit, 1) == WriteBit(fifoCtrl, FifoCtrlRxRstBit, true);
      fifoCtrl := Write(fifoCtrl, BitMask1, FifoCtrlRxRstBit, 1);
      r := I2cOk;
    }

    /** i2c_reset_fmt_fifo: sets FMTRST, every other bit of FIFO_CTRL is kept. */
    method ResetFmtFifo() returns (r: I2cResult)
      modifies this`fifoCtrl
      ensures r == I2cOk && fifoCtrl == WriteBit(old(fifoCtrl), FifoCtrlFmtRstBit, true)
    {
      assert Write(fifoCtrl, BitMask1, FifoCtrlFmtRstBit, 1) == WriteBit(fifoCtrl, FifoCtrlFmtRstBit, true);
      fifoCtrl := Write(fifoCtrl, BitMask1, FifoCtrlFmtRstBit, 1);
      r := I2cOk;
    }

    /**
     * i2c_set_watermarks: both levels are checked before anything is stored;
     * on success RXILVL and FMTILVL hold the levels' codes and every other
     * bit of FIFO_CTRL is kept.
     */
    method SetWatermarks(rxLevel: Level, fmtLevel: Level) returns (r: I2cResult)
      modifies this`fifoCtrl
      ensures r == (if RxLevelCode(rxLevel).None? || FmtLevelCode(fmtLevel).None? then I2cBadArg else I2cOk)
      ensures r == I2cOk ==>
        Read(fifoCtrl, FifoCtrlRxIlvlMask, FifoCtrlRxIlvlOffset) == RxLevelCode(rxLevel).value &&
        Read(fifoCtrl, FifoCtrlFmtIlvlMask, FifoCtrlFmtIlvlOffset) == FmtLevelCode(fmtLevel).value &&
        fifoCtrl & !WatermarkBits == old(fifoCtrl) & !WatermarkBits
      ensures r == I2cBadArg ==> fifoCtrl == old(fifoCtrl)
    {
      var rxCode := RxLevelCode(rxLevel);
      if rxCode.None? {
        return I2cBadArg;
      }
      var fmtCode := FmtLevelCode(fmtLevel);
      if fmtCode.None? {
        return I2cBadArg;
      }
      WatermarkFields(fifoCtrl, rxCode.value, fmtCode.value);
      fifoCtrl := Write(fifoCtrl, FifoCtrlRxIlvlMask, FifoCtrlRxIlvlOffset, rxCode.value);
      fifoCtrl := Write(fifoCtrl, FifoCtrlFmtIlvlMask, FifoCtrlFmtIlvlOffset, fmtCode.value);
      r := I2cOk;
    }

    /** i2c_host_set_enabled: ENABLEHOST takes the toggle, every other bit of CTRL is kept. */
    method HostSetEnabled(state: Toggle) returns (r: I2cResult)
      modifies this`ctrl
      ensures r == (if state.ToggleOutOfRange? then I2cBadArg else I2cOk)
      ensures r == I2cOk ==> ctrl == WriteBit(old(ctrl), CtrlEnableHostBit, state == Enabled)
      ensures r == I2cBadArg ==> ctrl == old(ctrl)
    {
      if state != Enabled && state != Disabled {
        return I2cBadArg;
      }
      WriteToggle(ctrl, CtrlEnableHostBit, state);
      ctrl := Write(ctrl, BitMask1, CtrlEnableHostBit, ToggleBit(state));
      r := I2cOk;
    }

    /** i2c_override_set_enabled: TXOVRDEN takes the toggle, every other bit of OVRD is kept. */
    method OverrideSetEnabled(state: Toggle) returns (r: I2cResult)
      modifies this`ovrd
      ensures r == (if state.ToggleOutOfRange? then I2cBadArg else I2cOk)
      ensures r == I2cOk ==> ovrd == WriteBit(old(ovrd), OvrdTxOvrdEnBit, state == Enabled)
      ensures r == I2cBadArg ==> ovrd == old(ovrd)
    {
      if state != Enabled && state != Disabled {
        return I2cBadArg;
      }
      WriteToggle(ovrd, OvrdTxOvrdEnBit, state);
      ovrd := Write(ovrd, BitMask1, OvrdTxOvrdEnBit, ToggleBit(state));
      r := I2cOk;
    }

    /**
     * i2c_override_drive_pins: SCLVAL and SDAVAL take the two values whether
     * or not the override is enabled; every other bit of OVRD is kept.
     */
    method OverrideDrivePins(scl: bool, sda: bool) returns (r: I2cResult)
      modifies this`ovrd
      ensures r == I2cOk
      ensures ReadBit(ovrd, OvrdSclValBit) == scl && ReadBit(ovrd, OvrdSdaValBit) == sda
      ensures ovrd & !PinValueBits == old(ovrd) & !PinValueBits
    {
      DrivePinsFields(ovrd, scl, sda);
      ovrd := Write(ovrd, BitMask1, OvrdSclValBit, BitOf(scl));
      ovrd := Write(ovrd, BitMask1, OvrdSdaValBit, BitOf(sda));
      r := I2cOk;
    }

    /**
     * i2c_override_sample_pins: the source reads VAL for each requested
     * sample but stores nothing through the pointers, so the call changes
     * nothing and reports success.
     */
    method OverrideSamplePins(wantScl: bool, wantSda: bool) returns (r: I2cResult)
      ensures r == I2cOk
    {
      r := I2cOk;
    }

    /** i2c_get_fifo_levels: each requested level is its FIFO_STATUS field. */
    method GetFifoLevels(wantFmt: bool, wantRx: bool) returns (r: I2cResult, fmtLevel: Option<bv8>, rxLevel: Option<bv8>)
      ensures r == I2cOk
      ensures fmtLevel.Some? <==> wantFmt
      ensures rxLevel.Some? <==> wantRx
      ensures fmtLevel.Some? ==> fmtLevel.value <= 0x7f && fmtLevel.value as bv32 == Read(fifoStatus, FifoStatusFmtLvlMask, FifoStatusFmtLvlOffset)
      ensures rxLevel.Some? ==> rxLevel.value <= 0x7f && rxLevel.value as bv32 == Read(fifoStatus, FifoStatusRxLvlMask, FifoStatusRxLvlOffset)
    {
      fmtLevel, rxLevel := None, None;
      if wantFmt {
        fmtLevel := Some(Read(fifoStatus, FifoStatusFmtLvlMask, FifoStatusFmtLvlOffset) as bv8);
      }
      if wantRx {
        rxLevel := Some(Read(fifoStatus, FifoStatusRxLvlMask, FifoStatusRxLvlOffset) as bv8);
      }
      r := I2cOk;
    }

    /** i2c_read_byte: the byte (when requested) is the RDATA field; the call always succeeds. */
    method ReadByte(wantByte: bool) returns (r: I2cResult, byte: Option<bv8>)
      ensures r == I2cOk
      ensures byte.Some? <==> wantByte
      ensures byte.Some? ==> byte.value as bv32 == Read(rdata, RdataMask, RdataOffset)
    {
      byte := None;
      if wantByte {
        byte := Some(Read(rdata, RdataMask, RdataOffset) as bv8);
      }
      r := I2cOk;
    }

    /**
     * i2c_write_byte_raw: flags that mix writing with reading, or read_cont
     * without read, are rejected and nothing is stored; otherwise the entry
     * is built from the current FDATA word and stored to FDATA once
     * (BuildFmtEntryIsEntry says what that word holds).
     */
    method WriteByteRaw(byte: bv8, flags: FmtFlags) returns (r: I2cResult)
      modifies this`fdata, this`fdataStores
      ensures r == (if FlagsValid(flags) then I2cOk else I2cBadArg)
      ensures r == I2cOk ==> fdata == BuildFmtEntry(old(fdata), byte, flags) && fdataStores == old(fdataStores) + [fdata]
      ensures r == I2cBadArg ==> fdata == old(fdata) && fdataStores == old(fdataStores)
    {
      var hasWriteFlags := flags.start || flags.stop || flags.suppressNakIrq;
      var hasReadFlags := flags.read || flags.readCont;
      if hasWriteFlags && hasReadFlags {
        return I2cBadArg;
      }
      if flags.readCont && !flags.read {
        return I2cBadArg;
      }
      var entry: bv32 := fdata;
      entry := Write(entry, FdataFbyteMask, FdataFbyteOffset, byte as bv32);
      entry := Write(entry, BitMask1, FdataStartBit, BitOf(flags.start));
      entry := Write(entry, BitMask1, FdataStopBit, BitOf(flags.stop));
      entry := Write(entry, BitMask1, FdataReadBit, BitOf(flags.read));
      entry := Write(entry, BitMask1, FdataRcontBit, BitOf(flags.readCont));
      entry := Write(entry, BitMask1, FdataNakOkBit, BitOf(flags.suppressNakIrq));
      assert entry == BuildFmtEntry(fdata, byte, flags);
      fdata := entry;
      fdataStores := fdataStores + [entry];
      r := I2cOk;
    }

    /**
     * i2c_write_byte: the format code becomes flags (an Rx code with
     * suppress_nak_irq, or an unknown code, is rejected), and then the
     * checks and the store of i2c_write_byte_raw apply.
     */
    method WriteByte(byte: bv8, code: FmtCode, suppressNakIrq: bool) returns (r: I2cResult)
      modifies this`fdata, this`fdataStores
      ensures var f := FlagsForCode(code, suppressNakIrq);
        r == (if f.Some? && FlagsValid(f.value) then I2cOk else I2cBadArg)
      ensures r == I2cOk ==>
        fdata == BuildFmtEntry(old(fdata), byte, FlagsForCode(code, suppressNakIrq).value) &&
        fdataStores == old(fdataStores) + [fdata]
      ensures r == I2cBadArg ==> fdata == old(fdata) && fdataStores == old(fdataStores)
    {
      if suppressNakIrq && (code == FmtRx || code == FmtRxContinue || code == FmtRxStop) {
        return I2cBadArg;
      }
      var flags := FmtFlags(false, false, false, false, suppressNakIrq);
      match code {
        case FmtStart => flags := flags.(start := true);
        case FmtTx =>
        case FmtTxStop => flags := flags.(stop := true);
        case FmtRx => flags := flags.(read := true);
        case FmtRxContinue => flags := flags.(read := true, readCont := true);
        case FmtRxStop => flags := flags.(read := true, stop := true);
        case FmtOutOfRange => return I2cBadArg;
      }
      assert FlagsForCode(code, suppressNakIrq) == Some(flags);
      r := WriteByteRaw(byte, flags);
    }
  }

  /** A TIMING word is fully determined by its two 16-bit halves. */
  lemma TimingWordOfHalves(w: bv32)
    ensures w == (Read(w, TimingFieldMask, TimingHighHalf) << 16) | Read(w, TimingFieldMask, TimingLowHalf)
  {
  }

  /**
   * The sequence of calls of the I2C test application (sw/applications/
   * i2c_test/main.c), starting from a peripheral whose registers are all
   * zero: a configuration of all ones, watermarks of 4 and 16 bytes, both
   * FIFO resets, the override pins driven before and after the override is
   * enabled, and one Start byte of 42. The stores leave the words the
   * application prints.
   */
  method TestApplication() returns (i2c: I2c, written: I2cResult)
    ensures i2c.timing0 == i2c.timing1 == i2c.timing2 == i2c.timing3 == i2c.timing4 == 0x0001_0001
    ensures i2c.fifoCtrl == 103
    ensures i2c.ovrd == 7
    ensures written == I2cOk && i2c.fdataStores == [0x12a]
  {
    i2c := new I2c();
    i2c.Configure(Config(1, 1, 1, 1, 1, 1, 1, 1, 1, 1));
    TimingWordOfHalves(i2c.timing0);
    TimingWordOfHalves(i2c.timing1);
    TimingWordOfHalves(i2c.timing2);
    TimingWordOfHalves(i2c.timing3);
    TimingWordOfHalves(i2c.timing4);
    var r := i2c.SetWatermarks(Level4Byte, Level16Byte);
    assert i2c.fifoCtrl == 100;
    r := i2c.ResetRxFifo();
    r := i2c.ResetFmtFifo();
    r := i2c.OverrideDrivePins(true, true);
    assert i2c.ovrd == 6;
    r := i2c.OverrideSetEnabled(Enabled);
    r := i2c.OverrideDrivePins(true, true);
    var fmtLevel, rxLevel;
    r, fmtLevel, rxLevel := i2c.GetFifoLevels(true, true);
    written := i2c.WriteByte(42, FmtStart, false);
    assert i2c.fdata == 0x12a;
  }

  /**
   * i2c_irq_disable_all followed by i2c_irq_restore_all with the snapshot
   * it took puts INTR_ENABLE back as it was, with every interrupt disabled
   * in between.
   */
  method DisableThenRestore(i2c: I2c) returns (between: bv32)
    modifies i2c`intrEnable
    ensures between == 0
    ensures i2c.intrEnable == old(i2c.intrEnable)
  {
    var r, snapshot := i2c.IrqDisableAll(true);
    between := i2c.intrEnable;
    r := i2c.IrqRestoreAll(snapshot);
  }

  /**
   * i2c_irq_set_enabled followed by i2c_irq_get_enabled on the same
   * interrupt gives back the toggle that was set.
   */
  method SetThenGetEnabled(i2c: I2c, irq: int, state: Toggle) returns (got: Toggle)
    requires IrqArgOk(irq) && !state.ToggleOutOfRange?
    modifies i2c`intrEnable
    ensures got == state
  {
    var r := i2c.IrqSetEnabled(irq, state);
    r, got := i2c.IrqGetEnabled(irq);
  }
}
