/**
 * The RV_PLIC driver: interrupt-source bookkeeping (which word and which bit
 * of the IE, IP and LE registers belong to a source), classification of
 * source ids by peripheral, range-checked register updates, the claim and
 * complete handshake, the software interrupt, initialisation, and the
 * dispatch decision of the external-interrupt handler.
 *
 * The driver reaches the IE, IP, LE and PRIO registers by pointer arithmetic
 * from IE00, IP0, LE0 and PRIO0, so the whole register block is one array of
 * 32-bit words and every register is an index into it. The register
 * structure and the parameters come from generated headers that are not
 * part of this model; the block is assumed to hold, without gaps,
 *   IP0..IP1, LE0..LE1, PRIO0..PRIO63, IE00..IE01, THRESHOLD0, CC0, MSIP0.
 * A register keeps the last word stored to it (no hardware reaction to a
 * store is modelled).
 */
module RvPlic {
  import opened Bitfield
  import opened CTypes

  /** RV_PLIC_PARAM_NUM_SRC */
  const NumSrc: int := 64
  /** RV_PLIC_PARAM_REG_WIDTH: one bit per source in each IE, IP and LE word. */
  const RegWidth: int := 32
  /** RV_PLIC_LE_MULTIREG_COUNT */
  const LeMultiregCount: int := 2
  /** RV_PLIC_IE0_MULTIREG_COUNT */
  const Ie0MultiregCount: int := 2
  /** plicMaxPriority, which is RV_PLIC_PRIO0_PRIO0_MASK (a 3-bit priority). */
  const MaxPriority: bv32 := 7

  /** Word indices of the registers within the block. */
  const Ip0: int := 0
  const Le0: int := 2
  const Prio0: int := 4
  const Ie00: int := 68
  const Threshold0: int := 70
  const Cc0: int := 71
  const Msip0: int := 72
  const BlockWords: int := 73

  /** The source id ranges of the peripherals: UART 1-8, GPIO 9-32, I2C 33-48, SPI 49. */
  const UartIdStart: bv32 := 1
  const UartIdEnd: bv32 := 8
  const GpioIdEnd: bv32 := 32
  const I2cIdEnd: bv32 := 48
  const SpiId: bv32 := 49

  /** plic_result_t */
  datatype PlicResult = PlicOk | PlicError | PlicBadArg

  /**
   * plic_toggle_t, with Enabled assumed to be stored as a set bit;
   * `PlicToggleOutOfRange` is any other value of the C enum variable.
   */
  datatype PlicToggle = PlicEnabled | PlicDisabled | PlicToggleOutOfRange

  /**
   * plic_irq_trigger_t: Edge is the code 0 and Level the code 1;
   * `TriggerOther` is any other (non-zero) value of the C enum variable.
   */
  datatype Trigger = TriggerEdge | TriggerLevel | TriggerOther

  /** irq_sources_t: the handler a source id belongs to, or IRQ_BAD. */
  datatype IrqSource = IrqUartSrc | IrqGpioSrc | IrqI2cSrc | IrqSpiSrc | IrqBad

  /** The bit a trigger code becomes when passed as a `bool`: any non-zero code is set. */
  function TriggerBit(t: Trigger): bool
  {
    t != TriggerEdge
  }

  /**
   * plic_offset_from_reg0: the register index `irq / REG_WIDTH`, narrowed to
   * uint8_t, times sizeof(uint32_t).
   */
  function OffsetFromReg0(irq: U32): (offset: int)
    ensures 0 <= offset <= 4 * 255 && offset % 4 == 0
    ensures irq < 256 * RegWidth ==> offset == 4 * (irq / RegWidth)
  {
    ((irq / RegWidth) % 256) * 4
  }

  /** plic_irq_bit_index: the bit of a source within its word. */
  function IrqBitIndex(irq: U32): (index: int)
    ensures 0 <= index < RegWidth
    ensures irq == RegWidth * (irq / RegWidth) + index
  {
    irq % RegWidth
  }

  /** IrqBitIndex as a bit position. */
  function BitIndex(irq: U32): (i: bv32)
    ensures i < 32
  {
    IrqBitIndex(irq) as bv32
  }

  /**
   * The offset and the bit index together determine the source: no two
   * sources below 256 * REG_WIDTH share a register index and a bit.
   */
  lemma {:induction false} OffsetAndIndexDetermineIrq(irq: U32)
    requires irq < 256 * RegWidth
    ensures (OffsetFromReg0(irq) / 4) * RegWidth + IrqBitIndex(irq) == irq
  {
    assert OffsetFromReg0(irq) / 4 == irq / RegWidth;
  }

  /**
   * The words plic_irq_set_enabled/get_enabled, plic_irq_is_pending and
   * plic_irq_set_trigger touch: the byte offset is added to a uint32_t
   * pointer, so it counts words.
   */
  function IeWord(irq: U32): int { Ie00 + OffsetFromReg0(irq) }
  function IpWord(irq: U32): int { Ip0 + OffsetFromReg0(irq) }
  function LeWord(irq: U32): int { Le0 + OffsetFromReg0(irq) }

  /**
   * Sources 0..31 use IE00, IP0 and LE0; sources 32..63 land four words
   * further on, on MSIP0, PRIO0 and PRIO2, instead of on IE01, IP1 and LE1.
   */
  lemma {:induction false} WordsOfSources(irq: U32)
    requires irq < NumSrc
    ensures irq < RegWidth ==> IeWord(irq) == Ie00 && IpWord(irq) == Ip0 && LeWord(irq) == Le0
    ensures irq >= RegWidth ==> IeWord(irq) == Msip0 && IpWord(irq) == Prio0 && LeWord(irq) == Prio0 + 2
    ensures IeWord(irq) < BlockWords && IpWord(irq) < BlockWords && LeWord(irq) < BlockWords
  {
    if irq < RegWidth {
      assert irq / RegWidth == 0;
    } else {
      assert irq / RegWidth == 1;
    }
  }

  /** plic_get_irq_src_type */
  function SrcType(id: bv32): IrqSource
  {
    if id < UartIdStart || id > SpiId then IrqBad
    else if id <= UartIdEnd then IrqUartSrc
    else if id <= GpioIdEnd then IrqGpioSrc
    else if id <= I2cIdEnd then IrqI2cSrc
    else IrqSpiSrc
  }

  /** The slot of the `handlers` table a source's handler sits in. */
  function HandlerSlot(s: IrqSource): (k: int)
    requires s != IrqBad
    ensures 0 <= k < 4
  {
    match s
    case IrqUartSrc => 0
    case IrqGpioSrc => 1
    case IrqI2cSrc => 2
    case IrqSpiSrc => 3
  }

  /** Each source type is exactly its id range. */
  lemma SrcTypeRanges(id: bv32)
    ensures SrcType(id) == IrqBad <==> id < 1 || id > 49
    ensures SrcType(id) == IrqUartSrc <==> 1 <= id <= 8
    ensures SrcType(id) == IrqGpioSrc <==> 9 <= id <= 32
    ensures SrcType(id) == IrqI2cSrc <==> 33 <= id <= 48
    ensures SrcType(id) == IrqSpiSrc <==> id == 49
  {
  }

  /** The classification is monotone: a larger valid id never maps to an earlier handler slot. */
  lemma {:induction false} SrcTypeMonotone(a: bv32, b: bv32)
    requires a <= b && SrcType(a) != IrqBad && SrcType(b) != IrqBad
    ensures HandlerSlot(SrcType(a)) <= HandlerSlot(SrcType(b))
  {
    SrcTypeRanges(a);
    SrcTypeRanges(b);
  }

  /** The PLIC register block (`rv_plic_peri`) and the driver's global flag. */
  class Plic {
    const words: array<bv32>
    /** plic_intr_flag */
    var intrFlag: bv8
    /** Every word stored to CC0, oldest first: one completion each. */
    ghost var cc0Stores: seq<bv32>

    ghost predicate Valid()
      reads this
    {
      words.Length == BlockWords
    }

    constructor ()
      ensures Valid() && fresh(words)
      ensures forall k :: 0 <= k < BlockWords ==> words[k] == 0
      ensures intrFlag == 0 && cc0Stores == []
    {
      words := new bv32[BlockWords](_ => 0);
      intrFlag := 0;
      cc0Stores := [];
    }

    /**
     * plic_Init: the "Level/Edge" loop and the "priority" loop both count
     * from IP0, so together they clear IP0..1, LE0..1 and PRIO0..59;
     * then IE00..IE01, THRESHOLD0 and MSIP0 are cleared. PRIO60..63 and CC0
     * keep their values.
     */
    method Init() returns (r: PlicResult)
      requires Valid()
      modifies words
      ensures r == PlicOk
      ensures forall k :: Ip0 <= k < Ip0 + NumSrc ==> words[k] == 0
      ensures forall k :: Ie00 <= k < Ie00 + Ie0MultiregCount ==> words[k] == 0
      ensures words[Threshold0] == 0 && words[Msip0] == 0
      ensures forall k :: Ip0 + NumSrc <= k < Ie00 ==> words[k] == old(words[k])
      ensures words[Cc0] == old(words[Cc0])
    {
      var i := 0;
      while i < LeMultiregCount
        invariant 0 <= i <= LeMultiregCount
        invariant forall k :: Ip0 <= k < Ip0 + i ==> words[k] == 0
        invariant forall k :: Ip0 + i <= k < BlockWords ==> words[k] == old(words[k])
      {
        words[Ip0 + i] := 0;
        i := i + 1;
      }
      i := 0;
      while i < NumSrc
        invariant 0 <= i <= NumSrc
        invariant forall k :: Ip0 <= k < Ip0 + i ==> words[k] == 0
        invariant forall k :: Ip0 + NumSrc <= k < BlockWords ==> words[k] == old(words[k])
      {
        words[Ip0 + i] := 0;
        i := i + 1;
      }
      i := 0;
      while i < Ie0MultiregCount
        invariant 0 <= i <= Ie0MultiregCount
        invariant forall k :: Ip0 <= k < Ip0 + NumSrc ==> words[k] == 0
        invariant forall k :: Ie00 <= k < Ie00 + i ==> words[k] == 0
        invariant forall k :: Ip0 + NumSrc <= k < Ie00 || Ie00 + i <= k < BlockWords ==> words[k] == old(words[k])
      {
        words[Ie00 + i] := 0;
        i := i + 1;
      }
      words[Threshold0] := 0;
      words[Msip0] := 0;
      r := PlicOk;
    }

    /**
     * plic_irq_set_enabled: a source at or past NUM_SRC, or a toggle that
     * is neither Enabled nor Disabled, is rejected; otherwise exactly the
     * source's bit of its IE word changes.
     */
    method SetEnabled(irq: U32, state: PlicToggle) returns (r: PlicResult)
      requires Valid()
      modifies words
      ensures r == (if irq >= NumSrc || state.PlicToggleOutOfRange? then PlicBadArg else PlicOk)
      ensures r == PlicOk ==>
        IeWord(irq) < BlockWords &&
        words[IeWord(irq)] == WriteBit(old(words[IeWord(irq)]), BitIndex(irq), state == PlicEnabled)
      ensures forall k :: 0 <= k < BlockWords && (r != PlicOk || k != IeWord(irq)) ==> words[k] == old(words[k])
    {
      if irq >= NumSrc {
        return PlicBadArg;
      }
      if state != PlicEnabled && state != PlicDisabled {
        return PlicBadArg;
      }
      WordsOfSources(irq);
      var offset := OffsetFromReg0(irq);
      var bitIndex := BitIndex(irq);
      words[Ie00 + offset] := WriteBit(words[Ie00 + offset], bitIndex, state == PlicEnabled);
      r := PlicOk;
    }

    /** plic_irq_get_enabled: the source's bit of its IE word, as a toggle. */
    method GetEnabled(irq: U32) returns (r: PlicResult, state: Option<PlicToggle>)
      requires Valid()
      ensures r == (if irq >= NumSrc then PlicBadArg else PlicOk)
      ensures r == PlicOk ==>
        IeWord(irq) < BlockWords &&
        state == Some(if ReadBit(words[IeWord(irq)], BitIndex(irq)) then PlicEnabled else PlicDisabled)
      ensures r == PlicBadArg ==> state == None
    {
      if irq >= NumSrc {
        return PlicBadArg, None;
      }
      WordsOfSources(irq);
      var offset := OffsetFromReg0(irq);
      var bitIndex := BitIndex(irq);
      state := Some(if ReadBit(words[Ie00 + offset], bitIndex) then PlicEnabled else PlicDisabled);
      r := PlicOk;
    }

    /**
     * plic_irq_set_trigger: a source at or past NUM_SRC is rejected;
     * otherwise exactly the source's bit of its LE word changes. The
     * trigger itself is not checked.
     */
    method SetTrigger(irq: U32, trigger: Trigger) returns (r: PlicResult)
      requires Valid()
      modifies words
      ensures r == (if irq >= NumSrc then PlicBadArg else PlicOk)
      ensures r == PlicOk ==>
        LeWord(irq) < BlockWords &&
        words[LeWord(irq)] == WriteBit(old(words[LeWord(irq)]), BitIndex(irq), TriggerBit(trigger))
      ensures forall k :: 0 <= k < BlockWords && (r != PlicOk || k != LeWord(irq)) ==> words[k] == old(words[k])
    {
      if irq >= NumSrc {
        return PlicBadArg;
      }
      WordsOfSources(irq);
      var offset := OffsetFromReg0(irq);
      var bitIndex := BitIndex(irq);
      words[Le0 + offset] := WriteBit(words[Le0 + offset], bitIndex, TriggerBit(trigger));
      r := PlicOk;
    }

    /**
     * plic_irq_set_priority: a source at or past NUM_SRC, or a priority
     * above the maximum, is rejected; otherwise PRIO0 + irq holds the
     * priority and nothing else changes.
     */
    method SetPriority(irq: U32, priority: bv32) returns (r: PlicResult)
      requires Valid()
      modifies words
      ensures r == (if irq >= NumSrc || priority > MaxPriority then PlicBadArg else PlicOk)
      ensures r == PlicOk ==> words[Prio0 + irq] == priority
      ensures forall k :: 0 <= k < BlockWords && (r != PlicOk || k != Prio0 + irq) ==> words[k] == old(words[k])
    {
      if irq >= NumSrc || priority > MaxPriority {
        return PlicBadArg;
      }
      words[Prio0 + irq] := priority;
      r := PlicOk;
    }

    /**
     * plic_target_set_threshold: a threshold above the maximum priority is
     * rejected; otherwise THRESHOLD0 holds it and nothing else changes.
     */
    method SetThreshold(threshold: bv32) returns (r: PlicResult)
      requires Valid()
      modifies words
      ensures r == (if threshold > MaxPriority then PlicBadArg else PlicOk)
      ensures r == PlicOk ==> words[Threshold0] == threshold
      ensures forall k :: 0 <= k < BlockWords && (r != PlicOk || k != Threshold0) ==> words[k] == old(words[k])
    {
      if threshold > MaxPriority {
        return PlicBadArg;
      }
      words[Threshold0] := threshold;
      r := PlicOk;
    }

    /**
     * plic_irq_is_pending: a source at or past NUM_SRC, or a NULL out
     * pointer, is rejected; otherwise the source's bit of its IP word.
     */
    method IsPending(irq: U32, wantPending: bool) returns (r: PlicResult, pending: Option<bool>)
      requires Valid()
      ensures r == (if irq >= NumSrc || !wantPending then PlicBadArg else PlicOk)
      ensures r == PlicOk ==> IpWord(irq) < BlockWords && pending == Some(ReadBit(words[IpWord(irq)], BitIndex(irq)))
      ensures r == PlicBadArg ==> pending == None
    {
      if irq >= NumSrc || !wantPending {
        return PlicBadArg, None;
      }
      WordsOfSources(irq);
      var offset := OffsetFromReg0(irq);
      var bitIndex := BitIndex(irq);
      pending := Some(ReadBit(words[Ip0 + offset], bitIndex));
      r := PlicOk;
    }

    /** plic_irq_claim: the id the claim/complete register CC0 holds. */
    method Claim(wantId: bool) returns (r: PlicResult, id: Option<bv32>)
      requires Valid()
      ensures r == (if wantId then PlicOk else PlicBadArg)
      ensures id == (if wantId then Some(words[Cc0]) else None)
    {
      if !wantId {
        return PlicBadArg, None;
      }
      id := Some(words[Cc0]);
      r := PlicOk;
    }

    /** plic_irq_complete: the id is stored to CC0, once; a missing id is rejected. */
    method Complete(id: Option<bv32>) returns (r: PlicResult)
      requires Valid()
      modifies words, this`cc0Stores
      ensures r == (if id.None? then PlicBadArg else PlicOk)
      ensures r == PlicOk ==> words[Cc0] == id.value && cc0Stores == old(cc0Stores) + [id.value]
      ensures r == PlicBadArg ==> cc0Stores == old(cc0Stores)
      ensures forall k :: 0 <= k < BlockWords && (r != PlicOk || k != Cc0) ==> words[k] == old(words[k])
    {
      if id.None? {
        return PlicBadArg;
      }
      words[Cc0] := id.value;
      cc0Stores := cc0Stores + [id.value];
      r := PlicOk;
    }

    /** plic_software_irq_force: MSIP0 becomes 1. */
    method SoftwareIrqForce()
      requires Valid()
      modifies words
      ensures words[Msip0] == 1
      ensures forall k :: 0 <= k < BlockWords && k != Msip0 ==> words[k] == old(words[k])
    {
      words[Msip0] := 1;
    }

    /** plic_software_irq_acknowledge: MSIP0 becomes 0. */
    method SoftwareIrqAcknowledge()
      requires Valid()
      modifies words
      ensures words[Msip0] == 0
      ensures forall k :: 0 <= k < BlockWords && k != Msip0 ==> words[k] == old(words[k])
    {
      words[Msip0] := 0;
    }

    /**
     * plic_software_irq_is_pending: the MSIP0 word itself, returned as the
     * function's plic_result_t.
     */
    method SoftwareIrqIsPending() returns (msip: bv32)
      requires Valid()
      ensures msip == words[Msip0]
    {
      msip := words[Msip0];
    }

    /**
     * handler_irq_external: the id claimed from CC0 is classified; only a
     * valid id selects a handler slot, sets plic_intr_flag and is written
     * back to CC0. An IRQ_BAD id changes nothing.
     */
    method HandleExternal() returns (slot: Option<int>)
      requires Valid()
      modifies words, this`intrFlag, this`cc0Stores
      ensures var source := SrcType(old(words[Cc0]));
        slot == (if source == IrqBad then None else Some(HandlerSlot(source)))
      ensures slot.None? ==> intrFlag == old(intrFlag) && cc0Stores == old(cc0Stores)
      ensures slot.Some? ==> 0 <= slot.value < 4 && intrFlag == 1 && cc0Stores == old(cc0Stores) + [old(words[Cc0])]
      ensures forall k :: 0 <= k < BlockWords ==> words[k] == old(words[k])
    {
      var intId: bv32 := 0;
      var res, claimed := Claim(true);
      intId := claimed.value;
      var source := SrcType(intId);
      slot := None;
      if source != IrqBad {
        slot := Some(HandlerSlot(source));
        intrFlag := 1;
        res := Complete(Some(intId));
        // CC0 is written back with the id just read from it.
        assert words[Cc0] == old(words[Cc0]);
      }
    }
  }

  /**
   * plic_irq_set_enabled followed by plic_irq_get_enabled on the same
   * source gives back the toggle that was set.
   */
  method SetThenGetEnabled(plic: Plic, irq: U32, state: PlicToggle) returns (got: Option<PlicToggle>)
    requires plic.Valid() && irq < NumSrc && !state.PlicToggleOutOfRange?
    modifies plic.words
    ensures got == Some(state)
  {
    var r := plic.SetEnabled(irq, state);
    r, got := plic.GetEnabled(irq);
  }

  /**
   * Forcing the software interrupt makes it pending, acknowledging it
   * clears it again.
   */
  method ForceThenAcknowledge(plic: Plic) returns (forced: bv32, acknowledged: bv32)
    requires plic.Valid()
    modifies plic.words
    ensures forced == 1 && acknowledged == 0
  {
    plic.SoftwareIrqForce();
    forced := plic.SoftwareIrqIsPending();
    plic.SoftwareIrqAcknowledge();
    acknowledged := plic.SoftwareIrqIsPending();
  }

  /**
   * Enabling a source of 32..63 does not touch IE01: it changes a bit of
   * MSIP0, which plic_software_irq_is_pending then reports.
   */
  method EnableHighSource(plic: Plic, irq: U32) returns (msip: bv32)
    requires plic.Valid() && RegWidth <= irq < NumSrc
    modifies plic.words
    ensures ReadBit(msip, BitIndex(irq))
    ensures plic.words[Ie00 + 1] == old(plic.words[Ie00 + 1])
  {
    WordsOfSources(irq);
    var r := plic.SetEnabled(irq, PlicEnabled);
    msip := plic.SoftwareIrqIsPending();
  }
}
