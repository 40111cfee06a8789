/**
 * Memory-bandwidth isolation driver (mem_isolation/mem_iso_driver.c): the
 * decouple handshake and timeout fault of the control driver, plus the
 * initial-token registers of the unified, address-write (aw) and
 * address-read (ar) bandwidth throttles.
 *
 * Register map relative to the handler's offset:
 *   +0   status: bit 0 decouple request, bit 1 decouple done
 *   +4   fault: cleared by writing the whole register to 0
 *   +8   initial tokens, unified throttle; the aw throttle uses the same register
 *   +12  bandwidth fraction, unified and aw throttles (not part of this model)
 *   +16  initial tokens, ar throttle
 *   +20  bandwidth fraction, ar throttle (not part of this model)
 */
module MemIso {
  import opened Registers
  import opened Handshake

  /** Byte offset of the fault register. */
  const FAULT: Addr := 0x4

  /** Byte offset of the unified throttle's initial-token register. */
  const INIT_TOKEN: Addr := 0x8

  /** Byte offset the aw accessors use: the unified register itself. */
  const AW_INIT_TOKEN: Addr := 0x8

  /** Byte offset of the ar throttle's initial-token register. */
  const AR_INIT_TOKEN: Addr := 0x10

  /** Byte offset of the unified/aw bandwidth-fraction register. */
  const BW_FRACTION: Addr := 0xC

  /**
   * The timeout flag of one fault-register word as is_timed_out_mem_iso
   * computes it, `(x & 0x2) >> 3`: the mask keeps only bit 1 and the shift
   * then discards it, so no register value ever reports a timeout, even one
   * whose bit 1 is set.
   */
  function TimeoutStatus(fault: bv32): (r: bv32)
    ensures r == 0
  {
    (fault & 0x2) >> 3
  }

  /**
   * The mask selects the timeout bit (bit 1) but the shift then drops it: a
   * fault word whose bit 1 is set is still reported as "no timeout".
   */
  lemma TimeoutMissesBitOne(fault: bv32)
    requires Bit(fault, 1)
    ensures TimeoutStatus(fault) == 0
  {
  }

  /** The handler record: callback pair, base offset and token fixed-point widths. */
  class MemIsoHandler {
    var bus: Bus
    var offset: Addr
    var tokenIntBits: bv32
    var tokenFracBits: bv32

    /** init_mem_iso: stores its arguments and performs no register access. */
    constructor Init(bus: Bus, off: Addr, intBits: bv32, frac: bv32)
      ensures this.bus == bus && offset == off
      ensures tokenIntBits == intBits && tokenFracBits == frac
      ensures unchanged(bus)
    {
      this.bus := bus;
      offset := off;
      tokenIntBits := intBits;
      tokenFracBits := frac;
    }

    /**
     * decouple_mem_iso: writes the decouple request to the status register,
     * then polls it until an answer has bit 1 set; the poll is the do-while
     * loop shared with the other isolation drivers.
     */
    method Decouple()
      requires HasDone(Answers(bus.pending, Field(offset, STATUS)))
      modifies bus
      ensures var polls := old(Answers(bus.pending, Field(offset, STATUS)));
        var k := FirstDone(polls);
        && bus.trace == old(bus.trace) + DecoupleTrace(Field(offset, STATUS), polls)
        && bus.regs == old(bus.regs)[Field(offset, STATUS) := DECOUPLE_REQUEST]
        && bus.pending == old(bus.pending)[Field(offset, STATUS) := polls[k + 1..]]
    {
      bus.Write(Field(offset, STATUS), DECOUPLE_REQUEST);
      AwaitDecoupled(bus, Field(offset, STATUS));
    }

    /** recouple_mem_iso: one write of 0 to the status register, no read. */
    method Recouple()
      modifies bus
      ensures bus.trace == old(bus.trace) + [RegWrite(Field(offset, STATUS), RECOUPLE_REQUEST)]
      ensures bus.regs == old(bus.regs)[Field(offset, STATUS) := RECOUPLE_REQUEST]
      ensures bus.pending == old(bus.pending)
    {
      bus.Write(Field(offset, STATUS), RECOUPLE_REQUEST);
    }

    /** is_timed_out_mem_iso: one read of the fault register; the answer is always 0. */
    method IsTimedOut() returns (status: bv32)
      modifies bus
      ensures bus.trace == old(bus.trace) + [RegRead(Field(offset, FAULT), old(bus.Next(Field(offset, FAULT))))]
      ensures bus.regs == old(bus.regs)
      ensures bus.pending == Consume(old(bus.pending), Field(offset, FAULT))
      ensures status == 0
    {
      status := bus.Read(Field(offset, FAULT));
      status := TimeoutStatus(status);
    }

    /**
     * reset_time_out_mem_iso: writes 0 to the whole fault register without
     * reading it first, so every fault bit is cleared, not only the timeout.
     */
    method ResetTimeOut()
      modifies bus
      ensures bus.trace == old(bus.trace) + [RegWrite(Field(offset, FAULT), 0)]
      ensures bus.regs == old(bus.regs)[Field(offset, FAULT) := 0]
      ensures bus.pending == old(bus.pending)
    {
      bus.Write(Field(offset, FAULT), 0);
    }

    /** set_init_token_mem_iso: writes `toks` verbatim to the unified token register. */
    method SetInitToken(toks: bv32)
      modifies bus
      ensures bus.trace == old(bus.trace) + [RegWrite(Field(offset, INIT_TOKEN), toks)]
      ensures bus.regs == old(bus.regs)[Field(offset, INIT_TOKEN) := toks]
      ensures bus.pending == old(bus.pending)
    {
      bus.Write(Field(offset, INIT_TOKEN), toks);
    }

    /** get_init_token_mem_iso: one read of the unified token register, returned verbatim. */
    method GetInitToken() returns (toks: bv32)
      modifies bus
      ensures toks == old(bus.Next(Field(offset, INIT_TOKEN)))
      ensures bus.trace == old(bus.trace) + [RegRead(Field(offset, INIT_TOKEN), toks)]
      ensures bus.regs == old(bus.regs)
      ensures bus.pending == Consume(old(bus.pending), Field(offset, INIT_TOKEN))
    {
      toks := bus.Read(Field(offset, INIT_TOKEN));
    }

    /** set_init_aw_token_mem_iso: writes `toks` verbatim to offset+8, the unified register. */
    method SetInitAwToken(toks: bv32)
      modifies bus
      ensures Field(offset, AW_INIT_TOKEN) == Field(offset, INIT_TOKEN)
      ensures bus.trace == old(bus.trace) + [RegWrite(Field(offset, AW_INIT_TOKEN), toks)]
      ensures bus.regs == old(bus.regs)[Field(offset, AW_INIT_TOKEN) := toks]
      ensures bus.pending == old(bus.pending)
    {
      bus.Write(Field(offset, AW_INIT_TOKEN), toks);
    }

    /** get_aw_init_token_mem_iso: one read of offset+8, the unified register, returned verbatim. */
    method GetAwInitToken() returns (toks: bv32)
      modifies bus
      ensures Field(offset, AW_INIT_TOKEN) == Field(offset, INIT_TOKEN)
      ensures toks == old(bus.Next(Field(offset, AW_INIT_TOKEN)))
      ensures bus.trace == old(bus.trace) + [RegRead(Field(offset, AW_INIT_TOKEN), toks)]
      ensures bus.regs == old(bus.regs)
      ensures bus.pending == Consume(old(bus.pending), Field(offset, AW_INIT_TOKEN))
    {
      toks := bus.Read(Field(offset, AW_INIT_TOKEN));
    }

    /**
     * set_init_ar_token_mem_iso: writes `toks` verbatim to offset+16 only; the
     * unified token register and the bandwidth register keep their values.
     */
    method SetInitArToken(toks: bv32)
      modifies bus
      ensures bus.trace == old(bus.trace) + [RegWrite(Field(offset, AR_INIT_TOKEN), toks)]
      ensures bus.regs == old(bus.regs)[Field(offset, AR_INIT_TOKEN) := toks]
      ensures bus.pending == old(bus.pending)
      ensures Reg(bus.regs, Field(offset, INIT_TOKEN)) == old(Reg(bus.regs, Field(offset, INIT_TOKEN)))
      ensures Reg(bus.regs, Field(offset, BW_FRACTION)) == old(Reg(bus.regs, Field(offset, BW_FRACTION)))
    {
      bus.Write(Field(offset, AR_INIT_TOKEN), toks);
    }

    /** get_init_ar_token_mem_iso: one read of offset+16, returned verbatim. */
    method GetInitArToken() returns (toks: bv32)
      modifies bus
      ensures toks == old(bus.Next(Field(offset, AR_INIT_TOKEN)))
      ensures bus.trace == old(bus.trace) + [RegRead(Field(offset, AR_INIT_TOKEN), toks)]
      ensures bus.regs == old(bus.regs)
      ensures bus.pending == Consume(old(bus.pending), Field(offset, AR_INIT_TOKEN))
    {
      toks := bus.Read(Field(offset, AR_INIT_TOKEN));
    }
  }

  /** On a plain register file the unified token getter returns what the setter wrote. */
  method InitTokenRoundTrip(h: MemIsoHandler, toks: bv32) returns (got: bv32)
    requires Settled(h.bus.pending, Field(h.offset, INIT_TOKEN))
    modifies h.bus
    ensures got == toks
  {
    h.SetInitToken(toks);
    got := h.GetInitToken();
  }

  /**
   * The aw accessors alias the unified register: the unified getter reads
   * back what the aw setter wrote, and after the unified setter overwrites it
   * the aw getter reads back the new value.
   */
  method AwAliasesUnified(h: MemIsoHandler, awToks: bv32, toks: bv32) returns (unified: bv32, aw: bv32)
    requires Settled(h.bus.pending, Field(h.offset, INIT_TOKEN))
    modifies h.bus
    ensures unified == awToks && aw == toks
  {
    h.SetInitAwToken(awToks);
    unified := h.GetInitToken();
    h.SetInitToken(toks);
    aw := h.GetAwInitToken();
  }

  /**
   * The ar token register is independent of the unified one: setting both and
   * reading both back returns each value, and the ar getter returns the ar
   * setter's value verbatim.
   */
  method ArIndependentOfUnified(h: MemIsoHandler, toks: bv32, arToks: bv32)
    returns (unified: bv32, ar: bv32)
    requires Settled(h.bus.pending, Field(h.offset, INIT_TOKEN))
    requires Settled(h.bus.pending, Field(h.offset, AR_INIT_TOKEN))
    modifies h.bus
    ensures unified == toks && ar == arToks
  {
    h.SetInitToken(toks);
    h.SetInitArToken(arToks);
    unified := h.GetInitToken();
    ar := h.GetInitArToken();
  }
}
