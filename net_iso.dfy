/**
 * Network-bandwidth isolation driver (net_isolation/net_iso_driver.c): the
 * decouple handshake, a timeout fault and an oversize-frame fault that are
 * each cleared by read-modify-write, and the initial-token register of its
 * bandwidth throttle.
 *
 * Register map relative to the handler's offset:
 *   +0   status: bit 0 decouple request, bit 1 decouple done
 *   +4   fault: bit 2 oversize, bit 3 timeout; each cleared alone
 *   +8   initial tokens
 *   +12  bandwidth fraction (not part of this model)
 */
module NetIso {
  import opened Registers
  import opened Handshake

  /** Byte offset of the fault register. */
  const FAULT: Addr := 0x4

  /** Byte offset of the initial-token register. */
  const INIT_TOKEN: Addr := 0x8

  /** The timeout flag of one fault-register word: `(x & 0x8) >> 3`. */
  function TimeoutStatus(fault: bv32): (r: bv32)
    ensures r == 0 || r == 1
    ensures r == 1 <==> Bit(fault, 3)
  {
    (fault & 0x8) >> 3
  }

  /** The oversize flag of one fault-register word: `(x & 0x4) >> 2`. */
  function OversizeStatus(fault: bv32): (r: bv32)
    ensures r == 0 || r == 1
    ensures r == 1 <==> Bit(fault, 2)
  {
    (fault & 0x4) >> 2
  }

  /** The word reset_time_out_net_iso writes back: `prev &= ~(0x8)`. */
  function ClearTimeout(fault: bv32): bv32
  {
    fault & !0x8
  }

  /** The word reset_oversize_net_iso writes back: `prev &= ~(0x4)`. */
  function ClearOversize(fault: bv32): bv32
  {
    fault & !0x4
  }

  /** The handler record: callback pair, base offset and token fixed-point widths. */
  class NetIsoHandler {
    var bus: Bus
    var offset: Addr
    var tokenIntBits: bv32
    var tokenFracBits: bv32

    /** init_net_iso: stores its arguments and performs no register access. */
    constructor Init(bus: Bus, off: Addr, intBits: bv32, frac: bv32)
      ensures this.bus == bus && offset == off
      ensures tokenIntBits == intBits && tokenFracBits == frac
      ensures unchanged(bus)
    {
      this.bus := bus;
      offset := off;
      tokenIntBits := intBits;
      tokenFracBits := frac;
    }

    /**
     * decouple_net_iso: writes the decouple request to the status register,
     * then polls it until an answer has bit 1 set; the poll is the do-while
     * loop shared with the other isolation drivers.
     */
    method Decouple()
      requires HasDone(Answers(bus.pending, Field(offset, STATUS)))
      modifies bus
      ensures var polls := old(Answers(bus.pending, Field(offset, STATUS)));
        var k := FirstDone(polls);
        && bus.trace == old(bus.trace) + DecoupleTrace(Field(offset, STATUS), polls)
        && bus.regs == old(bus.regs)[Field(offset, STATUS) := DECOUPLE_REQUEST]
        && bus.pending == old(bus.pending)[Field(offset, STATUS) := polls[k + 1..]]
    {
      bus.Write(Field(offset, STATUS), DECOUPLE_REQUEST);
      AwaitDecoupled(bus, Field(offset, STATUS));
    }

    /** recouple_net_iso: one write of 0 to the status register, no read. */
    method Recouple()
      modifies bus
      ensures bus.trace == old(bus.trace) + [RegWrite(Field(offset, STATUS), RECOUPLE_REQUEST)]
      ensures bus.regs == old(bus.regs)[Field(offset, STATUS) := RECOUPLE_REQUEST]
      ensures bus.pending == old(bus.pending)
    {
      bus.Write(Field(offset, STATUS), RECOUPLE_REQUEST);
    }

    /** is_timed_out_net_iso: one read of the fault register; returns its bit 3 as 0 or 1. */
    method IsTimedOut() returns (status: bv32)
      modifies bus
      ensures var v := old(bus.Next(Field(offset, FAULT)));
        && bus.trace == old(bus.trace) + [RegRead(Field(offset, FAULT), v)]
        && status == TimeoutStatus(v)
        && (status == 1 <==> Bit(v, 3))
      ensures bus.regs == old(bus.regs)
      ensures bus.pending == Consume(old(bus.pending), Field(offset, FAULT))
    {
      status := bus.Read(Field(offset, FAULT));
      status := TimeoutStatus(status);
    }

    /**
     * reset_time_out_net_iso: reads the fault register and writes it back
     * with only the timeout bit cleared, so the oversize bit survives.
     */
    method ResetTimeOut()
      modifies bus
      ensures var v := old(bus.Next(Field(offset, FAULT)));
        && bus.trace == old(bus.trace) + [RegRead(Field(offset, FAULT), v),
                                          RegWrite(Field(offset, FAULT), ClearTimeout(v))]
        && bus.regs == old(bus.regs)[Field(offset, FAULT) := ClearTimeout(v)]
        && TimeoutStatus(ClearTimeout(v)) == 0
        && OversizeStatus(ClearTimeout(v)) == OversizeStatus(v)
      ensures bus.pending == Consume(old(bus.pending), Field(offset, FAULT))
    {
      var prev := bus.Read(Field(offset, FAULT));
      prev := ClearTimeout(prev);
      bus.Write(Field(offset, FAULT), prev);
    }

    /** is_oversized_net_iso: one read of the fault register; returns its bit 2 as 0 or 1. */
    method IsOversized() returns (status: bv32)
      modifies bus
      ensures var v := old(bus.Next(Field(offset, FAULT)));
        && bus.trace == old(bus.trace) + [RegRead(Field(offset, FAULT), v)]
        && status == OversizeStatus(v)
        && (status == 1 <==> Bit(v, 2))
      ensures bus.regs == old(bus.regs)
      ensures bus.pending == Consume(old(bus.pending), Field(offset, FAULT))
    {
      status := bus.Read(Field(offset, FAULT));
      status := OversizeStatus(status);
    }

    /**
     * reset_oversize_net_iso: reads the fault register and writes it back
     * with only the oversize bit cleared, so the timeout bit survives.
     */
    method ResetOversize()
      modifies bus
      ensures var v := old(bus.Next(Field(offset, FAULT)));
        && bus.trace == old(bus.trace) + [RegRead(Field(offset, FAULT), v),
                                          RegWrite(Field(offset, FAULT), ClearOversize(v))]
        && bus.regs == old(bus.regs)[Field(offset, FAULT) := ClearOversize(v)]
        && OversizeStatus(ClearOversize(v)) == 0
        && TimeoutStatus(ClearOversize(v)) == TimeoutStatus(v)
      ensures bus.pending == Consume(old(bus.pending), Field(offset, FAULT))
    {
      var prev := bus.Read(Field(offset, FAULT));
      prev := ClearOversize(prev);
      bus.Write(Field(offset, FAULT), prev);
    }

    /** set_init_token_net_iso: writes `toks` verbatim to the token register. */
    method SetInitToken(toks: bv32)
      modifies bus
      ensures bus.trace == old(bus.trace) + [RegWrite(Field(offset, INIT_TOKEN), toks)]
      ensures bus.regs == old(bus.regs)[Field(offset, INIT_TOKEN) := toks]
      ensures bus.pending == old(bus.pending)
    {
      bus.Write(Field(offset, INIT_TOKEN), toks);
    }

    /** get_init_token_net_iso: one read of the token register, returned verbatim. */
    method GetInitToken() returns (toks: bv32)
      modifies bus
      ensures toks == old(bus.Next(Field(offset, INIT_TOKEN)))
      ensures bus.trace == old(bus.trace) + [RegRead(Field(offset, INIT_TOKEN), toks)]
      ensures bus.regs == old(bus.regs)
      ensures bus.pending == Consume(old(bus.pending), Field(offset, INIT_TOKEN))
    {
      toks := bus.Read(Field(offset, INIT_TOKEN));
    }
  }

  /** The written-back word has bit 3 clear and every other bit of the word read. */
  lemma ClearTimeoutSpec(fault: bv32)
    ensures !Bit(ClearTimeout(fault), 3)
    ensures SameOutside(ClearTimeout(fault), fault, 0x8)
    ensures forall n: bv32 :: n < 32 && n != 3 ==> Bit(ClearTimeout(fault), n) == Bit(fault, n)
  {
    SameOutsideBits(ClearTimeout(fault), fault, 0x8);
  }

  /** The written-back word has bit 2 clear and every other bit of the word read. */
  lemma ClearOversizeSpec(fault: bv32)
    ensures !Bit(ClearOversize(fault), 2)
    ensures SameOutside(ClearOversize(fault), fault, 0x4)
    ensures forall n: bv32 :: n < 32 && n != 2 ==> Bit(ClearOversize(fault), n) == Bit(fault, n)
  {
    SameOutsideBits(ClearOversize(fault), fault, 0x4);
  }

  /**
   * Clearing the timeout flag by read-modify-write clears it and keeps the
   * oversize flag.
   */
  lemma ClearTimeoutKeepsOversize(fault: bv32)
    ensures TimeoutStatus(ClearTimeout(fault)) == 0
    ensures OversizeStatus(ClearTimeout(fault)) == OversizeStatus(fault)
  {
  }

  /**
   * Clearing the oversize flag by read-modify-write clears it and keeps the
   * timeout flag.
   */
  lemma ClearOversizeKeepsTimeout(fault: bv32)
    ensures OversizeStatus(ClearOversize(fault)) == 0
    ensures TimeoutStatus(ClearOversize(fault)) == TimeoutStatus(fault)
  {
  }

  /** Clearing the oversize flag twice leaves the same word as clearing it once. */
  lemma ClearOversizeIdempotent(fault: bv32)
    ensures ClearOversize(ClearOversize(fault)) == ClearOversize(fault)
  {
  }

  /**
   * On a plain fault register holding both flags, reset_time_out_net_iso
   * leaves the oversize flag set: later queries report no timeout and an
   * oversize fault.
   */
  method ResetTimeOutKeepsOversize(h: NetIsoHandler) returns (timedOut: bv32, oversized: bv32)
    requires Settled(h.bus.pending, Field(h.offset, FAULT))
    modifies h.bus
    ensures timedOut == 0
    ensures oversized == OversizeStatus(old(Reg(h.bus.regs, Field(h.offset, FAULT))))
  {
    h.ResetTimeOut();
    timedOut := h.IsTimedOut();
    oversized := h.IsOversized();
  }

  /**
   * On a plain fault register, reset_oversize_net_iso is idempotent, keeps the
   * timeout flag, and a later oversize query reports 0.
   */
  method ResetOversizeTwice(h: NetIsoHandler) returns (oversized: bv32)
    requires Settled(h.bus.pending, Field(h.offset, FAULT))
    modifies h.bus
    ensures Reg(h.bus.regs, Field(h.offset, FAULT))
            == ClearOversize(old(Reg(h.bus.regs, Field(h.offset, FAULT))))
    ensures TimeoutStatus(Reg(h.bus.regs, Field(h.offset, FAULT)))
            == TimeoutStatus(old(Reg(h.bus.regs, Field(h.offset, FAULT))))
    ensures oversized == 0
  {
    h.ResetOversize();
    h.ResetOversize();
    oversized := h.IsOversized();
  }

  /** On a plain register file the token getter returns what the setter wrote. */
  method InitTokenRoundTrip(h: NetIsoHandler, toks: bv32) returns (got: bv32)
    requires Settled(h.bus.pending, Field(h.offset, INIT_TOKEN))
    modifies h.bus
    ensures got == toks
  {
    h.SetInitToken(toks);
    got := h.GetInitToken();
  }
}
