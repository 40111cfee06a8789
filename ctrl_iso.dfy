/**
 * Control-path isolation driver (ctrl_isolation/ctrl_iso_driver.c): a
 * handler bound to a register base offset that decouples and recouples a
 * control interface and observes and clears its protocol-timeout fault.
 *
 * Register map relative to the handler's offset:
 *   +0  status: bit 0 decouple request, bit 1 decouple done
 *   +4  fault:  bit 1 timeout; cleared by writing the whole register to 0
 */
module CtrlIso {
  import opened Registers
  import opened Handshake

  /** Byte offset of the fault register. */
  const FAULT: Addr := 0x4

  /** The timeout flag of one fault-register word: `(x & 0x2) >> 1`. */
  function TimeoutStatus(fault: bv32): (r: bv32)
    ensures r == 0 || r == 1
    ensures r == 1 <==> Bit(fault, 1)
  {
    (fault & 0x2) >> 1
  }

  /** The handler record: the callback pair and the register base offset. */
  class CtrlIsoHandler {
    var bus: Bus
    var offset: Addr

    /** init_ctrl_iso: stores its arguments and performs no register access. */
    constructor Init(bus: Bus, off: Addr)
      ensures this.bus == bus && offset == off
      ensures unchanged(bus)
    {
      this.bus := bus;
      offset := off;
    }

    /**
     * decouple_ctrl_iso: writes the decouple request to the status register,
     * then polls it until an answer has bit 1 set; the poll is the do-while
     * loop shared with the other isolation drivers.
     */
    method Decouple()
      requires HasDone(Answers(bus.pending, Field(offset, STATUS)))
      modifies bus
      ensures var polls := old(Answers(bus.pending, Field(offset, STATUS)));
        var k := FirstDone(polls);
        && bus.trace == old(bus.trace) + DecoupleTrace(Field(offset, STATUS), polls)
        && bus.regs == old(bus.regs)[Field(offset, STATUS) := DECOUPLE_REQUEST]
        && bus.pending == old(bus.pending)[Field(offset, STATUS) := polls[k + 1..]]
    {
      bus.Write(Field(offset, STATUS), DECOUPLE_REQUEST);
      AwaitDecoupled(bus, Field(offset, STATUS));
    }

    /** recouple_ctrl_iso: one write of 0 to the status register, no read. */
    method Recouple()
      modifies bus
      ensures bus.trace == old(bus.trace) + [RegWrite(Field(offset, STATUS), RECOUPLE_REQUEST)]
      ensures bus.regs == old(bus.regs)[Field(offset, STATUS) := RECOUPLE_REQUEST]
      ensures bus.pending == old(bus.pending)
    {
      bus.Write(Field(offset, STATUS), RECOUPLE_REQUEST);
    }

    /** is_timed_out_ctrl_iso: one read of the fault register; returns its bit 1 as 0 or 1. */
    method IsTimedOut() returns (status: bv32)
      modifies bus
      ensures var v := old(bus.Next(Field(offset, FAULT)));
        && bus.trace == old(bus.trace) + [RegRead(Field(offset, FAULT), v)]
        && status == TimeoutStatus(v)
        && (status == 1 <==> Bit(v, 1))
      ensures bus.regs == old(bus.regs)
      ensures bus.pending == Consume(old(bus.pending), Field(offset, FAULT))
    {
      status := bus.Read(Field(offset, FAULT));
      status := TimeoutStatus(status);
    }

    /**
     * reset_time_out_ctrl_iso: writes 0 to the whole fault register without
     * reading it first, so every fault bit is cleared, not only the timeout.
     */
    method ResetTimeOut()
      modifies bus
      ensures bus.trace == old(bus.trace) + [RegWrite(Field(offset, FAULT), 0)]
      ensures bus.regs == old(bus.regs)[Field(offset, FAULT) := 0]
      ensures bus.pending == old(bus.pending)
    {
      bus.Write(Field(offset, FAULT), 0);
    }
  }

  /**
   * On a plain fault register, a timeout query after reset_time_out_ctrl_iso
   * reports no timeout.
   */
  method ResetThenQuery(h: CtrlIsoHandler) returns (status: bv32)
    requires Settled(h.bus.pending, Field(h.offset, FAULT))
    modifies h.bus
    ensures status == 0
    ensures Reg(h.bus.regs, Field(h.offset, FAULT)) == 0
  {
    h.ResetTimeOut();
    status := h.IsTimedOut();
  }
}
