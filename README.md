# FPGA isolation drivers: register-level model

The FPGA virtualisation shell protects the host from a misbehaving
application region through isolation cores. These are the control-path
isolator, the memory-bandwidth isolator, the network-bandwidth isolator and
the clock/reset decoupler. Software drives each core through a small C
handler: a read callback, a write callback, a base `offset` and, for the
memory and network cores, the fixed-point widths of the token-bucket
throttle. Every driver operation other than the decouple poll is a short, fixed
sequence of 32-bit word reads and writes at `offset + k`, with masking on
the values read; the decouple poll reads the status register as many times
as the device needs, without bound.

This Dafny project models those drivers at register level.

- `Registers` (registers.dfy) models the hardware behind the callback pair as one `Bus` object. It holds:
  - a register file keyed by byte address; a register absent from it (neither given when the bus is created nor written since) reads as 0;
  - the answers the device has queued for coming reads of an address, which stand for registers the hardware changes on its own;
  - a trace of every read and write in order.

  `Field` is the C `offset + k` on `unsigned int`, wrapping modulo 2^32. `Bit` is the reference meaning of "bit n is set". Every mask-and-shift status function is proved against `Bit`, except the memory timeout query, which is proved to be constant 0 (and so never reports a set bit 1).
- `Handshake` (handshake.dfy) holds the decouple handshake shared by the control, memory and network drivers:
  - write 1 to `offset+0`;
  - then read `offset+0` in a do-while loop until bit 1 is set.

  The device's answers to the poll are an oracle sequence. `FirstDone` is the index of the first answer with bit 1 set. `AwaitDecoupled` is the loop, proved to read exactly that many answers plus one and nothing else.
- `CtrlIso`, `MemIso`, `NetIso` and `ClockResetDecoupler` each hold one handler class whose methods are the driver operations. Every method states:
  - its exact trace;
  - the new register file, where only the written address changes;
  - the queued answers it consumed;
  - the value it returns.

  Client methods beside each class prove the round trips and interactions the drivers promise across calls.

Two fault-clear policies are modelled as written:
- **Whole-register zeroing:** the control and memory cores write 0 to `offset+4` without reading it, clearing every fault bit.
- **Read-modify-write:** the network core reads `offset+4`, clears one bit and writes the word back, so its timeout (bit 3) and oversize (bit 2) faults are cleared independently.

The memory core's timeout query computes `(x & 0x2) >> 3`. It is modelled as written, and its contract proves that it returns 0 for every register value.

## Model

| member | source | states |
|---|---|---|
| Registers.Field | mem_isolation/mem_iso_driver.c:19 | the address is `base + delta` reduced modulo 2^32, as the C unsigned addition wraps |
| Registers.FieldsDistinct | mem_isolation/mem_iso_driver.c:128-132 | distinct register offsets from one base never name the same address, so a write at one offset leaves the others unchanged |
| Registers.Bus.Read | ctrl_isolation/ctrl_iso_driver.h:8 | the read callback returns the device's next queued answer for the address, else the stored value; it consumes that answer, appends one read to the trace and leaves the register file unchanged |
| Registers.Bus.Write | ctrl_isolation/ctrl_iso_driver.h:9 | the write callback stores the value at exactly that address, appends one write to the trace and leaves the queued answers unchanged |
| Registers.ReadsOf | mem_isolation/mem_iso_driver.c:23-26 | the trace of successive reads of one address has one access per value read |
| Registers.ReadsOfAt | mem_isolation/mem_iso_driver.c:23-26 | the i-th access of that trace is a read of the address returning the i-th value |
| Registers.SameOutsideBits | net_isolation/net_iso_driver.c:53 | two words equal outside a mask agree on every bit the mask does not cover |
| Handshake.FirstDone | mem_isolation/mem_iso_driver.c:23-26 | the loop's stopping index is an answer with bit 1 set, and no earlier answer has bit 1 set |
| Handshake.DecoupleTrace | mem_isolation/mem_iso_driver.c:16-29 | decouple's accesses are the write of 1 to the status register, then reads of that register only, returning the device's answers in order; the last read is the only one with bit 1 set; there are FirstDone + 2 accesses in all |
| Handshake.AwaitDecoupled | mem_isolation/mem_iso_driver.c:22-26 | the do-while poll reads the status register exactly FirstDone + 1 times, consumes exactly those answers, writes nothing and leaves every register unchanged |
| Handshake.DoneIsBitOne | mem_isolation/mem_iso_driver.c:25-26 | the contract of `DecoupleDone`, the loop's exit test `done &= 0x2; while(!done)`: it stops exactly when bit 1 is set |
| Handshake.BusyThenDone | mem_isolation/mem_iso_driver.c:23-26 | a device answering "busy" n times and then "done" stops the poll after exactly n + 1 reads, whatever it would answer later |
| Handshake.FirstDoneIgnoresLaterAnswers | mem_isolation/mem_iso_driver.c:23-26 | answers queued after the first "done" never change where the poll stops |
| CtrlIso.TimeoutStatus | ctrl_isolation/ctrl_iso_driver.c:41-43 | the timeout answer is 0 or 1, and it is 1 exactly when bit 1 of the fault word is set |
| CtrlIso.CtrlIsoHandler.Init | ctrl_isolation/ctrl_iso_driver.c:4-11 | stores the callbacks and offset verbatim and touches no register |
| CtrlIso.CtrlIsoHandler.Decouple | ctrl_isolation/ctrl_iso_driver.c:14-27 | writes 1 to `offset+0`, then reads `offset+0` until bit 1 is set, with exactly the accesses of DecoupleTrace; only the status register changes |
| CtrlIso.CtrlIsoHandler.Recouple | ctrl_isolation/ctrl_iso_driver.c:30-34 | exactly one write, 0 to `offset+0`, and no read |
| CtrlIso.CtrlIsoHandler.IsTimedOut | ctrl_isolation/ctrl_iso_driver.c:37-44 | one read of `offset+4`; returns bit 1 of the word read, as 0 or 1; no register changes |
| CtrlIso.CtrlIsoHandler.ResetTimeOut | ctrl_isolation/ctrl_iso_driver.c:47-51 | one write of 0 to `offset+4`, with no read first |
| CtrlIso.ResetThenQuery | ctrl_isolation/ctrl_iso_driver.c:37-51 | on a plain fault register, a timeout query after a reset reports 0, and the register holds 0 |
| MemIso.TimeoutStatus | mem_isolation/mem_iso_driver.c:42-45 | `(x & 0x2) >> 3` is 0 for every fault word |
| MemIso.TimeoutMissesBitOne | mem_isolation/mem_iso_driver.c:42-45 | a fault word whose bit 1 (the bit the mask selects) is set is still reported as no timeout |
| MemIso.MemIsoHandler.Init | mem_isolation/mem_iso_driver.c:4-13 | stores the callbacks, offset, token_int_bits and token_frac_bits verbatim and touches no register |
| MemIso.MemIsoHandler.Decouple | mem_isolation/mem_iso_driver.c:16-29 | writes 1 to `offset+0`, then reads `offset+0` until bit 1 is set, with exactly the accesses of DecoupleTrace |
| MemIso.MemIsoHandler.Recouple | mem_isolation/mem_iso_driver.c:32-36 | exactly one write, 0 to `offset+0`, and no read |
| MemIso.MemIsoHandler.IsTimedOut | mem_isolation/mem_iso_driver.c:39-46 | one read of `offset+4`, and the answer is 0 whatever the register holds |
| MemIso.MemIsoHandler.ResetTimeOut | mem_isolation/mem_iso_driver.c:49-53 | one write of 0 to `offset+4`, with no read first, clearing every fault bit |
| MemIso.MemIsoHandler.SetInitToken | mem_isolation/mem_iso_driver.c:56-60 | one write of `toks` verbatim to `offset+8`; nothing else changes |
| MemIso.MemIsoHandler.GetInitToken | mem_isolation/mem_iso_driver.c:63-67 | one read of `offset+8`, returned verbatim |
| MemIso.MemIsoHandler.SetInitAwToken | mem_isolation/mem_iso_driver.c:92-96 | one write of `toks` verbatim to `offset+8`, the same address as the unified setter |
| MemIso.MemIsoHandler.GetAwInitToken | mem_isolation/mem_iso_driver.c:99-103 | one read of `offset+8`, the same address as the unified getter, returned verbatim |
| MemIso.MemIsoHandler.SetInitArToken | mem_isolation/mem_iso_driver.c:128-132 | one write of `toks` to `offset+16`; `offset+8`, `offset+12` and every other register keep their values |
| MemIso.MemIsoHandler.GetInitArToken | mem_isolation/mem_iso_driver.c:135-139 | one read of `offset+16`, returned verbatim |
| MemIso.InitTokenRoundTrip | mem_isolation/mem_iso_driver.c:56-67 | on a plain register file, the unified getter returns what the setter wrote |
| MemIso.AwAliasesUnified | mem_isolation/mem_iso_driver.c:56-103 | a value `awToks` set through the aw setter is read back by the unified getter; a different value `toks` then set through the unified setter is read back by the aw getter |
| MemIso.ArIndependentOfUnified | mem_isolation/mem_iso_driver.c:128-139 | setting the unified and ar tokens and reading both back returns each value unchanged |
| NetIso.TimeoutStatus | net_isolation/net_iso_driver.c:42-45 | the timeout answer is 0 or 1, and it is 1 exactly when bit 3 of the fault word is set |
| NetIso.OversizeStatus | net_isolation/net_iso_driver.c:63-66 | the oversize answer is 0 or 1, and it is 1 exactly when bit 2 of the fault word is set |
| NetIso.ClearTimeoutSpec | net_isolation/net_iso_driver.c:52-53 | the contract of `ClearTimeout`, the word written back by the timeout reset: bit 3 is clear, the word equals the word read outside mask 0x8, and every bit other than bit 3 equals that bit of the word read |
| NetIso.ClearOversizeSpec | net_isolation/net_iso_driver.c:73-74 | the contract of `ClearOversize`, the word written back by the oversize reset: bit 2 is clear, the word equals the word read outside mask 0x4, and every bit other than bit 2 equals that bit of the word read |
| NetIso.ClearTimeoutKeepsOversize | net_isolation/net_iso_driver.c:49-57 | after the timeout clear, the timeout answer is 0 and the oversize answer is what it was |
| NetIso.ClearOversizeKeepsTimeout | net_isolation/net_iso_driver.c:70-78 | after the oversize clear, the oversize answer is 0 and the timeout answer is what it was |
| NetIso.ClearOversizeIdempotent | net_isolation/net_iso_driver.c:70-78 | clearing the oversize bit twice gives the same word as clearing it once |
| NetIso.NetIsoHandler.Init | net_isolation/net_iso_driver.c:4-13 | stores the callbacks, offset, token_int_bits and token_frac_bits verbatim and touches no register |
| NetIso.NetIsoHandler.Decouple | net_isolation/net_iso_driver.c:16-29 | writes 1 to `offset+0`, then reads `offset+0` until bit 1 is set, with exactly the accesses of DecoupleTrace |
| NetIso.NetIsoHandler.Recouple | net_isolation/net_iso_driver.c:32-36 | exactly one write, 0 to `offset+0`, and no read |
| NetIso.NetIsoHandler.IsTimedOut | net_isolation/net_iso_driver.c:39-46 | one read of `offset+4`; returns bit 3 of the word read, as 0 or 1 |
| NetIso.NetIsoHandler.ResetTimeOut | net_isolation/net_iso_driver.c:49-57 | one read then one write at `offset+4`; the word written is the word read with only bit 3 cleared, so the oversize answer is kept |
| NetIso.NetIsoHandler.IsOversized | net_isolation/net_iso_driver.c:60-67 | one read of `offset+4`; returns bit 2 of the word read, as 0 or 1 |
| NetIso.NetIsoHandler.ResetOversize | net_isolation/net_iso_driver.c:70-78 | one read then one write at `offset+4`; the word written is the word read with only bit 2 cleared, so the timeout answer is kept |
| NetIso.NetIsoHandler.SetInitToken | net_isolation/net_iso_driver.c:81-85 | one write of `toks` verbatim to `offset+8` |
| NetIso.NetIsoHandler.GetInitToken | net_isolation/net_iso_driver.c:88-92 | one read of `offset+8`, returned verbatim |
| NetIso.ResetTimeOutKeepsOversize | net_isolation/net_iso_driver.c:39-67 | on a plain fault register, after a timeout reset the timeout query reports 0 and the oversize query reports the flag held before |
| NetIso.ResetOversizeTwice | net_isolation/net_iso_driver.c:60-78 | on a plain fault register, two oversize resets leave the register cleared as by one reset; the timeout flag is kept and a later oversize query reports 0 |
| NetIso.InitTokenRoundTrip | net_isolation/net_iso_driver.c:81-92 | on a plain register file, the getter returns what the setter wrote |
| ClockResetDecoupler.ClockResetDecouplerHandler.Init | reset_decouple/clock_reset_decoupler_driver.c:4-11 | stores the callbacks and offset verbatim and touches no register |
| ClockResetDecoupler.ClockResetDecouplerHandler.DecoupleClock | reset_decouple/clock_reset_decoupler_driver.c:14-18 | exactly one write, 1 to `offset+0`, no read; the reset register keeps its value |
| ClockResetDecoupler.ClockResetDecouplerHandler.RecoupleClock | reset_decouple/clock_reset_decoupler_driver.c:21-25 | exactly one write, 0 to `offset+0`, no read; the reset register keeps its value |
| ClockResetDecoupler.ClockResetDecouplerHandler.AssertReset | reset_decouple/clock_reset_decoupler_driver.c:28-32 | exactly one write, 1 to `offset+4`, no read; the clock register keeps its value |
| ClockResetDecoupler.ClockResetDecouplerHandler.DeassertReset | reset_decouple/clock_reset_decoupler_driver.c:35-39 | exactly one write, 0 to `offset+4`, no read; the clock register keeps its value |
| ClockResetDecoupler.IsolateAndRelease | reset_decouple/clock_reset_decoupler_driver.c:14-39 | decouple clock, assert reset, deassert reset, recouple clock is exactly those four writes in order and leaves both registers at 0 |

## Left out

- The bandwidth-fraction setters and getters are not modelled. These are `set/get_percent_bw_mem_iso`, `set/get_aw_percent_bw_mem_iso`, `set/get_ar_percent_bw_mem_iso` and `set/get_percent_bw_net_iso`. They convert `float` values to and from fixed point with `1 << token_frac_bits`, and floating-point arithmetic is outside this model. They access `offset+12` (`offset+20` for ar).
- The real read and write callbacks (memory-mapped I/O) are foreign code. One `Bus` object stands for both: its register file, its queued device answers and its trace. A handler's two callbacks become one `bus` reference.
- `decouple_*` never returns if the device never sets bit 1. The model does not describe device timing. Instead, decouple requires that some queued answer for the status register has bit 1 set.
- Three drivers contain the same poll loop. The model writes it once, as `Handshake.AwaitDecoupled`, and each driver's `Decouple` calls it after its request write.
- ctrl_isolation/ctr_iso_driver.h is a stale duplicate header with no implementation. It is not part of this model.
- `token_int_bits` and `token_frac_bits` are stored by init. No modelled operation reads them; only the float bandwidth functions use `token_frac_bits`.
- Concurrent callers and interrupts are not modelled. The drivers take no lock, and the model assumes one caller at a time.
- A register absent from the register file (neither given when the bus is created nor written since) reads as 0, unless the device has queued an answer for it.
