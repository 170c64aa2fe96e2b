# Z80 bus handlers of Genesis Plus GX, modelled in Dafny

This project models `core/memz80.c` of the Genesis Plus GX emulator: the
handlers through which the emulated Z80 reaches memory and I/O ports.

- **Memory decoder (Mega Drive mode).** `z80_memory_r` and `z80_memory_w`
  decode a 16-bit Z80 address into one of these:
  - the 8 KB Z80 RAM, mirrored at 0000-3FFF;
  - the YM2612 FM chip at 4000-5FFF;
  - the bank register at 6000-60FF;
  - the VDP window at 7F00-7FFF;
  - the 32 KB window at 8000-FFFF, banked into the 68k address space
    through `zbank`.
- **Bus arbitration.** Accesses from 7F00 up cross onto the 68k bus, so they
  first run `z80_request_68k_bus_access`. It waits out a VDP DMA that holds
  the bus, charges the 68k 70 or 77 cycles and the Z80 45 cycles, and may
  flag in `zstate` that the Z80 is still waiting.
- **Fault handlers.** The unused-address, lockup and unused-port handlers,
  including the Master System's open bus. There, an unused port reads the
  byte before `pc` in the Z80 read map.
- **Port decoders.** Five pairs of port decoders, one pair per machine:
  Mega Drive in Master System mode, Game Gear, Master System, Mark III and
  SG-1000. Each one sorts a port by `port & 0xC1` into the following groups:
  - the I/O controller;
  - PSG / H-V counter;
  - VDP data;
  - VDP control;
  - extension ports.

  Each machine has its own exceptions: the Game Gear I/O chip, the
  Japanese audio control register, the FM-70 sound unit and the SG-1000's
  PSG wait states.

## How the model is built

- **Devices are outside the model.** That covers the FM chips, the PSG, the
  VDP, the I/O chips, the 68k memory map and the Z80 read map.
  - A write is a `DeviceWrite` value that a handler emits, in order.
  - A read is a `DeviceRead` request. The caller answers it with a
    `Devices` oracle.
- **Decoders are pure functions** (`Z80Memory.MemReadSource`,
  `Z80Memory.MemWrite`, `MdPorts.MdPortWrite`, …) of the state one access
  sees.
- **Handlers are methods.** The handlers that update state in place are
  methods of the class `Z80Bus.Bus`. Its fields are:
  - the cycle counters, `zstate` and `zbank`;
  - the `zram` array and the `io_reg` array;
  - the bank handler table.

  Each method is proved against the matching decoder function, and the
  properties of the handlers are proved as lemmas about those functions.
- **Cycle counters wrap.** They are `unsigned int` in C and are modelled as
  `u32` with explicit wrap-around (`Add32`, `Sub32`).
- **The 68k charge follows the code.** It uses the Z80 count *after* the DMA
  stall: line 114 reads `Z80.cycles` after line 101 may have raised it.
- **Mega Drive controller ports.** In `z80_md_port_w`, only the odd port
  group (`port & 0xC1 == 0x01`) reaches the I/O controller. The even group
  `0x00` has no case and falls to the default branch, where it is unused,
  since its low byte is below F0.
- **Masks are C integers.** The audio control mask
  `((data + 1) & 0x02) ? 0x00 : 0xFF` is computed at 16 bits, so
  `data + 1` does not wrap at 8 bits, just as C's `int` does not.

## Model

| member | source | states |
|---|---|---|
| BusTypes.SubThenAdd | core/memz80.c:314 | sampling the H-V counter at `Z80.cycles - 15` on `unsigned int` points exactly 15 cycles back, across wrap-around |
| Faults.UnusedRead | core/memz80.c:57-63 | an unused address reads 0xFF |
| Faults.UnusedWrite | core/memz80.c:50-55 | a write to an unused address makes no device call |
| Faults.Lockup | core/memz80.c:65-88 | the lockup never touches the 68k counter, and either keeps everything or halts the Z80 (counter 0xFFFFFFFF, zstate 0); specified in full by `LockupEffect` and `LockupIdempotent` |
| Faults.LockupEffect | core/memz80.c:65-88 | with `force_dtack` the timing state is unchanged; without, the Z80 counter becomes 0xFFFFFFFF and zstate 0; the 68k counter is never touched |
| Faults.LockupIdempotent | core/memz80.c:65-88 | a second lockup changes nothing after the first |
| Faults.UnusedPortRead | core/memz80.c:238-249 | 0xFF unless the hardware is SYSTEM_SMS; on SYSTEM_SMS the byte of the Z80 read map at `(pc - 1) & 0xFFFF`, always below 0x10000 |
| Faults.UnusedPortWrite | core/memz80.c:251-256 | no device call, no latch, no wait |
| Arbitration.Arbitrate | core/memz80.c:95-118 | one 68k bus access: zstate is kept or gains the value 4, and the 68k is charged 70 or 77 cycles; specified in full by `ArbitrationZ80Cycles`, `ArbitrationAdvances`, `ArbitrationCharge` and `ArbitrationRunState` |
| Arbitration.WaitCharge | core/memz80.c:111-114 | the 68k charge is 70 or 77, and 77 exactly when the count is 5 or 6 modulo 7 |
| Arbitration.ArbitrationZ80Cycles | core/memz80.c:95-118 | stalled: the Z80 counter ends at `dma_endCycles + 45`; otherwise at its old value + 45 (mod 2^32) |
| Arbitration.ArbitrationAdvances | core/memz80.c:95-118 | away from wrap-around the Z80 counter advances by at least 45 cycles |
| Arbitration.ArbitrationCharge | core/memz80.c:111-114 | the 68k counter gains 70 or 77 cycles, from the post-stall Z80 count: 77 iff that count (dma_endCycles when stalled) is 5 or 6 modulo 7 |
| Arbitration.ArbitrationRunState | core/memz80.c:98-109 | zstate only gains bit 2 (value 4), and gains it exactly when the access stalls and `dma_length != 0`; its other bits are unchanged |
| Z80Memory.MemReadSource | core/memz80.c:120-162 | a read goes to a bank handler or the 68k memory exactly when the address crosses onto the 68k bus; every case is given by `RamRead`, `FmAccess`, `VdpWindowAccess`, `WindowOutsideVdp` and `BankedRead` |
| Z80Memory.MemWrite | core/memz80.c:165-226 | the RAM keeps its 8 KB, and a write that crosses the bus leaves the RAM alone and makes one bank handler or 68k memory write; every case is given by `RamWriteThenRead`, `FmAccess`, `VdpWindowAccess`, `WindowOutsideVdp` and `BankedWrite` |
| Z80Memory.RegionByRange | core/memz80.c:122-148 | `(address >> 13) & 7` selects RAM for 0000-3FFF, FM for 4000-5FFF, the window for 6000-7FFF, the bank for 8000-FFFF |
| Z80Memory.RamIndex | core/memz80.c:124-127 | the RAM cell is below 0x2000, and an address below 2000 is its own cell |
| Z80Memory.EffectiveLowBits | core/memz80.c:154 | the effective 68k address keeps the low 15 bits of the Z80 address |
| Z80Memory.EffectiveHighBits | core/memz80.c:154 | the effective 68k address takes its upper bits from zbank |
| Z80Memory.EffectiveIn68kSpace | core/memz80.c:154-159 | the effective address is within 24 bits, so `address >> 16` is a table index below 256 |
| Z80Memory.CrossesBusRange | core/memz80.c:135-151 | exactly the addresses 7F00-FFFF run the 68k bus arbitration before the access |
| Z80Memory.RamRead | core/memz80.c:124-128 | a read of 0000-3FFF returns RAM cell `address & 0x1FFF` and does not arbitrate |
| Z80Memory.RamWriteThenRead | core/memz80.c:169-174 | a RAM write and a later read through either mirror give back the byte; no device call; no other cell changes |
| Z80Memory.WriteOutsideRamKeepsRam | core/memz80.c:176-225 | writes from 4000 up leave the RAM unchanged and make at most one device call |
| Z80Memory.FmAccess | core/memz80.c:130-133 | 4000-5FFF reaches the FM chip at register `address & 3`, without arbitration |
| Z80Memory.BankedRead | core/memz80.c:148-160 | 8000-FFFF arbitrates and reads entry `eff >> 16` of the bank table, through its handler at `eff` or the 68k memory at `eff & 0xFFFF` |
| Z80Memory.BankedWrite | core/memz80.c:210-225 | 8000-FFFF arbitrates and writes through the handler or the 68k memory in the same way; the RAM is unchanged |
| Z80Memory.VdpWindowAccess | core/memz80.c:137-143 | 7F00-7FFF arbitrates and goes to bank table entry 0xC0 with the Z80 address |
| Z80Memory.WindowOutsideVdp | core/memz80.c:182-205 | 6000-7EFF never arbitrates and reads 0xFF; writes to 6000-60FF send `data & 1` to the bank register; 6100-7EFF writes do nothing |
| Z80Memory.RamAfter | core/memz80.c:165-226 | a series of memory writes keeps the RAM at 8 KB |
| Z80Memory.RamAfterWrites | core/memz80.c:165-226 | after any series of writes, each RAM cell holds the byte last written to it through either mirror, or its initial byte |
| PortCommon.BucketBySelect | core/memz80.c:264-291 | `port & 0xC1` sorts the low port byte into controller 00-3F, PSG/H-V 40-7F, VDP data (even 80-BF), VDP control (odd 80-BF) and extension C0-FF |
| MdPorts.MdPortWrite | core/memz80.c:262-306 | at most one device call, no latch, no wait, and FM writes only with FM enabled; every port group is given by `MdWriteTable` |
| MdPorts.MdPortRead | core/memz80.c:308-350 | the FM chip is read only with FM enabled; every port group is given by `MdReadTable` |
| MdPorts.MdWriteTable | core/memz80.c:262-306 | only the odd controller group reaches I/O controller 1 (PBC offset); 40-7F the PSG; the VDP ports; F0-FF the FM chip when enabled; everything else does nothing |
| MdPorts.MdReadTable | core/memz80.c:308-350 | the H-V counter is sampled 15 cycles back, high byte on even ports, low on odd; C0/C1/DC/DD are the I/O ports; F0-FF the FM chip when enabled; else unused |
| GgPorts.GgPortWrite | core/memz80.c:357-411 | at most one device call, no latch, no wait, and the Game Gear I/O chip only on SYSTEM_GG; every port group is given by `GgControlPairWrite`, `GgIoChipWrite` and `GgWriteTable` |
| GgPorts.GgPortRead | core/memz80.c:413-466 | no FM read, and the Game Gear I/O chip only on SYSTEM_GG; every port group is given by `GgIoChipRead` and `GgReadTable` |
| GgPorts.GgControlPairWrite | core/memz80.c:376-380 | a write reaches the I/O controller exactly at 3E/3F, whatever the hardware |
| GgPorts.GgIoChipWrite | core/memz80.c:366-373 | a write reaches the Game Gear I/O chip exactly at 00-06 on SYSTEM_GG hardware |
| GgPorts.GgIoChipRead | core/memz80.c:420-427 | a read reaches the Game Gear I/O chip exactly at 00-06 on SYSTEM_GG hardware |
| GgPorts.GgWriteTable | core/memz80.c:357-411 | the other controller ports and the extension ports do nothing; the PSG and VDP ports; no write reaches an FM chip |
| GgPorts.GgReadTable | core/memz80.c:413-466 | non-GG-chip controller ports are unused; H-V counter at the current cycle; VDP ports; the extension I/O ports C0/C1/DC/DD; else unused |
| MsPorts.MsPortWrite | core/memz80.c:473-555 | no wait, at most two device calls, FM writes only with FM enabled, and a latched byte is the byte written; every port group is given by `MsControllerWrite`, `MsAudioControlWrite`, `MsJapanExtensionWrite`, `MsExportExtensionWrite` and `MsWriteTable` |
| MsPorts.MsPortRead | core/memz80.c:557-635 | the combined FM/I-O read only on export consoles, with an FM part only when FM is enabled, and no plain FM read; every port group is given by `MsReadTable`, `MsJapanExtensionRead` and `MsExportExtensionRead` |
| MsPorts.AudioMask | core/memz80.c:528-537 | the PSG mask is 0xFF exactly when bits 1-0 of the byte are 00 or 11, and 0x00 otherwise |
| MsPorts.MsControllerWrite | core/memz80.c:477-489 | a controller-group write reaches the I/O controller iff the region is not Japan or the port is 3E/3F; otherwise nothing |
| MsPorts.MsAudioControlWrite | core/memz80.c:528-541 | on a Japanese console with FM on, F2 sets the PSG mask, writes FM register 2 and latches the byte |
| MsPorts.MsAudioControlRoundTrip | core/memz80.c:528-601 | a byte written to F2 is latched, and a later F2 read of the latched register returns its two low bits |
| MsPorts.MsLatchOnlyAudioControl | core/memz80.c:473-555 | a write latches a byte iff it is the F2 write of a Japanese console with FM on; no Master System write waits |
| MsPorts.MsJapanExtensionWrite | core/memz80.c:513-526 | on a Japanese console, F0/F1 reach the internal FM chip with FM on; other extension writes outside F0-F2, or with FM off, do nothing |
| MsPorts.MsExportExtensionWrite | core/memz80.c:543-551 | on other consoles the FM board gets the whole port when `port & 4` is 0 and FM is on; otherwise nothing |
| MsPorts.MsWriteTable | core/memz80.c:491-508 | PSG and VDP writes, the same in every region |
| MsPorts.MsReadTable | core/memz80.c:557-585 | controller ports read unused; H-V counter at the current cycle; VDP ports |
| MsPorts.MsJapanExtensionRead | core/memz80.c:589-614 | Japanese console: F2 reads `io_reg[6] & 3` whatever the FM setting; enabled I/O ports read the controller; else unused |
| MsPorts.MsExportExtensionRead | core/memz80.c:615-632 | other consoles: 0xFF, replaced by the FM board's byte when selected and on, AND-ed with the I/O byte when the I/O ports are enabled |
| M3Ports.M3PortWrite | core/memz80.c:641-691 | no latch, no wait, at most two device calls, and FM writes and PSG reconfiguration only with the FM unit enabled; every port group is given by `M3ExtensionWriteEffect` and `M3Table` |
| M3Ports.M3PortRead | core/memz80.c:693-736 | the FM unit is read only when enabled; every port group is given by `M3ExtensionReadNeverUnused` and `M3Table` |
| M3Ports.FmUnitPsgMask | core/memz80.c:679-683 | the PSG is muted (mask 0) exactly when the FM unit output bit 0 is set |
| M3Ports.M3ExtensionWriteEffect | core/memz80.c:671-689 | the FM unit gets the whole port when selected and on, followed by a PSG reconfiguration at ports with bit 1 set; otherwise nothing |
| M3Ports.M3ExtensionReadNeverUnused | core/memz80.c:723-734 | an extension read reaches the FM unit or the I/O controller, never the unused-port handler |
| M3Ports.M3Table | core/memz80.c:641-721 | controller group unused both ways; PSG, H-V counter at the current cycle, VDP ports |
| SgPorts.SgPortWrite | core/memz80.c:743-775 | no latch, at most one device call, and a wait only of 480 cycles after a lone PSG write; every port group is given by `SgPsgWait` and `SgTable` |
| SgPorts.SgPortRead | core/memz80.c:777-802 | no H-V counter and no FM read; every port group is given by `SgTable` |
| SgPorts.SgPsgWait | core/memz80.c:747-755 | a write adds 480 Z80 cycles iff it goes to the PSG (40-7F); other writes add none |
| SgPorts.SgTable | core/memz80.c:743-802 | controller and extension writes do nothing; the TMS9918 control port; no H-V counter (40-7F reads are unused); C0-FF reads go to the I/O controller |
| PortDispatch.PortWriteEffect | core/memz80.c:258-802 | only the SG-1000 waits, and only the Master System latches, the byte written; compared across machines by `VdpPortsUniform`, `PsgPortsUniform`, `OnlySg1000Waits` and `OnlyAudioControlLatches` |
| PortDispatch.PortReadSource | core/memz80.c:258-802 | the combined FM/I-O read is the Master System's, the Game Gear I/O chip read the Game Gear's; compared across machines by `VdpPortsUniform` |
| PortDispatch.VdpPortsUniform | core/memz80.c:279-290 | on all five machines the VDP data and control ports behave alike, control writes going to the machine's own handler |
| PortDispatch.PsgPortsUniform | core/memz80.c:272-277 | on all five machines 40-7F writes make one PSG write and latch nothing |
| PortDispatch.OnlySg1000Waits | core/memz80.c:747-755 | a port write waits iff it is an SG-1000 PSG write |
| PortDispatch.OnlyAudioControlLatches | core/memz80.c:528-541 | a port write latches into `io_reg[6]` iff it is the Japanese Master System's F2 write with FM on, and it latches the byte written |
| Z80Bus.Bus.RequestBusAccess | core/memz80.c:95-118 | the counters and zstate become the arbitration result of their old values |
| Z80Bus.Bus.LockupRead | core/memz80.c:77-88 | returns 0xFF, with the lockup applied to the counters and zstate |
| Z80Bus.Bus.LockupWrite | core/memz80.c:65-75 | the lockup applied to the counters and zstate |
| Z80Bus.Bus.MemoryRead | core/memz80.c:120-162 | the byte is that of the memory decoder, and the timing state is arbitrated iff the address crosses the bus |
| Z80Bus.Bus.MemoryWrite | core/memz80.c:165-226 | zram and the device calls are those of the memory decoder, and the timing state is arbitrated iff the address crosses the bus |
| Z80Bus.Bus.PortWrite | core/memz80.c:258-802 | the device calls of the machine's decoder; io_reg[6] gains the latched byte (and nothing else changes); the Z80 counter gains the wait |
| Z80Bus.Bus.PortRead | core/memz80.c:258-802 | the byte the machine's decoder names; on the bus's own fields: Japanese Master System F2 reads `io_reg[6] & 3`, Master System and Mark III controller ports read the open bus (the read-map byte at `(pc - 1) & 0xFFFF` on SYSTEM_SMS, else 0xFF), likewise the Game Gear's unrecognised extension ports (read-map byte on SYSTEM_SMS, else 0xFF), SG-1000 C0-FF reads the I/O controller and 80-BF even ports read the VDP everywhere |
| Z80Bus.Bus.AudioControlReadBack | core/memz80.c:528-601 | on a Japanese Master System with FM on, a write to F2 followed by a read of F2 gives the two low bits of the byte written; afterwards io_reg[6] holds the byte, the other registers and the Z80 counter are unchanged |

## Left out

- Device internals are not modelled: how the FM chips, the PSG, the VDP, the I/O chips and the 68k memory map handle their calls, and any side effect a device read has. Reads are answered by a pure `Devices` oracle.
- `gen_zbank_w` is not part of this model. A write to 6000-60FF emits `BankSelect(data & 1)`, and `zbank` is left unchanged.
- `PBC_CYCLE_OFFSET` and `SMS_CYCLE_OFFSET` are defined outside this file. An I/O write records which offset applies rather than adding a number.
- How the emulator installs one decoder pair as the Z80 port handlers is not part of this file. `PortDispatch.Variant` stands for that choice.
- The `LOGERROR` diagnostics are compiled out and not modelled.
- The only property proved about a sequence of calls on one `Z80Bus.Bus` object is `Z80Bus.Bus.AudioControlReadBack`; the others are proved on the decoder functions the methods are tied to, for example `Z80Memory.RamAfterWrites`.
