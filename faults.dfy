/**
 * Handlers for unused addresses and ports, and for accesses that lock the
 * machine up (core/memz80.c, lines 45-88 and 228-256). The LOGERROR
 * diagnostics they print are compiled out and not modelled.
 */
module Faults {
  import opened BusTypes

  /** z80_unused_r: an unused memory address reads as an open bus. */
  function UnusedRead(address: bv16): (v: bv8)
    ensures v == 0xFF
  {
    0xFF
  }

  /** z80_unused_w: a write to an unused memory address reaches no device. */
  function UnusedWrite(address: bv16, data: bv8): (events: seq<DeviceWrite>)
    ensures events == []
  {
    []
  }

  /**
   * z80_lockup_r / z80_lockup_w: unless `force_dtack` is set, the Z80 is
   * halted by parking its cycle counter on the sentinel and clearing zstate.
   */
  function Lockup(t: Timing, forceDtack: bool): (r: Timing)
    ensures r.m68k == t.m68k
    ensures r == t || (r.z80 == Halted && r.zstate == 0)
  {
    if forceDtack then t else t.(z80 := Halted, zstate := 0)
  }

  /** The two outcomes of a lockup: everything kept, or halted with the 68k untouched. */
  lemma LockupEffect(t: Timing, forceDtack: bool)
    ensures forceDtack ==> Lockup(t, forceDtack) == t
    ensures !forceDtack ==> Lockup(t, forceDtack).z80 == Halted
    ensures !forceDtack ==> Lockup(t, forceDtack).zstate == 0
    ensures Lockup(t, forceDtack).m68k == t.m68k
  {
  }

  /** A second lockup leaves the state of the first one unchanged. */
  lemma LockupIdempotent(t: Timing, forceDtack: bool)
    ensures Lockup(Lockup(t, forceDtack), forceDtack) == Lockup(t, forceDtack)
  {
  }

  /**
   * z80_unused_port_r: an unused port reads 0xFF, except on a Master System
   * (SYSTEM_SMS exactly), where it reads the byte before `pc` in the Z80
   * read map, at `(pc - 1) & 0xFFFF`.
   */
  function UnusedPortRead(hw: SystemHw, pc: bv16, port: bv16): (r: ReadSource)
    ensures hw != SystemSms ==> r == Const(0xFF)
    ensures hw == SystemSms ==> r.Device? && r.query.CodeByte?
    ensures hw == SystemSms ==> r.query.at == (pc as int - 1) % 0x10000 && r.query.at < 0x10000
  {
    if hw == SystemSms then Device(CodeByte((pc as int - 1) % 0x10000)) else Const(0xFF)
  }

  /** z80_unused_port_w: a write to an unused port has no effect at all. */
  function UnusedPortWrite(port: bv16, data: bv8): (e: WriteEffect)
    ensures e.events == [] && e.audioLatch == None && e.wait == 0
  {
    WriteEffect([], None, 0)
  }
}
