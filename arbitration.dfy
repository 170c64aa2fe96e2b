/**
 * z80_request_68k_bus_access (core/memz80.c, lines 95-118): what a Z80
 * access to the 68k bus costs both CPUs, and how it waits for a VDP DMA
 * that holds the bus.
 */
module Arbitration {
  import opened BusTypes

  /** The VDP's DMA snapshot: `dma_endCycles`, `dma_type` and `dma_length`, read-only here. */
  datatype Dma = Dma(endCycles: u32, dmaType: nat, length: u32)

  /** The 68k wait-state charge for a Z80 bus access at Z80 cycle `c`. */
  function WaitCharge(c: u32): (r: nat)
    ensures r == 70 || r == 77
    ensures r == 77 <==> c % 7 >= 5
  {
    (((c % 7) + 72) / 7) * 7
  }

  /** The access has to wait for a DMA that uses the 68k bus (types 0 and 1) and is still running. */
  predicate Stalls(t: Timing, d: Dma)
  {
    t.z80 < d.endCycles && d.dmaType < 2
  }

  /** The Z80 counter after the DMA stall and before the flat charge. */
  function StalledCount(t: Timing, d: Dma): u32
  {
    if Stalls(t, d) then d.endCycles else t.z80
  }

  /**
   * The new counters and run state after one bus access. The 68k charge is
   * computed from the Z80 count after the stall, as line 114 reads
   * `Z80.cycles` after line 101 may have raised it.
   */
  function Arbitrate(t: Timing, d: Dma): (r: Timing)
    ensures r.zstate == t.zstate || r.zstate == t.zstate | 4
    ensures r.m68k == Add32(t.m68k, 70) || r.m68k == Add32(t.m68k, 77)
  {
    var c := StalledCount(t, d);
    var zstate := if Stalls(t, d) && d.length != 0 then t.zstate | 4 else t.zstate;
    Timing(Add32(c, 3 * 15), Add32(t.m68k, WaitCharge(c)), zstate)
  }

  /** The Z80 counter ends 45 cycles past the DMA end when stalled, else 45 past where it was. */
  lemma ArbitrationZ80Cycles(t: Timing, d: Dma)
    ensures Stalls(t, d) ==> Arbitrate(t, d).z80 == Add32(d.endCycles, 45)
    ensures !Stalls(t, d) ==> Arbitrate(t, d).z80 == Add32(t.z80, 45)
  {
  }

  /** Without wrap-around the Z80 counter strictly advances, by at least the flat 45 cycles. */
  lemma ArbitrationAdvances(t: Timing, d: Dma)
    requires t.z80 < Halted - 45 && d.endCycles < Halted - 45
    ensures Arbitrate(t, d).z80 >= t.z80 + 45
    ensures !Stalls(t, d) ==> Arbitrate(t, d).z80 == t.z80 + 45
    ensures Stalls(t, d) ==> Arbitrate(t, d).z80 == d.endCycles + 45
  {
  }

  /**
   * The 68k is charged 70 or 77 cycles, 77 exactly when the Z80 count after
   * the stall is 5 or 6 modulo 7.
   */
  lemma ArbitrationCharge(t: Timing, d: Dma)
    ensures Arbitrate(t, d).m68k == Add32(t.m68k, 70) || Arbitrate(t, d).m68k == Add32(t.m68k, 77)
    ensures Arbitrate(t, d).m68k == Add32(t.m68k, WaitCharge(StalledCount(t, d)))
    ensures Stalls(t, d) ==> (WaitCharge(StalledCount(t, d)) == 77 <==> d.endCycles % 7 >= 5)
    ensures !Stalls(t, d) ==> (WaitCharge(StalledCount(t, d)) == 77 <==> t.z80 % 7 >= 5)
  {
  }

  /**
   * zstate only ever gains the "still waiting" flag (value 4), and gains it
   * exactly when the access stalls behind a DMA whose length is not zero.
   */
  lemma ArbitrationRunState(t: Timing, d: Dma)
    ensures Arbitrate(t, d).zstate == t.zstate || Arbitrate(t, d).zstate == t.zstate | 4
    ensures Arbitrate(t, d).zstate & 0xFB == t.zstate & 0xFB
    ensures Arbitrate(t, d).zstate != t.zstate ==> Stalls(t, d) && d.length != 0
    ensures Stalls(t, d) && d.length != 0 ==> Arbitrate(t, d).zstate & 4 == 4
    ensures !(Stalls(t, d) && d.length != 0) ==> Arbitrate(t, d).zstate == t.zstate
  {
  }
}
