/**
 * z80_sg_port_w and z80_sg_port_r (core/memz80.c, lines 743-802): the Z80
 * ports of an SG-1000, whose PSG holds the Z80 in wait after each write.
 */
module SgPorts {
  import opened BusTypes
  import opened Faults
  import opened PortCommon

  /** The Z80 cycles a PSG write costs: READY is held low for 32 PSG clocks of 15 Z80 cycles. */
  const PsgWait: nat := 32 * 15

  function SgPortWrite(ctx: PortContext, port: bv16, data: bv8): (e: WriteEffect)
    ensures e.audioLatch == None && |e.events| <= 1
    ensures e.wait == 0 || (e.wait == PsgWait && e.events == [PsgWrite(ctx.cycles, data)])
  {
    var s := Select(port);
    if s == 0x40 || s == 0x41 then WriteEffect([PsgWrite(ctx.cycles, data)], None, PsgWait)
    else if s == 0x80 then Emit(VdpDataWrite(data))
    else if s == 0x81 then Emit(VdpCtrlWrite(TmsCtrl, data))
    else UnusedPortWrite(LowByte(port), data)
  }

  function SgPortRead(ctx: PortContext, port: bv16): (r: ReadSource)
    ensures !r.HvcHigh? && !r.HvcLow? && !r.Combined?
    ensures !(r.Device? && r.query.FmRead?)
  {
    var s := Select(port);
    if s == 0x80 then Device(VdpDataRead)
    else if s == 0x81 then Device(VdpCtrlRead(ctx.cycles))
    else if s == 0xC0 || s == 0xC1 then Device(IoRead(Parity(port)))
    else UnusedPortRead(ctx.hw, ctx.pc, LowByte(port))
  }

  /** A write costs 480 extra cycles exactly when it goes to the PSG; any other write costs none. */
  lemma SgPsgWait(ctx: PortContext, port: bv16, data: bv8)
    ensures SgPortWrite(ctx, port, data).wait == 480 <==> BucketOf(port) == SoundHv
    ensures SgPortWrite(ctx, port, data).wait == 0 <==> BucketOf(port) != SoundHv
    ensures BucketOf(port) == SoundHv ==> SgPortWrite(ctx, port, data).events == [PsgWrite(ctx.cycles, data)]
  {
    BucketBySelect(port);
  }

  /** The other port groups: no H-V counter, the TMS9918 control port, and the I/O controller on the extension ports. */
  lemma SgTable(ctx: PortContext, port: bv16, data: bv8)
    ensures BucketOf(port) == Controller || BucketOf(port) == Extension ==>
      SgPortWrite(ctx, port, data) == WriteEffect([], None, 0)
    ensures BucketOf(port) == VdpDataPort ==> SgPortWrite(ctx, port, data) == Emit(VdpDataWrite(data))
    ensures BucketOf(port) == VdpCtrlPort ==> SgPortWrite(ctx, port, data) == Emit(VdpCtrlWrite(TmsCtrl, data))
    ensures BucketOf(port) == Controller || BucketOf(port) == SoundHv ==>
      SgPortRead(ctx, port) == UnusedPortRead(ctx.hw, ctx.pc, LowByte(port))
    ensures BucketOf(port) == VdpDataPort ==> SgPortRead(ctx, port) == Device(VdpDataRead)
    ensures BucketOf(port) == VdpCtrlPort ==> SgPortRead(ctx, port) == Device(VdpCtrlRead(ctx.cycles))
    ensures BucketOf(port) == Extension ==> SgPortRead(ctx, port) == Device(IoRead(Parity(port)))
  {
    BucketBySelect(port);
  }
}
