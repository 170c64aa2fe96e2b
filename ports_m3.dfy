/**
 * z80_m3_port_w and z80_m3_port_r (core/memz80.c, lines 641-736): the Z80
 * ports of a Mark III, with the optional FM-70 sound unit on the
 * extension ports.
 */
module M3Ports {
  import opened BusTypes
  import opened Faults
  import opened PortCommon
  import MsPorts

  /** `port & 2`: an FM unit port that is also its output control register. */
  predicate FmOutputControl(port: bv16)
  {
    (port & 2) != 0
  }

  /** The PSG mask the FM unit's output control sets: FM output on silences the PSG. */
  function FmUnitPsgMask(data: bv8): (mask: bv8)
    ensures mask == 0x00 <==> (data & 1) == 1
    ensures mask == 0x00 || mask == 0xFF
  {
    if (data & 1) != 0 then 0x00 else 0xFF
  }

  /** Whether an extension port reaches the FM-70 unit. */
  predicate FmUnitActive(ctx: PortContext, port: bv16)
  {
    MsPorts.FmBoardSelected(port) && FmEnabled(ctx)
  }

  /** The default case of z80_m3_port_w. */
  function M3ExtensionWrite(ctx: PortContext, port: bv16, data: bv8): WriteEffect
  {
    if FmUnitActive(ctx, port) then
      var psg := if FmOutputControl(port) then [PsgConfig(ctx.cycles, ctx.psgPreamp, FmUnitPsgMask(data))] else [];
      WriteEffect([FmWrite(ctx.cycles, port, data)] + psg, None, 0)
    else UnusedPortWrite(LowByte(port), data)
  }

  function M3PortWrite(ctx: PortContext, port: bv16, data: bv8): (e: WriteEffect)
    ensures e.audioLatch == None && e.wait == 0 && |e.events| <= 2
    ensures forall w :: w in e.events && (w.FmWrite? || w.PsgConfig?) ==> FmEnabled(ctx)
  {
    var s := Select(port);
    if s == 0x00 || s == 0x01 then UnusedPortWrite(LowByte(port), data)
    else if s == 0x40 || s == 0x41 then Emit(PsgWrite(ctx.cycles, data))
    else if s == 0x80 then Emit(VdpDataWrite(data))
    else if s == 0x81 then Emit(VdpCtrlWrite(SmsCtrl, data))
    else M3ExtensionWrite(ctx, port, data)
  }

  /** The default case of z80_m3_port_r: the FM unit when active, else the I/O controller. */
  function M3ExtensionRead(ctx: PortContext, port: bv16): ReadSource
  {
    if FmUnitActive(ctx, port) then Device(FmRead(ctx.cycles, port)) else Device(IoRead(Parity(port)))
  }

  function M3PortRead(ctx: PortContext, port: bv16): (r: ReadSource)
    ensures !r.Combined?
    ensures r.Device? && r.query.FmRead? ==> FmEnabled(ctx)
  {
    var s := Select(port);
    if s == 0x00 || s == 0x01 then UnusedPortRead(ctx.hw, ctx.pc, LowByte(port))
    else if s == 0x40 then HvcHigh(ctx.cycles)
    else if s == 0x41 then HvcLow(ctx.cycles)
    else if s == 0x80 then Device(VdpDataRead)
    else if s == 0x81 then Device(VdpCtrlRead(ctx.cycles))
    else M3ExtensionRead(ctx, port)
  }

  /**
   * The extension writes: the FM unit gets the byte at the whole port, and
   * at its output control ports the PSG is then reconfigured; with the unit
   * absent or not selected nothing happens.
   */
  lemma M3ExtensionWriteEffect(ctx: PortContext, port: bv16, data: bv8)
    requires BucketOf(port) == Extension
    ensures FmUnitActive(ctx, port) && !FmOutputControl(port) ==>
      M3PortWrite(ctx, port, data) == Emit(FmWrite(ctx.cycles, port, data))
    ensures FmUnitActive(ctx, port) && FmOutputControl(port) ==>
      M3PortWrite(ctx, port, data).events ==
        [FmWrite(ctx.cycles, port, data), PsgConfig(ctx.cycles, ctx.psgPreamp, FmUnitPsgMask(data))]
    ensures !FmUnitActive(ctx, port) ==> M3PortWrite(ctx, port, data) == WriteEffect([], None, 0)
    ensures M3PortWrite(ctx, port, data).audioLatch == None && M3PortWrite(ctx, port, data).wait == 0
  {
    BucketBySelect(port);
  }

  /** An extension read always reaches a device, never the unused-port handler. */
  lemma M3ExtensionReadNeverUnused(ctx: PortContext, port: bv16)
    requires BucketOf(port) == Extension
    ensures FmUnitActive(ctx, port) ==> M3PortRead(ctx, port) == Device(FmRead(ctx.cycles, port))
    ensures !FmUnitActive(ctx, port) ==> M3PortRead(ctx, port) == Device(IoRead(Parity(port)))
    ensures M3PortRead(ctx, port).Device? && !M3PortRead(ctx, port).query.CodeByte?
  {
    BucketBySelect(port);
  }

  /** The other port groups: the controller group is unused, the PSG and VDP are as on the Master System. */
  lemma M3Table(ctx: PortContext, port: bv16, data: bv8)
    ensures BucketOf(port) == Controller ==> M3PortWrite(ctx, port, data) == WriteEffect([], None, 0)
    ensures BucketOf(port) == Controller ==> M3PortRead(ctx, port) == UnusedPortRead(ctx.hw, ctx.pc, LowByte(port))
    ensures BucketOf(port) == SoundHv ==> M3PortWrite(ctx, port, data) == Emit(PsgWrite(ctx.cycles, data))
    ensures BucketOf(port) == SoundHv && Parity(port) == 0 ==> M3PortRead(ctx, port) == HvcHigh(ctx.cycles)
    ensures BucketOf(port) == SoundHv && Parity(port) == 1 ==> M3PortRead(ctx, port) == HvcLow(ctx.cycles)
    ensures BucketOf(port) == VdpDataPort ==> M3PortWrite(ctx, port, data) == Emit(VdpDataWrite(data))
    ensures BucketOf(port) == VdpDataPort ==> M3PortRead(ctx, port) == Device(VdpDataRead)
    ensures BucketOf(port) == VdpCtrlPort ==> M3PortWrite(ctx, port, data) == Emit(VdpCtrlWrite(SmsCtrl, data))
    ensures BucketOf(port) == VdpCtrlPort ==> M3PortRead(ctx, port) == Device(VdpCtrlRead(ctx.cycles))
  {
    BucketBySelect(port);
  }
}
