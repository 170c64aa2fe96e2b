/**
 * z80_gg_port_w and z80_gg_port_r (core/memz80.c, lines 357-466): the Z80
 * ports of a Game Gear, whose I/O chip decodes the whole port byte.
 */
module GgPorts {
  import opened BusTypes
  import opened Faults
  import opened PortCommon

  /** Ports 00-06: the Game Gear's own I/O registers, present only on SYSTEM_GG hardware. */
  predicate IsGgIoPort(hw: SystemHw, port: bv16)
  {
    LowByte(port) < 0x07 && hw == SystemGg
  }

  /** Ports 3E and 3F: the memory and I/O control registers of the I/O controller. */
  predicate IsControlPair(port: bv16)
  {
    LowByte(port) == 0x3E || LowByte(port) == 0x3F
  }

  /** The controller group of z80_gg_port_w. */
  function GgControllerWrite(ctx: PortContext, port: bv16, data: bv8): WriteEffect
  {
    var p := LowByte(port);
    if p < 0x07 then
      (if ctx.hw == SystemGg then Emit(GgIoWrite(p, data)) else UnusedPortWrite(p, data))
    else if p == 0x3E || p == 0x3F then Emit(IoWrite(Parity(p), data, ctx.cycles, SmsOffset))
    else UnusedPortWrite(p, data)
  }

  function GgPortWrite(ctx: PortContext, port: bv16, data: bv8): (e: WriteEffect)
    ensures e.audioLatch == None && e.wait == 0 && |e.events| <= 1
    ensures forall w :: w in e.events && w.GgIoWrite? ==> ctx.hw == SystemGg
  {
    var s := Select(port);
    if s == 0x00 || s == 0x01 then GgControllerWrite(ctx, port, data)
    else if s == 0x40 || s == 0x41 then Emit(PsgWrite(ctx.cycles, data))
    else if s == 0x80 then Emit(VdpDataWrite(data))
    else if s == 0x81 then Emit(VdpCtrlWrite(SmsCtrl, data))
    else UnusedPortWrite(LowByte(port), data)
  }

  /** The default case of z80_gg_port_r: the I/O ports C0, C1, DC and DD, else unused. */
  function GgExtensionRead(ctx: PortContext, port: bv16): ReadSource
  {
    var p := LowByte(port);
    if IsIoPort(p) then Device(IoRead(Parity(p))) else UnusedPortRead(ctx.hw, ctx.pc, p)
  }

  function GgPortRead(ctx: PortContext, port: bv16): (r: ReadSource)
    ensures !r.Combined? && !(r.Device? && r.query.FmRead?)
    ensures r.Device? && r.query.GgIoRead? ==> ctx.hw == SystemGg
  {
    var s := Select(port);
    if s == 0x00 || s == 0x01 then
      (if LowByte(port) < 0x07 && ctx.hw == SystemGg then Device(GgIoRead(LowByte(port)))
       else UnusedPortRead(ctx.hw, ctx.pc, LowByte(port)))
    else if s == 0x40 then HvcHigh(ctx.cycles)
    else if s == 0x41 then HvcLow(ctx.cycles)
    else if s == 0x80 then Device(VdpDataRead)
    else if s == 0x81 then Device(VdpCtrlRead(ctx.cycles))
    else GgExtensionRead(ctx, port)
  }

  /** A write reaches the I/O controller exactly at ports 3E and 3F, whatever the hardware. */
  lemma GgControlPairWrite(ctx: PortContext, port: bv16, data: bv8)
    ensures GgPortWrite(ctx, port, data) == Emit(IoWrite(Parity(port), data, ctx.cycles, SmsOffset))
      <==> IsControlPair(port)
  {
    BucketBySelect(port);
  }

  /** A write reaches the Game Gear I/O chip exactly at ports 00-06 of SYSTEM_GG hardware. */
  lemma GgIoChipWrite(ctx: PortContext, port: bv16, data: bv8)
    ensures GgPortWrite(ctx, port, data) == Emit(GgIoWrite(LowByte(port), data)) <==> IsGgIoPort(ctx.hw, port)
  {
    BucketBySelect(port);
  }

  /** A read reaches the Game Gear I/O chip exactly at ports 00-06 of SYSTEM_GG hardware. */
  lemma GgIoChipRead(ctx: PortContext, port: bv16)
    ensures GgPortRead(ctx, port) == Device(GgIoRead(LowByte(port))) <==> IsGgIoPort(ctx.hw, port)
  {
    BucketBySelect(port);
  }

  /** Every other port write, by port group; nothing on this machine reaches an FM chip. */
  lemma GgWriteTable(ctx: PortContext, port: bv16, data: bv8)
    ensures BucketOf(port) == Controller && !IsGgIoPort(ctx.hw, port) && !IsControlPair(port) ==>
      GgPortWrite(ctx, port, data) == WriteEffect([], None, 0)
    ensures BucketOf(port) == SoundHv ==> GgPortWrite(ctx, port, data) == Emit(PsgWrite(ctx.cycles, data))
    ensures BucketOf(port) == VdpDataPort ==> GgPortWrite(ctx, port, data) == Emit(VdpDataWrite(data))
    ensures BucketOf(port) == VdpCtrlPort ==> GgPortWrite(ctx, port, data) == Emit(VdpCtrlWrite(SmsCtrl, data))
    ensures BucketOf(port) == Extension ==> GgPortWrite(ctx, port, data) == WriteEffect([], None, 0)
    ensures forall e :: e in GgPortWrite(ctx, port, data).events ==> !e.FmWrite?
  {
    BucketBySelect(port);
  }

  /** Every other port read, by port group; the H-V counter is sampled at the current cycle. */
  lemma GgReadTable(ctx: PortContext, port: bv16)
    ensures BucketOf(port) == Controller && !IsGgIoPort(ctx.hw, port) ==>
      GgPortRead(ctx, port) == UnusedPortRead(ctx.hw, ctx.pc, LowByte(port))
    ensures BucketOf(port) == SoundHv && Parity(port) == 0 ==> GgPortRead(ctx, port) == HvcHigh(ctx.cycles)
    ensures BucketOf(port) == SoundHv && Parity(port) == 1 ==> GgPortRead(ctx, port) == HvcLow(ctx.cycles)
    ensures BucketOf(port) == VdpDataPort ==> GgPortRead(ctx, port) == Device(VdpDataRead)
    ensures BucketOf(port) == VdpCtrlPort ==> GgPortRead(ctx, port) == Device(VdpCtrlRead(ctx.cycles))
    ensures BucketOf(port) == Extension && IsIoPort(LowByte(port)) ==> GgPortRead(ctx, port) == Device(IoRead(Parity(port)))
    ensures BucketOf(port) == Extension && !IsIoPort(LowByte(port)) ==>
      GgPortRead(ctx, port) == UnusedPortRead(ctx.hw, ctx.pc, LowByte(port))
  {
    BucketBySelect(port);
  }
}
