/**
 * z80_md_port_w and z80_md_port_r (core/memz80.c, lines 258-350): the Z80
 * ports of a Mega Drive running Master System software.
 */
module MdPorts {
  import opened BusTypes
  import opened Faults
  import opened PortCommon

  /** The default case of z80_md_port_w: the FM chip at F0-FF when it is enabled, else unused. */
  function MdDefaultWrite(ctx: PortContext, port: bv16, data: bv8): WriteEffect
  {
    var p := LowByte(port);
    if p >= 0xF0 && FmEnabled(ctx) then Emit(FmWrite(ctx.cycles, p, data))
    else UnusedPortWrite(p, data)
  }

  function MdPortWrite(ctx: PortContext, port: bv16, data: bv8): (e: WriteEffect)
    ensures e.audioLatch == None && e.wait == 0 && |e.events| <= 1
    ensures forall w :: w in e.events && w.FmWrite? ==> FmEnabled(ctx)
  {
    var s := Select(port);
    if s == 0x01 then Emit(IoWrite(1, data, ctx.cycles, PbcOffset))
    else if s == 0x40 || s == 0x41 then Emit(PsgWrite(ctx.cycles, data))
    else if s == 0x80 then Emit(VdpDataWrite(data))
    else if s == 0x81 then Emit(VdpCtrlWrite(Z80Ctrl, data))
    else MdDefaultWrite(ctx, port, data)
  }

  /** The default case of z80_md_port_r: the I/O ports, then the FM chip, else unused. */
  function MdDefaultRead(ctx: PortContext, port: bv16): ReadSource
  {
    var p := LowByte(port);
    if IsIoPort(p) then Device(IoRead(Parity(p)))
    else if p >= 0xF0 && FmEnabled(ctx) then Device(FmRead(ctx.cycles, p))
    else UnusedPortRead(ctx.hw, ctx.pc, p)
  }

  function MdPortRead(ctx: PortContext, port: bv16): (r: ReadSource)
    ensures !r.Combined?
    ensures r.Device? && r.query.FmRead? ==> FmEnabled(ctx)
  {
    var s := Select(port);
    if s == 0x40 then HvcHigh(Sub32(ctx.cycles, 15))
    else if s == 0x41 then HvcLow(Sub32(ctx.cycles, 15))
    else if s == 0x80 then Device(VdpDataRead)
    else if s == 0x81 then Device(VdpCtrlRead(ctx.cycles))
    else MdDefaultRead(ctx, port)
  }

  /**
   * Every port write, by port group: only the odd controller ports reach the
   * I/O controller (the even ones fall to the default case and are unused),
   * and only F0-FF with FM enabled reaches the FM chip.
   */
  lemma MdWriteTable(ctx: PortContext, port: bv16, data: bv8)
    ensures BucketOf(port) == Controller && Parity(port) == 1 ==>
      MdPortWrite(ctx, port, data) == Emit(IoWrite(1, data, ctx.cycles, PbcOffset))
    ensures BucketOf(port) == Controller && Parity(port) == 0 ==>
      MdPortWrite(ctx, port, data) == WriteEffect([], None, 0)
    ensures BucketOf(port) == SoundHv ==> MdPortWrite(ctx, port, data) == Emit(PsgWrite(ctx.cycles, data))
    ensures BucketOf(port) == VdpDataPort ==> MdPortWrite(ctx, port, data) == Emit(VdpDataWrite(data))
    ensures BucketOf(port) == VdpCtrlPort ==> MdPortWrite(ctx, port, data) == Emit(VdpCtrlWrite(Z80Ctrl, data))
    ensures BucketOf(port) == Extension && LowByte(port) >= 0xF0 && FmEnabled(ctx) ==>
      MdPortWrite(ctx, port, data) == Emit(FmWrite(ctx.cycles, LowByte(port), data))
    ensures BucketOf(port) == Extension && !(LowByte(port) >= 0xF0 && FmEnabled(ctx)) ==>
      MdPortWrite(ctx, port, data) == WriteEffect([], None, 0)
  {
    BucketBySelect(port);
  }

  /**
   * Every port read, by port group. The H-V counter is sampled 15 cycles in
   * the past (modulo 2^32, see `SubThenAdd`), high byte on even ports and
   * low byte on odd ones.
   */
  lemma MdReadTable(ctx: PortContext, port: bv16)
    ensures BucketOf(port) == SoundHv && Parity(port) == 0 ==> MdPortRead(ctx, port) == HvcHigh(Sub32(ctx.cycles, 15))
    ensures BucketOf(port) == SoundHv && Parity(port) == 1 ==> MdPortRead(ctx, port) == HvcLow(Sub32(ctx.cycles, 15))
    ensures BucketOf(port) == VdpDataPort ==> MdPortRead(ctx, port) == Device(VdpDataRead)
    ensures BucketOf(port) == VdpCtrlPort ==> MdPortRead(ctx, port) == Device(VdpCtrlRead(ctx.cycles))
    ensures BucketOf(port) == Controller ==> MdPortRead(ctx, port) == UnusedPortRead(ctx.hw, ctx.pc, LowByte(port))
    ensures BucketOf(port) == Extension && IsIoPort(LowByte(port)) ==> MdPortRead(ctx, port) == Device(IoRead(Parity(port)))
    ensures BucketOf(port) == Extension && !IsIoPort(LowByte(port)) && LowByte(port) >= 0xF0 && FmEnabled(ctx) ==>
      MdPortRead(ctx, port) == Device(FmRead(ctx.cycles, LowByte(port)))
    ensures BucketOf(port) == Extension && !IsIoPort(LowByte(port)) && !(LowByte(port) >= 0xF0 && FmEnabled(ctx)) ==>
      MdPortRead(ctx, port) == UnusedPortRead(ctx.hw, ctx.pc, LowByte(port))
  {
    BucketBySelect(port);
  }
}
