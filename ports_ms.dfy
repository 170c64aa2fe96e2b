/**
 * z80_ms_port_w and z80_ms_port_r (core/memz80.c, lines 473-635): the Z80
 * ports of a Master System. The Japanese console's 315-5297 I/O chip
 * decodes the whole port byte and holds the audio control register at F2;
 * elsewhere an external FM board answers at the extension ports.
 */
module MsPorts {
  import opened BusTypes
  import opened Faults
  import opened PortCommon

  /** `!(port & 4)`: the extension port selects the FM board. */
  predicate FmBoardSelected(port: bv16)
  {
    (port & 4) == 0
  }

  /** The two mute-control bits of the audio control register, as F2 reads them back. */
  function AudioControlBits(reg: bv8): bv8
  {
    reg & 3
  }

  /**
   * The PSG output mask a write to the audio control register sets:
   * `((data + 1) & 2) ? 0x00 : 0xFF`, evaluated on an `int` as in C.
   * Bits 00 (PSG only) and 11 (PSG and FM) keep the PSG audible.
   */
  function AudioMask(data: bv8): (mask: bv8)
    ensures mask == 0xFF || mask == 0x00
    ensures mask == 0xFF <==> AudioControlBits(data) == 0 || AudioControlBits(data) == 3
  {
    if (((data as bv16) + 1) & 2) != 0 then 0x00 else 0xFF
  }

  /** Whether the controller group of z80_ms_port_w reaches the I/O controller. */
  predicate MsControllerDecoded(ctx: PortContext, port: bv16)
  {
    ctx.region != RegionJapanNtsc || (port & 0xFE) == 0x3E
  }

  /** The default case of z80_ms_port_w on a Japanese console with FM enabled. */
  function MsJapanFmWrite(ctx: PortContext, port: bv16, data: bv8): WriteEffect
  {
    var p := LowByte(port);
    if p == 0xF0 || p == 0xF1 then Emit(FmWrite(ctx.cycles, p, data))
    else if p == 0xF2 then
      WriteEffect([PsgConfig(ctx.cycles, ctx.psgPreamp, AudioMask(data)), FmWrite(ctx.cycles, 2, data)], Some(data), 0)
    else UnusedPortWrite(p, data)
  }

  /** The default case of z80_ms_port_w. */
  function MsExtensionWrite(ctx: PortContext, port: bv16, data: bv8): WriteEffect
  {
    if FmEnabled(ctx) && ctx.region == RegionJapanNtsc then MsJapanFmWrite(ctx, port, data)
    else if FmEnabled(ctx) && FmBoardSelected(port) then Emit(FmWrite(ctx.cycles, port, data))
    else UnusedPortWrite(LowByte(port), data)
  }

  function MsPortWrite(ctx: PortContext, port: bv16, data: bv8): (e: WriteEffect)
    ensures e.wait == 0 && |e.events| <= 2
    ensures e.audioLatch.Some? ==> e.audioLatch.value == data
    ensures forall w :: w in e.events && w.FmWrite? ==> FmEnabled(ctx)
  {
    var s := Select(port);
    if s == 0x00 || s == 0x01 then
      (if MsControllerDecoded(ctx, port) then Emit(IoWrite(Parity(port), data, ctx.cycles, SmsOffset))
       else UnusedPortWrite(LowByte(port), data))
    else if s == 0x40 || s == 0x41 then Emit(PsgWrite(ctx.cycles, data))
    else if s == 0x80 then Emit(VdpDataWrite(data))
    else if s == 0x81 then Emit(VdpCtrlWrite(SmsCtrl, data))
    else MsExtensionWrite(ctx, port, data)
  }

  /** The FM board's share of an export console's extension read. */
  function FmBoardQuery(ctx: PortContext, port: bv16): Option<DeviceRead>
  {
    if FmBoardSelected(port) && FmEnabled(ctx) then Some(FmRead(ctx.cycles, port)) else None
  }

  /** The I/O controller's share of an export console's extension read. */
  function IoQuery(ctx: PortContext, port: bv16): Option<DeviceRead>
  {
    if IoEnabled(ctx) then Some(IoRead(Parity(port))) else None
  }

  /** The default case of z80_ms_port_r. */
  function MsExtensionRead(ctx: PortContext, port: bv16): ReadSource
  {
    if ctx.region == RegionJapanNtsc then
      var p := LowByte(port);
      if p == 0xF2 then Const(AudioControlBits(ctx.ioReg06))
      else if IsIoPort(p) && IoEnabled(ctx) then Device(IoRead(Parity(p)))
      else UnusedPortRead(ctx.hw, ctx.pc, p)
    else
      Combined(FmBoardQuery(ctx, port), IoQuery(ctx, port))
  }

  function MsPortRead(ctx: PortContext, port: bv16): (r: ReadSource)
    ensures r.Combined? ==> ctx.region != RegionJapanNtsc
    ensures r.Combined? && r.fm.Some? ==> FmEnabled(ctx)
    ensures !(r.Device? && r.query.FmRead?)
  {
    var s := Select(port);
    if s == 0x00 || s == 0x01 then UnusedPortRead(ctx.hw, ctx.pc, LowByte(port))
    else if s == 0x40 then HvcHigh(ctx.cycles)
    else if s == 0x41 then HvcLow(ctx.cycles)
    else if s == 0x80 then Device(VdpDataRead)
    else if s == 0x81 then Device(VdpCtrlRead(ctx.cycles))
    else MsExtensionRead(ctx, port)
  }

  /**
   * A controller-group write reaches the I/O controller exactly on export
   * consoles, or at 3E/3F on a Japanese one; otherwise it does nothing.
   */
  lemma MsControllerWrite(ctx: PortContext, port: bv16, data: bv8)
    ensures BucketOf(port) == Controller && MsControllerDecoded(ctx, port) ==>
      MsPortWrite(ctx, port, data) == Emit(IoWrite(Parity(port), data, ctx.cycles, SmsOffset))
    ensures BucketOf(port) == Controller && !MsControllerDecoded(ctx, port) ==>
      MsPortWrite(ctx, port, data) == WriteEffect([], None, 0)
    ensures MsControllerDecoded(ctx, port) <==>
      ctx.region != RegionJapanNtsc || LowByte(port) == 0x3E || LowByte(port) == 0x3F
  {
    BucketBySelect(port);
  }

  /**
   * The audio control register: on a Japanese console with FM enabled, a
   * write to F2 sets the PSG mask, writes FM register 2 and latches the byte.
   */
  lemma MsAudioControlWrite(ctx: PortContext, port: bv16, data: bv8)
    requires ctx.region == RegionJapanNtsc && FmEnabled(ctx) && LowByte(port) == 0xF2
    ensures MsPortWrite(ctx, port, data) ==
      WriteEffect([PsgConfig(ctx.cycles, ctx.psgPreamp, AudioMask(data)), FmWrite(ctx.cycles, 2, data)], Some(data), 0)
  {
    BucketBySelect(port);
  }

  /** After a write to F2 is latched into io_reg[6], a read of F2 returns its two low bits. */
  lemma MsAudioControlRoundTrip(ctx: PortContext, writePort: bv16, readPort: bv16, data: bv8)
    requires ctx.region == RegionJapanNtsc && FmEnabled(ctx)
    requires LowByte(writePort) == 0xF2 && LowByte(readPort) == 0xF2
    ensures MsPortWrite(ctx, writePort, data).audioLatch == Some(data)
    ensures MsPortRead(ctx.(ioReg06 := data), readPort) == Const(data & 3)
  {
    MsAudioControlWrite(ctx, writePort, data);
    BucketBySelect(readPort);
  }

  /** Only an F2 write of a Japanese console with FM enabled latches a byte. */
  lemma MsLatchOnlyAudioControl(ctx: PortContext, port: bv16, data: bv8)
    ensures MsPortWrite(ctx, port, data).audioLatch.Some? <==>
      ctx.region == RegionJapanNtsc && FmEnabled(ctx) && LowByte(port) == 0xF2
    ensures MsPortWrite(ctx, port, data).wait == 0
  {
    BucketBySelect(port);
  }

  /** The other extension writes of a Japanese console: F0/F1 reach the internal FM chip, the rest nothing. */
  lemma MsJapanExtensionWrite(ctx: PortContext, port: bv16, data: bv8)
    requires ctx.region == RegionJapanNtsc && BucketOf(port) == Extension
    ensures FmEnabled(ctx) && (LowByte(port) == 0xF0 || LowByte(port) == 0xF1) ==>
      MsPortWrite(ctx, port, data) == Emit(FmWrite(ctx.cycles, LowByte(port), data))
    ensures !(FmEnabled(ctx) && 0xF0 <= LowByte(port) <= 0xF2) ==>
      MsPortWrite(ctx, port, data) == WriteEffect([], None, 0)
  {
    BucketBySelect(port);
  }

  /** The extension writes of an export console reach the FM board, with the whole port, when it is selected and enabled. */
  lemma MsExportExtensionWrite(ctx: PortContext, port: bv16, data: bv8)
    requires ctx.region != RegionJapanNtsc && BucketOf(port) == Extension
    ensures FmEnabled(ctx) && FmBoardSelected(port) ==>
      MsPortWrite(ctx, port, data) == Emit(FmWrite(ctx.cycles, port, data))
    ensures !(FmEnabled(ctx) && FmBoardSelected(port)) ==>
      MsPortWrite(ctx, port, data) == WriteEffect([], None, 0)
  {
    BucketBySelect(port);
  }

  /** The PSG and VDP writes, the same in every region. */
  lemma MsWriteTable(ctx: PortContext, port: bv16, data: bv8)
    ensures BucketOf(port) == SoundHv ==> MsPortWrite(ctx, port, data) == Emit(PsgWrite(ctx.cycles, data))
    ensures BucketOf(port) == VdpDataPort ==> MsPortWrite(ctx, port, data) == Emit(VdpDataWrite(data))
    ensures BucketOf(port) == VdpCtrlPort ==> MsPortWrite(ctx, port, data) == Emit(VdpCtrlWrite(SmsCtrl, data))
  {
    BucketBySelect(port);
  }

  /** Every port read outside the extension group. */
  lemma MsReadTable(ctx: PortContext, port: bv16)
    ensures BucketOf(port) == Controller ==> MsPortRead(ctx, port) == UnusedPortRead(ctx.hw, ctx.pc, LowByte(port))
    ensures BucketOf(port) == SoundHv && Parity(port) == 0 ==> MsPortRead(ctx, port) == HvcHigh(ctx.cycles)
    ensures BucketOf(port) == SoundHv && Parity(port) == 1 ==> MsPortRead(ctx, port) == HvcLow(ctx.cycles)
    ensures BucketOf(port) == VdpDataPort ==> MsPortRead(ctx, port) == Device(VdpDataRead)
    ensures BucketOf(port) == VdpCtrlPort ==> MsPortRead(ctx, port) == Device(VdpCtrlRead(ctx.cycles))
  {
    BucketBySelect(port);
  }

  /** The extension reads of a Japanese console: F2 whatever the FM setting, then the enabled I/O ports. */
  lemma MsJapanExtensionRead(ctx: PortContext, port: bv16)
    requires ctx.region == RegionJapanNtsc && BucketOf(port) == Extension
    ensures LowByte(port) == 0xF2 ==> MsPortRead(ctx, port) == Const(ctx.ioReg06 & 3)
    ensures IsIoPort(LowByte(port)) && IoEnabled(ctx) ==> MsPortRead(ctx, port) == Device(IoRead(Parity(port)))
    ensures LowByte(port) != 0xF2 && !(IsIoPort(LowByte(port)) && IoEnabled(ctx)) ==>
      MsPortRead(ctx, port) == UnusedPortRead(ctx.hw, ctx.pc, LowByte(port))
  {
    BucketBySelect(port);
  }

  /**
   * The extension reads of an export console: 0xFF, replaced by the FM
   * board when it is selected and enabled, then AND-ed with the I/O port
   * when the I/O ports are enabled.
   */
  lemma MsExportExtensionRead(ctx: PortContext, port: bv16, dev: Devices)
    requires ctx.region != RegionJapanNtsc && BucketOf(port) == Extension
    ensures FmBoardSelected(port) && FmEnabled(ctx) && IoEnabled(ctx) ==>
      Resolve(MsPortRead(ctx, port), dev) == dev.read(FmRead(ctx.cycles, port)) & dev.read(IoRead(Parity(port)))
    ensures FmBoardSelected(port) && FmEnabled(ctx) && !IoEnabled(ctx) ==>
      Resolve(MsPortRead(ctx, port), dev) == dev.read(FmRead(ctx.cycles, port))
    ensures !(FmBoardSelected(port) && FmEnabled(ctx)) && IoEnabled(ctx) ==>
      Resolve(MsPortRead(ctx, port), dev) == dev.read(IoRead(Parity(port)))
    ensures !(FmBoardSelected(port) && FmEnabled(ctx)) && !IoEnabled(ctx) ==>
      Resolve(MsPortRead(ctx, port), dev) == 0xFF
  {
    BucketBySelect(port);
  }
}
