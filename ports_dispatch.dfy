/**
 * The five port decoders of core/memz80.c (lines 258-802) side by side. The
 * emulator installs one pair of them as the Z80 port handlers according to
 * the machine it runs; `Variant` names that choice.
 */
module PortDispatch {
  import opened BusTypes
  import opened PortCommon
  import MdPorts
  import GgPorts
  import MsPorts
  import M3Ports
  import SgPorts

  datatype Variant = MegaDrive | GameGear | MasterSystem | MarkIII | Sg1000

  function PortWriteEffect(v: Variant, ctx: PortContext, port: bv16, data: bv8): (e: WriteEffect)
    ensures e.wait != 0 ==> v == Sg1000
    ensures e.audioLatch.Some? ==> v == MasterSystem && e.audioLatch.value == data
  {
    match v
    case MegaDrive => MdPorts.MdPortWrite(ctx, port, data)
    case GameGear => GgPorts.GgPortWrite(ctx, port, data)
    case MasterSystem => MsPorts.MsPortWrite(ctx, port, data)
    case MarkIII => M3Ports.M3PortWrite(ctx, port, data)
    case Sg1000 => SgPorts.SgPortWrite(ctx, port, data)
  }

  function PortReadSource(v: Variant, ctx: PortContext, port: bv16): (r: ReadSource)
    ensures r.Combined? ==> v == MasterSystem
    ensures r.Device? && r.query.GgIoRead? ==> v == GameGear
  {
    match v
    case MegaDrive => MdPorts.MdPortRead(ctx, port)
    case GameGear => GgPorts.GgPortRead(ctx, port)
    case MasterSystem => MsPorts.MsPortRead(ctx, port)
    case MarkIII => M3Ports.M3PortRead(ctx, port)
    case Sg1000 => SgPorts.SgPortRead(ctx, port)
  }

  /** The VDP control-port handler each variant writes to. */
  function CtrlKindOf(v: Variant): VdpCtrlKind
  {
    match v
    case MegaDrive => Z80Ctrl
    case Sg1000 => TmsCtrl
    case _ => SmsCtrl
  }

  /**
   * The VDP ports behave alike on every machine: even ports 80-BF are the
   * data port, odd ones the control port, whose writes go to the variant's
   * own control handler.
   */
  lemma VdpPortsUniform(v: Variant, ctx: PortContext, port: bv16, data: bv8)
    ensures BucketOf(port) == VdpDataPort ==>
      PortWriteEffect(v, ctx, port, data) == Emit(VdpDataWrite(data)) && PortReadSource(v, ctx, port) == Device(VdpDataRead)
    ensures BucketOf(port) == VdpCtrlPort ==>
      PortWriteEffect(v, ctx, port, data) == Emit(VdpCtrlWrite(CtrlKindOf(v), data)) &&
      PortReadSource(v, ctx, port) == Device(VdpCtrlRead(ctx.cycles))
  {
    match v
    case MegaDrive => MdPorts.MdWriteTable(ctx, port, data); MdPorts.MdReadTable(ctx, port);
    case GameGear => GgPorts.GgWriteTable(ctx, port, data); GgPorts.GgReadTable(ctx, port);
    case MasterSystem => MsPorts.MsWriteTable(ctx, port, data); MsPorts.MsReadTable(ctx, port);
    case MarkIII => M3Ports.M3Table(ctx, port, data);
    case Sg1000 => SgPorts.SgTable(ctx, port, data);
  }

  /** Ports 40-7F reach the PSG on every machine, by a single write. */
  lemma PsgPortsUniform(v: Variant, ctx: PortContext, port: bv16, data: bv8)
    requires BucketOf(port) == SoundHv
    ensures PortWriteEffect(v, ctx, port, data).events == [PsgWrite(ctx.cycles, data)]
    ensures PortWriteEffect(v, ctx, port, data).audioLatch == None
  {
    match v
    case MegaDrive => MdPorts.MdWriteTable(ctx, port, data);
    case GameGear => GgPorts.GgWriteTable(ctx, port, data);
    case MasterSystem => MsPorts.MsWriteTable(ctx, port, data);
    case MarkIII => M3Ports.M3Table(ctx, port, data);
    case Sg1000 => SgPorts.SgPsgWait(ctx, port, data);
  }

  /** Only an SG-1000 PSG write holds the Z80 in wait. */
  lemma OnlySg1000Waits(v: Variant, ctx: PortContext, port: bv16, data: bv8)
    ensures PortWriteEffect(v, ctx, port, data).wait != 0 <==> v == Sg1000 && BucketOf(port) == SoundHv
  {
    BucketBySelect(port);
    if v == Sg1000 {
      SgPorts.SgPsgWait(ctx, port, data);
    }
  }

  /** Only the Japanese Master System's audio control register latches a byte, and it latches the byte written. */
  lemma OnlyAudioControlLatches(v: Variant, ctx: PortContext, port: bv16, data: bv8)
    ensures PortWriteEffect(v, ctx, port, data).audioLatch.Some? <==>
      v == MasterSystem && ctx.region == RegionJapanNtsc && FmEnabled(ctx) && LowByte(port) == 0xF2
    ensures PortWriteEffect(v, ctx, port, data).audioLatch.Some? ==>
      PortWriteEffect(v, ctx, port, data).audioLatch.value == data
  {
    BucketBySelect(port);
    if v == MasterSystem {
      MsPorts.MsLatchOnlyAudioControl(ctx, port, data);
      if PortWriteEffect(v, ctx, port, data).audioLatch.Some? {
        MsPorts.MsAudioControlWrite(ctx, port, data);
      }
    }
  }
}
