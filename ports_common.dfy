/**
 * What the five port decoders of core/memz80.c (lines 258-802) share: the
 * state a port access sees, and the five groups `port & 0xC1` sorts the
 * 256 low port bytes into.
 */
module PortCommon {
  import opened BusTypes

  /**
   * What a port handler reads from the rest of the machine: `Z80.cycles`,
   * `Z80.pc.w.l`, `system_hw`, `region_code`, `config.ym2413`,
   * `config.psg_preamp`, `io_reg[0x06]` and `io_reg[0x0E]`.
   */
  datatype PortContext = PortContext(
    cycles: u32,
    pc: bv16,
    hw: SystemHw,
    region: Region,
    ym2413: bv8,
    psgPreamp: nat,
    ioReg06: bv8,
    ioReg0E: bv8)

  /** `config.ym2413 & 1`: the FM sound unit is enabled. */
  predicate FmEnabled(ctx: PortContext)
  {
    (ctx.ym2413 & 1) == 1
  }

  /** `!(io_reg[0x0E] & 0x04)`: the I/O ports are enabled. */
  predicate IoEnabled(ctx: PortContext)
  {
    (ctx.ioReg0E & 4) == 0
  }

  /** `port & 0xFF`, the port byte the decoders that see the whole range look at. */
  function LowByte(port: bv16): bv16
  {
    port & 0xFF
  }

  /** `port & 1`, the I/O controller index. */
  function Parity(port: bv16): bv16
  {
    port & 1
  }

  /** `port & 0xC1`, the selector of every decoder's switch. */
  function Select(port: bv16): bv16
  {
    port & 0xC1
  }

  /** The I/O controller ports that the full-range decoders recognise: C0, C1, DC and DD. */
  predicate IsIoPort(p: bv16)
  {
    p == 0xC0 || p == 0xC1 || p == 0xDC || p == 0xDD
  }

  /** The five port groups of the Sega 8-bit decoders, by range of the low byte. */
  datatype Bucket = Controller | SoundHv | VdpDataPort | VdpCtrlPort | Extension

  /**
   * A reference grouping by ranges: 00-3F the I/O controller, 40-7F the PSG
   * and H-V counter, the even ports of 80-BF the VDP data port and the odd
   * ones its control port, and C0-FF the extension ports.
   */
  function BucketOf(port: bv16): Bucket
  {
    var p := LowByte(port);
    if p < 0x40 then Controller
    else if p < 0x80 then SoundHv
    else if p < 0xC0 then (if Parity(port) == 0 then VdpDataPort else VdpCtrlPort)
    else Extension
  }

  /** `port & 0xC1` agrees with the range grouping for every 16-bit port. */
  lemma BucketBySelect(port: bv16)
    ensures Select(port) == 0x00 || Select(port) == 0x01 <==> BucketOf(port) == Controller
    ensures Select(port) == 0x40 || Select(port) == 0x41 <==> BucketOf(port) == SoundHv
    ensures Select(port) == 0x80 <==> BucketOf(port) == VdpDataPort
    ensures Select(port) == 0x81 <==> BucketOf(port) == VdpCtrlPort
    ensures Select(port) == 0xC0 || Select(port) == 0xC1 <==> BucketOf(port) == Extension
    ensures (Select(port) & 1) == Parity(port)
  {
  }
}
