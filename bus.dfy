/**
 * The state the Z80 bus handlers of core/memz80.c update in place, and the
 * handlers themselves as methods on it: the Z80 and 68k cycle counters, the
 * Z80 run state, the 8 KB Z80 RAM and the I/O registers. The pure decoders
 * of modules Z80Memory and PortDispatch say what each access means; the
 * methods here carry it out on the fields.
 */
module Z80Bus {
  import opened BusTypes
  import opened Faults
  import opened Arbitration
  import opened Z80Memory
  import opened PortCommon
  import opened PortDispatch
  import MsPorts

  /** The `config` settings the handlers read: `force_dtack`, `ym2413` and `psg_preamp`. */
  datatype Config = Config(forceDtack: bool, ym2413: bv8, psgPreamp: nat)

  class Bus {
    /** `Z80.cycles` and `m68k.cycles`. */
    var z80Cycles: u32
    var m68kCycles: u32
    /** `zstate`: bit 2 records that the Z80 still waits for the 68k bus at the end of a DMA. */
    var zstate: bv8
    /** `zbank`: the 68k address of the 32 KB window at Z80 8000-FFFF (set by gen_zbank_w, elsewhere). */
    var zbank: bv32
    /** `zram`: the Z80's own 8 KB of RAM. */
    const zram: array<bv8>
    /** `io_reg`: the I/O chip registers, of which the port handlers use 0x06 and 0x0E. */
    const ioReg: array<bv8>
    /** Which entries of `zbank_memory_map` have read and write handlers. */
    var bankMap: bv8 -> BankEntry
    /** The VDP's DMA state, which only the VDP changes. */
    var dma: Dma
    var cfg: Config
    var hw: SystemHw
    var region: Region
    /** `Z80.pc.w.l`. */
    var pc: bv16

    ghost predicate Valid()
      reads this
    {
      zram.Length == 0x2000 && ioReg.Length == 0x10 && zram != ioReg && ValidBank(zbank)
    }

    /** The counters and run state that arbitration and lockup update. */
    function TimingView(): Timing
      reads this
    {
      Timing(z80Cycles, m68kCycles, zstate)
    }

    /** What a memory access sees. */
    function View(): MemView
      reads this, zram
    {
      MemView(zram[..], zbank, bankMap, z80Cycles)
    }

    /** What a port access sees. */
    function PortCtx(): PortContext
      requires ioReg.Length == 0x10
      reads this, ioReg
    {
      PortContext(z80Cycles, pc, hw, region, cfg.ym2413, cfg.psgPreamp, ioReg[0x06], ioReg[0x0E])
    }

    /** A bus at power-on: counters at zero and RAM and I/O registers cleared. */
    constructor (hw: SystemHw, region: Region, cfg: Config, zbank: bv32, bankMap: bv8 -> BankEntry, dma: Dma)
      requires ValidBank(zbank)
      ensures Valid()
      ensures this.hw == hw && this.region == region && this.cfg == cfg
      ensures this.zbank == zbank && this.bankMap == bankMap && this.dma == dma
      ensures TimingView() == Timing(0, 0, 0) && pc == 0
      ensures forall i :: 0 <= i < zram.Length ==> zram[i] == 0
      ensures forall i :: 0 <= i < ioReg.Length ==> ioReg[i] == 0
    {
      this.hw := hw;
      this.region := region;
      this.cfg := cfg;
      this.zbank := zbank;
      this.bankMap := bankMap;
      this.dma := dma;
      z80Cycles := 0;
      m68kCycles := 0;
      zstate := 0;
      pc := 0;
      zram := new bv8[0x2000](_ => 0);
      ioReg := new bv8[0x10](_ => 0);
    }

    /** z80_request_68k_bus_access: wait out a DMA holding the 68k bus, then charge both CPUs. */
    method RequestBusAccess()
      modifies this`z80Cycles, this`m68kCycles, this`zstate
      ensures TimingView() == Arbitrate(old(TimingView()), dma)
    {
      if z80Cycles < dma.endCycles && dma.dmaType < 2 {
        z80Cycles := dma.endCycles;
        if dma.length != 0 {
          zstate := zstate | 4;
        }
      }
      m68kCycles := Add32(m68kCycles, (((z80Cycles % 7) + 72) / 7) * 7);
      z80Cycles := Add32(z80Cycles, 3 * 15);
    }

    /** z80_lockup_r: halts the Z80 unless `force_dtack` is set, and reads an open bus. */
    method LockupRead(address: bv16) returns (v: bv8)
      modifies this`z80Cycles, this`zstate
      ensures v == 0xFF
      ensures TimingView() == Lockup(old(TimingView()), cfg.forceDtack)
    {
      if !cfg.forceDtack {
        z80Cycles := Halted;
        zstate := 0;
      }
      v := 0xFF;
    }

    /** z80_lockup_w: halts the Z80 unless `force_dtack` is set; the byte goes nowhere. */
    method LockupWrite(address: bv16, data: bv8)
      modifies this`z80Cycles, this`zstate
      ensures TimingView() == Lockup(old(TimingView()), cfg.forceDtack)
    {
      if !cfg.forceDtack {
        z80Cycles := Halted;
        zstate := 0;
      }
    }

    /**
     * z80_memory_r: the byte read is the one the decoder names, answered by
     * `dev`; accesses from 7F00 up first arbitrate for the 68k bus.
     */
    method MemoryRead(address: bv16, dev: Devices) returns (v: bv8)
      requires Valid()
      modifies this`z80Cycles, this`m68kCycles, this`zstate
      ensures Valid()
      ensures v == Resolve(MemReadSource(old(View()), address), dev)
      ensures CrossesBus(address) ==> TimingView() == Arbitrate(old(TimingView()), dma)
      ensures !CrossesBus(address) ==> TimingView() == old(TimingView())
    {
      match RegionOf(address)
      case RamRegion =>
        v := zram[RamIndex(address)];
      case FmRegion =>
        v := dev.read(FmRead(z80Cycles, address & 3));
      case WindowRegion =>
        if (address >> 8) == 0x7F {
          RequestBusAccess();
          v := dev.read(BankHandlerRead(0xC0, address as bv32));
        } else {
          v := UnusedRead(address);
        }
      case BankedRegion =>
        RequestBusAccess();
        var eff := EffectiveAddress(zbank, address);
        EffectiveIn68kSpace(zbank, address);
        var i := BankEntryIndex(eff);
        if bankMap(i).hasRead {
          v := dev.read(BankHandlerRead(i, eff));
        } else {
          v := dev.read(M68kRead(i, BankOffset(eff)));
        }
    }

    /**
     * z80_memory_w: the RAM and the device calls are those the decoder
     * names; accesses from 7F00 up first arbitrate for the 68k bus.
     */
    method MemoryWrite(address: bv16, data: bv8) returns (events: seq<DeviceWrite>)
      requires Valid()
      modifies this`z80Cycles, this`m68kCycles, this`zstate, zram
      ensures Valid()
      ensures zram[..] == MemWrite(old(View()), address, data).ram
      ensures events == MemWrite(old(View()), address, data).events
      ensures CrossesBus(address) ==> TimingView() == Arbitrate(old(TimingView()), dma)
      ensures !CrossesBus(address) ==> TimingView() == old(TimingView())
    {
      match RegionOf(address)
      case RamRegion =>
        zram[RamIndex(address)] := data;
        events := [];
      case FmRegion =>
        events := [FmWrite(z80Cycles, address & 3, data)];
      case WindowRegion =>
        if (address >> 8) == 0x60 {
          events := [BankSelect(data & 1)];
        } else if (address >> 8) == 0x7F {
          RequestBusAccess();
          events := [BankHandlerWrite(0xC0, address as bv32, data)];
        } else {
          events := UnusedWrite(address, data);
        }
      case BankedRegion =>
        RequestBusAccess();
        var eff := EffectiveAddress(zbank, address);
        EffectiveIn68kSpace(zbank, address);
        var i := BankEntryIndex(eff);
        if bankMap(i).hasWrite {
          events := [BankHandlerWrite(i, eff, data)];
        } else {
          events := [M68kWrite(i, BankOffset(eff), data)];
        }
    }

    /**
     * The installed port write handler: the device calls of the variant's
     * decoder, the audio control byte latched into io_reg[6], and the wait
     * cycles added to the Z80 counter (modulo 2^32).
     */
    method PortWrite(variant: Variant, port: bv16, data: bv8) returns (events: seq<DeviceWrite>)
      requires Valid()
      modifies this`z80Cycles, ioReg
      ensures Valid()
      ensures var e := PortWriteEffect(variant, old(PortCtx()), port, data);
        events == e.events && z80Cycles == Add32(old(z80Cycles), e.wait) &&
        (e.audioLatch.Some? ==> ioReg[..] == old(ioReg[..])[0x06 := e.audioLatch.value]) &&
        (e.audioLatch.None? ==> ioReg[..] == old(ioReg[..]))
    {
      var e := PortWriteEffect(variant, PortCtx(), port, data);
      if e.audioLatch.Some? {
        ioReg[0x06] := e.audioLatch.value;
      }
      z80Cycles := Add32(z80Cycles, e.wait);
      events := e.events;
    }

    /**
     * The installed port read handler: the byte the variant's decoder names,
     * answered by `dev`. In terms of the bus's own fields: the Japanese
     * audio control register reads back the two low bits of io_reg[6], the
     * controller ports of the Master System and the Mark III read the open
     * bus, and the VDP data port reads the VDP on every machine.
     */
    method PortRead(variant: Variant, port: bv16, dev: Devices) returns (v: bv8)
      requires Valid()
      ensures v == Resolve(PortReadSource(variant, PortCtx(), port), dev)
      ensures variant == MasterSystem && region == RegionJapanNtsc && LowByte(port) == 0xF2 ==>
        v == ioReg[0x06] & 3
      ensures (variant == MasterSystem || variant == MarkIII) && BucketOf(port) == Controller && hw == SystemSms ==>
        v == dev.read(CodeByte((pc as int - 1) % 0x10000))
      ensures (variant == MasterSystem || variant == MarkIII) && BucketOf(port) == Controller && hw != SystemSms ==>
        v == 0xFF
      ensures variant == GameGear && hw == SystemSms && BucketOf(port) == Extension && !IsIoPort(LowByte(port)) ==>
        v == dev.read(CodeByte((pc as int - 1) % 0x10000))
      ensures variant == GameGear && hw != SystemSms && BucketOf(port) == Extension && !IsIoPort(LowByte(port)) ==>
        v == 0xFF
      ensures variant == Sg1000 && BucketOf(port) == Extension ==> v == dev.read(IoRead(Parity(port)))
      ensures BucketOf(port) == VdpDataPort ==> v == dev.read(VdpDataRead)
    {
      BucketBySelect(port);
      var src := PortReadSource(variant, PortCtx(), port);
      v := Resolve(src, dev);
    }

    /**
     * A write to the audio control register of a Japanese Master System with
     * FM enabled, then a read of it: the read gives the two mute-control bits
     * of the byte written.
     */
    method AudioControlReadBack(port: bv16, data: bv8, dev: Devices) returns (v: bv8)
      requires Valid()
      requires region == RegionJapanNtsc && (cfg.ym2413 & 1) == 1 && LowByte(port) == 0xF2
      modifies this`z80Cycles, ioReg
      ensures Valid()
      ensures v == data & 3
      ensures ioReg[..] == old(ioReg[..])[0x06 := data] && z80Cycles == old(z80Cycles)
    {
      MsPorts.MsAudioControlWrite(PortCtx(), port, data);
      var events := PortWrite(MasterSystem, port, data);
      v := PortRead(MasterSystem, port, dev);
    }
  }
}
