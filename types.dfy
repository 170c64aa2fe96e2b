/**
 * Words, device requests and shared values of the Z80 bus handlers
 * (core/memz80.c).
 *
 * The devices the handlers forward to (the YM2612 / YM2413 FM chips, the
 * SN76489 PSG, the VDP, the I/O chips, the 68k memory map and the Z80 read
 * map) are not part of this model. A write to one of them is a
 * `DeviceWrite` value the handler emits; a read from one of them is a
 * `DeviceRead` request, and the byte it yields is supplied by the caller
 * through a `Devices` value.
 */
module BusTypes {

  /** An `unsigned int` cycle counter of the C source: 32 bits, wrapping. */
  type u32 = x: int | 0 <= x < 0x1_0000_0000

  /** The value a lockup writes into the Z80 cycle counter: the scheduler never reaches it. */
  const Halted: u32 := 0xFFFF_FFFF

  /** Unsigned 32-bit addition, as `a + b` on `unsigned int` in C. */
  function Add32(a: u32, b: nat): u32 { (a + b) % 0x1_0000_0000 }

  /** Unsigned 32-bit subtraction, as `a - b` on `unsigned int` in C. */
  function Sub32(a: u32, b: nat): u32 { (a - b) % 0x1_0000_0000 }

  /** Going back `b` cycles and forward `b` again returns to the same count, across wrap-around. */
  lemma SubThenAdd(a: u32, b: nat)
    ensures Add32(Sub32(a, b), b) == a
  {
  }

  datatype Option<+T> = None | Some(value: T)

  /** `system_hw`: this file only ever compares it with SYSTEM_SMS and SYSTEM_GG. */
  datatype SystemHw = SystemSms | SystemGg | OtherHardware

  /** `region_code`: this file only ever compares it with REGION_JAPAN_NTSC. */
  datatype Region = RegionJapanNtsc | OtherRegion

  /** The cycle counters and run state that the arbitration and lockup handlers update. */
  datatype Timing = Timing(z80: u32, m68k: u32, zstate: bv8)

  /** Which timing offset an I/O controller write is stamped with (the constants live outside this file). */
  datatype IoTiming = PbcOffset | SmsOffset

  /** Which VDP control-port handler a write goes to: vdp_z80_ctrl_w, vdp_sms_ctrl_w or vdp_tms_ctrl_w. */
  datatype VdpCtrlKind = Z80Ctrl | SmsCtrl | TmsCtrl

  /** A call from a bus handler into a device. */
  datatype DeviceWrite =
    | IoWrite(index: bv16, data: bv8, cycle: u32, timing: IoTiming) // io_z80_write(index, data, cycle + timing offset)
    | GgIoWrite(port: bv16, data: bv8)                              // io_gg_write(port, data)
    | PsgWrite(cycle: u32, data: bv8)                               // psg_write(cycle, data)
    | PsgConfig(cycle: u32, preamp: nat, mask: bv8)                 // psg_config(cycle, preamp, mask)
    | FmWrite(cycle: u32, reg: bv16, data: bv8)                     // fm_write(cycle, reg, data)
    | VdpDataWrite(data: bv8)                                       // vdp_z80_data_w(data)
    | VdpCtrlWrite(kind: VdpCtrlKind, data: bv8)                    // vdp_*_ctrl_w(data)
    | BankSelect(bit: bv8)                                          // gen_zbank_w(bit)
    | BankHandlerWrite(entry: bv8, address: bv32, data: bv8)        // zbank_memory_map[entry].write(address, data)
    | M68kWrite(entry: bv8, offset: bv32, data: bv8)                // WRITE_BYTE(m68k.memory_map[entry].base, offset, data)

  /** A byte read from a device. */
  datatype DeviceRead =
    | FmRead(cycle: u32, reg: bv16)             // fm_read(cycle, reg)
    | VdpDataRead                               // vdp_z80_data_r()
    | VdpCtrlRead(cycle: u32)                   // vdp_z80_ctrl_r(cycle)
    | IoRead(index: bv16)                       // io_z80_read(index)
    | GgIoRead(port: bv16)                      // io_gg_read(port)
    | CodeByte(at: nat)                         // z80_readmap[at >> 10][at & 0x3FF]
    | BankHandlerRead(entry: bv8, address: bv32) // zbank_memory_map[entry].read(address)
    | M68kRead(entry: bv8, offset: bv32)        // READ_BYTE(m68k.memory_map[entry].base, offset)

  /** Where the byte of a read comes from. */
  datatype ReadSource =
    | Const(value: bv8)
    | Device(query: DeviceRead)
    | HvcHigh(cycle: u32)   // (vdp_hvc_r(cycle) >> 8) & 0xFF
    | HvcLow(cycle: u32)    // vdp_hvc_r(cycle) & 0xFF
    | Combined(fm: Option<DeviceRead>, io: Option<DeviceRead>) // 0xFF, replaced by fm, then AND-ed with io

  /** The answers the devices give: one byte per read request, and the H-V counter per cycle. */
  datatype Devices = Devices(read: DeviceRead -> bv8, hvc: u32 -> bv32)

  /** The byte a read yields once the devices have answered. */
  function Resolve(src: ReadSource, dev: Devices): bv8
  {
    match src
    case Const(v) => v
    case Device(q) => dev.read(q)
    case HvcHigh(c) => ((dev.hvc(c) >> 8) & 0xFF) as bv8
    case HvcLow(c) => (dev.hvc(c) & 0xFF) as bv8
    case Combined(fm, io) =>
      (if fm.Some? then dev.read(fm.value) else 0xFF) & (if io.Some? then dev.read(io.value) else 0xFF)
  }

  /**
   * What a port write does: the device calls it makes, in order, a byte it
   * latches into `io_reg[6]`, and the cycles it adds to the Z80 counter.
   */
  datatype WriteEffect = WriteEffect(events: seq<DeviceWrite>, audioLatch: Option<bv8>, wait: nat)

  /** A port write that makes exactly one device call and nothing else. */
  function Emit(e: DeviceWrite): WriteEffect { WriteEffect([e], None, 0) }
}
