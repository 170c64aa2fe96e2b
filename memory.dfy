/**
 * The Z80 memory decoder of Mega Drive mode: z80_memory_r and z80_memory_w
 * (core/memz80.c, lines 120-226), as functions of the memory state seen by
 * one access. The arbitration that some accesses run first is stated in
 * `CrossesBus` and applied by the bus object (module Z80Bus).
 */
module Z80Memory {
  import opened BusTypes
  import opened Faults

  /** The four cases of `switch ((address >> 13) & 7)`. */
  datatype MemRegion = RamRegion | FmRegion | WindowRegion | BankedRegion

  function RegionOf(address: bv16): MemRegion
  {
    var r := (address >> 13) & 7;
    if r == 0 || r == 1 then RamRegion
    else if r == 2 then FmRegion
    else if r == 3 then WindowRegion
    else BankedRegion
  }

  /** The regions are the address ranges 0000-3FFF, 4000-5FFF, 6000-7FFF and 8000-FFFF. */
  lemma RegionByRange(address: bv16)
    ensures RegionOf(address) == RamRegion <==> address < 0x4000
    ensures RegionOf(address) == FmRegion <==> 0x4000 <= address < 0x6000
    ensures RegionOf(address) == WindowRegion <==> 0x6000 <= address < 0x8000
    ensures RegionOf(address) == BankedRegion <==> 0x8000 <= address
  {
  }

  /** The cell of the 8 KB Z80 RAM an address in 0000-3FFF selects: the RAM is mirrored twice. */
  function RamIndex(address: bv16): (i: nat)
    ensures i < 0x2000
    ensures address < 0x2000 ==> i == address as int
  {
    (address & 0x1FFF) as int
  }

  /** Whether `zbank_memory_map[i].read` and `.write` are set (else the 68k memory is read directly). */
  datatype BankEntry = BankEntry(hasRead: bool, hasWrite: bool)

  /**
   * What one access sees: zram, zbank, the 256-entry bank handler table
   * (indexed by the top byte of a 68k address) and the Z80 cycle counter.
   */
  datatype MemView = MemView(ram: seq<bv8>, zbank: bv32, bankMap: bv8 -> BankEntry, cycles: u32)

  /** A bank register value: a 24-bit address whose low 15 bits are zero. */
  predicate ValidBank(zbank: bv32)
  {
    zbank & 0x7FFF == 0 && zbank < 0x100_0000
  }

  predicate ValidView(v: MemView)
  {
    |v.ram| == 0x2000 && ValidBank(v.zbank)
  }

  /** The 68k address of a Z80 access to the banked window: `zbank | (address & 0x7FFF)`. */
  function EffectiveAddress(zbank: bv32, address: bv16): bv32
  {
    zbank | ((address as bv32) & 0x7FFF)
  }

  lemma EffectiveLowBits(zbank: bv32, address: bv16)
    requires zbank & 0x7FFF == 0
    ensures EffectiveAddress(zbank, address) & 0x7FFF == (address as bv32) & 0x7FFF
  {
  }

  lemma EffectiveHighBits(zbank: bv32, address: bv16)
    requires zbank & 0x7FFF == 0
    ensures EffectiveAddress(zbank, address) & 0xFFFF_8000 == zbank
  {
  }

  lemma EffectiveIn68kSpace(zbank: bv32, address: bv16)
    requires zbank < 0x100_0000
    ensures EffectiveAddress(zbank, address) < 0x100_0000
  {
  }

  /** The bank table entry of a 24-bit address: its top byte, `address >> 16`. */
  function BankEntryIndex(eff: bv32): bv8
    requires eff < 0x100_0000
  {
    (eff >> 16) as bv8
  }

  /** The offset inside a 64 KB bank of the 68k memory map: `address & 0xFFFF`. */
  function BankOffset(eff: bv32): bv32
  {
    eff & 0xFFFF
  }

  /** The accesses that run z80_request_68k_bus_access first: the VDP window and the 68k bank. */
  predicate CrossesBus(address: bv16)
  {
    RegionOf(address) == BankedRegion || (RegionOf(address) == WindowRegion && (address >> 8) == 0x7F)
  }

  /** Every address from 7F00 up, and no other, reaches the 68k bus. */
  lemma CrossesBusRange(address: bv16)
    ensures CrossesBus(address) <==> address >= 0x7F00
  {
  }

  /** z80_memory_r: where the byte read at `address` comes from. */
  function MemReadSource(v: MemView, address: bv16): (r: ReadSource)
    requires ValidView(v)
    ensures CrossesBus(address) ==> r.Device? && (r.query.BankHandlerRead? || r.query.M68kRead?)
    ensures !CrossesBus(address) ==> !(r.Device? && (r.query.BankHandlerRead? || r.query.M68kRead?))
  {
    match RegionOf(address)
    case RamRegion => Const(v.ram[RamIndex(address)])
    case FmRegion => Device(FmRead(v.cycles, address & 3))
    case WindowRegion =>
      if (address >> 8) == 0x7F then Device(BankHandlerRead(0xC0, address as bv32))
      else Const(UnusedRead(address))
    case BankedRegion =>
      var eff := EffectiveAddress(v.zbank, address);
      EffectiveIn68kSpace(v.zbank, address);
      var i := BankEntryIndex(eff);
      if v.bankMap(i).hasRead then Device(BankHandlerRead(i, eff))
      else Device(M68kRead(i, BankOffset(eff)))
  }

  /** The RAM after a write, and the device calls the write makes. */
  datatype MemWriteResult = MemWriteResult(ram: seq<bv8>, events: seq<DeviceWrite>)

  /** z80_memory_w: a write of `data` at `address`. */
  function MemWrite(v: MemView, address: bv16, data: bv8): (r: MemWriteResult)
    requires ValidView(v)
    ensures |r.ram| == |v.ram|
    ensures CrossesBus(address) ==>
      r.ram == v.ram && |r.events| == 1 && (r.events[0].BankHandlerWrite? || r.events[0].M68kWrite?)
  {
    match RegionOf(address)
    case RamRegion => MemWriteResult(v.ram[RamIndex(address) := data], [])
    case FmRegion => MemWriteResult(v.ram, [FmWrite(v.cycles, address & 3, data)])
    case WindowRegion =>
      if (address >> 8) == 0x60 then MemWriteResult(v.ram, [BankSelect(data & 1)])
      else if (address >> 8) == 0x7F then MemWriteResult(v.ram, [BankHandlerWrite(0xC0, address as bv32, data)])
      else MemWriteResult(v.ram, UnusedWrite(address, data))
    case BankedRegion =>
      var eff := EffectiveAddress(v.zbank, address);
      EffectiveIn68kSpace(v.zbank, address);
      var i := BankEntryIndex(eff);
      if v.bankMap(i).hasWrite then MemWriteResult(v.ram, [BankHandlerWrite(i, eff, data)])
      else MemWriteResult(v.ram, [M68kWrite(i, BankOffset(eff), data)])
  }

  /** A read of 0000-3FFF returns the RAM cell `address & 0x1FFF`, without arbitration. */
  lemma RamRead(v: MemView, a: bv16)
    requires ValidView(v) && a < 0x4000
    ensures MemReadSource(v, a) == Const(v.ram[RamIndex(a)])
    ensures !CrossesBus(a)
  {
    RegionByRange(a);
  }

  /**
   * A RAM write followed by a read at any address with the same low 13 bits
   * (its own or its mirror) returns the written byte; the write makes no
   * device call and changes no other RAM cell.
   */
  lemma RamWriteThenRead(v: MemView, a: bv16, b: bv16, data: bv8)
    requires ValidView(v)
    requires a < 0x4000 && b < 0x4000 && (a & 0x1FFF) == (b & 0x1FFF)
    ensures MemWrite(v, a, data).events == []
    ensures MemReadSource(v.(ram := MemWrite(v, a, data).ram), b) == Const(data)
    ensures forall i :: 0 <= i < 0x2000 && i != RamIndex(a) ==> MemWrite(v, a, data).ram[i] == v.ram[i]
  {
    RegionByRange(a);
    RegionByRange(b);
  }

  /** Writes outside 0000-3FFF leave the Z80 RAM unchanged, and every write makes at most one device call. */
  lemma WriteOutsideRamKeepsRam(v: MemView, a: bv16, data: bv8)
    requires ValidView(v)
    ensures a >= 0x4000 ==> MemWrite(v, a, data).ram == v.ram
    ensures |MemWrite(v, a, data).ram| == 0x2000
    ensures |MemWrite(v, a, data).events| <= 1
  {
    RegionByRange(a);
  }

  /** FM chip accesses (4000-5FFF) reach register `address & 3` at the current Z80 cycle. */
  lemma FmAccess(v: MemView, a: bv16, data: bv8)
    requires ValidView(v)
    requires 0x4000 <= a < 0x6000
    ensures MemReadSource(v, a) == Device(FmRead(v.cycles, a & 3))
    ensures MemWrite(v, a, data).events == [FmWrite(v.cycles, a & 3, data)]
    ensures !CrossesBus(a)
  {
    RegionByRange(a);
  }

  /**
   * Reads from 8000 up go to the 68k address `eff = zbank | (a & 0x7FFF)`
   * through bank table entry `eff >> 16`: its read handler if it has one,
   * else the 68k memory at `eff & 0xFFFF`.
   */
  lemma BankedRead(v: MemView, a: bv16)
    requires ValidView(v)
    requires a >= 0x8000
    ensures CrossesBus(a)
    ensures var eff := EffectiveAddress(v.zbank, a);
      && eff < 0x100_0000
      && (v.bankMap(BankEntryIndex(eff)).hasRead ==>
            MemReadSource(v, a) == Device(BankHandlerRead(BankEntryIndex(eff), eff)))
      && (!v.bankMap(BankEntryIndex(eff)).hasRead ==>
            MemReadSource(v, a) == Device(M68kRead(BankEntryIndex(eff), BankOffset(eff))))
  {
    RegionByRange(a);
    EffectiveIn68kSpace(v.zbank, a);
  }

  /** Writes from 8000 up go the same way, to the write handler or the 68k memory, and leave the RAM alone. */
  lemma BankedWrite(v: MemView, a: bv16, data: bv8)
    requires ValidView(v)
    requires a >= 0x8000
    ensures CrossesBus(a)
    ensures MemWrite(v, a, data).ram == v.ram
    ensures var eff := EffectiveAddress(v.zbank, a);
      && eff < 0x100_0000
      && (v.bankMap(BankEntryIndex(eff)).hasWrite ==>
            MemWrite(v, a, data).events == [BankHandlerWrite(BankEntryIndex(eff), eff, data)])
      && (!v.bankMap(BankEntryIndex(eff)).hasWrite ==>
            MemWrite(v, a, data).events == [M68kWrite(BankEntryIndex(eff), BankOffset(eff), data)])
  {
    RegionByRange(a);
    EffectiveIn68kSpace(v.zbank, a);
  }

  /** 7F00-7FFF arbitrates and then uses bank table entry C0 (the VDP) with the Z80 address unchanged. */
  lemma VdpWindowAccess(v: MemView, a: bv16, data: bv8)
    requires ValidView(v)
    requires 0x7F00 <= a < 0x8000
    ensures CrossesBus(a)
    ensures MemReadSource(v, a) == Device(BankHandlerRead(0xC0, a as bv32))
    ensures MemWrite(v, a, data) == MemWriteResult(v.ram, [BankHandlerWrite(0xC0, a as bv32, data)])
  {
    RegionByRange(a);
  }

  /**
   * The rest of 6000-7FFF does not arbitrate and reads 0xFF; a write to
   * 6000-60FF passes `data & 1` to the bank register, other writes do nothing.
   */
  lemma WindowOutsideVdp(v: MemView, a: bv16, data: bv8)
    requires ValidView(v)
    requires 0x6000 <= a < 0x7F00
    ensures !CrossesBus(a)
    ensures MemReadSource(v, a) == Const(0xFF)
    ensures a < 0x6100 ==> MemWrite(v, a, data) == MemWriteResult(v.ram, [BankSelect(data & 1)])
    ensures a >= 0x6100 ==> MemWrite(v, a, data) == MemWriteResult(v.ram, [])
  {
    RegionByRange(a);
  }

  /** One Z80 memory write: an address and a byte. */
  datatype Access = Access(address: bv16, data: bv8)

  /** The Z80 RAM after a series of memory writes, applied in order. */
  function RamAfter(v: MemView, ws: seq<Access>): (ram: seq<bv8>)
    requires ValidView(v)
    ensures |ram| == 0x2000
    decreases |ws|
  {
    if ws == [] then v.ram
    else
      var w := MemWrite(v, ws[0].address, ws[0].data);
      WriteOutsideRamKeepsRam(v, ws[0].address, ws[0].data);
      RamAfter(v.(ram := w.ram), ws[1..])
  }

  /** The byte last written to RAM cell `i` in `ws` through any of its mirrors, else `init`. */
  function LastWritten(ws: seq<Access>, i: nat, init: bv8): bv8
    decreases |ws|
  {
    if ws == [] then init
    else
      var a := ws[0].address;
      LastWritten(ws[1..], i, if a < 0x4000 && RamIndex(a) == i then ws[0].data else init)
  }

  /**
   * After any series of writes, each RAM cell holds the byte last written to
   * it through either mirror, or its old byte if no write reached it; writes
   * to the FM chip, the bank register, the VDP or the 68k bank do not touch it.
   */
  lemma {:induction false} RamAfterWrites(v: MemView, ws: seq<Access>, i: nat)
    requires ValidView(v)
    requires i < 0x2000
    ensures RamAfter(v, ws)[i] == LastWritten(ws, i, v.ram[i])
    decreases |ws|
  {
    if ws != [] {
      var a := ws[0].address;
      var w := MemWrite(v, a, ws[0].data);
      WriteOutsideRamKeepsRam(v, a, ws[0].data);
      RegionByRange(a);
      var v' := v.(ram := w.ram);
      RamAfterWrites(v', ws[1..], i);
      assert w.ram[i] == (if a < 0x4000 && RamIndex(a) == i then ws[0].data else v.ram[i]);
    }
  }
}
