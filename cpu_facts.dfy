/** What the 6502 model of module CpuModel promises: the stack and status register round trips,
    the page-bound indirect read, the stall, the interrupts, reset, the OAM DMA and the bus. */
module CpuFacts {
  import opened Wrappers
  import opened Bits
  import opened Common
  import opened CpuModel
  import CpuRam
  import Mappers
  import PpuModel
  import PpuFacts
  import opened CommonFacts

  // ---------------------------------------------------------------------------------------
  // The stack

  /** JavaScript's `>> 8` on a non-negative 32-bit integer is a division by 256. */
  lemma ShiftRight8OfNat(value: int)
    requires 0 <= value < 0x8000_0000
    ensures ShiftRight8(value) == value / 256
  {
  }

  /** A pull after a push returns the byte the stack page kept and puts `sp` back. */
  lemma PushThenPull(m: Machine, value: int)
    requires BusOk(m.bus)
    ensures var (r, pulled) := Pull8(Push8(m, value));
      && pulled == ToUint8(value) && r.core == m.core
      && r.bus == m.bus.(ram := m.bus.ram.(stack := m.bus.ram.stack[m.core.regs.sp := ToUint8(value)]))
  {
    var sp: int := m.core.regs.sp;
    assert ((sp - 1) % 256 + 1) % 256 == sp;
  }

  /** `stackPush16` then `stackPull16` returns the low 16 bits of the pushed value and puts `sp`
      back; the high byte sits at `sp`, the low byte just below it. */
  lemma Push16ThenPull16(m: Machine, value: int)
    requires BusOk(m.bus) && 0 <= value < 0x8000_0000
    ensures var (r, pulled) := Pull16(Push16(m, value));
      var sp: int := m.core.regs.sp;
      && pulled == value % 0x10000 && r.core == m.core
      && r.bus.ram.stack == m.bus.ram.stack[sp := value / 256 % 256][(sp - 1) % 256 := value % 256]
  {
    var sp: int := m.core.regs.sp;
    Push16Layout(m, value);
    var pushed := Push16(m, value);
    Pull16Layout(pushed);
    SpSteps(sp);
    PpuFacts.Layer(value, 256, 256);
  }

  /** Wrap-around steps of the stack pointer within its page. */
  lemma SpSteps(sp: int)
    requires 0 <= sp < 256
    ensures ((sp - 1) % 256 - 1) % 256 == (sp - 2) % 256 && ((sp - 2) % 256 - 1) % 256 == (sp - 3) % 256
    ensures ((sp - 2) % 256 + 1) % 256 == (sp - 1) % 256 && ((sp - 2) % 256 + 2) % 256 == sp
    ensures ((sp - 1) % 256 + 1) % 256 == sp
    ensures ((sp - 3) % 256 + 1) % 256 == (sp - 2) % 256 && ((sp - 3) % 256 + 2) % 256 == (sp - 1) % 256
    ensures ((sp - 3) % 256 + 3) % 256 == sp
    ensures (sp - 1) % 256 != sp && (sp - 2) % 256 != sp && (sp - 2) % 256 != (sp - 1) % 256
  {
  }

  /** Where `stackPush16` leaves the two bytes of a non-negative 32-bit value. */
  lemma Push16Layout(m: Machine, value: int)
    requires BusOk(m.bus) && 0 <= value < 0x8000_0000
    ensures var r := Push16(m, value);
      var sp: int := m.core.regs.sp;
      var stack := m.bus.ram.stack;
      && r.core == m.core.(regs := m.core.regs.(sp := (sp - 2) % 256))
      && r.bus == m.bus.(ram := m.bus.ram.(stack := stack[sp := value / 256 % 256][(sp - 1) % 256 := value % 256]))
  {
    ShiftRight8OfNat(value);
    SpSteps(m.core.regs.sp);
  }

  /** What `stackPull16` reads: the two bytes above `sp`, the lower one first. */
  lemma Pull16Layout(m: Machine)
    requires BusOk(m.bus)
    ensures var sp: int := m.core.regs.sp;
      Pull16(m) == (m.(core := m.core.(regs := m.core.regs.(sp := (sp + 2) % 256))),
                    m.bus.ram.stack[(sp + 1) % 256] as int + 256 * (m.bus.ram.stack[(sp + 2) % 256] as int))
  {
    var sp: int := m.core.regs.sp;
    assert ((sp + 1) % 256 + 1) % 256 == (sp + 2) % 256;
  }

  /** JSR pushes the address of its own last byte (the advanced `pc` minus one) and RTS pulls it
      and adds one: the return lands on the byte after the JSR, with `sp` back in place. */
  lemma JsrThenRts(m: Machine, target: int)
    requires BusOk(m.bus) && 1 <= m.core.regs.pc <= 0x10000
    ensures var r := PullOp(Rts, PushOp(Jsr, m, target));
      r.core == m.core && r.bus.ram.zp == m.bus.ram.zp && r.bus.ram.ram == m.bus.ram.ram
  {
    var pc := m.core.regs.pc;
    var sp: int := m.core.regs.sp;
    var pushed := Push16(m, pc - 1);
    Push16Layout(m, pc - 1);
    var jumped := pushed.(core := pushed.core.(regs := pushed.core.regs.(pc := Wrap16(target))));
    assert PushOp(Jsr, m, target) == jumped;
    Pull16Layout(jumped);
    SpSteps(sp);
    var stack := jumped.bus.ram.stack;
    assert stack[(sp - 1) % 256] == (pc - 1) % 256 && stack[sp] == (pc - 1) / 256 % 256;
    SplitWord(pc - 1);
  }

  // ---------------------------------------------------------------------------------------
  // The status register

  /** `setFlags(getFlags())` changes nothing; `getFlags` keeps bit 4 clear and bit 5 set. */
  lemma FlagsRoundTrip(f: Flags)
    ensures FlagsOf(FlagsByte(f)) == f
    ensures FlagsByte(f) / 16 % 2 == 0 && FlagsByte(f) / 32 % 2 == 1
  {
    FlagsLayout(f, 0);
  }

  /** The status byte with bit 4 set to `b4` holds the six flags where `setFlags` looks. */
  lemma FlagsLayout(f: Flags, b4: bit)
    ensures var x := FlagsByte(f) + 16 * b4;
      FlagsOf(x) == f && x / 16 % 2 == b4 && x / 32 % 2 == 1
  {
    var x := FlagsByte(f) + 16 * b4;
    var c: int, z: int, i: int, d: int, v: int, n: int := f.c, f.z, f.i, f.d, f.v, f.n;
    Digit(x, 1, 0, c, z + 2 * i + 4 * d + 8 * b4 + 16 + 32 * v + 64 * n);
    Digit(x, 2, c, z, i + 2 * d + 4 * b4 + 8 + 16 * v + 32 * n);
    Digit(x, 4, c + 2 * z, i, d + 2 * b4 + 4 + 8 * v + 16 * n);
    Digit(x, 8, c + 2 * z + 4 * i, d, b4 + 2 + 4 * v + 8 * n);
    Digit(x, 16, c + 2 * z + 4 * i + 8 * d, b4, 1 + 2 * v + 4 * n);
    Digit(x, 32, c + 2 * z + 4 * i + 8 * d + 16 * b4, 1, v + 2 * n);
    Digit(x, 64, c + 2 * z + 4 * i + 8 * d + 16 * b4 + 32, v, n);
    Digit(x, 128, c + 2 * z + 4 * i + 8 * d + 16 * b4 + 32 + 64 * v, n, 0);
  }

  /** Bit `b` at weight `p` of a number laid out as `lo + p * b + 2p * hi`. */
  lemma Digit(x: nat, p: nat, lo: nat, b: bit, hi: nat)
    requires lo < p && x == lo + p * b + 2 * p * hi
    ensures x / p % 2 == b
  {
    assert x == p * (b + 2 * hi) + lo;
    PpuFacts.Euclid(p, b + 2 * hi, lo);
    PpuFacts.Euclid(2, hi, b);
  }

  /** A byte's bits where PLP and RTI take them apart. */
  lemma ByteDigits(v: byte)
    ensures v % 16 == v % 2 + 2 * (v / 2 % 2) + 4 * (v / 4 % 2) + 8 * (v / 8 % 2)
    ensures v % 32 == v % 16 + 16 * (v / 16 % 2)
    ensures v / 64 * 64 == 64 * (v / 64 % 2) + 128 * (v / 128 % 2)
  {
    assert v % 16 == v % 2 + 2 * (v / 2 % 2) + 4 * (v / 4 % 2) + 8 * (v / 8 % 2) by {
      PpuFacts.Layer(v, 2, 2);
      PpuFacts.Layer(v, 4, 2);
      PpuFacts.Layer(v, 8, 2);
    }
    PpuFacts.Layer(v, 16, 2);
    HighDigits(v);
  }

  /** The top two bits of a byte. */
  lemma HighDigits(v: byte)
    ensures v / 64 * 64 == 64 * (v / 64 % 2) + 128 * (v / 128 % 2)
  {
    var x: int := v;
    PpuFacts.Layer(x, 64, 2);
    assert x == 128 * (x / 128) + x % 128;
    assert x == 64 * (x / 64) + x % 64;
    assert x / 128 < 2;
  }

  /** The masks PLP and RTI apply before `setFlags` touch only bits 4 and 5, which `setFlags`
      ignores: both load exactly the stored flags of the pulled byte, and bit 5 ends up set. */
  lemma PulledFlags(pulled: byte)
    ensures FlagsOf(PlpByte(pulled)) == FlagsOf(pulled) && FlagsOf(RtiByte(pulled)) == FlagsOf(pulled)
    ensures PlpByte(pulled) / 16 % 2 == 0 && PlpByte(pulled) / 32 % 2 == 1 && RtiByte(pulled) / 32 % 2 == 1
  {
    var f := FlagsOf(pulled);
    PulledBytes(pulled);
    FlagsLayout(f, 0);
    FlagsLayout(f, pulled / 16 % 2);
  }

  /** What PLP and RTI keep of a pulled byte is the status byte of the flags it holds, with
      bit 4 clear for PLP and as pulled for RTI. */
  lemma PulledBytes(pulled: byte)
    ensures PlpByte(pulled) == FlagsByte(FlagsOf(pulled))
    ensures RtiByte(pulled) == FlagsByte(FlagsOf(pulled)) + 16 * (pulled / 16 % 2)
  {
    ByteDigits(pulled);
  }

  /** PHP then PLP restores every flag and `sp`. */
  lemma PhpThenPlp(m: Machine)
    requires BusOk(m.bus)
    ensures var r := PullOp(Plp, PushOp(Php, m, 0));
      r.core == m.core
  {
    var f := m.core.flags;
    var pushed := PushOp(Php, m, 0);
    assert pushed == Push8(m, PhpByte(f));
    PushThenPull(m, PhpByte(f));
    var (m1, value) := Pull8(pushed);
    assert value == PhpByte(f);
    PulledFlags(value);
    FlagsLayout(f, 1);
    assert FlagsOf(PlpByte(value)) == f;
    assert PullOp(Plp, pushed) == m1.(core := m1.core.(flags := FlagsOf(PlpByte(value))));
  }

  // ---------------------------------------------------------------------------------------
  // Addressing

  /** The 6502 indirect-read quirk: the high byte comes from the same page as the low byte,
      from the next address when that stays in the page and from the page's first byte when
      the low byte sits at its end. A zero-page pointer never leaves page 0. */
  lemma IndirectStaysInPage(address: nat)
    ensures IndirectHigh(address) / 256 == address % 0x10000 / 256
    ensures address % 256 < 255 ==> IndirectHigh(address) == address % 0x10000 + 1
    ensures address % 256 == 255 ==> IndirectHigh(address) == address % 0x10000 - 255
    ensures address < 256 ==> IndirectHigh(address) < 256
  {
    var a := address % 0x10000;
    PpuFacts.Layer(address, 256, 256);
    assert a == a / 256 * 256 + address % 256;
  }

  /** The RELATIVE target is the address after the two-byte branch moved by the offset byte
      read as a signed number, -128 to 127. */
  lemma RelativeIsSigned(pc: nat, offset: byte)
    ensures var target := RelativeTarget(pc, offset);
      pc + 2 - 128 <= target <= pc + 2 + 127
      && (target - (pc + 2)) % 256 == offset
  {
  }

  // ---------------------------------------------------------------------------------------
  // Stall

  /** `n` calls of `tick`, stopping at the first throw. */
  function Run(m: Machine, n: nat): (r: (Machine, Result<()>))
    requires BusOk(m.bus)
    ensures BusOk(r.0.bus)
    decreases n
  {
    if n == 0 then (m, Ok(()))
    else
      var (m1, e) := Tick(m);
      if e.Err? then (m1, Err(e.fault)) else Run(m1, n - 1)
  }

  /** The cost `stall` adds: 514 on an odd cycle, 513 on an even one, and nothing else changes. */
  lemma StallCost(core: Core)
    ensures Stall(core) == core.(stallCounter := core.stallCounter + 513 + core.cycles % 2)
  {
  }

  /** While the stall lasts, ticks run nothing: `n` ticks of a CPU with at least `n` stall cycles
      left only count the stall down (and clear `b`), each reporting 0 cycles. */
  lemma {:induction false} StallHolds(m: Machine, n: nat)
    requires BusOk(m.bus) && n <= m.core.stallCounter
    ensures Run(m, n) == (m.(core := m.core.(b := if n == 0 then m.core.b else 0,
                                             stallCounter := m.core.stallCounter - n)), Ok(()))
    decreases n
  {
    if n > 0 {
      var m1 := m.(core := m.core.(b := 0, stallCounter := m.core.stallCounter - 1));
      assert Tick(m) == (m1, Ok(0));
      StallHolds(m1, n - 1);
    }
  }

  // ---------------------------------------------------------------------------------------
  // Interrupts

  /** The 16-bit vector at `address`, as the mapper answers for it. */
  function Vector(m: Machine, address: nat): nat
    requires BusOk(m.bus) && 0x6000 <= address
  {
    var mapper := m.bus.ppu.vram.mapper;
    256 * PpuModel.OrZero(Mappers.Read(mapper, address + 1)) + PpuModel.OrZero(Mappers.Read(mapper, address))
  }

  /** A pending NMI on a CPU that is not stalled: the frame is pushed (see `ServiceFrame`),
      `pc` comes from the vector at 0xfffa, `i` is set, 7 cycles pass and the request is
      cleared. */
  lemma NmiService(m: Machine)
    requires BusOk(m.bus) && m.core.stallCounter == 0 && m.core.interrupt == Some(Nmi)
    requires m.core.regs.pc < 0x8000_0000
    ensures var (r, cycles) := Tick(m);
      var sp: int := m.core.regs.sp;
      && cycles.Ok? && cycles.value == 7
      && r.core == m.core.(regs := m.core.regs.(pc := Vector(m, 0xfffa), sp := (sp - 3) % 256),
                           flags := m.core.flags.(i := 1), cycles := m.core.cycles + 7,
                           b := 0, interrupt := None)
  {
    TickInterrupt(m);
    ClearedService(m, 0xfffa);
  }

  /** An IRQ is serviced like an NMI, through the vector at 0xfffe, when `i` is set (the
      emulator's test is `i !== 0`). */
  lemma IrqService(m: Machine)
    requires BusOk(m.bus) && m.core.stallCounter == 0 && m.core.interrupt == Some(Irq) && m.core.flags.i == 1
    requires m.core.regs.pc < 0x8000_0000
    ensures var (r, cycles) := Tick(m);
      var sp: int := m.core.regs.sp;
      && cycles.Ok? && cycles.value == 7
      && r.core == m.core.(regs := m.core.regs.(pc := Vector(m, 0xfffe), sp := (sp - 3) % 256),
                           flags := m.core.flags.(i := 1), cycles := m.core.cycles + 7,
                           b := 0, interrupt := None)
  {
    TickInterrupt(m);
    ClearedService(m, 0xfffe);
  }

  /** An IRQ while `i` is clear is dropped: nothing but the request (and `b`) changes, and the
      tick still reports 7 cycles. */
  lemma IrqDropped(m: Machine)
    requires BusOk(m.bus) && m.core.stallCounter == 0 && m.core.interrupt == Some(Irq) && m.core.flags.i == 0
    ensures Tick(m) == (m.(core := m.core.(b := 0, interrupt := None)), Ok(7))
  {
  }

  /** A tick with no stall left and a request pending only services the request. */
  lemma TickInterrupt(m: Machine)
    requires BusOk(m.bus) && m.core.stallCounter == 0 && m.core.interrupt.Some?
    ensures Tick(m).0 == ServiceInterrupt(Cleared(m)).0
    ensures Tick(m).1.Ok? == ServiceInterrupt(Cleared(m)).1.Ok?
    ensures Tick(m).1.Ok? ==> Tick(m).1.value == 7
  {
  }

  /** Servicing a request once the tick has cleared `b`. */
  lemma ClearedService(m: Machine, vector: nat)
    requires BusOk(m.bus) && m.core.regs.pc < 0x8000_0000
    requires (m.core.interrupt == Some(Nmi) && vector == 0xfffa) || (m.core.interrupt == Some(Irq) && m.core.flags.i != 0 && vector == 0xfffe)
    ensures var (r, e) := ServiceInterrupt(Cleared(m));
      var sp: int := m.core.regs.sp;
      && e == Ok(())
      && r.core == m.core.(regs := m.core.regs.(pc := Vector(m, vector), sp := (sp - 3) % 256),
                           flags := m.core.flags.(i := 1), cycles := m.core.cycles + 7,
                           b := 0, interrupt := None)
  {
    ServiceFrame(Cleared(m), vector);
  }

  /** Servicing a request: the frame is pushed, `pc` comes from `vector`, `i` is set, 7 cycles
      are added and the request is cleared. */
  lemma ServiceFrame(m: Machine, vector: nat)
    requires BusOk(m.bus) && m.core.regs.pc < 0x8000_0000
    requires (m.core.interrupt == Some(Nmi) && vector == 0xfffa) || (m.core.interrupt == Some(Irq) && m.core.flags.i != 0 && vector == 0xfffe)
    ensures var (r, e) := ServiceInterrupt(m);
      var sp: int := m.core.regs.sp;
      && e == Ok(())
      && r.core == m.core.(regs := m.core.regs.(pc := Vector(m, vector), sp := (sp - 3) % 256),
                           flags := m.core.flags.(i := 1), cycles := m.core.cycles + 7, interrupt := None)
      && r.bus.ram.stack[sp] == m.core.regs.pc / 256 % 256
      && r.bus.ram.stack[(sp - 1) % 256] == m.core.regs.pc % 256
      && r.bus.ram.stack[(sp - 2) % 256] == FlagsByte(m.core.flags)
  {
    InterruptPushes(m, vector);
  }

  /** The pushes and the vector jump an interrupt performs. */
  lemma InterruptPushes(m: Machine, vector: nat)
    requires BusOk(m.bus) && m.core.regs.pc < 0x8000_0000 && 0x6000 <= vector < 0xffff
    ensures var pushed := Push8(Push16(m, m.core.regs.pc), FlagsByte(m.core.flags));
      var (r, e) := JumpVector(pushed, vector);
      var sp: int := m.core.regs.sp;
      && e == Ok(()) && r.bus == pushed.bus
      && r.core == m.core.(regs := m.core.regs.(pc := Vector(m, vector), sp := (sp - 3) % 256))
      && r.bus.ram.stack[sp] == m.core.regs.pc / 256 % 256
      && r.bus.ram.stack[(sp - 1) % 256] == m.core.regs.pc % 256
      && r.bus.ram.stack[(sp - 2) % 256] == FlagsByte(m.core.flags)
  {
    var sp: int := m.core.regs.sp;
    var pc := m.core.regs.pc;
    Push16Layout(m, pc);
    SpSteps(sp);
    var pushed := Push16(m, pc);
    assert Push8(pushed, FlagsByte(m.core.flags)).core.regs.sp == (sp - 3) % 256;
  }

  // ---------------------------------------------------------------------------------------
  // Reset

  /** `reset` zeroes A, X, Y, the cycle counter and the stall, drops a pending interrupt, sets
      `sp` to 0xfd and only the `i` flag, and loads `pc` from the reset vector at 0xfffc. The
      bus is left as it was. */
  lemma ResetState(m: Machine)
    requires BusOk(m.bus)
    ensures var r := Reset(m);
      && r.bus == m.bus
      && r.core == m.core.(regs := Registers(0, 0, 0, Vector(m, 0xfffc), 0xfd), flags := Flags(0, 0, 1, 0, 0, 0),
                           cycles := 0, interrupt := None, stallCounter := 0)
  {
  }

  // ---------------------------------------------------------------------------------------
  // The bus

  /** A byte written to work RAM through the bus is read back through the bus at the same
      address and at every mirror of it below 0x2000. */
  lemma RamThroughBus(bus: Bus, address: nat, k: nat, value: byte)
    requires BusOk(bus) && address + CpuRam.MIRROR_SIZE * k < 0x2000
    ensures BusRead(BusWrite(bus, address, value), address + CpuRam.MIRROR_SIZE * k).1 == Ok(Some(value))
  {
    CpuRam.ReadBackThroughMirrors(bus.ram, address, k, value);
  }

  /** The eight PPU registers repeat every eight bytes up to 0x4000, for reads and writes. */
  lemma PpuRegisterMirrors(bus: Bus, address: nat, value: byte)
    requires BusOk(bus) && 0x2000 <= address < 0x4000
    ensures BusRead(bus, address) == BusRead(bus, 0x2000 + address % 8)
    ensures BusWrite(bus, address, value) == BusWrite(bus, 0x2000 + address % 8, value)
  {
    assert (0x2000 + address % 8) % 8 == address % 8;
  }

  // ---------------------------------------------------------------------------------------
  // OAM DMA

  /** A work RAM byte as the DMA stores it. */
  function RamByte(ram: CpuRam.RamState, address: int): byte
    requires CpuRam.WellSized(ram)
  {
    PpuModel.OrZero(CpuRam.ReadRam(ram, address))
  }

  /** `after` is `before` with `count` RAM bytes from `address` on written from index `o` on,
      those past the end dropped. */
  predicate CopiedTo(after: seq<byte>, before: seq<byte>, o: nat, count: nat, ram: CpuRam.RamState, address: nat)
    requires CpuRam.WellSized(ram)
  {
    && |after| == |before|
    && forall j :: 0 <= j < |before| ==>
         after[j] == if o <= j < o + count then RamByte(ram, address + (j - o)) else before[j]
  }

  /** The DMA loop over work RAM copies `count` bytes to OAM from `oamAddress` on, moves
      `oamAddress` on by `count` and changes nothing else. */
  lemma DmaFromRam(bus: Bus, address: nat, count: nat)
    requires BusOk(bus) && address + count <= 0x2000
    ensures var (r, e) := DmaCopy(bus, address, count);
      && e == Ok(()) && r.ram == bus.ram && r.pad == bus.pad && r.apuStatus == bus.apuStatus
      && r.ppu == bus.ppu.(vram := bus.ppu.vram.(oam := r.ppu.vram.oam), oamAddress := bus.ppu.oamAddress + count)
      && CopiedTo(r.ppu.vram.oam, bus.ppu.vram.oam, bus.ppu.oamAddress, count, bus.ram, address)
  {
    DmaIsRamCopy(bus, address, count);
    RamCopyFrame(bus, address, count);
    RamCopyStores(bus, address, count);
  }

  /** The DMA loop over work RAM, without the reads: each byte of RAM stored in turn. */
  ghost function RamCopy(bus: Bus, address: nat, count: nat): (r: Bus)
    requires BusOk(bus)
    ensures BusOk(r) && r.ram == bus.ram && r.pad == bus.pad && r.apuStatus == bus.apuStatus
    decreases count
  {
    if count == 0 then bus
    else RamCopy(DmaStore(bus, RamByte(bus.ram, address)), address + 1, count - 1)
  }

  /** Over work RAM no read fails, so the DMA loop is the plain copy. */
  lemma {:induction false} DmaIsRamCopy(bus: Bus, address: nat, count: nat)
    requires BusOk(bus) && address + count <= 0x2000
    ensures DmaCopy(bus, address, count) == (RamCopy(bus, address, count), Ok(()))
    decreases count
  {
    if count > 0 {
      DmaCopyStep(bus, address, count);
      DmaIsRamCopy(DmaStore(bus, RamByte(bus.ram, address)), address + 1, count - 1);
    }
  }

  /** The plain copy moves `oamAddress` on by `count` and changes nothing else in the PPU
      but OAM. */
  lemma {:induction false} RamCopyFrame(bus: Bus, address: nat, count: nat)
    requires BusOk(bus)
    ensures var r := RamCopy(bus, address, count);
      r.ppu == bus.ppu.(vram := bus.ppu.vram.(oam := r.ppu.vram.oam), oamAddress := bus.ppu.oamAddress + count)
    decreases count
  {
    if count > 0 {
      RamCopyFrame(DmaStore(bus, RamByte(bus.ram, address)), address + 1, count - 1);
    }
  }

  /** The plain copy stores `count` bytes of RAM from `address` on in OAM from `oamAddress` on. */
  lemma {:induction false} RamCopyStores(bus: Bus, address: nat, count: nat)
    requires BusOk(bus)
    ensures var r := RamCopy(bus, address, count);
      CopiedTo(r.ppu.vram.oam, bus.ppu.vram.oam, bus.ppu.oamAddress, count, bus.ram, address)
    decreases count
  {
    if count > 0 {
      var next := DmaStore(bus, RamByte(bus.ram, address));
      RamCopyStores(next, address + 1, count - 1);
      CopiedStep(RamCopy(next, address + 1, count - 1).ppu.vram.oam, bus, address, count);
    }
  }

  /** One turn of the DMA loop over work RAM: the byte is read without side effects and stored. */
  lemma DmaCopyStep(bus: Bus, address: nat, count: nat)
    requires BusOk(bus) && address < 0x2000 && count > 0
    ensures DmaCopy(bus, address, count) == DmaCopy(DmaStore(bus, RamByte(bus.ram, address)), address + 1, count - 1)
  {
    assert BusRead(bus, address) == (bus, Ok(CpuRam.ReadRam(bus.ram, address)));
  }

  /** One turn of the DMA copy: a read, then either the throw or a store and the rest. */
  lemma DmaCopyNext(bus: Bus, address: nat, count: nat)
    requires BusOk(bus) && count > 0
    ensures var (bus1, value) := BusRead(bus, address);
      DmaCopy(bus, address, count) ==
        if value.Err? then (bus1, Err(value.fault))
        else DmaCopy(DmaStore(bus1, PpuModel.OrZero(value.value)), address + 1, count - 1)
  {
  }

  /** One store in front of a copy of the rest is a copy of the whole. */
  lemma CopiedStep(after: seq<byte>, bus: Bus, address: nat, count: nat)
    requires BusOk(bus) && count > 0
    requires var next := DmaStore(bus, RamByte(bus.ram, address));
      CopiedTo(after, next.ppu.vram.oam, next.ppu.oamAddress, count - 1, next.ram, address + 1)
    ensures CopiedTo(after, bus.ppu.vram.oam, bus.ppu.oamAddress, count, bus.ram, address)
  {
  }

  /** A write of a page number below 0x20 to 0x4014 fills OAM from `oamAddress` to its end with
      that page of work RAM, leaves `oamAddress` where it was (saved in `tmpOamAddress`) and
      stalls the CPU; registers, RAM and the rest of the PPU stay as they were. */
  lemma OamDmaFromRam(m: Machine, page: byte)
    requires BusOk(m.bus) && page < 0x20
    ensures var (r, e) := Write(m, 0x4014, page);
      var ppu := m.bus.ppu;
      && e == Ok(()) && r.core == Stall(m.core) && r.bus.ram == m.bus.ram && r.bus.pad == m.bus.pad
      && r.bus.ppu == ppu.(vram := ppu.vram.(oam := r.bus.ppu.vram.oam), tmpOamAddress := ppu.oamAddress)
      && CopiedTo(r.bus.ppu.vram.oam, ppu.vram.oam, ppu.oamAddress, 256, m.bus.ram, page * 256)
  {
    var ppu := m.bus.ppu;
    var bus1 := m.bus.(ppu := ppu.(tmpOamAddress := ppu.oamAddress));
    assert Write(m, 0x4014, page) == OamDma(m, page);
    DmaFromRam(bus1, page * 256, 256);
  }

  // ---------------------------------------------------------------------------------------
  // Instructions

  /** The byte work RAM holds at `address`, which must be below 0x2000. */
  predicate Holds(m: Machine, address: nat, value: byte)
    requires BusOk(m.bus)
  {
    address < 0x2000 && CpuRam.ReadRam(m.bus.ram, address) == Some(value)
  }

  /** A tick that neither waits out a stall nor services an interrupt runs an instruction. */
  predicate Runs(m: Machine)
  {
    m.core.stallCounter == 0 && m.core.interrupt.None?
  }

  /** The machine a tick fetches from: `b` cleared. */
  function Cleared(m: Machine): Machine
  {
    m.(core := m.core.(b := 0))
  }

  /** The machine an opcode handler runs on: `b` cleared, `pc` past the instruction's `size`
      bytes and its base `cycles` added. */
  function Advanced(m: Machine, size: nat, cycles: nat): Machine
  {
    m.(core := m.core.(b := 0, regs := m.core.regs.(pc := m.core.regs.pc + size), cycles := m.core.cycles + cycles))
  }

  /** A tick that runs an instruction clears `b`, steps, and reports the cycles the step added. */
  lemma TickRuns(m: Machine)
    requires BusOk(m.bus) && Runs(m)
    ensures var (r, e) := Step(Cleared(m));
      && Tick(m).0 == r && Tick(m).1.Err? == e.Err?
      && (e.Err? ==> Tick(m).1.fault == e.fault)
      && (e.Ok? ==> Tick(m).1.value == r.core.cycles - m.core.cycles)
  {
  }

  /** `Step` on an opcode byte in work RAM: the byte is read without side effects and decoded. */
  lemma StepFetch(m: Machine, code: byte)
    requires BusOk(m.bus) && Holds(m, m.core.regs.pc, code)
    ensures Step(m) == match Decode(code)
      case Err(fault) => (m, Err(fault))
      case Ok((ins, resolver)) => Perform(m, ins, resolver)
  {
    assert ReadByte(m.bus, m.core.regs.pc) == (m.bus, Ok(code));
  }

  /** An opcode byte with no descriptor throws `Invalid instruction`; the machine is left as it
      was, `b` cleared. */
  lemma UnknownOpcode(m: Machine, code: byte)
    requires BusOk(m.bus) && Runs(m) && Holds(m, m.core.regs.pc, code) && INSTRUCTIONS[code].None?
    ensures Tick(m) == (m.(core := m.core.(b := 0)), Err(InvalidInstruction(code)))
  {
    TickRuns(m);
    StepFetch(m.(core := m.core.(b := 0)), code);
  }

  /** The SLO slots have size 0 and no handler: the tick throws after adding the base cycles
      and leaves `pc` on the same byte, so every later tick throws again. Shown for 0x07. */
  lemma SloStalls(m: Machine)
    requires BusOk(m.bus) && Runs(m) && Holds(m, m.core.regs.pc, 0x07) && m.core.regs.pc + 1 < 0x2000
    ensures var (r, e) := Tick(m);
      && e == Err(NoHandler(SLO)) && r.bus == m.bus
      && r.core == m.core.(b := 0, cycles := m.core.cycles + 5)
  {
    var ins := Instruction(SLO, ZERO_PAGE, 0, 5);
    SloDecodes();
    TickDecoded(m, 0x07, ins, ZeroPageX);
    PrepareZeroPageX(m, ins, RamByte(m.bus.ram, m.core.regs.pc + 1));
    PerformMissing(m, ins, ZeroPageX);
  }

  /** The tick after an SLO throw meets the same opcode on the same machine and throws again. */
  lemma SloRepeats(m: Machine)
    requires BusOk(m.bus) && Runs(m) && Holds(m, m.core.regs.pc, 0x07) && m.core.regs.pc + 1 < 0x2000
    ensures Tick(Tick(m).0).1 == Err(NoHandler(SLO))
    ensures Tick(Tick(m).0).0.core.regs == m.core.regs
  {
    SloStalls(m);
    SloStalls(Tick(m).0);
  }

  /** Opcode 0x07 is SLO: zero-page mode, size 0, 5 cycles, and no handler. The mode table
      has no entry for INDIRECT, so ZERO_PAGE finds the zero-page-X handler. */
  lemma SloDecodes()
    ensures Decode(0x07) == Ok((Instruction(SLO, ZERO_PAGE, 0, 5), ZeroPageX))
    ensures HandlerFor(SLO) == None
  {
    SloDescriptors();
    assert INSTRUCTIONS[0x07] == Some(Instruction(SLO, ZERO_PAGE, 0, 5));
    ResolverTableShift(ZERO_PAGE);
  }

  /** The zero-page-X handler reads the operand byte after the opcode and adds X within the zero
      page; from work RAM that read has no side effect. */
  lemma PrepareZeroPageX(m: Machine, ins: Instruction, operand: byte)
    requires BusOk(m.bus) && Holds(m, m.core.regs.pc + 1, operand)
    ensures Prepare(Cleared(m), ins, ZeroPageX).0 == Advanced(m, ins.size, ins.cycles)
    ensures Prepare(Cleared(m), ins, ZeroPageX).1.Ok?
    ensures Prepare(Cleared(m), ins, ZeroPageX).1.value == (operand + m.core.regs.x) % 256
  {
  }

  /** An opcode with no handler throws after the mode handler and the advance. */
  lemma PerformMissing(m: Machine, ins: Instruction, resolver: Resolver)
    requires BusOk(m.bus) && HandlerFor(ins.opCode).None?
    requires Prepare(Cleared(m), ins, resolver).0 == Advanced(m, ins.size, ins.cycles)
    requires Prepare(Cleared(m), ins, resolver).1.Ok?
    ensures Perform(Cleared(m), ins, resolver) == (Advanced(m, ins.size, ins.cycles), Err(NoHandler(ins.opCode)))
  {
  }

  /** ADC immediate (0x69) adds the operand byte and the carry to A, sets C, V, N and Z from the
      sum, moves `pc` past the two bytes and reports 2 cycles. */
  lemma AdcImmediate(m: Machine, operand: byte)
    requires BusOk(m.bus) && Runs(m) && Holds(m, m.core.regs.pc, 0x69) && Holds(m, m.core.regs.pc + 1, operand)
    ensures var (r, e) := Tick(m);
      var sum := AddWithCarry(m.core.regs.a, operand, m.core.flags.c);
      && e.Ok? && e.value == 2 && r.bus == m.bus
      && r.core == m.core.(regs := m.core.regs.(a := sum.result, pc := m.core.regs.pc + 2),
                           flags := WithNZ(m.core.flags.(c := sum.carry, v := sum.overflow), sum.result),
                           cycles := m.core.cycles + 2, b := 0)
  {
    AdcDecodes();
    TickDecoded(m, 0x69, Instruction(ADC, IMMEDIATE, 2, 2), Immediate);
    AdcPerform(m, operand);
  }

  /** Running the decoded ADC immediate once the tick has cleared `b`. */
  lemma AdcPerform(m: Machine, operand: byte)
    requires BusOk(m.bus) && Holds(m, m.core.regs.pc + 1, operand)
    ensures var (r, e) := Perform(Cleared(m), Instruction(ADC, IMMEDIATE, 2, 2), Immediate);
      var sum := AddWithCarry(m.core.regs.a, operand, m.core.flags.c);
      && e == Ok(()) && r.bus == m.bus
      && r.core == m.core.(regs := m.core.regs.(a := sum.result, pc := m.core.regs.pc + 2),
                           flags := WithNZ(m.core.flags.(c := sum.carry, v := sum.overflow), sum.result),
                           cycles := m.core.cycles + 2, b := 0)
  {
    var ins := Instruction(ADC, IMMEDIATE, 2, 2);
    var m1 := Advanced(m, 2, 2);
    AdcDecodes();
    PrepareImmediate(m, ins);
    PerformOn(m, ins, Immediate, Adc, m.core.regs.pc + 1);
    ReadHeld(m1, m.core.regs.pc + 1, operand);
    ExecuteOperate(Adc, m1, m.core.regs.pc + 1, operand);
  }

  /** Opcode 0x69 is ADC: immediate mode, two bytes, 2 cycles, and the ADC handler. */
  lemma AdcDecodes()
    ensures Decode(0x69) == Ok((Instruction(ADC, IMMEDIATE, 2, 2), Immediate))
    ensures HandlerFor(ADC) == Some(Adc)
  {
    assert INSTRUCTIONS[0x69] == Some(Instruction(ADC, IMMEDIATE, 2, 2));
    HandlerTableShift(ADC);
    ResolverTableShift(IMMEDIATE);
  }

  /** The immediate mode reads nothing: the operand is the byte after the opcode. */
  lemma PrepareImmediate(m: Machine, ins: Instruction)
    requires BusOk(m.bus)
    ensures Prepare(Cleared(m), ins, Immediate).0 == Advanced(m, ins.size, ins.cycles)
    ensures Prepare(Cleared(m), ins, Immediate).1.Ok? && Prepare(Cleared(m), ins, Immediate).1.value == m.core.regs.pc + 1
  {
  }

  /** A byte held in work RAM is read without side effects. */
  lemma ReadHeld(m: Machine, address: nat, value: byte)
    requires BusOk(m.bus) && Holds(m, address, value)
    ensures ReadByte(m.bus, address).0 == m.bus
    ensures ReadByte(m.bus, address).1.Ok? && ReadByte(m.bus, address).1.value == value
  {
  }

  /** The handlers that read their operand apply it to the registers and flags and leave the
      bus as the read left it. */
  lemma ExecuteOperate(h: Handler, m: Machine, address: int, value: byte)
    requires BusOk(m.bus) && IsOperate(h)
    requires ReadByte(m.bus, address).0 == m.bus
    requires ReadByte(m.bus, address).1.Ok? && ReadByte(m.bus, address).1.value == value
    ensures Execute(h, m, address).0 == m.(core := Operate(h, m.core, value))
    ensures Execute(h, m, address).1 == Ok(())
  {
    assert Execute(h, m, address) == (Machine(Operate(h, m.core, ReadByte(m.bus, address).1.value), ReadByte(m.bus, address).0), Ok(()));
  }

  /** A decoded instruction: a tick runs `Perform` on it with `b` cleared. */
  lemma TickDecoded(m: Machine, code: byte, ins: Instruction, resolver: Resolver)
    requires BusOk(m.bus) && Runs(m) && Holds(m, m.core.regs.pc, code)
    requires Decode(code) == Ok((ins, resolver))
    ensures var (r, e) := Perform(Cleared(m), ins, resolver);
      && Tick(m).0 == r && Tick(m).1.Err? == e.Err?
      && (e.Err? ==> Tick(m).1.fault == e.fault)
      && (e.Ok? ==> Tick(m).1.value == r.core.cycles - m.core.cycles)
  {
    TickRuns(m);
    StepFetch(Cleared(m), code);
  }

  /** Opcode 0x00 is BRK: implied mode, one byte, 7 cycles, and the BRK handler. */
  lemma BrkDecodes()
    ensures Decode(0x00) == Ok((Instruction(BRK, IMPLIED, 1, 7), Implied))
    ensures HandlerFor(BRK) == Some(Brk)
  {
    assert INSTRUCTIONS[0x00] == Some(Instruction(BRK, IMPLIED, 1, 7));
    HandlerTableShift(BRK);
    ResolverTableShift(IMPLIED);
  }

  /** BRK's descriptor: `pc` and the cycle count advance by 1 and 7, then BRK's handler runs
      with operand address 0. */
  lemma PerformBrk(m: Machine)
    requires BusOk(m.bus)
    ensures Perform(Cleared(m), Instruction(BRK, IMPLIED, 1, 7), Implied) == Execute(Brk, Advanced(m, 1, 7), 0)
  {
    BrkDecodes();
    PrepareImplied(m, Instruction(BRK, IMPLIED, 1, 7));
  }

  /** The implied mode reads nothing and yields address 0; only the advance remains. */
  lemma PrepareImplied(m: Machine, ins: Instruction)
    requires BusOk(m.bus)
    ensures Prepare(Cleared(m), ins, Implied) == (Advanced(m, ins.size, ins.cycles), Ok(0))
  {
  }

  /** Once the mode handler has resolved `address` without side effects, the opcode handler
      runs on the advanced machine. */
  lemma PerformOn(m: Machine, ins: Instruction, resolver: Resolver, h: Handler, address: int)
    requires BusOk(m.bus) && HandlerFor(ins.opCode) == Some(h)
    requires Prepare(Cleared(m), ins, resolver).0 == Advanced(m, ins.size, ins.cycles)
    requires Prepare(Cleared(m), ins, resolver).1.Ok? && Prepare(Cleared(m), ins, resolver).1.value == address
    ensures Perform(Cleared(m), ins, resolver) == Execute(h, Advanced(m, ins.size, ins.cycles), address)
  {
  }

  /** BRK's handler is the stack handler. */
  lemma ExecuteBrk(m: Machine)
    requires BusOk(m.bus)
    ensures Execute(Brk, m, 0) == StackOp(Brk, m, 0)
  {
  }

  /** BRK (0x00) pushes the address two bytes on and the flags with bits 3 and 4 set, sets `i`
      and jumps through the vector at 0xfffe; an RTI there returns to the byte after BRK's
      padding byte with `sp` restored and with the flags it had, except that the `| 0x18` of
      the push leaves `d` set. */
  lemma BrkThenRti(m: Machine)
    requires BusOk(m.bus) && Runs(m) && Holds(m, m.core.regs.pc, 0x00)
    ensures var (r, e) := Tick(m);
      && e.Ok? && e.value == 7 && r.core.regs.pc == Vector(m, 0xfffe) && r.core.flags == m.core.flags.(i := 1)
      && r.core.cycles == m.core.cycles + 7
      && var back := PullOp(Rti, r);
         back.core.regs == m.core.regs.(pc := m.core.regs.pc + 2) && back.core.flags == m.core.flags.(d := 1)
  {
    BrkTick(m);
    BrkPushes(Advanced(m, 1, 7));
  }

  /** A tick on opcode 0x00 runs BRK's stack handler on the machine with `b` cleared, `pc` one
      on and 7 cycles added, and reports those 7 cycles. */
  lemma BrkTick(m: Machine)
    requires BusOk(m.bus) && Runs(m) && Holds(m, m.core.regs.pc, 0x00)
    ensures Tick(m).0 == StackOp(Brk, Advanced(m, 1, 7), 0).0
    ensures Tick(m).1.Ok? && Tick(m).1.value == 7
  {
    var m1 := Advanced(m, 1, 7);
    BrkDecodes();
    TickDecoded(m, 0x00, Instruction(BRK, IMPLIED, 1, 7), Implied);
    PerformBrk(m);
    ExecuteBrk(m1);
    BrkFrame(m1);
    assert StackOp(Brk, m1, 0).0.core.cycles == m.core.cycles + 7;
  }

  /** The stack effect of BRK's handler and of the RTI that undoes it. */
  lemma BrkPushes(m: Machine)
    requires BusOk(m.bus) && m.core.regs.pc <= 0x2000
    ensures var (r, e) := StackOp(Brk, m, 0);
      && e == Ok(()) && r.core.regs.pc == Vector(m, 0xfffe) && r.core.flags == m.core.flags.(i := 1)
      && r.core.cycles == m.core.cycles
      && var back := PullOp(Rti, r);
         back.core.regs == m.core.regs.(pc := m.core.regs.pc + 1) && back.core.flags == m.core.flags.(d := 1)
  {
    BrkFrame(m);
    RtiReturns(StackOp(Brk, m, 0).0, m.core.regs.pc + 1, m.core.flags, m.core.regs.sp);
  }

  /** BRK's handler: the return address and the flags byte below it on the stack, `sp` three
      lower, `i` set, `pc` loaded from the vector at 0xfffe. */
  lemma BrkFrame(m: Machine)
    requires BusOk(m.bus) && m.core.regs.pc <= 0x2000
    ensures var (r, e) := StackOp(Brk, m, 0);
      var sp: int := m.core.regs.sp;
      var pc := m.core.regs.pc + 1;
      && e == Ok(()) && BusOk(r.bus)
      && r.core == m.core.(regs := m.core.regs.(pc := Vector(m, 0xfffe), sp := (sp - 3) % 256),
                           flags := m.core.flags.(i := 1))
      && r.bus.ram.stack[(sp - 2) % 256] == BrkByte(m.core.flags)
      && r.bus.ram.stack[(sp - 1) % 256] == pc % 256
      && r.bus.ram.stack[sp] == pc / 256 % 256
  {
    var pushed := Push8(Push16(m, m.core.regs.pc + 1), BrkByte(m.core.flags));
    FramePushes(m, m.core.regs.pc + 1, BrkByte(m.core.flags));
    var r := pushed.(core := pushed.core.(flags := pushed.core.flags.(i := 1)));
    assert StackOp(Brk, m, 0) == JumpVector(r, 0xfffe);
    VectorJump(r, 0xfffe);
  }

  /** The three bytes an interrupt frame pushes: the return address, high byte first, then the
      status byte; `sp` ends three lower and nothing else changes. */
  lemma FramePushes(m: Machine, pc: nat, status: byte)
    requires BusOk(m.bus) && pc < 0x8000_0000
    ensures var r := Push8(Push16(m, pc), status);
      var sp: int := m.core.regs.sp;
      && r.core == m.core.(regs := m.core.regs.(sp := (sp - 3) % 256))
      && r.bus.ram.stack[(sp - 2) % 256] == status
      && r.bus.ram.stack[(sp - 1) % 256] == pc % 256
      && r.bus.ram.stack[sp] == pc / 256 % 256
  {
    var sp: int := m.core.regs.sp;
    Push16Layout(m, pc);
    SpSteps(sp);
  }

  /** RTI over a frame BRK pushed from stack pointer `top`: `pc` and `sp` come back, and the
      flags come back with `d` set. */
  lemma RtiReturns(m: Machine, pc: nat, f: Flags, top: byte)
    requires BusOk(m.bus) && pc < 0x10000
    requires var sp: int := top;
      && m.core.regs.sp == (sp - 3) % 256
      && m.bus.ram.stack[(sp - 2) % 256] == BrkByte(f)
      && m.bus.ram.stack[(sp - 1) % 256] == pc % 256
      && m.bus.ram.stack[sp] == pc / 256 % 256
    ensures PullOp(Rti, m).core.regs == m.core.regs.(pc := pc, sp := top)
    ensures PullOp(Rti, m).core.flags == f.(d := 1)
  {
    var sp: int := top;
    SpSteps(sp);
    RtiLayout(m);
    BrkFlagsBack(f);
    SplitWord(pc);
  }

  /** The flags byte BRK pushes, read back by RTI, gives the flags with `d` set. */
  lemma BrkFlagsBack(f: Flags)
    ensures FlagsOf(RtiByte(BrkByte(f))) == f.(d := 1)
  {
    PulledFlags(BrkByte(f));
    FlagsLayout(f.(d := 1), 1);
  }

  /** A 16-bit number from its two bytes. */
  lemma SplitWord(v: nat)
    requires v < 0x10000
    ensures v % 256 + 256 * (v / 256 % 256) == v
  {
    PpuFacts.Layer(v, 256, 256);
  }

  /** A vector in cartridge space is read without side effects: the jump only loads `pc`. */
  lemma VectorJump(m: Machine, vector: nat)
    requires BusOk(m.bus) && 0x6000 <= vector < 0xffff
    ensures JumpVector(m, vector) == (m.(core := m.core.(regs := m.core.regs.(pc := Vector(m, vector)))), Ok(()))
  {
  }

  /** What RTI pulls: the flags from the byte above `sp`, then `pc` from the two bytes above it. */
  lemma RtiLayout(m: Machine)
    requires BusOk(m.bus)
    ensures var sp: int := m.core.regs.sp;
      var stack := m.bus.ram.stack;
      PullOp(Rti, m).core == m.core.(flags := FlagsOf(RtiByte(stack[(sp + 1) % 256])),
                                     regs := m.core.regs.(sp := (sp + 3) % 256,
                                                          pc := stack[(sp + 2) % 256] as int + 256 * (stack[(sp + 3) % 256] as int)))
  {
    var sp: int := m.core.regs.sp;
    var (m1, value) := Pull8(m);
    Pull16Layout(m1.(core := m1.core.(flags := FlagsOf(RtiByte(value)))));
    SpRises(sp);
  }

  /** Wrap-around steps of the stack pointer upwards, as pulls take them. */
  lemma SpRises(sp: int)
    requires 0 <= sp < 256
    ensures ((sp + 1) % 256 + 1) % 256 == (sp + 2) % 256
    ensures ((sp + 1) % 256 + 2) % 256 == (sp + 3) % 256
  {
    var s1: int := (sp + 1) % 256;
    assert s1 == if sp == 255 then 0 else sp + 1;
  }

  /** ABSOLUTE,X adds X to the 16-bit operand, wrapping at 0x10000, and sets `b` exactly when
      the low byte of the operand plus X carries into the next page. */
  lemma AbsoluteXCross(m: Machine, low: byte, high: byte)
    requires BusOk(m.bus) && m.core.b == 0
    requires Holds(m, m.core.regs.pc + 1, low) && Holds(m, m.core.regs.pc + 2, high)
    ensures var (r, address) := Resolve(AbsoluteX, m);
      var base := 256 * high + low;
      && address.Ok? && address.value == (base + m.core.regs.x) % 0x10000 && r.bus == m.bus
      && r.core == m.core.(b := if low + m.core.regs.x > 255 then 1 else 0)
  {
    var base := 256 * high + low;
    Read16Held(m, m.core.regs.pc + 1, low, high);
    IndexedCross(m.core, base, low, m.core.regs.x);
  }

  /** A 16-bit operand held in work RAM is read without side effects. */
  lemma Read16Held(m: Machine, address: nat, low: byte, high: byte)
    requires BusOk(m.bus) && Holds(m, address, low) && Holds(m, address + 1, high)
    ensures Read16(m.bus, address).0 == m.bus
    ensures Read16(m.bus, address).1.Ok? && Read16(m.bus, address).1.value == 256 * high + low
  {
    assert BusRead(m.bus, address + 1) == (m.bus, Ok(Some(high)));
    assert BusRead(m.bus, address) == (m.bus, Ok(Some(low)));
  }

  /** Indexing sets `b` exactly when the low byte of the base plus the index carries. */
  lemma IndexedCross(core: Core, base: nat, low: byte, index: byte)
    requires base < 0x10000 && base % 256 == low
    ensures Indexed(core, base, index).0 == core.(b := if low + index > 255 then 1 else core.b)
    ensures Indexed(core, base, index).1 == (base + index) % 0x10000
  {
    IndexedPageCross(base, index);
  }

  // ---------------------------------------------------------------------------------------
  // Branches and comparisons

  /** A branch handler never fails and touches nothing but the core: an untaken branch
      changes nothing; a taken one jumps to the target wrapped to 16 bits and costs one cycle,
      or two when the target's page differs from the page of the `pc` after the branch. */
  lemma BranchCost(h: Handler, m: Machine, address: int)
    requires BusOk(m.bus) && IsBranch(h)
    ensures var (r, e) := Execute(h, m, address);
      && e == Ok(()) && r.bus == m.bus
      && (!BranchTaken(h, m.core.flags) ==> r == m)
      && (BranchTaken(h, m.core.flags) ==>
            r.core == m.core.(cycles := m.core.cycles + (if m.core.regs.pc / 256 != address / 256 then 2 else 1),
                              regs := m.core.regs.(pc := address % 0x10000)))
  {
  }

  /** CMP, CPX and CPY leave every register alone and set C when the register is at least the
      operand, Z when they are equal and N from bit 7 of their difference; the other flags
      stay. */
  lemma CompareFlags(h: Handler, core: Core, value: byte)
    requires h == Cmp || h == Cpx || h == Cpy
    ensures var register := if h == Cmp then core.regs.a else if h == Cpx then core.regs.x else core.regs.y;
      var r := Operate(h, core, value);
      && r.regs == core.regs
      && (r.flags.c == 1 <==> register >= value) && (r.flags.z == 1 <==> register == value)
      && (r.flags.n == 1 <==> (register - value) % 256 >= 128)
      && r.flags.i == core.flags.i && r.flags.d == core.flags.d && r.flags.v == core.flags.v
  {
  }
}
