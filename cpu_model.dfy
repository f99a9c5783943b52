/** The 6502 core as values (src/Cpu.ts, with the opcode and mode handlers of src/Common.ts):
    the registers and flags, and the machine the CPU sees through its bus — work RAM, the PPU,
    the joypad and the APU status byte. Every operation of the `Cpu` class is a function of
    that state here; the class in module Processor is proved to follow them. */
module CpuModel {
  import opened Wrappers
  import Bits
  import opened Common
  import CpuRam
  import Input
  import Mappers
  import PpuModel

  /** The registers. `pc` is a plain number: the emulator adds instruction sizes to it without
      masking, and only jumps, branches and returns bring it back below 0x10000. */
  datatype Registers = Registers(a: byte, x: byte, y: byte, pc: nat, sp: byte)

  /** The six stored flags of the status register (bits 4 and 5 are not stored). */
  datatype Flags = Flags(c: bit, z: bit, i: bit, d: bit, v: bit, n: bit)

  /** The CPU's own fields: registers, flags, the cycle counter, the page-cross bonus `b`, the
      pending interrupt and the DMA stall counter. */
  datatype Core = Core(regs: Registers, flags: Flags, cycles: nat, b: bit,
                       interrupt: Option<Interrupt>, stallCounter: nat)

  /** The joypad: the latched strobe, the read index and the eight button bytes. */
  datatype Pad = Pad(strobe: byte, index: nat, buttons: seq<byte>)

  /** Everything behind the CPU's bus. The cartridge mapper is part of the PPU's VRAM state,
      as in the emulator, where the CPU reaches it through `ppu.memory.mapper`. `apuStatus` is
      what the APU answers at 0x4015. */
  datatype Bus = Bus(ram: CpuRam.RamState, ppu: PpuModel.PpuState, pad: Pad, apuStatus: byte)

  datatype Machine = Machine(core: Core, bus: Bus)

  /** The shapes the bus keeps: the RAM arrays at their sizes, the PPU within its invariant,
      eight buttons. */
  predicate BusOk(bus: Bus)
  {
    CpuRam.WellSized(bus.ram) && PpuModel.Good(bus.ppu) && |bus.pad.buttons| == Input.BUTTON_COUNT
  }

  // ---------------------------------------------------------------------------------------
  // The bus

  /** `read8`: RAM below 0x2000, the eight PPU registers mirrored up to 0x4000, 0x4014 to the
      PPU, 0x4015 to the APU, 0x4016 to the joypad, 0 up to 0x6000, the mapper above. None is
      JavaScript's `undefined`; Err is a throw from the PPU. */
  function BusRead(bus: Bus, address: int): (r: (Bus, Result<Option<byte>>))
    requires BusOk(bus)
    ensures BusOk(r.0) && r.0.ram == bus.ram && r.0.ppu.vram == bus.ppu.vram
    ensures r.0.apuStatus == bus.apuStatus && r.0.pad.buttons == bus.pad.buttons
    ensures r.0.ppu.oamAddress == bus.ppu.oamAddress && r.0.ppu.tmpOamAddress == bus.ppu.tmpOamAddress
  {
    if address < 0x2000 then (bus, Ok(CpuRam.ReadRam(bus.ram, address)))
    else if address < 0x4000 then RegisterRead(bus, 0x2000 + address % 8)
    else if address == 0x4014 then RegisterRead(bus, address)
    else if address == 0x4015 then (bus, Ok(Some(bus.apuStatus)))
    else if address == 0x4016 then
      (bus.(pad := bus.pad.(index := bus.pad.index + 1)), Ok(Input.ButtonAt(bus.pad.buttons, bus.pad.index)))
    else if address < 0x6000 then (bus, Ok(Some(0)))
    else (bus, Ok(Mappers.Read(bus.ppu.vram.mapper, address)))
  }

  /** A PPU register read through the bus. */
  function RegisterRead(bus: Bus, register: int): (r: (Bus, Result<Option<byte>>))
    requires BusOk(bus)
    ensures BusOk(r.0) && r.0 == bus.(ppu := r.0.ppu) && r.0.ppu.vram == bus.ppu.vram
    ensures r.0.ppu.oamAddress == bus.ppu.oamAddress && r.0.ppu.tmpOamAddress == bus.ppu.tmpOamAddress
  {
    var (ppu, value) := PpuModel.ReadRegister(bus.ppu, register);
    (bus.(ppu := ppu), value)
  }

  /** `read8` whose result the CPU computes with: `undefined` stops the step. */
  function ReadByte(bus: Bus, address: int): (r: (Bus, Result<byte>))
    requires BusOk(bus)
    ensures BusOk(r.0) && r.0 == BusRead(bus, address).0
  {
    var (bus', value) := BusRead(bus, address);
    (bus', if value.Err? then Err(value.fault) else Defined(value.value, address))
  }

  /** `read16`: the high byte is read first, then the low byte; a shift or an `|` turns an
      `undefined` byte into 0. */
  function Read16(bus: Bus, address: int): (r: (Bus, Result<nat>))
    requires BusOk(bus)
    ensures BusOk(r.0) && r.0.apuStatus == bus.apuStatus
    ensures r.1.Ok? ==> r.1.value < 0x10000
  {
    var (bus1, high) := BusRead(bus, address + 1);
    if high.Err? then (bus1, Err(high.fault))
    else
      var (bus2, low) := BusRead(bus1, address);
      if low.Err? then (bus2, Err(low.fault))
      else (bus2, Ok(256 * PpuModel.OrZero(high.value) + PpuModel.OrZero(low.value)))
  }

  /** The address `read16Indirect` takes its high byte from: `address + 1` without the carry
      into the high byte, so the pointer never leaves its page. */
  function IndirectHigh(address: nat): nat
  {
    address % 0x10000 / 256 * 256 + (address % 256 + 1) % 256
  }

  /** `read16Indirect`: the low byte at `address`, read first, and the high byte at
      `IndirectHigh(address)`. */
  function Read16Indirect(bus: Bus, address: nat): (r: (Bus, Result<nat>))
    requires BusOk(bus)
    ensures BusOk(r.0) && r.0.apuStatus == bus.apuStatus
    ensures r.1.Ok? ==> r.1.value < 0x10000
  {
    var (bus1, low) := BusRead(bus, address);
    if low.Err? then (bus1, Err(low.fault))
    else
      var (bus2, high) := BusRead(bus1, IndirectHigh(address));
      if high.Err? then (bus2, Err(high.fault))
      else (bus2, Ok(256 * PpuModel.OrZero(high.value) + PpuModel.OrZero(low.value)))
  }

  /** `write8` for every address but 0x4014: RAM, a PPU register, the joypad strobe, or the
      mapper. The APU (0x4015), 0x4017 and the I/O range up to 0x6000 keep nothing here. */
  function BusWrite(bus: Bus, address: int, value: byte): (r: Bus)
    requires BusOk(bus)
    ensures BusOk(r) && r.apuStatus == bus.apuStatus
  {
    if address < 0x2000 then bus.(ram := CpuRam.WriteRam(bus.ram, address, value))
    else if address < 0x4000 then bus.(ppu := PpuModel.WriteRegister(bus.ppu, 0x2000 + address % 8, value))
    else if address == 0x4016 then
      bus.(pad := bus.pad.(strobe := value, index := if value % 2 == 1 then 0 else bus.pad.index))
    else if address >= 0x6000 then
      var vram := bus.ppu.vram;
      bus.(ppu := bus.ppu.(vram := vram.(mapper := Mappers.Write(vram.kind, vram.bankNbr, vram.mapper, address, value))))
    else bus
  }

  /** `stall`: a DMA costs 514 cycles when it starts on an odd cycle, 513 otherwise. */
  function Stall(core: Core): Core
  {
    core.(stallCounter := core.stallCounter + if core.cycles % 2 == 1 then 514 else 513)
  }

  /** TriggerNmi and TriggerIrq only record the request; the next tick that is not stalled
      services it before any instruction. */
  function Trigger(m: Machine, interrupt: Interrupt): (r: Machine)
    ensures r.core.interrupt == Some(interrupt) && r.bus == m.bus && r.core.regs == m.core.regs
  {
    m.(core := m.core.(interrupt := Some(interrupt)))
  }

  /** The number of bytes an OAM DMA copies: one page. */
  const PAGE: nat := 256

  /** One step of the DMA loop: the byte goes to `oam[oamAddress]`, or nowhere when that index
      is past the end of OAM, and `oamAddress` moves on. */
  function DmaStore(bus: Bus, value: byte): (r: Bus)
    requires BusOk(bus)
    ensures BusOk(r) && r.ram == bus.ram && r.pad == bus.pad && r.apuStatus == bus.apuStatus
  {
    var ppu := bus.ppu;
    var oam := ppu.vram.oam;
    var oam' := if ppu.oamAddress < |oam| then oam[ppu.oamAddress := value] else oam;
    bus.(ppu := ppu.(vram := ppu.vram.(oam := oam'), oamAddress := ppu.oamAddress + 1))
  }

  /** The DMA loop: `count` bytes read from `address` on, each stored by `DmaStore`; an
      `undefined` byte is stored as 0, a throw stops the copy. */
  function DmaCopy(bus: Bus, address: nat, count: nat): (r: (Bus, Result<()>))
    requires BusOk(bus)
    ensures BusOk(r.0) && r.0.apuStatus == bus.apuStatus && r.0.ram == bus.ram
    decreases count
  {
    if count == 0 then (bus, Ok(()))
    else
      var (bus1, value) := BusRead(bus, address);
      if value.Err? then (bus1, Err(value.fault))
      else DmaCopy(DmaStore(bus1, PpuModel.OrZero(value.value)), address + 1, count - 1)
  }

  /** A write to 0x4014: the page `value << 8` is copied to OAM from `oamAddress` on,
      `oamAddress` is restored from `tmpOamAddress`, and the CPU stalls. */
  function OamDma(m: Machine, value: byte): (r: (Machine, Result<()>))
    requires BusOk(m.bus)
    ensures BusOk(r.0.bus) && r.0.bus.apuStatus == m.bus.apuStatus
  {
    var ppu := m.bus.ppu;
    var bus1 := m.bus.(ppu := ppu.(tmpOamAddress := ppu.oamAddress));
    var (bus2, copied) := DmaCopy(bus1, value * 256, PAGE);
    if copied.Err? then (m.(bus := bus2), Err(copied.fault))
    else (Machine(Stall(m.core), bus2.(ppu := bus2.ppu.(oamAddress := bus2.ppu.tmpOamAddress))), Ok(()))
  }

  /** `write8`. */
  function Write(m: Machine, address: int, value: byte): (r: (Machine, Result<()>))
    requires BusOk(m.bus)
    ensures BusOk(r.0.bus) && r.0.bus.apuStatus == m.bus.apuStatus
    ensures r.1.Err? ==> address == 0x4014
  {
    if address == 0x4014 then OamDma(m, value)
    else (m.(bus := BusWrite(m.bus, address, value)), Ok(()))
  }

  // ---------------------------------------------------------------------------------------
  // The stack and the status register

  /** JavaScript's `value >> 8`: the number is first wrapped to a signed 32-bit integer. */
  function ShiftRight8(value: int): int
  {
    ((value + 0x8000_0000) % 0x1_0000_0000 - 0x8000_0000) / 256
  }

  /** `stackPush8`: the byte the Uint8Array keeps goes to `stack[sp]`, then `sp` steps down,
      wrapping within the page. */
  function Push8(m: Machine, value: int): (r: Machine)
    requires BusOk(m.bus)
    ensures BusOk(r.bus) && r.bus == m.bus.(ram := r.bus.ram)
  {
    var sp := m.core.regs.sp;
    var ram := m.bus.ram;
    m.(core := m.core.(regs := m.core.regs.(sp := (sp - 1) % 256)),
       bus := m.bus.(ram := ram.(stack := ram.stack[sp := Bits.ToUint8(value)])))
  }

  /** `stackPush16`: the high byte, then the low byte. */
  function Push16(m: Machine, value: int): (r: Machine)
    requires BusOk(m.bus)
    ensures BusOk(r.bus) && r.bus == m.bus.(ram := r.bus.ram)
  {
    Push8(Push8(m, ShiftRight8(value)), value % 256)
  }

  /** `stackPull8`: `sp` steps up, wrapping within the page, and the byte there is returned. */
  function Pull8(m: Machine): (r: (Machine, byte))
    requires BusOk(m.bus)
    ensures r.0.bus == m.bus
  {
    var sp := (m.core.regs.sp + 1) % 256;
    (m.(core := m.core.(regs := m.core.regs.(sp := sp))), m.bus.ram.stack[sp])
  }

  /** `stackPull16`: the low byte is pulled first. */
  function Pull16(m: Machine): (r: (Machine, nat))
    requires BusOk(m.bus)
    ensures r.0.bus == m.bus && r.1 < 0x10000
  {
    var (m1, low) := Pull8(m);
    var (m2, high) := Pull8(m1);
    (m2, low + 256 * high)
  }

  /** `getFlags`: C, Z, I, D in bits 0-3, bit 4 clear, bit 5 set, V and N in bits 6-7. */
  function FlagsByte(f: Flags): byte
  {
    f.c + 2 * f.z + 4 * f.i + 8 * f.d + 32 + 64 * f.v + 128 * f.n
  }

  /** `setFlags`: bits 0-3, 6 and 7 of the value. */
  function FlagsOf(value: byte): Flags
  {
    Flags(value % 2, value / 2 % 2, value / 4 % 2, value / 8 % 2, value / 64 % 2, value / 128 % 2)
  }

  /** `setNegativeFlag` and `setZeroFlag` of one value. */
  function WithNZ(f: Flags, value: int): Flags
  {
    f.(n := NegativeFlag(value), z := ZeroFlag(value))
  }

  /** The byte PHP pushes, `getFlags() | 0x10`: bit 4 is clear in `getFlags`, so this adds it. */
  function PhpByte(f: Flags): byte
  {
    FlagsByte(f) + 0x10
  }

  /** The byte BRK pushes, `getFlags() | 0x18`: bits 3 and 4 set. */
  function BrkByte(f: Flags): byte
  {
    FlagsByte(f.(d := 1)) + 0x10
  }

  /** The value PLP passes to `setFlags`, `(pulled & 0xef) | 0x20`: bit 4 cleared, bit 5 set. */
  function PlpByte(pulled: byte): byte
  {
    pulled % 16 + 32 + pulled / 64 * 64
  }

  /** The value RTI passes to `setFlags`, `pulled | 0x20`: bit 5 set. */
  function RtiByte(pulled: byte): byte
  {
    pulled % 32 + 32 + pulled / 64 * 64
  }

  // ---------------------------------------------------------------------------------------
  // Addressing modes

  /** `address & 0xff` and `& 0xffff` of a 32-bit number: the residue, even for a negative one. */
  function Wrap16(address: int): Bits.u16
  {
    address % 0x10000
  }

  /** An index added to a 16-bit base, wrapped to 16 bits; `b` becomes 1 when the result is on a
      different page from `result - index` (which is the base unless the sum wrapped). */
  function Indexed(core: Core, base: nat, index: byte): (r: (Core, int))
  {
    var address := Wrap16(base + index);
    (if IsPageCrossed(address - index, address) then core.(b := 1) else core, address)
  }

  /** `(read8(pc + 1) + index) & 0xff`: a zero-page pointer or address that wraps within page
      0; an `undefined` operand byte makes the sum NaN, which the mask turns into 0. */
  function ZeroPageIndexed(operand: Option<byte>, index: byte): byte
  {
    if operand.Some? then (operand.value + index) % 256 else 0
  }

  /** The mode handler each `Resolver` names: the address the instruction works on. Reads
      go through the bus and may change it; the indexed modes may set `b`. */
  function Resolve(resolver: Resolver, m: Machine): (r: (Machine, Result<int>))
    requires BusOk(m.bus)
    ensures BusOk(r.0.bus) && r.0.bus.apuStatus == m.bus.apuStatus && r.0.core == m.core.(b := r.0.core.b)
    ensures r.0.core.b == 1 ==> m.core.b == 1 || (resolver.AbsoluteX? || resolver.AbsoluteY? || resolver.IndirectIndexedY?)
  {
    var core := m.core;
    var pc := core.regs.pc;
    match resolver
    case Absolute =>
      var (bus, address) := Read16(m.bus, pc + 1);
      (m.(bus := bus), if address.Err? then Err(address.fault) else Ok(address.value))
    case AbsoluteX =>
      var (bus, base) := Read16(m.bus, pc + 1);
      if base.Err? then (m.(bus := bus), Err(base.fault))
      else var (core', address) := Indexed(core, base.value, core.regs.x); (Machine(core', bus), Ok(address))
    case AbsoluteY =>
      var (bus, base) := Read16(m.bus, pc + 1);
      if base.Err? then (m.(bus := bus), Err(base.fault))
      else var (core', address) := Indexed(core, base.value, core.regs.y); (Machine(core', bus), Ok(address))
    case Accumulator => (m, Ok(core.regs.a))
    case Immediate => (m, Ok(pc + 1))
    case Implied => (m, Ok(0))
    case IndexedIndirectX =>
      var (bus1, operand) := BusRead(m.bus, pc + 1);
      if operand.Err? then (m.(bus := bus1), Err(operand.fault))
      else
        var (bus2, address) := Read16Indirect(bus1, ZeroPageIndexed(operand.value, core.regs.x));
        (m.(bus := bus2), if address.Err? then Err(address.fault) else Ok(address.value))
    case IndirectIndexedY =>
      var (bus1, pointer) := ReadByte(m.bus, pc + 1);
      if pointer.Err? then (m.(bus := bus1), Err(pointer.fault))
      else
        var (bus2, base) := Read16Indirect(bus1, pointer.value);
        if base.Err? then (m.(bus := bus2), Err(base.fault))
        else var (core', address) := Indexed(core, base.value, core.regs.y); (Machine(core', bus2), Ok(address))
    case Relative =>
      var (bus, offset) := ReadByte(m.bus, pc + 1);
      (m.(bus := bus), if offset.Err? then Err(offset.fault) else Ok(RelativeTarget(pc, offset.value)))
    case ZeroPage =>
      var (bus, address) := ReadByte(m.bus, pc + 1);
      (m.(bus := bus), if address.Err? then Err(address.fault) else Ok(address.value))
    case ZeroPageX =>
      var (bus, operand) := BusRead(m.bus, pc + 1);
      (m.(bus := bus), if operand.Err? then Err(operand.fault) else Ok(ZeroPageIndexed(operand.value, core.regs.x)))
    case ZeroPageY =>
      var (bus, operand) := BusRead(m.bus, pc + 1);
      (m.(bus := bus), if operand.Err? then Err(operand.fault) else Ok(ZeroPageIndexed(operand.value, core.regs.y)))
  }

  /** The RELATIVE target: the offset byte read as signed, from the end of the two-byte branch. */
  function RelativeTarget(pc: nat, offset: byte): int
  {
    if offset < 0x80 then offset + pc + 2 else offset + pc + 2 - 0x100
  }

  // ---------------------------------------------------------------------------------------
  // Opcode handlers

  /** The register and flag effect of a handler that reads one operand byte and does not
      write memory. ADC, AND, CMP, EOR, LDA, LDX, LDY, ORA and SBC add the page-cross bonus. */
  function Operate(h: Handler, core: Core, value: byte): Core
  {
    var regs, f := core.regs, core.flags;
    var bonus := core.cycles + core.b;
    match h
    case Adc =>
      var sum := AddWithCarry(regs.a, value, f.c);
      core.(regs := regs.(a := sum.result), flags := WithNZ(f.(c := sum.carry, v := sum.overflow), sum.result), cycles := bonus)
    case And =>
      var a := Bits.And8(regs.a, value);
      core.(regs := regs.(a := a), flags := WithNZ(f, a), cycles := bonus)
    case Bit =>
      core.(flags := f.(v := value / 64 % 2, z := ZeroFlag(Bits.And8(value, regs.a)), n := NegativeFlag(value)))
    case Cmp =>
      var cmp := Compare(regs.a, value);
      core.(flags := f.(c := cmp.carry, z := cmp.zero, n := cmp.negative), cycles := bonus)
    case Cpx =>
      var cmp := Compare(regs.x, value);
      core.(flags := f.(c := cmp.carry, z := cmp.zero, n := cmp.negative))
    case Cpy =>
      var cmp := Compare(regs.y, value);
      core.(flags := f.(c := cmp.carry, z := cmp.zero, n := cmp.negative))
    case Eor =>
      var a := Bits.Xor8(regs.a, value);
      core.(regs := regs.(a := a), flags := WithNZ(f, a), cycles := bonus)
    case Lda => core.(regs := regs.(a := value), flags := WithNZ(f, value), cycles := bonus)
    case Ldx => core.(regs := regs.(x := value), flags := WithNZ(f, value), cycles := bonus)
    case Ldy => core.(regs := regs.(y := value), flags := WithNZ(f, value), cycles := bonus)
    case Ora =>
      var a := Bits.Or8(regs.a, value);
      core.(regs := regs.(a := a), flags := WithNZ(f, a), cycles := bonus)
    case Sbc =>
      var difference := SubtractWithCarry(regs.a, value, f.c);
      core.(regs := regs.(a := difference.result),
            flags := WithNZ(f, difference.result).(c := difference.carry, v := difference.overflow), cycles := bonus)
    case _ => core
  }

  /** The handlers that read an operand and change only registers and flags. */
  predicate IsOperate(h: Handler)
  {
    (h.Adc? || h.And? || h.Bit? || h.Cmp? || h.Cpx? || h.Cpy? || h.Eor? || h.Lda? || h.Ldx? || h.Ldy? || h.Ora? || h.Sbc?)
  }

  /** The read-modify-write handlers ASL, DEC, INC, LSR, ROL and ROR: the new byte and carry. */
  function Modified(h: Handler, value: byte, c: bit): Shifted
  {
    match h
    case Asl => ShiftLeft(value)
    case Dec => Shifted((value - 1) % 256, c)
    case Inc => Shifted((value + 1) % 256, c)
    case Lsr => ShiftRight(value)
    case Rol => RotateLeft(value, c)
    case _ => RotateRight(value, c)
  }

  predicate IsModify(h: Handler)
  {
    (h.Asl? || h.Dec? || h.Inc? || h.Lsr? || h.Rol? || h.Ror?)
  }

  /** A read-modify-write handler: read, compute, write back. ASL, DEC and INC set N and Z
      before the write, LSR, ROL and ROR after it, so a write that throws leaves them as they
      were for the latter three. */
  function Modify(h: Handler, m: Machine, address: int): (r: (Machine, Result<()>))
    requires BusOk(m.bus)
    ensures BusOk(r.0.bus) && r.0.bus.apuStatus == m.bus.apuStatus
  {
    var (bus, value) := ReadByte(m.bus, address);
    if value.Err? then (m.(bus := bus), Err(value.fault))
    else StoreModified(h, m.(bus := bus), address, value.value)
  }

  /** The second half of a read-modify-write handler: the carry (and, for ASL, DEC and INC, N
      and Z) set, the result written back, then N and Z for LSR, ROL and ROR. */
  function StoreModified(h: Handler, m: Machine, address: int, value: byte): (r: (Machine, Result<()>))
    requires BusOk(m.bus)
    ensures BusOk(r.0.bus) && r.0.bus.apuStatus == m.bus.apuStatus
  {
    var f := m.core.flags;
    var s := Modified(h, value, f.c);
    var early := (h.Asl? || h.Dec? || h.Inc?);
    var f1 := if early then WithNZ(f.(c := s.carry), s.result) else f.(c := s.carry);
    var (m2, written) := Write(m.(core := m.core.(flags := f1)), address, s.result);
    if written.Err? || early then (m2, written)
    else (m2.(core := m2.core.(flags := WithNZ(m2.core.flags, s.result))), Ok(()))
  }

  /** The branch handlers: the condition each one tests. */
  function BranchTaken(h: Handler, f: Flags): bool
  {
    match h
    case Bcc => f.c == 0
    case Bcs => f.c == 1
    case Beq => f.z == 1
    case Bmi => f.n == 1
    case Bne => f.z == 0
    case Bpl => f.n == 0
    case _ => f.v == 0
  }

  predicate IsBranch(h: Handler)
  {
    (h.Bcc? || h.Bcs? || h.Beq? || h.Bmi? || h.Bne? || h.Bpl? || h.Bvc?)
  }

  /** A taken branch costs one cycle more, two when the target is on another page than the
      `pc` after the branch, and jumps to the target wrapped to 16 bits. */
  function Branch(core: Core, taken: bool, address: int): Core
  {
    if taken then
      core.(cycles := core.cycles + (if IsPageCrossed(core.regs.pc, address) then 2 else 1),
            regs := core.regs.(pc := Wrap16(address)))
    else core
  }

  /** The handlers that change only registers and flags without reading memory. */
  function Implied(h: Handler, core: Core): Core
  {
    var regs, f := core.regs, core.flags;
    match h
    case Clc => core.(flags := f.(c := 0))
    case Cld => core.(flags := f.(d := 0))
    case Cli => core.(flags := f.(i := 0))
    case Clv => core.(flags := f.(v := 0))
    case Sec => core.(flags := f.(c := 1))
    case Sed => core.(flags := f.(d := 1))
    case Sei => core.(flags := f.(i := 1))
    case Dex => var x := (regs.x - 1) % 256; core.(regs := regs.(x := x), flags := WithNZ(f, x))
    case Dey => var y := (regs.y - 1) % 256; core.(regs := regs.(y := y), flags := WithNZ(f, y))
    case Inx => var x := (regs.x + 1) % 256; core.(regs := regs.(x := x), flags := WithNZ(f, x))
    case Iny => var y := (regs.y + 1) % 256; core.(regs := regs.(y := y), flags := WithNZ(f, y))
    case Tax => core.(regs := regs.(x := regs.a), flags := WithNZ(f, regs.a))
    case Tay => core.(regs := regs.(y := regs.a), flags := WithNZ(f, regs.a))
    case Tsx => core.(regs := regs.(x := regs.sp), flags := WithNZ(f, regs.sp))
    case Txa => core.(regs := regs.(a := regs.x), flags := WithNZ(f, regs.x))
    case Txs => core.(regs := regs.(sp := regs.x))
    case Tya => core.(regs := regs.(a := regs.y), flags := WithNZ(f, regs.y))
    case AslAcc => var s := ShiftLeft(regs.a); core.(regs := regs.(a := s.result), flags := WithNZ(f.(c := s.carry), s.result))
    case LsrAcc => var s := ShiftRight(regs.a); core.(regs := regs.(a := s.result), flags := WithNZ(f.(c := s.carry), s.result))
    case RolAcc => var s := RotateLeft(regs.a, f.c); core.(regs := regs.(a := s.result), flags := WithNZ(f.(c := s.carry), s.result))
    case RorAcc => var s := RotateRight(regs.a, f.c); core.(regs := regs.(a := s.result), flags := WithNZ(f.(c := s.carry), s.result))
    case _ => core
  }

  /** Load `pc` from the 16-bit vector at `vector`, the last step of BRK, NMI and IRQ. */
  function JumpVector(m: Machine, vector: int): (r: (Machine, Result<()>))
    requires BusOk(m.bus)
    ensures BusOk(r.0.bus) && r.0.bus.apuStatus == m.bus.apuStatus
    ensures r.0.core == m.core.(regs := r.0.core.regs) && r.0.core.regs == m.core.regs.(pc := r.0.core.regs.pc)
  {
    var (bus, target) := Read16(m.bus, vector);
    if target.Err? then (m.(bus := bus), Err(target.fault))
    else (Machine(m.core.(regs := m.core.regs.(pc := target.value)), bus), Ok(()))
  }

  /** The handlers that use the stack: BRK, JSR, PHA, PHP, PLA, PLP, RTI and RTS. */
  function StackOp(h: Handler, m: Machine, address: int): (r: (Machine, Result<()>))
    requires BusOk(m.bus)
    ensures BusOk(r.0.bus) && r.0.bus.apuStatus == m.bus.apuStatus
  {
    if h == Brk then Break(m)
    else if (h.Jsr? || h.Pha? || h.Php?) then (PushOp(h, m, address), Ok(()))
    else (PullOp(h, m), Ok(()))
  }

  /** BRK pushes `pc + 1` and the flags with bits 3 and 4 set, sets `i` and jumps through the
      IRQ vector. */
  function Break(m: Machine): (r: (Machine, Result<()>))
    requires BusOk(m.bus)
    ensures BusOk(r.0.bus) && r.0.bus.apuStatus == m.bus.apuStatus
  {
    var m1 := Push8(Push16(m, m.core.regs.pc + 1), BrkByte(m.core.flags));
    JumpVector(m1.(core := m1.core.(flags := m1.core.flags.(i := 1))), 0xfffe)
  }

  /** JSR pushes the address of its own last byte and jumps; PHA pushes A; PHP pushes the flags
      with bit 4 set. */
  function PushOp(h: Handler, m: Machine, address: int): (r: Machine)
    requires BusOk(m.bus)
    ensures BusOk(r.bus) && r.bus == m.bus.(ram := r.bus.ram)
  {
    var regs := m.core.regs;
    match h
    case Jsr =>
      var m1 := Push16(m, regs.pc - 1);
      m1.(core := m1.core.(regs := m1.core.regs.(pc := Wrap16(address))))
    case Pha => Push8(m, regs.a)
    case _ => Push8(m, PhpByte(m.core.flags))
  }

  /** PLA pulls A and sets N and Z; PLP pulls the flags; RTI pulls the flags and `pc`; RTS pulls
      `pc` and adds one. None of them touches memory. */
  function PullOp(h: Handler, m: Machine): (r: Machine)
    requires BusOk(m.bus)
    ensures r.bus == m.bus
  {
    match h
    case Pla =>
      var (m1, value) := Pull8(m);
      m1.(core := m1.core.(regs := m1.core.regs.(a := value), flags := WithNZ(m.core.flags, value)))
    case Plp =>
      var (m1, value) := Pull8(m);
      m1.(core := m1.core.(flags := FlagsOf(PlpByte(value))))
    case Rti =>
      var (m1, value) := Pull8(m);
      var (m2, pc) := Pull16(m1.(core := m1.core.(flags := FlagsOf(RtiByte(value)))));
      m2.(core := m2.core.(regs := m2.core.regs.(pc := pc)))
    case _ =>
      var (m1, pc) := Pull16(m);
      m1.(core := m1.core.(regs := m1.core.regs.(pc := pc + 1)))
  }

  predicate IsStackOp(h: Handler)
  {
    (h.Brk? || h.Jsr? || h.Pha? || h.Php? || h.Pla? || h.Plp? || h.Rti? || h.Rts?)
  }

  /** An opcode handler run on the address its mode resolved. */
  function Execute(h: Handler, m: Machine, address: int): (r: (Machine, Result<()>))
    requires BusOk(m.bus)
    ensures BusOk(r.0.bus) && r.0.bus.apuStatus == m.bus.apuStatus
  {
    if IsOperate(h) then
      var (bus, value) := ReadByte(m.bus, address);
      if value.Err? then (m.(bus := bus), Err(value.fault))
      else (Machine(Operate(h, m.core, value.value), bus), Ok(()))
    else if IsModify(h) then Modify(h, m, address)
    else if (h.Sta? || h.Stx? || h.Sty?) then
      Write(m, address, if h == Sta then m.core.regs.a else if h == Stx then m.core.regs.x else m.core.regs.y)
    else if IsBranch(h) then (m.(core := Branch(m.core, BranchTaken(h, m.core.flags), address)), Ok(()))
    else if IsStackOp(h) then StackOp(h, m, address)
    else if h == Jmp then (m.(core := m.core.(regs := m.core.regs.(pc := Wrap16(address)))), Ok(()))
    else (m.(core := Implied(h, m.core)), Ok(()))
  }

  // ---------------------------------------------------------------------------------------
  // tick

  /** The interrupt path of `tick`. An NMI, or an IRQ while `i` is set (the emulator tests
      `i !== 0`), pushes `pc` and the flags with bit 4 clear, jumps through its vector, sets
      `i` and costs 7 cycles; an IRQ while `i` is clear only drops the request. */
  function ServiceInterrupt(m: Machine): (r: (Machine, Result<()>))
    requires BusOk(m.bus) && m.core.interrupt.Some?
    ensures BusOk(r.0.bus) && r.0.bus.apuStatus == m.bus.apuStatus
  {
    var serviced := m.core.interrupt == Some(Nmi) || m.core.flags.i != 0;
    var m1 := if serviced then Push8(Push16(m, m.core.regs.pc), FlagsByte(m.core.flags)) else m;
    var (m2, e) := if serviced then JumpVector(m1, if m.core.interrupt == Some(Nmi) then 0xfffa else 0xfffe) else (m1, Ok(()));
    if e.Err? then (m2, e)
    else
      var core := if serviced then m2.core.(flags := m2.core.flags.(i := 1), cycles := m2.core.cycles + 7) else m2.core;
      (m2.(core := core.(interrupt := None)), Ok(()))
  }

  /** The normal path of `tick`: fetch the opcode byte at `pc`, look up its descriptor, resolve
      the address with the mode handler, advance `pc` by the size and the cycle counter by the
      base cost, then run the opcode handler. A missing descriptor, mode handler or opcode
      handler throws; an `undefined` opcode byte is reported as an undefined read. */
  function Step(m: Machine): (r: (Machine, Result<()>))
    requires BusOk(m.bus)
    ensures BusOk(r.0.bus) && r.0.bus.apuStatus == m.bus.apuStatus
  {
    var (bus, code) := ReadByte(m.bus, m.core.regs.pc);
    var m1 := m.(bus := bus);
    if code.Err? then (m1, Err(code.fault))
    else
      var decoded := Decode(code.value);
      if decoded.Err? then (m1, Err(decoded.fault))
      else Perform(m1, decoded.value.0, decoded.value.1)
  }

  /** The descriptor of an opcode byte and the handler of its mode, or the throw for a byte
      with no descriptor or a mode with no handler. */
  function Decode(code: byte): (r: Result<(Instruction, Resolver)>)
    ensures r.Ok? <==> INSTRUCTIONS[code].Some? && ResolverFor(INSTRUCTIONS[code].value.mode).Some?
    ensures r.Ok? ==> INSTRUCTIONS[code] == Some(r.value.0) && ResolverFor(r.value.0.mode) == Some(r.value.1)
    ensures INSTRUCTIONS[code].None? ==> r == Err(InvalidInstruction(code))
  {
    match INSTRUCTIONS[code]
    case None => Err(InvalidInstruction(code))
    case Some(ins) =>
      match ResolverFor(ins.mode)
      case None => Err(InvalidMode(ins.mode))
      case Some(resolver) => Ok((ins, resolver))
  }

  /** A decoded instruction: resolve its address, advance `pc` and the cycle counter, run its
      opcode handler (which may be missing, a throw after the advance). */
  function Perform(m: Machine, ins: Instruction, resolver: Resolver): (r: (Machine, Result<()>))
    requires BusOk(m.bus)
    ensures BusOk(r.0.bus) && r.0.bus.apuStatus == m.bus.apuStatus
  {
    var (m2, address) := Prepare(m, ins, resolver);
    if address.Err? then (m2, Err(address.fault))
    else
      match HandlerFor(ins.opCode)
      case None => (m2, Err(NoHandler(ins.opCode)))
      case Some(h) => Execute(h, m2, address.value)
  }

  /** The part of a step before the opcode handler: the mode handler resolves the address (a
      throw there leaves `pc` and the cycle counter as they were), then `pc` moves past the
      instruction and its base cycles are added. */
  function Prepare(m: Machine, ins: Instruction, resolver: Resolver): (r: (Machine, Result<int>))
    requires BusOk(m.bus)
    ensures BusOk(r.0.bus) && r.0.bus.apuStatus == m.bus.apuStatus
    ensures r.0.core.stallCounter == m.core.stallCounter && r.0.core.interrupt == m.core.interrupt
    ensures r.1.Ok? ==> r.0.core.regs.pc == m.core.regs.pc + ins.size && r.0.core.cycles == m.core.cycles + ins.cycles
    ensures r.1.Err? ==> r.0.core.regs.pc == m.core.regs.pc && r.0.core.cycles == m.core.cycles
  {
    var (m1, address) := Resolve(resolver, m);
    if address.Err? then (m1, address)
    else (m1.(core := Advance(m1.core, ins)), address)
  }

  /** `pc` past an instruction's bytes and its base cycles added. */
  function Advance(core: Core, ins: Instruction): Core
  {
    core.(regs := core.regs.(pc := core.regs.pc + ins.size), cycles := core.cycles + ins.cycles)
  }

  /** `tick`: `b` is cleared; a stalled CPU only counts the stall down and reports 0 cycles;
      a pending interrupt is serviced and reports 7; otherwise one instruction runs and the
      cycles it added are reported. */
  function Tick(m: Machine): (r: (Machine, Result<int>))
    requires BusOk(m.bus)
    ensures BusOk(r.0.bus) && r.0.bus.apuStatus == m.bus.apuStatus
  {
    var m0 := m.(core := m.core.(b := 0));
    if m0.core.stallCounter > 0 then (m0.(core := m0.core.(stallCounter := m0.core.stallCounter - 1)), Ok(0))
    else if m0.core.interrupt.Some? then
      var (m1, e) := ServiceInterrupt(m0);
      (m1, if e.Err? then Err(e.fault) else Ok(7))
    else
      var (m1, e) := Step(m0);
      (m1, if e.Err? then Err(e.fault) else Ok(m1.core.cycles - m.core.cycles))
  }

  /** `reset`: counters, A, X, Y, the pending interrupt and the stall cleared, `pc` loaded from
      the reset vector, `sp` at 0xfd and the flags from 0x24 (only `i` set). */
  function Reset(m: Machine): (r: Machine)
    requires BusOk(m.bus)
    ensures BusOk(r.bus)
  {
    var (bus, vector) := Read16(m.bus, 0xfffc);
    var pc := if vector.Ok? then vector.value else 0;
    var core := m.core.(cycles := 0, interrupt := None, stallCounter := 0,
                        regs := m.core.regs.(a := 0, x := 0, y := 0, pc := pc, sp := 0xfd),
                        flags := FlagsOf(0x24));
    Machine(core, bus)
  }
}
