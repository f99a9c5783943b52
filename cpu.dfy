/** The `Cpu` class of src/Cpu.ts: the registers, flags and counters are fields that `tick`
    and the handlers update in place, and the stack lives in the `CpuMemory` arrays. Every
    method is proved to leave the object where the matching function of CpuModel takes the
    machine. The PPU, the joypad and the APU status byte the CPU reaches through its bus are
    held here as values of the model's types. */
module Processor {
  import opened Wrappers
  import opened Bits
  import opened Common
  import opened CpuModel
  import CpuFacts
  import CpuRam
  import Input
  import Mappers
  import PpuModel

  class Cpu {
    const memory: CpuRam.CpuMemory
    var ppu: PpuModel.PpuState
    var pad: Pad
    var apuStatus: byte

    var cycles: nat
    var b: bit
    var regs: Registers
    var flags: CpuModel.Flags
    var interrupt: Option<Interrupt>
    var stallCounter: nat

    /** The RAM arrays at their sizes and the devices within the bus invariant. */
    ghost predicate Valid()
      reads this, memory, memory.Repr
    {
      memory.Valid() && BusOk(BusState())
    }

    /** The fields of the CPU itself. */
    function CoreState(): Core
      reads this
    {
      Core(regs, flags, cycles, b, interrupt, stallCounter)
    }

    /** What the CPU reaches through `read8` and `write8`. */
    ghost function BusState(): Bus
      requires memory.Valid()
      reads this, memory, memory.Repr
    {
      Bus(memory.State(), ppu, pad, apuStatus)
    }

    ghost function State(): Machine
      requires memory.Valid()
      reads this, memory, memory.Repr
    {
      Machine(CoreState(), BusState())
    }

    /** The fields after `reset`, with fresh RAM (all 0xff), in front of the given PPU and
        joypad; the CPU reads its first `pc` from the reset vector. */
    constructor(ppu: PpuModel.PpuState, pad: Pad, apuStatus: byte)
      requires BusOk(Bus(CpuRam.RamState(seq(CpuRam.ZP_SIZE, _ => 0xff), seq(CpuRam.STACK_SIZE, _ => 0xff),
                                          seq(CpuRam.RAM_SIZE, _ => 0xff)), ppu, pad, apuStatus))
      ensures Valid() && fresh(memory.Repr)
      ensures State() == CpuModel.Reset(Machine(
        Core(Registers(0, 0, 0, 0, 0), CpuModel.Flags(0, 0, 0, 0, 0, 0), 0, 0, None, 0),
        Bus(CpuRam.RamState(seq(CpuRam.ZP_SIZE, _ => 0xff), seq(CpuRam.STACK_SIZE, _ => 0xff),
                            seq(CpuRam.RAM_SIZE, _ => 0xff)), ppu, pad, apuStatus)))
    {
      memory := new CpuRam.CpuMemory();
      this.ppu, this.pad, this.apuStatus := ppu, pad, apuStatus;
      cycles, b, interrupt, stallCounter := 0, 0, None, 0;
      regs, flags := Registers(0, 0, 0, 0, 0), CpuModel.Flags(0, 0, 0, 0, 0, 0);
      new;
      Reset();
    }

    /** `stall`: the DMA's 513 or 514 cycles are added to the stall counter. */
    method Stall()
      requires Valid()
      modifies this
      ensures Valid() && State() == old(State()).(core := CpuModel.Stall(old(CoreState())))
    {
      if cycles % 2 == 1 {
        stallCounter := stallCounter + 514;
      } else {
        stallCounter := stallCounter + 513;
      }
    }

    /** `reset`. */
    method Reset()
      requires Valid()
      modifies this
      ensures Valid() && State() == CpuModel.Reset(old(State()))
    {
      cycles := 0;
      regs := regs.(a := 0, x := 0, y := 0);
      interrupt := None;
      stallCounter := 0;
      var vector := Read16(0xfffc);
      var target: int := if vector.Ok? then vector.value else 0;
      regs := regs.(pc := target, sp := 0xfd);
      SetFlags(0x24);
    }

    /** `triggerNmi`. */
    method TriggerNmi()
      requires Valid()
      modifies this
      ensures Valid() && State() == Trigger(old(State()), Nmi)
    {
      interrupt := Some(Nmi);
    }

    /** `triggerIrq`. */
    method TriggerIrq()
      requires Valid()
      modifies this
      ensures Valid() && State() == Trigger(old(State()), Irq)
    {
      interrupt := Some(Irq);
    }

    // -------------------------------------------------------------------------------------
    // The bus

    /** `read8`: the registers are untouched; the bus moves as `BusRead` says. */
    method Read8(address: int) returns (r: Result<Option<byte>>)
      requires Valid()
      modifies this
      ensures Valid() && CoreState() == old(CoreState())
      ensures (BusState(), r) == BusRead(old(BusState()), address)
    {
      if address < 0x2000 {
        r := Ok(memory.Read8(address));
      } else if address < 0x4000 {
        var (ppu', value) := PpuModel.ReadRegister(ppu, 0x2000 + address % 8);
        ppu, r := ppu', value;
      } else if address == 0x4014 {
        var (ppu', value) := PpuModel.ReadRegister(ppu, address);
        ppu, r := ppu', value;
      } else if address == 0x4015 {
        r := Ok(Some(apuStatus));
      } else if address == 0x4016 {
        r := Ok(Input.ButtonAt(pad.buttons, pad.index));
        pad := pad.(index := pad.index + 1);
      } else if address == 0x4017 {
        r := Ok(Some(0));
      } else if address < 0x6000 {
        r := Ok(Some(0));
      } else {
        r := Ok(Mappers.Read(ppu.vram.mapper, address));
      }
    }

    /** A `read8` whose value the CPU computes with: `undefined` becomes a fault. */
    method ReadByte(address: int) returns (r: Result<byte>)
      requires Valid()
      modifies this
      ensures Valid() && CoreState() == old(CoreState())
      ensures (BusState(), r) == CpuModel.ReadByte(old(BusState()), address)
    {
      var value := Read8(address);
      r := if value.Err? then Err(value.fault) else Defined(value.value, address);
    }

    /** `read16`: the high byte first. */
    method Read16(address: int) returns (r: Result<nat>)
      requires Valid()
      modifies this
      ensures Valid() && CoreState() == old(CoreState())
      ensures (BusState(), r) == CpuModel.Read16(old(BusState()), address)
    {
      var high := Read8(address + 1);
      if high.Err? {
        return Err(high.fault);
      }
      var low := Read8(address);
      if low.Err? {
        return Err(low.fault);
      }
      r := Ok(256 * PpuModel.OrZero(high.value) + PpuModel.OrZero(low.value));
    }

    /** `read16Indirect`: the low byte first, the high byte from the same page. */
    method Read16Indirect(address: nat) returns (r: Result<nat>)
      requires Valid()
      modifies this
      ensures Valid() && CoreState() == old(CoreState())
      ensures (BusState(), r) == CpuModel.Read16Indirect(old(BusState()), address)
    {
      var next := address % 0x10000 / 256 * 256 + (address % 256 + 1) % 256;
      var low := Read8(address);
      if low.Err? {
        return Err(low.fault);
      }
      var high := Read8(next);
      if high.Err? {
        return Err(high.fault);
      }
      r := Ok(256 * PpuModel.OrZero(high.value) + PpuModel.OrZero(low.value));
    }

    /** `write8`; only the DMA at 0x4014 can fail, when one of its reads throws. */
    method Write8(address: int, value: byte) returns (r: Result<()>)
      requires Valid()
      modifies this, memory.zp, memory.stack, memory.ram
      ensures Valid() && (State(), r) == CpuModel.Write(old(State()), address, value)
    {
      r := Ok(());
      if address < 0x2000 {
        memory.Write8(address, value);
      } else if address < 0x4000 {
        ppu := PpuModel.WriteRegister(ppu, 0x2000 + address % 8, value);
      } else if address == 0x4014 {
        r := OamDma(value);
      } else if address == 0x4015 {
      } else if address == 0x4016 {
        pad := pad.(strobe := value, index := if value % 2 == 1 then 0 else pad.index);
      } else if address == 0x4017 {
      } else if address >= 0x6000 {
        var vram := ppu.vram;
        ppu := ppu.(vram := vram.(mapper := Mappers.Write(vram.kind, vram.bankNbr, vram.mapper, address, value)));
      }
    }

    /** The OAM DMA of a write to 0x4014: 256 bytes from page `value` into OAM from the OAM
        address on, the OAM address restored, then the stall. */
    method OamDma(value: byte) returns (r: Result<()>)
      requires Valid()
      modifies this
      ensures Valid() && (State(), r) == CpuModel.OamDma(old(State()), value)
    {
      ppu := ppu.(tmpOamAddress := ppu.oamAddress);
      var address := value * 256;
      ghost var copy := DmaCopy(BusState(), address, PAGE);
      ghost var tmp := ppu.tmpOamAddress;
      var k := 0;
      while k < PAGE
        invariant 0 <= k <= PAGE && address == value * 256 + k
        invariant Valid() && CoreState() == old(CoreState()) && ppu.tmpOamAddress == tmp
        invariant DmaCopy(BusState(), address, PAGE - k) == copy
      {
        ghost var before := BusState();
        CpuFacts.DmaCopyNext(before, address, PAGE - k);
        var fetched := Read8(address);
        if fetched.Err? {
          return Err(fetched.fault);
        }
        StoreOam(PpuModel.OrZero(fetched.value));
        address := address + 1;
        k := k + 1;
      }
      ppu := ppu.(oamAddress := ppu.tmpOamAddress);
      Stall();
      r := Ok(());
    }

    /** One turn of the DMA loop: the byte goes to `oam[oamAddress]` unless that is past the
        end of the OAM, and the OAM address moves on. */
    method StoreOam(value: byte)
      requires Valid()
      modifies this
      ensures Valid() && CoreState() == old(CoreState()) && BusState() == DmaStore(old(BusState()), value)
    {
      var oam := ppu.vram.oam;
      if ppu.oamAddress < |oam| {
        ppu := ppu.(vram := ppu.vram.(oam := oam[ppu.oamAddress := value]));
      }
      ppu := ppu.(oamAddress := ppu.oamAddress + 1);
    }

    // -------------------------------------------------------------------------------------
    // The stack and the status register

    /** `stackPush8`. */
    method StackPush8(value: int)
      requires Valid()
      modifies this, memory.stack
      ensures Valid() && State() == Push8(old(State()), value)
    {
      memory.stack[regs.sp] := ToUint8(value);
      regs := regs.(sp := (regs.sp - 1) % 256);
    }

    /** `stackPush16`: the high byte, then the low byte. */
    method StackPush16(value: int)
      requires Valid()
      modifies this, memory.stack
      ensures Valid() && State() == Push16(old(State()), value)
    {
      StackPush8(ShiftRight8(value));
      StackPush8(value % 256);
    }

    /** `stackPull8`. */
    method StackPull8() returns (value: byte)
      requires Valid()
      modifies this
      ensures Valid() && (State(), value) == Pull8(old(State()))
    {
      regs := regs.(sp := (regs.sp + 1) % 256);
      value := memory.stack[regs.sp];
    }

    /** `stackPull16`: the low byte, then the high byte. */
    method StackPull16() returns (value: nat)
      requires Valid()
      modifies this
      ensures Valid() && (State(), value) == Pull16(old(State()))
    {
      var low := StackPull8();
      var high := StackPull8();
      value := low as nat + 256 * high as nat;
    }

    /** `getFlags`. */
    method GetFlags() returns (value: byte)
      ensures value == FlagsByte(flags)
    {
      value := flags.c + 2 * flags.z + 4 * flags.i + 8 * flags.d + 32 + 64 * flags.v + 128 * flags.n;
    }

    /** `setFlags`: six bits of the value, bits 4 and 5 ignored. */
    method SetFlags(value: byte)
      requires Valid()
      modifies this
      ensures Valid() && State() == old(State()).(core := old(CoreState()).(flags := FlagsOf(value)))
    {
      flags := CpuModel.Flags(value % 2, value / 2 % 2, value / 4 % 2, value / 8 % 2, value / 64 % 2, value / 128 % 2);
    }

    /** Stores the registers, flags and counters an opcode handler of Common.ts computes
        without touching memory. */
    method SetCore(core: Core)
      requires Valid()
      modifies this
      ensures Valid() && State() == old(State()).(core := core)
    {
      regs, flags, cycles, b, interrupt, stallCounter := core.regs, core.flags, core.cycles, core.b, core.interrupt, core.stallCounter;
    }

    // -------------------------------------------------------------------------------------
    // tick

    /** `tick`: the stall counts down first, then a pending interrupt is serviced, then one
        instruction runs; the result is the number of cycles the call reports. */
    method Tick() returns (r: Result<int>)
      requires Valid()
      modifies this, memory.zp, memory.stack, memory.ram
      ensures Valid() && (State(), r) == CpuModel.Tick(old(State()))
    {
      var tmpCycles := cycles;
      b := 0;
      if stallCounter > 0 {
        stallCounter := stallCounter - 1;
        return Ok(0);
      }
      if interrupt.Some? {
        var e := ServiceInterrupt();
        return if e.Err? then Err(e.fault) else Ok(7);
      }
      var e := Step();
      r := if e.Err? then Err(e.fault) else Ok(cycles - tmpCycles);
    }

    /** The interrupt branch of `tick`. */
    method ServiceInterrupt() returns (r: Result<()>)
      requires Valid() && interrupt.Some?
      modifies this, memory.stack
      ensures Valid() && (State(), r) == CpuModel.ServiceInterrupt(old(State()))
    {
      var serviced := interrupt == Some(Nmi) || flags.i != 0;
      if serviced {
        StackPush16(regs.pc);
        var status := GetFlags();
        StackPush8(status);
      }
      r := Ok(());
      if interrupt == Some(Nmi) {
        r := JumpVector(0xfffa);
      } else if flags.i != 0 {
        r := JumpVector(0xfffe);
      }
      if r.Err? {
        return;
      }
      if serviced {
        SetCore(CoreState().(flags := flags.(i := 1), cycles := cycles + 7, interrupt := None));
      } else {
        SetCore(CoreState().(interrupt := None));
      }
    }

    /** `pc` loaded from a 16-bit vector. */
    method JumpVector(vector: int) returns (r: Result<()>)
      requires Valid()
      modifies this
      ensures Valid() && (State(), r) == CpuModel.JumpVector(old(State()), vector)
    {
      var target := Read16(vector);
      if target.Err? {
        return Err(target.fault);
      }
      regs := regs.(pc := target.value);
      r := Ok(());
    }

    /** The instruction branch of `tick`: fetch, look up the descriptor and the mode handler,
        then run it. */
    method Step() returns (r: Result<()>)
      requires Valid()
      modifies this, memory.zp, memory.stack, memory.ram
      ensures Valid() && (State(), r) == CpuModel.Step(old(State()))
    {
      var code := ReadByte(regs.pc);
      if code.Err? {
        return Err(code.fault);
      }
      var decoded := Decode(code.value);
      if decoded.Err? {
        return Err(decoded.fault);
      }
      r := Perform(decoded.value.0, decoded.value.1);
    }

    /** The address from the mode handler, `pc` and the cycle counter advanced, then the
        opcode handler. */
    method Perform(ins: Instruction, resolver: Resolver) returns (r: Result<()>)
      requires Valid()
      modifies this, memory.zp, memory.stack, memory.ram
      ensures Valid() && (State(), r) == CpuModel.Perform(old(State()), ins, resolver)
    {
      var address := Prepare(ins, resolver);
      if address.Err? {
        return Err(address.fault);
      }
      var handler := HandlerFor(ins.opCode);
      if handler.None? {
        return Err(NoHandler(ins.opCode));
      }
      r := Execute(handler.value, address.value);
    }

    // -------------------------------------------------------------------------------------
    // The mode handlers of Common.ts

    /** The mode handler, then `pc` past the instruction and its base cycles added. */
    method Prepare(ins: Instruction, resolver: Resolver) returns (r: Result<int>)
      requires Valid()
      modifies this
      ensures Valid() && (State(), r) == CpuModel.Prepare(old(State()), ins, resolver)
    {
      r := Resolve(resolver);
      if r.Ok? {
        SetCore(Advance(CoreState(), ins));
      }
    }

    /** A mode handler: the address the instruction works on. */
    method Resolve(resolver: Resolver) returns (r: Result<int>)
      requires Valid()
      modifies this
      ensures Valid() && (State(), r) == CpuModel.Resolve(resolver, old(State()))
    {
      match resolver
      case Absolute => r := ResolveAbsolute(resolver);
      case AbsoluteX => r := ResolveAbsolute(resolver);
      case AbsoluteY => r := ResolveAbsolute(resolver);
      case Accumulator => r := Ok(regs.a);
      case Immediate => r := Ok(regs.pc + 1);
      case Implied => r := Ok(0);
      case IndexedIndirectX => r := ResolveIndirect(resolver);
      case IndirectIndexedY => r := ResolveIndirect(resolver);
      case Relative => r := ResolveZeroPage(resolver);
      case ZeroPage => r := ResolveZeroPage(resolver);
      case ZeroPageX => r := ResolveZeroPage(resolver);
      case ZeroPageY => r := ResolveZeroPage(resolver);
    }

    /** The absolute modes: a 16-bit operand, indexed by X or Y or not at all. */
    method ResolveAbsolute(resolver: Resolver) returns (r: Result<int>)
      requires Valid() && (resolver.Absolute? || resolver.AbsoluteX? || resolver.AbsoluteY?)
      modifies this
      ensures Valid() && (State(), r) == CpuModel.Resolve(resolver, old(State()))
    {
      var base := Read16(regs.pc + 1);
      if base.Err? {
        return Err(base.fault);
      }
      if resolver.Absolute? {
        r := Ok(base.value);
      } else {
        var address := Index(base.value, if resolver.AbsoluteX? then regs.x else regs.y);
        r := Ok(address);
      }
    }

    /** The indirect modes: `(zp,X)` and `(zp),Y`. */
    method ResolveIndirect(resolver: Resolver) returns (r: Result<int>)
      requires Valid() && (resolver.IndexedIndirectX? || resolver.IndirectIndexedY?)
      modifies this
      ensures Valid() && (State(), r) == CpuModel.Resolve(resolver, old(State()))
    {
      var pc := regs.pc;
      if resolver.IndexedIndirectX? {
        var operand := Read8(pc + 1);
        if operand.Err? {
          return Err(operand.fault);
        }
        var address := Read16Indirect(ZeroPageIndexed(operand.value, regs.x));
        r := if address.Err? then Err(address.fault) else Ok(address.value);
      } else {
        var pointer := ReadByte(pc + 1);
        if pointer.Err? {
          return Err(pointer.fault);
        }
        var base := Read16Indirect(pointer.value);
        if base.Err? {
          return Err(base.fault);
        }
        var address := Index(base.value, regs.y);
        r := Ok(address);
      }
    }

    /** The one-byte operand modes: relative, zero page, and zero page indexed by X or Y. */
    method ResolveZeroPage(resolver: Resolver) returns (r: Result<int>)
      requires Valid() && (resolver.Relative? || resolver.ZeroPage? || resolver.ZeroPageX? || resolver.ZeroPageY?)
      modifies this
      ensures Valid() && (State(), r) == CpuModel.Resolve(resolver, old(State()))
    {
      var pc := regs.pc;
      if resolver.Relative? {
        var offset := ReadByte(pc + 1);
        r := if offset.Err? then Err(offset.fault) else Ok(RelativeTarget(pc, offset.value));
      } else if resolver.ZeroPage? {
        var address := ReadByte(pc + 1);
        r := if address.Err? then Err(address.fault) else Ok(address.value);
      } else {
        var operand := Read8(pc + 1);
        r := if operand.Err? then Err(operand.fault)
             else Ok(ZeroPageIndexed(operand.value, if resolver.ZeroPageX? then regs.x else regs.y));
      }
    }

    /** An indexed address wrapped to 16 bits; a page crossing sets `b`. */
    method Index(base: nat, index: byte) returns (address: int)
      requires Valid()
      modifies this
      ensures Valid() && State() == old(State()).(core := Indexed(old(CoreState()), base, index).0)
      ensures address == Indexed(old(CoreState()), base, index).1
    {
      address := Wrap16(base + index);
      if IsPageCrossed(address - index, address) {
        b := 1;
      }
    }

    // -------------------------------------------------------------------------------------
    // The opcode handlers of Common.ts

    /** An opcode handler run on the resolved address. */
    method Execute(h: Handler, address: int) returns (r: Result<()>)
      requires Valid()
      modifies this, memory.zp, memory.stack, memory.ram
      ensures Valid() && (State(), r) == CpuModel.Execute(h, old(State()), address)
    {
      if IsOperate(h) || IsModify(h) || h.Sta? || h.Stx? || h.Sty? {
        r := ExecuteOnMemory(h, address);
      } else {
        r := ExecuteOnRegisters(h, address);
      }
    }

    /** The handlers that read or write the resolved address. */
    method ExecuteOnMemory(h: Handler, address: int) returns (r: Result<()>)
      requires Valid() && (IsOperate(h) || IsModify(h) || h.Sta? || h.Stx? || h.Sty?)
      modifies this, memory.zp, memory.stack, memory.ram
      ensures Valid() && (State(), r) == CpuModel.Execute(h, old(State()), address)
    {
      if IsOperate(h) {
        r := ExecuteOperate(h, address);
      } else if IsModify(h) {
        r := Modify(h, address);
      } else {
        r := Write8(address, if h == Sta then regs.a else if h == Stx then regs.x else regs.y);
      }
    }

    /** The handlers that read their operand and change only registers and flags. */
    method ExecuteOperate(h: Handler, address: int) returns (r: Result<()>)
      requires Valid() && IsOperate(h)
      modifies this
      ensures Valid() && (State(), r) == CpuModel.Execute(h, old(State()), address)
    {
      var value := ReadByte(address);
      if value.Err? {
        return Err(value.fault);
      }
      SetCore(Operate(h, CoreState(), value.value));
      r := Ok(());
    }

    /** The branches, the stack handlers, JMP and the handlers that only move registers and
        flags. */
    method ExecuteOnRegisters(h: Handler, address: int) returns (r: Result<()>)
      requires Valid() && !(IsOperate(h) || IsModify(h) || h.Sta? || h.Stx? || h.Sty?)
      modifies this, memory.stack
      ensures Valid() && (State(), r) == CpuModel.Execute(h, old(State()), address)
    {
      r := Ok(());
      if IsBranch(h) {
        SetCore(Branch(CoreState(), BranchTaken(h, flags), address));
      } else if IsStackOp(h) {
        r := StackOp(h, address);
      } else if h == Jmp {
        regs := regs.(pc := Wrap16(address));
      } else {
        SetCore(CpuModel.Implied(h, CoreState()));
      }
    }

    /** ASL, DEC, INC, LSR, ROL and ROR on memory: read, compute, write back. */
    method Modify(h: Handler, address: int) returns (r: Result<()>)
      requires Valid()
      modifies this, memory.zp, memory.stack, memory.ram
      ensures Valid() && (State(), r) == CpuModel.Modify(h, old(State()), address)
    {
      var value := ReadByte(address);
      if value.Err? {
        return Err(value.fault);
      }
      r := StoreModified(h, address, value.value);
    }

    /** The carry (and N and Z first for ASL, DEC and INC) set, the result written back, then N
        and Z for LSR, ROL and ROR. */
    method StoreModified(h: Handler, address: int, value: byte) returns (r: Result<()>)
      requires Valid()
      modifies this, memory.zp, memory.stack, memory.ram
      ensures Valid() && (State(), r) == CpuModel.StoreModified(h, old(State()), address, value)
    {
      var shifted := Modified(h, value, flags.c);
      var early := h.Asl? || h.Dec? || h.Inc?;
      SetCore(CoreState().(flags := if early then WithNZ(flags.(c := shifted.carry), shifted.result) else flags.(c := shifted.carry)));
      r := Write8(address, shifted.result);
      if r.Ok? && !early {
        flags := WithNZ(flags, shifted.result);
      }
    }

    /** BRK, JSR, PHA, PHP, PLA, PLP, RTI and RTS. */
    method StackOp(h: Handler, address: int) returns (r: Result<()>)
      requires Valid() && IsStackOp(h)
      modifies this, memory.stack
      ensures Valid() && (State(), r) == CpuModel.StackOp(h, old(State()), address)
    {
      r := Ok(());
      if h == Brk {
        r := Break();
      } else if h.Jsr? || h.Pha? || h.Php? {
        PushOp(h, address);
      } else {
        PullOp(h);
      }
    }

    /** BRK: `pc + 1` and the flags with bits 3 and 4 set go to the stack, `i` is set and `pc`
        is loaded from the IRQ vector. */
    method Break() returns (r: Result<()>)
      requires Valid()
      modifies this, memory.stack
      ensures Valid() && (State(), r) == CpuModel.Break(old(State()))
    {
      StackPush16(regs.pc + 1);
      StackPush8(BrkByte(flags));
      SetCore(CoreState().(flags := flags.(i := 1)));
      r := JumpVector(0xfffe);
    }

    /** JSR, PHA and PHP. */
    method PushOp(h: Handler, address: int)
      requires Valid() && (h.Jsr? || h.Pha? || h.Php?)
      modifies this, memory.stack
      ensures Valid() && State() == CpuModel.PushOp(h, old(State()), address)
    {
      if h == Jsr {
        JumpToSubroutine(address);
      } else if h == Pha {
        StackPush8(regs.a);
      } else {
        StackPush8(PhpByte(flags));
      }
    }

    /** JSR: the address of its own last byte goes to the stack and `pc` jumps. */
    method JumpToSubroutine(address: int)
      requires Valid()
      modifies this, memory.stack
      ensures Valid() && State() == CpuModel.PushOp(Jsr, old(State()), address)
    {
      StackPush16(regs.pc - 1);
      regs := regs.(pc := Wrap16(address));
    }

    /** PLA, PLP, RTI and RTS. */
    method PullOp(h: Handler)
      requires Valid() && (h.Pla? || h.Plp? || h.Rti? || h.Rts?)
      modifies this
      ensures Valid() && State() == CpuModel.PullOp(h, old(State()))
    {
      if h == Pla {
        PullA();
      } else if h == Plp {
        PullFlags();
      } else if h == Rti {
        ReturnFromInterrupt();
      } else {
        ReturnFromSubroutine();
      }
    }

    /** PLA: A from the stack, N and Z from A. */
    method PullA()
      requires Valid()
      modifies this
      ensures Valid() && State() == CpuModel.PullOp(Pla, old(State()))
    {
      var value := StackPull8();
      regs := regs.(a := value);
      flags := WithNZ(flags, value);
    }

    /** PLP: the flags from the stack, bit 4 cleared and bit 5 set first. */
    method PullFlags()
      requires Valid()
      modifies this
      ensures Valid() && State() == CpuModel.PullOp(Plp, old(State()))
    {
      var value := StackPull8();
      SetFlags(PlpByte(value));
    }

    /** RTI: the flags, then `pc`. */
    method ReturnFromInterrupt()
      requires Valid()
      modifies this
      ensures Valid() && State() == CpuModel.PullOp(Rti, old(State()))
    {
      var value := StackPull8();
      SetFlags(RtiByte(value));
      var target := StackPull16();
      regs := regs.(pc := target);
    }

    /** RTS: `pc` from the stack, plus one. */
    method ReturnFromSubroutine()
      requires Valid()
      modifies this
      ensures Valid() && State() == CpuModel.PullOp(Rts, old(State()))
    {
      var target := StackPull16();
      regs := regs.(pc := target + 1);
    }
  }
}
